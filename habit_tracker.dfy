// The habit-tracker application of the capstone: a seven-day window of
// daily counts kept in the flash parameter page, indexed by the RTC day
// number and slid forward when the day changes.
//
// Page layout: words 30 and 31 hold the low and high halves of the base
// day, words 32 .. 38 the counts of the seven days ending with today
// (word 38). The RTC counter, the pulse `CountSensor_Get` reports and
// the key code are inputs of the main-loop step.

module HabitTracker {

  import opened CInt
  import opened FlashStore

  const SECONDS_PER_DAY: int := 86400
  const BASE_LO: int := 30
  const BASE_HI: int := 31
  const FIRST_DAY: int := 32
  const TODAY: int := 38
  const DAYS: int := 7

  /** get_day: the number of whole days the RTC counter has counted. */
  function Day(seconds: int): (d: int)
    requires 0 <= seconds < U32_MOD
    ensures 0 <= d && d * SECONDS_PER_DAY <= seconds < (d + 1) * SECONDS_PER_DAY
  {
    seconds / SECONDS_PER_DAY
  }

  /** The base day recorded in a page image. */
  function Base(s: seq<Half>): int
    requires |s| == STORE_COUNT
  {
    Join(s[BASE_LO], s[BASE_HI])
  }

  /** The seven day counts of a page image, oldest first. */
  function Window(s: seq<Half>): seq<Half>
    requires |s| == STORE_COUNT
  {
    s[FIRST_DAY..FIRST_DAY + DAYS]
  }

  /** The window k days later: every count moves k days toward the oldest slot, new days count 0. */
  function Shifted(w: seq<Half>, k: nat): (r: seq<Half>)
    requires |w| == DAYS
    ensures |r| == DAYS
    ensures forall i :: 0 <= i < DAYS ==> r[i] == if i + k < DAYS then w[i + k] else 0
  {
    if k >= DAYS then seq(DAYS, _ => 0) else w[k..] + seq(k, _ => 0)
  }

  /** One more day after k days is the window of k + 1 days. */
  lemma ShiftedStep(w: seq<Half>, k: nat)
    requires |w| == DAYS
    ensures Shifted(w, k)[1..] + [0] == Shifted(w, k + 1)
  {
    var a, b := Shifted(w, k)[1..] + [0], Shifted(w, k + 1);
    forall i | 0 <= i < DAYS
      ensures a[i] == b[i]
    {
      if i < DAYS - 1 {
        assert a[i] == Shifted(w, k)[i + 1];
      }
    }
  }

  /** Sliding by a days and then by b days is sliding by a + b days. */
  lemma ShiftedCompose(w: seq<Half>, a: nat, b: nat)
    requires |w| == DAYS
    ensures Shifted(Shifted(w, a), b) == Shifted(w, a + b)
  {
    var x, y := Shifted(Shifted(w, a), b), Shifted(w, a + b);
    forall i | 0 <= i < DAYS
      ensures x[i] == y[i]
    {
      if i + b < DAYS {
        assert x[i] == Shifted(w, a)[i + b];
      }
    }
  }

  /** A gap of a week or more clears the whole window. */
  lemma ShiftedWeek(w: seq<Half>, k: nat)
    requires |w| == DAYS && k >= DAYS
    ensures Shifted(w, k) == seq(DAYS, _ => 0)
  {
  }

  /** The page words other than the base and the window. */
  predicate OthersSame(s: seq<Half>, t: seq<Half>)
    requires |s| == STORE_COUNT && |t| == STORE_COUNT
  {
    forall i :: 0 <= i < STORE_COUNT && !(BASE_LO <= i < FIRST_DAY + DAYS) ==> s[i] == t[i]
  }

  /** The page with the base day b written back as its low and high halves. */
  function Rebased(s: seq<Half>, b: int): (t: seq<Half>)
    requires |s| == STORE_COUNT && 0 <= b < WORD_MOD
    ensures |t| == STORE_COUNT && Base(t) == b && Window(t) == Window(s) && OthersSame(s, t)
    ensures t[BASE_LO] == b % HALF_MOD && t[BASE_HI] == b / HALF_MOD
  {
    JoinSplit(b);
    s[BASE_LO := b % HALF_MOD][BASE_HI := b / HALF_MOD]
  }

  /** The page with the seven day counts replaced by w. */
  function WithWindow(s: seq<Half>, w: seq<Half>): (t: seq<Half>)
    requires |s| == STORE_COUNT && |w| == DAYS
    ensures |t| == STORE_COUNT && Window(t) == w && OthersSame(s, t)
    ensures t[BASE_LO] == s[BASE_LO] && t[BASE_HI] == s[BASE_HI]
  {
    s[..FIRST_DAY] + w + s[FIRST_DAY + DAYS..]
  }

  /** Whether rotate_days to newDay writes the page (and so saves it). */
  predicate RotateSaves(s: seq<Half>, newDay: int)
    requires |s| == STORE_COUNT
  {
    Base(s) == 0 || newDay > Base(s)
  }

  /**
   * The page after rotate_days(newDay): an unset base (0) becomes newDay
   * with the window kept; a day not after the base changes nothing;
   * otherwise the window slides by the gap, at most seven days, and the
   * base advances by the same amount, so after a longer gap it is the old
   * base plus 7.
   */
  function Rotated(s: seq<Half>, newDay: int): (t: seq<Half>)
    requires |s| == STORE_COUNT && 0 <= newDay < WORD_MOD
    ensures |t| == STORE_COUNT
    ensures Base(s) == 0 ==> Base(t) == newDay && Window(t) == Window(s) && OthersSame(s, t)
    ensures Base(s) != 0 && newDay <= Base(s) ==> t == s
    ensures Base(s) != 0 && newDay > Base(s) ==>
      var k := Min(newDay - Base(s), DAYS);
      Base(t) == Base(s) + k && Window(t) == Shifted(Window(s), k) && OthersSame(s, t)
  {
    if Base(s) == 0 then Rebased(s, newDay)
    else if newDay <= Base(s) then s
    else
      var k := Min(newDay - Base(s), DAYS);
      var w := WithWindow(s, Shifted(Window(s), k));
      assert OthersSame(s, w) && Base(w) == Base(s);
      Rebased(w, Base(s) + k)
  }

  /** The page after a CountSensor reading c, the reading already counted being last. */
  function Sensed(s: seq<Half>, last: int, c: int): (t: seq<Half>)
    requires |s| == STORE_COUNT
    ensures |t| == STORE_COUNT
    ensures c == last ==> t == s
    ensures c != last ==> t[TODAY] == (s[TODAY] + (c - last) % U16_MOD) % U16_MOD
    ensures forall i :: 0 <= i < STORE_COUNT && i != TODAY ==> t[i] == s[i]
  {
    if c == last then s else s[TODAY := (s[TODAY] + (c - last) % U16_MOD) % U16_MOD]
  }

  /** The page after key k: key 2 adds one to today, key 1 clears the window, any other key does nothing. */
  function Keyed(s: seq<Half>, k: int): (t: seq<Half>)
    requires |s| == STORE_COUNT
    ensures |t| == STORE_COUNT
    ensures k == 2 ==> t[TODAY] == (s[TODAY] + 1) % U16_MOD && forall i :: 0 <= i < STORE_COUNT && i != TODAY ==> t[i] == s[i]
    ensures k == 1 ==> Window(t) == seq(DAYS, _ => 0) && forall i :: 0 <= i < STORE_COUNT && !(FIRST_DAY <= i < FIRST_DAY + DAYS) ==> t[i] == s[i]
    ensures k != 1 && k != 2 ==> t == s
  {
    if k == 2 then s[TODAY := (s[TODAY] + 1) % U16_MOD]
    else if k == 1 then
      var t := WithWindow(s, seq(DAYS, _ => 0));
      assert forall i :: 0 <= i < STORE_COUNT && !(FIRST_DAY <= i < FIRST_DAY + DAYS) ==> t[i] == s[i] by {
        assert OthersSame(s, t);
      }
      t
    else s
  }

  /** Two pages that agree on the base words, the window and every other word are the same page. */
  lemma PageEq(a: seq<Half>, b: seq<Half>)
    requires |a| == STORE_COUNT && |b| == STORE_COUNT
    requires a[BASE_LO] == b[BASE_LO] && a[BASE_HI] == b[BASE_HI]
    requires Window(a) == Window(b) && OthersSame(a, b)
    ensures a == b
  {
    forall i | 0 <= i < STORE_COUNT
      ensures a[i] == b[i]
    {
      if FIRST_DAY <= i < FIRST_DAY + DAYS {
        assert a[i] == Window(a)[i - FIRST_DAY];
        assert b[i] == Window(b)[i - FIRST_DAY];
      }
    }
  }

  class Tracker {
    const store: Store
    /** last_sensor: the CountSensor reading already counted. */
    var lastSensor: Half
    /** last_day: the day the window was last rotated to. */
    var lastDay: int

    ghost predicate Valid()
      reads this, store
    {
      store.Valid() && 0 <= lastDay < U32_MOD
    }

    /** The start of main: no pulse counted yet, the window rotated to the current day. */
    constructor (store: Store, seconds: int)
      requires store.Valid() && 0 <= seconds < U32_MOD
      modifies store.data, store`saved
      ensures Valid() && this.store == store
      ensures lastSensor == 0 && lastDay == Day(seconds)
      ensures store.data[..] == Rotated(old(store.data[..]), Day(seconds))
      ensures store.saved == if RotateSaves(old(store.data[..]), Day(seconds)) then store.data[..] else old(store.saved)
    {
      this.store := store;
      lastSensor := 0;
      lastDay := Day(seconds);
      new;
      RotateDays(lastDay);
    }

    /** rotate_days: the page becomes Rotated(page, newDay), saved whenever it is written. */
    method RotateDays(newDay: int)
      requires store.Valid() && 0 <= newDay < U32_MOD
      modifies store.data, store`saved
      ensures store.Valid()
      ensures store.data[..] == Rotated(old(store.data[..]), newDay)
      ensures store.saved == if RotateSaves(old(store.data[..]), newDay) then store.data[..] else old(store.saved)
    {
      ghost var s := store.data[..];
      var base := Join(store.data[BASE_LO], store.data[BASE_HI]);
      SplitJoin(store.data[BASE_LO], store.data[BASE_HI]);
      if base == 0 {
        base := newDay;
        JoinSplit(base);
        store.data[BASE_LO] := base % U16_MOD;
        store.data[BASE_HI] := base / U16_MOD;
        PageEq(store.data[..], Rebased(s, newDay));
        store.Save();
        return;
      }
      if newDay <= base {
        return;
      }
      var diff := newDay - base;
      if diff > DAYS {
        diff := DAYS;
      }
      var i := 0;
      while i < diff
        invariant 0 <= i <= diff
        invariant base == Base(s) + i
        invariant Window(store.data[..]) == Shifted(Window(s), i)
        invariant store.data[BASE_LO] == s[BASE_LO] && store.data[BASE_HI] == s[BASE_HI]
        invariant OthersSame(s, store.data[..])
      {
        ShiftOnce();
        ShiftedStep(Window(s), i);
        base := base + 1;
        i := i + 1;
      }
      JoinSplit(base);
      store.data[BASE_LO] := base % U16_MOD;
      store.data[BASE_HI] := base / U16_MOD;
      assert Window(store.data[..]) == Shifted(Window(s), i);
      ghost var w := WithWindow(s, Shifted(Window(s), diff));
      PageEq(store.data[..], Rebased(w, base));
      store.Save();
    }

    /** One pass of the outer loop: words 33 .. 38 move down one place and word 38 becomes 0. */
    method ShiftOnce()
      requires store.Valid()
      modifies store.data
      ensures Window(store.data[..]) == Window(old(store.data[..]))[1..] + [0]
      ensures forall i :: 0 <= i < STORE_COUNT && !(FIRST_DAY <= i < FIRST_DAY + DAYS) ==> store.data[i] == old(store.data[i])
    {
      ghost var s := store.data[..];
      var d := 0;
      while d < DAYS - 1
        invariant 0 <= d <= DAYS - 1
        invariant forall i :: FIRST_DAY <= i < FIRST_DAY + d ==> store.data[i] == s[i + 1]
        invariant forall i :: 0 <= i < STORE_COUNT && !(FIRST_DAY <= i < FIRST_DAY + d) ==> store.data[i] == s[i]
      {
        store.data[FIRST_DAY + d] := store.data[FIRST_DAY + d + 1];
        d := d + 1;
      }
      store.data[TODAY] := 0;
      assert Window(store.data[..]) == Window(s)[1..] + [0] by {
        forall i | 0 <= i < DAYS
          ensures Window(store.data[..])[i] == (Window(s)[1..] + [0])[i]
        {
          if i < DAYS - 1 {
            assert store.data[FIRST_DAY + i] == s[FIRST_DAY + i + 1];
          }
        }
      }
    }

    /**
     * A new CountSensor reading c: the pulses since the last reading,
     * (c - last) mod 2^16, are added to today's count modulo 2^16 and the
     * page is saved. An unchanged reading changes nothing.
     */
    method Sense(c: Half)
      requires store.Valid()
      modifies this`lastSensor, store.data, store`saved
      ensures lastSensor == c
      ensures store.data[..] == Sensed(old(store.data[..]), old(lastSensor), c)
      ensures store.saved == if c != old(lastSensor) then store.data[..] else old(store.saved)
    {
      if c != lastSensor {
        var diff := (c - lastSensor) % U16_MOD;
        lastSensor := c;
        store.data[TODAY] := (store.data[TODAY] + diff) % U16_MOD;
        store.Save();
      }
    }

    /** Key 2 adds one to today (modulo 2^16), key 1 clears the whole window; both save the page. */
    method Key(k: int)
      requires store.Valid()
      modifies store.data, store`saved
      ensures store.data[..] == Keyed(old(store.data[..]), k)
      ensures store.saved == if k == 1 || k == 2 then store.data[..] else old(store.saved)
    {
      ghost var s := store.data[..];
      if k == 2 {
        store.data[TODAY] := (store.data[TODAY] + 1) % U16_MOD;
        store.Save();
      } else if k == 1 {
        var i := 0;
        while i < DAYS
          invariant 0 <= i <= DAYS
          invariant forall j :: FIRST_DAY <= j < FIRST_DAY + i ==> store.data[j] == 0
          invariant forall j :: 0 <= j < STORE_COUNT && !(FIRST_DAY <= j < FIRST_DAY + i) ==> store.data[j] == old(store.data[j])
        {
          store.data[FIRST_DAY + i] := 0;
          i := i + 1;
        }
        store.data[TODAY] := 0;
        assert Window(store.data[..]) == seq(DAYS, _ => 0) by {
          forall j | 0 <= j < DAYS
            ensures Window(store.data[..])[j] == 0
          {
            assert store.data[FIRST_DAY + j] == 0;
          }
        }
        PageEq(store.data[..], Keyed(s, k));
        store.Save();
      }
    }

    /**
     * One pass of the main loop: rotate on a new day, then count sensor
     * pulses, then act on the key. The page is saved exactly when one of
     * the three writes it.
     */
    method Step(seconds: int, c: Half, k: int)
      requires Valid() && 0 <= seconds < U32_MOD
      modifies this`lastDay, this`lastSensor, store.data, store`saved
      ensures Valid() && lastDay == Day(seconds) && lastSensor == c
      ensures var s, day := old(store.data[..]), Day(seconds);
        var r := if day != old(lastDay) then Rotated(s, day) else s;
        store.data[..] == Keyed(Sensed(r, old(lastSensor), c), k)
      ensures var s, day := old(store.data[..]), Day(seconds);
        var saves := (day != old(lastDay) && RotateSaves(s, day)) || c != old(lastSensor) || k == 1 || k == 2;
        store.saved == if saves then store.data[..] else old(store.saved)
    {
      var day := Day(seconds);
      if day != lastDay {
        lastDay := day;
        RotateDays(day);
      }
      Sense(c);
      Key(k);
    }
  }

  /**
   * The counting rule of the sensor branch: today's count minus the sensor
   * reading is kept modulo 2^16, so no pulse is lost or counted twice
   * across one 16-bit wrap of the counter.
   */
  lemma SensorKeepsOffset(today: int, last: int, c: int)
    ensures ((today + (c - last) % U16_MOD) % U16_MOD - c) % U16_MOD == (today - last) % U16_MOD
  {
    var d := (c - last) % U16_MOD;
    var q := (c - last) / U16_MOD;
    assert c - last == U16_MOD * q + d;
    var n := today + d;
    assert n % U16_MOD == n - U16_MOD * (n / U16_MOD);
    assert n % U16_MOD - c == (today - last) + U16_MOD * (-q - n / U16_MOD);
    ModShift(today - last, -q - n / U16_MOD);
  }

  lemma ModShift(x: int, m: int)
    ensures (x + U16_MOD * m) % U16_MOD == x % U16_MOD
  {
  }
}
