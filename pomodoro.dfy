// The Pomodoro timer of the capstone: a work/break machine driven by the
// RTC seconds counter and two keys, with its two lengths in minutes kept
// in words 10 and 11 of the flash parameter page.

module Pomodoro {

  import opened CInt
  import opened FlashStore

  datatype PomoState = Idle | Work | Break | Paused

  const WORK_WORD: int := 10
  const BREAK_WORD: int := 11
  const DEFAULT_WORK: int := 25
  const DEFAULT_BREAK: int := 5

  /** The lengths load_settings accepts from the page: work 5 .. 120 minutes, break 1 .. 60. */
  predicate WorkOk(m: int) { 5 <= m <= 120 }
  predicate BreakOk(m: int) { 1 <= m <= 60 }

  /** The quick presets key 2 steps through while idle: 25/5, 50/10, 15/3, then 25/5 again. */
  function NextPreset(work: int): (p: (int, int))
    ensures WorkOk(p.0) && BreakOk(p.1)
    ensures p == (50, 10) || p == (15, 3) || p == (25, 5)
  {
    if work == 25 then (50, 10) else if work == 50 then (15, 3) else (25, 5)
  }

  /** Three presses bring the presets back to where they started, from any of the three. */
  lemma PresetsCycle(work: int)
    requires work == 25 || work == 50 || work == 15
    ensures NextPreset(NextPreset(NextPreset(work).0).0).0 == work
  {
  }

  /** Any other work length goes to the 25/5 preset first. */
  lemma PresetsRestart(work: int)
    requires work != 25 && work != 50
    ensures NextPreset(work) == (DEFAULT_WORK, DEFAULT_BREAK)
  {
  }

  /** `now + minutes * 60` as a uint32_t deadline. */
  function Deadline(now: int, minutes: int): (e: int)
    requires 0 <= now < U32_MOD && 0 <= minutes < U16_MOD
    ensures 0 <= e < U32_MOD
    ensures now + minutes * 60 < U32_MOD ==> e - now == minutes * 60
  {
    (now + minutes * 60) % U32_MOD
  }

  /** The mm:ss split of the remaining seconds that ui_draw shows. */
  function Clock(left: int): (c: (int, int))
    requires left >= 0
    ensures c.0 * 60 + c.1 == left && 0 <= c.1 < 60 && c.0 >= 0
  {
    (left / 60, left % 60)
  }

  /** The split is unique: minutes and seconds below 60 come back from their total. */
  lemma ClockExact(mm: int, ss: int)
    requires mm >= 0 && 0 <= ss < 60
    ensures Clock(mm * 60 + ss) == (mm, ss)
  {
  }

  /** The timer's registers as a value: the two lengths, s_state, s_end_ts, s_pause_left and s_pause_from. */
  datatype Regs = Regs(workMin: int, breakMin: int, state: PomoState, endTs: nat, pauseLeft: nat, pauseFrom: PomoState)

  /** Valid lengths, 32-bit times, a pause that remembers a running state and no deadline when idle. */
  predicate RegsOk(r: Regs)
  {
    WorkOk(r.workMin) && BreakOk(r.breakMin)
    && r.endTs < U32_MOD && r.pauseLeft < U32_MOD
    && (r.pauseFrom == Work || r.pauseFrom == Break)
    && (r.state == Idle ==> r.endTs == 0)
  }

  /** The seconds left at now: up to the deadline while running, the frozen value while paused, 0 when idle. */
  function Left(r: Regs, now: int): (left: int)
    ensures left >= 0
    ensures r.state == Idle ==> left == 0
    ensures r.state == Paused ==> left == r.pauseLeft
    ensures (r.state == Work || r.state == Break) ==>
      (if r.endTs > now then now + left == r.endTs else left == 0)
  {
    if r.state == Work || r.state == Break then
      (if r.endTs > now then r.endTs - now else 0)
    else if r.state == Paused then r.pauseLeft
    else 0
  }

  /**
   * The registers after key `key` at time now. Key 1 starts work when
   * idle, pauses a running phase keeping what is left, and resumes a
   * pause with that much left again (when the deadline fits in 32 bits);
   * key 2 steps the presets when idle and otherwise resets to idle with
   * nothing left. Only key 2 when idle changes the lengths; other keys
   * change nothing.
   */
  function Pressed(r: Regs, key: int, now: int): (p: Regs)
    requires RegsOk(r) && 0 <= now < U32_MOD
    ensures RegsOk(p)
    ensures key == 1 && r.state == Idle ==> p.state == Work && p.endTs == Deadline(now, r.workMin)
    ensures key == 1 && (r.state == Work || r.state == Break) ==>
      p.state == Paused && p.pauseFrom == r.state && Left(p, now) == Left(r, now)
    ensures key == 1 && r.state == Paused ==>
      p.state == r.pauseFrom && (now + r.pauseLeft < U32_MOD ==> Left(p, now) == r.pauseLeft)
    ensures key == 2 && r.state == Idle ==> (p.workMin, p.breakMin) == NextPreset(r.workMin) && p.state == Idle
    ensures key == 2 && r.state != Idle ==> p.state == Idle && Left(p, now) == 0
    ensures !(key == 2 && r.state == Idle) ==> p.workMin == r.workMin && p.breakMin == r.breakMin
    ensures key != 1 && key != 2 ==> p == r
  {
    if key == 1 then
      if r.state == Idle then r.(state := Work, endTs := Deadline(now, r.workMin))
      else if r.state == Work || r.state == Break then
        r.(pauseLeft := Left(r, now), pauseFrom := r.state, state := Paused)
      else r.(endTs := (now + r.pauseLeft) % U32_MOD, state := r.pauseFrom)
    else if key == 2 then
      if r.state == Idle then
        var q := NextPreset(r.workMin);
        r.(workMin := q.0, breakMin := q.1)
      else r.(state := Idle, endTs := 0, pauseLeft := 0)
    else r
  }

  /**
   * The registers after the expiry check at now: a running phase whose
   * deadline has come ends, WORK into BREAK with a fresh deadline and
   * BREAK into IDLE; anything else is kept. The lengths never change.
   */
  function Expired(r: Regs, now: int): (p: Regs)
    requires RegsOk(r) && 0 <= now < U32_MOD
    ensures RegsOk(p) && p.workMin == r.workMin && p.breakMin == r.breakMin
    ensures r.state == Work && now >= r.endTs ==> p.state == Break && p.endTs == Deadline(now, r.breakMin)
    ensures r.state == Break && now >= r.endTs ==> p.state == Idle
    ensures Left(r, now) > 0 || r.state == Idle || r.state == Paused ==> p == r
  {
    if (r.state == Work || r.state == Break) && now >= r.endTs then
      if r.state == Work then r.(state := Break, endTs := Deadline(now, r.breakMin))
      else r.(state := Idle, endTs := 0)
    else r
  }

  /** A pause is never cut short by the expiry check of the same pass. */
  lemma PauseSurvivesExpiry(r: Regs, now: int)
    requires RegsOk(r) && 0 <= now < U32_MOD && (r.state == Work || r.state == Break)
    ensures Expired(Pressed(r, 1, now), now) == Pressed(r, 1, now)
  {
  }

  class Timer {
    const store: Store
    /** s_work_min and s_break_min. */
    var workMin: int
    var breakMin: int
    /** s_state, s_end_ts, s_pause_left and s_pause_from. */
    var state: PomoState
    var endTs: nat
    var pauseLeft: nat
    var pauseFrom: PomoState

    /**
     * The lengths are always ones load_settings would accept, a pause always
     * remembers a running state, and an idle timer has no deadline.
     */
    ghost predicate Valid()
      reads this, store
    {
      store.Valid() && RegsOk(Registers())
    }

    /** The registers of this timer as a value. */
    function Registers(): Regs
      reads this
    {
      Regs(workMin, breakMin, state, endTs, pauseLeft, pauseFrom)
    }

    /** The seconds left that ui_draw shows: up to the deadline while running, the frozen value while paused. */
    function Remaining(now: int): (left: int)
      reads this
      requires 0 <= now < U32_MOD
      ensures left >= 0
      ensures state == Idle ==> left == 0
      ensures state == Paused ==> left == pauseLeft
      ensures (state == Work || state == Break) ==>
        (if endTs > now then now + left == endTs else left == 0)
    {
      if state == Work || state == Break then
        (if endTs > now then endTs - now else 0)
      else if state == Paused then pauseLeft
      else 0
    }

    /** Start of main: the static defaults, then load_settings. */
    constructor (store: Store)
      requires store.Valid()
      ensures Valid() && this.store == store && state == Idle
      ensures workMin == if WorkOk(store.data[WORK_WORD]) then store.data[WORK_WORD] else DEFAULT_WORK
      ensures breakMin == if BreakOk(store.data[BREAK_WORD]) then store.data[BREAK_WORD] else DEFAULT_BREAK
    {
      this.store := store;
      workMin, breakMin := DEFAULT_WORK, DEFAULT_BREAK;
      state, endTs, pauseLeft, pauseFrom := Idle, 0, 0, Work;
      new;
      LoadSettings();
    }

    /** load_settings: take each stored length only when it is in its range. */
    method LoadSettings()
      requires store.Valid() && WorkOk(workMin) && BreakOk(breakMin)
      modifies this`workMin, this`breakMin
      ensures workMin == if WorkOk(store.data[WORK_WORD]) then store.data[WORK_WORD] else old(workMin)
      ensures breakMin == if BreakOk(store.data[BREAK_WORD]) then store.data[BREAK_WORD] else old(breakMin)
    {
      if 5 <= store.data[WORK_WORD] && store.data[WORK_WORD] <= 120 {
        workMin := store.data[WORK_WORD];
      }
      if 1 <= store.data[BREAK_WORD] && store.data[BREAK_WORD] <= 60 {
        breakMin := store.data[BREAK_WORD];
      }
    }

    /** save_settings: both lengths into their words, then Store_Save. */
    method SaveSettings()
      requires store.Valid() && WorkOk(workMin) && BreakOk(breakMin)
      modifies store.data, store`saved
      ensures store.data[..] == old(store.data[..])[WORK_WORD := workMin][BREAK_WORD := breakMin]
      ensures store.saved == store.data[..]
    {
      store.data[WORK_WORD] := workMin;
      store.data[BREAK_WORD] := breakMin;
      store.Save();
    }

    /**
     * One key press at RTC time now. Key 1 starts work when idle, pauses a
     * running phase keeping its remaining time, and resumes a paused one
     * with a new deadline that far ahead. Key 2 steps the presets and saves
     * them when idle, and otherwise resets to idle. Other keys do nothing.
     */
    method Press(key: int, now: int)
      requires Valid() && 0 <= now < U32_MOD
      modifies this`workMin, this`breakMin, this`state, this`endTs, this`pauseLeft, this`pauseFrom,
        store.data, store`saved
      ensures Valid()
      ensures Registers() == Pressed(old(Registers()), key, now)
      ensures key == 1 && old(state) == Idle ==>
        state == Work && endTs == Deadline(now, workMin) && unchanged(store)
        && workMin == old(workMin) && breakMin == old(breakMin)
        && pauseLeft == old(pauseLeft) && pauseFrom == old(pauseFrom)
      ensures key == 1 && (old(state) == Work || old(state) == Break) ==>
        state == Paused && pauseFrom == old(state) && pauseLeft == old(Remaining(now))
        && endTs == old(endTs) && workMin == old(workMin) && breakMin == old(breakMin) && unchanged(store)
      ensures key == 1 && old(state) == Paused ==>
        state == old(pauseFrom) && endTs == (now + old(pauseLeft)) % U32_MOD
        && pauseLeft == old(pauseLeft) && pauseFrom == old(pauseFrom)
        && workMin == old(workMin) && breakMin == old(breakMin) && unchanged(store)
      ensures key == 2 && old(state) == Idle ==>
        (workMin, breakMin) == NextPreset(old(workMin)) && state == Idle
        && endTs == old(endTs) && pauseLeft == old(pauseLeft) && pauseFrom == old(pauseFrom)
        && store.data[..] == old(store.data[..])[WORK_WORD := workMin][BREAK_WORD := breakMin]
        && store.saved == store.data[..]
      ensures key == 2 && old(state) != Idle ==>
        state == Idle && endTs == 0 && pauseLeft == 0 && pauseFrom == old(pauseFrom)
        && workMin == old(workMin) && breakMin == old(breakMin) && unchanged(store)
      ensures key != 1 && key != 2 ==>
        unchanged(this) && unchanged(store) && store.data[..] == old(store.data[..])
      ensures !(key == 2 && old(state) == Idle) ==>
        store.data[..] == old(store.data[..]) && store.saved == old(store.saved)
    {
      if key == 1 {
        if state == Idle {
          StartWork(now);
        } else if state == Work || state == Break {
          pauseLeft := if endTs > now then endTs - now else 0;
          pauseFrom := state;
          state := Paused;
        } else if state == Paused {
          endTs := (now + pauseLeft) % U32_MOD;
          state := pauseFrom;
        }
      } else if key == 2 {
        if state == Idle {
          if workMin == 25 {
            workMin, breakMin := 50, 10;
          } else if workMin == 50 {
            workMin, breakMin := 15, 3;
          } else {
            workMin, breakMin := 25, 5;
          }
          SaveSettings();
        } else {
          state, endTs, pauseLeft := Idle, 0, 0;
        }
      }
    }

    /** start_work: WORK with a deadline work_min minutes ahead. */
    method StartWork(now: int)
      requires 0 <= now < U32_MOD && WorkOk(workMin)
      modifies this`state, this`endTs
      ensures state == Work && endTs == Deadline(now, workMin)
    {
      state := Work;
      endTs := (now + workMin * 60) % U32_MOD;
    }

    /** start_break: BREAK with a deadline break_min minutes ahead. */
    method StartBreak(now: int)
      requires 0 <= now < U32_MOD && BreakOk(breakMin)
      modifies this`state, this`endTs
      ensures state == Break && endTs == Deadline(now, breakMin)
    {
      state := Break;
      endTs := (now + breakMin * 60) % U32_MOD;
    }

    /** The expiry check: a running phase whose deadline has come ends; WORK goes to BREAK, BREAK to IDLE. */
    method Expire(now: int)
      requires Valid() && 0 <= now < U32_MOD
      modifies this`state, this`endTs
      ensures Valid()
      ensures Registers() == Expired(old(Registers()), now)
      ensures old(state) == Work && now >= old(endTs) ==> state == Break && endTs == Deadline(now, breakMin)
      ensures old(state) == Break && now >= old(endTs) ==> state == Idle && endTs == 0
      ensures !((old(state) == Work || old(state) == Break) && now >= old(endTs)) ==>
        state == old(state) && endTs == old(endTs)
    {
      if (state == Work || state == Break) && now >= endTs {
        if state == Work {
          StartBreak(now);
        } else {
          state := Idle;
          endTs := 0;
        }
      }
    }

    /**
     * One pass of the main loop: the key first, then the expiry check, at
     * the same RTC time. The page changes, and is saved, only when key 2
     * steps the presets of an idle timer.
     */
    method Step(key: int, now: int)
      requires Valid() && 0 <= now < U32_MOD
      modifies this`workMin, this`breakMin, this`state, this`endTs, this`pauseLeft, this`pauseFrom,
        store.data, store`saved
      ensures Valid()
      ensures Registers() == Expired(Pressed(old(Registers()), key, now), now)
      ensures key == 2 && old(state) == Idle ==>
        store.data[..] == old(store.data[..])[WORK_WORD := workMin][BREAK_WORD := breakMin]
        && store.saved == store.data[..]
      ensures !(key == 2 && old(state) == Idle) ==>
        store.data[..] == old(store.data[..]) && store.saved == old(store.saved)
    {
      Press(key, now);
      Expire(now);
    }
  }

  /**
   * Pausing at now1 and resuming at now2 keeps the time left: right after the
   * resume the display shows what it showed when the pause began, as long
   * as the new deadline fits in 32 bits.
   */
  method PauseThenResume(t: Timer, now1: int, now2: int) returns (before: int, after: int)
    requires t.Valid() && (t.state == Work || t.state == Break)
    requires 0 <= now1 < U32_MOD && 0 <= now2 < U32_MOD
    requires now2 + t.Remaining(now1) < U32_MOD
    modifies t, t.store.data, t.store`saved
    ensures before == after && t.state == old(t.state)
  {
    before := t.Remaining(now1);
    t.Press(1, now1);
    t.Press(1, now2);
    after := t.Remaining(now2);
  }
}
