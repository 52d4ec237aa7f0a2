// The self-test application of the capstone: key 1 steps through nine
// hardware tests, key 2 runs the selected one and shows PASS or FAIL.
//
// What the devices answer during a test is an input: the key codes and
// encoder deltas of successive polls, the MPU6050 and W25Q64 identifiers,
// the bytes the flash reads back and the pulse counts of the sensor.

module SelfTest {

  import opened CInt

  /** T_OLED .. T_SENSOR are 0 .. 8; T_DONE is their number. */
  const T_OLED: int := 0
  const T_KEYS: int := 1
  const T_BUZZER: int := 2
  const T_ENCODER: int := 3
  const T_MPU: int := 4
  const T_ADC: int := 5
  const T_RTC: int := 6
  const T_W25Q: int := 7
  const T_SENSOR: int := 8
  const T_DONE: int := 9

  const KEY_POLLS: int := 200
  const ENCODER_POLLS: int := 200
  const SENSOR_POLLS: int := 300
  const ENCODER_SLACK: int := 10
  const PATTERN_LEN: int := 16

  /** Key 1: the next test, after T_SENSOR back to T_OLED. */
  function NextTest(t: int): (n: int)
    requires 0 <= t < T_DONE
    ensures 0 <= n < T_DONE
    ensures n == if t == T_SENSOR then T_OLED else t + 1
  {
    (t + 1) % T_DONE
  }

  /** The selection after n presses of key 1. */
  function Presses(t: int, n: nat): (r: int)
    requires 0 <= t < T_DONE
    ensures 0 <= r < T_DONE
  {
    if n == 0 then t else NextTest(Presses(t, n - 1))
  }

  /** n presses move the selection n places round the cycle of nine tests. */
  lemma {:induction false} PressesCycle(t: int, n: nat)
    requires 0 <= t < T_DONE
    ensures Presses(t, n) == (t + n) % T_DONE
  {
    if n > 0 {
      PressesCycle(t, n - 1);
      var p := Presses(t, n - 1);
      assert Presses(t, n) == if p == T_SENSOR then T_OLED else p + 1;
      ModSucc(t + n - 1, T_DONE);
    }
  }

  /** Every test is reached from T_OLED, and nine presses come back to the start. */
  lemma EveryTestReached(t: int, s: int)
    requires 0 <= t < T_DONE && 0 <= s < T_DONE
    ensures Presses(T_OLED, t) == t
    ensures Presses(s, T_DONE) == s
  {
    PressesCycle(T_OLED, t);
    PressesCycle(s, T_DONE);
  }

  /** test_mpu: the WHO_AM_I answer of a missing device reads as 0x00 or 0xFF. */
  predicate MpuPass(id: int)
  {
    id != 0x00 && id != 0xFF
  }

  /** The documented WHO_AM_I value 0x68 passes; a floating or shorted bus does not. */
  lemma MpuExamples()
    ensures MpuPass(0x68) && !MpuPass(0xFF) && !MpuPass(0x00)
  {
  }

  /** Byte i of the W25Q64 test pattern, (uint8_t)(0xA5 ^ i). */
  function PatternByte(i: int): (b: int)
    requires 0 <= i < PATTERN_LEN
    ensures 0 <= b < U8_MOD
  {
    ((0xA5 as bv8) ^ (i as bv8)) as int
  }

  /** The sixteen pattern bytes all keep the high nibble 0xA and are pairwise different. */
  lemma PatternDistinct(i: int, j: int)
    requires 0 <= i < PATTERN_LEN && 0 <= j < PATTERN_LEN
    ensures PatternByte(i) / 16 == 0xA
    ensures i != j ==> PatternByte(i) != PatternByte(j)
  {
    var x, y := i as bv8, j as bv8;
    assert (0xA5 as bv8 ^ x) ^ 0xA5 == x;
    assert (0xA5 as bv8 ^ y) ^ 0xA5 == y;
    assert x < 16;
    assert (0xA5 as bv8 ^ x) >> 4 == 0xA;
  }

  lemma PatternExamples()
    ensures PatternByte(0) == 0xA5 && PatternByte(5) == 0xA0 && PatternByte(15) == 0xAA
  {
  }

  /** The sixteen bytes test_w25q programs. */
  function Pattern(): (w: seq<int>)
    ensures |w| == PATTERN_LEN
    ensures forall i :: 0 <= i < PATTERN_LEN ==> w[i] == PatternByte(i)
  {
    seq(PATTERN_LEN, i requires 0 <= i < PATTERN_LEN => PatternByte(i))
  }

  /** test_w25q: a plausible manufacturer ID, and the pattern read back intact. */
  predicate W25qPass(mid: int, readBack: seq<int>)
  {
    mid != 0xFF && mid != 0x00 && readBack == Pattern()
  }

  /** The running sum of the first n deltas. */
  function Sum(s: seq<int>): int
  {
    if s == [] then 0 else Sum(s[..|s| - 1]) + s[|s| - 1]
  }

  /** After poll i, either encoder has turned more than ten counts from where the test began. */
  predicate Moved(d3: seq<int>, d4: seq<int>, i: int)
    requires 0 <= i < |d3| && i < |d4|
  {
    var s1, s2 := Sum(d3[..i + 1]), Sum(d4[..i + 1]);
    s1 > ENCODER_SLACK || s1 < -ENCODER_SLACK || s2 > ENCODER_SLACK || s2 < -ENCODER_SLACK
  }

  predicate Int16s(s: seq<int>)
  {
    forall i :: 0 <= i < |s| ==> -0x8000 <= s[i] < 0x8000
  }

  lemma SumSnoc(s: seq<int>, i: int)
    requires 0 <= i < |s|
    ensures Sum(s[..i + 1]) == Sum(s[..i]) + s[i]
  {
    assert s[..i + 1][..i] == s[..i];
  }

  /**
   * test_encoder: adds up the TIM3 and TIM4 deltas of up to 200 polls and
   * passes at the first poll where either sum leaves -10 .. 10. Each sum is
   * in that range before a delta is added, so the int32_t sums cannot overflow.
   */
  method TestEncoder(d3: seq<int>, d4: seq<int>) returns (pass: bool, polls: int)
    requires |d3| >= ENCODER_POLLS && |d4| >= ENCODER_POLLS && Int16s(d3) && Int16s(d4)
    ensures pass <==> exists i :: 0 <= i < ENCODER_POLLS && Moved(d3, d4, i)
    ensures 1 <= polls <= ENCODER_POLLS
    ensures forall i :: 0 <= i < polls - 1 ==> !Moved(d3, d4, i)
    ensures pass ==> Moved(d3, d4, polls - 1)
    ensures !pass ==> polls == ENCODER_POLLS
  {
    var sum1, sum2 := 0, 0;
    var i := 0;
    while i < ENCODER_POLLS
      invariant 0 <= i <= ENCODER_POLLS
      invariant sum1 == Sum(d3[..i]) && sum2 == Sum(d4[..i])
      invariant -ENCODER_SLACK <= sum1 <= ENCODER_SLACK && -ENCODER_SLACK <= sum2 <= ENCODER_SLACK
      invariant forall j :: 0 <= j < i ==> !Moved(d3, d4, j)
    {
      SumSnoc(d3, i);
      SumSnoc(d4, i);
      sum1 := sum1 + d3[i];
      sum2 := sum2 + d4[i];
      assert -0x8000_0000 <= sum1 < 0x8000_0000 && -0x8000_0000 <= sum2 < 0x8000_0000;
      if sum1 > ENCODER_SLACK || sum1 < -ENCODER_SLACK || sum2 > ENCODER_SLACK || sum2 < -ENCODER_SLACK {
        assert Moved(d3, d4, i);
        return true, i + 1;
      }
      i := i + 1;
    }
    return false, ENCODER_POLLS;
  }

  /**
   * The polling loop of test_keys (200 polls of Key_GetNum) and of
   * test_sensor (300 polls of CountSensor_Get): pass at the first nonzero
   * sample.
   */
  method PollNonzero(samples: seq<int>, limit: int) returns (pass: bool, polls: int)
    requires 1 <= limit <= |samples|
    ensures pass <==> exists i :: 0 <= i < limit && samples[i] != 0
    ensures 1 <= polls <= limit
    ensures forall i :: 0 <= i < polls - 1 ==> samples[i] == 0
    ensures pass ==> samples[polls - 1] != 0
    ensures !pass ==> polls == limit
  {
    var i := 0;
    while i < limit
      invariant 0 <= i <= limit
      invariant forall j :: 0 <= j < i ==> samples[j] == 0
    {
      if samples[i] != 0 {
        return true, i + 1;
      }
      i := i + 1;
    }
    return false, limit;
  }

  /**
   * test_w25q: stops with FAIL on an ID of 0xFF or 0x00; otherwise builds
   * the pattern, and passes iff what the flash reads back equals it.
   */
  method TestW25q(mid: int, readBack: seq<int>) returns (pass: bool, written: seq<int>)
    ensures pass <==> W25qPass(mid, readBack)
    ensures mid == 0xFF || mid == 0x00 ==> written == []
    ensures mid != 0xFF && mid != 0x00 ==> written == Pattern()
  {
    if mid == 0xFF || mid == 0x00 {
      return false, [];
    }
    var w: seq<int> := [];
    var i := 0;
    while i < PATTERN_LEN
      invariant 0 <= i <= PATTERN_LEN && |w| == i
      invariant forall j :: 0 <= j < i ==> w[j] == PatternByte(j)
    {
      w := w + [((0xA5 as bv8) ^ (i as bv8)) as int];
      i := i + 1;
    }
    return w == readBack, w;
  }

  /** What the devices answer while a test runs. */
  datatype Bench = Bench(keys: seq<int>, enc3: seq<int>, enc4: seq<int>, mpuId: int,
                         flashId: int, readBack: seq<int>, counts: seq<int>)

  predicate BenchOk(b: Bench)
  {
    |b.keys| >= KEY_POLLS && |b.enc3| >= ENCODER_POLLS && |b.enc4| >= ENCODER_POLLS
    && Int16s(b.enc3) && Int16s(b.enc4) && |b.counts| >= SENSOR_POLLS
  }

  /** The verdict of test t on a bench: four tests always pass, the others by their rule. */
  predicate Verdict(t: int, b: Bench)
    requires 0 <= t < T_DONE && BenchOk(b)
  {
    if t == T_KEYS then exists i :: 0 <= i < KEY_POLLS && b.keys[i] != 0
    else if t == T_ENCODER then exists i :: 0 <= i < ENCODER_POLLS && Moved(b.enc3, b.enc4, i)
    else if t == T_MPU then MpuPass(b.mpuId)
    else if t == T_W25Q then W25qPass(b.flashId, b.readBack)
    else if t == T_SENSOR then exists i :: 0 <= i < SENSOR_POLLS && b.counts[i] != 0
    else true
  }

  class Tester {
    /** t, the selected test. */
    var selected: int
    /** The PASS/FAIL results shown so far. */
    var verdicts: seq<bool>

    ghost predicate Valid()
      reads this
    {
      0 <= selected < T_DONE
    }

    constructor ()
      ensures Valid() && selected == T_OLED && verdicts == []
    {
      selected := T_OLED;
      verdicts := [];
    }

    /** Runs the selected test. */
    method Run(b: Bench) returns (pass: bool)
      requires Valid() && BenchOk(b)
      ensures pass == Verdict(selected, b)
    {
      var polls;
      if selected == T_KEYS {
        pass, polls := PollNonzero(b.keys, KEY_POLLS);
      } else if selected == T_ENCODER {
        pass, polls := TestEncoder(b.enc3, b.enc4);
      } else if selected == T_MPU {
        pass := MpuPass(b.mpuId);
      } else if selected == T_W25Q {
        var written;
        pass, written := TestW25q(b.flashId, b.readBack);
      } else if selected == T_SENSOR {
        pass, polls := PollNonzero(b.counts, SENSOR_POLLS);
      } else {
        pass := true;
      }
    }

    /** One main-loop pass with key code k: 1 selects the next test, 2 runs the selected one. */
    method Step(k: int, b: Bench)
      requires Valid() && BenchOk(b)
      modifies this
      ensures Valid()
      ensures k == 1 ==> selected == NextTest(old(selected)) && verdicts == old(verdicts)
      ensures k == 2 ==> selected == old(selected) && verdicts == old(verdicts) + [Verdict(selected, b)]
      ensures k != 1 && k != 2 ==> selected == old(selected) && verdicts == old(verdicts)
    {
      if k == 1 {
        selected := (selected + 1) % T_DONE;
      } else if k == 2 {
        var pass := Run(b);
        verdicts := verdicts + [pass];
      }
    }
  }
}
