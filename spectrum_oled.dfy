// The capstone's OLED spectrum: eight Goertzel bands of the audio block
// are smoothed and scaled to levels 0 .. 3. Line 3 shows one level
// character per band, line 4 the level one step further round the cycle
// of four, and three PWM channels follow the band pairs 0+1, 3+4 and 6+7.
//
// The band powers and their floating-point scaling are left out; the
// levels are inputs. A text line is a char array holding a C string.

module SpectrumOled {

  import opened CInt
  import opened PwmTim2

  const BANDS: int := 8
  const WIDTH: int := 16
  const MAX_LEVEL: int := 3

  /** level_char. */
  function LevelChar(level: int): (c: char)
    requires 0 <= level < U8_MOD
    ensures level == 0 ==> c == ' '
    ensures level == 1 ==> c == '.'
    ensures level == 2 ==> c == '*'
    ensures level >= 3 ==> c == '#'
  {
    if level == 0 then ' ' else if level == 1 then '.' else if level == 2 then '*' else '#'
  }

  /** The four levels get four different characters. */
  lemma LevelCharInjective(a: int, b: int)
    requires 0 <= a <= MAX_LEVEL && 0 <= b <= MAX_LEVEL && LevelChar(a) == LevelChar(b)
    ensures a == b
  {
  }

  predicate Levels(lvl: seq<int>)
  {
    |lvl| == BANDS && forall i :: 0 <= i < BANDS ==> 0 <= lvl[i] <= MAX_LEVEL
  }

  /** The level line 4 shows for a band: (lvl + 1) % 4 as uint8_t. */
  function Shifted(level: int): (s: int)
    requires 0 <= level <= MAX_LEVEL
    ensures 0 <= s <= MAX_LEVEL
    ensures level < MAX_LEVEL ==> s == level + 1
    ensures level == MAX_LEVEL ==> s == 0
  {
    (level + 1) % 4 % U8_MOD
  }

  /** A row: one character per band, spaces in columns 8 .. 15, a NUL in column 16. */
  function Row(lvl: seq<int>, shift: bool): (s: seq<char>)
    requires Levels(lvl)
    ensures |s| == WIDTH + 1 && s[WIDTH] == '\0'
    ensures forall i :: BANDS <= i < WIDTH ==> s[i] == ' '
    ensures forall i :: 0 <= i < BANDS ==> s[i] == LevelChar(if shift then Shifted(lvl[i]) else lvl[i])
  {
    seq(BANDS, i requires 0 <= i < BANDS => LevelChar(if shift then Shifted(lvl[i]) else lvl[i]))
      + seq(WIDTH - BANDS, _ => ' ') + ['\0']
  }

  /** The two rows together tell the level of every band, and a silent band shows '.' below. */
  lemma RowsDetermineLevels(lvl: seq<int>, other: seq<int>, i: int)
    requires Levels(lvl) && Levels(other) && 0 <= i < BANDS
    requires Row(lvl, false) == Row(other, false)
    ensures lvl[i] == other[i]
    ensures lvl[i] == 0 ==> Row(lvl, true)[i] == '.'
    ensures lvl[i] == MAX_LEVEL ==> Row(lvl, true)[i] == ' '
  {
    assert Row(lvl, false)[i] == Row(other, false)[i];
    LevelCharInjective(lvl[i], other[i]);
  }

  /** The three compare values: (l0 + l1) * (period / 8), (l3 + l4) * (period / 8), (l6 + l7) * (period / 6), as uint16_t. */
  function Compares(lvl: seq<int>, period: int): (c: (int, int, int))
    requires Levels(lvl) && 0 <= period < U16_MOD
    ensures c.0 == (lvl[0] + lvl[1]) * (period / 8) && c.1 == (lvl[3] + lvl[4]) * (period / 8)
    ensures c.2 == (lvl[6] + lvl[7]) * (period / 6)
    ensures c.0 <= period && c.1 <= period && c.2 <= period
  {
    var a, b, d := lvl[0] + lvl[1], lvl[3] + lvl[4], lvl[6] + lvl[7];
    ScaledFits(a, 8, period);
    ScaledFits(b, 8, period);
    ScaledFits(d, 6, period);
    (U16(a * (period / 8)), U16(b * (period / 8)), U16(d * (period / 6)))
  }

  /** A sum of two levels times period / divisor stays within the period for a divisor of 6 or more. */
  lemma ScaledFits(sum: int, divisor: int, period: int)
    requires 0 <= sum <= 2 * MAX_LEVEL && 2 * MAX_LEVEL <= divisor && 0 <= period
    ensures 0 <= sum * (period / divisor) <= period
  {
    var q := period / divisor;
    DivBounds(period, divisor);
    MulMono(sum, divisor, q);
  }

  /** At the demo's period 999, full levels give 744, 744 and 996. */
  lemma CompareExamples(lvl: seq<int>)
    requires Levels(lvl) && forall i :: 0 <= i < BANDS ==> lvl[i] == MAX_LEVEL
    ensures Compares(lvl, 999) == (744, 744, 996)
  {
  }

  /** Lines 3 and 4 of a frame, filled column by column. */
  method BuildRows(lvl: seq<int>) returns (l3: array<char>, l4: array<char>)
    requires Levels(lvl)
    ensures fresh(l3) && fresh(l4) && l3 != l4
    ensures l3[..] == Row(lvl, false) && l4[..] == Row(lvl, true)
  {
    l3 := new char[WIDTH + 1];
    l4 := new char[WIDTH + 1];
    var i := 0;
    while i < BANDS
      invariant 0 <= i <= BANDS
      invariant forall j :: 0 <= j < i ==> l3[j] == LevelChar(lvl[j]) && l4[j] == LevelChar(Shifted(lvl[j]))
    {
      l3[i] := LevelChar(lvl[i]);
      l4[i] := LevelChar((lvl[i] + 1) % 4 % U8_MOD);
      i := i + 1;
    }
    while i < WIDTH
      invariant BANDS <= i <= WIDTH
      invariant forall j :: 0 <= j < BANDS ==> l3[j] == LevelChar(lvl[j]) && l4[j] == LevelChar(Shifted(lvl[j]))
      invariant forall j :: BANDS <= j < i ==> l3[j] == ' ' && l4[j] == ' '
    {
      l3[i] := ' ';
      l4[i] := ' ';
      i := i + 1;
    }
    l3[WIDTH] := '\0';
    l4[WIDTH] := '\0';
    assert l3[..] == Row(lvl, false);
    assert l4[..] == Row(lvl, true);
  }

  /** The PWM update of a frame: CH1 .. CH3 get the three compare values, none of them clipped. */
  method Drive(pwm: Tim2, lvl: seq<int>)
    requires pwm.Valid() && Levels(lvl)
    modifies pwm`ccr
    ensures pwm.Valid()
    ensures var c := Compares(lvl, pwm.period);
      pwm.ccr == old(pwm.ccr)[0 := c.0][1 := c.1][2 := c.2]
  {
    var period := pwm.GetPeriod();
    var c := Compares(lvl, period);
    pwm.SetCompare(1, c.0);
    pwm.SetCompare(2, c.1);
    pwm.SetCompare(3, c.2);
  }
}
