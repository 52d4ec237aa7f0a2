// The C library's string scanning as the command parsers use it:
// prefix tests (strncmp), and strtol/atoi decimal conversion.

module CText {

  const LONG_MIN: int := -0x8000_0000
  const LONG_MAX: int := 0x7FFF_FFFF

  /** strncmp(line, p, |p|) == 0, for a prefix p without NUL. */
  predicate StartsWith(line: seq<char>, p: seq<char>)
  {
    |p| <= |line| && line[..|p|] == p
  }

  /** isspace in the C locale. */
  predicate IsSpace(c: char)
  {
    c == ' ' || c == '\t' || c == '\n' || c == '\r' || c as int == 0x0B || c as int == 0x0C
  }

  predicate IsDigit(c: char) { '0' <= c <= '9' }

  /** What remains after the leading white space. */
  function SkipSpace(s: seq<char>): (t: seq<char>)
    ensures |t| <= |s|
  {
    if s != [] && IsSpace(s[0]) then SkipSpace(s[1..]) else s
  }

  /** The length of the run of decimal digits at the head of s. */
  function DigitRun(s: seq<char>): (n: nat)
    ensures n <= |s|
  {
    if s == [] || !IsDigit(s[0]) then 0 else 1 + DigitRun(s[1..])
  }

  /** The decimal digits at the head of s, read as a number after acc. */
  function DigitsValue(s: seq<char>, acc: int): int
  {
    if s == [] || !IsDigit(s[0]) then acc
    else DigitsValue(s[1..], acc * 10 + (s[0] as int - '0' as int))
  }

  /** A long is 32 bits on the target; strtol saturates out-of-range values. */
  function ClampLong(v: int): (r: int)
    ensures LONG_MIN <= r <= LONG_MAX
    ensures LONG_MIN <= v <= LONG_MAX ==> r == v
  {
    if v < LONG_MIN then LONG_MIN else if v > LONG_MAX then LONG_MAX else v
  }

  /**
   * strtol(s, &end, 10): white space, an optional sign, then digits. With no
   * digit the value is 0 and end is s itself; otherwise end is just after
   * the last digit.
   */
  function Strtol(s: seq<char>): (r: (int, seq<char>))
    ensures LONG_MIN <= r.0 <= LONG_MAX
    ensures |r.1| <= |s|
  {
    var t := SkipSpace(s);
    var neg := t != [] && t[0] == '-';
    var u := if t != [] && (t[0] == '-' || t[0] == '+') then t[1..] else t;
    var n := DigitRun(u);
    if n == 0 then (0, s)
    else
      var v := DigitsValue(u, 0);
      (ClampLong(if neg then -v else v), u[n..])
  }

  /** atoi, which the C library here computes as (int)strtol(s, NULL, 10). */
  function Atoi(s: seq<char>): (v: int)
    ensures LONG_MIN <= v <= LONG_MAX
  {
    Strtol(s).0
  }

  /** With no white space or sign, strtol reads the digit run and stops after it. */
  lemma StrtolDigits(s: seq<char>)
    requires s != [] && IsDigit(s[0])
    ensures Strtol(s) == (ClampLong(DigitsValue(s, 0)), s[DigitRun(s)..])
  {
    assert SkipSpace(s) == s;
  }

  /** With nothing strtol can read at the head, it returns 0 and leaves s as it is. */
  lemma StrtolNone(s: seq<char>)
    requires s == [] || (!IsSpace(s[0]) && s[0] != '-' && s[0] != '+' && !IsDigit(s[0]))
    ensures Strtol(s) == (0, s)
  {
  }

  lemma AtoiExamples()
    ensures Atoi(" 128") == 128 && Atoi(" 0") == 0
    ensures Atoi("") == 0 && Atoi("x") == 0
  {
    assert SkipSpace(" 128") == "128" by {
      assert " 128"[1..] == "128";
    }
    assert DigitsValue("128", 0) == 128 by {
      assert "128"[1..] == "28" && "28"[1..] == "8" && "8"[1..] == "";
    }
    StrtolDigits("128");
    assert SkipSpace(" 0") == "0" by {
      assert " 0"[1..] == "0";
    }
    assert DigitsValue("0", 0) == 0 by {
      assert "0"[1..] == "";
    }
    StrtolDigits("0");
  }

  lemma AtoiSigned()
    ensures Atoi("-1") == -1 && Atoi("+7") == 7
  {
    assert "-1"[1..] == "1" && "1"[1..] == "";
    assert "+7"[1..] == "7" && "7"[1..] == "";
  }
}
