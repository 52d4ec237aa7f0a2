// Shared vocabulary for the firmware model: optional values and the C
// fixed-width integer conversions the sources rely on.

module CInt {

  datatype Option<T> = None | Some(value: T)

  const U8_MOD: int := 0x100
  const U16_MOD: int := 0x1_0000
  const U32_MOD: int := 0x1_0000_0000

  /** Conversion to uint16_t: reduction modulo 2^16. */
  function U16(x: int): (r: int)
    ensures 0 <= r < U16_MOD
    ensures 0 <= x < U16_MOD ==> r == x
  {
    x % U16_MOD
  }

  /** Conversion to uint32_t: reduction modulo 2^32. */
  function U32(x: int): (r: int)
    ensures 0 <= r < U32_MOD
    ensures 0 <= x < U32_MOD ==> r == x
  {
    x % U32_MOD
  }

  /** Conversion to int16_t: the two's-complement reading of the low 16 bits. */
  function I16(x: int): (r: int)
    ensures -0x8000 <= r < 0x8000
    ensures -0x8000 <= x < 0x8000 ==> r == x
  {
    var u := x % U16_MOD;
    if u >= 0x8000 then u - U16_MOD else u
  }

  /** Conversion to int8_t: the two's-complement reading of the low 8 bits. */
  function I8(x: int): (r: int)
    ensures -0x80 <= r < 0x80
    ensures -0x80 <= x < 0x80 ==> r == x
  {
    var u := x % U8_MOD;
    if u >= 0x80 then u - U8_MOD else u
  }

  function Abs(x: int): nat { if x < 0 then -x else x }

  /** C integer division, which truncates toward zero (Dafny's `/` is Euclidean). */
  function CDiv(a: int, b: int): (q: int)
    requires b != 0
    ensures Abs(q) == Abs(a) / Abs(b)
    ensures q != 0 ==> ((q < 0) <==> ((a < 0) != (b < 0)))
    ensures a >= 0 && b > 0 ==> q == a / b
  {
    var x, y := Abs(a), Abs(b);
    DivNonNegative(x, y);
    if (a < 0) != (b < 0) then -(x / y) else x / y
  }

  lemma DivNonNegative(x: nat, y: nat)
    requires y > 0
    ensures x / y >= 0
  {
  }

  /** Euclidean division brackets its dividend between two multiples of the divisor. */
  lemma DivBounds(n: int, d: int)
    requires 0 <= n && 0 < d
    ensures (n / d) * d <= n < (n / d + 1) * d
  {
  }

  /** Multiplying by a non-negative factor keeps an ordering. */
  lemma MulMono(a: int, b: int, c: int)
    requires a <= b && 0 <= c
    ensures a * c <= b * c
  {
  }

  /** Quotient and remainder are the only such pair. */
  lemma DivModUnique(n: int, d: int, q: int, r: int)
    requires d > 0 && n == d * q + r && 0 <= r < d
    ensures n / d == q && n % d == r
  {
    var q0, r0 := n / d, n % d;
    assert d * (q - q0) == r0 - r by {
      assert d * q0 + r0 == d * q + r;
    }
    if q > q0 {
      MulAtLeast(d, q - q0);
    } else if q < q0 {
      MulAtLeast(d, q0 - q);
    }
  }

  /** Adding a multiple of d leaves the remainder modulo d alone. */
  lemma ModShift(x: int, k: int, d: int)
    requires 0 < d
    ensures (x + d * k) % d == x % d
  {
    DivModUnique(x + d * k, d, x / d + k, x % d);
  }

  lemma MulAtLeast(d: int, k: int)
    requires d > 0 && k >= 1
    ensures d * k >= d
  {
  }

  /** Counting one more steps a remainder round its cycle. */
  lemma ModSucc(x: int, m: int)
    requires 0 <= x && 0 < m
    ensures (x + 1) % m == if x % m == m - 1 then 0 else x % m + 1
  {
    var q, r := x / m, x % m;
    assert x == m * q + r;
    if r < m - 1 {
      DivModUnique(x + 1, m, q, r + 1);
    } else {
      assert x + 1 == m * (q + 1) + 0;
      DivModUnique(x + 1, m, q + 1, 0);
    }
  }

  function Min(a: int, b: int): int { if a <= b then a else b }

  /** A C string: the bytes before the first NUL (all of s when it has none). */
  function UntilNul(s: seq<bv8>): (r: seq<bv8>)
    ensures |r| <= |s| && r == s[..|r|] && 0 !in r
    ensures |r| < |s| ==> s[|r|] == 0
  {
    if s == [] || s[0] == 0 then [] else [s[0]] + UntilNul(s[1..])
  }

  /** The string ends at or before any NUL. */
  lemma UntilNulBefore(s: seq<bv8>, j: nat)
    requires j < |s| && s[j] == 0
    ensures |UntilNul(s)| <= j
  {
  }

  lemma {:induction false} UntilNulPlain(s: seq<bv8>)
    requires 0 !in s
    ensures UntilNul(s) == s
  {
    if s != [] {
      assert 0 !in s[1..];
      UntilNulPlain(s[1..]);
    }
  }
}
