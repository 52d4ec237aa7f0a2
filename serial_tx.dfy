// The blocking USART1 transmit helpers of lessons 9-1 and 9-2 and of the
// capstone (Serial_SendByte, Serial_SendArray, Serial_SendString, fputc),
// and the decimal emitter Serial_SendNumber built on Serial_Pow.
// Transmission is modelled as appending to the sequence of bytes sent.

module SerialTx {

  import opened CInt

  const DIGIT_ZERO: bv8 := 0x30

  // ---------------------------------------------------------------------
  // Serial_Pow

  /** X to the power Y over unbounded integers. */
  function Power(x: nat, y: nat): (r: nat)
    ensures x > 0 ==> r > 0
  {
    if y == 0 then 1 else x * Power(x, y - 1)
  }

  lemma MulMod(a: int, x: int)
    ensures (a % U32_MOD) * x % U32_MOD == a * x % U32_MOD
  {
    var k := a / U32_MOD;
    assert a % U32_MOD * x == a * x - U32_MOD * (k * x);
  }

  /** Serial_Pow: the product of Y copies of X in uint32_t arithmetic, that is X^Y mod 2^32. */
  method Pow(x: int, y: int) returns (r: int)
    requires 0 <= x < U32_MOD && 0 <= y < U32_MOD
    ensures r == Power(x, y) % U32_MOD
  {
    r := 1;
    var k := y;
    while k != 0
      invariant 0 <= k <= y
      invariant r == Power(x, y - k) % U32_MOD
    {
      MulMod(Power(x, y - k), x);
      r := r * x % U32_MOD;
      k := k - 1;
    }
  }

  /** Powers of ten up to 10^9 fit in 32 bits, so Serial_Pow(10, k) is exact for k <= 9. */
  lemma {:induction false} PowerTenFits(k: nat)
    requires k <= 9
    ensures 1 <= Power(10, k) <= 1_000_000_000 < U32_MOD
    decreases k
  {
    if k > 0 {
      PowerTenFits(k - 1);
      if k <= 8 {
        PowerTenBelow(k - 1);
      }
    }
  }

  lemma {:induction false} PowerTenBelow(k: nat)
    requires k <= 7
    ensures Power(10, k) <= 10_000_000
    decreases k
  {
    if k > 0 {
      PowerTenBelow(k - 1);
      if k == 7 {
        assert Power(10, 6) <= 1_000_000 by { PowerTenSmall(6); }
      } else {
        PowerTenSmall(k);
      }
    }
  }

  lemma {:induction false} PowerTenSmall(k: nat)
    requires k <= 6
    ensures Power(10, k) <= 1_000_000
    decreases k
  {
    if k > 0 {
      PowerTenSmall(k - 1);
      assert Power(10, k - 1) <= 100_000 by {
        if k - 1 > 0 { PowerTenSmaller(k - 1); }
      }
    }
  }

  lemma {:induction false} PowerTenSmaller(k: nat)
    requires 1 <= k <= 5
    ensures Power(10, k) <= 100_000
    decreases k
  {
    if k == 1 {
    } else {
      PowerTenSmaller(k - 1);
      assert Power(10, k - 1) <= 10_000 by { PowerTenTiny(k - 1); }
    }
  }

  lemma {:induction false} PowerTenTiny(k: nat)
    requires 1 <= k <= 4
    ensures Power(10, k) <= 10_000
    decreases k
  {
    if k > 1 {
      PowerTenTiny(k - 1);
    }
  }

  // ---------------------------------------------------------------------
  // The digits emitted by Serial_SendNumber

  function DigitChar(d: int): (c: bv8)
    requires 0 <= d < 10
    ensures DIGIT_ZERO <= c <= DIGIT_ZERO + 9 && (c - DIGIT_ZERO) as int == d
  {
    (DIGIT_ZERO as int + d) as bv8
  }

  /** The len lowest decimal digits of n as ASCII, most significant first, zero-padded. */
  function Decimal(n: nat, len: nat): (s: seq<bv8>)
    ensures |s| == len
    ensures forall i :: 0 <= i < len ==> DIGIT_ZERO <= s[i] <= DIGIT_ZERO + 9
  {
    if len == 0 then [] else Decimal(n / 10, len - 1) + [DigitChar(n % 10)]
  }

  /** The number an ASCII digit string denotes. */
  function Value(s: seq<bv8>): int
  {
    if s == [] then 0 else Value(s[..|s| - 1]) * 10 + (s[|s| - 1] as int - DIGIT_ZERO as int)
  }

  /** (a*b)*t + a*u + r, the regrouping of a*(b*t + u) + r. */
  lemma Distribute(a: int, b: int, t: int, u: int)
    ensures a * (b * t + u) == a * b * t + a * u
  {
  }

  /** Reading the emitted digits back gives n modulo 10^len. */
  lemma {:induction false} DecimalValue(n: nat, len: nat)
    ensures Value(Decimal(n, len)) == n % Power(10, len)
    decreases len
  {
    if len > 0 {
      var s := Decimal(n, len);
      DecimalValue(n / 10, len - 1);
      assert s[..|s| - 1] == Decimal(n / 10, len - 1);
      assert Value(s) == Value(Decimal(n / 10, len - 1)) * 10 + n % 10;
      ModTen(n, Power(10, len - 1));
    }
  }

  /** Peeling the last decimal digit: n mod 10p is (n/10 mod p) followed by n mod 10. */
  lemma ModTen(n: nat, p: int)
    requires p > 0
    ensures n % (10 * p) == (n / 10 % p) * 10 + n % 10
  {
    var q, r := n / 10, n % 10;
    var t, u := q / p, q % p;
    Distribute(10, p, t, u);
    assert n == 10 * p * t + (10 * u + r);
    DivModUnique(n, 10 * p, t, 10 * u + r);
  }

  /** When n has at most len digits, the digits denote n itself. */
  lemma DecimalExact(n: nat, len: nat)
    requires n < Power(10, len)
    ensures Value(Decimal(n, len)) == n
  {
    DecimalValue(n, len);
  }

  lemma DivDiv(n: nat, a: int, b: int)
    requires a > 0 && b > 0
    ensures n / a / b == n / (a * b)
  {
    var q, r := n / a, n % a;
    var t, u := q / b, q % b;
    Distribute(a, b, t, u);
    assert n == a * b * t + (a * u + r);
    assert a * u + r < a * b by {
      MulMono(u, b - 1, a);
      Distribute(a, 1, b, -1);
    }
    DivModUnique(n, a * b, t, a * u + r);
  }

  /** Digit i of the string is the expression Serial_SendNumber sends in pass i. */
  lemma {:induction false} DecimalAt(n: nat, len: nat, i: nat)
    requires i < len
    ensures Decimal(n, len)[i] == DigitChar(n / Power(10, len - i - 1) % 10)
    decreases len
  {
    if i < len - 1 {
      DecimalAt(n / 10, len - 1, i);
      DivDiv(n, 10, Power(10, len - i - 2));
    }
  }

  /** The worked example: 123 with length 3 gives "123". */
  lemma DecimalExample()
    ensures Decimal(123, 3) == [0x31, 0x32, 0x33]
  {
    assert Decimal(1, 1) == [0x31];
  }

  // ---------------------------------------------------------------------
  // The transmitter

  class Usart {
    /** Every byte written to USART1's data register, in order. */
    var sent: seq<bv8>

    constructor ()
      ensures sent == []
    {
      sent := [];
    }

    /** Serial_SendByte: write the data register and wait for TXE. */
    method SendByte(b: bv8)
      modifies this
      ensures sent == old(sent) + [b]
    {
      sent := sent + [b];
    }

    /** Serial_SendArray: the first `length` bytes of the array, in order. */
    method SendArray(arr: array<bv8>, length: int)
      requires 0 <= length < U16_MOD && length <= arr.Length
      modifies this
      ensures sent == old(sent) + arr[..length]
    {
      var i := 0;
      while i < length
        invariant 0 <= i <= length
        invariant sent == old(sent) + arr[..i]
      {
        assert arr[..i + 1] == arr[..i] + [arr[i]];
        SendByte(arr[i]);
        i := i + 1;
      }
    }

    /**
     * Serial_SendString of the lessons: the bytes before the first NUL. The
     * index is a uint8_t, so the NUL must come within the first 256 bytes.
     */
    method SendString(s: array<bv8>)
      requires exists j :: 0 <= j < s.Length && j < U8_MOD && s[j] == 0
      modifies this
      ensures sent == old(sent) + UntilNul(s[..])
    {
      ghost var c := UntilNul(s[..]);
      ghost var j :| 0 <= j < s.Length && j < U8_MOD && s[j] == 0;
      UntilNulBefore(s[..], j);
      var i := 0;
      while s[i] != 0
        invariant 0 <= i <= |c| && i < U8_MOD
        decreases |c| - i
        invariant sent == old(sent) + c[..i]
      {
        assert c[..i + 1] == c[..i] + [s[i]];
        SendByte(s[i]);
        i := i + 1;
      }
      assert c[..i] == c;
    }

    /** The capstone's Serial_SendString: the same loop with a uint32_t index. */
    method SendCapstoneString(s: array<bv8>)
      requires 0 in s[..]
      modifies this
      ensures sent == old(sent) + UntilNul(s[..])
    {
      ghost var c := UntilNul(s[..]);
      var i := 0;
      while s[i] != 0
        invariant 0 <= i <= |c|
        decreases |c| - i
        invariant sent == old(sent) + c[..i]
      {
        assert c[..i + 1] == c[..i] + [s[i]];
        SendByte(s[i]);
        i := i + 1;
      }
      assert c[..i] == c;
    }

    /** Serial_SendNumber: Number's `length` lowest decimal digits, most significant first. */
    method SendNumber(number: int, length: int)
      requires 0 <= number < U32_MOD && 0 <= length <= 10
      modifies this
      ensures sent == old(sent) + Decimal(number, length)
    {
      ghost var d := Decimal(number, length);
      var i := 0;
      while i < length
        invariant 0 <= i <= length
        invariant sent == old(sent) + d[..i]
      {
        var p := Pow(10, length - i - 1);
        assert p == Power(10, length - i - 1) by {
          PowerTenFits(length - i - 1);
        }
        assert d[i] == DigitChar(number / p % 10) by {
          DecimalAt(number, length, i);
        }
        assert d[..i + 1] == d[..i] + [d[i]];
        SendByte(DigitChar(number / p % 10));
        i := i + 1;
      }
      assert d[..length] == d;
    }

    /** fputc: send the low byte of ch and return ch, as printf's back end. */
    method PutChar(ch: int) returns (r: int)
      modifies this
      ensures sent == old(sent) + [(ch % U8_MOD) as bv8]
      ensures r == ch
    {
      SendByte((ch % U8_MOD) as bv8);
      r := ch;
    }
  }
}
