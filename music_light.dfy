// The capstone's music light: eight Goertzel bands of the audio block are
// smoothed and scaled to bar lengths 0 .. 16, and OLED lines 3 and 4 show
// the louder of bands 0 and 1 and of bands 6 and 7 as a row of '#'.
//
// The band powers and their floating-point scaling are left out; the bar
// lengths are inputs. A text line is a char array holding a C string.

module MusicLight {

  import opened CInt

  const WIDTH: int := 16

  /** The line bars_to_string writes: '#' in the first bars columns, ' ' in the rest, then a NUL. */
  function BarLine(bars: int): (s: seq<char>)
    ensures |s| == WIDTH + 1 && s[WIDTH] == '\0'
    ensures forall i :: 0 <= i < WIDTH ==> (s[i] == '#' <==> i < bars)
    ensures forall i :: 0 <= i < WIDTH ==> (s[i] == '#' || s[i] == ' ')
  {
    seq(WIDTH, i => if i < bars then '#' else ' ') + ['\0']
  }

  /** The number of '#' shown in a line. */
  function Marks(s: seq<char>): (n: nat)
    ensures n <= |s|
  {
    if s == [] then 0 else Marks(s[..|s| - 1]) + (if s[|s| - 1] == '#' then 1 else 0)
  }

  /** A line of the first n columns of BarLine shows min(bars, n) marks. */
  lemma {:induction false} MarksPrefix(bars: int, n: int)
    requires 0 <= bars && 0 <= n <= WIDTH
    ensures Marks(BarLine(bars)[..n]) == Min(bars, n)
  {
    if n > 0 {
      assert BarLine(bars)[..n][..n - 1] == BarLine(bars)[..n - 1];
      MarksPrefix(bars, n - 1);
    }
  }

  /** The line shows exactly min(bars, 16) marks: 0 gives a blank line, 16 or more a full one. */
  lemma MarksLine(bars: int)
    requires 0 <= bars
    ensures Marks(BarLine(bars)[..WIDTH]) == Min(bars, WIDTH)
    ensures bars == 0 ==> BarLine(bars)[..WIDTH] == seq(WIDTH, _ => ' ')
    ensures bars >= WIDTH ==> BarLine(bars)[..WIDTH] == seq(WIDTH, _ => '#')
  {
    MarksPrefix(bars, WIDTH);
  }

  /** A longer bar never shows fewer marks. */
  lemma BarLineMonotone(a: int, b: int, i: int)
    requires 0 <= a <= b && 0 <= i < WIDTH
    ensures BarLine(a)[i] == '#' ==> BarLine(b)[i] == '#'
  {
  }

  /** bars_to_string: columns 0 .. 15 get '#' or ' ', column 16 the NUL. */
  method BarsToString(out: array<char>, bars: int)
    requires out.Length >= WIDTH + 1 && 0 <= bars < U8_MOD
    modifies out
    ensures out[..WIDTH + 1] == BarLine(bars)
    ensures out[WIDTH + 1..] == old(out[WIDTH + 1..])
  {
    var i := 0;
    while i < WIDTH
      invariant 0 <= i <= WIDTH
      invariant forall j :: 0 <= j < i ==> out[j] == (if j < bars then '#' else ' ')
      invariant out[WIDTH..] == old(out[WIDTH..])
    {
      out[i] := if i < bars then '#' else ' ';
      i := i + 1;
    }
    out[WIDTH] := '\0';
    assert out[..WIDTH + 1] == BarLine(bars);
  }

  /** The bar a row shows: the larger of two adjacent bands. */
  function RowBars(a: int, b: int): (r: int)
    ensures r >= a && r >= b && (r == a || r == b)
  {
    if a > b then a else b
  }

  /** Lines 3 and 4 of a frame: bands 0 and 1, then bands 6 and 7. */
  method Rows(bars: seq<int>) returns (l3: array<char>, l4: array<char>)
    requires |bars| == 8 && forall i :: 0 <= i < 8 ==> 0 <= bars[i] < U8_MOD
    ensures fresh(l3) && fresh(l4) && l3 != l4
    ensures l3[..] == BarLine(RowBars(bars[0], bars[1]))
    ensures l4[..] == BarLine(RowBars(bars[6], bars[7]))
  {
    l3 := new char[WIDTH + 1];
    l4 := new char[WIDTH + 1];
    BarsToString(l3, if bars[0] > bars[1] then bars[0] else bars[1]);
    BarsToString(l4, if bars[6] > bars[7] then bars[6] else bars[7]);
    assert l3[..] == l3[..WIDTH + 1];
    assert l4[..] == l4[..WIDTH + 1];
  }
}
