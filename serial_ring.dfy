// The capstone's USART1 receive path (course_capstone Serial.c): a 256-slot
// ring buffer filled by the receive interrupt, and Serial_ReadLine, which
// assembles '\n'-terminated lines from it in a 128-byte static buffer.

module SerialRing {

  import opened CInt

  const RX_BUF_SIZE: nat := 256
  const LINE_BUF_SIZE: nat := 128
  const CR: bv8 := 0x0D
  const LF: bv8 := 0x0A

  /** Slot t + i of the ring, counted modulo its size. */
  function Slot(t: int, i: int): int
  {
    (t + i) % RX_BUF_SIZE
  }

  lemma SlotDistinct(t: int, i: int, j: int)
    requires 0 <= i < j < RX_BUF_SIZE
    ensures Slot(t, i) != Slot(t, j)
  {
  }

  lemma SlotNext(t: int, i: int)
    requires 0 <= t < RX_BUF_SIZE
    ensures Slot(Slot(t, 1), i) == Slot(t, i + 1)
  {
  }

  // ---------------------------------------------------------------------
  // What Serial_ReadLine does with the bytes it pops

  /**
   * The outcome of draining the ring into a line: whether a '\n' was found,
   * the line assembled so far, and the bytes left in the ring.
   */
  datatype Scan = Scan(found: bool, line: seq<bv8>, rest: seq<bv8>)

  /**
   * The reference behaviour: '\r' is discarded, '\n' ends the line, any other
   * byte is appended while the line holds fewer than 127 bytes; when it is full
   * that byte is dropped and the partial line discarded.
   */
  function Assemble(line: seq<bv8>, input: seq<bv8>): (r: Scan)
    decreases |input|
  {
    if input == [] then Scan(false, line, [])
    else if input[0] == CR then Assemble(line, input[1..])
    else if input[0] == LF then Scan(true, line, input[1..])
    else if |line| < LINE_BUF_SIZE - 1 then Assemble(line + [input[0]], input[1..])
    else Assemble([], input[1..])
  }

  /** The assembled line never exceeds 127 bytes, and the bytes left are a suffix of the input. */
  lemma {:induction false} AssembleBounds(line: seq<bv8>, input: seq<bv8>)
    requires |line| < LINE_BUF_SIZE
    ensures |Assemble(line, input).line| < LINE_BUF_SIZE
    ensures |Assemble(line, input).rest| <= |input|
    ensures Assemble(line, input).rest == input[|input| - |Assemble(line, input).rest|..]
    decreases |input|
  {
    if input != [] && input[0] != LF {
      if input[0] == CR || |line| >= LINE_BUF_SIZE - 1 {
        AssembleBounds(if input[0] == CR then line else [], input[1..]);
      } else {
        AssembleBounds(line + [input[0]], input[1..]);
      }
    }
  }

  /** Without a '\n' the whole input is consumed and no line is produced. */
  lemma {:induction false} AssembleNoNewline(line: seq<bv8>, input: seq<bv8>)
    requires LF !in input
    ensures !Assemble(line, input).found && Assemble(line, input).rest == []
    decreases |input|
  {
    if input != [] {
      assert LF !in input[1..];
      if input[0] == CR || |line| >= LINE_BUF_SIZE - 1 {
        AssembleNoNewline(if input[0] == CR then line else [], input[1..]);
      } else {
        AssembleNoNewline(line + [input[0]], input[1..]);
      }
    }
  }

  /**
   * A line that fits arrives intact: the bytes before the first '\n', minus
   * the '\r's, are appended, and everything after the '\n' stays in the ring.
   */
  lemma {:induction false} AssembleLine(line: seq<bv8>, s: seq<bv8>, rest: seq<bv8>)
    requires LF !in s
    requires |line| + |s| < LINE_BUF_SIZE
    ensures Assemble(line, s + [LF] + rest) == Scan(true, line + Strip(s), rest)
    decreases |s|
  {
    var x := s + [LF] + rest;
    if s == [] {
      assert x[0] == LF && x[1..] == rest;
    } else {
      var c, t := s[0], s[1..];
      assert x[0] == c && x[1..] == t + [LF] + rest;
      assert LF !in t && c != LF;
      if c == CR {
        assert Strip(s) == Strip(t);
        AssembleLine(line, t, rest);
        assert Assemble(line, x) == Assemble(line, x[1..]);
      } else {
        assert Strip(s) == [c] + Strip(t);
        AssembleLine(line + [c], t, rest);
        assert line + [c] + Strip(t) == line + Strip(s);
        assert |line| < LINE_BUF_SIZE - 1;
        assert Assemble(line, x) == Assemble(line + [c], x[1..]);
      }
    }
  }

  /** The bytes of s without its carriage returns. */
  function Strip(s: seq<bv8>): (r: seq<bv8>)
    ensures |r| <= |s| && CR !in r
  {
    if s == [] then [] else (if s[0] == CR then [] else [s[0]]) + Strip(s[1..])
  }

  /** A byte that arrives when 127 are held discards the partial line and is itself dropped. */
  lemma Overflow(line: seq<bv8>, b: bv8, rest: seq<bv8>)
    requires |line| == LINE_BUF_SIZE - 1 && b != CR && b != LF
    ensures Assemble(line, [b] + rest) == Assemble([], rest)
  {
    assert ([b] + rest)[1..] == rest;
  }

  /** What strncpy(out, line, n) followed by out[n - 1] = '\0' leaves in out. */
  function CopyOut(line: seq<bv8>, n: nat): (out: seq<bv8>)
    ensures |out| == n
  {
    seq(n, i requires 0 <= i < n => if i < n - 1 && i < |UntilNul(line)| then UntilNul(line)[i] else 0)
  }

  /** The copy is always NUL-terminated and holds the line up to n - 1 bytes, as long as it has no NUL. */
  lemma CopyOutLine(line: seq<bv8>, n: nat)
    requires n >= 1 && 0 !in line
    ensures CopyOut(line, n)[n - 1] == 0
    ensures forall i :: 0 <= i < n - 1 && i < |line| ==> CopyOut(line, n)[i] == line[i]
  {
    UntilNulPlain(line);
  }

  // ---------------------------------------------------------------------
  // The driver state

  class SerialRx {
    /** s_rx_buf, s_rx_head and s_rx_tail. */
    const buf: array<bv8>
    var head: int
    var tail: int
    /** The static line_buf and line_len of Serial_ReadLine. */
    const lineBuf: array<bv8>
    var lineLen: int
    /** The bytes held in the ring, oldest first. */
    ghost var contents: seq<bv8>

    ghost predicate Valid()
      reads this, buf
    {
      buf.Length == RX_BUF_SIZE && lineBuf.Length == LINE_BUF_SIZE && buf != lineBuf
      && 0 <= head < RX_BUF_SIZE && 0 <= tail < RX_BUF_SIZE
      && |contents| < RX_BUF_SIZE && head == Slot(tail, |contents|)
      && (forall i :: 0 <= i < |contents| ==> contents[i] == buf[Slot(tail, i)])
      && 0 <= lineLen < LINE_BUF_SIZE
    }

    /** The partial line kept between calls. */
    ghost function Line(): seq<bv8>
      reads this, lineBuf
      requires 0 <= lineLen <= lineBuf.Length
    {
      lineBuf[..lineLen]
    }

    constructor ()
      ensures Valid() && fresh(buf) && fresh(lineBuf)
      ensures contents == [] && lineLen == 0
    {
      buf := new bv8[RX_BUF_SIZE];
      lineBuf := new bv8[LINE_BUF_SIZE];
      head, tail, lineLen := 0, 0, 0;
      contents := [];
    }

    /** Serial_RxPush: store b unless that would make head catch up with tail. */
    method Push(b: bv8)
      requires Valid()
      modifies this`head, buf, this`contents
      ensures Valid()
      ensures |old(contents)| == RX_BUF_SIZE - 1 ==> contents == old(contents) && head == old(head)
      ensures |old(contents)| < RX_BUF_SIZE - 1 ==> contents == old(contents) + [b]
      ensures tail == old(tail) && lineLen == old(lineLen)
    {
      var next := (head + 1) % RX_BUF_SIZE;
      if next == tail {
        assert |contents| == RX_BUF_SIZE - 1;
        return;
      }
      forall i | 0 <= i < |contents|
        ensures Slot(tail, i) != head
      {
        SlotDistinct(tail, i, |contents|);
      }
      buf[head] := b;
      head := next;
      contents := contents + [b];
    }

    /**
     * Serial_RxPop: on an empty ring report 0 and leave `out` as it was;
     * otherwise hand out the oldest byte and advance tail.
     */
    method Pop(out: bv8) returns (ok: bool, b: bv8)
      requires Valid()
      modifies this`tail, this`contents
      ensures Valid()
      ensures ok <==> old(contents) != []
      ensures !ok ==> b == out && contents == old(contents) && tail == old(tail)
      ensures ok ==> b == old(contents)[0] && contents == old(contents)[1..]
      ensures head == old(head) && lineLen == old(lineLen)
    {
      if tail == head {
        assert contents == [] by {
          if contents != [] {
            SlotDistinct(tail, 0, |contents|);
            assert false;
          }
        }
        return false, out;
      }
      b := buf[tail];
      assert b == contents[0];
      forall j | 0 <= j < |contents[1..]|
        ensures contents[1..][j] == buf[Slot((tail + 1) % RX_BUF_SIZE, j)]
      {
        SlotNext(tail, j);
      }
      SlotNext(tail, |contents| - 1);
      tail := (tail + 1) % RX_BUF_SIZE;
      contents := contents[1..];
      ok := true;
    }

    /** USART1_IRQHandler: a received byte (RXNE set) goes into the ring. */
    method Interrupt(rxne: bool, data: bv8)
      requires Valid()
      modifies this`head, buf, this`contents
      ensures Valid() && tail == old(tail) && lineLen == old(lineLen)
      ensures !rxne ==> contents == old(contents)
      ensures rxne && |old(contents)| < RX_BUF_SIZE - 1 ==> contents == old(contents) + [data]
      ensures rxne && |old(contents)| == RX_BUF_SIZE - 1 ==> contents == old(contents)
    {
      if rxne {
        Push(data);
      }
    }

    /** The '\n' branch of Serial_ReadLine: terminate the line, copy it out with strncpy and restart. */
    method Deliver(out: array<bv8>)
      requires Valid() && 1 <= out.Length && out != buf && out != lineBuf
      modifies lineBuf, this`lineLen, out
      ensures Valid() && lineLen == 0
      ensures out[..] == CopyOut(old(Line()), out.Length)
    {
      ghost var line := Line();
      lineBuf[lineLen] := 0;
      assert lineBuf[..lineLen] == line;
      var n := out.Length;
      forall i | 0 <= i < n {
        out[i] := if i < n - 1 && i < |UntilNul(lineBuf[..lineLen])| then UntilNul(lineBuf[..lineLen])[i] else 0;
      }
      lineLen := 0;
    }

    /** Any other byte: append it while the line holds fewer than 127 bytes, else discard the line. */
    method Accept(b: bv8)
      requires Valid()
      modifies lineBuf, this`lineLen
      ensures Valid()
      ensures |old(Line())| < LINE_BUF_SIZE - 1 ==> Line() == old(Line()) + [b]
      ensures |old(Line())| == LINE_BUF_SIZE - 1 ==> Line() == []
    {
      if lineLen < LINE_BUF_SIZE - 1 {
        lineBuf[lineLen] := b;
        lineLen := lineLen + 1;
      } else {
        lineLen := 0;
      }
    }

    /**
     * Serial_ReadLine: pop bytes until a line is complete or the ring is empty;
     * the result follows Assemble on the partial line and the ring's contents.
     */
    method ReadLine(out: array<bv8>) returns (res: int)
      requires Valid() && 1 <= out.Length < 0x1_0000
      requires out != buf && out != lineBuf
      modifies this`tail, this`contents, lineBuf, this`lineLen, out
      ensures Valid()
      ensures var r := Assemble(old(Line()), old(contents));
        contents == r.rest
        && (r.found ==> res == 1 && out[..] == CopyOut(r.line, out.Length) && lineLen == 0)
        && (!r.found ==> res == 0 && Line() == r.line && out[..] == old(out[..]))
    {
      ghost var r := Assemble(Line(), contents);
      var b: bv8 := 0;
      var ok;
      ok, b := Pop(b);
      while ok
        invariant Valid() && head == old(head)
        invariant ok ==> Assemble(Line(), [b] + contents) == r
        invariant !ok ==> Assemble(Line(), contents) == r && contents == []
        invariant out[..] == old(out[..])
        decreases |contents| + (if ok then 1 else 0)
      {
        assert ([b] + contents)[1..] == contents;
        if b == CR {
          ok, b := Pop(b);
          continue;
        }
        if b == LF {
          Deliver(out);
          return 1;
        }
        Accept(b);
        ok, b := Pop(b);
      }
      return 0;
    }
  }
}
