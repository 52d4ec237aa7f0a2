// The Bluetooth car of the capstone: text commands from the serial link
// set a pair of commanded wheel speeds, and a failsafe stops the motors
// when no line has arrived for a second of 10 ms loop steps.
//
// A command line is the C string Serial_ReadLine delivered, as characters.
// Replies are what Serial_SendString sends; motor output is the pair of
// speeds handed to Motor_Set (Motor_Stop is Motor_Set(0, 0)).

module BluetoothCar {

  import opened CInt
  import opened CText

  const FAILSAFE_MS: int := 1000
  const STEP_MS: int := 10

  /** cmd_process's start: leading spaces (only ' '), then at most one '@'. */
  function SkipBlanks(s: seq<char>): (t: seq<char>)
    ensures |t| <= |s|
    ensures t != [] ==> t[0] != ' '
  {
    if s != [] && s[0] == ' ' then SkipBlanks(s[1..]) else s
  }

  function Strip(line: seq<char>): (t: seq<char>)
    ensures |t| <= |line|
  {
    var t := SkipBlanks(line);
    if t != [] && t[0] == '@' then t[1..] else t
  }

  /** What a stripped command does: nothing when empty, new speeds with a reply, or an error reply. */
  datatype Action = Ignore | Set(left: int, right: int, reply: seq<char>) | Reject

  /**
   * The dispatch on the first character. Every speed goes through set_cmd's
   * int16_t parameters, so it is truncated to 16 bits; L and R halve with
   * C division, which truncates toward zero.
   */
  function Act(s: seq<char>): (a: Action)
    ensures a.Set? ==> -0x8000 <= a.left < 0x8000 && -0x8000 <= a.right < 0x8000
    ensures a.Ignore? <==> s == []
  {
    if s == [] then Ignore
    else if s[0] == 'S' || StartsWith(s, "stop") then Set(0, 0, "OK stop\r\n")
    else if s[0] == 'F' then
      var v := Atoi(s[1..]);
      Set(I16(v), I16(v), "OK fwd\r\n")
    else if s[0] == 'B' then
      var v := Atoi(s[1..]);
      Set(I16(-v), I16(-v), "OK back\r\n")
    else if s[0] == 'L' then
      var v := Atoi(s[1..]);
      Set(I16(CDiv(v, 2)), I16(v), "OK left\r\n")
    else if s[0] == 'R' then
      var v := Atoi(s[1..]);
      Set(I16(v), I16(CDiv(v, 2)), "OK right\r\n")
    else if s[0] == 'V' then
      var (l, rest) := Strtol(s[1..]);
      var (r, _) := Strtol(rest);
      Set(I16(l), I16(r), "OK v\r\n")
    else Reject
  }

  /** Anything but S, F, B, L, R, V or a "stop" prefix is rejected. */
  lemma ActUnknown(s: seq<char>)
    requires s != [] && s[0] !in "SFBLRV" && !StartsWith(s, "stop")
    ensures Act(s) == Reject
  {
  }

  /** "stop" and anything beginning with S halt both wheels. */
  lemma ActStop(s: seq<char>)
    requires s != [] && (s[0] == 'S' || StartsWith(s, "stop"))
    ensures Act(s) == Set(0, 0, "OK stop\r\n")
  {
  }

  /**
   * A turn within the int16_t range keeps the outer wheel at v and the
   * inner at the C quotient v / 2: half of |v| rounded down, with the sign
   * of v.
   */
  lemma ActTurn(s: seq<char>)
    requires s != [] && (s[0] == 'L' || s[0] == 'R') && -0x8000 <= Atoi(s[1..]) < 0x8000
    ensures var v := Atoi(s[1..]); var a := Act(s);
      a.Set? && (if s[0] == 'L' then a.left else a.right) == CDiv(v, 2)
      && Abs(if s[0] == 'L' then a.left else a.right) == Abs(v) / 2
      && (if s[0] == 'L' then a.right else a.left) == v
  {
  }

  lemma StripExamples()
    ensures Strip("  @F 100") == "F 100"
    ensures Strip("@@S") == "@S"
    ensures Strip("   ") == []
  {
    assert "  @F 100"[1..] == " @F 100" && " @F 100"[1..] == "@F 100" && "@F 100"[1..] == "F 100";
    assert "@@S"[1..] == "@S";
    assert "   "[1..] == "  " && "  "[1..] == " " && " "[1..] == "";
  }

  /** An '@' after the one that is stripped makes the line unknown. */
  lemma DoubleAtRejected()
    ensures Act(Strip("@@S")) == Reject
  {
    StripExamples();
  }

  /** "L -5" turns with -2 on the inner wheel: C truncation, not the floor -3. */
  lemma TurnTruncates()
    ensures Act("L -5") == Set(-2, -5, "OK left\r\n")
  {
    var s := "L -5";
    assert s[1..] == " -5" && " -5"[1..] == "-5" && "-5"[1..] == "5" && "5"[1..] == "";
    assert Atoi(s[1..]) == -5;
  }

  class Car {
    /** s_cmd_left, s_cmd_right (int16_t) and s_cmd_tick (uint32_t, milliseconds since the last line). */
    var cmdLeft: int
    var cmdRight: int
    var cmdTick: int
    /** The replies sent so far. */
    var sent: seq<char>
    /** The speeds last passed to Motor_Set. */
    var driven: (int, int)

    ghost predicate Valid()
      reads this
    {
      -0x8000 <= cmdLeft < 0x8000 && -0x8000 <= cmdRight < 0x8000 && 0 <= cmdTick < U32_MOD
    }

    constructor ()
      ensures Valid() && cmdLeft == 0 && cmdRight == 0 && cmdTick == 0 && sent == []
    {
      cmdLeft, cmdRight, cmdTick := 0, 0, 0;
      sent := [];
      driven := (0, 0);
    }

    /** set_cmd: new commanded speeds, and the failsafe timer restarts. */
    method SetCmd(l: int, r: int)
      requires -0x8000 <= l < 0x8000 && -0x8000 <= r < 0x8000
      modifies this`cmdLeft, this`cmdRight, this`cmdTick
      ensures cmdLeft == l && cmdRight == r && cmdTick == 0
    {
      cmdLeft, cmdRight, cmdTick := l, r, 0;
    }

    /** cmd_process: skip the blanks and the '@', then act on the command as Act says. */
    method Process(line: seq<char>)
      requires Valid()
      modifies this`cmdLeft, this`cmdRight, this`cmdTick, this`sent
      ensures Valid()
      ensures match Act(Strip(line))
        case Ignore =>
          cmdLeft == old(cmdLeft) && cmdRight == old(cmdRight) && cmdTick == old(cmdTick) && sent == old(sent)
        case Set(l, r, reply) =>
          cmdLeft == l && cmdRight == r && cmdTick == 0 && sent == old(sent) + reply
        case Reject =>
          cmdLeft == old(cmdLeft) && cmdRight == old(cmdRight) && cmdTick == old(cmdTick)
          && sent == old(sent) + "ERR cmd\r\n"
    {
      var i := 0;
      while i < |line| && line[i] == ' '
        invariant 0 <= i <= |line|
        invariant SkipBlanks(line[i..]) == SkipBlanks(line)
      {
        assert line[i..][1..] == line[i + 1..];
        i := i + 1;
      }
      if i < |line| && line[i] == '@' {
        assert line[i..][1..] == line[i + 1..];
        i := i + 1;
      }
      assert line[i..] == Strip(line);
      Dispatch(line[i..]);
    }

    /** The body of cmd_process after the scan has passed the blanks and the '@'. */
    method Dispatch(s: seq<char>)
      requires Valid()
      modifies this`cmdLeft, this`cmdRight, this`cmdTick, this`sent
      ensures Valid()
      ensures match Act(s)
        case Ignore =>
          cmdLeft == old(cmdLeft) && cmdRight == old(cmdRight) && cmdTick == old(cmdTick) && sent == old(sent)
        case Set(l, r, reply) =>
          cmdLeft == l && cmdRight == r && cmdTick == 0 && sent == old(sent) + reply
        case Reject =>
          cmdLeft == old(cmdLeft) && cmdRight == old(cmdRight) && cmdTick == old(cmdTick)
          && sent == old(sent) + "ERR cmd\r\n"
    {
      if s == [] {
        return;
      }
      if s[0] == 'S' || StartsWith(s, "stop") {
        SetCmd(0, 0);
        sent := sent + "OK stop\r\n";
        return;
      }
      if s[0] == 'F' {
        var v := Atoi(s[1..]);
        SetCmd(I16(v), I16(v));
        sent := sent + "OK fwd\r\n";
        return;
      }
      if s[0] == 'B' {
        var v := Atoi(s[1..]);
        SetCmd(I16(-v), I16(-v));
        sent := sent + "OK back\r\n";
        return;
      }
      if s[0] == 'L' {
        var v := Atoi(s[1..]);
        SetCmd(I16(CDiv(v, 2)), I16(v));
        sent := sent + "OK left\r\n";
        return;
      }
      if s[0] == 'R' {
        var v := Atoi(s[1..]);
        SetCmd(I16(v), I16(CDiv(v, 2)));
        sent := sent + "OK right\r\n";
        return;
      }
      if s[0] == 'V' {
        var (l, p) := Strtol(s[1..]);
        var (r, _) := Strtol(p);
        SetCmd(I16(l), I16(r));
        sent := sent + "OK v\r\n";
        return;
      }
      sent := sent + "ERR cmd\r\n";
    }

    /**
     * One 10 ms pass of the main loop. A received line, accepted or not,
     * restarts the failsafe timer; the motors get the commanded speeds
     * unless a full second has passed without a line, when they stop.
     */
    method Step(ready: bool, line: seq<char>)
      requires Valid()
      modifies this`cmdLeft, this`cmdRight, this`cmdTick, this`sent, this`driven
      ensures Valid()
      ensures ready ==> cmdTick == STEP_MS
      ensures ready ==> match Act(Strip(line))
        case Ignore => cmdLeft == old(cmdLeft) && cmdRight == old(cmdRight) && sent == old(sent)
        case Set(l, r, reply) => cmdLeft == l && cmdRight == r && sent == old(sent) + reply
        case Reject =>
          cmdLeft == old(cmdLeft) && cmdRight == old(cmdRight) && sent == old(sent) + "ERR cmd\r\n"
      ensures !ready ==> cmdTick == (old(cmdTick) + STEP_MS) % U32_MOD
      ensures !ready ==> cmdLeft == old(cmdLeft) && cmdRight == old(cmdRight) && sent == old(sent)
      ensures driven == if ready || old(cmdTick) < FAILSAFE_MS then (cmdLeft, cmdRight) else (0, 0)
    {
      if ready {
        Process(line);
        cmdTick := 0;
      }
      if cmdTick >= FAILSAFE_MS {
        driven := (0, 0);
      } else {
        driven := (cmdLeft, cmdRight);
      }
      cmdTick := (cmdTick + STEP_MS) % U32_MOD;
    }
  }

  /**
   * After a line, the car keeps driving for the next 99 silent steps and is
   * stopped from the 100th on, as long as the 32-bit millisecond timer has
   * not wrapped (about 49.7 days).
   */
  method Silence(car: Car, line: seq<char>, n: int)
    requires car.Valid() && 0 <= n && STEP_MS * (n + 1) < U32_MOD
    modifies car
    ensures n < 100 ==> car.driven == (car.cmdLeft, car.cmdRight)
    ensures n >= 100 ==> car.driven == (0, 0)
  {
    car.Step(true, line);
    var j := 0;
    while j < n
      invariant 0 <= j <= n && car.Valid()
      invariant car.cmdTick == STEP_MS * (j + 1)
      invariant j < 100 ==> car.driven == (car.cmdLeft, car.cmdRight)
      invariant j >= 100 ==> car.driven == (0, 0)
    {
      car.Step(false, []);
      j := j + 1;
    }
  }
}
