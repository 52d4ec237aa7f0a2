// The gesture arm of the capstone: two encoder knobs choose a joint and
// turn it, text commands set, save and load the three joint angles, and
// the angles are kept in words 1 .. 3 of the flash parameter page.
//
// The source keeps the angles as floats in degrees. Here they are whole
// tenths of a degree, the unit the page stores; float rounding is not
// modelled. Replies are modelled as values; the printf text is not.

module GestureArm {

  import opened CInt
  import opened CText
  import opened FlashStore

  const JOINTS: int := 3
  const ANGLE_WORD: int := 1
  /** 180 degrees in tenths: the upper clamp and the largest angle angles_load accepts. */
  const MAX_TENTHS: int := 1800
  const DEFAULT_TENTHS: int := 900

  /**
   * The selection step of one TIM3 delta: d/4 truncated toward zero, or one
   * notch in the direction of d when that is 0.
   */
  function SelStep(d: int): (s: int)
    requires d != 0
    ensures s != 0 && (s > 0 <==> d > 0)
    ensures Abs(s) == if Abs(d) < 4 then 1 else Abs(d) / 4
  {
    var q := CDiv(d, 4);
    if q == 0 then (if d > 0 then 1 else -1) else q
  }

  /** Small deltas still move one joint; -7 moves back by one (truncation), not by two. */
  lemma SelStepExamples()
    ensures SelStep(1) == 1 && SelStep(-1) == -1 && SelStep(-7) == -1 && SelStep(8) == 2
  {
  }

  /** clamp_angles for one angle in tenths. */
  function ClampAngle(a: int): (r: int)
    ensures 0 <= r <= MAX_TENTHS
    ensures 0 <= a <= MAX_TENTHS ==> r == a
  {
    if a < 0 then 0 else if a > MAX_TENTHS then MAX_TENTHS else a
  }

  /** Every angle is within 0 .. 180 degrees. */
  predicate InRange(angles: seq<int>)
  {
    |angles| == JOINTS && forall i :: 0 <= i < JOINTS ==> 0 <= angles[i] <= MAX_TENTHS
  }

  /** The commands, tried in this order by prefix; `set` carries its three numbers. */
  datatype Command = Empty | Help | SaveCmd | LoadCmd | StatusCmd | SetCmd(a: int, b: int, c: int) | Unknown

  /** cmd_process's reading of a line: spaces skipped, then the first matching prefix. */
  function Parse(line: seq<char>): (c: Command)
    ensures c.Empty? <==> SkipSpaces(line) == []
  {
    ParseWord(SkipSpaces(line))
  }

  /** The prefix tests on the line once the scan has passed the spaces. */
  function ParseWord(s: seq<char>): (c: Command)
    ensures c.Empty? <==> s == []
  {
    if s == [] then Empty
    else if StartsWith(s, "help") then Help
    else if StartsWith(s, "save") then SaveCmd
    else if StartsWith(s, "load") then LoadCmd
    else if StartsWith(s, "status") then StatusCmd
    else if StartsWith(s, "set") then
      var (a, p) := Strtol(s[3..]);
      var (b, q) := Strtol(p);
      var (c, _) := Strtol(q);
      SetCmd(a, b, c)
    else Unknown
  }

  function SkipSpaces(s: seq<char>): (t: seq<char>)
    ensures |t| <= |s|
    ensures t != [] ==> t[0] != ' '
  {
    if s != [] && s[0] == ' ' then SkipSpaces(s[1..]) else s
  }

  /** Prefix matching: "saved" is save. */
  lemma ParseSaved()
    ensures Parse("  saved") == SaveCmd
  {
    assert "  saved"[1..] == " saved" && " saved"[1..] == "saved";
    assert "saved"[..4] == "save";
    assert "saved"[..4][0] != "help"[0];
  }

  /** "settings" is a set with no numbers, which strtol reads as zeros. */
  lemma ParseSettings()
    ensures Parse("settings") == SetCmd(0, 0, 0)
  {
    var s := "settings";
    assert s[..4][0] != "help"[0] && s[..4][1] != "save"[1] && s[..4][0] != "load"[0];
    assert s[..6][1] != "status"[1];
    assert s[..3] == "set" && s[3..] == "tings";
    StrtolNone("tings");
  }

  /** A blank line is ignored, and an unfinished word is unknown. */
  lemma ParseBlank()
    ensures Parse("   ") == Empty && Parse("sav") == Unknown
  {
    assert "   "[1..] == "  " && "  "[1..] == " " && " "[1..] == "";
    assert SkipSpaces("sav") == "sav";
    assert "sav"[..3][1] != "set"[1];
  }

  datatype Reply = HelpText | OkSave | OkLoad | Status(angles: seq<int>, joint: int) | OkSet | ErrUnknown

  class Arm {
    const store: Store
    /** s_angles in tenths of a degree, and s_selected. */
    var angles: seq<int>
    var selected: int
    var replies: seq<Reply>

    ghost predicate Valid()
      reads this, store
    {
      store.Valid() && InRange(angles) && 0 <= selected < JOINTS
    }

    /** The start of main: 90 degrees each, joint 1 selected, then angles_load and clamp_angles. */
    constructor (store: Store)
      requires store.Valid()
      ensures Valid() && this.store == store && selected == 0 && replies == []
      ensures angles == if InRange(store.data[ANGLE_WORD..ANGLE_WORD + JOINTS]) then store.data[ANGLE_WORD..ANGLE_WORD + JOINTS]
        else [DEFAULT_TENTHS, DEFAULT_TENTHS, DEFAULT_TENTHS]
    {
      this.store := store;
      angles := [DEFAULT_TENTHS, DEFAULT_TENTHS, DEFAULT_TENTHS];
      selected := 0;
      replies := [];
      new;
      LoadAngles();
    }

    /** angles_load: the stored tenths replace the angles only when all three are at most 1800. */
    method LoadAngles()
      requires store.Valid()
      modifies this`angles
      ensures var w := store.data[ANGLE_WORD..ANGLE_WORD + JOINTS];
        angles == if InRange(w) then w else old(angles)
    {
      var a, b, c := store.data[ANGLE_WORD], store.data[ANGLE_WORD + 1], store.data[ANGLE_WORD + 2];
      ghost var w := store.data[ANGLE_WORD..ANGLE_WORD + JOINTS];
      assert w == [a, b, c];
      assert InRange(w) <==> a <= MAX_TENTHS && b <= MAX_TENTHS && c <= MAX_TENTHS by {
        assert w[0] == a && w[1] == b && w[2] == c;
      }
      if a <= MAX_TENTHS && b <= MAX_TENTHS && c <= MAX_TENTHS {
        angles := [a, b, c];
      }
    }

    /** angles_save: the three angles in tenths into words 1 .. 3, then Store_Save. */
    method SaveAngles()
      requires Valid()
      modifies store.data, store`saved
      ensures store.data[..] == old(store.data[..])[ANGLE_WORD := angles[0]][ANGLE_WORD + 1 := angles[1]][ANGLE_WORD + 2 := angles[2]]
      ensures store.saved == store.data[..]
    {
      store.data[ANGLE_WORD] := angles[0];
      store.data[ANGLE_WORD + 1] := angles[1];
      store.data[ANGLE_WORD + 2] := angles[2];
      store.Save();
    }

    /**
     * A nonzero TIM3 delta moves the selection by SelStep, wrapped into
     * 0 .. 2 by the two correction loops; a zero delta changes nothing.
     */
    method Select(dSel: int)
      requires Valid() && -0x8000 <= dSel < 0x8000
      modifies this`selected
      ensures Valid()
      ensures dSel == 0 ==> selected == old(selected)
      ensures dSel != 0 ==> selected == (old(selected) + SelStep(dSel)) % JOINTS
    {
      if dSel != 0 {
        var step := CDiv(dSel, 4);
        if step == 0 {
          step := if dSel > 0 then 1 else -1;
        }
        var ns := selected + step;
        ghost var target := ns % JOINTS;
        while ns < 0
          invariant ns % JOINTS == target
          decreases -ns
          modifies {}
        {
          ModShift(ns, 1, JOINTS);
          ns := ns + JOINTS;
        }
        while ns >= JOINTS
          invariant ns >= 0 && ns % JOINTS == target
          decreases ns
          modifies {}
        {
          ModShift(ns - JOINTS, 1, JOINTS);
          ns := ns - JOINTS;
        }
        DivModUnique(ns, JOINTS, 0, ns);
        selected := ns;
      }
    }

    /** A saved arm loads back the same angles. */
    method SaveThenLoad()
      requires Valid()
      modifies store.data, store`saved, this`angles
      ensures Valid() && angles == old(angles)
    {
      SaveAngles();
      LoadAngles();
      assert store.data[ANGLE_WORD..ANGLE_WORD + JOINTS] == angles;
    }

    /**
     * cmd_process: help, save, load, status and set as Parse reads them;
     * set clamps each angle to 0 .. 180 degrees; anything else is an error
     * and an empty line is ignored.
     */
    method Process(line: seq<char>)
      requires Valid()
      modifies this`angles, this`replies, store.data, store`saved
      ensures Valid()
      ensures match Parse(line)
        case Empty => replies == old(replies) && angles == old(angles) && unchanged(store)
        case Help => replies == old(replies) + [HelpText] && angles == old(angles) && unchanged(store)
        case SaveCmd =>
          replies == old(replies) + [OkSave] && angles == old(angles)
          && store.data[ANGLE_WORD..ANGLE_WORD + JOINTS] == angles && store.saved == store.data[..]
        case LoadCmd =>
          var w := old(store.data[ANGLE_WORD..ANGLE_WORD + JOINTS]);
          replies == old(replies) + [OkLoad] && angles == (if InRange(w) then w else old(angles)) && unchanged(store)
        case StatusCmd =>
          replies == old(replies) + [Status(angles, selected + 1)] && angles == old(angles) && unchanged(store)
        case SetCmd(a, b, c) =>
          replies == old(replies) + [OkSet] && unchanged(store)
          && angles == [ClampAngle(10 * a), ClampAngle(10 * b), ClampAngle(10 * c)]
        case Unknown => replies == old(replies) + [ErrUnknown] && angles == old(angles) && unchanged(store)
    {
      var i := 0;
      while i < |line| && line[i] == ' '
        invariant 0 <= i <= |line|
        invariant SkipSpaces(line[i..]) == SkipSpaces(line)
      {
        assert line[i..][1..] == line[i + 1..];
        i := i + 1;
      }
      Dispatch(line[i..]);
    }

    /** The body of cmd_process once the scan has passed the spaces. */
    method Dispatch(s: seq<char>)
      requires Valid()
      modifies this`angles, this`replies, store.data, store`saved
      ensures Valid()
      ensures match ParseWord(s)
        case Empty => replies == old(replies) && angles == old(angles) && unchanged(store)
        case Help => replies == old(replies) + [HelpText] && angles == old(angles) && unchanged(store)
        case SaveCmd =>
          replies == old(replies) + [OkSave] && angles == old(angles)
          && store.data[ANGLE_WORD..ANGLE_WORD + JOINTS] == angles && store.saved == store.data[..]
        case LoadCmd =>
          var w := old(store.data[ANGLE_WORD..ANGLE_WORD + JOINTS]);
          replies == old(replies) + [OkLoad] && angles == (if InRange(w) then w else old(angles)) && unchanged(store)
        case StatusCmd =>
          replies == old(replies) + [Status(angles, selected + 1)] && angles == old(angles) && unchanged(store)
        case SetCmd(a, b, c) =>
          replies == old(replies) + [OkSet] && unchanged(store)
          && angles == [ClampAngle(10 * a), ClampAngle(10 * b), ClampAngle(10 * c)]
        case Unknown => replies == old(replies) + [ErrUnknown] && angles == old(angles) && unchanged(store)
    {
      if s == [] {
        return;
      }
      if StartsWith(s, "help") {
        replies := replies + [HelpText];
      } else if StartsWith(s, "save") {
        SaveAngles();
        replies := replies + [OkSave];
      } else if StartsWith(s, "load") {
        LoadAngles();
        replies := replies + [OkLoad];
      } else if StartsWith(s, "status") {
        replies := replies + [Status(angles, selected + 1)];
      } else if StartsWith(s, "set") {
        var (a, p) := Strtol(s[3..]);
        var (b, q) := Strtol(p);
        var (c, _) := Strtol(q);
        angles := [ClampAngle(10 * a), ClampAngle(10 * b), ClampAngle(10 * c)];
        replies := replies + [OkSet];
      } else {
        replies := replies + [ErrUnknown];
      }
    }
  }
}
