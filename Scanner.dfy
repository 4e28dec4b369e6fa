/**
  Specification of the first pass (`CheckFile`): which toolhead the input
  already drives. "T0" selects the right extruder and "T1" the left one. An
  on command (`M101`, `M102`) whose first parameter is a selector marks that
  side; a temperature command (`M104`) marks a side when it names the
  selector and the temperature it sets is positive, the right side being
  tried first. Seeing both sides is an error at the line that completes the
  pair; seeing neither by the end of the file is an error too.
*/
module Scanner {

  import opened Options
  import opened Tokens
  import opened Codes
  import opened Numbers

  const RIGHT := "T0"
  const LEFT := "T1"

  /** The `LeftUsed` and `RightUsed` flags. */
  datatype Sides = Sides(left: bool, right: bool)

  /** `tag == Token[0]` on a C string: an empty string starts with its terminator. */
  predicate Tagged(tok: string, tag: char) {
    |tok| > 0 && tok[0] == tag
  }

  /** What `sscanf(Token, "S%d", &Temp)` stores, when the conversion succeeds. */
  function TempOf(tok: string): Option<int> {
    if Tagged(tok, 'S') then ScanInt(tok[1..]) else None
  }

  /** `Temp` after scanning `ps` from left to right starting from 0. */
  function LastTemp(ps: seq<string>): int {
    if ps == [] then 0
    else
      match TempOf(ps[|ps| - 1])
      case Some(t) => t
      case None => LastTemp(ps[..|ps| - 1])
  }

  /** `j` is the last position of `ps` holding an `S` parameter that converts. */
  predicate IsLastTemp(ps: seq<string>, j: int) {
    0 <= j < |ps| && TempOf(ps[j]).Some? &&
    forall k :: j < k < |ps| ==> TempOf(ps[k]).None?
  }

  /** The temperature read is that of the last `S` parameter that converts. */
  lemma {:induction false} LastTempIsLast(ps: seq<string>, j: int)
    requires IsLastTemp(ps, j)
    ensures LastTemp(ps) == TempOf(ps[j]).value
  {
    if j < |ps| - 1 {
      var init := ps[..|ps| - 1];
      assert TempOf(ps[|ps| - 1]).None?;
      assert IsLastTemp(init, j);
      LastTempIsLast(init, j);
    }
  }

  /** With no `S` parameter that converts, the temperature stays 0. */
  lemma {:induction false} LastTempDefault(ps: seq<string>)
    requires forall j :: 0 <= j < |ps| ==> TempOf(ps[j]).None?
    ensures LastTemp(ps) == 0
  {
    if ps != [] {
      LastTempDefault(ps[..|ps| - 1]);
    }
  }

  /** The evidence one line gives for the right toolhead. */
  predicate MarksRight(line: string) {
    var ts := Split(line);
    var code := CodeOf(First(ts));
    var ps := Params(ts);
    ((code == M101 || code == M102) && |ps| > 0 && ps[0] == RIGHT)
    || (code == M104 && RIGHT in ps && LastTemp(ps) > 0)
  }

  /** The evidence one line gives for the left toolhead. A temperature command
      naming both selectors counts for the right side only. */
  predicate MarksLeft(line: string) {
    var ts := Split(line);
    var code := CodeOf(First(ts));
    var ps := Params(ts);
    ((code == M101 || code == M102) && |ps| > 0 && ps[0] == LEFT)
    || (code == M104 && LEFT in ps && RIGHT !in ps && LastTemp(ps) > 0)
  }

  /** One line of the first pass: the new flags, or None for the
      both-extruders error. */
  function CheckLine(s: Sides, line: string): Option<Sides> {
    var ts := Split(line);
    var code := CodeOf(First(ts));
    var ps := Params(ts);
    if code == M101 || code == M102 then
      if |ps| > 0 && ps[0] == RIGHT then
        if s.left then None else Some(s.(right := true))
      else if |ps| > 0 && ps[0] == LEFT then
        if s.right then None else Some(s.(left := true))
      else Some(s)
    else if code == M104 then
      var temp := LastTemp(ps);
      if RIGHT in ps && temp > 0 then
        if s.left then None else Some(s.(right := true))
      else if LEFT in ps && temp > 0 then
        if s.right then None else Some(s.(left := true))
      else Some(s)
    else Some(s)
  }

  /** A line marks at most one side. */
  lemma MarksExclusive(line: string)
    ensures !(MarksRight(line) && MarksLeft(line))
  {
  }

  /** A line adds the side it marks, and fails exactly when it marks the side
      opposite to one already seen; a line marking nothing changes nothing. */
  lemma CheckLineEffect(s: Sides, line: string)
    ensures CheckLine(s, line) ==
      if (MarksRight(line) && s.left) || (MarksLeft(line) && s.right) then None
      else Some(Sides(s.left || MarksLeft(line), s.right || MarksRight(line)))
  {
  }

  /** Lines that are no evidence for either side: no command, off, speed,
      tool change and motion commands, an on command without a selector as
      its first parameter, and a temperature command whose temperature is not
      positive (none converting leaves it at 0). */
  lemma NoEvidence(s: Sides, line: string)
    requires var ts := Split(line);
      var code := CodeOf(First(ts));
      var ps := Params(ts);
      || code == NOTOKENS || code == M103 || code == M108 || code == M6 || code == G1
      || ((code == M101 || code == M102) && (|ps| == 0 || (ps[0] != RIGHT && ps[0] != LEFT)))
      || (code == M104 && LastTemp(ps) <= 0)
    ensures !MarksRight(line) && !MarksLeft(line)
    ensures CheckLine(s, line) == Some(s)
  {
  }

  /** A temperature command that names both selectors with a positive
      temperature is taken for the right side alone, so on its own it never
      raises the both-extruders error. */
  lemma BothSelectorsTakenAsRight(s: Sides, line: string)
    requires CodeOf(First(Split(line))) == M104
    requires RIGHT in Params(Split(line)) && LEFT in Params(Split(line))
    requires LastTemp(Params(Split(line))) > 0
    ensures CheckLine(s, line) == if s.left then None else Some(s.(right := true))
    ensures CheckLine(Sides(false, false), line) == Some(Sides(false, true))
  {
  }

  /** The state of the first pass after reading `lines`: the flags, and the
      1-based line of the both-extruders error if it stopped there. */
  datatype Scan = Scan(sides: Sides, bothAt: Option<nat>)

  function ScanLines(lines: seq<string>, start: Sides): Scan {
    if lines == [] then Scan(start, None)
    else
      var before := ScanLines(lines[..|lines| - 1], start);
      if before.bothAt.Some? then before
      else
        match CheckLine(before.sides, lines[|lines| - 1])
        case None => Scan(before.sides, Some(|lines|))
        case Some(s) => Scan(s, None)
  }

  /** Outcome of `CheckFile`: success with the number of lines checked, or one
      of its two errors. */
  datatype CheckOutcome = Checked(count: nat) | BothUsed(line: nat) | NoExtruder

  function Verdict(lines: seq<string>, start: Sides): CheckOutcome {
    var sc := ScanLines(lines, start);
    if sc.bothAt.Some? then BothUsed(sc.bothAt.value)
    else if !sc.sides.left && !sc.sides.right then NoExtruder
    else Checked(|lines|)
  }

  predicate AnyRight(lines: seq<string>) {
    exists i :: 0 <= i < |lines| && MarksRight(lines[i])
  }

  predicate AnyLeft(lines: seq<string>) {
    exists i :: 0 <= i < |lines| && MarksLeft(lines[i])
  }

  /** Right evidence so far, counting what was known before the scan. */
  predicate SeenRight(start: Sides, lines: seq<string>) {
    start.right || AnyRight(lines)
  }

  predicate SeenLeft(start: Sides, lines: seq<string>) {
    start.left || AnyLeft(lines)
  }

  /** The first pass stops exactly when both sides have been seen; otherwise
      its flags record every side seen. */
  lemma {:induction false} ScanLinesMeaning(lines: seq<string>, start: Sides)
    requires !(start.left && start.right)
    ensures var sc := ScanLines(lines, start);
      && (sc.bothAt.Some? <==> SeenRight(start, lines) && SeenLeft(start, lines))
      && (sc.bothAt.None? ==>
            sc.sides == Sides(SeenLeft(start, lines), SeenRight(start, lines)))
  {
    if lines != [] {
      var init, last := lines[..|lines| - 1], lines[|lines| - 1];
      ScanLinesMeaning(init, start);
      AnyExtend(init, last);
      assert lines == init + [last];
      var before := ScanLines(init, start);
      if before.bothAt.None? {
        CheckLineStep(before.sides, last);
      }
    }
  }

  /** One line read with neither side, or only one, seen so far: the pass
      stops exactly when the line completes both sides, and otherwise adds
      the side the line marks. */
  lemma CheckLineStep(s: Sides, line: string)
    requires !(s.left && s.right)
    ensures var c := CheckLine(s, line);
      && (c.None? <==> (s.right || MarksRight(line)) && (s.left || MarksLeft(line)))
      && (c.Some? ==> c.value == Sides(s.left || MarksLeft(line), s.right || MarksRight(line)))
  {
    CheckLineEffect(s, line);
    MarksExclusive(line);
  }

  /** When the pass stops, it stops at the first line by which both sides
      have been seen. */
  lemma {:induction false} ScanStopLine(lines: seq<string>, start: Sides)
    requires !(start.left && start.right)
    requires ScanLines(lines, start).bothAt.Some?
    ensures var n := ScanLines(lines, start).bothAt.value;
      && 1 <= n <= |lines|
      && SeenRight(start, lines[..n]) && SeenLeft(start, lines[..n])
      && !(SeenRight(start, lines[..n - 1]) && SeenLeft(start, lines[..n - 1]))
  {
    var init := lines[..|lines| - 1];
    if ScanLines(init, start).bothAt.Some? {
      ScanStopLine(init, start);
      ScanStopEarlier(lines, start);
    } else {
      ScanStopLast(lines, start);
      assert lines[..|lines|] == lines;
    }
  }

  /** A pass that had stopped before the last line keeps its stop line. */
  lemma ScanStopEarlier(lines: seq<string>, start: Sides)
    requires lines != [] && ScanLines(lines[..|lines| - 1], start).bothAt.Some?
    ensures var init := lines[..|lines| - 1];
      var n := ScanLines(init, start).bothAt.value;
      && ScanLines(lines, start) == ScanLines(init, start)
      && (n <= |init| ==> lines[..n] == init[..n])
      && (1 <= n <= |init| ==> lines[..n - 1] == init[..n - 1])
  {
  }

  /** A pass that stops at the last line has seen both sides by then, and not before. */
  lemma ScanStopLast(lines: seq<string>, start: Sides)
    requires !(start.left && start.right)
    requires lines != [] && ScanLines(lines[..|lines| - 1], start).bothAt.None?
    requires ScanLines(lines, start).bothAt.Some?
    ensures ScanLines(lines, start).bothAt.value == |lines|
    ensures SeenRight(start, lines) && SeenLeft(start, lines)
    ensures !(SeenRight(start, lines[..|lines| - 1]) && SeenLeft(start, lines[..|lines| - 1]))
  {
    ScanLinesMeaning(lines, start);
    ScanLinesMeaning(lines[..|lines| - 1], start);
  }

  lemma AnyExtend(init: seq<string>, last: string)
    ensures AnyRight(init + [last]) == (AnyRight(init) || MarksRight(last))
    ensures AnyLeft(init + [last]) == (AnyLeft(init) || MarksLeft(last))
  {
    var lines := init + [last];
    assert lines[|init|] == last;
    if AnyRight(lines) {
      var i :| 0 <= i < |lines| && MarksRight(lines[i]);
      if i < |init| { assert lines[i] == init[i]; }
    }
    if AnyLeft(lines) {
      var i :| 0 <= i < |lines| && MarksLeft(lines[i]);
      if i < |init| { assert lines[i] == init[i]; }
    }
    if AnyRight(init) {
      var i :| 0 <= i < |init| && MarksRight(init[i]);
      assert lines[i] == init[i];
    }
    if AnyLeft(init) {
      var i :| 0 <= i < |init| && MarksLeft(init[i]);
      assert lines[i] == init[i];
    }
  }

  /** The verdict of a first pass started with neither flag set: it rejects a
      file marking both sides, rejects a file marking neither, and otherwise
      accepts it with exactly the one side the file marks. */
  lemma CheckFileVerdict(lines: seq<string>)
    ensures var v := Verdict(lines, Sides(false, false));
      && (v.BothUsed? <==> AnyRight(lines) && AnyLeft(lines))
      && (v == NoExtruder <==> !AnyRight(lines) && !AnyLeft(lines))
      && (v.Checked? ==>
            var s := ScanLines(lines, Sides(false, false)).sides;
            && v.count == |lines|
            && s.right == AnyRight(lines) && s.left == AnyLeft(lines)
            && s.left != s.right)
  {
    ScanLinesMeaning(lines, Sides(false, false));
  }

  /** Once the pass has stopped, reading further lines changes nothing. */
  lemma {:induction false} ScanStops(lines: seq<string>, k: nat, start: Sides)
    requires k <= |lines|
    requires ScanLines(lines[..k], start).bothAt.Some?
    ensures ScanLines(lines, start) == ScanLines(lines[..k], start)
    decreases |lines| - k
  {
    if k < |lines| {
      var init := lines[..|lines| - 1];
      assert init[..k] == lines[..k];
      ScanStops(init, k, start);
    } else {
      assert lines[..k] == lines;
    }
  }
}
