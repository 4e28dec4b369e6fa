/**
  Specification of the second pass (`ConvFile`): every input line yields one
  output chunk. Commands addressed to a toolhead are duplicated for "T1" and
  then "T0"; in a motion command each extrusion parameter (`E`, `A` or `B`)
  becomes an `A`/`B` pair. Each extrusion value is recorded in `FirstE` until
  one is positive, and that value then stays; once it is positive, later values
  are corrected for the second filament. Any other line is copied as is.
*/
module Rewriter {

  import opened Options
  import opened Tokens
  import opened Codes
  import opened Numbers
  import opened Scanner

  /** Longest speed or extrusion parameter the fixed buffers take. */
  const MAX_PARAM := 15

  /** The conversion errors, each with the 1-based number of its line. */
  datatype ConvError = SpeedTooLong(line: nat) | NoSpeed(line: nat) | ParamTooLong(line: nat)

  function LineOf(e: ConvError): nat {
    match e
    case SpeedTooLong(n) => n
    case NoSpeed(n) => n
    case ParamTooLong(n) => n
  }

  /** The floating-point parts of the rewrite: `%lf` parsing of an extrusion
      value, and the text `%.5f` prints for the corrected value computed from
      the current value, the first value and the diameter ratio. */
  datatype Numerics = Numerics(
    parseDouble: string -> Option<real>,
    formatCorrected: (real, real, real) -> string)

  /** What the second pass holds fixed: the side the first pass found, the
      diameter ratio, and the floating-point operations. */
  datatype Config = Config(rightUsed: bool, ratio: real, num: Numerics)

  /** The selector of the toolhead the input does not use. */
  function NotUsed(rightUsed: bool): string {
    if rightUsed then LEFT else RIGHT
  }

  /** The parameters scanned before the first `stop` token ends the scan. */
  function Before(ps: seq<string>, stop: string): (r: seq<string>)
    ensures |r| <= |ps| && r == ps[..|r|]
    ensures stop !in r
    ensures |r| < |ps| ==> ps[|r|] == stop
  {
    if ps == [] || ps[0] == stop then []
    else
      var r := [ps[0]] + Before(ps[1..], stop);
      assert ps[..|r|] == [ps[0]] + ps[1..][..|r| - 1];
      r
  }

  /** A scan that has met no `stop` and ends at `i` (at the end, or at a
      `stop`) has scanned exactly `Before(ps, stop)`. */
  lemma BeforeAt(ps: seq<string>, stop: string, i: nat)
    requires i <= |ps| && stop !in ps[..i]
    requires i == |ps| || ps[i] == stop
    ensures Before(ps, stop) == ps[..i]
  {
  }

  /** One command duplicated for both toolheads, "T1" first. */
  function Pair(code: string, arg: string): string {
    code + arg + " T1\n" + code + arg + " T0\n"
  }

  // Speed command (M108)

  datatype SpeedScan = Speed(token: string) | Overlong | Missing

  /** Result of scanning `ps` for `R` parameters from left to right: the first
      one over the buffer size stops the scan, otherwise the last one wins. */
  function SpeedOf(ps: seq<string>): SpeedScan {
    if ps == [] then Missing
    else
      var init := SpeedOf(ps[..|ps| - 1]);
      var t := ps[|ps| - 1];
      if init.Overlong? then init
      else if Tagged(t, 'R') then (if |t| > MAX_PARAM then Overlong else Speed(t))
      else init
  }

  /** The speed scan fails for length exactly when some `R` parameter is over
      15 characters. */
  lemma {:induction false} SpeedOverlong(ps: seq<string>)
    ensures SpeedOf(ps).Overlong? <==>
      exists j :: 0 <= j < |ps| && Tagged(ps[j], 'R') && |ps[j]| > MAX_PARAM
  {
    if ps != [] {
      var init := ps[..|ps| - 1];
      SpeedOverlong(init);
      assert forall j :: 0 <= j < |init| ==> ps[j] == init[j];
    }
  }

  /** The speed scan finds nothing exactly when there is no `R` parameter. */
  lemma {:induction false} SpeedMissing(ps: seq<string>)
    ensures SpeedOf(ps).Missing? <==> forall j :: 0 <= j < |ps| ==> !Tagged(ps[j], 'R')
  {
    if ps != [] {
      var init := ps[..|ps| - 1];
      SpeedMissing(init);
      assert forall j :: 0 <= j < |init| ==> ps[j] == init[j];
    }
  }

  /** `j` holds the last `R` parameter of `ps`, and it fits the buffer. */
  predicate IsLastSpeed(ps: seq<string>, j: int) {
    0 <= j < |ps| && Tagged(ps[j], 'R') && |ps[j]| <= MAX_PARAM &&
    forall k :: j < k < |ps| ==> !Tagged(ps[k], 'R')
  }

  /** A speed found is the last `R` parameter, and it fits the buffer. */
  lemma {:induction false} SpeedIsLast(ps: seq<string>)
    requires SpeedOf(ps).Speed?
    ensures exists j :: IsLastSpeed(ps, j) && ps[j] == SpeedOf(ps).token
  {
    var init, t := ps[..|ps| - 1], ps[|ps| - 1];
    if !Tagged(t, 'R') {
      SpeedIsLast(init);
      var j :| IsLastSpeed(init, j) && init[j] == SpeedOf(init).token;
      assert ps[j] == init[j];
      forall k | j < k < |ps| ensures !Tagged(ps[k], 'R') {
        if k < |init| { assert ps[k] == init[k]; }
      }
      assert IsLastSpeed(ps, j);
    } else {
      assert IsLastSpeed(ps, |ps| - 1);
    }
  }

  // Coordinated motion (G1)

  /** `E`, `A` and `B` parameters carry an extrusion distance. */
  predicate IsExtrusion(tok: string) {
    Tagged(tok, 'E') || Tagged(tok, 'A') || Tagged(tok, 'B')
  }

  /** `CurrentE`: the parsed value of an extrusion parameter, 0.0 if it does
      not parse. */
  function EValue(num: Numerics, tok: string): real
    requires |tok| > 0
  {
    match num.parseDouble(tok[1..])
    case Some(v) => v
    case None => 0.0
  }

  /** The line being built, `FirstE`, and whether a parameter was too long. */
  datatype Motion = Motion(text: string, firstE: real, failed: bool)

  /** The text one parameter adds to the motion line, and the new `FirstE`. */
  function MotionStep(cfg: Config, m: Motion, tok: string): Motion {
    if IsExtrusion(tok) then
      if |tok| > MAX_PARAM then m.(failed := true)
      else
        var rest := tok[1..];
        var current := EValue(cfg.num, tok);
        if m.firstE > 0.0 then
          var corrected := cfg.num.formatCorrected(current, m.firstE, cfg.ratio);
          if cfg.rightUsed then m.(text := m.text + " B" + corrected + " A" + rest)
          else m.(text := m.text + " A" + corrected + " B" + rest)
        else Motion(m.text + " A" + rest + " B" + rest, current, false)
    else m.(text := m.text + " " + tok)
  }

  /** The motion line after its parameters `ps`, before the final newline. */
  function MotionOf(cfg: Config, firstE: real, ps: seq<string>): Motion {
    if ps == [] then Motion(CODES[G1], firstE, false)
    else
      var m := MotionOf(cfg, firstE, ps[..|ps| - 1]);
      if m.failed then m else MotionStep(cfg, m, ps[|ps| - 1])
  }

  /** A motion line fails exactly when one of its extrusion parameters is over
      15 characters. */
  lemma {:induction false} MotionFails(cfg: Config, firstE: real, ps: seq<string>)
    ensures MotionOf(cfg, firstE, ps).failed <==>
      exists j :: 0 <= j < |ps| && IsExtrusion(ps[j]) && |ps[j]| > MAX_PARAM
  {
    if ps != [] {
      var init := ps[..|ps| - 1];
      MotionFails(cfg, firstE, init);
      assert forall j :: 0 <= j < |init| ==> ps[j] == init[j];
    }
  }

  /** A motion line without extrusion parameters is copied token by token,
      one space apart, and leaves `FirstE` alone. */
  lemma {:induction false} MotionWithoutExtrusion(cfg: Config, firstE: real, ps: seq<string>)
    requires forall j :: 0 <= j < |ps| ==> !IsExtrusion(ps[j])
    ensures MotionOf(cfg, firstE, ps) == Motion("G1" + Spaced(ps), firstE, false)
  {
    if ps != [] {
      var init, t := ps[..|ps| - 1], ps[|ps| - 1];
      MotionWithoutExtrusion(cfg, firstE, init);
      SpacedSnoc(init, t);
      assert init + [t] == ps;
      assert "G1" + Spaced(init) + " " + t == "G1" + (Spaced(init) + " " + t);
    }
  }

  lemma {:induction false} SpacedSnoc(ts: seq<string>, t: string)
    ensures Spaced(ts + [t]) == Spaced(ts) + " " + t
  {
    if ts == [] {
      assert [] + [t] == [t];
    } else {
      assert (ts + [t])[1..] == ts[1..] + [t];
      SpacedSnoc(ts[1..], t);
    }
  }

  /** Once a positive first extrusion value is recorded it never changes. */
  lemma {:induction false} MotionKeepsFirstE(cfg: Config, firstE: real, ps: seq<string>)
    requires firstE > 0.0
    ensures MotionOf(cfg, firstE, ps).firstE == firstE
  {
    if ps != [] {
      MotionKeepsFirstE(cfg, firstE, ps[..|ps| - 1]);
    }
  }

  /** While no positive value is recorded, every extrusion parameter overwrites
      `FirstE`: the recorded value is the first positive extrusion value, or
      failing that the last extrusion value, or failing that the old one. */
  predicate FirstPositive(num: Numerics, ps: seq<string>, j: int) {
    0 <= j < |ps| && IsExtrusion(ps[j]) && EValue(num, ps[j]) > 0.0 &&
    forall k :: 0 <= k < j && IsExtrusion(ps[k]) ==> EValue(num, ps[k]) <= 0.0
  }

  lemma {:induction false} MotionRecordsFirstPositive(cfg: Config, firstE: real, ps: seq<string>, j: int)
    requires firstE <= 0.0
    requires FirstPositive(cfg.num, ps, j)
    requires !MotionOf(cfg, firstE, ps).failed
    ensures MotionOf(cfg, firstE, ps).firstE == EValue(cfg.num, ps[j])
  {
    var init := ps[..|ps| - 1];
    if j < |ps| - 1 {
      assert FirstPositive(cfg.num, init, j);
      MotionRecordsFirstPositive(cfg, firstE, init, j);
    } else {
      MotionNotYetPositive(cfg, firstE, init);
    }
  }

  /** Before the first positive extrusion value the recorded value is not positive. */
  lemma {:induction false} MotionNotYetPositive(cfg: Config, firstE: real, ps: seq<string>)
    requires firstE <= 0.0
    requires forall k :: 0 <= k < |ps| && IsExtrusion(ps[k]) ==> EValue(cfg.num, ps[k]) <= 0.0
    ensures MotionOf(cfg, firstE, ps).firstE <= 0.0
  {
    if ps != [] {
      MotionNotYetPositive(cfg, firstE, ps[..|ps| - 1]);
    }
  }

  lemma {:induction false} MotionRecordsLast(cfg: Config, firstE: real, ps: seq<string>, j: int)
    requires firstE <= 0.0
    requires forall k :: 0 <= k < |ps| && IsExtrusion(ps[k]) ==> EValue(cfg.num, ps[k]) <= 0.0
    requires 0 <= j < |ps| && IsExtrusion(ps[j])
    requires forall k :: j < k < |ps| ==> !IsExtrusion(ps[k])
    requires !MotionOf(cfg, firstE, ps).failed
    ensures MotionOf(cfg, firstE, ps).firstE == EValue(cfg.num, ps[j])
  {
    var init := ps[..|ps| - 1];
    if j < |ps| - 1 {
      MotionRecordsLast(cfg, firstE, init, j);
    } else {
      MotionNotYetPositive(cfg, firstE, init);
    }
  }

  // One line

  /** The chunk a line yields and the new `FirstE`, or the error it raises. */
  datatype Step = Emit(chunk: string, firstE: real) | Fail(error: ConvError, firstE: real)

  /** On, off and tool change: a command for the unused toolhead is written
      as read; any other becomes the bare command for "T1" then "T0". */
  function OnOffStep(code: int, ps: seq<string>, notUsed: string, line: string): string
    requires 0 <= code < NUMCODES
  {
    if |ps| > 0 && ps[0] == notUsed then line else Pair(CODES[code], "")
  }

  /** Temperature: the command for both toolheads with the temperature read. */
  function TempStep(ps: seq<string>, notUsed: string): string {
    Pair(CODES[M104], " S" + ShowInt(LastTemp(Before(ps, notUsed))))
  }

  /** Speed: the command for both toolheads with the `R` parameter read. */
  function SpeedStep(ps: seq<string>, notUsed: string, firstE: real, n: nat): Step {
    match SpeedOf(Before(ps, notUsed))
    case Overlong => Fail(SpeedTooLong(n), firstE)
    case Missing => Fail(NoSpeed(n), firstE)
    case Speed(t) => Emit(Pair(CODES[M108], " " + t), firstE)
  }

  /** Coordinated motion: the rebuilt line and the new `FirstE`. */
  function MotionLineStep(cfg: Config, firstE: real, ps: seq<string>, n: nat): Step {
    var m := MotionOf(cfg, firstE, ps);
    if m.failed then Fail(ParamTooLong(n), m.firstE) else Emit(m.text + "\n", m.firstE)
  }

  /** Line `n` of the second pass, read with `FirstE` at `firstE`. */
  function ConvLine(cfg: Config, firstE: real, line: string, n: nat): Step {
    var ts := Split(line);
    CodeStep(cfg, firstE, CodeOf(First(ts)), Params(ts), line, n)
  }

  /** The same, once the line's command and parameters are known. */
  function CodeStep(cfg: Config, firstE: real, code: int, ps: seq<string>, line: string, n: nat): Step {
    var notUsed := NotUsed(cfg.rightUsed);
    if IsOnOff(code) then Emit(OnOffStep(code, ps, notUsed, line), firstE)
    else if code == M104 then Emit(TempStep(ps, notUsed), firstE)
    else if code == M108 then SpeedStep(ps, notUsed, firstE, n)
    else if code == G1 then MotionLineStep(cfg, firstE, ps, n)
    else Emit(line, firstE)
  }

  // The whole file

  /** The chunks written for `lines`, `FirstE` afterwards, and the error that
      stopped the pass, if any. */
  datatype Conv = Conv(chunks: seq<string>, firstE: real, error: Option<ConvError>)

  function ConvLines(cfg: Config, firstE: real, lines: seq<string>): Conv {
    if lines == [] then Conv([], firstE, None)
    else
      var before := ConvLines(cfg, firstE, lines[..|lines| - 1]);
      if before.error.Some? then before
      else
        match ConvLine(cfg, before.firstE, lines[|lines| - 1], |lines|)
        case Emit(c, e) => Conv(before.chunks + [c], e, None)
        case Fail(err, e) => Conv(before.chunks, e, Some(err))
  }

  /** Once the pass has stopped, reading further lines changes nothing. */
  lemma {:induction false} ConvStops(cfg: Config, firstE: real, lines: seq<string>, k: nat)
    requires k <= |lines|
    requires ConvLines(cfg, firstE, lines[..k]).error.Some?
    ensures ConvLines(cfg, firstE, lines) == ConvLines(cfg, firstE, lines[..k])
    decreases |lines| - k
  {
    if k < |lines| {
      var init := lines[..|lines| - 1];
      assert init[..k] == lines[..k];
      ConvStops(cfg, firstE, init, k);
    } else {
      assert lines[..k] == lines;
    }
  }

  /** Once a parameter is too long, the rest of the motion line is not read. */
  lemma {:induction false} MotionStops(cfg: Config, firstE: real, ps: seq<string>, k: nat)
    requires k <= |ps|
    requires MotionOf(cfg, firstE, ps[..k]).failed
    ensures MotionOf(cfg, firstE, ps) == MotionOf(cfg, firstE, ps[..k])
    decreases |ps| - k
  {
    if k < |ps| {
      var init := ps[..|ps| - 1];
      assert init[..k] == ps[..k];
      MotionStops(cfg, firstE, init, k);
    } else {
      assert ps[..k] == ps;
    }
  }
}
