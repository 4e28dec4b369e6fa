/**
  The program itself: the process-wide state (`LeftUsed`, `RightUsed`,
  `FirstE`, `Ratio`) as the fields of one object, the two passes as methods
  that walk the lines and tokens with loops and update those fields, and the
  order in which the program runs them. Each method is proved to compute what
  the specifications in `Scanner` and `Rewriter` say.
*/
module DualExtrude {

  import opened Options
  import opened Tokens
  import opened Codes
  import opened Numbers
  import opened Scanner
  import opened Rewriter

  /** Outcome of `ConvFile`: the number of lines processed, or the error. */
  datatype ConvOutcome = Converted(count: nat) | ConvFailed(error: ConvError)

  /** The parameter loop of `M104` in the first pass: every parameter is read,
      noting each selector and the last temperature that converts. */
  method ScanTemp(ps: seq<string>) returns (usedLeft: bool, usedRight: bool, temp: int)
    ensures usedRight == (RIGHT in ps) && usedLeft == (LEFT in ps)
    ensures temp == LastTemp(ps)
  {
    usedLeft, usedRight, temp := false, false, 0;
    var i := 0;
    while i < |ps|
      invariant 0 <= i <= |ps|
      invariant usedRight == (RIGHT in ps[..i]) && usedLeft == (LEFT in ps[..i])
      invariant temp == LastTemp(ps[..i])
    {
      var token := ps[i];
      assert ps[..i + 1] == ps[..i] + [token];
      if token == RIGHT {
        usedRight := true;
      }
      if token == LEFT {
        usedLeft := true;
      }
      if Tagged(token, 'S') {
        var t := ScanInt(token[1..]);
        if t.Some? {
          temp := t.value;
        }
      }
      i := i + 1;
    }
    assert ps[..i] == ps;
  }

  /** The parameter loop of `M104` in the second pass: it stops at the unused
      toolhead's selector and keeps the last temperature that converts. */
  method TempBefore(ps: seq<string>, notUsed: string) returns (temp: int)
    ensures temp == LastTemp(Before(ps, notUsed))
  {
    temp := 0;
    var i := 0;
    while i < |ps|
      invariant 0 <= i <= |ps|
      invariant notUsed !in ps[..i]
      invariant temp == LastTemp(ps[..i])
    {
      var token := ps[i];
      if token == notUsed {
        break;
      }
      assert ps[..i + 1] == ps[..i] + [token];
      if Tagged(token, 'S') {
        var t := ScanInt(token[1..]);
        if t.Some? {
          temp := t.value;
        }
      }
      i := i + 1;
    }
    BeforeAt(ps, notUsed, i);
  }

  /** The parameter loop of `M108`: it stops at the unused toolhead's
      selector, fails on an `R` parameter too long for the speed buffer, and
      keeps the last `R` parameter. */
  method SpeedBefore(ps: seq<string>, notUsed: string) returns (r: SpeedScan)
    ensures r == SpeedOf(Before(ps, notUsed))
  {
    var speed := "";
    var i := 0;
    while i < |ps|
      invariant 0 <= i <= |ps|
      invariant notUsed !in ps[..i]
      invariant speed == [] || Tagged(speed, 'R')
      invariant SpeedOf(ps[..i]) == if speed == [] then Missing else Speed(speed)
    {
      var token := ps[i];
      if token == notUsed {
        break;
      }
      assert ps[..i + 1][..i] == ps[..i];
      if Tagged(token, 'R') {
        if |token| > MAX_PARAM {
          BeforeOverlong(ps, notUsed, i);
          return Overlong;
        }
        speed := token;
      }
      i := i + 1;
    }
    BeforeAt(ps, notUsed, i);
    if speed == [] {
      return Missing;
    }
    return Speed(speed);
  }

  /** An over-long `R` parameter met before the stop makes the whole scan fail. */
  lemma BeforeOverlong(ps: seq<string>, stop: string, i: nat)
    requires i < |ps| && stop !in ps[..i + 1]
    requires Tagged(ps[i], 'R') && |ps[i]| > MAX_PARAM
    ensures SpeedOf(Before(ps, stop)).Overlong?
  {
    var b := Before(ps, stop);
    assert ps[..i + 1][i] == ps[i];
    assert b[i] == ps[i];
    SpeedOverlong(b);
  }

  /** The chunk written for a temperature command. */
  method TempChunk(ps: seq<string>, notUsed: string) returns (chunk: string)
    ensures chunk == TempStep(ps, notUsed)
  {
    var temp := TempBefore(ps, notUsed);
    var arg := " S" + ShowInt(temp);
    chunk := CODES[M104] + arg + " T1\n" + CODES[M104] + arg + " T0\n";
  }

  /** The chunk written for a speed command, or its error. */
  method SpeedChunk(ps: seq<string>, notUsed: string, firstE: real, cnt: nat)
    returns (chunk: string, err: Option<ConvError>)
    ensures SpeedStep(ps, notUsed, firstE, cnt) == if err.Some? then Fail(err.value, firstE) else Emit(chunk, firstE)
  {
    var speed := SpeedBefore(ps, notUsed);
    chunk, err := "", None;
    match speed
    case Overlong =>
      err := Some(SpeedTooLong(cnt));
    case Missing =>
      err := Some(NoSpeed(cnt));
    case Speed(s) =>
      var arg := " " + s;
      chunk := CODES[M108] + arg + " T1\n" + CODES[M108] + arg + " T0\n";
  }

  /** Every line other than a motion command: on, off and tool change,
      temperature, speed, and the lines copied as read. */
  method ConvertCommand(code: int, ps: seq<string>, line: string, cnt: nat, notUsed: string, firstE: real)
    returns (chunk: string, err: Option<ConvError>)
    requires NOTOKENS <= code < NUMCODES && code != G1
    ensures forall cfg: Config | NotUsed(cfg.rightUsed) == notUsed ::
      CodeStep(cfg, firstE, code, ps, line, cnt) == if err.Some? then Fail(err.value, firstE) else Emit(chunk, firstE)
  {
    chunk, err := line, None;
    if IsOnOff(code) {
      if |ps| > 0 && ps[0] == notUsed {
        // addressed to the unused toolhead: the line is written as read
      } else {
        chunk := CODES[code] + " T1\n" + CODES[code] + " T0\n";
      }
    } else if code == M104 {
      chunk := TempChunk(ps, notUsed);
    } else if code == M108 {
      chunk, err := SpeedChunk(ps, notUsed, firstE, cnt);
    }
  }

  /** The program's global state. */
  class DualExtruder {

    var leftUsed: bool   // the input drives the left toolhead ("T1")
    var rightUsed: bool  // the input drives the right toolhead ("T0")
    var firstE: real     // last extrusion value read until one is positive, then that value; 0 at first
    var ratio: real      // ratio of the filament cross-sections

    /** The state `main` sets up before either pass. */
    constructor (ratio: real)
      ensures !leftUsed && !rightUsed && firstE == 0.0 && this.ratio == ratio
    {
      leftUsed, rightUsed, firstE := false, false, 0.0;
      this.ratio := ratio;
    }

    /** The first pass: sets the side flags and checks that exactly one
        toolhead is used. */
    method CheckFile(lines: seq<string>) returns (r: CheckOutcome)
      modifies this`leftUsed, this`rightUsed
      ensures Sides(leftUsed, rightUsed) == ScanLines(lines, old(Sides(leftUsed, rightUsed))).sides
      ensures r == Verdict(lines, old(Sides(leftUsed, rightUsed)))
    {
      ghost var start := Sides(leftUsed, rightUsed);
      var cnt := 0;
      while cnt < |lines|
        invariant 0 <= cnt <= |lines|
        invariant ScanLines(lines[..cnt], start) == Scan(Sides(leftUsed, rightUsed), None)
      {
        var ts := Split(lines[cnt]);
        cnt := cnt + 1;
        assert lines[..cnt][..cnt - 1] == lines[..cnt - 1];
        var code := CheckCode(First(ts));
        if code == M101 || code == M102 {
          if |ts| > 1 {
            if ts[1] == RIGHT {
              if leftUsed {
                ScanStops(lines, cnt, start);
                return BothUsed(cnt);
              }
              rightUsed := true;
            } else if ts[1] == LEFT {
              if rightUsed {
                ScanStops(lines, cnt, start);
                return BothUsed(cnt);
              }
              leftUsed := true;
            }
          }
        } else if code == M104 {
          var usedLeft, usedRight, temp := ScanTemp(ts[1..]);
          if usedRight && temp > 0 {
            if leftUsed {
              ScanStops(lines, cnt, start);
              return BothUsed(cnt);
            }
            rightUsed := true;
          } else if usedLeft && temp > 0 {
            if rightUsed {
              ScanStops(lines, cnt, start);
              return BothUsed(cnt);
            }
            leftUsed := true;
          }
        }
      }
      assert lines[..cnt] == lines;
      if !rightUsed && !leftUsed {
        return NoExtruder;
      }
      return Checked(cnt);
    }

    /** The parameter loop of `G1`: builds the motion line and records
        `FirstE`. */
    method ConvMotion(ps: seq<string>, num: Numerics) returns (text: string, failed: bool)
      modifies this`firstE
      ensures MotionOf(Config(rightUsed, ratio, num), old(firstE), ps) == Motion(text, firstE, failed)
    {
      ghost var cfg := Config(rightUsed, ratio, num);
      ghost var first := firstE;
      text, failed := CODES[G1], false;
      var i := 0;
      while i < |ps|
        invariant 0 <= i <= |ps|
        invariant MotionOf(cfg, first, ps[..i]) == Motion(text, firstE, false)
      {
        var token := ps[i];
        assert ps[..i + 1][..i] == ps[..i];
        if IsExtrusion(token) {
          if |token| > MAX_PARAM {
            failed := true;
            MotionStops(cfg, first, ps, i + 1);
            return;
          }
          var currentE := 0.0;
          var parsed := num.parseDouble(token[1..]);
          if parsed.Some? {
            currentE := parsed.value;
          }
          if firstE > 0.0 {
            var newE := num.formatCorrected(currentE, firstE, ratio);
            if rightUsed {
              text := text + " B" + newE + " A" + token[1..];
            } else {
              text := text + " A" + newE + " B" + token[1..];
            }
          } else {
            text := text + " A" + token[1..] + " B" + token[1..];
            firstE := currentE;
          }
        } else {
          text := text + " " + token;
        }
        i := i + 1;
      }
      assert ps[..i] == ps;
    }

    /** One line of the second pass: the chunk to write, or the error. */
    method ConvertLine(line: string, cnt: nat, notUsed: string, num: Numerics)
      returns (chunk: string, err: Option<ConvError>)
      requires notUsed == NotUsed(rightUsed)
      modifies this`firstE
      ensures ConvLine(Config(rightUsed, ratio, num), old(firstE), line, cnt) ==
        if err.Some? then Fail(err.value, firstE) else Emit(chunk, firstE)
    {
      var ts := Split(line);
      var code := CheckCode(First(ts));
      var ps := Params(ts);
      if code == G1 {
        var text, failed := ConvMotion(ps, num);
        if failed {
          chunk, err := line, Some(ParamTooLong(cnt));
        } else {
          chunk, err := text + "\n", None;
        }
      } else {
        chunk, err := ConvertCommand(code, ps, line, cnt, notUsed, firstE);
      }
    }
    /** The second pass: one chunk per line, in order, until a line fails. */
    method ConvFile(lines: seq<string>, num: Numerics) returns (out: seq<string>, r: ConvOutcome)
      modifies this`firstE
      ensures var c := ConvLines(Config(rightUsed, ratio, num), old(firstE), lines);
        && out == c.chunks && firstE == c.firstE
        && r == if c.error.Some? then ConvFailed(c.error.value) else Converted(|lines|)
    {
      ghost var cfg := Config(rightUsed, ratio, num);
      ghost var first := firstE;
      var notUsed := if rightUsed then "T1" else "T0";
      out := [];
      var cnt := 0;
      while cnt < |lines|
        invariant 0 <= cnt <= |lines|
        invariant ConvLines(cfg, first, lines[..cnt]) == Conv(out, firstE, None)
      {
        var line := lines[cnt];
        cnt := cnt + 1;
        assert lines[..cnt][..cnt - 1] == lines[..cnt - 1];
        var chunk, err := ConvertLine(line, cnt, notUsed, num);
        if err.Some? {
          ConvStops(cfg, first, lines, cnt);
          return out, ConvFailed(err.value);
        }
        out := out + [chunk];
      }
      assert lines[..cnt] == lines;
      return out, Converted(cnt);
    }
  }

  /** `main` after the arguments are read: the second pass runs only when the
      first succeeds, with the side it found and no extrusion value yet
      recorded; a failed first pass writes nothing. */
  method Run(lines: seq<string>, ratio: real, num: Numerics)
    returns (check: CheckOutcome, conv: Option<ConvOutcome>, out: seq<string>)
    ensures check == Verdict(lines, Sides(false, false))
    ensures !check.Checked? ==> conv == None && out == []
    ensures check.Checked? ==>
      var rightUsed := ScanLines(lines, Sides(false, false)).sides.right;
      var c := ConvLines(Config(rightUsed, ratio, num), 0.0, lines);
      && out == c.chunks
      && conv == Some(if c.error.Some? then ConvFailed(c.error.value) else Converted(|lines|))
  {
    var d := new DualExtruder(ratio);
    check := d.CheckFile(lines);
    if !check.Checked? {
      return check, None, [];
    }
    var r;
    out, r := d.ConvFile(lines, num);
    conv := Some(r);
  }
}
