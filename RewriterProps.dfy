/**
  What the second pass promises, stated over its specification in `Rewriter`:
  one chunk per input line, unrecognised lines copied, each duplicated command
  reading back (through the same tokeniser) as that command for "T1" then
  "T0", the temperature and speed chosen as the scan defines them, the
  motion-line rules, and `FirstE` never changing once positive.
*/
module RewriterProps {

  import opened Options
  import opened Tokens
  import opened Codes
  import opened Numbers
  import opened Scanner
  import opened Rewriter

  // The whole file

  /** Every line yields exactly one chunk until the first error, and an error
      names the line it stopped at. */
  lemma {:induction false} ConvLinesShape(cfg: Config, firstE: real, lines: seq<string>)
    ensures var c := ConvLines(cfg, firstE, lines);
      && (c.error.None? ==> |c.chunks| == |lines|)
      && (c.error.Some? ==>
            1 <= LineOf(c.error.value) <= |lines| && |c.chunks| == LineOf(c.error.value) - 1)
  {
    if lines != [] {
      var init := lines[..|lines| - 1];
      ConvLinesShape(cfg, firstE, init);
      var before := ConvLines(cfg, firstE, init);
      if before.error.None? {
        ConvLineErrorAt(cfg, before.firstE, lines[|lines| - 1], |lines|);
      }
    }
  }

  /** A line that fails reports its own number. */
  lemma ConvLineErrorAt(cfg: Config, firstE: real, line: string, n: nat)
    ensures var st := ConvLine(cfg, firstE, line, n);
      st.Fail? ==> LineOf(st.error) == n
  {
  }

  /** Chunk `k` is what line `k` yields with the `FirstE` the lines before it
      left, and it leaves the `FirstE` the next line sees. */
  lemma {:induction false} ConvLinesChunk(cfg: Config, firstE: real, lines: seq<string>, k: nat)
    requires k < |lines| && k < |ConvLines(cfg, firstE, lines).chunks|
    ensures ConvLine(cfg, ConvLines(cfg, firstE, lines[..k]).firstE, lines[k], k + 1)
      == Emit(ConvLines(cfg, firstE, lines).chunks[k], ConvLines(cfg, firstE, lines[..k + 1]).firstE)
  {
    if k == |lines| - 1 {
      ConvLinesChunkLast(cfg, firstE, lines);
    } else {
      var init := lines[..|lines| - 1];
      ConvLinesChunkEarlier(cfg, firstE, lines, k);
      assert init[..k] == lines[..k] && init[..k + 1] == lines[..k + 1] && init[k] == lines[k];
      ConvLinesChunk(cfg, firstE, init, k);
    }
  }

  /** The chunk of the last line, when there is one. */
  lemma ConvLinesChunkLast(cfg: Config, firstE: real, lines: seq<string>)
    requires lines != [] && |lines| - 1 < |ConvLines(cfg, firstE, lines).chunks|
    ensures var k := |lines| - 1;
      ConvLine(cfg, ConvLines(cfg, firstE, lines[..k]).firstE, lines[k], k + 1)
        == Emit(ConvLines(cfg, firstE, lines).chunks[k], ConvLines(cfg, firstE, lines[..k + 1]).firstE)
  {
    var init := lines[..|lines| - 1];
    ConvLinesShape(cfg, firstE, init);
    ConvLinesExtends(cfg, firstE, lines);
    assert lines[..|lines|] == lines;
  }

  /** A chunk before the last line's is already among the chunks of the lines
      before the last. */
  lemma ConvLinesChunkEarlier(cfg: Config, firstE: real, lines: seq<string>, k: nat)
    requires k < |lines| - 1 && k < |ConvLines(cfg, firstE, lines).chunks|
    ensures var before := ConvLines(cfg, firstE, lines[..|lines| - 1]);
      k < |before.chunks| && before.chunks[k] == ConvLines(cfg, firstE, lines).chunks[k]
  {
    ConvLinesShape(cfg, firstE, lines[..|lines| - 1]);
    ConvLinesExtends(cfg, firstE, lines);
  }

  /** The chunks written for all lines extend those written for all but the
      last; a new chunk comes from the last line. */
  lemma ConvLinesExtends(cfg: Config, firstE: real, lines: seq<string>)
    requires lines != []
    ensures var b := ConvLines(cfg, firstE, lines[..|lines| - 1]);
      var c := ConvLines(cfg, firstE, lines);
      && b.chunks <= c.chunks
      && (|c.chunks| > |b.chunks| ==>
            b.error.None? &&
            ConvLine(cfg, b.firstE, lines[|lines| - 1], |lines|) == Emit(c.chunks[|b.chunks|], c.firstE))
  {
  }

  /** A line whose first token is none of the seven commands, a blank line
      included, is written exactly as it was read. */
  lemma PassThrough(cfg: Config, firstE: real, lines: seq<string>)
    ensures var c := ConvLines(cfg, firstE, lines);
      forall k :: 0 <= k < |lines| && k < |c.chunks| && CodeOf(First(Split(lines[k]))) == NOTOKENS ==>
        c.chunks[k] == lines[k]
  {
    var c := ConvLines(cfg, firstE, lines);
    forall k | 0 <= k < |lines| && k < |c.chunks| && CodeOf(First(Split(lines[k]))) == NOTOKENS
      ensures c.chunks[k] == lines[k]
    {
      ConvLinesChunk(cfg, firstE, lines, k);
    }
  }

  /** Only a motion line can change `FirstE`. */
  lemma OnlyMotionSetsFirstE(cfg: Config, firstE: real, line: string, n: nat)
    requires CodeOf(First(Split(line))) != G1
    ensures ConvLine(cfg, firstE, line, n).firstE == firstE
  {
  }

  /** Once `FirstE` is positive, no line of the file changes it. */
  lemma {:induction false} FirstEFixedOnceSet(cfg: Config, firstE: real, lines: seq<string>)
    requires firstE > 0.0
    ensures ConvLines(cfg, firstE, lines).firstE == firstE
  {
    if lines != [] {
      var init := lines[..|lines| - 1];
      FirstEFixedOnceSet(cfg, firstE, init);
      ConvLineKeepsFirstE(cfg, firstE, lines[|lines| - 1], |lines|);
    }
  }

  lemma ConvLineKeepsFirstE(cfg: Config, firstE: real, line: string, n: nat)
    requires firstE > 0.0
    ensures ConvLine(cfg, firstE, line, n).firstE == firstE
  {
    MotionKeepsFirstE(cfg, firstE, Params(Split(line)));
  }

  // One line

  /** One half of a duplicated command reads back as the command, its
      parameters and the selector. */
  lemma SplitHalf(c: string, args: seq<string>, sel: string, rest: string)
    requires IsToken(c) && AllTokens(args) && IsToken(sel)
    ensures Split(c + Spaced(args) + " " + sel + "\n" + rest) == [c] + args + [sel] + Split(rest)
  {
    calc {
      Split(c + Spaced(args) + " " + sel + "\n" + rest);
      { SpacedSnoc(args, sel);
        assert c + Spaced(args) + " " + sel + "\n" + rest == c + Spaced(args + [sel]) + "\n" + rest; }
      Split(c + Spaced(args + [sel]) + "\n" + rest);
      { SplitLine(c, args + [sel], rest); }
      [c] + (args + [sel]) + Split(rest);
    }
  }

  lemma PairHalves(c: string, a: string)
    ensures Pair(c, a) == c + a + " " + LEFT + "\n" + (c + a + " " + RIGHT + "\n" + [])
  {
    assert " T1\n" == " " + LEFT + "\n" && " T0\n" == " " + RIGHT + "\n";
  }

  /** Two such halves in a row read back as both. */
  lemma SplitHalves(c: string, args: seq<string>, sel1: string, sel2: string)
    requires IsToken(c) && AllTokens(args) && IsToken(sel1) && IsToken(sel2)
    ensures Split(c + Spaced(args) + " " + sel1 + "\n" + (c + Spaced(args) + " " + sel2 + "\n" + []))
      == [c] + args + [sel1] + ([c] + args + [sel2])
  {
    var second := c + Spaced(args) + " " + sel2 + "\n" + [];
    SplitHalf(c, args, sel1, second);
    SplitHalf(c, args, sel2, []);
    assert Split([]) == [];
  }

  /** The text of a duplicated command reads back as the command with its
      parameters for "T1", then again for "T0". */
  lemma SplitPair(c: string, args: seq<string>)
    requires IsToken(c) && AllTokens(args)
    ensures Split(Pair(c, Spaced(args))) == [c] + args + [LEFT, c] + args + [RIGHT]
  {
    PairHalves(c, Spaced(args));
    SplitHalves(c, args, LEFT, RIGHT);
    assert [c] + args + [LEFT] + ([c] + args + [RIGHT]) == [c] + args + [LEFT, c] + args + [RIGHT];
  }

  /** A command with a single parameter, duplicated, reads back as both halves. */
  lemma SplitPairOne(c: string, tok: string)
    requires IsToken(c) && IsToken(tok)
    ensures Split(Pair(c, " " + tok)) == [c, tok, LEFT, c, tok, RIGHT]
  {
    assert [tok][1..] == [];
    assert Spaced([tok]) == " " + tok + Spaced([]) == " " + tok;
    SplitPair(c, [tok]);
    assert [c] + [tok] + [LEFT, c] + [tok] + [RIGHT] == [c, tok, LEFT, c, tok, RIGHT];
  }

  lemma ParamsAreTokens(line: string)
    ensures AllTokens(Params(Split(line)))
  {
    SplitTokens(line);
  }

  lemma BeforeAreTokens(ps: seq<string>, stop: string)
    requires AllTokens(ps)
    ensures AllTokens(Before(ps, stop))
  {
    var b := Before(ps, stop);
    forall i | 0 <= i < |b| ensures IsToken(b[i]) {
      assert b[i] == ps[i];
    }
  }

  /** On, off and tool change: addressed to the unused toolhead, the line is
      written unchanged; otherwise (no parameter included) it becomes the bare
      command for "T1" then "T0", every other parameter dropped. */
  lemma OnOffLine(cfg: Config, firstE: real, line: string, n: nat)
    requires IsOnOff(CodeOf(First(Split(line))))
    ensures var ts := Split(line);
      var st := ConvLine(cfg, firstE, line, n);
      && st.Emit? && st.firstE == firstE
      && (|ts| > 1 && ts[1] == NotUsed(cfg.rightUsed) ==> st.chunk == line)
      && (!(|ts| > 1 && ts[1] == NotUsed(cfg.rightUsed)) ==>
            && st.chunk == ts[0] + " T1\n" + ts[0] + " T0\n"
            && Split(st.chunk) == [ts[0], LEFT, ts[0], RIGHT])
  {
    var ts := Split(line);
    var code := CodeOf(First(ts));
    var ps := Params(ts);
    var notUsed := NotUsed(cfg.rightUsed);
    assert ConvLine(cfg, firstE, line, n) == Emit(OnOffStep(code, ps, notUsed, line), firstE);
    OnOffStepReadsBack(code, ps, notUsed, line);
    assert ts[0] == CODES[code];
    BarePairText(CODES[code]);
  }

  lemma BarePairText(c: string)
    ensures Pair(c, "") == c + " T1\n" + c + " T0\n"
  {
    assert c + "" == c;
  }

  lemma OnOffStepReadsBack(code: int, ps: seq<string>, notUsed: string, line: string)
    requires IsOnOff(code)
    ensures |ps| > 0 && ps[0] == notUsed ==> OnOffStep(code, ps, notUsed, line) == line
    ensures !(|ps| > 0 && ps[0] == notUsed) ==>
      Split(OnOffStep(code, ps, notUsed, line)) == [CODES[code], LEFT, CODES[code], RIGHT]
  {
    CodesAreTokens();
    BarePairReadsBack(CODES[code]);
  }

  /** Every command in the table is a single token. */
  lemma CodesAreTokens()
    ensures forall i :: 0 <= i < NUMCODES ==> IsToken(CODES[i])
  {
  }

  lemma BarePairReadsBack(c: string)
    requires IsToken(c)
    ensures Split(Pair(c, "")) == [c, LEFT, c, RIGHT]
  {
    assert Spaced([]) == "";
    SplitPair(c, []);
    assert [c] + [] + [LEFT, c] + [] + [RIGHT] == [c, LEFT, c, RIGHT];
  }

  /** `%d` output contains no delimiter. */
  lemma ShowIntIsToken(t: int)
    ensures IsToken("S" + ShowInt(t))
  {
    ShowIntChars(t);
    var s := "S" + ShowInt(t);
    forall i | 0 <= i < |s| ensures !IsSep(s[i]) {
      if i > 0 {
        assert s[i] == ShowInt(t)[i - 1];
      }
    }
  }

  /** Temperature: always two lines, for "T1" then "T0", carrying the
      temperature of the last `S` parameter before the unused toolhead's
      selector (0 if none), which reads back as that same temperature. */
  lemma TempLine(cfg: Config, firstE: real, line: string, n: nat)
    requires CodeOf(First(Split(line))) == M104
    ensures ConvLine(cfg, firstE, line, n).Emit? && ConvLine(cfg, firstE, line, n).firstE == firstE
    ensures var t := LastTemp(Before(Params(Split(line)), NotUsed(cfg.rightUsed)));
      ConvLine(cfg, firstE, line, n).chunk == "M104 S" + ShowInt(t) + " T1\nM104 S" + ShowInt(t) + " T0\n"
    ensures var t := LastTemp(Before(Params(Split(line)), NotUsed(cfg.rightUsed)));
      Split(ConvLine(cfg, firstE, line, n).chunk) == ["M104", "S" + ShowInt(t), LEFT, "M104", "S" + ShowInt(t), RIGHT]
    ensures var t := LastTemp(Before(Params(Split(line)), NotUsed(cfg.rightUsed)));
      TempOf("S" + ShowInt(t)) == Some(t)
  {
    var ps := Params(Split(line));
    var notUsed := NotUsed(cfg.rightUsed);
    ConvLineTemp(cfg, firstE, line, n);
    TempStepReadsBack(ps, notUsed);
    TempStepText(ps, notUsed);
  }

  lemma TempStepText(ps: seq<string>, notUsed: string)
    ensures var x := ShowInt(LastTemp(Before(ps, notUsed)));
      TempStep(ps, notUsed) == "M104 S" + x + " T1\nM104 S" + x + " T0\n"
  {
    assert CODES[M104] == "M104";
    TempPairText(ShowInt(LastTemp(Before(ps, notUsed))));
  }

  /** The temperature pair, for any temperature text `x`. */
  lemma TempPairText(x: string)
    ensures Pair("M104", " S" + x) == "M104 S" + x + " T1\nM104 S" + x + " T0\n"
  {
    var c, s := "M104", " S";
    var t1, t0 := " T1\n", " T0\n";
    assert c + s == "M104 S";
    assert t1 + c + s == " T1\nM104 S";
    calc {
      Pair(c, s + x);
      c + (s + x) + t1 + c + (s + x) + t0;
      (c + s) + x + (t1 + c + s) + x + t0;
    }
  }

  lemma ConvLineTemp(cfg: Config, firstE: real, line: string, n: nat)
    requires CodeOf(First(Split(line))) == M104
    ensures ConvLine(cfg, firstE, line, n) == Emit(TempStep(Params(Split(line)), NotUsed(cfg.rightUsed)), firstE)
  {
  }

  lemma TempStepReadsBack(ps: seq<string>, notUsed: string)
    ensures var t := LastTemp(Before(ps, notUsed));
      && Split(TempStep(ps, notUsed)) == [CODES[M104], "S" + ShowInt(t), LEFT, CODES[M104], "S" + ShowInt(t), RIGHT]
      && TempOf("S" + ShowInt(t)) == Some(t)
  {
    var t := LastTemp(Before(ps, notUsed));
    ShowIntIsToken(t);
    CodesAreTokens();
    TempPairReadsBack(CODES[M104], ShowInt(t));
    TempTokenReadsBack(t);
  }

  lemma TempPairReadsBack(c: string, x: string)
    requires IsToken(c) && IsToken("S" + x)
    ensures Split(Pair(c, " S" + x)) == [c, "S" + x, LEFT, c, "S" + x, RIGHT]
  {
    assert " S" + x == " " + ("S" + x) by {
      assert " S" == " " + "S";
    }
    SplitPairOne(c, "S" + x);
  }

  /** The temperature written reads back as the same temperature. */
  lemma TempTokenReadsBack(t: int)
    ensures TempOf("S" + ShowInt(t)) == Some(t)
  {
    ScanShow(t);
    assert ("S" + ShowInt(t))[1..] == ShowInt(t);
  }

  /** Speed: fails on an `R` parameter over 15 characters, or on no `R`
      parameter, before the unused toolhead's selector; otherwise two lines for
      "T1" then "T0" carrying the last such `R` parameter as it was written. */
  lemma SpeedLine(cfg: Config, firstE: real, line: string, n: nat)
    requires CodeOf(First(Split(line))) == M108
    ensures var b := Before(Params(Split(line)), NotUsed(cfg.rightUsed));
      var st := ConvLine(cfg, firstE, line, n);
      && st.firstE == firstE
      && (st == Fail(SpeedTooLong(n), firstE) <==>
            exists j :: 0 <= j < |b| && Tagged(b[j], 'R') && |b[j]| > MAX_PARAM)
      && (st == Fail(NoSpeed(n), firstE) <==> forall j :: 0 <= j < |b| ==> !Tagged(b[j], 'R'))
      && (st.Emit? <==>
            && !(exists j :: 0 <= j < |b| && Tagged(b[j], 'R') && |b[j]| > MAX_PARAM)
            && (exists j :: 0 <= j < |b| && Tagged(b[j], 'R')))
      && (st.Emit? ==>
            exists j :: && IsLastSpeed(b, j)
                        && st.chunk == "M108 " + b[j] + " T1\nM108 " + b[j] + " T0\n"
                        && Split(st.chunk) == ["M108", b[j], LEFT, "M108", b[j], RIGHT])
  {
    var ps := Params(Split(line));
    var notUsed := NotUsed(cfg.rightUsed);
    assert ConvLine(cfg, firstE, line, n) == SpeedStep(ps, notUsed, firstE, n);
    SpeedStepMeaning(ps, notUsed, firstE, n);
    if SpeedOf(Before(ps, notUsed)).Speed? {
      ParamsAreTokens(line);
      SpeedStepEmits(ps, notUsed, firstE, n);
    }
  }

  lemma SpeedStepMeaning(ps: seq<string>, notUsed: string, firstE: real, n: nat)
    ensures SpeedStep(ps, notUsed, firstE, n).firstE == firstE
    ensures var b, st := Before(ps, notUsed), SpeedStep(ps, notUsed, firstE, n);
      && (st == Fail(SpeedTooLong(n), firstE) <==>
            exists j :: 0 <= j < |b| && Tagged(b[j], 'R') && |b[j]| > MAX_PARAM)
      && (st == Fail(NoSpeed(n), firstE) <==> forall j :: 0 <= j < |b| ==> !Tagged(b[j], 'R'))
      && (st.Emit? <==>
            && !(exists j :: 0 <= j < |b| && Tagged(b[j], 'R') && |b[j]| > MAX_PARAM)
            && (exists j :: 0 <= j < |b| && Tagged(b[j], 'R')))
  {
    var b := Before(ps, notUsed);
    SpeedScanCases(b);
    var st := SpeedStep(ps, notUsed, firstE, n);
    assert st == Fail(SpeedTooLong(n), firstE) <==> SpeedOf(b).Overlong?;
    assert st == Fail(NoSpeed(n), firstE) <==> SpeedOf(b).Missing?;
    assert st.Emit? <==> SpeedOf(b).Speed?;
    assert (exists j :: 0 <= j < |Before(ps, notUsed)| && Tagged(Before(ps, notUsed)[j], 'R') && |Before(ps, notUsed)[j]| > MAX_PARAM)
      ==> st == Fail(SpeedTooLong(n), firstE);
    assert st == Fail(SpeedTooLong(n), firstE)
      ==> exists j :: 0 <= j < |Before(ps, notUsed)| && Tagged(Before(ps, notUsed)[j], 'R') && |Before(ps, notUsed)[j]| > MAX_PARAM;
  }

  /** The three outcomes of the speed scan, each stated over the parameters. */
  lemma SpeedScanCases(b: seq<string>)
    ensures SpeedOf(b).Overlong? <==> exists j :: 0 <= j < |b| && Tagged(b[j], 'R') && |b[j]| > MAX_PARAM
    ensures SpeedOf(b).Missing? <==> forall j :: 0 <= j < |b| ==> !Tagged(b[j], 'R')
    ensures SpeedOf(b).Speed? <==>
      && !(exists j :: 0 <= j < |b| && Tagged(b[j], 'R') && |b[j]| > MAX_PARAM)
      && (exists j :: 0 <= j < |b| && Tagged(b[j], 'R'))
  {
    SpeedOverlong(b);
    SpeedMissing(b);
    if exists j :: 0 <= j < |b| && Tagged(b[j], 'R') && |b[j]| > MAX_PARAM {
      var j :| 0 <= j < |b| && Tagged(b[j], 'R') && |b[j]| > MAX_PARAM;
      assert !SpeedOf(b).Missing?;
    }
  }

  lemma SpeedStepEmits(ps: seq<string>, notUsed: string, firstE: real, n: nat)
    requires AllTokens(ps)
    requires SpeedOf(Before(ps, notUsed)).Speed?
    ensures var b := Before(ps, notUsed);
      var st := SpeedStep(ps, notUsed, firstE, n);
      && st.Emit?
      && exists j :: && IsLastSpeed(b, j)
                     && st.chunk == "M108 " + b[j] + " T1\nM108 " + b[j] + " T0\n"
                     && Split(st.chunk) == [CODES[M108], b[j], LEFT, CODES[M108], b[j], RIGHT]
  {
    var b := Before(ps, notUsed);
    SpeedIsLast(b);
    var j :| IsLastSpeed(b, j) && b[j] == SpeedOf(b).token;
    BeforeAreTokens(ps, notUsed);
    CodesAreTokens();
    SplitPairOne(CODES[M108], b[j]);
    SpeedStepText(ps, notUsed, firstE, n);
  }

  /** The speed chunk is the two lines `M108 <R> T1` and `M108 <R> T0`. */
  lemma SpeedStepText(ps: seq<string>, notUsed: string, firstE: real, n: nat)
    requires SpeedOf(Before(ps, notUsed)).Speed?
    ensures var r := SpeedOf(Before(ps, notUsed)).token;
      SpeedStep(ps, notUsed, firstE, n).chunk == "M108 " + r + " T1\nM108 " + r + " T0\n"
  {
    var c, s, r := CODES[M108], " ", SpeedOf(Before(ps, notUsed)).token;
    var t1, t0 := " T1\n", " T0\n";
    assert c + s == "M108 ";
    assert t1 + c + s == " T1\nM108 ";
    calc {
      SpeedStep(ps, notUsed, firstE, n).chunk;
      c + (s + r) + t1 + c + (s + r) + t0;
      (c + s) + r + (t1 + c + s) + r + t0;
    }
  }

  /** Motion: the line fails, with its number, exactly when one of its `E`,
      `A` or `B` parameters is over 15 characters. */
  lemma MotionLineFails(cfg: Config, firstE: real, line: string, n: nat)
    requires CodeOf(First(Split(line))) == G1
    ensures var ps := Params(Split(line));
      var st := ConvLine(cfg, firstE, line, n);
      && (st.Fail? <==> exists j :: 0 <= j < |ps| && IsExtrusion(ps[j]) && |ps[j]| > MAX_PARAM)
      && (st.Fail? ==> st.error == ParamTooLong(n))
  {
    MotionFails(cfg, firstE, Params(Split(line)));
  }

  /** Motion without extrusion parameters: one output line holding the same
      tokens in the same order, and `FirstE` untouched. */
  lemma MotionLineCopied(cfg: Config, firstE: real, line: string, n: nat)
    requires CodeOf(First(Split(line))) == G1
    requires forall j :: 0 <= j < |Params(Split(line))| ==> !IsExtrusion(Params(Split(line))[j])
    ensures var st := ConvLine(cfg, firstE, line, n);
      && st.Emit? && st.firstE == firstE
      && Split(st.chunk) == Split(line)
      && st.chunk[|st.chunk| - 1] == '\n' && '\n' !in st.chunk[..|st.chunk| - 1]
  {
    var ts := Split(line);
    var ps := Params(ts);
    ParamsAreTokens(line);
    MotionWithoutExtrusion(cfg, firstE, ps);
    var chunk := "G1" + Spaced(ps) + "\n";
    assert chunk == "G1" + Spaced(ps) + "\n" + [];
    SplitLine("G1", ps, []);
    assert ts == [ts[0]] + ps;
    SpacedNoNewline(ps);
    assert chunk[..|chunk| - 1] == "G1" + Spaced(ps);
  }
}
