/**
  Concrete lines for a file that drives the right toolhead ("T0"), so the
  unused selector is "T1".
*/
module Examples {

  import opened Options
  import opened Tokens
  import opened Codes
  import opened Numbers
  import opened Scanner
  import opened Rewriter
  import RewriterProps

  lemma SplitTwo(c: string, p: string)
    requires IsToken(c) && IsToken(p)
    ensures Split(c + " " + p + "\n") == [c, p]
  {
    assert [p][1..] == [];
    assert Spaced([p]) == " " + p + Spaced([]) == " " + p;
    assert c + " " + p + "\n" == c + Spaced([p]) + "\n" + [];
    SplitLine(c, [p], []);
  }

  lemma SplitOnLeft()
    ensures Split("M101 T1\n") == ["M101", LEFT]
  {
    assert IsToken("M101") && IsToken("T1");
    assert "M101 T1\n" == "M101" + " " + "T1" + "\n";
    SplitTwo("M101", "T1");
  }

  lemma SplitOnRight()
    ensures Split("M101 T0\n") == ["M101", RIGHT]
  {
    assert IsToken("M101") && IsToken("T0");
    assert "M101 T0\n" == "M101" + " " + "T0" + "\n";
    SplitTwo("M101", "T0");
  }

  /** An on command for the unused toolhead is written as read. */
  lemma UnusedOnExample(cfg: Config, line: string)
    requires Split(line) == ["M101", LEFT]
    requires cfg.rightUsed
    ensures ConvLine(cfg, 0.0, line, 1) == Emit(line, 0.0)
  {
    assert CODES[M101] == "M101";
  }

  /** An on command for the toolhead in use is duplicated. */
  lemma UsedOnExample(cfg: Config, line: string)
    requires Split(line) == ["M101", RIGHT]
    requires cfg.rightUsed
    ensures ConvLine(cfg, 0.0, line, 1) == Emit("M101 T1\nM101 T0\n", 0.0)
  {
    assert CODES[M101] == "M101";
    assert ConvLine(cfg, 0.0, line, 1) == CodeStep(cfg, 0.0, M101, [RIGHT], line, 1);
    assert CodeStep(cfg, 0.0, M101, [RIGHT], line, 1) == Emit(Pair("M101", ""), 0.0);
    RewriterProps.BarePairText("M101");
  }

  /** For a right-toolhead file, `M101 T1` is written as read and `M101 T0`
      becomes `M101 T1` and `M101 T0`. */
  lemma OnOffExamples(cfg: Config)
    requires cfg.rightUsed
    ensures ConvLine(cfg, 0.0, "M101 T1\n", 1) == Emit("M101 T1\n", 0.0)
    ensures ConvLine(cfg, 0.0, "M101 T0\n", 1) == Emit("M101 T1\nM101 T0\n", 0.0)
  {
    SplitOnLeft();
    SplitOnRight();
    UnusedOnExample(cfg, "M101 T1\n");
    UsedOnExample(cfg, "M101 T0\n");
  }

  /** `M101 T0` marks the right side, and `M101 T1` after it is the
      both-extruders error. */
  lemma CheckLineExamples()
    ensures CheckLine(Sides(false, false), "M101 T0\n") == Some(Sides(false, true))
    ensures CheckLine(Sides(false, true), "M101 T1\n") == None
  {
    SplitOnLeft();
    SplitOnRight();
    assert CODES[M101] == "M101";
  }

  /** The same on commands raise the both-extruders error in the first pass
      at the second line. */
  lemma CheckExample()
    ensures Verdict(["M101 T0\n", "M101 T1\n"], Sides(false, false)) == BothUsed(2)
    ensures Verdict(["M101 T0\n"], Sides(false, false)) == Checked(1)
  {
    CheckLineExamples();
    var lines := ["M101 T0\n", "M101 T1\n"];
    assert lines[..1] == ["M101 T0\n"];
    assert ["M101 T0\n"][..0] == [];
    assert ScanLines(["M101 T0\n"], Sides(false, false)) == Scan(Sides(false, true), None);
  }

  lemma SplitThree(c: string, p: string, q: string)
    requires IsToken(c) && IsToken(p) && IsToken(q)
    ensures Split(c + " " + p + " " + q + "\n") == [c, p, q]
  {
    assert [p, q][1..] == [q] && [q][1..] == [];
    assert Spaced([p, q]) == " " + p + (" " + q + Spaced([]));
    assert c + " " + p + " " + q + "\n" == c + Spaced([p, q]) + "\n" + [];
    SplitLine(c, [p, q], []);
  }

  lemma MotionSplits()
    ensures Split("G1 X10 E5.0\n") == ["G1", "X10", "E5.0"]
    ensures Split("G1 X20 E7.5\n") == ["G1", "X20", "E7.5"]
  {
    assert IsToken("G1") && IsToken("X10") && IsToken("E5.0") && IsToken("X20") && IsToken("E7.5");
    assert "G1 X10 E5.0\n" == "G1" + " " + "X10" + " " + "E5.0" + "\n";
    assert "G1 X20 E7.5\n" == "G1" + " " + "X20" + " " + "E7.5" + "\n";
    SplitThree("G1", "X10", "E5.0");
    SplitThree("G1", "X20", "E7.5");
  }

  /** The first motion line: the value is copied into `A` and `B` and recorded. */
  lemma FirstMotionLine(cfg: Config, line: string)
    requires Split(line) == ["G1", "X10", "E5.0"]
    requires cfg.num.parseDouble("5.0") == Some(5.0)
    ensures ConvLine(cfg, 0.0, line, 2) == Emit("G1 X10 A5.0 B5.0\n", 5.0)
  {
    FirstMotionText(cfg);
  }

  lemma FirstMotionText(cfg: Config)
    requires cfg.num.parseDouble("5.0") == Some(5.0)
    ensures MotionOf(cfg, 0.0, ["X10", "E5.0"]) == Motion("G1 X10 A5.0 B5.0", 5.0, false)
  {
    assert CODES[G1] == "G1";
    assert ["X10"][..0] == [] && ["X10", "E5.0"][..1] == ["X10"];
    assert MotionOf(cfg, 0.0, ["X10"]) == Motion("G1 X10", 0.0, false);
    var m := MotionStep(cfg, Motion("G1 X10", 0.0, false), "E5.0");
    assert EValue(cfg.num, "E5.0") == 5.0;
    assert m == Motion("G1 X10 A5.0 B5.0", 5.0, false);
  }

  /** A later motion line of a right-toolhead file: the corrected value under
      `B` first, then the value read under `A`. */
  lemma LaterMotionLine(cfg: Config, line: string)
    requires Split(line) == ["G1", "X20", "E7.5"]
    requires cfg.rightUsed
    ensures ConvLine(cfg, 5.0, line, 3) ==
      Emit("G1 X20 B" + cfg.num.formatCorrected(EValue(cfg.num, "E7.5"), 5.0, cfg.ratio) + " A7.5\n", 5.0)
  {
    assert CODES[G1] == "G1";
    assert ["X20"][..0] == [] && ["X20", "E7.5"][..1] == ["X20"];
    assert MotionOf(cfg, 5.0, ["X20"]) == Motion("G1 X20", 5.0, false);
  }

  /** The three lines of the example, as the tokeniser reads them. */
  predicate ExampleTokens(lines: seq<string>) {
    && |lines| == 3
    && Split(lines[0]) == ["M101", RIGHT]
    && Split(lines[1]) == ["G1", "X10", "E5.0"]
    && Split(lines[2]) == ["G1", "X20", "E7.5"]
  }

  /** The first pass accepts the file for the right side. */
  lemma MotionFileChecked(lines: seq<string>)
    requires ExampleTokens(lines)
    ensures Verdict(lines, Sides(false, false)) == Checked(3)
    ensures ScanLines(lines, Sides(false, false)).sides == Sides(false, true)
  {
    assert CODES[M101] == "M101" && CODES[G1] == "G1";
    assert lines[..2][..1] == lines[..1] && lines[..1][..0] == [] && lines[..3] == lines;
    assert ScanLines(lines[..1], Sides(false, false)) == Scan(Sides(false, true), None);
    assert ScanLines(lines[..2], Sides(false, false)) == Scan(Sides(false, true), None);
  }

  /** The second pass over the same file, driving the right toolhead. */
  lemma MotionFileConverted(cfg: Config, lines: seq<string>)
    requires ExampleTokens(lines)
    requires cfg.rightUsed && cfg.num.parseDouble("5.0") == Some(5.0)
    ensures ConvLines(cfg, 0.0, lines) ==
      Conv(["M101 T1\nM101 T0\n", "G1 X10 A5.0 B5.0\n",
            "G1 X20 B" + cfg.num.formatCorrected(EValue(cfg.num, "E7.5"), 5.0, cfg.ratio) + " A7.5\n"],
           5.0, None)
  {
    var c1 := "M101 T1\nM101 T0\n";
    var c2 := "G1 X10 A5.0 B5.0\n";
    var c3 := "G1 X20 B" + cfg.num.formatCorrected(EValue(cfg.num, "E7.5"), 5.0, cfg.ratio) + " A7.5\n";
    UsedOnExample(cfg, lines[0]);
    FirstMotionLine(cfg, lines[1]);
    LaterMotionLine(cfg, lines[2]);
    assert lines[..1][..0] == [];
    ConvLinesNext(cfg, 0.0, lines[..1], Conv([], 0.0, None), c1, 0.0);
    assert lines[..2][..1] == lines[..1];
    ConvLinesNext(cfg, 0.0, lines[..2], Conv([c1], 0.0, None), c2, 5.0);
    assert lines[..3] == lines;
    ConvLinesNext(cfg, 0.0, lines, Conv([c1, c2], 5.0, None), c3, 5.0);
    assert [c1] + [c2] + [c3] == [c1, c2, c3];
  }

  /** A line that converts appends its chunk to those of the lines before it. */
  lemma ConvLinesNext(cfg: Config, firstE: real, lines: seq<string>, before: Conv, chunk: string, e: real)
    requires lines != []
    requires ConvLines(cfg, firstE, lines[..|lines| - 1]) == before && before.error.None?
    requires ConvLine(cfg, before.firstE, lines[|lines| - 1], |lines|) == Emit(chunk, e)
    ensures ConvLines(cfg, firstE, lines) == Conv(before.chunks + [chunk], e, None)
  {
  }

  /** A right-toolhead file with two motion lines and the diameter ratio 1:
      the first pass accepts it for the right side; the second pass
      duplicates the on command, copies the first extrusion value into both
      `A` and `B` and records it, then writes the corrected second value
      under `B` first and the value read under `A`. */
  lemma MotionExample(num: Numerics)
    requires num.parseDouble("5.0") == Some(5.0)
    ensures var lines := ["M101 T0\n", "G1 X10 E5.0\n", "G1 X20 E7.5\n"];
      && Verdict(lines, Sides(false, false)) == Checked(3)
      && ScanLines(lines, Sides(false, false)).sides == Sides(false, true)
      && ConvLines(Config(true, 1.0, num), 0.0, lines) ==
           Conv(["M101 T1\nM101 T0\n", "G1 X10 A5.0 B5.0\n",
                 "G1 X20 B" + num.formatCorrected(EValue(num, "E7.5"), 5.0, 1.0) + " A7.5\n"],
                5.0, None)
  {
    var lines := ["M101 T0\n", "G1 X10 E5.0\n", "G1 X20 E7.5\n"];
    SplitOnRight();
    MotionSplits();
    assert ExampleTokens(lines);
    MotionFileChecked(lines);
    MotionFileConverted(Config(true, 1.0, num), lines);
  }
}
