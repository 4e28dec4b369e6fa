/**
  What the rewrite of a motion command (`G1`) writes, parameter by parameter:
  every `E`, `A` or `B` parameter becomes exactly one `A` and one `B`
  parameter, every other parameter is copied as it was, in the same order,
  and the line read back through the tokeniser gives exactly those
  parameters after the command.
*/
module MotionProps {

  import opened Tokens
  import opened Codes
  import opened Scanner
  import opened Rewriter
  import opened RewriterProps

  /** The corrected value as `%.5f` prints it never holds a space or newline. */
  ghost predicate FormatsTokens(num: Numerics) {
    forall a: real, b: real, c: real :: NoSep(num.formatCorrected(a, b, c))
  }

  /** The parameters one input parameter becomes, `FirstE` being `firstE`
      when it is read: an extrusion parameter gives the `A`/`B` pair (the
      value copied into both while no positive `FirstE` is recorded, then the
      corrected value first, under `B` when the right toolhead is the one
      in use and under `A` otherwise); any other parameter gives itself. */
  function ParamOut(cfg: Config, firstE: real, tok: string): seq<string> {
    if !IsExtrusion(tok) then [tok]
    else
      var rest := tok[1..];
      if firstE > 0.0 then
        var corrected := cfg.num.formatCorrected(EValue(cfg.num, tok), firstE, cfg.ratio);
        if cfg.rightUsed then ["B" + corrected, "A" + rest] else ["A" + corrected, "B" + rest]
      else ["A" + rest, "B" + rest]
  }

  /** The parameters written for `ps`, each read with the `FirstE` the
      parameters before it left. */
  function MotionParams(cfg: Config, firstE: real, ps: seq<string>): seq<string> {
    if ps == [] then []
    else
      var init := ps[..|ps| - 1];
      MotionParams(cfg, firstE, init) + ParamOut(cfg, MotionOf(cfg, firstE, init).firstE, ps[|ps| - 1])
  }

  /** The parameters that are not extrusion parameters, in order. */
  function Others(ts: seq<string>): seq<string> {
    if ts == [] then []
    else Others(ts[..|ts| - 1]) + (if IsExtrusion(ts[|ts| - 1]) then [] else [ts[|ts| - 1]])
  }

  /** How many parameters are extrusion parameters. */
  function Extrusions(ts: seq<string>): nat {
    if ts == [] then 0
    else Extrusions(ts[..|ts| - 1]) + (if IsExtrusion(ts[|ts| - 1]) then 1 else 0)
  }

  lemma {:induction false} OthersAppend(a: seq<string>, b: seq<string>)
    ensures Others(a + b) == Others(a) + Others(b)
    ensures Extrusions(a + b) == Extrusions(a) + Extrusions(b)
    decreases |b|
  {
    if b == [] {
      assert a + b == a;
    } else {
      var init := b[..|b| - 1];
      assert (a + b)[..|a + b| - 1] == a + init;
      assert (a + b)[|a + b| - 1] == b[|b| - 1];
      OthersAppend(a, init);
    }
  }

  lemma {:induction false} SpacedAppend(a: seq<string>, b: seq<string>)
    ensures Spaced(a + b) == Spaced(a) + Spaced(b)
  {
    if a == [] {
      assert a + b == b;
    } else {
      assert (a + b)[1..] == a[1..] + b;
      SpacedAppend(a[1..], b);
    }
  }

  /** One parameter appends its output parameters, one space apart. */
  lemma StepText(cfg: Config, m: Motion, tok: string)
    requires !MotionStep(cfg, m, tok).failed
    ensures MotionStep(cfg, m, tok).text == m.text + Spaced(ParamOut(cfg, m.firstE, tok))
  {
    var out := ParamOut(cfg, m.firstE, tok);
    if |out| == 1 {
      assert Spaced(out) == " " + out[0] + Spaced([]);
    } else {
      assert out[1..][1..] == [];
      assert Spaced(out) == " " + out[0] + (" " + out[1] + Spaced([]));
    }
  }

  /** The motion text is the command followed by the output parameters, one
      space apart. */
  lemma {:induction false} MotionText(cfg: Config, firstE: real, ps: seq<string>)
    requires !MotionOf(cfg, firstE, ps).failed
    ensures MotionOf(cfg, firstE, ps).text == "G1" + Spaced(MotionParams(cfg, firstE, ps))
  {
    if ps != [] {
      var init, t := ps[..|ps| - 1], ps[|ps| - 1];
      var m := MotionOf(cfg, firstE, init);
      MotionText(cfg, firstE, init);
      StepText(cfg, m, t);
      SpacedAppend(MotionParams(cfg, firstE, init), ParamOut(cfg, m.firstE, t));
    } else {
      assert CODES[G1] == "G1";
    }
  }

  /** One parameter: an extrusion parameter gives two extrusion parameters,
      any other gives itself, and neither gives an `E` parameter. */
  lemma ParamOutShape(cfg: Config, firstE: real, tok: string)
    ensures var step := ParamOut(cfg, firstE, tok);
      && Others(step) == (if IsExtrusion(tok) then [] else [tok])
      && Extrusions(step) == (if IsExtrusion(tok) then 2 else 0)
      && |step| == (if IsExtrusion(tok) then 2 else 1)
      && forall j :: 0 <= j < |step| ==> !Tagged(step[j], 'E')
  {
    var step := ParamOut(cfg, firstE, tok);
    if IsExtrusion(tok) {
      ExtrusionPair(cfg, firstE, tok);
      TwoExtrusions(step[0], step[1]);
      assert step == [step[0], step[1]];
    } else {
      assert [tok][..0] == [];
    }
  }

  /** The two parameters an extrusion parameter becomes are tagged `A` or `B`. */
  lemma ExtrusionPair(cfg: Config, firstE: real, tok: string)
    requires IsExtrusion(tok)
    ensures var step := ParamOut(cfg, firstE, tok);
      && |step| == 2
      && (Tagged(step[0], 'A') || Tagged(step[0], 'B'))
      && (Tagged(step[1], 'A') || Tagged(step[1], 'B'))
  {
  }

  lemma TwoExtrusions(a: string, b: string)
    requires IsExtrusion(a) && IsExtrusion(b)
    ensures Others([a, b]) == [] && Extrusions([a, b]) == 2
  {
    assert [a, b][..1] == [a] && [a][..0] == [];
    assert [a, b][1] == b && [a][0] == a;
    assert Others([a]) == [] && Extrusions([a]) == 1;
  }

  /** Each extrusion parameter becomes two extrusion parameters and each other
      parameter is copied, in order; no `E` parameter is left. */
  lemma {:induction false} MotionParamsShape(cfg: Config, firstE: real, ps: seq<string>)
    ensures var out := MotionParams(cfg, firstE, ps);
      && Others(out) == Others(ps)
      && Extrusions(out) == 2 * Extrusions(ps)
      && |out| == |ps| + Extrusions(ps)
      && forall j :: 0 <= j < |out| ==> !Tagged(out[j], 'E')
  {
    if ps != [] {
      var init, t := ps[..|ps| - 1], ps[|ps| - 1];
      var pre := MotionParams(cfg, firstE, init);
      var step := ParamOut(cfg, MotionOf(cfg, firstE, init).firstE, t);
      MotionParamsShape(cfg, firstE, init);
      OthersAppend(pre, step);
      ParamOutShape(cfg, MotionOf(cfg, firstE, init).firstE, t);
      var out := pre + step;
      forall j | 0 <= j < |out| ensures !Tagged(out[j], 'E') {
        if j < |pre| {
          assert out[j] == pre[j];
        }
      }
    }
  }

  /** Every output parameter is a token when every input one is. */
  lemma {:induction false} MotionParamsTokens(cfg: Config, firstE: real, ps: seq<string>)
    requires AllTokens(ps) && FormatsTokens(cfg.num)
    ensures AllTokens(MotionParams(cfg, firstE, ps))
  {
    if ps != [] {
      var init, t := ps[..|ps| - 1], ps[|ps| - 1];
      MotionParamsTokens(cfg, firstE, init);
      var f := MotionOf(cfg, firstE, init).firstE;
      var step := ParamOut(cfg, f, t);
      if IsExtrusion(t) {
        var corrected := cfg.num.formatCorrected(EValue(cfg.num, t), f, cfg.ratio);
        TaggedToken('A', t[1..]);
        TaggedToken('B', t[1..]);
        TaggedToken('A', corrected);
        TaggedToken('B', corrected);
      }
      var out := MotionParams(cfg, firstE, ps);
      forall j | 0 <= j < |out| ensures IsToken(out[j]) {
        if j < |MotionParams(cfg, firstE, init)| {
          assert out[j] == MotionParams(cfg, firstE, init)[j];
        } else {
          assert out[j] == step[j - |MotionParams(cfg, firstE, init)|];
        }
      }
    }
  }

  lemma TaggedToken(tag: char, s: string)
    requires !IsSep(tag) && NoSep(s)
    ensures IsToken([tag] + s)
  {
    var t := [tag] + s;
    forall i | 0 <= i < |t| ensures !IsSep(t[i]) {
      if i > 0 {
        assert t[i] == s[i - 1];
      }
    }
  }

  /** A motion line that converts reads back, through the same tokeniser, as
      `G1` followed by the output parameters. */
  lemma MotionLineReadsBack(cfg: Config, firstE: real, line: string, n: nat)
    requires CodeOf(First(Split(line))) == G1
    requires FormatsTokens(cfg.num)
    ensures var ps := Params(Split(line));
      var st := ConvLine(cfg, firstE, line, n);
      && (st.Emit? <==> !MotionOf(cfg, firstE, ps).failed)
      && (st.Emit? ==> Split(st.chunk) == ["G1"] + MotionParams(cfg, firstE, ps))
  {
    var ps := Params(Split(line));
    var m := MotionOf(cfg, firstE, ps);
    if !m.failed {
      ParamsAreTokens(line);
      MotionParamsTokens(cfg, firstE, ps);
      MotionText(cfg, firstE, ps);
      var out := MotionParams(cfg, firstE, ps);
      assert m.text + "\n" == "G1" + Spaced(out) + "\n" + [];
      SplitLine("G1", out, []);
    }
  }
}
