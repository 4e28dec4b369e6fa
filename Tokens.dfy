/**
  The line tokeniser. Both passes split a line with `strtok` over the
  delimiter set " \n" (a space and a newline, nothing else: a tab or a
  carriage return is part of a token). `strtok` skips runs of delimiters and
  never returns an empty token; `Split` gives the whole sequence of tokens a
  line yields, the first being the command selector.
*/
module Tokens {

  import opened Options

  predicate IsSep(c: char) {
    c == ' ' || c == '\n'
  }

  predicate NoSep(s: string) {
    forall i :: 0 <= i < |s| ==> !IsSep(s[i])
  }

  /** What `strtok` can return: a non-empty run of non-delimiters. */
  predicate IsToken(s: string) {
    |s| > 0 && NoSep(s)
  }

  predicate AllTokens(ts: seq<string>) {
    forall i :: 0 <= i < |ts| ==> IsToken(ts[i])
  }

  /** Length of the leading run of non-delimiters of `s`. */
  function TokenLen(s: string): (n: nat)
    ensures n <= |s|
    ensures NoSep(s[..n])
    ensures n < |s| ==> IsSep(s[n])
  {
    if s == [] || IsSep(s[0]) then 0
    else
      var m := TokenLen(s[1..]);
      assert s[..m + 1] == [s[0]] + s[1..][..m];
      m + 1
  }

  /** The tokens successive `strtok` calls return on `s`, in order. */
  function Split(s: string): seq<string>
    decreases |s|
  {
    if s == [] then []
    else if IsSep(s[0]) then Split(s[1..])
    else
      var n := TokenLen(s);
      [s[..n]] + Split(s[n..])
  }

  /** The first token, or None for a line with no tokens (strtok's NULL). */
  function First(ts: seq<string>): Option<string> {
    if |ts| == 0 then None else Some(ts[0])
  }

  /** The tokens after the command selector. */
  function Params(ts: seq<string>): seq<string> {
    if |ts| == 0 then [] else ts[1..]
  }

  /** `s` with every delimiter removed. */
  function Strip(s: string): string {
    if s == [] then []
    else if IsSep(s[0]) then Strip(s[1..])
    else [s[0]] + Strip(s[1..])
  }

  function Concat(ts: seq<string>): string {
    if ts == [] then [] else ts[0] + Concat(ts[1..])
  }

  /** `strtok` returns only non-empty tokens without delimiters. */
  lemma {:induction false} SplitTokens(s: string)
    ensures AllTokens(Split(s))
    decreases |s|
  {
    if s == [] {
    } else if IsSep(s[0]) {
      SplitTokens(s[1..]);
    } else {
      SplitTokens(s[TokenLen(s)..]);
    }
  }

  /** Each token preceded by one space, as the rewriter appends parameters. */
  function Spaced(ts: seq<string>): string {
    if ts == [] then [] else " " + ts[0] + Spaced(ts[1..])
  }

  lemma {:induction false} StripNoSep(s: string)
    requires NoSep(s)
    ensures Strip(s) == s
  {
    if s != [] {
      StripNoSep(s[1..]);
    }
  }

  lemma {:induction false} StripAppend(a: string, b: string)
    ensures Strip(a + b) == Strip(a) + Strip(b)
  {
    if a != [] {
      assert (a + b)[1..] == a[1..] + b;
      StripAppend(a[1..], b);
    } else {
      assert a + b == b;
    }
  }

  /** Tokenising loses only the delimiters: the tokens, run together, are the
      line's non-delimiter characters in order. */
  lemma {:induction false} SplitKeepsText(s: string)
    ensures Concat(Split(s)) == Strip(s)
    decreases |s|
  {
    if s == [] {
    } else if IsSep(s[0]) {
      SplitKeepsText(s[1..]);
    } else {
      var n := TokenLen(s);
      SplitKeepsText(s[n..]);
      assert s == s[..n] + s[n..];
      StripAppend(s[..n], s[n..]);
      StripNoSep(s[..n]);
      assert Split(s)[1..] == Split(s[n..]);
    }
  }

  lemma {:induction false} TokenLenOfToken(t: string, rest: string)
    requires IsToken(t)
    requires rest == [] || IsSep(rest[0])
    ensures TokenLen(t + rest) == |t|
    decreases |t|
  {
    assert (t + rest)[0] == t[0];
    if |t| > 1 {
      assert (t + rest)[1..] == t[1..] + rest;
      TokenLenOfToken(t[1..], rest);
    } else {
      assert (t + rest)[1..] == rest;
    }
  }

  /** A token followed by a delimiter (or by nothing) is split off whole. */
  lemma SplitToken(t: string, rest: string)
    requires IsToken(t)
    requires rest == [] || IsSep(rest[0])
    ensures Split(t + rest) == [t] + Split(rest)
  {
    TokenLenOfToken(t, rest);
    assert (t + rest)[..|t|] == t;
    assert (t + rest)[|t|..] == rest;
  }

  lemma SplitSpace(rest: string)
    ensures Split(" " + rest) == Split(rest)
  {
    assert (" " + rest)[1..] == rest;
  }

  lemma SplitNewline(rest: string)
    ensures Split("\n" + rest) == Split(rest)
  {
    assert ("\n" + rest)[1..] == rest;
  }

  /** Round trip: tokens written out one space apart, followed by delimiters
      or nothing, tokenise back to exactly those tokens. */
  lemma {:induction false} SplitSpaced(ts: seq<string>, rest: string)
    requires AllTokens(ts)
    requires rest == [] || IsSep(rest[0])
    ensures Split(Spaced(ts) + rest) == ts + Split(rest)
  {
    if ts == [] {
      assert Spaced(ts) + rest == rest;
    } else {
      var t, more := ts[0], ts[1..];
      var tail := Spaced(more) + rest;
      calc {
        Split(Spaced(ts) + rest);
        { SpacedCons(ts, rest); }
        Split(" " + (t + tail));
        { SplitSpace(t + tail); }
        Split(t + tail);
        { SpacedStart(more, rest); SplitToken(t, tail); }
        [t] + Split(tail);
        { SplitSpaced(more, rest); }
        [t] + (more + Split(rest));
        { assert ts == [t] + more; }
        ts + Split(rest);
      }
    }
  }

  lemma SpacedCons(ts: seq<string>, rest: string)
    requires ts != []
    ensures Spaced(ts) + rest == " " + (ts[0] + (Spaced(ts[1..]) + rest))
  {
  }

  lemma SpacedStart(ts: seq<string>, rest: string)
    requires rest == [] || IsSep(rest[0])
    ensures var s := Spaced(ts) + rest; s == [] || IsSep(s[0])
  {
    if ts != [] {
      assert (Spaced(ts) + rest)[0] == ' ';
    }
  }

  lemma {:induction false} SpacedNoNewline(ts: seq<string>)
    requires AllTokens(ts)
    ensures '\n' !in Spaced(ts)
  {
    if ts != [] {
      SpacedNoNewline(ts[1..]);
      assert ts[0][..] == ts[0];
      assert '\n' !in ts[0];
    }
  }

  /** A line written as a command token, its parameters one space apart and a
      newline tokenises back to that command and those parameters. */
  lemma SplitLine(c: string, ps: seq<string>, rest: string)
    requires IsToken(c) && AllTokens(ps)
    ensures Split(c + Spaced(ps) + "\n" + rest) == [c] + ps + Split(rest)
  {
    var tail := Spaced(ps) + ("\n" + rest);
    calc {
      Split(c + Spaced(ps) + "\n" + rest);
      { assert c + Spaced(ps) + "\n" + rest == c + tail; }
      Split(c + tail);
      { SpacedStart(ps, "\n" + rest); SplitToken(c, tail); }
      [c] + Split(tail);
      { SplitSpaced(ps, "\n" + rest); }
      [c] + (ps + Split("\n" + rest));
      { SplitNewline(rest); }
      [c] + ps + Split(rest);
    }
  }
}
