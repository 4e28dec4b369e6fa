/**
  The fixed command vocabulary and its classifier. `CodeOf` maps the first
  token of a line to its index in `CODES`, or to `NOTOKENS` when the line has
  no token or its first token is not one of the seven commands; the method
  `CheckCode` computes it the way the program does, trying each entry in turn.
*/
module Codes {

  import opened Options

  const NUMCODES := 7
  const NOTOKENS := -1

  const M101 := 0  // extruder on, forward
  const M102 := 1  // extruder on, reverse
  const M103 := 2  // extruder off
  const M104 := 3  // set temperature
  const M108 := 4  // set extruder maximum speed
  const M6 := 5    // tool change
  const G1 := 6    // coordinated motion

  /** Indexed by the constants above. */
  const CODES: seq<string> := ["M101", "M102", "M103", "M104", "M108", "M6", "G1"]

  /** First index at or after `i` whose entry is exactly `s`. */
  function FindCode(s: string, i: nat): (r: int)
    requires i <= NUMCODES
    ensures r == NOTOKENS || i <= r < NUMCODES
    ensures r == NOTOKENS <==> forall j :: i <= j < NUMCODES ==> CODES[j] != s
    ensures r != NOTOKENS ==> CODES[r] == s && forall j :: i <= j < r ==> CODES[j] != s
    decreases NUMCODES - i
  {
    if i == NUMCODES then NOTOKENS
    else if CODES[i] == s then i
    else FindCode(s, i + 1)
  }

  /** Exact, case-sensitive, whole-token comparison against each entry; never fails. */
  function CodeOf(token: Option<string>): (r: int)
    ensures NOTOKENS <= r < NUMCODES
    ensures r == NOTOKENS <==> token.None? || token.value !in CODES
    ensures forall i :: 0 <= i < NUMCODES ==> (r == i <==> token == Some(CODES[i]))
  {
    if token.None? then NOTOKENS
    else
      var r := FindCode(token.value, 0);
      CodesDistinct();
      r
  }

  /** The lookup loop: no token gives `NOTOKENS`, otherwise the first entry
      equal to the token, or `NOTOKENS` when the table is exhausted. */
  method CheckCode(token: Option<string>) returns (r: int)
    ensures r == CodeOf(token)
  {
    if token.None? {
      return NOTOKENS;
    }
    var cnt := 0;
    while cnt < NUMCODES
      invariant 0 <= cnt <= NUMCODES
      invariant FindCode(token.value, cnt) == FindCode(token.value, 0)
    {
      if token.value == CODES[cnt] {
        return cnt;
      }
      cnt := cnt + 1;
    }
    return NOTOKENS;
  }

  /** No command appears twice in the table, so an index names one command. */
  lemma CodesDistinct()
    ensures forall i, j :: 0 <= i < j < NUMCODES ==> CODES[i] != CODES[j]
  {
    forall i, j | 0 <= i < j < NUMCODES
      ensures CODES[i] != CODES[j]
    {
      assert Signature(CODES[i]) != Signature(CODES[j]);
    }
  }

  /** Length and last two characters, which already tell the commands apart. */
  function Signature(s: string): (int, char, char) {
    (|s|, if |s| > 0 then s[|s| - 1] else ' ', if |s| > 1 then s[|s| - 2] else ' ')
  }

  /** The commands whose only parameter is a toolhead selector. */
  predicate IsOnOff(code: int) {
    code == M101 || code == M102 || code == M103 || code == M6
  }
}
