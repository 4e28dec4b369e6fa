/**
  The integer conversions the temperature command goes through: reading the
  value of an `S` parameter as `sscanf(Token, "S%d", ...)` does, and writing
  it back as `printf`'s `%d`. Integers are unbounded here.
*/
module Numbers {

  import opened Options

  predicate IsDigit(c: char) {
    '0' <= c <= '9'
  }

  predicate AllDigits(s: string) {
    forall i :: 0 <= i < |s| ==> IsDigit(s[i])
  }

  /** White space as `%d` skips it in the C locale. */
  predicate IsSpace(c: char) {
    c == ' ' || c == '\t' || c == '\n' || c == '\U{B}' || c == '\U{C}' || c == '\r'
  }

  predicate AllSpace(s: string) {
    forall i :: 0 <= i < |s| ==> IsSpace(s[i])
  }

  /** What `%d` reads from: `s` with its leading run of white space dropped. */
  function SkipSpace(s: string): (t: string)
    ensures |t| <= |s| && t == s[|s| - |t|..]
    ensures t == [] || !IsSpace(t[0])
    ensures AllSpace(s[..|s| - |t|])
  {
    if s != [] && IsSpace(s[0]) then SkipSpace(s[1..]) else s
  }

  /** Length of the leading run of decimal digits. */
  function DigitRun(s: string): (n: nat)
    ensures n <= |s| && AllDigits(s[..n])
    ensures n < |s| ==> !IsDigit(s[n])
  {
    if s != [] && IsDigit(s[0]) then
      var m := DigitRun(s[1..]);
      assert s[..m + 1] == [s[0]] + s[1..][..m];
      m + 1
    else 0
  }

  function DigitValue(c: char): nat
    requires IsDigit(c)
  {
    c as int - '0' as int
  }

  function DigitChar(d: nat): (c: char)
    requires d < 10
    ensures IsDigit(c) && DigitValue(c) == d
  {
    ('0' as int + d) as char
  }

  /** The number a string of decimal digits denotes. */
  function Value(ds: string): nat
    requires AllDigits(ds)
  {
    if ds == [] then 0 else 10 * Value(ds[..|ds| - 1]) + DigitValue(ds[|ds| - 1])
  }

  /** `%d` applied to `s`: optional white space, an optional sign, then the
      longest run of digits; None when there is no digit (the conversion
      fails and the destination keeps its old value). */
  function ScanInt(s: string): Option<int> {
    var t := SkipSpace(s);
    var signed := |t| > 0 && (t[0] == '-' || t[0] == '+');
    var u := if signed then t[1..] else t;
    var n := DigitRun(u);
    if n == 0 then None
    else
      var v: int := Value(u[..n]);
      if signed && t[0] == '-' then Some(-v) else Some(v)
  }

  /** `%d` output of a natural number: its decimal digits, no leading zero. */
  function ShowNat(n: nat): (s: string)
    ensures |s| > 0 && AllDigits(s)
    ensures Value(s) == n
    ensures |s| > 1 ==> s[0] != '0'
  {
    if n < 10 then [DigitChar(n)]
    else
      var s := ShowNat(n / 10) + [DigitChar(n % 10)];
      assert s[..|s| - 1] == ShowNat(n / 10);
      s
  }

  /** `%d` output of an integer: a minus sign for negative values. */
  function ShowInt(i: int): string {
    if i < 0 then "-" + ShowNat(-i) else ShowNat(i)
  }

  /** Reading back what `%d` wrote gives the same integer. */
  lemma ScanShow(i: int)
    ensures ScanInt(ShowInt(i)) == Some(i)
  {
    var d := ShowNat(if i < 0 then -i else i);
    DigitRunAll(d);
    assert d[..|d|] == d;
    if i < 0 {
      ScanNegative(d);
    } else {
      ScanDigits(d);
    }
  }

  lemma ScanNegative(d: string)
    requires |d| > 0 && AllDigits(d) && DigitRun(d) == |d|
    ensures ScanInt("-" + d) == Some(-(Value(d) as int))
  {
    var s := "-" + d;
    assert s[0] == '-' && !IsSpace(s[0]);
    var t := SkipSpace(s);
    assert t == s;
    var u := t[1..];
    assert u == d;
    assert u[..DigitRun(u)] == d;
  }

  lemma ScanDigits(d: string)
    requires |d| > 0 && AllDigits(d) && DigitRun(d) == |d|
    ensures ScanInt(d) == Some(Value(d))
  {
    assert !IsSpace(d[0]) && d[0] != '-' && d[0] != '+';
    assert SkipSpace(d) == d;
    assert d[..|d|] == d;
  }

  lemma {:induction false} DigitRunAll(d: string)
    requires AllDigits(d)
    ensures DigitRun(d) == |d|
  {
    if d != [] {
      DigitRunAll(d[1..]);
    }
  }

  /** Every `%d` output is a non-empty run with no white space in it. */
  lemma ShowIntChars(i: int)
    ensures |ShowInt(i)| > 0
    ensures forall k :: 0 <= k < |ShowInt(i)| ==> IsDigit(ShowInt(i)[k]) || ShowInt(i)[k] == '-'
  {
  }
}
