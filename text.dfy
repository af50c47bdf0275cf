/**
 * Character classes, numerals and the small pieces of Ruby's regular-expression
 * and line-reading behaviour that the script relies on.
 */
module Text {
  import opened Wrappers

  /** Ruby's `\s`: space, tab, line feed, vertical tab, form feed, carriage return. */
  predicate IsSpace(c: char) {
    c == ' ' || c == '\t' || c == '\n' || c == '\U{B}' || c == '\U{C}' || c == '\r'
  }

  /** A run that `\s*` matches whole. */
  predicate AllSpace(s: string) {
    forall i :: 0 <= i < |s| ==> IsSpace(s[i])
  }

  /** Ruby's `\S`. */
  predicate IsNonSpace(c: char) {
    !IsSpace(c)
  }

  /** Ruby's `\d` (ASCII digits only). */
  predicate IsDigit(c: char) {
    '0' <= c <= '9'
  }

  /** Ruby's `\h`. */
  predicate IsHexDigit(c: char) {
    IsDigit(c) || 'a' <= c <= 'f' || 'A' <= c <= 'F'
  }

  function DigitValue(c: char): (d: nat)
    requires IsHexDigit(c)
    ensures d < 16
    ensures IsDigit(c) <==> d < 10
  {
    if IsDigit(c) then c as int - '0' as int
    else if 'a' <= c <= 'f' then c as int - 'a' as int + 10
    else c as int - 'A' as int + 10
  }

  /** The upper-case digit for `d`, as `%d` and `%X` print it. */
  function DigitChar(d: nat): (c: char)
    requires d < 16
    ensures IsHexDigit(c) && DigitValue(c) == d
  {
    if d < 10 then ('0' as int + d) as char else ('A' as int + d - 10) as char
  }

  predicate AllHexDigits(s: string) {
    forall i :: 0 <= i < |s| ==> IsHexDigit(s[i])
  }

  predicate AllDigits(s: string) {
    forall i :: 0 <= i < |s| ==> IsDigit(s[i])
  }

  /** The value of a run of digits read in `base`, most significant first (Ruby's `to_i` and `to_i(16)`). */
  function NumeralValue(s: string, base: nat): nat
    requires AllHexDigits(s)
    decreases |s|
  {
    if s == [] then 0 else NumeralValue(s[..|s| - 1], base) * base + DigitValue(s[|s| - 1])
  }

  function DecimalValue(s: string): nat
    requires AllDigits(s)
  {
    NumeralValue(s, 10)
  }

  function HexValue(s: string): nat
    requires AllHexDigits(s)
  {
    NumeralValue(s, 16)
  }

  lemma DivModBase(n: nat, base: nat)
    requires 2 <= base <= n
    ensures n / base < n && n % base < base
    ensures n == n / base * base + n % base
  {
    assert n / base * base <= n;
    assert n / base * 2 <= n / base * base;
  }

  /** `n` written in `base` with no leading zeros and upper-case digits. */
  function Numeral(n: nat, base: nat): (s: string)
    requires 2 <= base <= 16
    ensures |s| > 0 && AllHexDigits(s)
    ensures forall i :: 0 <= i < |s| ==> DigitValue(s[i]) < base
    decreases n
  {
    if n < base then [DigitChar(n)]
    else
      var q, d := n / base, n % base;
      DivModBase(n, base);
      Numeral(q, base) + [DigitChar(d)]
  }

  /** `%d` of a non-negative integer. */
  function Decimal(n: nat): (s: string)
    ensures |s| > 0 && AllDigits(s)
  {
    Numeral(n, 10)
  }

  /** `%X` of a non-negative integer. */
  function Hex(n: nat): (s: string)
    ensures |s| > 0 && AllHexDigits(s)
  {
    Numeral(n, 16)
  }

  /** Reading back what `Numeral` wrote gives the number. */
  lemma {:induction false} NumeralRoundTrip(n: nat, base: nat)
    requires 2 <= base <= 16
    ensures NumeralValue(Numeral(n, base), base) == n
    decreases n
  {
    var s := Numeral(n, base);
    if n >= base {
      DivModBase(n, base);
      NumeralRoundTrip(n / base, base);
      assert s[..|s| - 1] == Numeral(n / base, base);
      assert s[|s| - 1] == DigitChar(n % base);
    }
  }

  lemma DecimalRoundTrip(n: nat)
    ensures DecimalValue(Decimal(n)) == n
  {
    NumeralRoundTrip(n, 10);
  }

  lemma HexRoundTrip(n: nat)
    ensures HexValue(Hex(n)) == n
  {
    NumeralRoundTrip(n, 16);
  }

  /**
   * The end of the longest run of characters satisfying `p` that starts at `i`:
   * what a greedy `\s*`, `\S+`, `\d+` or `\h+` consumes from `i`.
   */
  function Span(s: string, i: nat, p: char -> bool): (j: nat)
    requires i <= |s|
    ensures i <= j <= |s|
    ensures forall k :: i <= k < j ==> p(s[k])
    ensures j < |s| ==> !p(s[j])
    decreases |s| - i
  {
    if i == |s| || !p(s[i]) then i else Span(s, i + 1, p)
  }

  /** A run that ends where `p` first fails is the run `Span` finds. */
  lemma SpanIs(s: string, i: nat, j: nat, p: char -> bool)
    requires i <= j <= |s|
    requires forall k :: i <= k < j ==> p(s[k])
    requires j < |s| ==> !p(s[j])
    ensures Span(s, i, p) == j
  {
  }

  /**
   * `s` cut after the longest prefix whose characters satisfy `p`: what a
   * greedy `\s*`, `\S+`, `\d+` or `\h+` takes from the front of `s`, and the rest.
   */
  function TakeWhile(s: string, p: char -> bool): (r: (string, string))
    ensures r.0 + r.1 == s
    ensures forall k :: 0 <= k < |r.0| ==> p(r.0[k])
    ensures r.1 != [] ==> !p(r.1[0])
  {
    var n := Span(s, 0, p);
    assert s == s[..n] + s[n..];
    (s[..n], s[n..])
  }

  /** A run of `p` followed by something that does not start with `p` is taken whole. */
  lemma TakeWhileSplits(x: string, y: string, p: char -> bool)
    requires forall k :: 0 <= k < |x| ==> p(x[k])
    requires y != [] ==> !p(y[0])
    ensures TakeWhile(x + y, p) == (x, y)
  {
    SpanIs(x + y, 0, |x|, p);
    assert (x + y)[..|x|] == x;
    assert (x + y)[|x|..] == y;
  }

  /** What follows the literal `lit` at the front of `s`, if `s` starts with it. */
  function After(s: string, lit: string): (r: Option<string>)
    ensures r.Some? ==> s == lit + r.value
  {
    if StartsWith(s, lit) then
      assert s == s[..|lit|] + s[|lit|..];
      Some(s[|lit|..])
    else None
  }

  lemma AfterLiteral(lit: string, y: string)
    ensures After(lit + y, lit) == Some(y)
  {
    assert (lit + y)[..|lit|] == lit;
    assert (lit + y)[|lit|..] == y;
  }

  /** The literal `lit` occurs in `s` at position `i`. */
  predicate HasAt(s: string, i: nat, lit: string) {
    i + |lit| <= |s| && s[i..i + |lit|] == lit
  }

  predicate StartsWith(s: string, lit: string) {
    HasAt(s, 0, lit)
  }

  predicate Contains(s: string, lit: string) {
    exists k :: 0 <= k <= |s| && HasAt(s, k, lit)
  }

  /**
   * Ruby's unanchored `=~` for a pattern whose anchored match at a position is
   * given by `matchAt`: the match that starts leftmost, from position `from` on.
   */
  function FirstMatch<T>(s: string, from: nat, matchAt: (string, nat) -> Option<T>): (r: Option<T>)
    ensures r.None? <==> forall k :: from <= k <= |s| ==> matchAt(s, k).None?
    ensures r.Some? ==> exists k :: from <= k <= |s| && matchAt(s, k) == r
                                    && forall j :: from <= j < k ==> matchAt(s, j).None?
    decreases |s| + 1 - from
  {
    if from > |s| then None
    else if matchAt(s, from).Some? then matchAt(s, from)
    else FirstMatch(s, from + 1, matchAt)
  }

  /** The strings joined end to end. */
  function Concat(ls: seq<string>): string {
    if ls == [] then [] else ls[0] + Concat(ls[1..])
  }

  /** A line as `each_line` yields it: not empty, and a line feed at most as its last character. */
  predicate IsLine(l: string) {
    |l| > 0 && forall k :: 0 <= k < |l| - 1 ==> l[k] != '\n'
  }

  predicate NotLineFeed(c: char) {
    c != '\n'
  }

  /**
   * Ruby's `each_line`: the text cut after every line feed, each line keeping
   * its line feed; a last piece without one is a line too.
   */
  function Lines(text: string): (ls: seq<string>)
    ensures Concat(ls) == text
    ensures forall i :: 0 <= i < |ls| ==> IsLine(ls[i])
    ensures forall i :: 0 <= i < |ls| - 1 ==> |ls[i]| > 0 && ls[i][|ls[i]| - 1] == '\n'
    decreases |text|
  {
    if text == [] then []
    else
      var e := Span(text, 0, NotLineFeed);
      if e == |text| then [text]
      else
        var rest := Lines(text[e + 1..]);
        assert text == text[..e + 1] + text[e + 1..];
        [text[..e + 1]] + rest
  }

  /** Lines that each end in their only line feed are read back by `Lines` from their concatenation. */
  lemma {:induction false} LinesOfConcat(ls: seq<string>)
    requires forall i :: 0 <= i < |ls| ==> IsLine(ls[i]) && ls[i][|ls[i]| - 1] == '\n'
    ensures Lines(Concat(ls)) == ls
    decreases |ls|
  {
    if ls != [] {
      var first := ls[0];
      var text := Concat(ls);
      assert text == first + Concat(ls[1..]);
      LinesOfConcat(ls[1..]);
      SpanIs(text, 0, |first| - 1, NotLineFeed);
      assert text[..|first|] == first;
      assert text[|first|..] == Concat(ls[1..]);
    }
  }
}
