/** The string operations the client relies on: `String.prototype.indexOf`,
    the unary plus that turns an id text into a number, and the template
    literal `${n}` that writes a number into a URL. */
module Text {

  /** `pat` occurs in `text` starting at position `i`. */
  ghost predicate OccursAt(text: string, pat: string, i: int) {
    0 <= i && i + |pat| <= |text| && text[i..i + |pat|] == pat
  }

  ghost predicate Occurs(text: string, pat: string) {
    exists i :: OccursAt(text, pat, i)
  }

  /** `text.indexOf(pat, from)`: the first occurrence at or after `from`. */
  function IndexFrom(text: string, pat: string, from: nat): (r: int)
    requires from <= |text|
    ensures r == -1 || (from <= r && OccursAt(text, pat, r))
    ensures r == -1 ==> forall i :: from <= i ==> !OccursAt(text, pat, i)
    ensures r != -1 ==> forall i :: from <= i < r ==> !OccursAt(text, pat, i)
    decreases |text| - from
  {
    if from + |pat| > |text| then -1
    else if text[from..from + |pat|] == pat then from
    else if from == |text| then -1
    else IndexFrom(text, pat, from + 1)
  }

  /** `text.indexOf(pat)`: -1 exactly when `pat` does not occur, otherwise
      the position of its first occurrence. */
  function IndexOf(text: string, pat: string): (r: int)
    ensures r == -1 <==> !Occurs(text, pat)
    ensures r != -1 ==> OccursAt(text, pat, r) && forall i :: 0 <= i < r ==> !OccursAt(text, pat, i)
  {
    IndexFrom(text, pat, 0)
  }

  predicate IsDigit(c: char) {
    '0' <= c <= '9'
  }

  predicate AllDigits(s: string) {
    forall i :: 0 <= i < |s| ==> IsDigit(s[i])
  }

  /** A decimal integer as the backend writes a primary key: digits,
      optionally after a minus sign. */
  predicate IsIntegerText(s: string) {
    (|s| > 0 && AllDigits(s)) || (|s| > 1 && s[0] == '-' && AllDigits(s[1..]))
  }

  /** The id text a GraphQL `ID` field carries. */
  type IdText = s: string | IsIntegerText(s) witness "0"

  /** The value of a string of decimal digits. */
  function DigitsValue(s: string): nat
    requires AllDigits(s)
  {
    if s == [] then 0
    else 10 * DigitsValue(s[..|s| - 1]) + (s[|s| - 1] as int - '0' as int)
  }

  /** The unary plus `+s` of JavaScript applied to an id text. */
  function Number(s: IdText): (r: int)
    ensures s[0] == '-' ==> r <= 0
    ensures s[0] != '-' ==> r >= 0
  {
    if s[0] == '-' then -(DigitsValue(s[1..]) as int) else DigitsValue(s)
  }

  /** The decimal digits of `n`, without leading zeros. */
  function NatToString(n: nat): (s: string)
    ensures |s| > 0 && AllDigits(s) && DigitsValue(s) == n
    ensures s[0] == '0' ==> n == 0
  {
    var d := ['0' + (n % 10) as char];
    if n < 10 then d
    else
      var init := NatToString(n / 10);
      assert (init + d)[..|init + d| - 1] == init;
      init + d
  }

  /** The template literal `${i}` of an integer. */
  function IntToString(i: int): (s: string)
    ensures IsIntegerText(s)
  {
    if i < 0 then "-" + NatToString(-i) else NatToString(i)
  }

  /** Writing an integer and reading it back with unary plus gives the
      integer: the GraphQL id text and the REST integer id agree. */
  lemma IntToStringRoundTrip(i: int)
    ensures Number(IntToString(i)) == i
  {
    if i < 0 {
      assert IntToString(i)[1..] == NatToString(-i);
    }
  }
}
