/** The string predicates the handlers rely on: Go's strings.TrimSpace, HasPrefix and
    Contains, and JavaScript's String.prototype.trim used inside the injected select script. */
module Text {

  /** Go's unicode.IsSpace: the Unicode White_Space characters. */
  predicate IsGoSpace(c: char) {
    || c == '\t' || c == '\n' || c == '\U{000B}' || c == '\U{000C}' || c == '\r' || c == ' '
    || c == '\U{0085}' || c == '\U{00A0}' || c == '\U{1680}'
    || ('\U{2000}' <= c <= '\U{200A}')
    || c == '\U{2028}' || c == '\U{2029}' || c == '\U{202F}' || c == '\U{205F}' || c == '\U{3000}'
  }

  /** ECMAScript WhiteSpace and LineTerminator, the set String.prototype.trim removes.
      It differs from Go's set: U+0085 is not in it, U+FEFF is. */
  predicate IsJsSpace(c: char) {
    || c == '\t' || c == '\n' || c == '\U{000B}' || c == '\U{000C}' || c == '\r' || c == ' '
    || c == '\U{00A0}' || c == '\U{1680}'
    || ('\U{2000}' <= c <= '\U{200A}')
    || c == '\U{2028}' || c == '\U{2029}' || c == '\U{202F}' || c == '\U{205F}' || c == '\U{3000}'
    || c == '\U{FEFF}'
  }

  /** The number of leading characters of `s` that satisfy `isSpace`. */
  function LeadingSpaces(s: string, isSpace: char -> bool): (n: nat)
    ensures n <= |s|
    ensures forall i :: 0 <= i < n ==> isSpace(s[i])
    ensures n == |s| || !isSpace(s[n])
  {
    if |s| > 0 && isSpace(s[0]) then
      var m := LeadingSpaces(s[1..], isSpace);
      assert forall i :: 1 <= i < m + 1 ==> s[i] == s[1..][i - 1];
      m + 1
    else 0
  }

  /** The number of trailing characters of `s` that satisfy `isSpace`. */
  function TrailingSpaces(s: string, isSpace: char -> bool): (n: nat)
    ensures n <= |s|
    ensures forall i :: |s| - n <= i < |s| ==> isSpace(s[i])
    ensures n == |s| || !isSpace(s[|s| - n - 1])
  {
    if |s| > 0 && isSpace(s[|s| - 1]) then
      var m := TrailingSpaces(s[..|s| - 1], isSpace);
      assert forall i :: |s| - 1 - m <= i < |s| - 1 ==> s[i] == s[..|s| - 1][i];
      m + 1
    else 0
  }

  /** Drops the leading characters that satisfy `isSpace`. */
  function TrimLeft(s: string, isSpace: char -> bool): string {
    s[LeadingSpaces(s, isSpace)..]
  }

  /** Drops the trailing characters that satisfy `isSpace`. */
  function TrimRight(s: string, isSpace: char -> bool): string {
    s[..|s| - TrailingSpaces(s, isSpace)]
  }

  /** A string that neither starts nor ends with a character satisfying `isSpace`. */
  predicate Trimmed(s: string, isSpace: char -> bool) {
    s == [] || (!isSpace(s[0]) && !isSpace(s[|s| - 1]))
  }

  /** Both ends trimmed: the result starts and ends with a non-space, and it is empty
      exactly when `s` is all spaces. TrimCutsEnds states which slice of `s` it is. */
  function Trim(s: string, isSpace: char -> bool): (r: string)
    ensures |r| <= |s|
    ensures Trimmed(r, isSpace)
    ensures r == [] <==> forall i :: 0 <= i < |s| ==> isSpace(s[i])
  {
    var l := TrimLeft(s, isSpace);
    var r := TrimRight(l, isSpace);
    assert r != [] ==> r[0] == l[0];
    assert (forall i :: 0 <= i < |s| ==> isSpace(s[i])) ==> l == [];
    r
  }

  /** Trimming cuts a run of spaces off the front and a run off the back and keeps what
      lies between, untouched. */
  lemma TrimCutsEnds(s: string, isSpace: char -> bool)
    ensures exists a, b ::
      && 0 <= a <= b <= |s| && Trim(s, isSpace) == s[a..b]
      && (forall i :: 0 <= i < a ==> isSpace(s[i]))
      && (forall i :: b <= i < |s| ==> isSpace(s[i]))
  {
    var a := LeadingSpaces(s, isSpace);
    var l := TrimLeft(s, isSpace);
    var t := TrailingSpaces(l, isSpace);
    assert Trim(s, isSpace) == s[a..|s| - t];
    assert forall i :: |s| - t <= i < |s| ==> s[i] == l[i - a];
  }

  /** Go's strings.TrimSpace. */
  function TrimSpace(s: string): string {
    Trim(s, IsGoSpace)
  }

  /** JavaScript's String.prototype.trim. */
  function JsTrim(s: string): string {
    Trim(s, IsJsSpace)
  }

  /** The Go idiom `strings.TrimSpace(s) == ""`. */
  predicate IsBlank(s: string) {
    TrimSpace(s) == ""
  }

  /** Trimming leaves an already trimmed string alone. */
  lemma TrimmedIsFixpoint(s: string, isSpace: char -> bool)
    requires Trimmed(s, isSpace)
    ensures Trim(s, isSpace) == s
  {
    if s != [] {
      assert TrimLeft(s, isSpace) == s;
      assert TrimRight(s, isSpace) == s;
    }
  }

  /** Trimming twice is trimming once. */
  lemma TrimIdempotent(s: string, isSpace: char -> bool)
    ensures Trim(Trim(s, isSpace), isSpace) == Trim(s, isSpace)
  {
    TrimmedIsFixpoint(Trim(s, isSpace), isSpace);
  }

  /** Go's strings.HasPrefix. */
  predicate HasPrefix(s: string, prefix: string) {
    |prefix| <= |s| && s[..|prefix|] == prefix
  }

  /** Go's strings.Contains: `sub` occurs somewhere in `s`. */
  predicate Contains(s: string, sub: string)
    decreases |s|
  {
    HasPrefix(s, sub) || (|s| > 0 && Contains(s[1..], sub))
  }
}
