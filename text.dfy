/**
 * String helpers shared by the Python backend and the TypeScript client:
 * digit and whitespace classes, `strip`/`trim`, prefix tests and the
 * `split(" ", 1)` used to cut a header value.
 */
module Text {
  import opened Wrappers

  predicate IsAsciiDigit(c: char) {
    '0' <= c <= '9'
  }

  predicate AllDigits(s: string) {
    forall i :: 0 <= i < |s| ==> IsAsciiDigit(s[i])
  }

  /** Which language's notion of white space a trim uses. */
  datatype WhitespaceRule =
    | PythonStr   // str.isspace(), used by str.strip()
    | EcmaScript  // WhiteSpace and LineTerminator of ECMA-262, used by String.prototype.trim()

  predicate IsSpace(rule: WhitespaceRule, c: char) {
    || ('\t' <= c <= '\r')  // tab, line feed, vertical tab, form feed, carriage return
    || c == ' ' || c == '\U{A0}' || c == '\U{1680}' || ('\U{2000}' <= c <= '\U{200A}')
    || c == '\U{2028}' || c == '\U{2029}' || c == '\U{202F}' || c == '\U{205F}' || c == '\U{3000}'
    || (rule == PythonStr && (('\U{1C}' <= c <= '\U{1F}') || c == '\U{85}'))
    || (rule == EcmaScript && c == '\U{FEFF}')
  }

  predicate AllSpace(rule: WhitespaceRule, s: string) {
    forall i :: 0 <= i < |s| ==> IsSpace(rule, s[i])
  }

  /** The length of the longest all-space prefix of `s`. */
  function LeadingSpace(rule: WhitespaceRule, s: string): (n: nat)
    ensures n <= |s| && AllSpace(rule, s[..n])
    ensures n == |s| || !IsSpace(rule, s[n])
    decreases |s|
  {
    if s != [] && IsSpace(rule, s[0]) then
      var n := 1 + LeadingSpace(rule, s[1..]);
      assert forall i :: 1 <= i < n ==> s[..n][i] == s[1..][..n - 1][i - 1];
      n
    else 0
  }

  /** The length of the longest all-space suffix of `s`. */
  function TrailingSpace(rule: WhitespaceRule, s: string): (n: nat)
    ensures n <= |s| && AllSpace(rule, s[|s| - n..])
    ensures n == |s| || !IsSpace(rule, s[|s| - n - 1])
    decreases |s|
  {
    if s != [] && IsSpace(rule, s[|s| - 1]) then
      var t := s[..|s| - 1];
      var n := 1 + TrailingSpace(rule, t);
      assert s[|s| - n..] == t[|t| - (n - 1)..] + [s[|s| - 1]];
      n
    else 0
  }

  /**
   * Python's `s.strip()` (rule PythonStr) and JavaScript's `s.trim()` (rule
   * EcmaScript): the slice of `s` between an all-space prefix and an all-space
   * suffix that neither begins nor ends with white space.
   */
  function Strip(rule: WhitespaceRule, s: string): (r: string)
    ensures r == [] || (!IsSpace(rule, r[0]) && !IsSpace(rule, r[|r| - 1]))
    ensures r == [] <==> AllSpace(rule, s)
  {
    var a := LeadingSpace(rule, s);
    var b := |s| - TrailingSpace(rule, s[a..]);
    StripSlice(rule, s, a, b);
    s[a..b]
  }

  /** Strip keeps the slice of `s` between an all-space prefix and an all-space suffix. */
  lemma StripIsSlice(rule: WhitespaceRule, s: string)
    ensures exists a, b :: (0 <= a <= b <= |s| && Strip(rule, s) == s[a..b]
      && AllSpace(rule, s[..a]) && AllSpace(rule, s[b..]))
  {
    var a := LeadingSpace(rule, s);
    var b := |s| - TrailingSpace(rule, s[a..]);
    StripSlice(rule, s, a, b);
    assert Strip(rule, s) == s[a..b];
  }

  /** The slice facts behind Strip, stated over plain indices. */
  lemma StripSlice(rule: WhitespaceRule, s: string, a: nat, b: nat)
    requires a <= b <= |s| && AllSpace(rule, s[..a]) && (a == |s| || !IsSpace(rule, s[a]))
    requires AllSpace(rule, s[a..][b - a..]) && (b == a || !IsSpace(rule, s[b - 1]))
    ensures AllSpace(rule, s[b..])
    ensures a < b <==> !AllSpace(rule, s)
  {
    assert s[b..] == s[a..][b - a..];
    if a == b {
      assert s == s[..a] + s[b..];
      AllSpaceConcat(rule, s[..a], s[b..]);
    }
  }

  lemma AllSpaceConcat(rule: WhitespaceRule, x: string, y: string)
    requires AllSpace(rule, x) && AllSpace(rule, y)
    ensures AllSpace(rule, x + y)
  {
    forall i | 0 <= i < |x + y| ensures IsSpace(rule, (x + y)[i]) {
      if i < |x| { assert (x + y)[i] == x[i]; } else { assert (x + y)[i] == y[i - |x|]; }
    }
  }

  /** The first index of `c` in `s`, if any. */
  function IndexOf<T(==)>(s: seq<T>, c: T): (r: Option<nat>)
    ensures r.None? <==> c !in s
    ensures r.Some? ==> r.value < |s| && s[r.value] == c && c !in s[..r.value]
    decreases |s|
  {
    if s == [] then None
    else if s[0] == c then Some(0)
    else match IndexOf(s[1..], c)
      case None => None
      case Some(i) => assert s[1..][..i] == s[1..i + 1]; Some(i + 1)
  }

  /**
   * Python's `s.split(" ", 1)[1]`: what follows the first space, or None where
   * Python raises IndexError because `s` holds no space.
   */
  function AfterFirstSpace(s: string): (r: Option<string>)
    ensures r.None? <==> ' ' !in s
    ensures r.Some? ==> exists i :: 0 <= i < |s| && s[i] == ' ' && ' ' !in s[..i] && r.value == s[i + 1..]
  {
    match IndexOf(s, ' ')
    case None => None
    case Some(i) => Some(s[i + 1..])
  }

  /** What follows the first space of `p + t`, when the first space of `p` is its last character. */
  lemma AfterFirstSpaceOfPrefix(p: string, t: string)
    requires |p| > 0 && p[|p| - 1] == ' ' && ' ' !in p[..|p| - 1]
    ensures AfterFirstSpace(p + t) == Some(t)
  {
    var s := p + t;
    assert s[..|p| - 1] == p[..|p| - 1];
    assert s[|p|..] == t;
  }
}
