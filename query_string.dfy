/**
 * How Flask reads `request.args` from a request URL: the query is what
 * follows the first '?' (without a fragment), split on '&' into non-empty
 * pairs, each split at its first '=', with '+' read as a space and
 * percent-escapes decoded; `args.get(key)` is the value of the first pair
 * with that key.
 */
module QueryString {
  import opened Wrappers
  import opened Text
  import opened Wire
  import UriComponent

  /** `s.split(sep)`: the pieces between separators, in order. */
  function Split(s: string, sep: char): (parts: seq<string>)
    ensures |parts| >= 1
    ensures forall i :: 0 <= i < |parts| ==> sep !in parts[i]
    decreases |s|
  {
    match IndexOf(s, sep)
    case None => [s]
    case Some(i) => [s[..i]] + Split(s[i + 1..], sep)
  }

  /** `sep.join(parts)`. */
  function Join(parts: seq<string>, sep: char): string
    requires |parts| >= 1
  {
    if |parts| == 1 then parts[0] else parts[0] + [sep] + Join(parts[1..], sep)
  }

  /** Splitting and joining again gives the text back. */
  lemma {:induction false} JoinSplit(s: string, sep: char)
    ensures Join(Split(s, sep), sep) == s
    decreases |s|
  {
    match IndexOf(s, sep)
    case None =>
    case Some(i) =>
      var parts, rest := Split(s, sep), Split(s[i + 1..], sep);
      assert parts == [s[..i]] + rest;
      assert parts[1..] == rest;
      JoinSplit(s[i + 1..], sep);
      assert Join(parts, sep) == s[..i] + [sep] + Join(rest, sep);
      assert s == s[..i] + [sep] + s[i + 1..];
  }

  /** Joining pieces free of the separator and splitting again gives the pieces back. */
  lemma {:induction false} SplitJoin(parts: seq<string>, sep: char)
    requires |parts| >= 1
    requires forall i :: 0 <= i < |parts| ==> sep !in parts[i]
    ensures Split(Join(parts, sep), sep) == parts
    decreases |parts|
  {
    if |parts| > 1 {
      SplitJoin(parts[1..], sep);
      IndexOfAfter(parts[0], sep, Join(parts[1..], sep));
      var rest := Join(parts[1..], sep);
      var s := Join(parts, sep);
      assert s == parts[0] + [sep] + rest;
      assert s[..|parts[0]|] == parts[0];
      assert s[|parts[0]| + 1..] == rest;
      assert Split(s, sep) == [parts[0]] + Split(rest, sep);
      assert parts == [parts[0]] + parts[1..];
    }
  }

  /** The first `c` of `a + [c] + b` is the one after `a` when `a` holds none. */
  lemma IndexOfAfter(a: string, c: char, b: string)
    requires c !in a
    ensures IndexOf(a + [c] + b, c) == Some(|a|)
  {
    var s := a + [c] + b;
    assert s[..|a|] == a;
    var i := IndexOf(s, c).value;
    assert s[|a|] == c;
  }

  /** The URL without its fragment. */
  function WithoutFragment(url: string): string {
    match IndexOf(url, '#')
    case None => url
    case Some(i) => url[..i]
  }

  /** The query of a URL: after the first '?' of the URL without its fragment, "" when there is none. */
  function QueryOf(url: string): string {
    var u := WithoutFragment(url);
    match IndexOf(u, '?')
    case None => ""
    case Some(i) => u[i + 1..]
  }

  /** '+' read as a space, as form decoding does. */
  function PlusToSpace(s: string): (t: string)
    ensures |t| == |s|
    ensures forall i :: 0 <= i < |s| ==> t[i] == if s[i] == '+' then ' ' else s[i]
  {
    if s == [] then [] else [if s[0] == '+' then ' ' else s[0]] + PlusToSpace(s[1..])
  }

  lemma PlusToSpaceWithoutPlus(s: string)
    requires '+' !in s
    ensures PlusToSpace(s) == s
  {
  }

  /** Form decoding of one key or value; text with a malformed escape is kept as it is. */
  function Unquote(s: string): string {
    UriComponent.Decode(PlusToSpace(s)).GetOr(s)
  }

  /** One `key=value` pair, split at its first '='; a pair without '=' has the value "". */
  function ParsePair(p: string): (string, string) {
    match IndexOf(p, '=')
    case None => (Unquote(p), "")
    case Some(i) => (Unquote(p[..i]), Unquote(p[i + 1..]))
  }

  /** The non-empty pairs of a query, decoded, in order. */
  function Pairs(parts: seq<string>): (args: Fields)
    ensures |args| <= |parts|
  {
    if parts == [] then []
    else (if parts[0] == "" then [] else [ParsePair(parts[0])]) + Pairs(parts[1..])
  }

  /** `request.args` of a URL, read with Wire.Lookup as `args.get`. */
  function Args(url: string): Fields {
    Pairs(Split(QueryOf(url), '&'))
  }

  /** Text without '%' and '+' decodes to itself. */
  lemma {:induction false} UnquotePlain(s: string)
    requires '%' !in s && '+' !in s
    ensures Unquote(s) == s
  {
    PlusToSpaceWithoutPlus(s);
    DecodeWithoutPercent(s);
  }

  lemma {:induction false} DecodeWithoutPercent(s: string)
    requires '%' !in s
    ensures UriComponent.Decode(s) == Some(s)
    decreases |s|
  {
    if s != [] {
      assert s[0] in s;
      assert forall c :: c in s[1..] ==> c in s;
      DecodeWithoutPercent(s[1..]);
      assert [s[0]] + s[1..] == s;
    }
  }

  /** A component written by encodeURIComponent is read back as the original text. */
  lemma UnquoteEncoded(s: string)
    ensures Unquote(UriComponent.Encode(s)) == s
  {
    UriComponent.EncodeHasNoDelimiters(s);
    PlusToSpaceWithoutPlus(UriComponent.Encode(s));
    UriComponent.DecodeEncode(s);
  }

  /** The pair `key=` + encodeURIComponent(value) reads as (key, value) for a key without '=', '%', '+'. */
  lemma ParseEncodedPair(key: string, value: string)
    requires '=' !in key && '%' !in key && '+' !in key
    ensures ParsePair(key + "=" + UriComponent.Encode(value)) == (key, value)
  {
    var p := key + "=" + UriComponent.Encode(value);
    IndexOfAfter(key, '=', UriComponent.Encode(value));
    assert p[..|key|] == key;
    assert p[|key| + 1..] == UriComponent.Encode(value);
    UnquotePlain(key);
    UnquoteEncoded(value);
  }
}
