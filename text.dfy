/** String helpers shared by the route guards and the mock endpoints. */
module Text {

  /** JavaScript's `s.startsWith(prefix)`: case-sensitive, character for character. */
  function StartsWith(s: string, prefix: string): (r: bool)
    ensures r <==> |prefix| <= |s| && forall i :: 0 <= i < |prefix| ==> s[i] == prefix[i]
  {
    |prefix| <= |s| && s[..|prefix|] == prefix
  }

  /** A string built as `prefix + rest` starts with `prefix`, whatever `rest` is. */
  lemma PrefixConcat(prefix: string, rest: string)
    ensures StartsWith(prefix + rest, prefix)
  {
    assert (prefix + rest)[..|prefix|] == prefix;
  }
}
