/** String helpers that stand for the JavaScript string methods the source calls. */
module Text {

  /** JavaScript's `s.startsWith(prefix)`. */
  predicate StartsWith(s: string, prefix: string)
  {
    |prefix| <= |s| && s[..|prefix|] == prefix
  }

  /** The longest prefix of `s` that holds no space. */
  function UpToSpace(s: string): (r: string)
    ensures |r| <= |s| && r == s[..|r|]
    ensures ' ' !in r
    ensures |r| == |s| || s[|r|] == ' '
  {
    if s == [] || s[0] == ' ' then [] else [s[0]] + UpToSpace(s[1..])
  }

  /** JavaScript's `s.split(" ")`: the pieces between single spaces, empty pieces kept. */
  function Split(s: string): (r: seq<string>)
    ensures |r| >= 1 && r[0] == UpToSpace(s)
    ensures forall k :: 0 <= k < |r| ==> ' ' !in r[k]
    decreases |s|
  {
    var w := UpToSpace(s);
    if |w| == |s| then [w] else [w] + Split(s[|w| + 1..])
  }

  /** A word with no space followed by a space ends the first piece of a split. */
  lemma {:induction false} UpToSpaceAfterWord(w: string, rest: string)
    requires ' ' !in w
    ensures UpToSpace(w + " " + rest) == w
  {
    if w != [] {
      assert (w + " " + rest)[1..] == w[1..] + " " + rest;
      UpToSpaceAfterWord(w[1..], rest);
    }
  }

  /** A string that starts with a space-free word and a space splits into that word and the split of the rest. */
  lemma SplitAfterWord(w: string, rest: string)
    requires ' ' !in w
    ensures Split(w + " " + rest) == [w] + Split(rest)
  {
    UpToSpaceAfterWord(w, rest);
    assert (w + " " + rest)[|w| + 1..] == rest;
  }
}
