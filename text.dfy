/** String primitives the classifier and the link filter are built from:
    ASCII lower-casing (the model's stand-in for Python's str.lower()),
    substring search (Python's `in` on strings), prefix and suffix tests
    (str.startswith / str.endswith) and prefix truncation (s[:n]). */
module Text {

  function LowerChar(c: char): char {
    if 'A' <= c <= 'Z' then (c as int + 32) as char else c
  }

  /** ASCII lower-casing, character by character. */
  function Lower(s: string): (r: string)
    ensures |r| == |s|
  {
    seq(|s|, i requires 0 <= i < |s| => LowerChar(s[i]))
  }

  predicate StartsWith(s: string, p: string) {
    |p| <= |s| && s[..|p|] == p
  }

  predicate EndsWith(s: string, p: string) {
    |p| <= |s| && s[|s| - |p|..] == p
  }

  /** `p in s` for Python strings: p occurs at some offset of s (the empty
      string occurs in every string). */
  predicate Contains(s: string, p: string) {
    exists i :: 0 <= i <= |s| - |p| && OccursAt(s, p, i)
  }

  predicate OccursAt(s: string, p: string, i: nat)
    requires i + |p| <= |s|
  {
    s[i..i + |p|] == p
  }

  /** s[:n] for n >= 0. */
  function Take(s: string, n: nat): (r: string)
    ensures |r| <= n && |r| <= |s|
    ensures |r| == if |s| <= n then |s| else n
    ensures r == s[..|r|]
  {
    if |s| <= n then s else s[..n]
  }

  /** No two adjacent characters of s are `a` followed by `b`. */
  predicate PairAbsent(s: string, a: char, b: char) {
    forall i :: 0 <= i < |s| - 1 ==> !(s[i] == a && s[i + 1] == b)
  }

  lemma ContainsAt(s: string, p: string, i: nat)
    requires i + |p| <= |s| && s[i..i + |p|] == p
    ensures Contains(s, p)
  {
    assert OccursAt(s, p, i);
  }

  /** A string in which two adjacent characters of p never occur side by
      side does not contain p. */
  lemma NotContainsByPair(s: string, p: string, j: nat)
    requires j + 1 < |p| && PairAbsent(s, p[j], p[j + 1])
    ensures !Contains(s, p)
  {
    forall i | 0 <= i <= |s| - |p|
      ensures !OccursAt(s, p, i)
    {
      assert !(s[i + j] == p[j] && s[i + j + 1] == p[j + 1]);
      assert s[i..i + |p|][j] == s[i + j] && s[i..i + |p|][j + 1] == s[i + j + 1];
    }
  }
}
