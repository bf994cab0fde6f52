/** Prefixes and suffixes of texts. */
module Texts {
  predicate HasPrefix(s: string, p: string) {
    |s| >= |p| && s[..|p|] == p
  }

  predicate HasSuffix(s: string, t: string) {
    |s| >= |t| && s[|s| - |t|..] == t
  }

  /** A text has a prefix exactly when it is the prefix and something more; likewise for a suffix. */
  lemma AffixExactly(s: string, p: string)
    ensures HasPrefix(s, p) <==> exists rest :: s == p + rest
    ensures HasSuffix(s, p) <==> exists rest :: s == rest + p
  {
    if HasPrefix(s, p) {
      assert s == p + s[|p|..];
    }
    if HasSuffix(s, p) {
      assert s == s[..|s| - |p|] + p;
    }
  }
}
