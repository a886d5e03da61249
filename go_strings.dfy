/**
 Go's `strings.HasSuffix` and `strings.TrimSuffix`, which the Ollama adapter
 calls, and `strings.HasPrefix`, which the model itself uses to read a bearer
 token and a key preview back. Each has Go's meaning: comparison is exact,
 element by element, with no case folding and no normalisation.
 */
module GoStrings {

  /** `strings.HasPrefix`: `prefix` is an initial segment of `s`. */
  predicate HasPrefix(s: string, prefix: string) {
    |prefix| <= |s| && s[..|prefix|] == prefix
  }

  /** `strings.HasSuffix`: `suffix` is a final segment of `s`. */
  predicate HasSuffix(s: string, suffix: string) {
    |suffix| <= |s| && s[|s| - |suffix|..] == suffix
  }

  /** `strings.TrimSuffix`: removes `suffix` once when `s` ends with it. */
  function TrimSuffix(s: string, suffix: string): (r: string)
    ensures HasSuffix(s, suffix) ==> r + suffix == s
    ensures !HasSuffix(s, suffix) ==> r == s
  {
    if HasSuffix(s, suffix) then
      assert s == s[..|s| - |suffix|] + s[|s| - |suffix|..];
      s[..|s| - |suffix|]
    else
      s
  }

  /** Whatever comes in front of a string does not change what it ends with. */
  lemma HasSuffixAfter(prefix: string, s: string, suffix: string)
    ensures HasSuffix(prefix + s, suffix) <== HasSuffix(s, suffix)
  {
  }

  /** `s + [c]` ends with `t + [c]` exactly when `s` ends with `t`. */
  lemma HasSuffixSnoc(s: string, t: string, c: char)
    ensures HasSuffix(s + [c], t + [c]) <==> HasSuffix(s, t)
  {
    var u, v := s + [c], t + [c];
    if |t| <= |s| {
      assert u[|u| - |v|..] == s[|s| - |t|..] + [c];
      if u[|u| - |v|..] == v {
        assert s[|s| - |t|..] == v[..|t|];
      }
    }
  }

  /** A non-empty suffix fixes the last element. */
  lemma LastOfSuffix(s: string, suffix: string)
    requires suffix != []
    ensures HasSuffix(s, suffix) ==> s != [] && s[|s| - 1] == suffix[|suffix| - 1]
  {
  }
}
