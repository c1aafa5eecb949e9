/** Substring search and replacement, as the Rust string methods do them. */
module Strings {
  import opened Wrappers

  /** `pat` occurs in `s` at position `i`. */
  predicate At(s: string, i: int, pat: string) {
    0 <= i && i + |pat| <= |s| && forall k :: 0 <= k < |pat| ==> s[i + k] == pat[k]
  }

  lemma AtFirst(s: string, i: int, pat: string)
    requires At(s, i, pat) && pat != []
    ensures s[i] == pat[0]
  {
    assert s[i + 0] == pat[0];
  }

  /** One differing character rules an occurrence out. */
  lemma NotAt(s: string, i: int, pat: string, k: nat)
    requires k < |pat| && 0 <= i + k && (i + k >= |s| || s[i + k] != pat[k])
    ensures !At(s, i, pat)
  {
  }

  lemma AtLast(s: string, i: int, pat: string)
    requires At(s, i, pat) && pat != []
    ensures s[i + |pat| - 1] == pat[|pat| - 1]
  {
    assert s[i + (|pat| - 1)] == pat[|pat| - 1];
  }

  lemma AtDrop(s: string, n: nat, i: nat, pat: string)
    requires n <= |s|
    ensures At(s[n..], i, pat) == At(s, n + i, pat)
  {
    if At(s[n..], i, pat) {
      forall k | 0 <= k < |pat| ensures s[n + i + k] == pat[k] {
        assert s[n..][i + k] == pat[k];
      }
    }
    if At(s, n + i, pat) {
      forall k | 0 <= k < |pat| ensures s[n..][i + k] == pat[k] {
        assert s[n + i + k] == pat[k];
      }
    }
  }

  /** The leftmost occurrence of `pat` in `s`. */
  function Find(s: string, pat: string): (r: Option<nat>)
    ensures r.Some? ==> At(s, r.value, pat) && forall j :: 0 <= j < r.value ==> !At(s, j, pat)
    ensures r.None? ==> forall j :: !At(s, j, pat)
    decreases |s|
  {
    if At(s, 0, pat) then Some(0)
    else if s == [] then None
    else
      assert forall j :: 0 < j ==> At(s, j, pat) == At(s[1..], j - 1, pat) by {
        forall j | 0 < j ensures At(s, j, pat) == At(s[1..], j - 1, pat) {
          AtDrop(s, 1, j - 1, pat);
        }
      }
      match Find(s[1..], pat)
      case None => assert forall j :: 0 < j ==> !At(s, j, pat); None
      case Some(i) => Some(i + 1)
  }

  predicate Contains(s: string, pat: string) {
    Find(s, pat).Some?
  }

  /** Whether `pat` occurs inside `a` does not depend on what follows `a`. */
  lemma AtPrefix(a: string, b: string, i: int, pat: string)
    requires i + |pat| <= |a|
    ensures At(a + b, i, pat) == At(a, i, pat)
  {
  }

  /** A found occurrence stays the leftmost one when text is appended. */
  lemma FindStable(a: string, b: string, pat: string)
    requires Find(a, pat).Some?
    ensures Find(a + b, pat) == Find(a, pat)
  {
    var i := Find(a, pat).value;
    AtPrefix(a, b, i, pat);
    forall j | 0 <= j < i ensures !At(a + b, j, pat) {
      AtPrefix(a, b, j, pat);
    }
  }

  lemma NotPrefix(s: string, p: string, k: nat)
    requires k < |p| && (k >= |s| || s[k] != p[k])
    ensures !(p <= s)
  {
  }

  lemma NotPrefixPart(s: string, p: string, n: nat)
    requires n <= |s| && n <= |p| && s[..n] != p[..n]
    ensures !(p <= s)
  {
    assert p <= s ==> s[..n] == p[..n];
  }
}
