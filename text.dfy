/**
 * The two pieces of Python string behaviour the core relies on:
 * substring containment (`sub in s`) and `str.strip()`.
 */
module Text {

  /** `sub` occurs in `s` starting at index `i`. */
  ghost predicate OccursAt(sub: string, s: string, i: int) {
    0 <= i && i + |sub| <= |s| && forall k :: i <= k < i + |sub| ==> s[k] == sub[k - i]
  }

  /** `sub` occurs somewhere in `s`: the meaning of Python's `sub in s`. */
  ghost predicate Occurs(sub: string, s: string) {
    exists i :: OccursAt(sub, s, i)
  }

  /** Python's `sub in s`, computed by trying each start position in turn. */
  function Contains(s: string, sub: string): bool
    decreases |s|
  {
    if |sub| > |s| then false
    else if s[..|sub|] == sub then true
    else Contains(s[1..], sub)
  }

  lemma {:induction false} ContainsIsOccurs(s: string, sub: string)
    ensures Contains(s, sub) <==> Occurs(sub, s)
    decreases |s|
  {
    if |sub| > |s| {
    } else if s[..|sub|] == sub {
      assert OccursAt(sub, s, 0);
    } else {
      ContainsIsOccurs(s[1..], sub);
      if Contains(s[1..], sub) {
        var i :| OccursAt(sub, s[1..], i);
        assert forall k :: i <= k < i + |sub| ==> s[1..][k] == s[k + 1];
        assert OccursAt(sub, s, i + 1);
      }
      if Occurs(sub, s) {
        var i :| OccursAt(sub, s, i);
        assert forall k :: i - 1 <= k < i - 1 + |sub| ==> s[1..][k] == s[k + 1];
        assert OccursAt(sub, s[1..], i - 1);
      }
    }
  }

  /** An occurrence survives surrounding text. */
  lemma OccursWithin(prefix: string, s: string, suffix: string, sub: string)
    requires Occurs(sub, s)
    ensures Occurs(sub, prefix + s + suffix)
  {
    var i :| OccursAt(sub, s, i);
    var t := prefix + s + suffix;
    assert forall k :: i <= k < i + |sub| ==> t[|prefix| + k] == s[k];
    assert OccursAt(sub, t, |prefix| + i);
  }

  /**
   * The characters Python's `str.isspace()` accepts: the ASCII controls
   * 9..13 and 28..31, the space, NEL, NO-BREAK SPACE and the Unicode
   * space separators.
   */
  predicate IsSpace(c: char) {
    var n := c as int;
    (9 <= n <= 13) || (28 <= n <= 32) || n == 0x85 || n == 0xA0 || n == 0x1680
    || (0x2000 <= n <= 0x200A) || n == 0x2028 || n == 0x2029 || n == 0x202F
    || n == 0x205F || n == 0x3000
  }

  ghost predicate AllSpace(s: string) {
    forall i :: 0 <= i < |s| ==> IsSpace(s[i])
  }

  /** Where `lstrip()` cuts: the first index at or after `i` that is not whitespace, or |s|. */
  function SkipLeading(s: string, i: nat): (k: nat)
    requires i <= |s|
    ensures i <= k <= |s|
    ensures forall m :: i <= m < k ==> IsSpace(s[m])
    ensures k == |s| || !IsSpace(s[k])
    decreases |s| - i
  {
    if i < |s| && IsSpace(s[i]) then SkipLeading(s, i + 1) else i
  }

  /**
   * Where `rstrip()` cuts: the index just past the last character before `j`
   * that is not whitespace, never below `lo`.
   */
  function SkipTrailing(s: string, lo: nat, j: nat): (k: nat)
    requires lo <= j <= |s|
    ensures lo <= k <= j
    ensures forall m :: k <= m < j ==> IsSpace(s[m])
    ensures k == lo || !IsSpace(s[k - 1])
  {
    if lo < j && IsSpace(s[j - 1]) then SkipTrailing(s, lo, j - 1) else j
  }

  /** Python's `str.strip()` with no argument: `lstrip()` and then `rstrip()`. */
  function Strip(s: string): string {
    var i := SkipLeading(s, 0);
    s[i..SkipTrailing(s, i, |s|)]
  }

  /**
   * What `strip()` promises: the result is the run of `s` left once the
   * whitespace at both ends is cut away, it neither starts nor ends with
   * whitespace, and it is empty exactly when `s` is blank.
   */
  lemma StripSpec(s: string)
    ensures var r := Strip(s);
      exists i :: 0 <= i && i + |r| <= |s| && r == s[i..i + |r|]
                  && AllSpace(s[..i]) && AllSpace(s[i + |r|..])
    ensures Strip(s) == [] || (!IsSpace(Strip(s)[0]) && !IsSpace(Strip(s)[|Strip(s)| - 1]))
    ensures Strip(s) == [] <==> AllSpace(s)
  {
    var i := SkipLeading(s, 0);
    var j := SkipTrailing(s, i, |s|);
    var r := Strip(s);
    assert r == s[i..j] && |r| == j - i;
    assert AllSpace(s[..i]) && AllSpace(s[j..]);
    if r == [] {
      assert i == j == |s|;
    } else {
      assert r[0] == s[i] && i < |s|;
      assert r[|r| - 1] == s[j - 1] && j != i;
    }
  }

  /** Stripping is idempotent. */
  lemma StripIdempotent(s: string)
    ensures Strip(Strip(s)) == Strip(s)
  {
    var r := Strip(s);
    StripSpec(s);
    if r != [] {
      assert SkipLeading(r, 0) == 0;
      assert SkipTrailing(r, 0, |r|) == |r|;
      assert r[0..|r|] == r;
    }
  }
}
