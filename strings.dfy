/** Substring and prefix facts about strings, used to state what the agent's
    messages contain. */
module Strings {

  /** True iff `sub` occurs in `s` as a contiguous piece (Python's `sub in s`). */
  ghost predicate Contains(s: string, sub: string) {
    exists i :: OccursAt(s, sub, i)
  }

  /** True iff `sub` occurs in `s` starting at index `i`. */
  predicate OccursAt(s: string, sub: string, i: int) {
    0 <= i && i + |sub| <= |s| && s[i..i + |sub|] == sub
  }

  /** True iff `s` begins with `prefix` (Python's `s.startswith(prefix)`). */
  predicate StartsWith(s: string, prefix: string) {
    |prefix| <= |s| && s[..|prefix|] == prefix
  }

  /** True iff `s` ends with `suffix` (Python's `s.endswith(suffix)`). */
  predicate EndsWith(s: string, suffix: string) {
    |suffix| <= |s| && s[|s| - |suffix|..] == suffix
  }

  /** The middle part of a three-piece concatenation occurs in it. */
  lemma ContainsMiddle(a: string, b: string, c: string)
    ensures Contains(a + b + c, b)
  {
    var s := a + b + c;
    assert OccursAt(s, b, |a|);
  }

  /** The second part of a concatenation occurs in it. */
  lemma ContainsSuffix(a: string, b: string)
    ensures Contains(a + b, b)
  {
    var s := a + b;
    assert OccursAt(s, b, |a|);
  }

  /** A concatenation determines its middle part once both ends are fixed. */
  lemma MiddleDetermined(a: string, b1: string, b2: string, c: string)
    requires a + b1 + c == a + b2 + c
    ensures b1 == b2
  {
    var s1, s2 := a + b1 + c, a + b2 + c;
    assert |b1| == |b2|;
    assert s1[|a|..|a| + |b1|] == b1;
    assert s2[|a|..|a| + |b2|] == b2;
  }
}
