/** The handful of Python string operations the scripts rely on, over
    `string` (= `seq<char>`): substring membership (`sub in s`), `str.find`,
    `str.split(sep)`, `sep.join(parts)`, the non-overlapping `str.count`
    and decimal formatting of a natural number. */
module Text {
  import opened Wrappers

  /** `sub` occurs in `s` starting at index `i`. */
  predicate OccursAt(s: string, sub: string, i: nat) {
    i + |sub| <= |s| && s[i..i + |sub|] == sub
  }

  /** Python's `sub in s`; the empty string is in every string. */
  predicate Contains(s: string, sub: string) {
    exists i: nat :: i <= |s| && OccursAt(s, sub, i)
  }

  /** The first occurrence of `sub` in `s` at or after index `k`. */
  function FindFrom(s: string, sub: string, k: nat): (r: Option<nat>)
    requires k <= |s|
    decreases |s| - k
    ensures r.Some? ==> k <= r.value <= |s| && OccursAt(s, sub, r.value)
    ensures r.Some? ==> forall m :: k <= m < r.value ==> !OccursAt(s, sub, m)
    ensures r.None? ==> forall m :: k <= m <= |s| ==> !OccursAt(s, sub, m)
  {
    if OccursAt(s, sub, k) then Some(k)
    else if k == |s| then None
    else FindFrom(s, sub, k + 1)
  }

  /** Python's `s.find(sub)`, with None for -1. */
  function Find(s: string, sub: string): (r: Option<nat>)
    ensures r.Some? <==> Contains(s, sub)
    ensures r.Some? ==> OccursAt(s, sub, r.value)
    ensures r.Some? ==> forall m: nat :: m < r.value ==> !OccursAt(s, sub, m)
  {
    FindFrom(s, sub, 0)
  }

  /** Python's `s.split(sep)` for a non-empty separator (an empty one makes
      Python raise ValueError): cut at every occurrence, left to right. */
  function Split(s: string, sep: string): (parts: seq<string>)
    requires |sep| > 0
    decreases |s|
    ensures |parts| >= 1
  {
    match Find(s, sep)
    case None => [s]
    case Some(i) => [s[..i]] + Split(s[i + |sep|..], sep)
  }

  /** Python's `sep.join(parts)`. */
  function Join(parts: seq<string>, sep: string): string
  {
    if |parts| == 0 then ""
    else if |parts| == 1 then parts[0]
    else parts[0] + sep + Join(parts[1..], sep)
  }

  /** Python's `s.split('\n')`. */
  function Lines(s: string): (lines: seq<string>)
    ensures |lines| >= 1
  {
    Split(s, "\n")
  }

  /** Python's `s.count(sub)` from index `k` on, for a non-empty `sub`:
      occurrences found left to right, each search resuming after the
      previous match, so that matches never overlap. */
  function CountFrom(s: string, sub: string, k: nat): nat
    requires |sub| > 0 && k <= |s|
    decreases |s| - k
  {
    match FindFrom(s, sub, k)
    case None => 0
    case Some(j) => 1 + CountFrom(s, sub, j + |sub|)
  }

  /** Python's `s.count(sub)`; the empty string is counted `len(s) + 1` times. */
  function Count(s: string, sub: string): nat
  {
    if |sub| == 0 then |s| + 1 else CountFrom(s, sub, 0)
  }

  /** Python's `str(n)` for a natural number. */
  function NatToString(n: nat): (r: string)
    ensures |r| >= 1
  {
    if n < 10 then ["0123456789"[n]]
    else NatToString(n / 10) + ["0123456789"[n % 10]]
  }

  /** Splitting and joining again with the same separator restores the string. */
  lemma {:induction false} SplitJoin(s: string, sep: string)
    requires |sep| > 0
    ensures Join(Split(s, sep), sep) == s
    decreases |s|
  {
    match Find(s, sep)
    case None =>
    case Some(i) =>
      var rest := s[i + |sep|..];
      var parts := Split(rest, sep);
      SplitJoin(rest, sep);
      var all := [s[..i]] + parts;
      assert Split(s, sep) == all;
      assert all[1..] == parts;
      assert Join(all, sep) == s[..i] + sep + Join(parts, sep);
      assert s == s[..i] + s[i..i + |sep|] + rest;
  }

  /** Splitting on a one-character separator yields one more part than there
      are occurrences of that character. */
  lemma {:induction false} SplitOnCharCount(s: string, c: char)
    ensures |Split(s, [c])| == multiset(s)[c] + 1
    decreases |s|
  {
    match Find(s, [c])
    case None =>
      forall m | 0 <= m < |s|
        ensures s[m] != c
      {
        assert !OccursAt(s, [c], m);
        assert s[m..m + 1] == [s[m]];
      }
      assert c !in s;
    case Some(i) =>
      var rest := s[i + 1..];
      SplitOnCharCount(rest, c);
      forall m | 0 <= m < i
        ensures s[m] != c
      {
        assert !OccursAt(s, [c], m);
        assert s[m..m + 1] == [s[m]];
      }
      assert c !in s[..i];
      assert s == s[..i] + [c] + rest;
      assert multiset(s) == multiset(s[..i]) + multiset{c} + multiset(rest);
  }

  /** Substring containment is transitive: a string that contains `t`
      contains everything `t` contains. */
  lemma ContainsTransitive(s: string, t: string, u: string)
    requires Contains(s, t) && Contains(t, u)
    ensures Contains(s, u)
  {
    var i: nat :| i <= |s| && OccursAt(s, t, i);
    var j: nat :| j <= |t| && OccursAt(t, u, j);
    assert t == s[i..i + |t|];
    forall k | 0 <= k < |u|
      ensures s[i + j + k] == u[k]
    {
      assert u[k] == t[j + k];
    }
    assert OccursAt(s, u, i + j);
  }
}
