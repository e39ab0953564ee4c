/** Searching in strings. */
module Strings {
  import opened Options

  // The first occurrence of c at or after i.
  function FindChar(s: string, c: char, i: nat): (r: Option<nat>)
    requires i <= |s|
    ensures r.Some? ==> i <= r.value < |s| && s[r.value] == c && forall j | i <= j < r.value :: s[j] != c
    ensures r.None? ==> forall j | i <= j < |s| :: s[j] != c
    decreases |s| - i
  {
    if i == |s| then None
    else if s[i] == c then Some(i)
    else FindChar(s, c, i + 1)
  }

  // The part before the first c is what precedes it in a + [c] + b.
  lemma FindJoined(a: string, c: char, b: string, i: nat)
    requires i <= |a| && forall j | i <= j < |a| :: a[j] != c
    ensures FindChar(a + [c] + b, c, i) == Some(|a|)
  {
    var s := a + [c] + b;
    assert s[|a|] == c;
    assert forall j | i <= j < |a| :: s[j] == a[j];
  }

  predicate OccursAt(s: string, w: string, i: nat) { i <= |s| && w <= s[i..] }

  // The first occurrence of w at or after i (std::string::find).
  method Find(s: string, w: string, i: nat) returns (r: Option<nat>)
    requires i <= |s|
    ensures r.Some? ==> i <= r.value && OccursAt(s, w, r.value) && forall j | i <= j < r.value :: !OccursAt(s, w, j)
    ensures r.None? ==> forall j | i <= j <= |s| :: !OccursAt(s, w, j)
  {
    for k := i to |s| + 1
      invariant forall j | i <= j < k :: !OccursAt(s, w, j)
    {
      if w <= s[k..] {
        return Some(k);
      }
    }
    return None;
  }

  // The same as a function.
  function FirstIndex(s: string, w: string, i: nat): (r: Option<nat>)
    requires i <= |s|
    ensures r.Some? ==>
              i <= r.value && r.value + |w| <= |s| && OccursAt(s, w, r.value) &&
              forall j | i <= j < r.value :: !OccursAt(s, w, j)
    ensures r.None? ==> forall j | i <= j <= |s| :: !OccursAt(s, w, j)
    decreases |s| - i
  {
    if w <= s[i..] then Some(i)
    else if i == |s| then None
    else FirstIndex(s, w, i + 1)
  }

  // There is only one first occurrence.
  lemma FirstIndexIs(s: string, w: string, i: nat, k: nat)
    requires i <= k <= |s| && OccursAt(s, w, k) && forall j | i <= j < k :: !OccursAt(s, w, j)
    ensures FirstIndex(s, w, i) == Some(k)
  {
  }

  // What follows does not move the first occurrence.
  lemma FirstIndexKept(s: string, w: string, t: string)
    requires w != "" && FirstIndex(s, w, 0).Some?
    ensures FirstIndex(s + t, w, 0) == FirstIndex(s, w, 0)
  {
    var k := FirstIndex(s, w, 0).value;
    forall j | 0 <= j <= k ensures OccursAt(s + t, w, j) <==> OccursAt(s, w, j) {
      assert j + |w| <= |s|;
      assert (s + t)[j..][..|w|] == s[j..][..|w|];
    }
    FirstIndexIs(s + t, w, 0, k);
  }

  // An occurrence that needs what follows ends there.
  lemma FirstIndexLater(s: string, w: string, t: string)
    requires w != "" && FirstIndex(s, w, 0).None? && FirstIndex(s + t, w, 0).Some?
    ensures FirstIndex(s + t, w, 0).value + |w| > |s|
  {
    var k := FirstIndex(s + t, w, 0).value;
    if k + |w| <= |s| { OccursWithin(s, w, t, k); }
  }

  lemma OccursWithin(s: string, w: string, t: string, k: nat)
    requires OccursAt(s + t, w, k) && k + |w| <= |s|
    ensures OccursAt(s, w, k)
  {
    assert (s + t)[k..][..|w|] == s[k..][..|w|];
  }
}
