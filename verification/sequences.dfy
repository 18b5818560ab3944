/**
 * What JavaScript's `Array.prototype.filter` keeps: the elements that pass
 * the test, each as often as it occurs, in their original order. Shared by
 * the delete handlers and the transaction history.
 */
module Sequences {

  /** `sub` is `s` with some elements deleted: its elements occur in `s`, in the same order. */
  ghost predicate IsSubsequence<T>(sub: seq<T>, s: seq<T>)
    decreases |s|
  {
    if |sub| == 0 then true
    else if |s| == 0 then false
    else if sub[0] == s[0] then IsSubsequence(sub[1..], s[1..])
    else IsSubsequence(sub, s[1..])
  }

  /** Deciding the first element extends a selection from the others to the whole list. */
  lemma FilterStep<T>(ts: seq<T>, rest: seq<T>, r: seq<T>, keep: T -> bool)
    requires |ts| > 0
    requires forall t :: multiset(rest)[t] == if keep(t) then multiset(ts[1..])[t] else 0
    requires r == if keep(ts[0]) then [ts[0]] + rest else rest
    ensures forall t :: multiset(r)[t] == if keep(t) then multiset(ts)[t] else 0
    ensures forall t :: t in r <==> t in ts && keep(t)
  {
    assert multiset(ts) == multiset{ts[0]} + multiset(ts[1..]) by {
      assert ts == [ts[0]] + ts[1..];
    }
    assert multiset(r) == (if keep(ts[0]) then multiset{ts[0]} else multiset{}) + multiset(rest);
    forall t ensures t in r <==> t in ts && keep(t) {
      assert t in r <==> multiset(r)[t] > 0;
      assert t in ts <==> multiset(ts)[t] > 0;
    }
  }

  /** Deciding the first element keeps the selection in the list's order. */
  lemma FilterStepOrder<T>(ts: seq<T>, rest: seq<T>, r: seq<T>, keep: T -> bool)
    requires |ts| > 0
    requires IsSubsequence(rest, ts[1..])
    requires forall t :: t in rest ==> keep(t)
    requires r == if keep(ts[0]) then [ts[0]] + rest else rest
    ensures IsSubsequence(r, ts)
  {
    if keep(ts[0]) {
      assert r[1..] == rest;
    } else if |rest| > 0 {
      assert keep(rest[0]);
    }
  }
}
