/** When transactions that each take a list of values one by one, and hold what they took, can end up waiting for
    each other. */
module Knots {
  import opened Lists

  predicate NoneShared<T(==)>(a: seq<T>, b: seq<T>) {
    forall x :: x in a ==> x !in b
  }

  /** Each of these holds the values of its list before its cut, no two hold the same value, and the value each
      needs next is held by another. */
  ghost predicate Knot<K(!new), T(!new)>(lists: map<K, seq<T>>, cuts: map<K, nat>) {
    && cuts.Keys != {} && cuts.Keys <= lists.Keys
    && (forall k :: k in cuts ==> cuts[k] < |lists[k]|)
    && (forall k {:trigger Fed(lists, cuts, k)} :: k in cuts ==> Fed(lists, cuts, k))
    && (forall j, k :: j in cuts && k in cuts && j != k ==> NoneShared(lists[j][..cuts[j]], lists[k][..cuts[k]]))
  }

  ghost predicate Fed<K(!new), T(!new)>(lists: map<K, seq<T>>, cuts: map<K, nat>, k: K)
    requires cuts.Keys <= lists.Keys && k in cuts && cuts[k] < |lists[k]|
  {
    exists j :: NeedsFrom(lists, cuts, k, j)
  }

  ghost predicate NeedsFrom<K(!new), T(!new)>(lists: map<K, seq<T>>, cuts: map<K, nat>, k: K, j: K)
    requires cuts.Keys <= lists.Keys && k in cuts && cuts[k] < |lists[k]|
  {
    j in cuts && j != k && cuts[j] <= |lists[j]| && lists[k][cuts[k]] in lists[j][..cuts[j]]
  }

  ghost predicate Tangled<K(!new), T(!new)>(lists: map<K, seq<T>>) {
    exists cuts :: Knot(lists, cuts)
  }

  // ---- Two lists -----------------------------------------------------------------------------------------

  /** The first position of `a` whose value is in `b`. */
  function FirstIn<T(==)>(a: seq<T>, b: seq<T>): (i: nat)
    ensures i <= |a| && (forall k :: 0 <= k < i ==> a[k] !in b) && (i < |a| ==> a[i] in b)
  {
    if a == [] || a[0] in b then 0 else 1 + FirstIn(a[1..], b)
  }

  /** They share a value, and the first shared value of the one is not the first shared value of the other. */
  predicate Crossed<T(==)>(a: seq<T>, b: seq<T>) {
    FirstIn(a, b) < |a| && FirstIn(b, a) < |b| && a[FirstIn(a, b)] != b[FirstIn(b, a)]
  }

  /** Two lists are tangled exactly if they are crossed. */
  lemma PairTangled<K(!new), T(!new)>(j: K, a: seq<T>, k: K, b: seq<T>)
    requires j != k
    ensures Tangled(map[j := a, k := b]) <==> Crossed(a, b)
  {
    var lists := map[j := a, k := b];
    if Tangled(lists) {
      var cuts :| Knot(lists, cuts);
      KnotOfTwo(j, a, k, b, cuts);
    }
    if Crossed(a, b) {
      CrossedKnot(j, a, k, b);
    }
  }

  lemma KnotOfTwo<K(!new), T(!new)>(j: K, a: seq<T>, k: K, b: seq<T>, cuts: map<K, nat>)
    requires j != k && Knot(map[j := a, k := b], cuts)
    ensures Crossed(a, b)
  {
    var lists := map[j := a, k := b];
    var some :| some in cuts;
    assert Fed(lists, cuts, some);
    var other :| NeedsFrom(lists, cuts, some, other);
    assert {j, k} == {some, other};
    assert j in cuts && k in cuts;
    assert Fed(lists, cuts, j) && Fed(lists, cuts, k);
    var jk :| NeedsFrom(lists, cuts, j, jk);
    var kj :| NeedsFrom(lists, cuts, k, kj);
    assert jk == k && kj == j;
    FirstHeld(a, b, cuts[j], b[cuts[k]]);
    FirstHeld(b, a, cuts[k], a[cuts[j]]);
    assert NoneShared(a[..cuts[j]], b[..cuts[k]]);
  }

  /** Whoever holds a shared value holds its first one. */
  lemma FirstHeld<T>(a: seq<T>, b: seq<T>, n: nat, x: T)
    requires n <= |a| && x in a[..n] && x in b
    ensures FirstIn(a, b) < n && a[FirstIn(a, b)] in a[..n]
  {
    var i :| 0 <= i < n && a[..n][i] == x;
    assert a[i] == x;
  }

  /** Where two crossed lists stop each other: the first list before the other's first shared value, the second
      before the first value that the first list then holds. */
  lemma CrossedCuts<T>(a: seq<T>, b: seq<T>) returns (m: nat, n: nat)
    requires Crossed(a, b)
    ensures m < |a| && n < |b| && a[m] in b[..n] && b[n] in a[..m] && NoneShared(a[..m], b[..n])
  {
    var y := b[FirstIn(b, a)];
    m := FirstIn(a, [y]);
    var held := a[..m];
    n := FirstIn(b, held);
    assert a[FirstIn(a, b)] in held;
    assert b[FirstIn(b, a)] in b[..n];
  }

  lemma CrossedKnot<K(!new), T(!new)>(j: K, a: seq<T>, k: K, b: seq<T>)
    requires j != k && Crossed(a, b)
    ensures Tangled(map[j := a, k := b])
  {
    var m, n := CrossedCuts(a, b);
    var lists, cuts := map[j := a, k := b], map[j := m, k := n];
    assert NeedsFrom(lists, cuts, j, k) && NeedsFrom(lists, cuts, k, j);
    assert Knot(lists, cuts);
  }

  // ---- One order -----------------------------------------------------------------------------------------

  predicate Rises<T(!new)>(s: seq<T>, rank: T -> int) {
    forall i, j :: 0 <= i < j < |s| ==> rank(s[i]) < rank(s[j])
  }

  /** Lists that all rise in one order are never tangled, however many there are. */
  lemma OneOrderUntangles<K(!new), T(!new)>(lists: map<K, seq<T>>, rank: T -> int)
    requires forall k :: k in lists ==> Rises(lists[k], rank)
    ensures !Tangled(lists)
  {
    if Tangled(lists) {
      var cuts :| Knot(lists, cuts);
      var k :| k in cuts;
      NeedsClimb(lists, rank, cuts, k, cuts.Keys);
    }
  }

  /** Whoever holds what `k` needs next needs something higher: a climb that never ends, through ever fewer. */
  lemma {:induction false} NeedsClimb<K(!new), T(!new)>(lists: map<K, seq<T>>, rank: T -> int, cuts: map<K, nat>, k: K, left: set<K>)
    requires Knot(lists, cuts) && forall j :: j in lists ==> Rises(lists[j], rank)
    requires k in cuts && k in left
    requires forall j :: j in cuts && rank(lists[j][cuts[j]]) >= rank(lists[k][cuts[k]]) ==> j in left
    ensures false
    decreases |left|
  {
    assert Fed(lists, cuts, k);
    var j :| NeedsFrom(lists, cuts, k, j);
    NeedsClimb(lists, rank, cuts, j, left - {k});
  }
}
