/** Chains of supersedes links: each id names at most one other, the empty id names none. */
module Links {
  import opened Names

  type Id = Text

  type Named = map<Id, Id>

  /** The id a record names, or the empty id. */
  function Next(s: Named, x: Id): Id {
    if x in s then s[x] else []
  }

  /** The id `n` links on. */
  function Follow(s: Named, x: Id, n: nat): Id
    decreases n
  {
    if n == 0 then x else Follow(s, Next(s, x), n - 1)
  }

  /** No chain comes back to a record it has passed. */
  ghost predicate Acyclic(s: Named) {
    forall x, n: nat :: x != [] && n > 0 ==> Follow(s, x, n) != x
  }

  /** The empty id is no record. */
  predicate Proper(s: Named) {
    [] !in s
  }

  /** Following `m` and then `n` links is following `m + n`. */
  lemma {:induction false} FollowOn(s: Named, x: Id, m: nat, n: nat)
    ensures Follow(s, Follow(s, x, m), n) == Follow(s, x, m + n)
    decreases m
  {
    if m > 0 {
      FollowOn(s, Next(s, x), m - 1, n);
    }
  }

  lemma FollowNext(s: Named, x: Id, n: nat)
    ensures Next(s, Follow(s, x, n)) == Follow(s, x, n + 1)
  {
    FollowOn(s, x, n, 1);
    assert Follow(s, Next(s, Follow(s, x, n)), 0) == Next(s, Follow(s, x, n));
  }

  /** A chain that ended stays ended. */
  lemma {:induction false} EndedStays(s: Named, n: nat)
    requires Proper(s)
    ensures Follow(s, [], n) == []
  {
    if n > 0 {
      EndedStays(s, n - 1);
    }
  }

  /** A chain that never passes `id` is the same with `id` added. */
  lemma {:induction false} SameAway(s: Named, id: Id, named: Id, x: Id, n: nat)
    requires forall j: nat :: j < n ==> Follow(s, x, j) != id
    ensures Follow(s[id := named], x, n) == Follow(s, x, n)
    decreases n
  {
    if n > 0 {
      assert Follow(s, x, 0) != id;
      forall j: nat | j < n - 1
        ensures Follow(s, Next(s, x), j) != id
      {
        assert Follow(s, x, j + 1) != id;
      }
      SameAway(s, id, named, Next(s, x), n - 1);
    }
  }

  /** What the walk of leadsBack has found after `t` links: none of them is `id`, none is empty, and `visited`
      is them and `id`. */
  ghost predicate Walked(s: Named, id: Id, named: Id, t: nat, visited: set<Id>) {
    && (forall j: nat :: j < t ==> Follow(s, named, j) != id && Follow(s, named, j) != [])
    && visited == {id} + Passed(s, named, t)
  }

  /** The first `t` ids of the walk. */
  function Passed(s: Named, named: Id, t: nat): set<Id> {
    if t == 0 then {} else Passed(s, named, t - 1) + {Follow(s, named, t - 1)}
  }

  lemma {:induction false} PassedAt(s: Named, named: Id, t: nat, x: Id) returns (j: nat)
    requires x in Passed(s, named, t)
    ensures j < t && Follow(s, named, j) == x
  {
    if x == Follow(s, named, t - 1) {
      j := t - 1;
    } else {
      j := PassedAt(s, named, t - 1, x);
    }
  }

  /** Meeting a visited id means the new link closes a cycle: in a chain without cycles it can only be `id`. */
  lemma MetIsCycle(s: Named, id: Id, named: Id, t: nat, visited: set<Id>)
    requires Acyclic(s) && id !in s && id != [] && Walked(s, id, named, t, visited)
    requires Follow(s, named, t) in visited && Follow(s, named, t) != []
    ensures Follow(s[id := named], id, t + 1) == id && !Acyclic(s[id := named])
  {
    var met := Follow(s, named, t);
    if met != id {
      var j := PassedAt(s, named, t, met);
      FollowOn(s, named, j, t - j);
    }
    SameAway(s, id, named, named, t);
    assert Next(s[id := named], id) == named;
  }

  /** Reaching the end means it closes none. */
  lemma EndedIsAcyclic(s: Named, id: Id, named: Id, t: nat, visited: set<Id>)
    requires Acyclic(s) && Proper(s) && id !in s && id != [] && Walked(s, id, named, t, visited)
    requires Follow(s, named, t) == []
    ensures Acyclic(s[id := named])
  {
    var s' := s[id := named];
    forall x, n: nat | x != [] && n > 0
      ensures Follow(s', x, n) != x
    {
      if Follow(s', x, n) == x {
        if k: nat :| k < n && Follow(s', x, k) == id {
          Rotated(s', x, n, k);
          NeverBack(s, id, named, t, n - 1);
        } else {
          SameAwayIn(s, s', id, x, n);
        }
      }
    }
  }

  /** A cycle through `x` that passes `id` is one through `id`. */
  lemma Rotated(s: Named, x: Id, n: nat, k: nat)
    requires Follow(s, x, n) == x && k < n
    ensures Follow(s, Follow(s, x, k), n) == Follow(s, x, k)
  {
    FollowOn(s, x, k, n);
    FollowOn(s, x, n, k);
  }

  /** A chain of the larger map that never passes `id` is a chain of the smaller. */
  lemma {:induction false} SameAwayIn(s: Named, s': Named, id: Id, x: Id, n: nat)
    requires id in s' && s' == s[id := s'[id]]
    requires forall j: nat :: j < n ==> Follow(s', x, j) != id
    ensures Follow(s', x, n) == Follow(s, x, n)
    decreases n
  {
    if n > 0 {
      assert Follow(s', x, 0) != id;
      forall j: nat | j < n - 1
        ensures Follow(s', Next(s, x), j) != id
      {
        assert Follow(s', x, j + 1) != id;
      }
      SameAwayIn(s, s', id, Next(s, x), n - 1);
    }
  }

  /** From `named` no number of links leads to `id`. */
  lemma NeverBack(s: Named, id: Id, named: Id, t: nat, n: nat)
    requires Proper(s) && id !in s && id != []
    requires forall j: nat :: j < t ==> Follow(s, named, j) != id
    requires Follow(s, named, t) == []
    ensures Follow(s[id := named], named, n) != id
  {
    forall j: nat
      ensures Follow(s, named, j) != id
    {
      if j >= t {
        FollowOn(s, named, t, j - t);
        EndedStays(s, j - t);
      }
    }
    SameAway(s, id, named, named, n);
  }

  /** leadsBack: the walk ends, and it answers whether the new link would close a cycle. */
  method LeadsBack(s: Named, id: Id, named: Id) returns (back: bool)
    requires Acyclic(s) && Proper(s) && id !in s && id != []
    ensures back <==> !Acyclic(s[id := named])
  {
    var visited, next := {id}, named;
    ghost var t := 0;
    while next != []
      invariant next == Follow(s, named, t)
      invariant Walked(s, id, named, t, visited)
      decreases s.Keys - visited, if next != [] then 1 else 0
    {
      if next in visited {
        MetIsCycle(s, id, named, t, visited);
        return true;
      }
      WalkOn(s, id, named, t, visited);
      FollowNext(s, named, t);
      visited := visited + {next};
      next := Next(s, next);
      t := t + 1;
    }
    EndedIsAcyclic(s, id, named, t, visited);
    return false;
  }

  lemma WalkOn(s: Named, id: Id, named: Id, t: nat, visited: set<Id>)
    requires Walked(s, id, named, t, visited)
    requires Follow(s, named, t) !in visited && Follow(s, named, t) != []
    ensures Walked(s, id, named, t + 1, visited + {Follow(s, named, t)})
  {
  }
}
