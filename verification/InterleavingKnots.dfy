/** Deliveries that have written their ledger rows and are about to take their values can end up waiting for each
    other exactly if their lists are tangled. */
module InterleavingKnots {
  import opened Names
  import opened Drain
  import opened Interleaving
  import opened InterleavingSteps
  import opened InterleavingMappings
  import opened InterleavingTheorems
  import opened InterleavingWaits
  import opened Knots

  /** Every open Prepare has admitted its records and is about to issue its upsert. */
  predicate AtGate(f: Fine) {
    forall t :: t in f.txns && f.txns[t].event.Prepare? ==> Admitted(f.txns[t]) && f.txns[t].mapped == []
  }

  predicate Admitted(x: Txn) {
    x.event.Prepare? && x.stage == Begun && x.count == |x.event.records|
  }

  /** The upserts go on from `f`, and nothing else does. */
  ghost predicate Upserting(cfg: Config, lk: Locking, f: Fine, states: seq<Fine>, acts: seq<Act>) {
    && |states| == |acts| + 1 && states[0] == f
    && forall i :: 0 <= i < |acts| ==> acts[i].MapValue? && FineStep(cfg, lk, states[i], acts[i], states[i + 1])
  }

  /** The upserts alone can lead to transactions that wait for each other. */
  ghost predicate CanStick(cfg: Config, lk: Locking, f: Fine) {
    exists states, acts, waiting :: Sticks(cfg, lk, f, states, acts, waiting)
  }

  ghost predicate Sticks(cfg: Config, lk: Locking, f: Fine, states: seq<Fine>, acts: seq<Act>, waiting: map<TxnId, Pending>) {
    Upserting(cfg, lk, f, states, acts) && Stuck(cfg, lk, states[|acts|], waiting)
  }

  // ---- Stuck upserts are tangled ----------------------------------------------------------------------------

  lemma MapKeepsLists(cfg: Config, lk: Locking, f: Fine, t: TxnId, f': Fine)
    requires FineStep(cfg, lk, f, MapValue(t), f')
    ensures ListsIn(lk, f') == ListsIn(lk, f)
  {
  }

  lemma {:induction false} UpsertingKeeps(cfg: Config, lk: Locking, f: Fine, states: seq<Fine>, acts: seq<Act>, n: nat)
    requires FineInv(cfg, lk, f) && Upserting(cfg, lk, f, states, acts) && n < |states|
    ensures FineInv(cfg, lk, states[n]) && ListsIn(lk, states[n]) == ListsIn(lk, f)
  {
    if n > 0 {
      UpsertingKeeps(cfg, lk, f, states, acts, n - 1);
      FineStepKeeps(cfg, lk, states[n - 1], acts[n - 1], states[n]);
      MapKeepsLists(cfg, lk, states[n - 1], acts[n - 1].t, states[n]);
    }
  }

  // ---- Tangled upserts stick --------------------------------------------------------------------------------

  function Holding(lk: Locking, x: Txn, n: nat): Txn {
    if n <= |Wanted(lk, x)| then x.(mapped := Wanted(lk, x)[..n]) else x
  }

  /** `f`, with each of these deliveries holding so many of its values. */
  function Took(lk: Locking, f: Fine, done: map<TxnId, nat>): Fine {
    f.(txns := map t | t in f.txns :: if t in done then Holding(lk, f.txns[t], done[t]) else f.txns[t])
  }

  /** These are deliveries at the gate, and none goes past its cut. */
  ghost predicate UpTo(lk: Locking, f: Fine, cuts: map<TxnId, nat>, done: map<TxnId, nat>) {
    && AtGate(f) && AllMapped(lk, f.txns) && Knot(ListsIn(lk, f), cuts)
    && done.Keys == cuts.Keys && forall t :: t in done ==> done[t] <= cuts[t]
  }

  lemma UpToMore(lk: Locking, f: Fine, cuts: map<TxnId, nat>, done: map<TxnId, nat>, t: TxnId, n: nat)
    requires UpTo(lk, f, cuts, done) && t in cuts && n <= cuts[t]
    ensures UpTo(lk, f, cuts, done[t := n])
  {
  }

  /** The next value of one of them is free: the others hold only values before their cuts. */
  lemma NextIsFree(lk: Locking, f: Fine, cuts: map<TxnId, nat>, done: map<TxnId, nat>, t: TxnId, u: TxnId)
    requires UpTo(lk, f, cuts, done) && t in cuts && done[t] < cuts[t] && u in f.txns && u != t
    ensures t in f.txns && ListsIn(lk, f)[t][done[t]] !in Took(lk, f, done).txns[u].mapped
  {
    var lists := ListsIn(lk, f);
    assert lists[t][done[t]] in lists[t][..cuts[t]];
    if u in cuts {
      assert NoneShared(lists[t][..cuts[t]], lists[u][..cuts[u]]);
    } else {
      assert MappedOk(lk, f.txns[u]);
    }
  }

  lemma TakeOne(cfg: Config, lk: Locking, f: Fine, cuts: map<TxnId, nat>, done: map<TxnId, nat>, t: TxnId)
    requires UpTo(lk, f, cuts, done) && t in cuts && done[t] < cuts[t]
    ensures FineStep(cfg, lk, Took(lk, f, done), MapValue(t), Took(lk, f, done[t := done[t] + 1]))
  {
    var g := Took(lk, f, done);
    TakeIsNext(lk, f, cuts, done, t);
    forall u | u in g.txns && u != t
      ensures NextValue(lk, g.txns[t]) !in g.txns[u].mapped
    {
      NextIsFree(lk, f, cuts, done, t, u);
    }
    assert MappingFree(g, t, NextValue(lk, g.txns[t]));
    TookNext(lk, f, done, t);
  }

  lemma TakeIsNext(lk: Locking, f: Fine, cuts: map<TxnId, nat>, done: map<TxnId, nat>, t: TxnId)
    requires UpTo(lk, f, cuts, done) && t in cuts && done[t] < cuts[t]
    ensures t in f.txns && Admitted(f.txns[t]) && done[t] < |Wanted(lk, f.txns[t])|
    ensures AtValue(lk, Took(lk, f, done).txns[t]) && NextValue(lk, Took(lk, f, done).txns[t]) == ListsIn(lk, f)[t][done[t]]
  {
    assert Admitted(f.txns[t]);
  }

  lemma TookNext(lk: Locking, f: Fine, done: map<TxnId, nat>, t: TxnId)
    requires t in f.txns && t in done && Admitted(f.txns[t]) && done[t] < |Wanted(lk, f.txns[t])|
    ensures var g, x := Took(lk, f, done), Took(lk, f, done).txns[t];
            AtValue(lk, x) && g.(txns := g.txns[t := x.(mapped := x.mapped + [NextValue(lk, x)])]) == Took(lk, f, done[t := done[t] + 1])
  {
    var g, x, list := Took(lk, f, done), Took(lk, f, done).txns[t], Wanted(lk, f.txns[t]);
    assert list[..done[t]] + [list[done[t]]] == list[..done[t] + 1];
    assert g.txns[t := x.(mapped := x.mapped + [NextValue(lk, x)])] == Took(lk, f, done[t := done[t] + 1]).txns;
  }

  lemma First(cfg: Config, lk: Locking, f: Fine, a: Act, f': Fine, states: seq<Fine>, acts: seq<Act>)
    requires a.MapValue? && FineStep(cfg, lk, f, a, f') && Upserting(cfg, lk, f', states, acts)
    ensures Upserting(cfg, lk, f, [f] + states, [a] + acts) && ([f] + states)[|[a] + acts|] == states[|acts|]
  {
    forall i | 0 <= i < |[a] + acts|
      ensures ([a] + acts)[i].MapValue? && FineStep(cfg, lk, ([f] + states)[i], ([a] + acts)[i], ([f] + states)[i + 1])
    {
      if i > 0 {
        assert ([a] + acts)[i] == acts[i - 1] && ([f] + states)[i] == states[i - 1] && ([f] + states)[i + 1] == states[i];
      }
    }
  }

  lemma Joined(cfg: Config, lk: Locking, f: Fine, s1: seq<Fine>, a1: seq<Act>, s2: seq<Fine>, a2: seq<Act>)
    requires Upserting(cfg, lk, f, s1, a1) && Upserting(cfg, lk, s1[|a1|], s2, a2)
    ensures Upserting(cfg, lk, f, s1 + s2[1..], a1 + a2) && (s1 + s2[1..])[|a1 + a2|] == s2[|a2|]
  {
    var states, acts := s1 + s2[1..], a1 + a2;
    forall i | 0 <= i < |acts|
      ensures acts[i].MapValue? && FineStep(cfg, lk, states[i], acts[i], states[i + 1])
    {
      if i >= |a1| {
        assert acts[i] == a2[i - |a1|] && states[i] == s2[i - |a1|] && states[i + 1] == s2[i - |a1| + 1];
      }
    }
  }

  lemma TakeNth(cfg: Config, lk: Locking, f: Fine, cuts: map<TxnId, nat>, done: map<TxnId, nat>, t: TxnId, n: nat)
    requires UpTo(lk, f, cuts, done) && t in cuts && n < cuts[t]
    ensures FineStep(cfg, lk, Took(lk, f, done[t := n]), MapValue(t), Took(lk, f, done[t := n + 1]))
  {
    UpToMore(lk, f, cuts, done, t, n);
    TakeOne(cfg, lk, f, cuts, done[t := n], t);
    assert done[t := n][t := n + 1] == done[t := n + 1];
  }

  /** One delivery takes its values up to its cut. */
  lemma {:induction false} TakeUpTo(cfg: Config, lk: Locking, f: Fine, cuts: map<TxnId, nat>, done: map<TxnId, nat>, t: TxnId, n: nat)
    returns (states: seq<Fine>, acts: seq<Act>)
    requires UpTo(lk, f, cuts, done) && t in cuts && n <= cuts[t]
    ensures Upserting(cfg, lk, Took(lk, f, done[t := n]), states, acts) && states[|acts|] == Took(lk, f, done[t := cuts[t]])
    decreases cuts[t] - n
  {
    var g := Took(lk, f, done[t := n]);
    if n == cuts[t] {
      states, acts := [g], [];
    } else {
      var rest, later := TakeUpTo(cfg, lk, f, cuts, done, t, n + 1);
      TakeNth(cfg, lk, f, cuts, done, t, n);
      First(cfg, lk, g, MapValue(t), Took(lk, f, done[t := n + 1]), rest, later);
      states, acts := [g] + rest, [MapValue(t)] + later;
    }
  }

  lemma TakeToCut(cfg: Config, lk: Locking, f: Fine, cuts: map<TxnId, nat>, done: map<TxnId, nat>, t: TxnId)
    returns (states: seq<Fine>, acts: seq<Act>)
    requires UpTo(lk, f, cuts, done) && t in cuts
    ensures Upserting(cfg, lk, Took(lk, f, done), states, acts) && states[|acts|] == Took(lk, f, done[t := cuts[t]])
    ensures UpTo(lk, f, cuts, done[t := cuts[t]])
  {
    UpToMore(lk, f, cuts, done, t, cuts[t]);
    states, acts := TakeUpTo(cfg, lk, f, cuts, done, t, done[t]);
    assert done[t := done[t]] == done;
  }

  /** And the others after it. */
  lemma {:induction false} TakeAll(cfg: Config, lk: Locking, f: Fine, cuts: map<TxnId, nat>, done: map<TxnId, nat>, left: set<TxnId>)
    returns (states: seq<Fine>, acts: seq<Act>)
    requires UpTo(lk, f, cuts, done) && left <= cuts.Keys && forall t :: t in cuts && t !in left ==> done[t] == cuts[t]
    ensures Upserting(cfg, lk, Took(lk, f, done), states, acts) && states[|acts|] == Took(lk, f, cuts)
    decreases |left|
  {
    if left == {} {
      states, acts := [Took(lk, f, done)], [];
      assert done == cuts;
    } else {
      var t :| t in left;
      var s1, a1 := TakeToCut(cfg, lk, f, cuts, done, t);
      var s2, a2 := TakeAll(cfg, lk, f, cuts, done[t := cuts[t]], left - {t});
      Joined(cfg, lk, Took(lk, f, done), s1, a1, s2, a2);
      states, acts := s1 + s2[1..], a1 + a2;
    }
  }

  /** What each of them then waits for. */
  function NextValues(lk: Locking, f: Fine, cuts: map<TxnId, nat>): map<TxnId, Pending>
    requires cuts.Keys <= ListsIn(lk, f).Keys && forall t :: t in cuts ==> cuts[t] < |ListsIn(lk, f)[t]|
  {
    map t | t in cuts :: ForMapping(ListsIn(lk, f)[t][cuts[t]])
  }

  lemma CutIssues(cfg: Config, lk: Locking, f: Fine, cuts: map<TxnId, nat>, t: TxnId)
    requires UpTo(lk, f, cuts, cuts) && t in cuts
    ensures t in Took(lk, f, cuts).txns && Issues(cfg, lk, Took(lk, f, cuts), t, NextValues(lk, f, cuts)[t])
  {
    assert Admitted(f.txns[t]);
  }

  lemma CutWaits(cfg: Config, lk: Locking, f: Fine, cuts: map<TxnId, nat>, t: TxnId)
    requires UpTo(lk, f, cuts, cuts) && t in cuts
    ensures NextValues(lk, f, cuts).Keys <= Took(lk, f, cuts).txns.Keys && WaitsInside(Took(lk, f, cuts), NextValues(lk, f, cuts), t)
  {
    var g, waiting := Took(lk, f, cuts), NextValues(lk, f, cuts);
    assert Fed(ListsIn(lk, f), cuts, t);
    var u :| NeedsFrom(ListsIn(lk, f), cuts, t, u);
    assert u in waiting && WaitsFor(g, waiting[t], t, u);
  }

  /** At their cuts they are stuck. */
  lemma KnotSticks(cfg: Config, lk: Locking, f: Fine, cuts: map<TxnId, nat>)
    requires UpTo(lk, f, cuts, cuts)
    ensures Stuck(cfg, lk, Took(lk, f, cuts), NextValues(lk, f, cuts))
  {
    forall t | t in cuts
      ensures t in Took(lk, f, cuts).txns && Issues(cfg, lk, Took(lk, f, cuts), t, NextValues(lk, f, cuts)[t])
    {
      CutIssues(cfg, lk, f, cuts, t);
    }
    forall t | t in cuts
      ensures NextValues(lk, f, cuts).Keys <= Took(lk, f, cuts).txns.Keys && WaitsInside(Took(lk, f, cuts), NextValues(lk, f, cuts), t)
    {
      CutWaits(cfg, lk, f, cuts, t);
    }
  }

  lemma NothingTaken(lk: Locking, f: Fine, cuts: map<TxnId, nat>, none: map<TxnId, nat>)
    requires AtGate(f) && cuts.Keys <= ListsIn(lk, f).Keys && none == (map t | t in cuts :: 0)
    ensures Took(lk, f, none) == f
  {
    assert Took(lk, f, none).txns == f.txns;
  }

  lemma KnotCanStick(cfg: Config, lk: Locking, f: Fine, cuts: map<TxnId, nat>)
    requires AtGate(f) && AllMapped(lk, f.txns) && Knot(ListsIn(lk, f), cuts)
    ensures CanStick(cfg, lk, f)
  {
    var none: map<TxnId, nat> := map t | t in cuts :: 0;
    NothingTaken(lk, f, cuts, none);
    var states, acts := TakeAll(cfg, lk, f, cuts, none, cuts.Keys);
    KnotSticks(cfg, lk, f, cuts);
    assert Sticks(cfg, lk, f, states, acts, NextValues(lk, f, cuts));
  }

  // ---- The exact condition ----------------------------------------------------------------------------------

  /** Deliveries about to take their values can come to wait for each other exactly if their lists, which are known
      before any value is taken, are tangled. */
  lemma StickExactlyIfTangled(cfg: Config, lk: Locking, f: Fine)
    requires FineInv(cfg, lk, f) && AtGate(f)
    ensures CanStick(cfg, lk, f) <==> Tangled(ListsIn(lk, f))
  {
    if CanStick(cfg, lk, f) {
      var states, acts, waiting :| Sticks(cfg, lk, f, states, acts, waiting);
      UpsertingKeeps(cfg, lk, f, states, acts, |acts|);
      DeadlockIsAKnot(cfg, lk, states[|acts|], waiting);
    }
    if Tangled(ListsIn(lk, f)) {
      var cuts :| Knot(ListsIn(lk, f), cuts);
      KnotCanStick(cfg, lk, f, cuts);
    }
  }

  /** Two deliveries can exactly if they share a value and do not name the same shared value first. */
  lemma TwoStickExactlyIfCrossed(cfg: Config, lk: Locking, f: Fine, t: TxnId, u: TxnId)
    requires FineInv(cfg, lk, f) && AtGate(f) && t in f.txns && u in f.txns && t != u
    requires f.txns[t].event.Prepare? && f.txns[u].event.Prepare?
    requires forall v :: v in f.txns && f.txns[v].event.Prepare? ==> v == t || v == u
    ensures CanStick(cfg, lk, f) <==> Crossed(Wanted(lk, f.txns[t]), Wanted(lk, f.txns[u]))
  {
    StickExactlyIfTangled(cfg, lk, f);
    ListsOfTwo(lk, f, t, u);
    PairTangled(t, Wanted(lk, f.txns[t]), u, Wanted(lk, f.txns[u]));
  }

  lemma ListsOfTwo(lk: Locking, f: Fine, t: TxnId, u: TxnId)
    requires t in f.txns && u in f.txns && f.txns[t].event.Prepare? && f.txns[u].event.Prepare?
    requires forall v :: v in f.txns && f.txns[v].event.Prepare? ==> v == t || v == u
    ensures ListsIn(lk, f) == map[t := Wanted(lk, f.txns[t]), u := Wanted(lk, f.txns[u])]
  {
  }
}
