/** Every interleaving of lock, statement and commit steps goes through the states of one run of the drain's atomic
    events, so what `DrainTheorems` promises of runs holds of what interleavings commit. */
module InterleavingTheorems {
  import opened Names
  import opened Queue
  import Ledger
  import opened Drain
  import opened DrainTables
  import opened DrainWorkers
  import opened DrainHistory
  import opened DrainRecords
  import opened DrainTheorems
  import opened Interleaving
  import opened InterleavingTxns
  import opened InterleavingCommit
  import opened InterleavingSteps
  import opened InterleavingMappings

  ghost predicate AllSeparate(txns: map<TxnId, Txn>) {
    forall t, u :: t in txns && u in txns && t != u ==> Separate(txns[t], txns[u])
  }

  ghost predicate AllOk(cfg: Config, lk: Locking, s: Sys, txns: map<TxnId, Txn>) {
    forall t :: t in txns ==> TxnOk(cfg, lk, s, txns[t])
  }

  ghost predicate AllBelow(f: Fine) {
    && PlacesBelow(f.sys.db.rows, f.nextPlace)
    && forall t :: t in f.txns ==> PlacesBelow(f.txns[t].rows, f.nextPlace)
  }

  ghost predicate FineInv(cfg: Config, lk: Locking, f: Fine) {
    Inv(cfg, f.sys) && AllOk(cfg, lk, f.sys, f.txns) && AllSeparate(f.txns) && AllBelow(f) && AllMapped(lk, f.txns)
  }

  // ---- One step ------------------------------------------------------------------------------------

  lemma StatementKeeps(cfg: Config, lk: Locking, f: Fine, a: Act)
    requires FineInv(cfg, lk, f) && IsStatement(a) && Open(f, a) && Can(cfg, lk, f, a)
    ensures FineInv(cfg, lk, After(cfg, lk, f, a)) && After(cfg, lk, f, a).sys == f.sys
  {
    WorkOk(cfg, lk, f, a, Work(cfg, lk, f, a));
    WorkGrows(cfg, lk, f, a);
    WorkPlaces(cfg, lk, f, a);
    StatementMaps(cfg, lk, f, a);
    AfterStatement(cfg, lk, f, a);
    ReplacedKeeps(cfg, lk, f, a.t, Work(cfg, lk, f, a), After(cfg, lk, f, a));
  }

  lemma AfterStatement(cfg: Config, lk: Locking, f: Fine, a: Act)
    requires IsStatement(a) && Open(f, a) && Can(cfg, lk, f, a)
    ensures After(cfg, lk, f, a)
         == Fine(f.sys, f.txns[a.t := Work(cfg, lk, f, a)], if a.InsertRow? || a.RequeueRow? then f.nextPlace + 1 else f.nextPlace)
  {
  }

  lemma ReplacedKeeps(cfg: Config, lk: Locking, f: Fine, t: TxnId, x': Txn, f': Fine)
    requires FineInv(cfg, lk, f) && t in f.txns && f'.sys == f.sys && f'.txns == f.txns[t := x'] && f.nextPlace <= f'.nextPlace
    requires TxnOk(cfg, lk, f.sys, x') && Grows(cfg, lk, f, t, x') && PlacesBelow(x'.rows, f'.nextPlace) && AllMapped(lk, f'.txns)
    ensures FineInv(cfg, lk, f')
  {
    ReplacedSeparate(cfg, lk, f, t, x');
    ReplacedBelow(f, t, x', f');
  }

  lemma ReplacedBelow(f: Fine, t: TxnId, x': Txn, f': Fine)
    requires AllBelow(f) && t in f.txns && f'.sys == f.sys && f'.txns == f.txns[t := x'] && f.nextPlace <= f'.nextPlace
    requires PlacesBelow(x'.rows, f'.nextPlace)
    ensures AllBelow(f')
  {
  }

  lemma ReplacedSeparate(cfg: Config, lk: Locking, f: Fine, t: TxnId, x': Txn)
    requires AllOk(cfg, lk, f.sys, f.txns) && AllSeparate(f.txns) && t in f.txns && Grows(cfg, lk, f, t, x')
    ensures AllSeparate(f.txns[t := x'])
  {
    forall u | u in f.txns && u != t
      ensures Separate(x', f.txns[u]) && Separate(f.txns[u], x')
    {
      AcceptKnown(cfg, lk, f.sys, f.txns[u]);
      GrowsSeparate(cfg, lk, f, t, u, x');
    }
  }

  lemma AcceptKnown(cfg: Config, lk: Locking, s: Sys, x: Txn)
    requires TxnOk(cfg, lk, s, x)
    ensures x.event.Accept? ==> AcceptOk(lk, s.db, x, x.event)
  {
  }

  lemma BeginKeeps(cfg: Config, lk: Locking, f: Fine, t: TxnId, e: Event)
    requires FineInv(cfg, lk, f) && t !in f.txns && MayStart(cfg, f.sys, e) && Idle(f, e) && TokenUnused(f, e)
    ensures FineInv(cfg, lk, f.(txns := f.txns[t := Opened(e, f.sys.now)]))
  {
    BeginOk(cfg, lk, f.sys, e, Opened(e, f.sys.now));
    BeginSeparate(f, t, e);
    BeginMaps(lk, f.txns, t, Opened(e, f.sys.now));
  }

  lemma BeginSeparate(f: Fine, t: TxnId, e: Event)
    requires AllSeparate(f.txns) && t !in f.txns && Idle(f, e) && TokenUnused(f, e)
    ensures AllSeparate(f.txns[t := Opened(e, f.sys.now)])
  {
  }

  lemma BeginMaps(lk: Locking, txns: map<TxnId, Txn>, t: TxnId, x: Txn)
    requires AllMapped(lk, txns) && t !in txns && x.mapped == [] && x.stage == Begun
    ensures AllMapped(lk, txns[t := x])
  {
  }

  /** A transaction that ends leaves the others apart. */
  lemma EndedApart(lk: Locking, txns: map<TxnId, Txn>, t: TxnId)
    requires AllSeparate(txns) && AllMapped(lk, txns)
    ensures AllSeparate(txns - {t}) && AllMapped(lk, txns - {t})
  {
  }

  lemma AbortKeeps(cfg: Config, lk: Locking, f: Fine, t: TxnId)
    requires FineInv(cfg, lk, f) && t in f.txns
    ensures FineInv(cfg, lk, f.(txns := f.txns - {t}))
  {
    EndedApart(lk, f.txns, t);
  }

  lemma CommitKeeps(cfg: Config, lk: Locking, f: Fine, t: TxnId)
    requires FineInv(cfg, lk, f) && t in f.txns && Finished(f.txns[t])
    ensures IsEvent(cfg, f.sys, f.txns[t])
    ensures FineInv(cfg, lk, f.(sys := Committed(f.sys, f.txns[t]), txns := f.txns - {t}))
  {
    CommitIsEvent(cfg, lk, f.sys, f.txns[t]);
    InvStep(cfg, f.sys, f.txns[t].event);
    CommitOthers(cfg, lk, f, t);
    EndedApart(lk, f.txns, t);
    CommitBelow(f, t);
  }

  lemma CommitOthers(cfg: Config, lk: Locking, f: Fine, t: TxnId)
    requires QueueOk(f.sys.db.rows) && HandlesOk(f.sys)
    requires AllOk(cfg, lk, f.sys, f.txns) && AllSeparate(f.txns) && t in f.txns && Finished(f.txns[t])
    ensures AllOk(cfg, lk, Committed(f.sys, f.txns[t]), f.txns - {t})
  {
    var s, y := f.sys, f.txns[t];
    forall u | u in f.txns - {t}
      ensures TxnOk(cfg, lk, Committed(s, y), f.txns[u])
    {
      CommitApart(cfg, lk, s, f.txns[u], y);
      TxnStays(cfg, lk, s, Committed(s, y), f.txns[u]);
    }
  }

  lemma CommitBelow(f: Fine, t: TxnId)
    requires AllBelow(f) && t in f.txns
    ensures AllBelow(f.(sys := Committed(f.sys, f.txns[t]), txns := f.txns - {t}))
  {
  }

  lemma DirectKeepsInv(cfg: Config, lk: Locking, f: Fine, e: Event)
    requires FineInv(cfg, lk, f) && IsDirect(e) && Enabled(cfg, f.sys, e) && Idle(f, e)
    ensures FineInv(cfg, lk, f.(sys := Apply(cfg, f.sys, e)))
  {
    InvStep(cfg, f.sys, e);
    DirectKeeps(cfg, f.sys, e);
    forall u | u in f.txns
      ensures TxnOk(cfg, lk, Apply(cfg, f.sys, e), f.txns[u])
    {
      DirectApart(cfg, lk, f.sys, f.txns[u], e);
      TxnStays(cfg, lk, f.sys, Apply(cfg, f.sys, e), f.txns[u]);
    }
  }

  // ---- Every interleaving ------------------------------------------------------------------------------

  /** A step changes nothing that is committed, or is one atomic event of the drain. */
  ghost predicate Refines(cfg: Config, s: Sys, s': Sys) {
    s' == s || exists e :: Step(cfg, s, e, s')
  }

  lemma FineStepKeeps(cfg: Config, lk: Locking, f: Fine, a: Act, f': Fine)
    requires FineInv(cfg, lk, f) && FineStep(cfg, lk, f, a, f')
    ensures FineInv(cfg, lk, f') && Refines(cfg, f.sys, f'.sys)
  {
    if a.Direct? {
      DirectKeepsInv(cfg, lk, f, a.e);
      assert Step(cfg, f.sys, a.e, f'.sys);
    } else if a.Begin? {
      BeginKeeps(cfg, lk, f, a.t, a.e);
    } else if a.Commit? {
      CommitKeeps(cfg, lk, f, a.t);
      assert Step(cfg, f.sys, f.txns[a.t].event, f'.sys);
    } else if a.Abort? {
      AbortKeeps(cfg, lk, f, a.t);
    } else {
      StatementKeeps(cfg, lk, f, a);
    }
  }

  lemma {:induction false} EveryInterleaving(cfg: Config, lk: Locking, states: seq<Fine>, acts: seq<Act>, n: nat)
    requires FineRun(cfg, lk, states, acts) && n < |states|
    ensures FineInv(cfg, lk, states[n])
    ensures n > 0 ==> Refines(cfg, states[n - 1].sys, states[n].sys)
  {
    if n == 0 {
      InvEmpty(cfg);
    } else {
      EveryInterleaving(cfg, lk, states, acts, n - 1);
      FineStepKeeps(cfg, lk, states[n - 1], acts[n - 1], states[n]);
    }
  }

  /** The committed states of an interleaving, one after the other, are these states of the run. */
  predicate Follows(states: seq<Fine>, n: nat, run: seq<Sys>, at: seq<nat>) {
    && n < |states| && |at| == n + 1 && |run| == at[n] + 1
    && (forall m :: 0 <= m <= n ==> at[m] < |run| && run[at[m]] == states[m].sys)
    && (forall l, m :: 0 <= l <= m <= n ==> at[l] <= at[m])
  }

  /** What any interleaving commits, state by state, is what one run of atomic events goes through. */
  lemma {:induction false} InterleavingsAreRuns(cfg: Config, lk: Locking, states: seq<Fine>, acts: seq<Act>, n: nat)
    returns (run: seq<Sys>, events: seq<Event>, at: seq<nat>)
    requires FineRun(cfg, lk, states, acts) && n < |states|
    ensures Run(cfg, run, events) && Follows(states, n, run, at)
  {
    if n == 0 {
      run, events, at := [EMPTY], [], [0];
    } else {
      run, events, at := InterleavingsAreRuns(cfg, lk, states, acts, n - 1);
      EveryInterleaving(cfg, lk, states, acts, n);
      run, events, at := FollowStep(cfg, states, n, run, events, at);
    }
  }

  lemma FollowStep(cfg: Config, states: seq<Fine>, n: nat, run: seq<Sys>, events: seq<Event>, at: seq<nat>)
    returns (run': seq<Sys>, events': seq<Event>, at': seq<nat>)
    requires 0 < n < |states| && Run(cfg, run, events) && Follows(states, n - 1, run, at) && Refines(cfg, states[n - 1].sys, states[n].sys)
    ensures Run(cfg, run', events') && Follows(states, n, run', at')
  {
    if states[n].sys == states[n - 1].sys {
      run', events', at' := run, events, at + [at[n - 1]];
    } else {
      var e :| Step(cfg, states[n - 1].sys, e, states[n].sys);
      ExtendRun(cfg, run, events, e, states[n].sys);
      run', events', at' := run + [states[n].sys], events + [e], at + [at[n - 1] + 1];
    }
  }

  /** In every interleaving, every committed state gives each queue with unfinished rows exactly one head,
      the unfinished row with the lowest seq; so StrandedKeys answers nothing; and at most one row of a
      queue is leased. */
  lemma HeadsInEveryInterleaving(cfg: Config, lk: Locking, states: seq<Fine>, acts: seq<Act>, n: nat, key: Key)
    requires FineRun(cfg, lk, states, acts) && n < |states|
    ensures var rows := states[n].sys.db.rows;
            && (Busy(rows, key) <==> exists id :: id in rows && rows[id].key == key && rows[id].isHead)
            && (forall a :: a in rows && rows[a].isHead ==> IsLowest(rows, a))
            && (forall a, b :: a in rows && b in rows && rows[a].key == rows[b].key == key && rows[a].isHead && rows[b].isHead ==> a == b)
            && (forall a :: a in rows && rows[a].lease.Held? ==> rows[a].isHead)
            && !Stranded(rows, key)
  {
    var run, events, at := InterleavingsAreRuns(cfg, lk, states, acts, n);
    QueueInEveryRun(cfg, run, events, at[n], key);
  }

  /** In every interleaving of Prepare transactions under entity locks, each entity's ledger rows form one
      forward supersedes path ending at its only head, which nothing admitted or held back is above. */
  lemma ChainsInEveryInterleaving(cfg: Config, lk: Locking, states: seq<Fine>, acts: seq<Act>, n: nat, e: Entity)
    requires FineRun(cfg, lk, states, acts) && n < |states|
    ensures exists path :: Ledger.IsPath(cfg.compare, states[n].sys.db.ledger, e, path)
    ensures forall r :: r in states[n].sys.decided && r.entity == e ==> Ledger.BelowHead(cfg.compare, states[n].sys.db.ledger, r)
  {
    var run, events, at := InterleavingsAreRuns(cfg, lk, states, acts, n);
    ChainsInEveryRun(cfg, run, events, at[n], e);
  }

  /** In every interleaving the rows of one queue finish in rising order of their places. */
  lemma FinishesInOrderInEveryInterleaving(cfg: Config, lk: Locking, states: seq<Fine>, acts: seq<Act>, n: nat)
    requires FineRun(cfg, lk, states, acts) && n < |states|
    ensures FinishesRise(states[n].sys.log)
  {
    EveryInterleaving(cfg, lk, states, acts, n);
  }

  /** In every interleaving the ledger and the stored records are one set of ids, each stored once, and what is
      marked delivered was taken by the sink. */
  lemma NothingIsLostInEveryInterleaving(cfg: Config, lk: Locking, states: seq<Fine>, acts: seq<Act>, n: nat, r: RecordId)
    requires FineRun(cfg, lk, states, acts) && n < |states|
    ensures var s := states[n].sys;
            && (r in s.db.ledger <==> IsStored(s.db.recs, r)) && StoredOnce(s.db.recs)
            && forall id, i :: id in s.db.recs && 0 <= i < |s.db.recs[id]| && s.db.recs[id][i].state == Taken ==> s.db.recs[id][i].id in s.taken
  {
    var run, events, at := InterleavingsAreRuns(cfg, lk, states, acts, n);
    NothingIsLost(cfg, run, events, at[n], r);
  }

  /** Once a record is marked delivered, no batch read later in the interleaving contains it. */
  lemma NeverOfferedAgainInAnyInterleaving(cfg: Config, lk: Locking, states: seq<Fine>, acts: seq<Act>, m: nat, n: nat, id: RowId, i: nat, other: RowId)
    requires FineRun(cfg, lk, states, acts) && m <= n < |states|
    requires id in states[m].sys.db.recs && i < |states[m].sys.db.recs[id]| && states[m].sys.db.recs[id][i].state == Taken
    requires other in states[n].sys.db.recs
    ensures states[m].sys.db.recs[id][i].id !in WaitingIds(states[n].sys.db.recs[other])
  {
    var run, events, at := InterleavingsAreRuns(cfg, lk, states, acts, n);
    NeverOfferedAgain(cfg, run, events, at[m], at[n], id, i, other);
  }
}
