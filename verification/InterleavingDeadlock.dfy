/** Two deliveries of one tenant that the code can bring to a standstill: each has written its ledger row and holds
    a value of the redaction map that the other needs next. */
module InterleavingDeadlock {
  import opened Names
  import opened Queue
  import Ledger
  import opened Drain
  import opened Interleaving
  import opened InterleavingTxns
  import opened InterleavingCommit
  import opened InterleavingMappings
  import opened InterleavingTheorems
  import opened InterleavingWaits
  import opened InterleavingKnots
  import opened Knots

  // ---- Two deliveries of one tenant, of two subscriptions and about two entities ---------------------------

  const TENANT: Text := [0x74]
  const PROVIDER: Text := [0x70]

  function KeyAt(i: nat): Key {
    Key(TENANT, if i == 0 then [0x61] else [0x62])
  }

  function RecordAt(i: nat): RecordId {
    RecordId(Entity(TENANT, PROVIDER, if i == 0 then [0x61] else [0x62]), [], [])
  }

  /** One claim hands out both rows. */
  function WorkerAt(i: nat): ClaimId {
    ClaimId(0, i)
  }

  function RowAt(i: nat): Row {
    Row(KeyAt(i), PROVIDER, i, i, Pending, true, 0, 0, Free, false)
  }

  function AcceptAt(i: nat): Event {
    Event.Accept(i, KeyAt(i), PROVIDER, i, i, 0)
  }

  // ---- Reaching a state ---------------------------------------------------------------------------------------

  /** Some interleaving reaches it. */
  ghost predicate Reached(cfg: Config, lk: Locking, f: Fine) {
    exists states, acts :: FineRun(cfg, lk, states, acts) && states[|acts|] == f
  }

  lemma ReachedStep(cfg: Config, lk: Locking, f: Fine, a: Act, f': Fine)
    requires Reached(cfg, lk, f) && FineStep(cfg, lk, f, a, f')
    ensures Reached(cfg, lk, f')
  {
    var states, acts :| FineRun(cfg, lk, states, acts) && states[|acts|] == f;
    ExtendFine(cfg, lk, states, acts, a, f');
    assert FineRun(cfg, lk, states + [f'], acts + [a]) && (states + [f'])[|acts + [a]|] == f';
  }

  lemma ExtendFine(cfg: Config, lk: Locking, states: seq<Fine>, acts: seq<Act>, a: Act, f': Fine)
    requires FineRun(cfg, lk, states, acts) && FineStep(cfg, lk, states[|acts|], a, f')
    ensures FineRun(cfg, lk, states + [f'], acts + [a])
  {
    var states', acts' := states + [f'], acts + [a];
    forall i | 0 <= i < |acts'|
      ensures FineStep(cfg, lk, states'[i], acts'[i], states'[i + 1])
    {
      if i < |acts| {
        assert states'[i] == states[i] && states'[i + 1] == states[i + 1] && acts'[i] == acts[i];
      }
    }
  }

  lemma {:induction false} ReachedByUpserts(cfg: Config, lk: Locking, f: Fine, states: seq<Fine>, acts: seq<Act>, n: nat)
    requires Reached(cfg, lk, f) && Upserting(cfg, lk, f, states, acts) && n < |states|
    ensures Reached(cfg, lk, states[n])
  {
    if n > 0 {
      ReachedByUpserts(cfg, lk, f, states, acts, n - 1);
      ReachedStep(cfg, lk, states[n - 1], acts[n - 1], states[n]);
    }
  }

  lemma ReachedInv(cfg: Config, lk: Locking, f: Fine)
    requires Reached(cfg, lk, f)
    ensures FineInv(cfg, lk, f)
  {
    var states, acts :| FineRun(cfg, lk, states, acts) && states[|acts|] == f;
    EveryInterleaving(cfg, lk, states, acts, |acts|);
  }

  // ---- One transaction alone ------------------------------------------------------------------------------------

  function Alone(f: Fine, x: Txn): Fine {
    f.(txns := map[0 := x])
  }

  lemma BeginAlone(cfg: Config, lk: Locking, f: Fine, e: Event)
    requires f.txns == map[] && MayStart(cfg, f.sys, e) && (e.Claim? ==> e.ids == {}) && Reached(cfg, lk, f)
    ensures Reached(cfg, lk, Alone(f, Opened(e, f.sys.now)))
  {
    ReachedStep(cfg, lk, f, Begin(0, e), Alone(f, Opened(e, f.sys.now)));
  }

  lemma AcquireAlone(cfg: Config, lk: Locking, f: Fine, x: Txn, lock: int)
    requires Reached(cfg, lk, Alone(f, x))
    ensures Reached(cfg, lk, Alone(f, x.(locks := x.locks + {lock})))
  {
    ReachedStep(cfg, lk, Alone(f, x), Acquire(0, lock), Alone(f, x.(locks := x.locks + {lock})));
  }

  lemma InsertAlone(cfg: Config, lk: Locking, f: Fine, x: Txn)
    requires Reached(cfg, lk, Alone(f, x)) && CanInsert(lk, Alone(f, x), 0, x.event)
    ensures Reached(cfg, lk, Alone(f.(nextPlace := f.nextPlace + 1), Inserted(f.sys, x, f.nextPlace)))
  {
    ReachedStep(cfg, lk, Alone(f, x), InsertRow(0), Alone(f.(nextPlace := f.nextPlace + 1), Inserted(f.sys, x, f.nextPlace)));
  }

  lemma LeaseAlone(cfg: Config, lk: Locking, f: Fine, x: Txn, id: RowId)
    requires Reached(cfg, lk, Alone(f, x)) && x.event.Claim? && id in f.sys.db.rows && id !in x.rows
    requires f.sys.db.rows[id].isHead && f.sys.db.rows[id].DueAt() <= x.at
    ensures Reached(cfg, lk, Alone(f, x.(event := x.event.(ids := x.event.ids + {id}),
                                         rows := x.rows[id := ClaimedRow(f.sys.db.rows[id], x.event.token, x.event.until)])))
  {
    ReachedStep(cfg, lk, Alone(f, x), LeaseRow(0, id),
      Alone(f, x.(event := x.event.(ids := x.event.ids + {id}), rows := x.rows[id := ClaimedRow(f.sys.db.rows[id], x.event.token, x.event.until)])));
  }

  lemma AloneOk(cfg: Config, lk: Locking, f: Fine, x: Txn)
    requires Reached(cfg, lk, Alone(f, x))
    ensures QueueOk(f.sys.db.rows) && TxnOk(cfg, lk, f.sys, x)
  {
    ReachedInv(cfg, lk, Alone(f, x));
    assert Alone(f, x).txns[0] == x;
  }

  /** It commits, and that is the event it is for. */
  lemma CommitAlone(cfg: Config, lk: Locking, f: Fine, x: Txn)
    requires Reached(cfg, lk, Alone(f, x)) && Finished(x)
    ensures IsEvent(cfg, f.sys, x) && Reached(cfg, lk, Fine(Committed(f.sys, x), map[], f.nextPlace))
  {
    AloneIsEvent(cfg, lk, f, x);
    CommitReached(cfg, lk, f, x);
  }

  lemma AloneIsEvent(cfg: Config, lk: Locking, f: Fine, x: Txn)
    requires Reached(cfg, lk, Alone(f, x)) && Finished(x)
    ensures IsEvent(cfg, f.sys, x)
  {
    AloneOk(cfg, lk, f, x);
    CommitIsEvent(cfg, lk, f.sys, x);
  }

  lemma CommitReached(cfg: Config, lk: Locking, f: Fine, x: Txn)
    requires Reached(cfg, lk, Alone(f, x)) && Finished(x)
    ensures Reached(cfg, lk, Fine(Committed(f.sys, x), map[], f.nextPlace))
  {
    assert Alone(f, x).txns - {0} == map[];
    ReachedStep(cfg, lk, Alone(f, x), Commit(0), Fine(Committed(f.sys, x), map[], f.nextPlace));
  }

  lemma DirectAlone(cfg: Config, lk: Locking, f: Fine, e: Event)
    requires Reached(cfg, lk, f) && f.txns == map[] && IsDirect(e) && Enabled(cfg, f.sys, e)
    ensures Reached(cfg, lk, f.(sys := Apply(cfg, f.sys, e)))
  {
    ReachedStep(cfg, lk, f, Direct(e), f.(sys := Apply(cfg, f.sys, e)));
  }

  /** An Accept, from its lock to its commit. */
  lemma AcceptAlone(cfg: Config, lk: Locking, f: Fine, e: Event)
    requires Reached(cfg, lk, f) && f.txns == map[] && e.Accept? && e.place == f.nextPlace && e.at == f.sys.now
    requires e.id !in f.sys.db.rows && FreshDelivery(f.sys.db.rows, e.key.tenant, e.delivery)
    ensures Enabled(cfg, f.sys, e) && Reached(cfg, lk, Fine(Apply(cfg, f.sys, e), map[], f.nextPlace + 1))
  {
    var lock, x := lk.queueLock(e.key), Opened(e, f.sys.now);
    BeginAlone(cfg, lk, f, e);
    AcquireAlone(cfg, lk, f, x, lock);
    var y := x.(locks := x.locks + {lock});
    InsertAlone(cfg, lk, f, y);
    var g, z := f.(nextPlace := f.nextPlace + 1), Inserted(f.sys, y, f.nextPlace);
    CommitAlone(cfg, lk, g, z);
    assert z.event == e;
  }

  /** A Claim of two heads that are due. */
  lemma ClaimAlone(cfg: Config, lk: Locking, f: Fine, token: Token, until: int, a: RowId, b: RowId)
    requires Reached(cfg, lk, f) && f.txns == map[] && token !in f.sys.tokens && a != b
    requires forall id :: id == a || id == b ==> id in f.sys.db.rows && f.sys.db.rows[id].isHead && f.sys.db.rows[id].DueAt() <= f.sys.now
    ensures Enabled(cfg, f.sys, Event.Claim(token, {a, b}, until))
    ensures Reached(cfg, lk, Fine(Apply(cfg, f.sys, Event.Claim(token, {a, b}, until)), map[], f.nextPlace))
  {
    var e := Event.Claim(token, {}, until);
    var x := Opened(e, f.sys.now);
    BeginAlone(cfg, lk, f, e);
    LeaseAlone(cfg, lk, f, x, a);
    var y := x.(event := x.event.(ids := x.event.ids + {a}), rows := x.rows[a := ClaimedRow(f.sys.db.rows[a], token, until)]);
    LeaseAlone(cfg, lk, f, y, b);
    var z := y.(event := y.event.(ids := y.event.ids + {b}), rows := y.rows[b := ClaimedRow(f.sys.db.rows[b], token, until)]);
    CommitAlone(cfg, lk, f, z);
    assert {} + {a} + {b} == {a, b};
    assert z.event == Event.Claim(token, {a, b}, until);
  }

  // ---- Both rows accepted, claimed and looked at ------------------------------------------------------------------

  /** Nothing but these rows, under these leases. */
  predicate Holds(s: Sys, rows: Rows, handles: map<ClaimId, Handle>) {
    s.db.rows == rows && s.db.ledger == map[] && s.handles == handles && s.now == 0
  }

  const BOTH: Rows := map[0 := RowAt(0), 1 := RowAt(1)]

  lemma KeysDiffer()
    ensures KeyAt(0) != KeyAt(1) && RecordAt(0).entity != RecordAt(1).entity
  {
    assert [0x61][0] != [0x62][0];
  }

  lemma BothAccepted(cfg: Config, lk: Locking) returns (f: Fine)
    ensures Reached(cfg, lk, f) && f.txns == map[] && Holds(f.sys, BOTH, map[]) && f.sys.tokens == {}
  {
    var f0 := Fine(EMPTY, map[], 0);
    assert FineRun(cfg, lk, [f0], []);
    AcceptAlone(cfg, lk, f0, AcceptAt(0));
    var f1 := Fine(Apply(cfg, f0.sys, AcceptAt(0)), map[], 1);
    assert f1.sys.db.rows == map[0 := RowAt(0)];
    KeysDiffer();
    AcceptAlone(cfg, lk, f1, AcceptAt(1));
    f := Fine(Apply(cfg, f1.sys, AcceptAt(1)), map[], 2);
    assert f.sys.db.rows == BOTH;
  }

  /** Both rows are leased to workers that are this far, and the ledger is empty. */
  predicate BothAt(f: Fine, phases: seq<Phase>)
    requires |phases| == 2
  {
    && f.txns == map[] && f.sys.db.ledger == map[]
    && f.sys.db.rows.Keys == {0, 1} && (forall i :: i in {0, 1} ==> LeasedAt(f.sys.db.rows[i], i))
    && f.sys.handles == map[WorkerAt(0) := Handle(1, phases[0]), WorkerAt(1) := Handle(1, phases[1])]
  }

  predicate LeasedAt(row: Row, i: nat) {
    row.key == KeyAt(i) && row.provider == PROVIDER && row.state == Pending
  }

  lemma BothClaimed(cfg: Config, lk: Locking) returns (f: Fine)
    ensures Reached(cfg, lk, f) && BothAt(f, [Fresh, Fresh])
  {
    var g := BothAccepted(cfg, lk);
    ClaimAlone(cfg, lk, g, 0, 0, 0, 1);
    f := Fine(Apply(cfg, g.sys, Event.Claim(0, {0, 1}, 0)), map[], g.nextPlace);
    ClaimApplies(cfg, g.sys);
    ClaimedBoth();
  }

  lemma ClaimApplies(cfg: Config, s: Sys)
    requires Holds(s, BOTH, map[]) && Enabled(cfg, s, Event.Claim(0, {0, 1}, 0))
    ensures var s' := Apply(cfg, s, Event.Claim(0, {0, 1}, 0));
            s'.db.rows == Queue.Claim(BOTH, {0, 1}, 0, 0) && s'.db.ledger == map[] && s'.handles == Claims({0, 1}, 0, BOTH)
  {
  }

  lemma ClaimedBoth()
    ensures Claims({0, 1}, 0, BOTH) == map[WorkerAt(0) := Handle(1, Fresh), WorkerAt(1) := Handle(1, Fresh)]
    ensures var rows := Queue.Claim(BOTH, {0, 1}, 0, 0); rows.Keys == {0, 1} && forall i :: i in {0, 1} ==> LeasedAt(rows[i], i)
  {
    var hs := Claims({0, 1}, 0, BOTH);
    assert WorkerAt(0) in hs && WorkerAt(1) in hs;
  }

  /** A worker starts on its row and sees it pending. */
  lemma LookAt(cfg: Config, lk: Locking, f: Fine, i: nat, phases: seq<Phase>) returns (f': Fine)
    requires Reached(cfg, lk, f) && i < 2 && |phases| == 2 && BothAt(f, phases) && phases[i] == Fresh
    ensures Reached(cfg, lk, f') && BothAt(f', phases[i := SawPending])
  {
    var c := WorkerAt(i);
    DirectAlone(cfg, lk, f, Start(c));
    var g := f.(sys := Apply(cfg, f.sys, Start(c)));
    assert BothAt(g, phases[i := Working]);
    DirectAlone(cfg, lk, g, SeeWork(c));
    f' := g.(sys := Apply(cfg, g.sys, SeeWork(c)));
  }

  // ---- Both at the gate -------------------------------------------------------------------------------------------

  /** A Prepare of one record, once it has its lock and has admitted the record. */
  function Gated(lk: Locking, i: nat, now: int): Txn {
    var r := RecordAt(i);
    Opened(Event.Prepare(WorkerAt(i), [r]), now)
      .(locks := {lk.entityLock(r.entity)}, count := 1, ledger := map[r := Ledger.Entry(None, true)], prepared := [r], decided := {r})
  }

  function Locked(lk: Locking, i: nat, now: int): Txn {
    Opened(Event.Prepare(WorkerAt(i), [RecordAt(i)]), now).(locks := {lk.entityLock(RecordAt(i).entity)})
  }

  /** The first delivery is admitted in an empty ledger. */
  lemma AdmittedFirst(cfg: Config, lk: Locking, s: Sys, i: nat)
    requires s.db.ledger == map[]
    ensures CanAdmit(cfg, lk, s, Locked(lk, i, s.now))
    ensures var x, b := Locked(lk, i, s.now), Admission(cfg, s, Locked(lk, i, s.now));
            x.(count := x.count + 1, ledger := Restrict(b.table, Entities(x.event.records)), prepared := b.prepared, decided := b.decided)
            == Gated(lk, i, s.now)
  {
    var x, r := Locked(lk, i, s.now), RecordAt(i);
    assert View(s.db, x).ledger == map[];
    assert Ledger.Heads(map[], r.entity) == {};
    assert Ledger.Link(map[], r) == map[r := Ledger.Entry(None, true)];
    assert r.entity in Entities(x.event.records) by { assert x.event.records[0] == r; }
    assert Restrict(map[r := Ledger.Entry(None, true)], Entities(x.event.records)) == map[r := Ledger.Entry(None, true)];
  }

  function With(f: Fine, i: TxnId, x: Txn): Fine {
    f.(txns := f.txns[i := x])
  }

  lemma GateBegin(cfg: Config, lk: Locking, f: Fine, i: TxnId, e: Event)
    requires Reached(cfg, lk, f) && i !in f.txns && e.Prepare? && MayStart(cfg, f.sys, e) && Idle(f, e)
    ensures Reached(cfg, lk, With(f, i, Opened(e, f.sys.now)))
  {
    ReachedStep(cfg, lk, f, Begin(i, e), With(f, i, Opened(e, f.sys.now)));
  }

  lemma GateLock(cfg: Config, lk: Locking, f: Fine, i: TxnId, x: Txn, lock: int)
    requires Reached(cfg, lk, With(f, i, x)) && forall u :: u in f.txns && u != i ==> lock !in f.txns[u].locks
    ensures Reached(cfg, lk, With(f, i, x.(locks := x.locks + {lock})))
  {
    assert With(f, i, x).txns[i := x.(locks := x.locks + {lock})] == f.txns[i := x.(locks := x.locks + {lock})];
    ReachedStep(cfg, lk, With(f, i, x), Acquire(i, lock), With(f, i, x.(locks := x.locks + {lock})));
  }

  lemma GateAdmit(cfg: Config, lk: Locking, f: Fine, i: nat)
    requires Reached(cfg, lk, With(f, i, Locked(lk, i, f.sys.now))) && f.sys.db.ledger == map[]
    ensures Reached(cfg, lk, With(f, i, Gated(lk, i, f.sys.now)))
  {
    AdmittedFirst(cfg, lk, f.sys, i);
    var x, y := Locked(lk, i, f.sys.now), Gated(lk, i, f.sys.now);
    assert With(f, i, x).txns[i := y] == f.txns[i := y];
    ReachedStep(cfg, lk, With(f, i, x), AdmitRecord(i), With(f, i, y));
  }

  /** Beside another open transaction, a Prepare begins, takes its lock and admits its record. */
  lemma GateReached(cfg: Config, lk: Locking, f: Fine, i: nat)
    requires Reached(cfg, lk, f) && i < 2 && i !in f.txns && f.sys.db.ledger == map[]
    requires MayStart(cfg, f.sys, Event.Prepare(WorkerAt(i), [RecordAt(i)])) && Idle(f, Event.Prepare(WorkerAt(i), [RecordAt(i)]))
    requires forall u :: u in f.txns ==> lk.entityLock(RecordAt(i).entity) !in f.txns[u].locks
    ensures Reached(cfg, lk, With(f, i, Gated(lk, i, f.sys.now)))
  {
    var e, lock := Event.Prepare(WorkerAt(i), [RecordAt(i)]), lk.entityLock(RecordAt(i).entity);
    GateBegin(cfg, lk, f, i, e);
    GateLock(cfg, lk, f, i, Opened(e, f.sys.now), lock);
    assert {} + {lock} == {lock};
    GateAdmit(cfg, lk, f, i);
  }

  /** Both deliveries have written their ledger rows and are about to take their values. */
  lemma BothAtGate(cfg: Config, lk: Locking) returns (f: Fine)
    requires lk.entityLock(RecordAt(0).entity) != lk.entityLock(RecordAt(1).entity)
    ensures Reached(cfg, lk, f) && f.txns == map[0 := Gated(lk, 0, f.sys.now), 1 := Gated(lk, 1, f.sys.now)]
  {
    var f0 := BothClaimed(cfg, lk);
    var f1 := LookAt(cfg, lk, f0, 0, [Fresh, Fresh]);
    assert [Fresh, Fresh][0 := SawPending] == [SawPending, Fresh];
    var f2 := LookAt(cfg, lk, f1, 1, [SawPending, Fresh]);
    KeysDiffer();
    GateReached(cfg, lk, f2, 0);
    var f3 := With(f2, 0, Gated(lk, 0, f2.sys.now));
    GateReached(cfg, lk, f3, 1);
    f := With(f3, 1, Gated(lk, 1, f2.sys.now));
  }

  // ---- The standstill -----------------------------------------------------------------------------------------------

  /** Whatever the two deliveries' texts name, if their lists are crossed then some interleaving brings them to wait
      for each other. (Their entities must not share a lock key: that would serialize them.) */
  lemma TwoDeliveriesCanDeadlock(cfg: Config, lk: Locking) returns (states: seq<Fine>, acts: seq<Act>, waiting: map<TxnId, Pending>)
    requires lk.entityLock(RecordAt(0).entity) != lk.entityLock(RecordAt(1).entity)
    requires Crossed(lk.wanted(WorkerAt(0), [RecordAt(0)]), lk.wanted(WorkerAt(1), [RecordAt(1)]))
    ensures FineRun(cfg, lk, states, acts) && Stuck(cfg, lk, states[|acts|], waiting)
  {
    var f := BothAtGate(cfg, lk);
    GateSticks(cfg, lk, f);
    states, acts, waiting := StickReached(cfg, lk, f);
  }

  lemma GateSticks(cfg: Config, lk: Locking, f: Fine)
    requires Reached(cfg, lk, f) && f.txns == map[0 := Gated(lk, 0, f.sys.now), 1 := Gated(lk, 1, f.sys.now)]
    requires Crossed(lk.wanted(WorkerAt(0), [RecordAt(0)]), lk.wanted(WorkerAt(1), [RecordAt(1)]))
    ensures CanStick(cfg, lk, f)
  {
    ReachedInv(cfg, lk, f);
    BothGated(lk, f);
    TwoStickExactlyIfCrossed(cfg, lk, f, 0, 1);
  }

  lemma BothGated(lk: Locking, f: Fine)
    requires f.txns == map[0 := Gated(lk, 0, f.sys.now), 1 := Gated(lk, 1, f.sys.now)]
    ensures AtGate(f) && 0 in f.txns && 1 in f.txns && f.txns[0].event.Prepare? && f.txns[1].event.Prepare?
    ensures forall v :: v in f.txns && f.txns[v].event.Prepare? ==> v == 0 || v == 1
    ensures Wanted(lk, f.txns[0]) == lk.wanted(WorkerAt(0), [RecordAt(0)]) && Wanted(lk, f.txns[1]) == lk.wanted(WorkerAt(1), [RecordAt(1)])
  {
  }

  lemma StickReached(cfg: Config, lk: Locking, f: Fine) returns (states: seq<Fine>, acts: seq<Act>, waiting: map<TxnId, Pending>)
    requires Reached(cfg, lk, f) && CanStick(cfg, lk, f)
    ensures FineRun(cfg, lk, states, acts) && Stuck(cfg, lk, states[|acts|], waiting)
  {
    var upserts, values, w :| Sticks(cfg, lk, f, upserts, values, w);
    ReachedByUpserts(cfg, lk, f, upserts, values, |values|);
    states, acts :| FineRun(cfg, lk, states, acts) && states[|acts|] == upserts[|values|];
    waiting := w;
  }

  /** For instance: one text names the addresses A and B, the other B and A. */
  lemma TwoAddressesCross(a: Mapping, b: Mapping)
    requires a != b
    ensures Crossed([a, b], [b, a])
  {
  }
}
