/** The transactions of the drain run lock by lock, statement by statement and commit by commit.

    A statement reads what is committed and what its own transaction wrote. It waits for a row another open
    transaction wrote, and an advisory lock is held to the end of the transaction. Nothing else orders two
    transactions: every step of every transaction may fall between two steps of any other. */
module Interleaving {
  import opened Names
  import opened Queue
  import Ledger
  import opened Drain
  import opened DrainWorkers

  /** A row of the redaction map, by its unique key: a tenant maps each value once. */
  datatype Mapping = Mapping(tenant: Text, kind: Text, value: Text)

  /** What transactions lock. The advisory lock keys are two hashes, and `wanted` is what the masker finds in the
      records a worker has prepared, in the order the upsert takes it: nothing is assumed of any of them. */
  datatype Locking = Locking(queueLock: Key -> int, entityLock: Entity -> int, wanted: (ClaimId, seq<RecordId>) -> seq<Mapping>)

  datatype Stage = Begun | Settled | Marked | Complete

  /** An open transaction: what it is for, the locks it holds, and what it wrote so far. */
  datatype Txn = Txn(
    event: Event,
    at: int,
    locks: set<int>,
    stage: Stage,
    rows: Rows,
    recs: map<RowId, seq<Rec>>,
    ledger: Ledger.Table,
    count: nat,
    prepared: seq<RecordId>,
    decided: set<RecordId>,
    refused: set<RecordId>,
    mapped: seq<Mapping>)

  type TxnId = nat

  /** The committed state, the open transactions, and the next value of the `seq` column's sequence. */
  datatype Fine = Fine(sys: Sys, txns: map<TxnId, Txn>, nextPlace: nat)

  datatype Act =
    | Direct(e: Event)
    | Begin(t: TxnId, e: Event)
    | Acquire(t: TxnId, lock: int)
    | InsertRow(t: TxnId)
    | RequeueRow(t: TxnId)
    | ReviveRecords(t: TxnId)
    | RefuseRecord(t: TxnId, r: RecordId)
    | DeliverRecords(t: TxnId)
    | FinishRow(t: TxnId)
    | PromoteNext(t: TxnId)
    | TouchRow(t: TxnId)
    | AdmitRecord(t: TxnId)
    | MapValue(t: TxnId)
    | MarkPrepared(t: TxnId)
    | StoreRecords(t: TxnId)
    | LeaseRow(t: TxnId, id: RowId)
    | Commit(t: TxnId)
    | Abort(t: TxnId)

  // ---- What a statement sees ---------------------------------------------------------------------

  /** The committed tables under the transaction's own writes. */
  function View(db: Db, x: Txn): Db {
    Db(db.rows + x.rows, db.recs + x.recs, db.ledger + x.ledger)
  }

  /** No other open transaction wrote the row, so a statement that writes it need not wait. */
  predicate RowFree(f: Fine, t: TxnId, id: RowId) {
    forall u :: u in f.txns && u != t ==> id !in f.txns[u].rows
  }

  /** No other open transaction inserted the delivery, so the unique index need not wait. */
  predicate DeliveryFree(f: Fine, t: TxnId, tenant: Text, delivery: DeliveryId) {
    forall u, id :: u in f.txns && u != t && id in f.txns[u].rows ==>
      !(f.txns[u].rows[id].key.tenant == tenant && f.txns[u].rows[id].delivery == delivery)
  }

  /** No other open transaction has inserted or updated the mapping, so the upsert need not wait. */
  predicate MappingFree(f: Fine, t: TxnId, m: Mapping) {
    forall u :: u in f.txns && u != t ==> m !in f.txns[u].mapped
  }

  /** What the transaction's upsert has to store. */
  function Wanted(lk: Locking, x: Txn): seq<Mapping> {
    if x.event.Prepare? then lk.wanted(x.event.c, x.prepared) else []
  }

  predicate HasQueueLock(lk: Locking, x: Txn, key: Key) {
    lk.queueLock(key) in x.locks
  }

  predicate HasEntityLocks(lk: Locking, x: Txn, records: seq<RecordId>) {
    forall i :: 0 <= i < |records| ==> lk.entityLock(records[i].entity) in x.locks
  }

  function Entities(records: seq<RecordId>): set<Entity> {
    set i | 0 <= i < |records| :: records[i].entity
  }

  function Restrict(t: Ledger.Table, es: set<Entity>): Ledger.Table {
    map id | id in t && id.entity in es :: t[id]
  }

  // ---- The statements on the records of one delivery ------------------------------------------------

  /** MarkRecordDead, for each of `ids`. */
  function RefuseIn(rs: seq<Rec>, ids: set<RecordId>): seq<Rec> {
    seq(|rs|, i requires 0 <= i < |rs| => if rs[i].state == Waiting && rs[i].id in ids then rs[i].(state := Refused) else rs[i])
  }

  /** MarkRecordsDelivered. */
  function DeliverRest(rs: seq<Rec>): seq<Rec> {
    seq(|rs|, i requires 0 <= i < |rs| => if rs[i].state == Waiting then rs[i].(state := Taken) else rs[i])
  }

  lemma RefuseMore(rs: seq<Rec>, ids: set<RecordId>, r: RecordId)
    ensures RefuseIn(RefuseIn(rs, ids), {r}) == RefuseIn(rs, ids + {r})
    ensures RefuseIn(rs, {}) == rs
  {
  }

  lemma RefuseThenDeliver(rs: seq<Rec>, ids: set<RecordId>)
    ensures DeliverRest(RefuseIn(rs, ids)) == SettleAll(rs, ids)
  {
  }

  // ---- What a transaction is for ---------------------------------------------------------------------

  /** The worker may start this transaction: what it remembers calls for it. */
  predicate MayStart(cfg: Config, s: Sys, e: Event) {
    match e
    case Accept(_, _, _, _, _, _) => true
    case Replay(_, _, _) => true
    case Claim(token, _, _) => token !in s.tokens
    case Abandon(c) => c in s.handles && s.handles[c].phase == Fresh && Exhausted(cfg.ladder, s.handles[c].attempt)
    case Release(c) => c in s.handles && s.handles[c].phase == Fresh
    case Prepare(c, records) =>
      c in s.handles && s.handles[c].phase == SawPending && c.row in s.db.rows && OfRow(s.db.rows[c.row], records)
    case Finish(c) => c in s.handles && CanFinish(s.handles[c].phase)
    case Fail(c, _) => c in s.handles && CanFail(s.handles[c].phase)
    case MarkDead(c) => c in s.handles && (s.handles[c].phase == SawPending || s.handles[c].phase == SawStored)
    case Halt(c, _) => c in s.handles && s.handles[c].phase.Ready?
    case _ => false
  }

  predicate CanFail(p: Phase) {
    p == Working || p == SawPending || p == SawStored || p.Ready?
  }

  /** It finishes its row. */
  predicate Ends(cfg: Config, s: Sys, e: Event) {
    e.Abandon? || e.Finish? || e.MarkDead? || (e.Fail? && e.c in s.handles && !Retries(cfg, s.handles[e.c].attempt))
  }

  /** It gives its row back, by one guarded statement. */
  predicate GivesBack(cfg: Config, s: Sys, e: Event) {
    e.Release? || e.Halt? || (e.Fail? && e.c in s.handles && Retries(cfg, s.handles[e.c].attempt))
  }

  function EndState(e: Event): RowState {
    if e.Finish? then Delivered else Dead
  }

  function GivenBack(e: Event, row: Row): Row
    requires e.Release? || e.Halt? || e.Fail?
  {
    match e
    case Release(_) => ReleasedRow(row)
    case Halt(_, next) => HaltedRow(row, next)
    case Fail(_, next) => RetriedRow(row, next)
  }

  // ---- Steps -----------------------------------------------------------------------------------

  /** A read, an answer of the sink, a lost worker, the passing of time: no transaction that writes. */
  predicate IsDirect(e: Event) {
    e.Tick? || e.Start? || e.SeeWork? || e.ReadPrepared? || e.Deliver? || e.Lose?
  }

  /** A worker does one thing at a time. */
  predicate Idle(f: Fine, e: Event) {
    forall u :: u in f.txns && Actor(e).Some? ==> Actor(f.txns[u].event) != Actor(e)
  }

  predicate TokenUnused(f: Fine, e: Event) {
    e.Claim? ==> e.ids == {} && forall u :: u in f.txns && f.txns[u].event.Claim? ==> f.txns[u].event.token != e.token
  }

  /** The transaction an act belongs to is open. */
  predicate Open(f: Fine, a: Act) {
    !a.Direct? && !a.Begin? ==> a.t in f.txns
  }

  ghost predicate Can(cfg: Config, lk: Locking, f: Fine, a: Act)
    requires Open(f, a)
  {
    var s := f.sys;
    match a
    case Direct(e) => IsDirect(e) && Enabled(cfg, s, e) && Idle(f, e)
    case Begin(t, e) => t !in f.txns && MayStart(cfg, s, e) && Idle(f, e) && TokenUnused(f, e)
    case Acquire(t, lock) => forall u :: u in f.txns && u != t ==> lock !in f.txns[u].locks
    case InsertRow(t) => CanInsert(lk, f, t, f.txns[t].event)
    case RequeueRow(t) => CanRequeue(lk, f, t, f.txns[t].event)
    case ReviveRecords(t) => f.txns[t].event.Replay? && f.txns[t].stage == Marked && f.txns[t].event.id in s.db.recs
    case RefuseRecord(t, r) => CanRefuse(lk, s, f.txns[t], r)
    case DeliverRecords(t) => CanDeliverRest(lk, s, f.txns[t])
    case FinishRow(t) => CanFinishRow(cfg, lk, f, t, f.txns[t].event)
    case PromoteNext(t) => CanPromote(cfg, f, t, f.txns[t].event)
    case TouchRow(t) => f.txns[t].stage == Begun && GivesBack(cfg, s, f.txns[t].event) && CanWrite(f, t, f.txns[t].event.c)
    case AdmitRecord(t) => CanAdmit(cfg, lk, s, f.txns[t])
    case MapValue(t) => CanMap(lk, f, t)
    case MarkPrepared(t) =>
      && f.txns[t].event.Prepare? && f.txns[t].stage == Begun && f.txns[t].count == |f.txns[t].event.records|
      && f.txns[t].mapped == Wanted(lk, f.txns[t])
      && CanWrite(f, t, f.txns[t].event.c) && s.db.rows[f.txns[t].event.c.row].state == Pending
    case StoreRecords(t) => f.txns[t].event.Prepare? && f.txns[t].stage == Marked && f.txns[t].event.c.row in s.db.recs
    case LeaseRow(t, id) =>
      && f.txns[t].event.Claim? && id in s.db.rows && id !in f.txns[t].rows && RowFree(f, t, id)
      && s.db.rows[id].isHead && s.db.rows[id].DueAt() <= f.txns[t].at
    case Commit(t) => f.txns[t].stage == Complete || f.txns[t].event.Claim?
    case Abort(t) => true
  }

  /** INSERT ... ON CONFLICT DO NOTHING, when it inserts. */
  ghost predicate CanInsert(lk: Locking, f: Fine, t: TxnId, e: Event)
    requires t in f.txns
  {
    && e.Accept? && f.txns[t].stage == Begun && HasQueueLock(lk, f.txns[t], e.key)
    && e.id !in f.sys.db.rows && RowFree(f, t, e.id)
    && FreshDelivery(f.sys.db.rows, e.key.tenant, e.delivery) && DeliveryFree(f, t, e.key.tenant, e.delivery)
  }

  predicate CanRequeue(lk: Locking, f: Fine, t: TxnId, e: Event)
    requires t in f.txns
  {
    && e.Replay? && f.txns[t].stage == Begun && RowFree(f, t, e.id)
    && Replayable(f.sys.db, e.id) && HasQueueLock(lk, f.txns[t], f.sys.db.rows[e.id].key)
  }

  /** The guard of a lease-guarded statement, on the latest version of a row that is not being written. */
  predicate CanWrite(f: Fine, t: TxnId, c: ClaimId) {
    c.row in f.sys.db.rows && RowFree(f, t, c.row) && f.sys.db.rows[c.row].Guard(c.token)
  }

  predicate OnRecords(lk: Locking, s: Sys, x: Txn) {
    && x.event.Finish? && x.stage == Begun && x.event.c in s.handles
    && x.event.c.row in s.db.rows && x.event.c.row in s.db.recs && HasQueueLock(lk, x, s.db.rows[x.event.c.row].key)
  }

  predicate CanRefuse(lk: Locking, s: Sys, x: Txn, r: RecordId) {
    && OnRecords(lk, s, x)
    && r in RefusedIn(s.handles[x.event.c].phase)
    && r in WaitingIds(View(s.db, x).recs[x.event.c.row])
  }

  predicate CanDeliverRest(lk: Locking, s: Sys, x: Txn) {
    OnRecords(lk, s, x) && x.refused == RefusedIn(s.handles[x.event.c].phase)
  }

  predicate CanFinishRow(cfg: Config, lk: Locking, f: Fine, t: TxnId, e: Event)
    requires t in f.txns
  {
    && Ends(cfg, f.sys, e) && f.txns[t].stage == (if e.Finish? then Settled else Begun)
    && CanWrite(f, t, e.c) && HasQueueLock(lk, f.txns[t], f.sys.db.rows[e.c.row].key)
  }

  ghost predicate CanPromote(cfg: Config, f: Fine, t: TxnId, e: Event)
    requires t in f.txns
  {
    && Ends(cfg, f.sys, e) && f.txns[t].stage == Marked && e.c.row in f.sys.db.rows
    && var v := View(f.sys.db, f.txns[t]).rows;
       Busy(v, f.sys.db.rows[e.c.row].key) ==> RowFree(f, t, NextHead(v, f.sys.db.rows[e.c.row].key))
  }

  ghost predicate CanAdmit(cfg: Config, lk: Locking, s: Sys, x: Txn) {
    && x.event.Prepare? && x.stage == Begun && x.count < |x.event.records|
    && HasEntityLocks(lk, x, x.event.records)
    && Admission(cfg, s, x).Admitted?
  }

  /** The upsert of UpsertRedactions is ready for its next value. */
  predicate AtValue(lk: Locking, x: Txn) {
    x.event.Prepare? && x.stage == Begun && x.count == |x.event.records| && |x.mapped| < |Wanted(lk, x)|
  }

  predicate CanMap(lk: Locking, f: Fine, t: TxnId)
    requires t in f.txns
  {
    AtValue(lk, f.txns[t]) && MappingFree(f, t, NextValue(lk, f.txns[t]))
  }

  function NextValue(lk: Locking, x: Txn): Mapping
    requires AtValue(lk, x)
  {
    Wanted(lk, x)[|x.mapped|]
  }

  /** admit, on what the transaction sees. */
  ghost function Admission(cfg: Config, s: Sys, x: Txn): Ledger.Batch
    requires x.event.Prepare? && x.count < |x.event.records|
  {
    Ledger.Admit(Ledger.Admitted(View(s.db, x).ledger, x.prepared, x.decided), cfg.compare, x.event.records[x.count])
  }

  /** The transaction after one of its statements. */
  ghost function Work(cfg: Config, lk: Locking, f: Fine, a: Act): Txn
    requires Open(f, a) && Can(cfg, lk, f, a) && !a.Direct? && !a.Begin?
  {
    var s, x := f.sys, f.txns[a.t];
    match a
    case Acquire(_, lock) => x.(locks := x.locks + {lock})
    case InsertRow(_) => Inserted(s, x, f.nextPlace)
    case RequeueRow(_) => Requeued(s, x, f.nextPlace)
    case ReviveRecords(_) => x.(stage := Complete, recs := map[x.event.id := Revive(View(s.db, x).recs[x.event.id])])
    case RefuseRecord(_, r) =>
      x.(refused := x.refused + {r}, recs := map[x.event.c.row := RefuseIn(View(s.db, x).recs[x.event.c.row], {r})])
    case DeliverRecords(_) => x.(stage := Settled, recs := map[x.event.c.row := DeliverRest(View(s.db, x).recs[x.event.c.row])])
    case FinishRow(_) =>
      x.(stage := Marked, rows := map[x.event.c.row := FinishedRow(s.db.rows[x.event.c.row], EndState(x.event))])
    case PromoteNext(_) => x.(stage := Complete, rows := Promoted(View(s.db, x).rows, x.rows, s.db.rows[x.event.c.row].key))
    case TouchRow(_) => x.(stage := Complete, rows := map[x.event.c.row := GivenBack(x.event, s.db.rows[x.event.c.row])])
    case AdmitRecord(_) =>
      var b := Admission(cfg, s, x);
      x.(count := x.count + 1, ledger := Restrict(b.table, Entities(x.event.records)), prepared := b.prepared, decided := b.decided)
    case MapValue(_) => x.(mapped := x.mapped + [NextValue(lk, x)])
    case MarkPrepared(_) => x.(stage := Marked, rows := map[x.event.c.row := PreparedRow(s.db.rows[x.event.c.row])])
    case StoreRecords(_) =>
      x.(stage := Complete, recs := map[x.event.c.row := View(s.db, x).recs[x.event.c.row] + Stored(x.prepared)])
    case LeaseRow(_, id) =>
      x.(event := x.event.(ids := x.event.ids + {id}), rows := x.rows[id := ClaimedRow(s.db.rows[id], x.event.token, x.event.until)])
    case Commit(_) => x
    case Abort(_) => x
  }

  ghost function Inserted(s: Sys, x: Txn, place: nat): Txn
    requires x.event.Accept?
  {
    var e := Event.Accept(x.event.id, x.event.key, x.event.provider, x.event.delivery, place, x.at);
    x.(event := e, stage := Complete, recs := map[e.id := []],
       rows := map[e.id := AcceptedRow(View(s.db, x).rows, e.key, e.provider, e.delivery, place, x.at)])
  }

  ghost function Requeued(s: Sys, x: Txn, place: nat): Txn
    requires x.event.Replay? && x.event.id in s.db.rows
  {
    x.(event := Event.Replay(x.event.id, place, x.at), stage := Marked,
       rows := map[x.event.id := ReplayedRow(View(s.db, x).rows, s.db.rows[x.event.id], place, x.at)])
  }

  /** PromoteNextHead's write, beside what the transaction already wrote. */
  ghost function Promoted(v: Rows, written: Rows, key: Key): Rows {
    if Busy(v, key) then var n := NextHead(v, key); written[n := v[n].(isHead := true)] else written
  }

  const NO_ROWS: Rows := map[]

  function Opened(e: Event, at: int): Txn {
    Txn(e, at, {}, Begun, NO_ROWS, map[], map[], 0, [], {}, {}, [])
  }

  /** What is committed once a transaction commits, and what its worker then knows. */
  function Committed(s: Sys, x: Txn): Sys {
    Sys(
      View(s.db, x),
      Learned(s, x),
      if x.event.Claim? then s.tokens + {x.event.token} else s.tokens,
      s.taken,
      s.decided + x.decided,
      s.now,
      s.log + History(x))
  }

  /** What the claim's RETURNING clause hands the worker. */
  function HandedOut(written: Rows, token: Token): map<ClaimId, Handle> {
    map id | id in written :: ClaimId(token, id) := Handle(written[id].attempts, Fresh)
  }

  function Learned(s: Sys, x: Txn): map<ClaimId, Handle> {
    if x.event.Claim? then
      s.handles + HandedOut(x.rows, x.event.token)
    else if x.event.Prepare? then
      if x.event.c in s.handles then s.handles[x.event.c := s.handles[x.event.c].(phase := Ready(x.prepared))] else s.handles
    else if Actor(x.event).Some? then
      s.handles - {Actor(x.event).value}
    else
      s.handles
  }

  function History(x: Txn): seq<Entry> {
    if x.event.Accept? || x.event.Replay? then [Reset(x.event.id)]
    else if x.event.Claim? then [Took(x.rows.Keys)]
    else if x.event.Release? || x.event.Halt? then [GaveBack(x.event.c.row)]
    else if Actor(x.event).Some? then FinishIn(x.rows, Actor(x.event).value.row)
    else []
  }

  function FinishIn(written: Rows, id: RowId): seq<Entry> {
    if id in written && !written[id].Unfinished() then [Done(id, written[id].key, written[id].place)] else []
  }

  ghost function After(cfg: Config, lk: Locking, f: Fine, a: Act): Fine
    requires Open(f, a) && Can(cfg, lk, f, a)
  {
    match a
    case Direct(e) => f.(sys := Apply(cfg, f.sys, e))
    case Begin(t, e) => f.(txns := f.txns[t := Opened(e, f.sys.now)])
    case Commit(t) => f.(sys := Committed(f.sys, f.txns[t]), txns := f.txns - {t})
    case Abort(t) => f.(txns := f.txns - {t})
    case InsertRow(t) => Fine(f.sys, f.txns[t := Work(cfg, lk, f, a)], f.nextPlace + 1)
    case RequeueRow(t) => Fine(f.sys, f.txns[t := Work(cfg, lk, f, a)], f.nextPlace + 1)
    case _ => f.(txns := f.txns[a.t := Work(cfg, lk, f, a)])
  }

  ghost predicate FineStep(cfg: Config, lk: Locking, f: Fine, a: Act, f': Fine) {
    Open(f, a) && Can(cfg, lk, f, a) && f' == After(cfg, lk, f, a)
  }

  ghost predicate FineRun(cfg: Config, lk: Locking, states: seq<Fine>, acts: seq<Act>) {
    && |states| == |acts| + 1
    && states[0] == Fine(EMPTY, map[], 0)
    && forall i :: 0 <= i < |acts| ==> FineStep(cfg, lk, states[i], acts[i], states[i + 1])
  }
}
