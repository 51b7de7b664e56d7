/** Which transactions of the drain can wait for each other.

    A transaction takes its advisory locks in ascending order and before it writes anything, and a transaction that
    has written a row of the outbox waits for nothing any more. So a circle of waits can only run through the
    redaction map, whose values a Prepare takes in the order its texts name them; and it can come about exactly
    when the lists of the deliveries in flight are tangled (module `Knots`). */
module InterleavingWaits {
  import opened Names
  import opened Queue
  import opened Drain
  import opened DrainTables
  import opened DrainTheorems
  import opened Interleaving
  import opened InterleavingTxns
  import opened InterleavingCommit
  import opened InterleavingMappings
  import opened InterleavingTheorems
  import opened Knots
  import opened Locks

  /** The statement a transaction has issued, when it is one that may block. */
  datatype Pending =
    | ForLock(lock: int)
    | ForRow(id: RowId)
    | ForRecords(id: RowId)
    | ForDelivery(tenant: Text, delivery: DeliveryId)
    | ForMapping(m: Mapping)

  // ---- The order of the advisory locks ---------------------------------------------------------------------

  function KeySet(order: seq<int>): set<int> {
    set i | 0 <= i < |order| :: order[i]
  }

  function EntityKeys(lk: Locking, records: seq<RecordId>): seq<int> {
    seq(|records|, i requires 0 <= i < |records| => lk.entityLock(records[i].entity))
  }

  /** The advisory locks a transaction takes, in the order it takes them: a Prepare those of its entities in the
      order `Locks.LockOrder` returns; a transaction that moves rows in or out of a queue the queue's; any other
      none. */
  ghost predicate LocksInOrder(cfg: Config, lk: Locking, s: Sys, e: Event, order: seq<int>) {
    if e.Prepare? then
      StrictlyAscending(order) && SameKeys(order, EntityKeys(lk, e.records))
    else if e.Accept? then
      order == [lk.queueLock(e.key)]
    else if e.Replay? then
      e.id in s.db.rows && order == [lk.queueLock(s.db.rows[e.id].key)]
    else if Ends(cfg, s, e) then
      e.c.row in s.db.rows && order == [lk.queueLock(s.db.rows[e.c.row].key)]
    else
      order == []
  }

  /** The transaction holds the first of its locks and issues the next. */
  ghost predicate IssuesLock(cfg: Config, lk: Locking, s: Sys, x: Txn, lock: int) {
    && WroteNothing(x) && x.mapped == []
    && exists order, n: nat :: NextLock(cfg, lk, s, x, order, n, lock)
  }

  ghost predicate NextLock(cfg: Config, lk: Locking, s: Sys, x: Txn, order: seq<int>, n: nat, lock: int) {
    LocksInOrder(cfg, lk, s, x.event, order) && n < |order| && order[n] == lock && x.locks == KeySet(order[..n])
  }

  /** So the lock it issues is above every lock it holds. */
  lemma IssuedIsAbove(cfg: Config, lk: Locking, s: Sys, x: Txn, lock: int)
    requires IssuesLock(cfg, lk, s, x, lock)
    ensures forall l :: l in x.locks ==> l < lock
  {
    var order, n: nat :| NextLock(cfg, lk, s, x, order, n, lock);
    NextIsAbove(order, n);
  }

  // ---- Waiting ---------------------------------------------------------------------------------------------

  /** The statement is one the transaction issues now. */
  ghost predicate Issues(cfg: Config, lk: Locking, f: Fine, t: TxnId, p: Pending)
    requires t in f.txns
  {
    var x, e, s := f.txns[t], f.txns[t].event, f.sys;
    match p
    case ForLock(lock) => IssuesLock(cfg, lk, s, x, lock)
    case ForMapping(m) => AtValue(lk, x) && m == NextValue(lk, x)
    case ForDelivery(tenant, delivery) => e.Accept? && x.stage == Begun && tenant == e.key.tenant && delivery == e.delivery
    case ForRecords(id) => RecordsOf(lk, s, x, id)
    case ForRow(id) =>
      || (e.Replay? && x.stage == Begun && id == e.id)
      || (Ends(cfg, s, e) && x.stage == (if e.Finish? then Settled else Begun) && id == e.c.row)
      || (GivesBack(cfg, s, e) && x.stage == Begun && id == e.c.row)
      || (e.Prepare? && x.stage == Begun && id == e.c.row)
      || (Ends(cfg, s, e) && x.stage == Marked && e.c.row in s.db.rows && IsNext(View(s.db, x).rows, s.db.rows[e.c.row].key, id))
  }

  /** The statements on the records of a delivery, which follow the lock of its queue. */
  predicate RecordsOf(lk: Locking, s: Sys, x: Txn, id: RowId) {
    && id in s.db.rows && HasQueueLock(lk, x, s.db.rows[id].key)
    && ((x.event.Finish? && x.stage == Begun && id == x.event.c.row) || (x.event.Replay? && x.stage == Marked && id == x.event.id))
  }

  ghost predicate IsNext(v: Rows, key: Key, id: RowId) {
    Busy(v, key) && id == NextHead(v, key)
  }

  /** It has to wait for `u`. (An insert of records is not seen by an update, so it makes nobody wait.) */
  ghost predicate WaitsFor(f: Fine, p: Pending, t: TxnId, u: TxnId)
    requires u in f.txns
  {
    && t != u
    && match p
       case ForLock(lock) => lock in f.txns[u].locks
       case ForMapping(m) => m in f.txns[u].mapped
       case ForRow(id) => id in f.txns[u].rows
       case ForRecords(id) => id in f.txns[u].recs && !f.txns[u].event.Prepare?
       case ForDelivery(tenant, delivery) =>
         exists id :: id in f.txns[u].rows && f.txns[u].rows[id].key.tenant == tenant && f.txns[u].rows[id].delivery == delivery
  }

  // ---- A transaction that has written a row waits for nothing ------------------------------------------

  /** Whoever wrote a row of a queue holds the queue's lock, or wrote its head. */
  ghost predicate WroteHeads(lk: Locking, rows: Rows, y: Txn) {
    forall id :: id in y.rows && id in rows ==> rows[id].isHead || HasQueueLock(lk, y, rows[id].key)
  }

  lemma EndingWroteHeads(lk: Locking, rows: Rows, y: Txn, id: RowId, to: RowState, promoted: bool)
    requires id in rows && HasQueueLock(lk, y, rows[id].key) && (to == Delivered || to == Dead)
    requires EndingRows(rows, y.rows, id, to, promoted)
    ensures WroteHeads(lk, rows, y)
  {
    var mid, key := rows[id := FinishedRow(rows[id], to)], rows[id].key;
    if promoted && Busy(mid, key) {
      var n :| NextIs(mid, n, key) && y.rows == map[id := mid[id]][n := mid[n].(isHead := true)];
    }
  }

  lemma EndWroteHeads(lk: Locking, s: Sys, y: Txn, c: ClaimId)
    requires c in s.handles && EndOk(lk, s, y, c)
    ensures WroteHeads(lk, s.db.rows, y)
  {
    if y.stage == Marked || y.stage == Complete {
      EndingWroteHeads(lk, s.db.rows, y, c.row, EndState(y.event), y.stage == Complete);
    }
  }

  lemma GuardedIsHead(s: Sys, c: ClaimId)
    requires QueueOk(s.db.rows) && Guarded(s, c)
    ensures s.db.rows[c.row].isHead
  {
    assert LeaseOk(s.db.rows[c.row]);
  }

  lemma WorkerWroteHeads(cfg: Config, lk: Locking, s: Sys, y: Txn)
    requires QueueOk(s.db.rows) && MayStart(cfg, s, y.event) && WorkerOk(cfg, lk, s, y)
    requires Ends(cfg, s, y.event) || GivesBack(cfg, s, y.event)
    ensures WroteHeads(lk, s.db.rows, y)
  {
    if Ends(cfg, s, y.event) {
      EndWroteHeads(lk, s, y, y.event.c);
    } else if y.stage == Complete {
      GuardedIsHead(s, y.event.c);
    }
  }

  lemma PrepareWroteHeads(cfg: Config, lk: Locking, s: Sys, y: Txn, c: ClaimId, records: seq<RecordId>)
    requires QueueOk(s.db.rows) && PrepareOk(cfg, lk, s, y, c, records)
    ensures WroteHeads(lk, s.db.rows, y)
  {
    if y.stage == Marked || y.stage == Complete {
      GuardedIsHead(s, c);
    }
  }

  lemma TxnWroteHeads(cfg: Config, lk: Locking, s: Sys, y: Txn)
    requires QueueOk(s.db.rows) && TxnOk(cfg, lk, s, y)
    ensures WroteHeads(lk, s.db.rows, y)
  {
    if y.event.Prepare? {
      PrepareWroteHeads(cfg, lk, s, y, y.event.c, y.event.records);
    } else if Ends(cfg, s, y.event) || GivesBack(cfg, s, y.event) {
      WorkerWroteHeads(cfg, lk, s, y);
    }
  }

  /** The row a finish promotes is written by nobody else: it is not a head, and its queue is locked. */
  lemma PromotionIsFree(cfg: Config, lk: Locking, f: Fine, t: TxnId, u: TxnId, id: RowId)
    requires FineInv(cfg, lk, f) && t in f.txns && u in f.txns && t != u
    requires var x, e, s := f.txns[t], f.txns[t].event, f.sys;
             && Ends(cfg, s, e) && x.stage == Marked && e.c.row in s.db.rows && IsNext(View(s.db, x).rows, s.db.rows[e.c.row].key, id)
    ensures id !in f.txns[u].rows
  {
    var x, y, s := f.txns[t], f.txns[u], f.sys;
    MarkedEnd(cfg, lk, s, x, x.event.c);
    TxnWroteHeads(cfg, lk, s, y);
    NextIsBehind(s.db.rows, x, x.event.c.row, EndState(x.event), id);
    assert Separate(x, y);
  }

  lemma MarkedEnd(cfg: Config, lk: Locking, s: Sys, x: Txn, c: ClaimId)
    requires TxnOk(cfg, lk, s, x) && Ends(cfg, s, x.event) && x.stage == Marked && c == x.event.c
    ensures Guarded(s, c) && HasQueueLock(lk, x, s.db.rows[c.row].key)
    ensures x.rows == map[c.row := FinishedRow(s.db.rows[c.row], EndState(x.event))]
  {
  }

  lemma NextIsBehind(rows: Rows, x: Txn, id: RowId, to: RowState, n: RowId)
    requires QueueOk(rows) && id in rows && rows[id].lease.Held? && (to == Delivered || to == Dead)
    requires x.rows == map[id := FinishedRow(rows[id], to)] && IsNext(rows + x.rows, rows[id].key, n)
    ensures n in rows && rows[n].key == rows[id].key && !rows[n].isHead
  {
    assert LeaseOk(rows[id]);
    assert n in rows;
    if rows[n].isHead {
      LowestUnique(rows, id, n);
    }
  }

  /** The records of a queue's row are written under the queue's lock. */
  ghost predicate WroteRecs(lk: Locking, rows: Rows, y: Txn) {
    forall id :: id in y.recs && id in rows ==> y.event.Prepare? || HasQueueLock(lk, y, rows[id].key)
  }

  lemma TxnWroteRecs(cfg: Config, lk: Locking, s: Sys, y: Txn)
    requires TxnOk(cfg, lk, s, y)
    ensures WroteRecs(lk, s.db.rows, y)
  {
  }

  lemma RecordsAreFree(cfg: Config, lk: Locking, f: Fine, t: TxnId, u: TxnId, id: RowId)
    requires FineInv(cfg, lk, f) && t in f.txns && u in f.txns && RecordsOf(lk, f.sys, f.txns[t], id)
    ensures !WaitsFor(f, ForRecords(id), t, u)
  {
    TxnWroteRecs(cfg, lk, f.sys, f.txns[u]);
    if t != u {
      assert Separate(f.txns[t], f.txns[u]);
    }
  }

  /** So a transaction that has written a row of the outbox never blocks: it waits neither for a lock, nor for a
      row, nor for a record, nor for a mapping. */
  lemma WritersNeverBlock(cfg: Config, lk: Locking, f: Fine, t: TxnId, p: Pending, u: TxnId)
    requires FineInv(cfg, lk, f) && t in f.txns && u in f.txns && Issues(cfg, lk, f, t, p)
    requires f.txns[t].rows != map[]
    ensures !WaitsFor(f, p, t, u)
  {
    if p.ForRecords? {
      RecordsAreFree(cfg, lk, f, t, u, p.id);
    } else if t != u {
      WriterIssues(cfg, lk, f, t, p);
      PromotionIsFree(cfg, lk, f, t, u, p.id);
    }
  }

  /** The one row a transaction that has written a row may still write is the one it promotes. */
  lemma WriterIssues(cfg: Config, lk: Locking, f: Fine, t: TxnId, p: Pending)
    requires t in f.txns && TxnOk(cfg, lk, f.sys, f.txns[t]) && Issues(cfg, lk, f, t, p)
    requires f.txns[t].rows != map[] && !p.ForRecords?
    ensures var x, e, s := f.txns[t], f.txns[t].event, f.sys;
            && p.ForRow? && Ends(cfg, s, e) && x.stage == Marked && e.c.row in s.db.rows
            && IsNext(View(s.db, x).rows, s.db.rows[e.c.row].key, p.id)
  {
  }

  // ---- Deadlocks -------------------------------------------------------------------------------------------

  ghost predicate AllIssue(cfg: Config, lk: Locking, f: Fine, waiting: map<TxnId, Pending>)
    requires waiting.Keys <= f.txns.Keys
  {
    forall t {:trigger waiting[t]} :: t in waiting ==> Issues(cfg, lk, f, t, waiting[t])
  }

  /** Each of these transactions waits for another of them. */
  ghost predicate Stuck(cfg: Config, lk: Locking, f: Fine, waiting: map<TxnId, Pending>) {
    && waiting.Keys != {} && waiting.Keys <= f.txns.Keys
    && AllIssue(cfg, lk, f, waiting)
    && (forall t {:trigger WaitsInside(f, waiting, t)} :: t in waiting ==> WaitsInside(f, waiting, t))
  }

  ghost predicate WaitsInside(f: Fine, waiting: map<TxnId, Pending>, t: TxnId)
    requires t in waiting && waiting.Keys <= f.txns.Keys
  {
    exists u :: u in waiting && WaitsFor(f, waiting[t], t, u)
  }

  /** Whoever is stuck waits for a lock or for a mapping. */
  lemma StuckOn(cfg: Config, lk: Locking, f: Fine, waiting: map<TxnId, Pending>, t: TxnId, u: TxnId)
    requires FineInv(cfg, lk, f) && Stuck(cfg, lk, f, waiting) && t in waiting && u in waiting && WaitsFor(f, waiting[t], t, u)
    ensures waiting[t].ForLock? || waiting[t].ForMapping?
  {
    assert WaitsInside(f, waiting, u);
    var v :| v in waiting && WaitsFor(f, waiting[u], u, v);
    if f.txns[u].rows != map[] {
      WritersNeverBlock(cfg, lk, f, u, waiting[u], v);
    }
    if waiting[t].ForRecords? {
      RecordsAreFree(cfg, lk, f, t, u, waiting[t].id);
    }
  }

  /** Along the waits for locks the locks rise; and nobody waits for a lock who holds a mapping. */
  lemma WaitsClimb(cfg: Config, lk: Locking, f: Fine, waiting: map<TxnId, Pending>, t: TxnId, u: TxnId)
    requires Stuck(cfg, lk, f, waiting) && t in waiting && u in waiting && WaitsFor(f, waiting[t], t, u) && waiting[u].ForLock?
    ensures !waiting[t].ForMapping? && (waiting[t].ForLock? ==> waiting[t].lock < waiting[u].lock)
  {
    IssuedIsAbove(cfg, lk, f.sys, f.txns[u], waiting[u].lock);
  }

  /** Each of them waits for a lock or a mapping: whoever waits for a lock waits for one who waits for a higher lock
      or for a mapping, and whoever waits for a mapping waits for one who waits for a mapping. */
  ghost predicate Climbs(waiting: map<TxnId, Pending>) {
    forall t {:trigger ClimbsAt(waiting, t)} :: t in waiting ==> ClimbsAt(waiting, t)
  }

  ghost predicate ClimbsAt(waiting: map<TxnId, Pending>, t: TxnId)
    requires t in waiting
  {
    && (waiting[t].ForLock? || waiting[t].ForMapping?)
    && exists u :: u in waiting && Above(waiting[t], waiting[u])
  }

  predicate Above(p: Pending, q: Pending) {
    q.ForMapping? || (p.ForLock? && q.ForLock? && p.lock < q.lock)
  }

  lemma StuckClimbs(cfg: Config, lk: Locking, f: Fine, waiting: map<TxnId, Pending>)
    requires FineInv(cfg, lk, f) && Stuck(cfg, lk, f, waiting)
    ensures Climbs(waiting)
  {
    forall t | t in waiting
      ensures ClimbsAt(waiting, t)
    {
      var u := StuckStep(cfg, lk, f, waiting, t);
    }
  }

  lemma StuckStep(cfg: Config, lk: Locking, f: Fine, waiting: map<TxnId, Pending>, t: TxnId) returns (u: TxnId)
    requires FineInv(cfg, lk, f) && Stuck(cfg, lk, f, waiting) && t in waiting
    ensures waiting[t].ForLock? || waiting[t].ForMapping?
    ensures u in waiting && WaitsFor(f, waiting[t], t, u) && Above(waiting[t], waiting[u])
  {
    u := Waited(f, waiting, t);
    var v := Waited(f, waiting, u);
    StuckOn(cfg, lk, f, waiting, t, u);
    StuckOn(cfg, lk, f, waiting, u, v);
    if waiting[u].ForLock? {
      WaitsClimb(cfg, lk, f, waiting, t, u);
    }
  }

  lemma Waited(f: Fine, waiting: map<TxnId, Pending>, t: TxnId) returns (u: TxnId)
    requires waiting.Keys <= f.txns.Keys && t in waiting
    requires forall v {:trigger WaitsInside(f, waiting, v)} :: v in waiting ==> WaitsInside(f, waiting, v)
    ensures u in waiting && WaitsFor(f, waiting[t], t, u)
  {
    assert WaitsInside(f, waiting, t);
    u :| u in waiting && WaitsFor(f, waiting[t], t, u);
  }

  /** So some of those that are stuck wait for a mapping. */
  lemma {:induction false} SomeWaitForMappings(waiting: map<TxnId, Pending>, t: TxnId, left: set<TxnId>) returns (u: TxnId)
    requires Climbs(waiting) && t in waiting && t in left
    requires waiting[t].ForLock? ==> forall v :: v in waiting && waiting[v].ForLock? && waiting[v].lock >= waiting[t].lock ==> v in left
    ensures u in waiting && waiting[u].ForMapping?
    decreases |left|
  {
    assert ClimbsAt(waiting, t);
    u :| u in waiting && Above(waiting[t], waiting[u]);
    if waiting[u].ForLock? {
      u := SomeWaitForMappings(waiting, u, left - {t});
    }
  }

  // ---- Deadlocks are knots ---------------------------------------------------------------------------------

  /** The lists of the deliveries in flight. */
  function ListsIn(lk: Locking, f: Fine): map<TxnId, seq<Mapping>> {
    map t | t in f.txns && f.txns[t].event.Prepare? :: Wanted(lk, f.txns[t])
  }

  /** How far those that wait for a mapping are. */
  function Cuts(f: Fine, waiting: map<TxnId, Pending>): map<TxnId, nat> {
    map t | t in waiting && t in f.txns && waiting[t].ForMapping? :: |f.txns[t].mapped|
  }

  /** Those that wait for a mapping hold their lists up to their cuts. */
  ghost predicate OnLists(lists: map<TxnId, seq<Mapping>>, cuts: map<TxnId, nat>, txns: map<TxnId, Txn>) {
    && cuts.Keys <= lists.Keys && cuts.Keys <= txns.Keys
    && forall t :: t in cuts ==> cuts[t] < |lists[t]| && lists[t][..cuts[t]] == txns[t].mapped
  }

  lemma WaitersOnLists(cfg: Config, lk: Locking, f: Fine, waiting: map<TxnId, Pending>)
    requires AllMapped(lk, f.txns) && waiting.Keys <= f.txns.Keys && AllIssue(cfg, lk, f, waiting)
    ensures OnLists(ListsIn(lk, f), Cuts(f, waiting), f.txns)
    ensures forall t :: t in Cuts(f, waiting) ==> waiting[t].m == ListsIn(lk, f)[t][Cuts(f, waiting)[t]]
  {
    forall t | t in Cuts(f, waiting)
      ensures t in ListsIn(lk, f) && |f.txns[t].mapped| < |ListsIn(lk, f)[t]| && ListsIn(lk, f)[t][..|f.txns[t].mapped|] == f.txns[t].mapped
      ensures waiting[t].m == ListsIn(lk, f)[t][|f.txns[t].mapped|]
    {
      IssuesMapping(cfg, lk, f, t, waiting[t]);
    }
  }

  lemma IssuesMapping(cfg: Config, lk: Locking, f: Fine, t: TxnId, p: Pending)
    requires t in f.txns && MappedOk(lk, f.txns[t]) && Issues(cfg, lk, f, t, p) && p.ForMapping?
    ensures var x, list := f.txns[t], Wanted(lk, f.txns[t]);
            x.event.Prepare? && |x.mapped| < |list| && list[..|x.mapped|] == x.mapped && p.m == list[|x.mapped|]
  {
  }

  lemma WaiterIsFed(cfg: Config, lk: Locking, f: Fine, waiting: map<TxnId, Pending>, t: TxnId) returns (u: TxnId)
    requires FineInv(cfg, lk, f) && Stuck(cfg, lk, f, waiting) && t in waiting && waiting[t].ForMapping?
    ensures u in waiting && waiting[u].ForMapping? && u != t && waiting[t].m in f.txns[u].mapped
  {
    u := StuckStep(cfg, lk, f, waiting, t);
  }

  lemma WaitersAreFed(cfg: Config, lk: Locking, f: Fine, waiting: map<TxnId, Pending>, lists: map<TxnId, seq<Mapping>>, cuts: map<TxnId, nat>)
    requires FineInv(cfg, lk, f) && Stuck(cfg, lk, f, waiting) && cuts == Cuts(f, waiting)
    requires OnLists(lists, cuts, f.txns) && forall t :: t in cuts ==> waiting[t].m == lists[t][cuts[t]]
    ensures forall t :: t in cuts ==> Fed(lists, cuts, t)
  {
    forall t | t in cuts
      ensures Fed(lists, cuts, t)
    {
      var u := WaiterIsFed(cfg, lk, f, waiting, t);
      assert NeedsFrom(lists, cuts, t, u);
    }
  }

  lemma FedIsAKnot(lk: Locking, txns: map<TxnId, Txn>, lists: map<TxnId, seq<Mapping>>, cuts: map<TxnId, nat>)
    requires AllMapped(lk, txns) && OnLists(lists, cuts, txns) && cuts.Keys != {} && forall t :: t in cuts ==> Fed(lists, cuts, t)
    ensures Knot(lists, cuts)
  {
  }

  /** Wherever transactions wait for each other, some of the deliveries in flight form a knot. */
  lemma DeadlockIsAKnot(cfg: Config, lk: Locking, f: Fine, waiting: map<TxnId, Pending>)
    requires FineInv(cfg, lk, f) && Stuck(cfg, lk, f, waiting)
    ensures Knot(ListsIn(lk, f), Cuts(f, waiting))
  {
    var some :| some in waiting;
    StuckClimbs(cfg, lk, f, waiting);
    var one := SomeWaitForMappings(waiting, some, waiting.Keys);
    assert one in Cuts(f, waiting);
    WaitersOnLists(cfg, lk, f, waiting);
    WaitersAreFed(cfg, lk, f, waiting, ListsIn(lk, f), Cuts(f, waiting));
    FedIsAKnot(lk, f.txns, ListsIn(lk, f), Cuts(f, waiting));
  }

  /** In no interleaving are transactions stuck while the lists of the deliveries in flight are not tangled, hash
      collisions of lock keys included. */
  lemma NeverADeadlock(cfg: Config, lk: Locking, states: seq<Fine>, acts: seq<Act>, n: nat, waiting: map<TxnId, Pending>)
    requires FineRun(cfg, lk, states, acts) && n < |states|
    requires !Tangled(ListsIn(lk, states[n]))
    ensures !Stuck(cfg, lk, states[n], waiting)
  {
    EveryInterleaving(cfg, lk, states, acts, n);
    if Stuck(cfg, lk, states[n], waiting) {
      DeadlockIsAKnot(cfg, lk, states[n], waiting);
    }
  }

  /** Had every delivery taken its values in one order, as it takes its locks, nobody would ever be stuck. */
  lemma OneOrderNeverDeadlocks(cfg: Config, lk: Locking, rank: Mapping -> int, states: seq<Fine>, acts: seq<Act>, n: nat, waiting: map<TxnId, Pending>)
    requires FineRun(cfg, lk, states, acts) && n < |states|
    requires forall c, prepared :: Rises(lk.wanted(c, prepared), rank)
    ensures !Stuck(cfg, lk, states[n], waiting)
  {
    OneOrderUntangles(ListsIn(lk, states[n]), rank);
    NeverADeadlock(cfg, lk, states, acts, n, waiting);
  }

  /** What a transaction that is not finished waits with. */
  ghost predicate AllWait(cfg: Config, lk: Locking, f: Fine, waiting: map<TxnId, Pending>) {
    && waiting.Keys == f.txns.Keys
    && AllIssue(cfg, lk, f, waiting)
    && (forall t {:trigger Waits(f, waiting[t], t)} :: t in waiting ==> Waits(f, waiting[t], t))
  }

  ghost predicate Waits(f: Fine, p: Pending, t: TxnId) {
    exists u :: u in f.txns && WaitsFor(f, p, t, u)
  }

  /** So as long as the lists are not tangled, some open transaction can go on. */
  lemma SomebodyCanGoOn(cfg: Config, lk: Locking, f: Fine, waiting: map<TxnId, Pending>)
    requires FineInv(cfg, lk, f) && f.txns.Keys != {} && !Tangled(ListsIn(lk, f))
    ensures !AllWait(cfg, lk, f, waiting)
  {
    if AllWait(cfg, lk, f, waiting) {
      AllWaitIsStuck(cfg, lk, f, waiting);
      DeadlockIsAKnot(cfg, lk, f, waiting);
    }
  }

  lemma AllWaitIsStuck(cfg: Config, lk: Locking, f: Fine, waiting: map<TxnId, Pending>)
    requires f.txns.Keys != {} && AllWait(cfg, lk, f, waiting)
    ensures Stuck(cfg, lk, f, waiting)
  {
    forall t | t in waiting
      ensures WaitsInside(f, waiting, t)
    {
      assert Waits(f, waiting[t], t);
    }
  }
}
