/** Each statement takes its transaction one step further and stays clear of every other open transaction. */
module InterleavingSteps {
  import opened Names
  import opened Queue
  import Ledger
  import opened Drain
  import opened DrainTables
  import opened DrainWorkers
  import opened Interleaving
  import opened InterleavingTxns
  import opened InterleavingCommit

  ghost predicate PlacesBelow(rows: Rows, place: nat) {
    forall id :: id in rows ==> rows[id].place < place
  }

  // ---- The statement of each kind ---------------------------------------------------------------------

  lemma BeginOk(cfg: Config, lk: Locking, s: Sys, e: Event, x': Txn)
    requires MayStart(cfg, s, e) && (e.Claim? ==> e.ids == {})
    requires x' == Opened(e, s.now)
    ensures TxnOk(cfg, lk, s, x')
  {
  }

  lemma AcquireOk(cfg: Config, lk: Locking, s: Sys, x: Txn, lock: int, x': Txn)
    requires TxnOk(cfg, lk, s, x)
    requires x' == x.(locks := x.locks + {lock})
    ensures TxnOk(cfg, lk, s, x')
  {
  }

  lemma InsertOk(cfg: Config, lk: Locking, f: Fine, t: TxnId, x': Txn)
    requires t in f.txns && CanInsert(lk, f, t, f.txns[t].event) && TxnOk(cfg, lk, f.sys, f.txns[t]) && PlacesBelow(f.sys.db.rows, f.nextPlace)
    requires x' == Inserted(f.sys, f.txns[t], f.nextPlace)
    ensures TxnOk(cfg, lk, f.sys, x')
  {
    assert View(f.sys.db, f.txns[t]).rows == f.sys.db.rows;
  }

  lemma RequeueOk(cfg: Config, lk: Locking, f: Fine, t: TxnId, x': Txn)
    requires t in f.txns && CanRequeue(lk, f, t, f.txns[t].event) && TxnOk(cfg, lk, f.sys, f.txns[t]) && PlacesBelow(f.sys.db.rows, f.nextPlace)
    requires x' == Requeued(f.sys, f.txns[t], f.nextPlace)
    ensures TxnOk(cfg, lk, f.sys, x')
  {
    assert View(f.sys.db, f.txns[t]).rows == f.sys.db.rows;
  }

  lemma ReviveOk(cfg: Config, lk: Locking, s: Sys, x: Txn, x': Txn)
    requires x.event.Replay? && x.stage == Marked && TxnOk(cfg, lk, s, x)
    requires x' == x.(stage := Complete, recs := map[x.event.id := Revive(View(s.db, x).recs[x.event.id])])
    ensures TxnOk(cfg, lk, s, x')
  {
  }

  lemma RefuseOk(cfg: Config, lk: Locking, s: Sys, x: Txn, r: RecordId, x': Txn)
    requires CanRefuse(lk, s, x, r) && TxnOk(cfg, lk, s, x)
    requires x' == x.(refused := x.refused + {r}, recs := map[x.event.c.row := RefuseIn(View(s.db, x).recs[x.event.c.row], {r})])
    ensures TxnOk(cfg, lk, s, x')
  {
    RefuseMore(s.db.recs[x.event.c.row], x.refused, r);
  }

  lemma DeliverRestOk(cfg: Config, lk: Locking, s: Sys, x: Txn, x': Txn)
    requires CanDeliverRest(lk, s, x) && TxnOk(cfg, lk, s, x)
    requires x' == x.(stage := Settled, recs := map[x.event.c.row := DeliverRest(View(s.db, x).recs[x.event.c.row])])
    ensures TxnOk(cfg, lk, s, x')
  {
    var rs := s.db.recs[x.event.c.row];
    RefuseThenDeliver(rs, x.refused);
    RefuseMore(rs, {}, RecordId(Entity([], [], []), [], []));
  }

  lemma FinishRowOk(cfg: Config, lk: Locking, f: Fine, t: TxnId, x: Txn, c: ClaimId, x': Txn)
    requires t in f.txns && x == f.txns[t] && Ends(cfg, f.sys, x.event) && c == x.event.c
    requires CanFinishRow(cfg, lk, f, t, x.event) && TxnOk(cfg, lk, f.sys, x)
    requires x' == x.(stage := Marked, rows := map[c.row := FinishedRow(f.sys.db.rows[c.row], EndState(x.event))])
    ensures TxnOk(cfg, lk, f.sys, x')
  {
  }

  lemma PromoteOk(cfg: Config, lk: Locking, s: Sys, x: Txn, c: ClaimId, x': Txn)
    requires Ends(cfg, s, x.event) && c == x.event.c && x.stage == Marked && c.row in s.db.rows && TxnOk(cfg, lk, s, x)
    requires x' == x.(stage := Complete, rows := Promoted(View(s.db, x).rows, x.rows, s.db.rows[c.row].key))
    ensures TxnOk(cfg, lk, s, x')
  {
    var id, to := c.row, EndState(x.event);
    var mid, key := s.db.rows[id := FinishedRow(s.db.rows[id], to)], s.db.rows[id].key;
    assert View(s.db, x).rows == mid;
    if Busy(mid, key) {
      assert NextIs(mid, NextHead(mid, key), key);
    }
  }

  lemma TouchOk(cfg: Config, lk: Locking, f: Fine, t: TxnId, x: Txn, c: ClaimId, x': Txn)
    requires t in f.txns && x == f.txns[t] && x.stage == Begun && GivesBack(cfg, f.sys, x.event) && c == x.event.c
    requires CanWrite(f, t, c) && TxnOk(cfg, lk, f.sys, x)
    requires x' == x.(stage := Complete, rows := map[c.row := GivenBack(x.event, f.sys.db.rows[c.row])])
    ensures TxnOk(cfg, lk, f.sys, x')
  {
  }

  /** One more record through admit, on what the transaction sees, is one more record of the batch. */
  lemma AdmissionIs(cfg: Config, lk: Locking, s: Sys, x: Txn, records: seq<RecordId>)
    requires x.event.Prepare? && records == x.event.records && x.count < |records| && AdmittedOk(cfg, lk, s.db.ledger, x, records)
    ensures Admission(cfg, s, x) == Ledger.AdmitAll(s.db.ledger, cfg.compare, records[..x.count + 1])
  {
    AdmittedLedger(cfg, lk, s.db.ledger, x, records);
    Ledger.AdmitNext(s.db.ledger, cfg.compare, records, x.count);
  }

  lemma AdmitOk(cfg: Config, lk: Locking, s: Sys, x: Txn, x': Txn)
    requires CanAdmit(cfg, lk, s, x) && TxnOk(cfg, lk, s, x)
    requires var b := Admission(cfg, s, x);
             x' == x.(count := x.count + 1, ledger := Restrict(b.table, Entities(x.event.records)), prepared := b.prepared, decided := b.decided)
    ensures TxnOk(cfg, lk, s, x')
  {
    AdmissionIs(cfg, lk, s, x, x.event.records);
  }

  lemma MapOk(cfg: Config, lk: Locking, s: Sys, x: Txn, m: Mapping, x': Txn)
    requires TxnOk(cfg, lk, s, x)
    requires x' == x.(mapped := x.mapped + [m])
    ensures TxnOk(cfg, lk, s, x')
  {
  }

  lemma MarkPreparedOk(cfg: Config, lk: Locking, f: Fine, t: TxnId, x: Txn, x': Txn)
    requires t in f.txns && x == f.txns[t] && x.event.Prepare? && x.stage == Begun && x.count == |x.event.records|
    requires CanWrite(f, t, x.event.c) && f.sys.db.rows[x.event.c.row].state == Pending && TxnOk(cfg, lk, f.sys, x)
    requires x' == x.(stage := Marked, rows := map[x.event.c.row := PreparedRow(f.sys.db.rows[x.event.c.row])])
    ensures TxnOk(cfg, lk, f.sys, x')
  {
  }

  lemma StoreOk(cfg: Config, lk: Locking, s: Sys, x: Txn, x': Txn)
    requires x.event.Prepare? && x.stage == Marked && x.event.c.row in s.db.recs && TxnOk(cfg, lk, s, x) && RecsOk(s.db)
    requires x' == x.(stage := Complete, recs := map[x.event.c.row := View(s.db, x).recs[x.event.c.row] + Stored(x.prepared)])
    ensures TxnOk(cfg, lk, s, x')
  {
    var id := x.event.c.row;
    assert RowRecsOk(s.db.rows[id], s.db.recs[id]);
    assert View(s.db, x).recs[id] + Stored(x.prepared) == Stored(x.prepared);
  }

  lemma LeaseRowOk(cfg: Config, lk: Locking, s: Sys, x: Txn, id: RowId, x': Txn)
    requires x.event.Claim? && id in s.db.rows && s.db.rows[id].isHead && s.db.rows[id].DueAt() <= x.at && TxnOk(cfg, lk, s, x)
    requires x' == x.(event := x.event.(ids := x.event.ids + {id}), rows := x.rows[id := ClaimedRow(s.db.rows[id], x.event.token, x.event.until)])
    ensures TxnOk(cfg, lk, s, x')
  {
  }

  // ---- Any statement ----------------------------------------------------------------------------------

  predicate IsStatement(a: Act) {
    !a.Direct? && !a.Begin? && !a.Commit? && !a.Abort?
  }

  /** It moves a row within its queue. */
  predicate OnQueue(a: Act) {
    a.InsertRow? || a.RequeueRow? || a.FinishRow? || a.PromoteNext?
  }

  /** It writes one row that stays where it is. */
  predicate OnRow(a: Act) {
    a.TouchRow? || a.MarkPrepared? || a.LeaseRow?
  }

  /** It writes the records of one delivery. */
  predicate OnRecs(a: Act) {
    a.ReviveRecords? || a.RefuseRecord? || a.DeliverRecords? || a.StoreRecords?
  }

  lemma QueueWorkOk(cfg: Config, lk: Locking, f: Fine, a: Act, x': Txn)
    requires IsStatement(a) && Open(f, a) && Can(cfg, lk, f, a) && OnQueue(a)
    requires TxnOk(cfg, lk, f.sys, f.txns[a.t]) && RecsOk(f.sys.db) && PlacesBelow(f.sys.db.rows, f.nextPlace)
    requires x' == Work(cfg, lk, f, a)
    ensures TxnOk(cfg, lk, f.sys, x')
  {
    var s, x := f.sys, f.txns[a.t];
    if a.InsertRow? {
      InsertOk(cfg, lk, f, a.t, x');
    } else if a.RequeueRow? {
      RequeueOk(cfg, lk, f, a.t, x');
    } else if a.FinishRow? {
      FinishRowOk(cfg, lk, f, a.t, x, x.event.c, x');
    } else {
      PromoteOk(cfg, lk, s, x, x.event.c, x');
    }
  }

  lemma RowWorkOk(cfg: Config, lk: Locking, f: Fine, a: Act, x': Txn)
    requires IsStatement(a) && Open(f, a) && Can(cfg, lk, f, a) && OnRow(a)
    requires TxnOk(cfg, lk, f.sys, f.txns[a.t]) && RecsOk(f.sys.db) && PlacesBelow(f.sys.db.rows, f.nextPlace)
    requires x' == Work(cfg, lk, f, a)
    ensures TxnOk(cfg, lk, f.sys, x')
  {
    var s, x := f.sys, f.txns[a.t];
    if a.TouchRow? {
      TouchOk(cfg, lk, f, a.t, x, x.event.c, x');
    } else if a.MarkPrepared? {
      MarkPreparedOk(cfg, lk, f, a.t, x, x');
    } else {
      LeaseRowOk(cfg, lk, s, x, a.id, x');
    }
  }

  lemma RecordWorkOk(cfg: Config, lk: Locking, f: Fine, a: Act, x': Txn)
    requires IsStatement(a) && Open(f, a) && Can(cfg, lk, f, a) && OnRecs(a)
    requires TxnOk(cfg, lk, f.sys, f.txns[a.t]) && RecsOk(f.sys.db) && PlacesBelow(f.sys.db.rows, f.nextPlace)
    requires x' == Work(cfg, lk, f, a)
    ensures TxnOk(cfg, lk, f.sys, x')
  {
    var s, x := f.sys, f.txns[a.t];
    if a.ReviveRecords? {
      ReviveOk(cfg, lk, s, x, x');
    } else if a.RefuseRecord? {
      RefuseOk(cfg, lk, s, x, a.r, x');
    } else if a.DeliverRecords? {
      DeliverRestOk(cfg, lk, s, x, x');
    } else {
      StoreOk(cfg, lk, s, x, x');
    }
  }

  /** It writes no row of the outbox and no record. */
  lemma OtherWorkOk(cfg: Config, lk: Locking, f: Fine, a: Act, x': Txn)
    requires IsStatement(a) && Open(f, a) && Can(cfg, lk, f, a) && !OnQueue(a) && !OnRow(a) && !OnRecs(a)
    requires TxnOk(cfg, lk, f.sys, f.txns[a.t])
    requires x' == Work(cfg, lk, f, a)
    ensures TxnOk(cfg, lk, f.sys, x')
  {
    var s, x := f.sys, f.txns[a.t];
    if a.Acquire? {
      AcquireOk(cfg, lk, s, x, a.lock, x');
    } else if a.MapValue? {
      MapOk(cfg, lk, s, x, NextValue(lk, x), x');
    } else {
      AdmitOk(cfg, lk, s, x, x');
    }
  }

  lemma WorkOk(cfg: Config, lk: Locking, f: Fine, a: Act, x': Txn)
    requires IsStatement(a) && Open(f, a) && Can(cfg, lk, f, a)
    requires TxnOk(cfg, lk, f.sys, f.txns[a.t]) && RecsOk(f.sys.db) && PlacesBelow(f.sys.db.rows, f.nextPlace)
    requires x' == Work(cfg, lk, f, a)
    ensures TxnOk(cfg, lk, f.sys, x')
  {
    if OnQueue(a) {
      QueueWorkOk(cfg, lk, f, a, x');
    } else if OnRow(a) {
      RowWorkOk(cfg, lk, f, a, x');
    } else if OnRecs(a) {
      RecordWorkOk(cfg, lk, f, a, x');
    } else {
      OtherWorkOk(cfg, lk, f, a, x');
    }
  }

  /** What a statement may add to its transaction, seen from the others. */
  ghost predicate Grows(cfg: Config, lk: Locking, f: Fine, t: TxnId, x': Txn)
    requires t in f.txns
  {
    var x := f.txns[t];
    && Actor(x'.event) == Actor(x.event)
    && (x'.event.Claim? ==> x.event.Claim? && x'.event.token == x.event.token)
    && (forall l :: l in x'.locks && l !in x.locks ==> forall u :: u in f.txns && u != t ==> l !in f.txns[u].locks)
    && (forall id :: id in x'.rows && id !in x.rows ==> RowFree(f, t, id))
    && (x'.event.Accept? && x'.stage == Complete ==>
      (x.event.Accept? && x.stage == Complete && x'.event == x.event)
      || DeliveryFree(f, t, x'.event.key.tenant, x'.event.delivery))
  }

  lemma PromotedGrows(cfg: Config, lk: Locking, f: Fine, t: TxnId, e: Event)
    requires t in f.txns && CanPromote(cfg, f, t, e) && f.txns[t].event == e
    ensures var x, s := f.txns[t], f.sys;
            Grows(cfg, lk, f, t, x.(stage := Complete, rows := Promoted(View(s.db, x).rows, x.rows, s.db.rows[e.c.row].key)))
  {
  }

  lemma WorkGrows(cfg: Config, lk: Locking, f: Fine, a: Act)
    requires IsStatement(a) && Open(f, a) && Can(cfg, lk, f, a)
    ensures Grows(cfg, lk, f, a.t, Work(cfg, lk, f, a))
  {
    if a.PromoteNext? {
      PromotedGrows(cfg, lk, f, a.t, f.txns[a.t].event);
    }
  }

  lemma WorkPlaces(cfg: Config, lk: Locking, f: Fine, a: Act)
    requires IsStatement(a) && Open(f, a) && Can(cfg, lk, f, a)
    requires PlacesBelow(f.sys.db.rows, f.nextPlace) && PlacesBelow(f.txns[a.t].rows, f.nextPlace)
    ensures PlacesBelow(Work(cfg, lk, f, a).rows, if a.InsertRow? || a.RequeueRow? then f.nextPlace + 1 else f.nextPlace)
  {
  }

  /** So it stays clear of every other open transaction. */
  lemma GrowsSeparate(cfg: Config, lk: Locking, f: Fine, t: TxnId, u: TxnId, x': Txn)
    requires t in f.txns && u in f.txns && u != t && Grows(cfg, lk, f, t, x')
    requires Separate(f.txns[t], f.txns[u])
    requires f.txns[u].event.Accept? ==> AcceptOk(lk, f.sys.db, f.txns[u], f.txns[u].event)
    ensures Separate(x', f.txns[u]) && Separate(f.txns[u], x')
  {
    var x, y := f.txns[t], f.txns[u];
    forall l | l in x'.locks
      ensures l !in y.locks
    {
      assert l in x.locks ==> l !in y.locks;
    }
    forall id | id in x'.rows.Keys
      ensures id !in y.rows.Keys
    {
      assert id in x.rows.Keys ==> id !in y.rows.Keys;
    }
    if y.event.Accept? && y.stage == Complete {
      assert y.event.id in y.rows;
    }
  }
}
