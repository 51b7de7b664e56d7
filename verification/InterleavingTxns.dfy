/** What is true of one open transaction, and why no other transaction can make it false. */
module InterleavingTxns {
  import opened Names
  import opened Queue
  import Ledger
  import opened Drain
  import opened DrainTables
  import opened DrainWorkers
  import opened Interleaving

  // ---- How far a transaction is --------------------------------------------------------------------

  predicate WroteNothing(x: Txn) {
    x.rows == map[] && x.recs == map[] && x.ledger == map[]
  }

  ghost predicate AcceptOk(lk: Locking, db: Db, x: Txn, e: Event)
    requires e.Accept?
  {
    && (x.stage == Begun || x.stage == Complete)
    && (x.stage == Begun ==> WroteNothing(x))
    && (x.stage == Complete ==>
      && HasQueueLock(lk, x, e.key) && e.at == x.at && e.id !in db.rows
      && FreshDelivery(db.rows, e.key.tenant, e.delivery) && FreshPlace(db.rows, e.key, e.place)
      && x.rows == map[e.id := AcceptedRow(db.rows, e.key, e.provider, e.delivery, e.place, e.at)]
      && x.recs == map[e.id := []] && x.ledger == map[])
  }

  ghost predicate ReplayOk(lk: Locking, db: Db, x: Txn, e: Event)
    requires e.Replay?
  {
    && x.stage != Settled
    && (x.stage == Begun ==> WroteNothing(x))
    && (x.stage == Marked || x.stage == Complete ==>
      && Replayable(db, e.id) && HasQueueLock(lk, x, db.rows[e.id].key) && e.at == x.at
      && FreshPlace(db.rows, db.rows[e.id].key, e.place)
      && x.rows == map[e.id := ReplayedRow(db.rows, db.rows[e.id], e.place, e.at)]
      && x.recs == (if x.stage == Marked then map[] else map[e.id := Revive(db.recs[e.id])]) && x.ledger == map[])
  }

  /** The record statements of a finish, as long as the worker still holds its row. */
  ghost predicate SettlingOk(db: Db, x: Txn, c: ClaimId, refusedAtAll: set<RecordId>) {
    && x.recs.Keys <= {c.row} && x.refused <= refusedAtAll
    && (x.stage == Begun ==> (x.recs == map[] <==> x.refused == {}))
    && (x.stage != Begun ==> c.row in x.recs)
    && (c.row in db.rows && db.rows[c.row].HeldBy(c.token) && c.row in x.recs ==>
      && c.row in db.recs
      && x.recs[c.row] == (if x.stage == Begun then RefuseIn(db.recs[c.row], x.refused) else SettleAll(db.recs[c.row], refusedAtAll)))
  }

  /** The rows a finish wrote: its own, and after the promotion the queue's next head. */
  ghost predicate EndingRows(rows: Rows, written: Rows, id: RowId, to: RowState, promoted: bool)
    requires id in rows
  {
    var mid := rows[id := FinishedRow(rows[id], to)];
    if promoted && Busy(mid, rows[id].key) then
      exists n :: NextIs(mid, n, rows[id].key) && written == map[id := mid[id]][n := mid[n].(isHead := true)]
    else
      written == map[id := mid[id]]
  }

  ghost predicate NextIs(rows: Rows, n: RowId, key: Key) {
    IsLowest(rows, n) && rows[n].key == key
  }

  ghost predicate EndOk(lk: Locking, s: Sys, x: Txn, c: ClaimId)
    requires c in s.handles
  {
    && x.ledger == map[]
    && (x.event.Finish? ==> SettlingOk(s.db, x, c, RefusedIn(s.handles[c].phase)))
    && (x.event.Finish? && c.row in x.recs ==> c.row in s.db.rows && HasQueueLock(lk, x, s.db.rows[c.row].key))
    && (!x.event.Finish? ==> x.recs == map[] && x.stage != Settled)
    && (x.stage == Begun || x.stage == Settled ==> x.rows == map[])
    && (x.stage == Marked || x.stage == Complete ==>
      && Guarded(s, c) && HasQueueLock(lk, x, s.db.rows[c.row].key)
      && EndingRows(s.db.rows, x.rows, c.row, EndState(x.event), x.stage == Complete))
  }

  ghost predicate GiveBackOk(s: Sys, x: Txn, c: ClaimId)
    requires x.event.Release? || x.event.Halt? || x.event.Fail?
  {
    && (x.stage == Begun || x.stage == Complete)
    && (x.stage == Begun ==> WroteNothing(x))
    && (x.stage == Complete ==>
      Guarded(s, c) && x.rows == map[c.row := GivenBack(x.event, s.db.rows[c.row])] && x.recs == map[] && x.ledger == map[])
  }

  ghost predicate AdmittedOk(cfg: Config, lk: Locking, t: Ledger.Table, x: Txn, records: seq<RecordId>) {
    if x.count == 0 then
      x.ledger == map[] && x.prepared == [] && x.decided == {}
    else
      && x.count <= |records| && HasEntityLocks(lk, x, records)
      && var b := Ledger.AdmitAll(t, cfg.compare, records[..x.count]);
         b.Admitted? && x.ledger == Restrict(b.table, Entities(records)) && x.prepared == b.prepared && x.decided == b.decided
  }

  ghost predicate PrepareOk(cfg: Config, lk: Locking, s: Sys, x: Txn, c: ClaimId, records: seq<RecordId>) {
    && AdmittedOk(cfg, lk, s.db.ledger, x, records)
    && x.stage != Settled
    && (x.stage == Begun ==> x.rows == map[] && x.recs == map[])
    && (x.stage == Marked || x.stage == Complete ==>
      && x.count == |records| && Guarded(s, c) && s.db.rows[c.row].state == Pending
      && x.rows == map[c.row := PreparedRow(s.db.rows[c.row])]
      && x.recs == (if x.stage == Marked then map[] else map[c.row := Stored(x.prepared)]))
  }

  ghost predicate ClaimOk(s: Sys, x: Txn, e: Event)
    requires e.Claim?
  {
    && x.stage == Begun && x.recs == map[] && x.ledger == map[] && e.ids == x.rows.Keys
    && forall id :: id in x.rows ==>
         && id in s.db.rows && s.db.rows[id].isHead && s.db.rows[id].DueAt() <= x.at
         && x.rows[id] == ClaimedRow(s.db.rows[id], e.token, e.until)
  }

  ghost predicate Progress(cfg: Config, lk: Locking, s: Sys, x: Txn)
    requires MayStart(cfg, s, x.event)
  {
    match x.event
    case Accept(_, _, _, _, _, _) => AcceptOk(lk, s.db, x, x.event)
    case Replay(_, _, _) => ReplayOk(lk, s.db, x, x.event)
    case Claim(_, _, _) => ClaimOk(s, x, x.event)
    case Prepare(c, records) => PrepareOk(cfg, lk, s, x, c, records)
    case _ => WorkerOk(cfg, lk, s, x)
  }

  ghost predicate WorkerOk(cfg: Config, lk: Locking, s: Sys, x: Txn) {
    && (Ends(cfg, s, x.event) && x.event.c in s.handles ==> EndOk(lk, s, x, x.event.c))
    && (GivesBack(cfg, s, x.event) ==> GiveBackOk(s, x, x.event.c))
  }

  /** Everything known of an open transaction, in terms of what is committed. */
  ghost predicate TxnOk(cfg: Config, lk: Locking, s: Sys, x: Txn) {
    && x.at <= s.now
    && (!x.event.Prepare? ==> x.decided == {})
    && MayStart(cfg, s, x.event)
    && Progress(cfg, lk, s, x)
  }

  // ---- What another transaction's commit leaves alone --------------------------------------------------

  predicate SameName(a: Row, b: Row) {
    a.key == b.key && a.provider == b.provider && a.delivery == b.delivery
  }

  /** Names never change; a queue whose lock is held does not; a row that was written does not. */
  ghost predicate RowsApart(lk: Locking, rows: Rows, rows': Rows, x: Txn) {
    && (forall id :: id in rows ==> id in rows' && SameName(rows[id], rows'[id]))
    && (forall id :: id in rows' && HasQueueLock(lk, x, rows'[id].key) ==> id in rows && SameInQueue(rows[id], rows'[id]))
    && (forall id :: id in x.rows ==> (id in rows <==> id in rows') && (id in rows ==> rows'[id] == rows[id]))
  }

  ghost predicate RecsApart(recs: map<RowId, seq<Rec>>, recs': map<RowId, seq<Rec>>, x: Txn) {
    forall id :: id in x.rows && id in recs ==> id in recs' && recs'[id] == recs[id]
  }

  ghost predicate LedgerApart(lk: Locking, t: Ledger.Table, t': Ledger.Table, x: Txn) {
    forall id: RecordId :: lk.entityLock(id.entity) in x.locks ==> (id in t <==> id in t') && (id in t ==> t[id] == t'[id])
  }

  /** The worker remembers what it did, and if it still holds its row then nobody else did in between. */
  ghost predicate ActorApart(s: Sys, s': Sys, c: ClaimId) {
    && (c in s.handles ==> c in s'.handles && s'.handles[c] == s.handles[c])
    && (c in s.handles && c.row in s'.db.rows && s'.db.rows[c.row].HeldBy(c.token) ==>
      && c.row in s.db.rows && s.db.rows[c.row].HeldBy(c.token)
      && (c.row in s.db.recs ==> c.row in s'.db.recs && s'.db.recs[c.row] == s.db.recs[c.row]))
  }

  /** `s'` may follow `s` while `x` is open: what `x` locked, wrote or holds is untouched. */
  ghost predicate Apart(lk: Locking, s: Sys, s': Sys, x: Txn) {
    && s.now <= s'.now
    && RowsApart(lk, s.db.rows, s'.db.rows, x)
    && RecsApart(s.db.recs, s'.db.recs, x)
    && LedgerApart(lk, s.db.ledger, s'.db.ledger, x)
    && (Actor(x.event).Some? ==> ActorApart(s, s', Actor(x.event).value))
    && (x.event.Accept? && x.stage == Complete ==> FreshDelivery(s'.db.rows, x.event.key.tenant, x.event.delivery))
    && (x.event.Claim? ==> x.event.token !in s'.tokens)
  }

  lemma SameBusy(lk: Locking, rows: Rows, rows': Rows, x: Txn, key: Key)
    requires RowsApart(lk, rows, rows', x) && HasQueueLock(lk, x, key)
    ensures Busy(rows, key) <==> Busy(rows', key)
  {
    if Busy(rows, key) {
      var id :| id in rows && rows[id].key == key && rows[id].Unfinished();
      assert SameName(rows[id], rows'[id]) && SameInQueue(rows[id], rows'[id]);
      assert rows'[id].key == key && rows'[id].Unfinished();
    }
    if Busy(rows', key) {
      var id :| id in rows' && rows'[id].key == key && rows'[id].Unfinished();
      assert SameInQueue(rows[id], rows'[id]);
      assert rows[id].key == key && rows[id].Unfinished();
    }
  }

  lemma SameFreshPlace(lk: Locking, rows: Rows, rows': Rows, x: Txn, key: Key, place: nat)
    requires RowsApart(lk, rows, rows', x) && HasQueueLock(lk, x, key) && FreshPlace(rows, key, place)
    ensures FreshPlace(rows', key, place)
  {
    forall id | id in rows' && rows'[id].key == key
      ensures rows'[id].place < place
    {
      assert SameInQueue(rows[id], rows'[id]);
    }
  }

  lemma AcceptStays(lk: Locking, s: Sys, s': Sys, x: Txn)
    requires x.event.Accept? && AcceptOk(lk, s.db, x, x.event) && Apart(lk, s, s', x)
    ensures AcceptOk(lk, s'.db, x, x.event)
  {
    if x.stage == Complete {
      SameBusy(lk, s.db.rows, s'.db.rows, x, x.event.key);
      SameFreshPlace(lk, s.db.rows, s'.db.rows, x, x.event.key, x.event.place);
      assert x.event.id in x.rows;
    }
  }

  lemma ReplayStays(lk: Locking, s: Sys, s': Sys, x: Txn)
    requires x.event.Replay? && ReplayOk(lk, s.db, x, x.event) && Apart(lk, s, s', x)
    ensures ReplayOk(lk, s'.db, x, x.event)
  {
    if x.stage == Marked || x.stage == Complete {
      var id := x.event.id;
      assert id in x.rows;
      SameBusy(lk, s.db.rows, s'.db.rows, x, s.db.rows[id].key);
      SameFreshPlace(lk, s.db.rows, s'.db.rows, x, s.db.rows[id].key, x.event.place);
    }
  }

  lemma EndingStays(lk: Locking, rows: Rows, rows': Rows, x: Txn, id: RowId, to: RowState, promoted: bool)
    requires RowsApart(lk, rows, rows', x) && id in rows && HasQueueLock(lk, x, rows[id].key)
    requires to == Delivered || to == Dead
    requires EndingRows(rows, x.rows, id, to, promoted)
    ensures id in rows' && EndingRows(rows', x.rows, id, to, promoted)
  {
    assert id in x.rows;
    var key := rows[id].key;
    var mid, mid' := rows[id := FinishedRow(rows[id], to)], rows'[id := FinishedRow(rows'[id], to)];
    MidApart(lk, rows, rows', x, id, to);
    SameBusy(lk, mid, mid', x, key);
    if promoted && Busy(mid, key) {
      var n :| NextIs(mid, n, key) && x.rows == map[id := mid[id]][n := mid[n].(isHead := true)];
      assert n in x.rows;
      forall other | other in mid' && mid'[other].key == mid'[n].key && mid'[other].Unfinished()
        ensures mid'[n].place <= mid'[other].place
      {
        assert SameInQueue(mid[other], mid'[other]);
      }
      assert NextIs(mid', n, key);
    }
  }

  lemma MidApart(lk: Locking, rows: Rows, rows': Rows, x: Txn, id: RowId, to: RowState)
    requires RowsApart(lk, rows, rows', x) && id in rows && id in x.rows
    ensures RowsApart(lk, rows[id := FinishedRow(rows[id], to)], rows'[id := FinishedRow(rows'[id], to)], x)
  {
  }

  lemma EndStays(lk: Locking, s: Sys, s': Sys, x: Txn, c: ClaimId)
    requires c in s.handles && Actor(x.event) == Some(c) && EndOk(lk, s, x, c) && Apart(lk, s, s', x)
    ensures c in s'.handles && EndOk(lk, s', x, c)
  {
    if x.stage == Marked || x.stage == Complete {
      EndingStays(lk, s.db.rows, s'.db.rows, x, c.row, EndState(x.event), x.stage == Complete);
      assert c.row in x.rows;
    }
    if c.row in s.db.rows {
      assert SameName(s.db.rows[c.row], s'.db.rows[c.row]);
    }
  }

  lemma EntitiesAgree(lk: Locking, t: Ledger.Table, t': Ledger.Table, x: Txn, records: seq<RecordId>)
    requires LedgerApart(lk, t, t', x) && HasEntityLocks(lk, x, records)
    ensures Ledger.Agree(t, t', Entities(records))
  {
  }

  lemma AdmittedStays(cfg: Config, lk: Locking, t: Ledger.Table, t': Ledger.Table, x: Txn, records: seq<RecordId>)
    requires LedgerApart(lk, t, t', x) && AdmittedOk(cfg, lk, t, x, records)
    ensures AdmittedOk(cfg, lk, t', x, records)
  {
    if x.count > 0 {
      var es := Entities(records);
      EntitiesAgree(lk, t, t', x, records);
      Ledger.AdmitAllFrame(t, t', es, cfg.compare, records[..x.count]);
      var a, b := Ledger.AdmitAll(t, cfg.compare, records[..x.count]), Ledger.AdmitAll(t', cfg.compare, records[..x.count]);
      assert Ledger.Agree(a.table, b.table, es);
      assert Restrict(a.table, es) == Restrict(b.table, es);
    }
  }

  lemma PrepareStays(cfg: Config, lk: Locking, s: Sys, s': Sys, x: Txn, c: ClaimId, records: seq<RecordId>)
    requires PrepareOk(cfg, lk, s, x, c, records) && Apart(lk, s, s', x)
    ensures PrepareOk(cfg, lk, s', x, c, records)
  {
    AdmittedStays(cfg, lk, s.db.ledger, s'.db.ledger, x, records);
    if x.stage == Marked || x.stage == Complete {
      assert c.row in x.rows;
    }
  }

  lemma GiveBackStays(lk: Locking, s: Sys, s': Sys, x: Txn, c: ClaimId)
    requires x.event.Release? || x.event.Halt? || x.event.Fail?
    requires GiveBackOk(s, x, c) && Apart(lk, s, s', x)
    ensures GiveBackOk(s', x, c)
  {
    if x.stage == Complete {
      assert c.row in x.rows;
    }
  }

  lemma MayStartStays(cfg: Config, lk: Locking, s: Sys, s': Sys, x: Txn)
    requires MayStart(cfg, s, x.event) && Apart(lk, s, s', x)
    ensures MayStart(cfg, s', x.event)
    ensures Ends(cfg, s, x.event) <==> Ends(cfg, s', x.event)
    ensures GivesBack(cfg, s, x.event) <==> GivesBack(cfg, s', x.event)
  {
    if x.event.Prepare? {
      assert SameName(s.db.rows[x.event.c.row], s'.db.rows[x.event.c.row]);
    }
  }

  /** Whatever another transaction commits, an open transaction stays as far as it was. */
  lemma TxnStays(cfg: Config, lk: Locking, s: Sys, s': Sys, x: Txn)
    requires TxnOk(cfg, lk, s, x) && Apart(lk, s, s', x)
    ensures TxnOk(cfg, lk, s', x)
  {
    MayStartStays(cfg, lk, s, s', x);
    match x.event
    case Accept(_, _, _, _, _, _) => AcceptStays(lk, s, s', x);
    case Replay(_, _, _) => ReplayStays(lk, s, s', x);
    case Claim(_, _, _) => ClaimStays(lk, s, s', x);
    case Prepare(c, records) => PrepareStays(cfg, lk, s, s', x, c, records);
    case _ => WorkerStays(cfg, lk, s, s', x);
  }

  lemma ClaimStays(lk: Locking, s: Sys, s': Sys, x: Txn)
    requires x.event.Claim? && ClaimOk(s, x, x.event) && Apart(lk, s, s', x)
    ensures ClaimOk(s', x, x.event)
  {
  }

  lemma WorkerStays(cfg: Config, lk: Locking, s: Sys, s': Sys, x: Txn)
    requires MayStart(cfg, s, x.event) && WorkerOk(cfg, lk, s, x) && Apart(lk, s, s', x)
    ensures WorkerOk(cfg, lk, s', x)
  {
    MayStartStays(cfg, lk, s, s', x);
    if Ends(cfg, s, x.event) {
      EndStays(lk, s, s', x, x.event.c);
    }
    if GivesBack(cfg, s, x.event) {
      GiveBackStays(lk, s, s', x, x.event.c);
    }
  }
}
