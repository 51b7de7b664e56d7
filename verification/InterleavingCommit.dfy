/** What one transaction commits: exactly what the drain's atomic event does, and nothing that another open
    transaction has locked, written or holds. */
module InterleavingCommit {
  import opened Names
  import opened Queue
  import Ledger
  import opened Drain
  import opened DrainTables
  import opened DrainWorkers
  import opened DrainTheorems
  import opened Interleaving
  import opened InterleavingTxns

  // ---- A commit is an event ------------------------------------------------------------------------

  predicate Finished(x: Txn) {
    x.stage == Complete || x.event.Claim?
  }

  /** Committing `x` is the atomic event it is for. */
  ghost predicate IsEvent(cfg: Config, s: Sys, x: Txn) {
    Step(cfg, s, x.event, Committed(s, x))
  }

  lemma Nothing<K, V>(m: map<K, V>)
    ensures m + map[] == m
  {
  }

  lemma One<K, V>(m: map<K, V>, k: K, v: V)
    ensures m + map[k := v] == m[k := v]
  {
  }

  lemma AcceptEnabled(cfg: Config, lk: Locking, s: Sys, x: Txn)
    requires x.event.Accept? && TxnOk(cfg, lk, s, x) && x.stage == Complete
    ensures Enabled(cfg, s, x.event) && AcceptOk(lk, s.db, x, x.event) && x.decided == {}
  {
  }

  lemma CommitAccept(cfg: Config, lk: Locking, s: Sys, x: Txn)
    requires x.event.Accept? && TxnOk(cfg, lk, s, x) && Finished(x)
    ensures IsEvent(cfg, s, x)
  {
    var e := x.event;
    AcceptEnabled(cfg, lk, s, x);
    One(s.db.rows, e.id, AcceptedRow(s.db.rows, e.key, e.provider, e.delivery, e.place, e.at));
    One(s.db.recs, e.id, []);
    Nothing(s.db.ledger);
  }

  lemma ReplayEnabled(cfg: Config, lk: Locking, s: Sys, x: Txn)
    requires x.event.Replay? && TxnOk(cfg, lk, s, x) && x.stage == Complete
    ensures Enabled(cfg, s, x.event) && ReplayOk(lk, s.db, x, x.event) && x.decided == {}
  {
  }

  lemma ReplayCommits(cfg: Config, s: Sys, x: Txn, id: RowId, row: Row)
    requires x.event.Replay? && Enabled(cfg, s, x.event) && id == x.event.id && x.decided == {}
    requires row == ReplayedRow(s.db.rows, s.db.rows[id], x.event.place, x.event.at) && x.rows == map[id := row]
    requires x.recs == map[id := Revive(s.db.recs[id])] && x.ledger == map[]
    ensures Committed(s, x) == Apply(cfg, s, x.event)
  {
    One(s.db.rows, id, row);
    One(s.db.recs, id, Revive(s.db.recs[id]));
    Nothing(s.db.ledger);
  }

  lemma CommitReplay(cfg: Config, lk: Locking, s: Sys, x: Txn)
    requires x.event.Replay? && TxnOk(cfg, lk, s, x) && Finished(x)
    ensures IsEvent(cfg, s, x)
  {
    ReplayEnabled(cfg, lk, s, x);
    ReplayCommits(cfg, s, x, x.event.id, ReplayedRow(s.db.rows, s.db.rows[x.event.id], x.event.place, x.event.at));
  }

  lemma ClaimedRows(rows: Rows, written: Rows, token: Token, until: int)
    requires forall id :: id in written ==> id in rows && written[id] == ClaimedRow(rows[id], token, until)
    ensures rows + written == Queue.Claim(rows, written.Keys, token, until)
  {
  }

  lemma ClaimedHandles(rows: Rows, written: Rows, token: Token, until: int)
    requires forall id :: id in written ==> id in rows && written[id] == ClaimedRow(rows[id], token, until)
    ensures HandedOut(written, token) == Claims(written.Keys, token, rows)
  {
    var a, b := HandedOut(written, token), Claims(written.Keys, token, rows);
    assert a.Keys == b.Keys by {
      forall c | c in a
        ensures c in b
      {
        assert c.row in written;
      }
    }
  }

  lemma ClaimCommits(cfg: Config, s: Sys, x: Txn)
    requires x.event.Claim? && Enabled(cfg, s, x.event) && x.event.ids == x.rows.Keys
    requires x.recs == map[] && x.ledger == map[] && x.decided == {}
    requires s.db.rows + x.rows == Queue.Claim(s.db.rows, x.event.ids, x.event.token, x.event.until)
    requires HandedOut(x.rows, x.event.token) == Claims(x.event.ids, x.event.token, s.db.rows)
    ensures Committed(s, x) == Apply(cfg, s, x.event)
  {
    Nothing(s.db.recs);
    Nothing(s.db.ledger);
  }

  lemma ClaimEnabled(cfg: Config, lk: Locking, s: Sys, x: Txn)
    requires x.event.Claim? && TxnOk(cfg, lk, s, x)
    ensures Enabled(cfg, s, x.event) && ClaimOk(s, x, x.event) && x.decided == {}
  {
  }

  lemma CommitClaim(cfg: Config, lk: Locking, s: Sys, x: Txn)
    requires x.event.Claim? && TxnOk(cfg, lk, s, x) && Finished(x)
    ensures IsEvent(cfg, s, x)
  {
    ClaimEnabled(cfg, lk, s, x);
    ClaimedRows(s.db.rows, x.rows, x.event.token, x.event.until);
    ClaimedHandles(s.db.rows, x.rows, x.event.token, x.event.until);
    ClaimCommits(cfg, s, x);
  }

  lemma GiveBackEnabled(cfg: Config, lk: Locking, s: Sys, x: Txn, c: ClaimId, row: Row)
    requires GivesBack(cfg, s, x.event) && TxnOk(cfg, lk, s, x) && Finished(x) && c == x.event.c
    requires c.row in s.db.rows && row == GivenBack(x.event, s.db.rows[c.row])
    ensures Enabled(cfg, s, x.event) && RowChangeOf(cfg, s, x.event) == RowChange.Touch(c.row, row)
  {
  }

  lemma GiveBackCommits(cfg: Config, s: Sys, x: Txn, id: RowId, row: Row)
    requires (x.event.Release? || x.event.Halt? || x.event.Fail?) && Enabled(cfg, s, x.event) && x.event.c.row == id && x.decided == {}
    requires RowChangeOf(cfg, s, x.event) == RowChange.Touch(id, row) && row.Unfinished()
    requires x.rows == map[id := row] && x.recs == map[] && x.ledger == map[]
    ensures Committed(s, x) == Apply(cfg, s, x.event)
  {
    One(s.db.rows, id, row);
    Nothing(s.db.recs);
    Nothing(s.db.ledger);
  }

  lemma CommitGiveBack(cfg: Config, lk: Locking, s: Sys, x: Txn)
    requires TxnOk(cfg, lk, s, x) && Finished(x) && GivesBack(cfg, s, x.event)
    ensures IsEvent(cfg, s, x)
  {
    var c := x.event.c;
    GiveBackEnabled(cfg, lk, s, x, c, GivenBack(x.event, s.db.rows[c.row]));
    GiveBackCommits(cfg, s, x, c.row, GivenBack(x.event, s.db.rows[c.row]));
  }

  // ---- Finishing -------------------------------------------------------------------------------------

  /** The promotion picks the row the atomic finish picks. */
  lemma EndedRows(rows: Rows, written: Rows, id: RowId, to: RowState)
    requires PlacesDistinct(rows) && id in rows && EndingRows(rows, written, id, to, true)
    ensures rows + written == Queue.Finish(rows, id, to)
  {
    var mid, key := rows[id := FinishedRow(rows[id], to)], rows[id].key;
    if Busy(mid, key) {
      var n :| NextIs(mid, n, key) && written == map[id := mid[id]][n := mid[n].(isHead := true)];
      LowestUnique(mid, n, NextHead(mid, key));
    }
  }

  lemma SettledRecs(recs: map<RowId, seq<Rec>>, written: map<RowId, seq<Rec>>, id: RowId, refused: set<RecordId>)
    requires written.Keys == {id} && id in recs && written[id] == SettleAll(recs[id], refused)
    ensures recs + written == recs[id := SettleAll(recs[id], refused)]
  {
  }

  lemma FinishCommits(cfg: Config, s: Sys, x: Txn, c: ClaimId)
    requires x.event.Finish? && Enabled(cfg, s, x.event) && x.event.c == c && x.ledger == map[] && x.decided == {}
    requires s.db.rows + x.rows == Queue.Finish(s.db.rows, c.row, Delivered)
    requires s.db.recs + x.recs == s.db.recs[c.row := SettleAll(s.db.recs[c.row], RefusedIn(s.handles[c].phase))]
    requires FinishIn(x.rows, c.row) == [Done(c.row, s.db.rows[c.row].key, s.db.rows[c.row].place)]
    ensures Committed(s, x) == Apply(cfg, s, x.event)
  {
    Nothing(s.db.ledger);
  }

  lemma FinishEnabled(cfg: Config, lk: Locking, s: Sys, x: Txn, c: ClaimId)
    requires x.event.Finish? && TxnOk(cfg, lk, s, x) && x.stage == Complete && c == x.event.c
    ensures Enabled(cfg, s, x.event) && EndOk(lk, s, x, c) && x.decided == {}
  {
  }

  lemma CommitFinish(cfg: Config, lk: Locking, s: Sys, x: Txn)
    requires x.event.Finish? && TxnOk(cfg, lk, s, x) && Finished(x) && PlacesDistinct(s.db.rows)
    ensures IsEvent(cfg, s, x)
  {
    var c := x.event.c;
    FinishEnabled(cfg, lk, s, x, c);
    EndedRows(s.db.rows, x.rows, c.row, Delivered);
    SettledRecs(s.db.recs, x.recs, c.row, RefusedIn(s.handles[c].phase));
    EndedHistory(s.db.rows, x.rows, c.row, Delivered);
    FinishCommits(cfg, s, x, c);
  }

  lemma EndedHistory(rows: Rows, written: Rows, id: RowId, to: RowState)
    requires id in rows && EndingRows(rows, written, id, to, true) && (to == Delivered || to == Dead)
    ensures FinishIn(written, id) == [Done(id, rows[id].key, rows[id].place)]
  {
  }

  lemma DeadCommits(cfg: Config, s: Sys, x: Txn, id: RowId)
    requires Enabled(cfg, s, x.event) && (x.event.Abandon? || x.event.MarkDead? || x.event.Fail?)
    requires RowChangeOf(cfg, s, x.event) == RowChange.End(id, Dead) && id == x.event.c.row && id in s.db.rows
    requires s.db.rows + x.rows == Queue.Finish(s.db.rows, id, Dead)
    requires x.recs == map[] && x.ledger == map[] && x.decided == {}
    requires History(x) == [Done(id, s.db.rows[id].key, s.db.rows[id].place)]
    ensures Committed(s, x) == Apply(cfg, s, x.event)
  {
    Nothing(s.db.recs);
    Nothing(s.db.ledger);
  }

  lemma DeadEnabled(cfg: Config, lk: Locking, s: Sys, x: Txn)
    requires Ends(cfg, s, x.event) && !x.event.Finish? && TxnOk(cfg, lk, s, x) && Finished(x)
    ensures Enabled(cfg, s, x.event) && RowChangeOf(cfg, s, x.event) == RowChange.End(x.event.c.row, Dead)
  {
  }

  lemma CommitDead(cfg: Config, lk: Locking, s: Sys, x: Txn)
    requires Ends(cfg, s, x.event) && !x.event.Finish? && TxnOk(cfg, lk, s, x) && Finished(x) && PlacesDistinct(s.db.rows)
    ensures IsEvent(cfg, s, x)
  {
    var c := x.event.c;
    DeadEnabled(cfg, lk, s, x);
    EndedRows(s.db.rows, x.rows, c.row, Dead);
    EndedHistory(s.db.rows, x.rows, c.row, Dead);
    DeadCommits(cfg, s, x, c.row);
  }

  // ---- Preparing -------------------------------------------------------------------------------------

  lemma AdmittedLedger(cfg: Config, lk: Locking, t: Ledger.Table, x: Txn, records: seq<RecordId>)
    requires AdmittedOk(cfg, lk, t, x, records) && x.count <= |records|
    ensures Ledger.AdmitAll(t, cfg.compare, records[..x.count]) == Ledger.Admitted(t + x.ledger, x.prepared, x.decided)
  {
    if x.count > 0 {
      var rs, es := records[..x.count], Entities(records);
      Ledger.AdmitAllFrame(t, t, es, cfg.compare, rs);
      var b := Ledger.AdmitAll(t, cfg.compare, rs);
      Ledger.AdmitAllAdds(t, cfg.compare, rs);
      OutsideRestrict(t, b.table, es);
    }
  }

  lemma OutsideRestrict(t: Ledger.Table, u: Ledger.Table, es: set<Entity>)
    requires Ledger.AgreeOutside(t, u, es) && t.Keys <= u.Keys
    ensures t + Restrict(u, es) == u
  {
  }

  lemma PrepareEnabled(cfg: Config, lk: Locking, s: Sys, x: Txn)
    requires x.event.Prepare? && TxnOk(cfg, lk, s, x) && Finished(x)
    requires Ledger.AdmitAll(s.db.ledger, cfg.compare, x.event.records).Admitted?
    ensures Enabled(cfg, s, x.event)
  {
  }

  lemma PrepareCommits(cfg: Config, s: Sys, x: Txn, c: ClaimId)
    requires x.event.Prepare? && Enabled(cfg, s, x.event) && x.event.c == c
    requires Ledger.AdmitAll(s.db.ledger, cfg.compare, x.event.records) == Ledger.Admitted(s.db.ledger + x.ledger, x.prepared, x.decided)
    requires x.rows == map[c.row := PreparedRow(s.db.rows[c.row])] && x.recs == map[c.row := Stored(x.prepared)]
    ensures Committed(s, x) == Apply(cfg, s, x.event)
  {
    One(s.db.rows, c.row, PreparedRow(s.db.rows[c.row]));
    One(s.db.recs, c.row, Stored(x.prepared));
  }

  lemma CommitPrepare(cfg: Config, lk: Locking, s: Sys, x: Txn)
    requires x.event.Prepare? && TxnOk(cfg, lk, s, x) && Finished(x)
    ensures IsEvent(cfg, s, x)
  {
    AdmittedLedger(cfg, lk, s.db.ledger, x, x.event.records);
    assert x.event.records[..x.count] == x.event.records;
    PrepareEnabled(cfg, lk, s, x);
    PrepareCommits(cfg, s, x, x.event.c);
  }

  /** Every commit of the fine-grained machine is the event the transaction was for. */
  lemma CommitIsEvent(cfg: Config, lk: Locking, s: Sys, x: Txn)
    requires TxnOk(cfg, lk, s, x) && Finished(x) && PlacesDistinct(s.db.rows)
    ensures IsEvent(cfg, s, x)
  {
    if x.event.Accept? {
      CommitAccept(cfg, lk, s, x);
    } else if x.event.Replay? {
      CommitReplay(cfg, lk, s, x);
    } else if x.event.Claim? {
      CommitClaim(cfg, lk, s, x);
    } else if x.event.Prepare? {
      CommitPrepare(cfg, lk, s, x);
    } else {
      CommitOther(cfg, lk, s, x);
    }
  }

  lemma CommitOther(cfg: Config, lk: Locking, s: Sys, x: Txn)
    requires TxnOk(cfg, lk, s, x) && Finished(x) && PlacesDistinct(s.db.rows)
    requires x.event.Abandon? || x.event.Release? || x.event.Finish? || x.event.Fail? || x.event.MarkDead? || x.event.Halt?
    ensures IsEvent(cfg, s, x)
  {
    if x.event.Finish? {
      CommitFinish(cfg, lk, s, x);
    } else if Ends(cfg, s, x.event) {
      CommitDead(cfg, lk, s, x);
    } else {
      CommitGiveBack(cfg, lk, s, x);
    }
  }

  // ---- A commit stays within what its transaction locked ---------------------------------------------

  /** What a transaction wrote: rows it only moves within the queue under the queue's lock, records of rows
      it wrote, ledger rows of entities it locked, leases of its own. */
  ghost predicate Covered(lk: Locking, s: Sys, y: Txn) {
    && (forall id :: id in y.rows ==> RowCovered(lk, s.db.rows, y, id))
    && (forall id, token :: id in y.rows && y.rows[id].HeldBy(token) ==> LeaseCovered(s.db.rows, y, id, token))
    && y.recs.Keys <= y.rows.Keys
    && (forall id: RecordId :: id in y.ledger ==> lk.entityLock(id.entity) in y.locks)
  }

  ghost predicate RowCovered(lk: Locking, rows: Rows, y: Txn, id: RowId)
    requires id in y.rows
  {
    if id in rows then
      SameName(rows[id], y.rows[id]) && (HasQueueLock(lk, y, y.rows[id].key) || SameInQueue(rows[id], y.rows[id]))
    else
      HasQueueLock(lk, y, y.rows[id].key) && y.event.Accept? && y.stage == Complete
      && y.rows[id].key == y.event.key && y.rows[id].delivery == y.event.delivery
  }

  ghost predicate LeaseCovered(rows: Rows, y: Txn, id: RowId, token: Token) {
    if y.event.Claim? then token == y.event.token
    else id in rows && rows[id].HeldBy(token) && Actor(y.event) == Some(ClaimId(token, id))
  }

  lemma AcceptCovered(lk: Locking, s: Sys, y: Txn)
    requires y.event.Accept? && AcceptOk(lk, s.db, y, y.event) && Finished(y)
    ensures Covered(lk, s, y)
  {
  }

  lemma ReplayCovered(lk: Locking, s: Sys, y: Txn)
    requires y.event.Replay? && ReplayOk(lk, s.db, y, y.event) && Finished(y) && QueueOk(s.db.rows)
    ensures Covered(lk, s, y)
  {
    assert LeaseOk(s.db.rows[y.event.id]);
    assert s.db.rows[y.event.id].isHead <==> IsLowest(s.db.rows, y.event.id);
  }

  lemma ClaimCovered(lk: Locking, s: Sys, y: Txn)
    requires y.event.Claim? && ClaimOk(s, y, y.event)
    ensures Covered(lk, s, y)
  {
  }

  lemma GiveBackCovered(lk: Locking, s: Sys, y: Txn, c: ClaimId)
    requires (y.event.Release? || y.event.Halt? || y.event.Fail?) && GiveBackOk(s, y, c) && Finished(y)
    ensures Covered(lk, s, y)
  {
  }

  lemma PrepareCovered(cfg: Config, lk: Locking, s: Sys, y: Txn)
    requires y.event.Prepare? && PrepareOk(cfg, lk, s, y, y.event.c, y.event.records) && Finished(y)
    ensures Covered(lk, s, y)
  {
  }

  lemma EndCovered(lk: Locking, s: Sys, y: Txn, c: ClaimId)
    requires c in s.handles && EndOk(lk, s, y, c) && y.stage == Complete && QueueOk(s.db.rows)
    requires !y.event.Claim? && (y.event.Finish? ==> y.event.c == c)
    ensures Covered(lk, s, y)
  {
    EndingCovered(lk, s.db.rows, y, c.row, EndState(y.event));
  }

  lemma EndingCovered(lk: Locking, rows: Rows, y: Txn, id: RowId, to: RowState)
    requires id in rows && QueueOk(rows) && HasQueueLock(lk, y, rows[id].key)
    requires rows[id].lease.Held? && (to == Delivered || to == Dead)
    requires EndingRows(rows, y.rows, id, to, true)
    ensures id in y.rows && forall x :: x in y.rows ==> RowCovered(lk, rows, y, x) && !y.rows[x].lease.Held?
  {
    var mid, key := rows[id := FinishedRow(rows[id], to)], rows[id].key;
    if Busy(mid, key) {
      var n :| NextIs(mid, n, key) && y.rows == map[id := mid[id]][n := mid[n].(isHead := true)];
      NextIsFree(rows, id, to, n);
      PairCovered(lk, rows, y, id, mid[id], n, mid[n].(isHead := true));
    }
  }

  lemma PairCovered(lk: Locking, rows: Rows, y: Txn, id: RowId, row: Row, n: RowId, next: Row)
    requires y.rows == map[id := row][n := next] && id in rows && n in rows
    requires SameName(rows[id], row) && SameName(rows[n], next) && rows[n].key == rows[id].key
    requires HasQueueLock(lk, y, rows[id].key) && !row.lease.Held? && !next.lease.Held?
    ensures forall x :: x in y.rows ==> RowCovered(lk, rows, y, x) && !y.rows[x].lease.Held?
  {
  }

  /** The row promoted was behind the head, so it is not leased. */
  lemma NextIsFree(rows: Rows, id: RowId, to: RowState, n: RowId)
    requires QueueOk(rows) && id in rows && rows[id].lease.Held? && (to == Delivered || to == Dead)
    requires NextIs(rows[id := FinishedRow(rows[id], to)], n, rows[id].key)
    ensures n != id && n in rows && rows[n].key == rows[id].key && !rows[n].lease.Held?
  {
    assert LeaseOk(rows[id]) && LeaseOk(rows[n]);
    if rows[n].isHead {
      LowestUnique(rows, id, n);
    }
  }

  lemma CommitCovered(cfg: Config, lk: Locking, s: Sys, y: Txn)
    requires TxnOk(cfg, lk, s, y) && Finished(y) && QueueOk(s.db.rows)
    ensures Covered(lk, s, y)
  {
    match y.event
    case Accept(_, _, _, _, _, _) => AcceptCovered(lk, s, y);
    case Replay(_, _, _) => ReplayCovered(lk, s, y);
    case Claim(_, _, _) => ClaimCovered(lk, s, y);
    case Prepare(_, _) => PrepareCovered(cfg, lk, s, y);
    case _ => WorkerCovered(cfg, lk, s, y);
  }

  lemma WorkerCovered(cfg: Config, lk: Locking, s: Sys, y: Txn)
    requires MayStart(cfg, s, y.event) && WorkerOk(cfg, lk, s, y) && y.stage == Complete && QueueOk(s.db.rows)
    requires y.event.Abandon? || y.event.Release? || y.event.Finish? || y.event.Fail? || y.event.MarkDead? || y.event.Halt?
    ensures Covered(lk, s, y)
  {
    if Ends(cfg, s, y.event) {
      EndCovered(lk, s, y, y.event.c);
    } else {
      GiveBackCovered(lk, s, y, y.event.c);
    }
  }

  // ---- So it leaves every other open transaction alone ------------------------------------------------

  /** Two open transactions: no lock and no written row in common, two workers, two tokens, two deliveries. */
  ghost predicate Separate(x: Txn, y: Txn) {
    && x.locks !! y.locks
    && x.rows.Keys !! y.rows.Keys
    && (Actor(x.event).Some? ==> Actor(y.event) != Actor(x.event))
    && (x.event.Claim? && y.event.Claim? ==> x.event.token != y.event.token)
    && (x.event.Accept? && y.event.Accept? && x.stage == Complete && y.stage == Complete ==>
        !(x.event.key.tenant == y.event.key.tenant && x.event.delivery == y.event.delivery))
  }

  lemma RowsStayApart(lk: Locking, s: Sys, x: Txn, y: Txn)
    requires Covered(lk, s, y) && Separate(x, y)
    ensures RowsApart(lk, s.db.rows, s.db.rows + y.rows, x)
  {
    var rows, rows' := s.db.rows, s.db.rows + y.rows;
    forall id | id in rows'
      ensures HasQueueLock(lk, x, rows'[id].key) ==> id in rows && SameInQueue(rows[id], rows'[id])
      ensures id in rows ==> SameName(rows[id], rows'[id])
      ensures id in x.rows ==> id in rows && rows'[id] == rows[id]
    {
      if id in y.rows {
        assert RowCovered(lk, rows, y, id);
        assert id in x.rows.Keys ==> id in y.rows.Keys;
      }
    }
  }

  lemma RecsStayApart(lk: Locking, s: Sys, x: Txn, y: Txn)
    requires Covered(lk, s, y) && Separate(x, y)
    ensures RecsApart(s.db.recs, s.db.recs + y.recs, x)
    ensures LedgerApart(lk, s.db.ledger, s.db.ledger + y.ledger, x)
  {
    forall id | id in x.rows && id in s.db.recs
      ensures id !in y.recs
    {
      assert id in x.rows.Keys;
    }
  }

  lemma DeliveryStaysFresh(lk: Locking, rows: Rows, x: Txn, y: Txn)
    requires forall id :: id in y.rows ==> RowCovered(lk, rows, y, id)
    requires Separate(x, y) && x.event.Accept? && x.stage == Complete
    requires FreshDelivery(rows, x.event.key.tenant, x.event.delivery)
    ensures FreshDelivery(rows + y.rows, x.event.key.tenant, x.event.delivery)
  {
    forall id | id in rows + y.rows
      ensures !((rows + y.rows)[id].key.tenant == x.event.key.tenant && (rows + y.rows)[id].delivery == x.event.delivery)
    {
      if id in y.rows {
        assert RowCovered(lk, rows, y, id);
      }
    }
  }

  /** A worker's memory is its own. */
  lemma HandleStays(s: Sys, y: Txn, c: ClaimId)
    requires c in s.handles && c.token in s.tokens && Actor(y.event) != Some(c) && (y.event.Claim? ==> y.event.token !in s.tokens)
    ensures c in Learned(s, y) && Learned(s, y)[c] == s.handles[c]
  {
  }

  lemma ActorStaysApart(lk: Locking, s: Sys, x: Txn, y: Txn, c: ClaimId)
    requires Covered(lk, s, y) && Separate(x, y) && Actor(x.event) == Some(c)
    requires c in s.handles ==> c.token in s.tokens
    requires y.event.Claim? ==> y.event.token !in s.tokens
    ensures ActorApart(s, Committed(s, y), c)
  {
    if c in s.handles {
      HandleStays(s, y, c);
    }
  }

  lemma CommitApart(cfg: Config, lk: Locking, s: Sys, x: Txn, y: Txn)
    requires QueueOk(s.db.rows) && HandlesOk(s)
    requires TxnOk(cfg, lk, s, x) && TxnOk(cfg, lk, s, y) && Finished(y) && Separate(x, y)
    ensures Apart(lk, s, Committed(s, y), x)
  {
    CommitCovered(cfg, lk, s, y);
    RowsStayApart(lk, s, x, y);
    RecsStayApart(lk, s, x, y);
    if x.event.Accept? && x.stage == Complete {
      DeliveryStaysFresh(lk, s.db.rows, x, y);
    }
    if Actor(x.event).Some? {
      var c := Actor(x.event).value;
      if c in s.handles {
        assert HandleFits(s, c);
      }
      ActorStaysApart(lk, s, x, y, c);
    }
  }

  /** Nor does anything that happens outside the transactions. */
  lemma DirectApart(cfg: Config, lk: Locking, s: Sys, x: Txn, e: Event)
    requires TxnOk(cfg, lk, s, x) && IsDirect(e) && Enabled(cfg, s, e)
    requires Actor(x.event).Some? ==> Actor(e) != Actor(x.event)
    ensures Apart(lk, s, Apply(cfg, s, e), x)
  {
    var s' := Apply(cfg, s, e);
    DirectKeeps(cfg, s, e);
    ApartBySame(cfg, lk, s, s', x);
  }

  lemma DirectKeeps(cfg: Config, s: Sys, e: Event)
    requires IsDirect(e) && Enabled(cfg, s, e)
    ensures var s' := Apply(cfg, s, e);
            && s'.db == s.db && s'.tokens == s.tokens && s.now <= s'.now
            && forall c :: c in s.handles && Actor(e) != Some(c) ==> c in s'.handles && s'.handles[c] == s.handles[c]
  {
  }

  lemma ApartBySame(cfg: Config, lk: Locking, s: Sys, s': Sys, x: Txn)
    requires TxnOk(cfg, lk, s, x) && s'.db == s.db && s'.tokens == s.tokens && s.now <= s'.now
    requires Actor(x.event).Some? && Actor(x.event).value in s.handles ==>
      var c := Actor(x.event).value; c in s'.handles && s'.handles[c] == s.handles[c]
    ensures Apart(lk, s, s', x)
  {
  }
}
