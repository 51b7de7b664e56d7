/** Nothing is lost and nothing is sent twice: the ledger and the records stored under the outbox rows are
    one set of ids, and a record is marked delivered only after the sink took it. */
module DrainRecords {
  import opened Names
  import opened Lists
  import opened Queue
  import Ledger
  import opened Drain
  import opened DrainTables

  type RecTable = map<RowId, seq<Rec>>

  // ---- The invariants ----------------------------------------------------------------------------

  ghost predicate IsStored(recs: RecTable, r: RecordId) {
    exists id, i :: id in recs && 0 <= i < |recs[id]| && recs[id][i].id == r
  }

  /** The record ids of the ledger and the record ids stored under the outbox rows are the same set, each
      under exactly one row of its own tenant, once. */
  ghost predicate LedgerMatches(db: Db) {
    && (forall r :: r in db.ledger ==> IsStored(db.recs, r))
    && (forall id, i :: id in db.recs && 0 <= i < |db.recs[id]| ==> OfTenant(db, id, db.recs[id][i].id))
    && StoredOnce(db.recs)
  }

  ghost predicate OfTenant(db: Db, id: RowId, r: RecordId) {
    r in db.ledger && id in db.rows && r.entity.tenant == db.rows[id].key.tenant
  }

  ghost predicate StoredOnce(recs: RecTable) {
    forall a, i, b, j :: a in recs && b in recs && 0 <= i < |recs[a]| && 0 <= j < |recs[b]| && recs[a][i].id == recs[b][j].id
      ==> a == b && i == j
  }

  /** A record marked delivered was taken by the sink. */
  ghost predicate TakenOk(recs: RecTable, taken: set<RecordId>) {
    forall id, i :: id in recs && 0 <= i < |recs[id]| && recs[id][i].state == Taken ==> recs[id][i].id in taken
  }

  // ---- What one event does to the records ----------------------------------------------------------

  predicate SameIds(a: seq<Rec>, b: seq<Rec>) {
    |a| == |b| && forall i :: 0 <= i < |a| ==> b[i].id == a[i].id
  }

  /** The ids under each row are kept, and a new row has none. */
  ghost predicate IdsKept(recs: RecTable, recs': RecTable) {
    && (forall id :: id in recs ==> id in recs' && SameIds(recs[id], recs'[id]))
    && (forall id :: id in recs' && id !in recs ==> recs'[id] == [])
  }

  ghost predicate TenantsKept(rows: Rows, rows': Rows) {
    forall id :: id in rows ==> id in rows' && rows'[id].key == rows[id].key
  }

  lemma EventKeepsIds(cfg: Config, s: Sys, e: Event)
    requires Enabled(cfg, s, e) && s.db.recs.Keys == s.db.rows.Keys && !e.Prepare?
    ensures IdsKept(s.db.recs, ChangeRecs(cfg, s, e)) && ChangeLedger(cfg, s, e) == s.db.ledger
  {
  }

  lemma EventKeepsTenants(cfg: Config, s: Sys, e: Event)
    requires Enabled(cfg, s, e) && ChangeOk(s.db.rows, RowChangeOf(cfg, s, e))
    ensures TenantsKept(s.db.rows, ChangeRows(s.db.rows, RowChangeOf(cfg, s, e)))
  {
    ChangeFrame(s.db.rows, RowChangeOf(cfg, s, e));
    TenantsByFrame(s.db.rows, RowChangeOf(cfg, s, e), ChangeRows(s.db.rows, RowChangeOf(cfg, s, e)));
  }

  lemma TenantsByFrame(rows: Rows, ch: RowChange, rows': Rows)
    requires RowsFrame(rows, ch, rows')
    ensures TenantsKept(rows, rows')
  {
    forall id | id in rows
      ensures rows'[id].key == rows[id].key
    {
      assert SameRow(rows[id], rows'[id]);
    }
  }

  lemma MatchesByIds(db: Db, db': Db)
    requires LedgerMatches(db) && IdsKept(db.recs, db'.recs) && TenantsKept(db.rows, db'.rows) && db'.ledger == db.ledger
    ensures LedgerMatches(db')
  {
    forall r | r in db'.ledger
      ensures IsStored(db'.recs, r)
    {
      assert IsStored(db.recs, r);
      var id, i :| id in db.recs && 0 <= i < |db.recs[id]| && db.recs[id][i].id == r;
      assert SameIds(db.recs[id], db'.recs[id]) && db'.recs[id][i].id == r;
    }
    forall id, i | id in db'.recs && 0 <= i < |db'.recs[id]|
      ensures OfTenant(db', id, db'.recs[id][i].id)
    {
      assert SameIds(db.recs[id], db'.recs[id]);
      assert OfTenant(db, id, db.recs[id][i].id);
    }
    forall a, i, b, j | a in db'.recs && b in db'.recs && 0 <= i < |db'.recs[a]| && 0 <= j < |db'.recs[b]| && db'.recs[a][i].id == db'.recs[b][j].id
      ensures a == b && i == j
    {
      assert SameIds(db.recs[a], db'.recs[a]) && SameIds(db.recs[b], db'.recs[b]);
      assert db.recs[a][i].id == db.recs[b][j].id;
    }
  }

  /** A delivery's new ledger rows and its stored records are one set of new ids. */
  lemma MatchesByPrepare(db: Db, db': Db, id: RowId, prepared: seq<RecordId>)
    requires LedgerMatches(db) && id in db.rows && id in db.recs && db.recs[id] == []
    requires db'.recs == db.recs[id := Stored(prepared)] && TenantsKept(db.rows, db'.rows)
    requires db'.ledger.Keys == db.ledger.Keys + (set r | r in prepared)
    requires forall i :: 0 <= i < |prepared| ==> prepared[i] !in db.ledger && prepared[i].entity.tenant == db.rows[id].key.tenant
    requires Distinct(prepared)
    ensures LedgerMatches(db')
  {
    forall r | r in db'.ledger
      ensures IsStored(db'.recs, r)
    {
      if r in db.ledger {
        assert IsStored(db.recs, r);
        var x, i :| x in db.recs && 0 <= i < |db.recs[x]| && db.recs[x][i].id == r;
        assert db'.recs[x][i].id == r;
      } else {
        var i :| 0 <= i < |prepared| && prepared[i] == r;
        assert db'.recs[id][i].id == r;
      }
    }
    forall x, i | x in db'.recs && 0 <= i < |db'.recs[x]|
      ensures OfTenant(db', x, db'.recs[x][i].id)
    {
      if x != id {
        assert OfTenant(db, x, db.recs[x][i].id);
      } else {
        assert db'.recs[id][i].id == prepared[i] && prepared[i] in prepared;
      }
    }
    forall a, i, b, j | a in db'.recs && b in db'.recs && 0 <= i < |db'.recs[a]| && 0 <= j < |db'.recs[b]| && db'.recs[a][i].id == db'.recs[b][j].id
      ensures a == b && i == j
    {
      if a != id {
        assert OfTenant(db, a, db.recs[a][i].id);
      }
      if b != id {
        assert OfTenant(db, b, db.recs[b][j].id);
      }
    }
  }

  lemma StepMatches(cfg: Config, s: Sys, e: Event)
    requires QueueOk(s.db.rows) && RecsOk(s.db) && LedgerMatches(s.db) && Enabled(cfg, s, e)
    ensures LedgerMatches(ChangeDb(cfg, s, e))
  {
    EnabledChangeOk(cfg, s, e);
    EventKeepsTenants(cfg, s, e);
    if e.Prepare? {
      PrepareMatches(cfg, s, e);
    } else {
      EventKeepsIds(cfg, s, e);
      MatchesByIds(s.db, ChangeDb(cfg, s, e));
    }
  }

  lemma PrepareMatches(cfg: Config, s: Sys, e: Event)
    requires QueueOk(s.db.rows) && RecsOk(s.db) && LedgerMatches(s.db) && Enabled(cfg, s, e) && e.Prepare?
    requires TenantsKept(s.db.rows, ChangeRows(s.db.rows, RowChangeOf(cfg, s, e)))
    ensures LedgerMatches(ChangeDb(cfg, s, e))
  {
    var id, b := e.c.row, Batch(cfg, s, e.records);
    assert RowRecsOk(s.db.rows[id], s.db.recs[id]);
    Ledger.AdmitAllAdds(s.db.ledger, cfg.compare, e.records);
    PreparedOfRow(s.db.rows[id], e.records, b.prepared);
    MatchesByPrepare(s.db, ChangeDb(cfg, s, e), id, b.prepared);
  }

  lemma PreparedOfRow(row: Row, records: seq<RecordId>, prepared: seq<RecordId>)
    requires OfRow(row, records)
    requires forall i :: 0 <= i < |prepared| ==> prepared[i] in records
    ensures forall i :: 0 <= i < |prepared| ==> prepared[i].entity.tenant == row.key.tenant
  {
    forall i | 0 <= i < |prepared|
      ensures prepared[i].entity.tenant == row.key.tenant
    {
      assert prepared[i] in records;
    }
  }

  // ---- Delivered means taken ------------------------------------------------------------------------

  lemma {:induction false} WaitingMember(rs: seq<Rec>, r: RecordId)
    ensures r in WaitingIds(rs) <==> exists i :: 0 <= i < |rs| && rs[i].state == Waiting && rs[i].id == r
  {
    if rs != [] {
      WaitingMember(rs[1..], r);
      if i :| 0 <= i < |rs| && rs[i].state == Waiting && rs[i].id == r {
        if i > 0 {
          assert rs[1..][i - 1] == rs[i];
        }
      }
      if r in WaitingIds(rs[1..]) {
        var j :| 0 <= j < |rs[1..]| && rs[1..][j].state == Waiting && rs[1..][j].id == r;
        assert rs[j + 1].state == Waiting && rs[j + 1].id == r;
      }
    }
  }

  function StoredIds(rs: seq<Rec>): seq<RecordId> {
    seq(|rs|, i requires 0 <= i < |rs| => rs[i].id)
  }

  /** These are the records that wait, in the order in which they are stored. */
  ghost predicate ListsWaiting(rs: seq<Rec>, ids: seq<RecordId>) {
    && InOrderOf(StoredIds(rs), ids)
    && forall r :: r in ids <==> exists i :: 0 <= i < |rs| && rs[i].state == Waiting && rs[i].id == r
  }

  lemma {:induction false} WaitingInOrder(rs: seq<Rec>)
    ensures InOrderOf(StoredIds(rs), WaitingIds(rs))
  {
    if rs == [] {
      assert PickedAt(StoredIds(rs), WaitingIds(rs), []);
    } else {
      WaitingInOrder(rs[1..]);
      PickOneBefore(StoredIds(rs[1..]), WaitingIds(rs[1..]), rs[0].id);
      assert StoredIds(rs) == [rs[0].id] + StoredIds(rs[1..]);
      assert [] + WaitingIds(rs[1..]) == WaitingIds(rs[1..]);
    }
  }

  lemma WaitingAreListed(rs: seq<Rec>)
    ensures ListsWaiting(rs, WaitingIds(rs))
  {
    WaitingInOrder(rs);
    forall r
      ensures r in WaitingIds(rs) <==> exists i :: 0 <= i < |rs| && rs[i].state == Waiting && rs[i].id == r
    {
      WaitingMember(rs, r);
    }
  }

  /** A finish marks delivered exactly the offered records the sink did not refuse, and every one of them
      was taken. */
  lemma FinishTakes(s: Sys, c: ClaimId, i: nat)
    requires HandlesOk(s) && c in s.handles && Guarded(s, c) && CanFinish(s.handles[c].phase)
    requires c.row in s.db.recs && i < |s.db.recs[c.row]|
    ensures var h, r := s.handles[c].phase, s.db.recs[c.row][i];
            var r' := SettleAll(s.db.recs[c.row], RefusedIn(h))[i];
            && (r.state == Waiting <==> r' != r)
            && (r.state == Waiting ==> r.id in h.offered && (r'.state == Refused <==> r.id in RefusedIn(h)))
            && (r.state == Waiting && r'.state == Taken ==> r.id in s.taken)
  {
    assert HandleFits(s, c);
    WaitingMember(s.db.recs[c.row], s.db.recs[c.row][i].id);
  }

  lemma StepTaken(cfg: Config, s: Sys, e: Event)
    requires RecsOk(s.db) && HandlesOk(s) && TakenOk(s.db.recs, s.taken) && Enabled(cfg, s, e)
    ensures TakenOk(ChangeRecs(cfg, s, e), Apply(cfg, s, e).taken)
  {
    var recs': RecTable := ChangeRecs(cfg, s, e);
    if e.Finish? {
      forall i: nat | i < |s.db.recs[e.c.row]|
        ensures recs'[e.c.row][i].state == Taken ==> recs'[e.c.row][i].id in s.taken
      {
        FinishTakes(s, e.c, i);
      }
    }
  }

  /** Once delivered, a record stays delivered: no event takes it back, a replay included. */
  ghost predicate TakenStays(recs: RecTable, recs': RecTable) {
    forall id, i :: id in recs && 0 <= i < |recs[id]| && recs[id][i].state == Taken ==>
      id in recs' && i < |recs'[id]| && recs'[id][i] == recs[id][i]
  }

  lemma StepTakenStays(cfg: Config, s: Sys, e: Event)
    requires RecsOk(s.db) && Enabled(cfg, s, e)
    ensures TakenStays(s.db.recs, ChangeRecs(cfg, s, e))
  {
    if e.Prepare? {
      assert RowRecsOk(s.db.rows[e.c.row], s.db.recs[e.c.row]);
    }
  }

  // ---- The ledger ------------------------------------------------------------------------------------

  lemma StepLedger(cfg: Config, s: Sys, e: Event)
    requires Ledger.ChainsOk(cfg.compare, s.db.ledger) && Ledger.HeadIsNewest(cfg.compare, s.db.ledger, s.decided)
    requires Enabled(cfg, s, e)
    ensures Ledger.ChainsOk(cfg.compare, ChangeLedger(cfg, s, e))
    ensures Ledger.HeadIsNewest(cfg.compare, ChangeLedger(cfg, s, e), Apply(cfg, s, e).decided)
  {
    if e.Prepare? {
      Ledger.AdmitAllKeeps(cfg.compare, s.db.ledger, e.records, s.decided);
    }
  }
}
