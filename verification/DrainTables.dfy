/** What every event keeps of the tables: the queues, the records of each delivery, and the ledger. */
module DrainTables {
  import opened Names
  import opened Queue
  import Ledger
  import opened Drain

  // ---- The outbox table ---------------------------------------------------------------------------

  /** A row change that the statements of `Enabled` events can make. */
  ghost predicate ChangeOk(rows: Rows, ch: RowChange) {
    match ch
    case Nothing => true
    case Put(id, row) =>
      && (id in rows ==> rows[id].key == row.key && !rows[id].Unfinished() && rows[id].delivery == row.delivery
                         && rows[id].provider == row.provider && row.wasPrepared == rows[id].wasPrepared
                         && rows[id].place < row.place)
      && (id !in rows ==> FreshDelivery(rows, row.key.tenant, row.delivery) && !row.wasPrepared)
      && row.Unfinished() && row.lease == Free && row.attempts == 0 && row.isHead == !Busy(rows, row.key)
      && FreshPlace(rows, row.key, row.place)
    case Touch(id, row) =>
      && id in rows && SameInQueue(rows[id], row) && LeaseOk(row) && row.provider == rows[id].provider
    case Lease(ids, token, until) => forall id :: id in ids ==> id in rows && rows[id].isHead
    case End(id, to) => id in rows && rows[id].isHead && (to == Delivered || to == Dead)
  }

  lemma EnabledChangeOk(cfg: Config, s: Sys, e: Event)
    requires QueueOk(s.db.rows) && Enabled(cfg, s, e)
    ensures ChangeOk(s.db.rows, RowChangeOf(cfg, s, e))
  {
    var rows := s.db.rows;
    if e.Replay? {
      assert LeaseOk(rows[e.id]);
      assert rows[e.id].isHead <==> IsLowest(rows, e.id);
    }
    if (e.Abandon? || e.Release? || e.Prepare? || e.Finish? || e.Fail? || e.MarkDead? || e.Halt?) {
      assert LeaseOk(rows[e.c.row]);
    }
  }

  lemma ChangeKeepsQueue(rows: Rows, ch: RowChange)
    requires QueueOk(rows) && ChangeOk(rows, ch)
    ensures QueueOk(ChangeRows(rows, ch))
  {
    match ch
    case Nothing =>
    case Put(id, row) => AppendKeeps(rows, id, row);
    case Touch(id, row) => SameQueueKeeps(rows, rows[id := row]);
    case Lease(ids, token, until) => SameQueueKeeps(rows, Queue.Claim(rows, ids, token, until));
    case End(id, to) => FinishKeeps(rows, id, to);
  }

  function Target(ch: RowChange): set<RowId> {
    match ch
    case Put(id, _) => {id}
    case Touch(id, _) => {id}
    case End(id, _) => {id}
    case _ => {}
  }

  function Leased(ch: RowChange): set<RowId> {
    if ch.Lease? then ch.ids else {}
  }

  /** The row a change is about, afterwards (but for the marker). */
  predicate AboutOneRow(rows: Rows, ch: RowChange) {
    ch.Put? || ch.Touch? || (ch.End? && ch.id in rows)
  }

  function TargetRow(rows: Rows, ch: RowChange): Row
    requires AboutOneRow(rows, ch)
  {
    if ch.End? then FinishedRow(rows[ch.id], ch.to) else ch.row
  }

  /** Away from the row it is about, a change moves at most a marker or a lease. */
  ghost predicate RowsFrame(rows: Rows, ch: RowChange, rows': Rows) {
    && rows'.Keys == rows.Keys + (if ch.Put? then {ch.id} else {})
    && (forall x :: x in rows ==> SameRow(rows[x], rows'[x]))
    && (forall x :: x in rows && x !in Target(ch) ==> SameState(rows[x], rows'[x]))
    && (forall x :: x in rows && x !in Target(ch) && x !in Leased(ch) ==> SameLease(rows[x], rows'[x]))
    && (ch.Lease? ==> forall x :: x in ch.ids && x in rows ==> rows'[x] == ClaimedRow(rows[x], ch.token, ch.until))
    && (AboutOneRow(rows, ch) ==> ch.id in rows' && rows'[ch.id] == TargetRow(rows, ch).(isHead := rows'[ch.id].isHead))
  }

  predicate SameRow(a: Row, b: Row) {
    b.key == a.key && b.provider == a.provider && b.delivery == a.delivery && a.place <= b.place
  }

  predicate SameState(a: Row, b: Row) {
    b.state == a.state && b.wasPrepared == a.wasPrepared && b.place == a.place
  }

  predicate SameLease(a: Row, b: Row) {
    b.lease == a.lease && b.attempts == a.attempts
  }

  lemma ChangeFrame(rows: Rows, ch: RowChange)
    requires ChangeOk(rows, ch)
    ensures RowsFrame(rows, ch, ChangeRows(rows, ch))
  {
    if ch.End? {
      FinishFrame(rows, ch.id, ch.to);
    }
  }

  // ---- The records of each delivery ----------------------------------------------------------------

  ghost predicate RowRecsOk(row: Row, recs: seq<Rec>) {
    && (row.state == Pending ==> !row.wasPrepared)
    && (row.state == Prepared || row.state == Delivered ==> row.wasPrepared)
    && (!row.wasPrepared ==> recs == [])
    && (row.state != Delivered ==> forall i :: 0 <= i < |recs| ==> recs[i].state != Refused)
    && (row.state == Delivered ==> forall i :: 0 <= i < |recs| ==> recs[i].state != Waiting)
  }

  ghost predicate RecsOk(db: Db) {
    && db.recs.Keys == db.rows.Keys
    && forall id :: id in db.rows ==> RowRecsOk(db.rows[id], db.recs[id])
  }

  /** A worker that saw its row pending holds a pending row, and one that saw it prepared, or has read its records,
      holds a prepared one. */
  ghost predicate HandleOk(h: Handle, row: Row, recs: seq<Rec>, token: Token) {
    row.HeldBy(token) ==>
      && h.attempt == row.attempts
      && row.Unfinished()
      && (h.phase == SawPending ==> row.state == Pending)
      && (h.phase == SawStored ==> row.state == Prepared)
      && (h.phase.Ready? || h.phase.Answered? ==> row.state == Prepared && h.phase.offered == WaitingIds(recs))
  }

  ghost predicate HandlesOk(s: Sys) {
    TokensKnown(s.db.rows, s.tokens) && forall c :: c in s.handles ==> HandleFits(s, c)
  }

  /** A token on a row was minted by a claim. */
  ghost predicate TokensKnown(rows: Rows, tokens: set<Token>) {
    forall id :: id in rows && rows[id].lease.Held? ==> rows[id].lease.token in tokens
  }

  ghost predicate HandleFits(s: Sys, c: ClaimId)
    requires c in s.handles
  {
    c.token in s.tokens && RowFits(s.handles[c], s.db, c) && AnswerFits(s.handles[c].phase, s.taken)
  }

  ghost predicate RowFits(h: Handle, db: Db, c: ClaimId) {
    c.row in db.rows && c.row in db.recs && HandleOk(h, db.rows[c.row], db.recs[c.row], c.token)
  }

  /** The sink answered for every record it was offered, and for no other. */
  ghost predicate AnswerFits(p: Phase, taken: set<RecordId>) {
    p.Answered? ==>
      && (forall r :: r in p.refused ==> r in p.offered)
      && (forall r :: r in p.offered ==> r in p.refused || r in taken)
  }

  /** The records of a delivery change only with its row. */
  ghost predicate RecsFrame(recs: map<RowId, seq<Rec>>, ch: RowChange, recs': map<RowId, seq<Rec>>) {
    && recs'.Keys == recs.Keys + (if ch.Put? then {ch.id} else {})
    && (forall x :: x in recs && x !in Target(ch) ==> recs'[x] == recs[x])
  }

  lemma RecsChangeFrame(cfg: Config, s: Sys, e: Event)
    requires Enabled(cfg, s, e) && s.db.recs.Keys == s.db.rows.Keys
    ensures RecsFrame(s.db.recs, RowChangeOf(cfg, s, e), ChangeRecs(cfg, s, e))
  {
  }

  /** One row and its records, whichever event is about them. */
  lemma TargetRecs(cfg: Config, s: Sys, e: Event)
    requires Enabled(cfg, s, e) && RecsOk(s.db) && ChangeOk(s.db.rows, RowChangeOf(cfg, s, e))
    requires AboutOneRow(s.db.rows, RowChangeOf(cfg, s, e))
    requires e.Finish? ==> s.db.rows[e.c.row].state == Prepared
    ensures var ch := RowChangeOf(cfg, s, e);
            ch.id in ChangeRecs(cfg, s, e) && RowRecsOk(TargetRow(s.db.rows, ch), ChangeRecs(cfg, s, e)[ch.id])
  {
    var ch := RowChangeOf(cfg, s, e);
    assert ch.id in s.db.rows ==> RowRecsOk(s.db.rows[ch.id], s.db.recs[ch.id]);
  }

  /** What holding the lease means for a worker that may finish. */
  lemma FinisherHoldsPrepared(s: Sys, c: ClaimId)
    requires HandlesOk(s) && c in s.handles && Guarded(s, c) && CanFinish(s.handles[c].phase)
    ensures s.db.rows[c.row].state == Prepared
  {
    assert HandleFits(s, c);
  }

  lemma StepRecs(cfg: Config, s: Sys, e: Event)
    requires QueueOk(s.db.rows) && RecsOk(s.db) && HandlesOk(s) && Enabled(cfg, s, e)
    ensures RecsOk(ChangeDb(cfg, s, e))
  {
    var ch := RowChangeOf(cfg, s, e);
    EnabledChangeOk(cfg, s, e);
    ChangeFrame(s.db.rows, ch);
    RecsChangeFrame(cfg, s, e);
    if AboutOneRow(s.db.rows, ch) {
      if e.Finish? {
        FinisherHoldsPrepared(s, e.c);
      }
      TargetRecs(cfg, s, e);
    }
    RecsByTarget(s.db, ch, ChangeDb(cfg, s, e));
  }

  lemma RecsByTarget(db: Db, ch: RowChange, db': Db)
    requires RecsOk(db) && RowsFrame(db.rows, ch, db'.rows) && RecsFrame(db.recs, ch, db'.recs)
    requires ch.End? ==> ch.id in db.rows
    requires AboutOneRow(db.rows, ch) ==> ch.id in db'.recs && RowRecsOk(TargetRow(db.rows, ch), db'.recs[ch.id])
    ensures RecsOk(db')
  {
    forall id | id in db'.rows
      ensures RowRecsOk(db'.rows[id], db'.recs[id])
    {
      if id !in Target(ch) {
        assert RowRecsOk(db.rows[id], db.recs[id]);
        assert SameState(db.rows[id], db'.rows[id]);
      }
    }
  }
}
