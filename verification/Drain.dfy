/** The outbox, the record ledger, the workers and the sink as one state machine.

    Each event is one committed transaction, or one thing that happens outside every transaction: a read,
    a sink's answer, a worker lost. The module `Interleaving` proves that running the same transactions
    lock by lock and statement by statement adds no behaviour to these. */
module Drain {
  import opened Names
  import opened Queue
  import Ledger

  // ---- State -----------------------------------------------------------------------------------

  /** `outbox_record.state`: prepared, delivered or dead. */
  datatype RecState = Waiting | Taken | Refused

  datatype Rec = Rec(id: RecordId, state: RecState)

  /** The tables. `recs` holds the records of one delivery in the order of `pos`. */
  datatype Db = Db(rows: Rows, recs: map<RowId, seq<Rec>>, ledger: Ledger.Table)

  /** A claim a worker holds: the token of its batch and one row. */
  datatype ClaimId = ClaimId(token: Token, row: RowId)

  /** How far a worker is with a row. */
  datatype Phase =
    | Fresh                                                      // claimed, not looked at
    | Working                                                    // the ladder still accounts for the attempt
    | SawPending                                                 // Work read a pending row
    | SawStored                                                  // Work read a row in any other state
    | Ready(offered: seq<RecordId>)                              // the records to deliver
    | Answered(offered: seq<RecordId>, refused: set<RecordId>)   // the sink answered for every one

  datatype Handle = Handle(attempt: int, phase: Phase)

  /** What the tables do not remember: the claims, halts and finishes of every row, in order. */
  datatype Entry =
    | Reset(id: RowId)                                           // accepted or replayed
    | Took(ids: set<RowId>)                                      // claimed
    | GaveBack(id: RowId)                                        // halted or released
    | Done(id: RowId, key: Key, place: nat)                      // delivered or dead

  datatype Sys = Sys(
    db: Db,
    handles: map<ClaimId, Handle>,
    tokens: set<Token>,              // every lease token ever minted
    taken: set<RecordId>,            // every record a sink answered it took
    decided: set<RecordId>,          // every record admitted or held back as stale
    now: int,
    log: seq<Entry>)

  /** `ladder` is the number of waits the retry ladder schedules. */
  datatype Config = Config(ladder: nat, compare: Ledger.Compare)

  /** `at` is `now()`, which Postgres fixes when a transaction begins. */
  datatype Event =
    | Tick(now: int)
    | Accept(id: RowId, key: Key, provider: Text, delivery: DeliveryId, place: nat, at: int)
    | Claim(token: Token, ids: set<RowId>, until: int)
    | Start(c: ClaimId)
    | Abandon(c: ClaimId)
    | Release(c: ClaimId)
    | SeeWork(c: ClaimId)
    | Prepare(c: ClaimId, records: seq<RecordId>)
    | ReadPrepared(c: ClaimId)
    | Deliver(c: ClaimId, refused: set<RecordId>)
    | Finish(c: ClaimId)
    | Fail(c: ClaimId, next: int)
    | MarkDead(c: ClaimId)
    | Halt(c: ClaimId, next: int)
    | Lose(c: ClaimId)
    | Replay(id: RowId, place: nat, at: int)

  // ---- Records of one delivery -------------------------------------------------------------------

  /** PreparedRecords: what is left to deliver, in order. */
  function WaitingIds(rs: seq<Rec>): seq<RecordId> {
    if rs == [] then []
    else (if rs[0].state == Waiting then [rs[0].id] else []) + WaitingIds(rs[1..])
  }

  function Settle(r: Rec, refused: set<RecordId>): Rec {
    if r.state != Waiting then r else if r.id in refused then r.(state := Refused) else r.(state := Taken)
  }

  /** MarkRecordDead for each refusal, then MarkRecordsDelivered. */
  function SettleAll(rs: seq<Rec>, refused: set<RecordId>): seq<Rec> {
    seq(|rs|, i requires 0 <= i < |rs| => Settle(rs[i], refused))
  }

  /** ReviveDeadRecords. */
  function Revive(rs: seq<Rec>): seq<Rec> {
    seq(|rs|, i requires 0 <= i < |rs| => if rs[i].state == Refused then rs[i].(state := Waiting) else rs[i])
  }

  /** StorePreparedRecords. */
  function Stored(ids: seq<RecordId>): seq<Rec> {
    seq(|ids|, i requires 0 <= i < |ids| => Rec(ids[i], Waiting))
  }

  predicate HasRefused(rs: seq<Rec>) {
    exists i :: 0 <= i < |rs| && rs[i].state == Refused
  }

  // ---- Events ----------------------------------------------------------------------------------

  /** Ladder.Exhausted, of a ladder with this many waits. */
  predicate Exhausted(ladder: nat, attempt: int) {
    attempt > ladder + 1
  }

  /** Ladder.Next: whether another attempt is scheduled. */
  predicate Retries(cfg: Config, attempt: int) {
    1 <= attempt <= cfg.ladder
  }

  predicate Guarded(s: Sys, c: ClaimId) {
    c.row in s.db.rows && s.db.rows[c.row].Guard(c.token)
  }

  predicate CanFinish(p: Phase) {
    p.Answered? || p == Ready([])
  }

  function RefusedIn(p: Phase): set<RecordId> {
    if p.Answered? then p.refused else {}
  }

  ghost function Batch(cfg: Config, s: Sys, records: seq<RecordId>): Ledger.Batch {
    Ledger.AdmitAll(s.db.ledger, cfg.compare, records)
  }

  predicate OfRow(row: Row, records: seq<RecordId>) {
    forall i :: 0 <= i < |records| ==>
      records[i].entity.tenant == row.key.tenant && records[i].entity.provider == row.provider
  }

  /** The row Replay's WHERE clause admits. */
  predicate Replayable(db: Db, id: RowId) {
    && id in db.rows && id in db.recs
    && (db.rows[id].state == Dead || (db.rows[id].state == Delivered && HasRefused(db.recs[id])))
  }

  ghost predicate Enabled(cfg: Config, s: Sys, e: Event) {
    match e
    case Tick(now) => now >= s.now
    case Accept(id, key, provider, delivery, place, at) =>
      && at <= s.now && id !in s.db.rows
      && FreshDelivery(s.db.rows, key.tenant, delivery)
      && FreshPlace(s.db.rows, key, place)
    case Claim(token, ids, until) =>
      && token !in s.tokens
      && forall id :: id in ids ==> id in s.db.rows && s.db.rows[id].isHead && s.db.rows[id].DueAt() <= s.now
    case Start(c) => c in s.handles && s.handles[c].phase == Fresh && !Exhausted(cfg.ladder, s.handles[c].attempt)
    case Abandon(c) => c in s.handles && s.handles[c].phase == Fresh && Exhausted(cfg.ladder, s.handles[c].attempt) && Guarded(s, c)
    case Release(c) => c in s.handles && s.handles[c].phase == Fresh && Guarded(s, c)
    case SeeWork(c) => c in s.handles && s.handles[c].phase == Working && c.row in s.db.rows
    case Prepare(c, records) =>
      && c in s.handles && s.handles[c].phase == SawPending
      && Guarded(s, c) && s.db.rows[c.row].state == Pending
      && OfRow(s.db.rows[c.row], records)
      && Batch(cfg, s, records).Admitted?
    case ReadPrepared(c) => c in s.handles && s.handles[c].phase == SawStored && c.row in s.db.recs
    case Deliver(c, refused) =>
      && c in s.handles && s.handles[c].phase.Ready? && s.handles[c].phase.offered != []
      && forall r :: r in refused ==> r in s.handles[c].phase.offered
    case Finish(c) => c in s.handles && CanFinish(s.handles[c].phase) && Guarded(s, c) && c.row in s.db.recs
    case Fail(c, next) =>
      && c in s.handles && Guarded(s, c)
      && (s.handles[c].phase == Working || s.handles[c].phase == SawPending || s.handles[c].phase == SawStored
          || s.handles[c].phase.Ready?)
    case MarkDead(c) =>
      c in s.handles && Guarded(s, c) && (s.handles[c].phase == SawPending || s.handles[c].phase == SawStored)
    case Halt(c, next) => c in s.handles && Guarded(s, c) && s.handles[c].phase.Ready?
    case Lose(c) => c in s.handles
    case Replay(id, place, at) => at <= s.now && Replayable(s.db, id) && FreshPlace(s.db.rows, s.db.rows[id].key, place)
  }

  /** What an event's transaction does to the outbox table. */
  datatype RowChange =
    | Nothing
    | Put(id: RowId, row: Row)                          // one row, at the back of its queue
    | Touch(id: RowId, row: Row)                        // one row, its place in the queue untouched
    | Lease(ids: set<RowId>, token: Token, until: int)  // a claim
    | End(id: RowId, to: RowState)                      // a finish and the promotion after it

  ghost function RowChangeOf(cfg: Config, s: Sys, e: Event): RowChange
    requires Enabled(cfg, s, e)
  {
    var rows := s.db.rows;
    match e
    case Accept(id, key, provider, delivery, place, at) => Put(id, AcceptedRow(rows, key, provider, delivery, place, at))
    case Claim(token, ids, until) => Lease(ids, token, until)
    case Abandon(c) => End(c.row, Dead)
    case Release(c) => Touch(c.row, ReleasedRow(rows[c.row]))
    case Prepare(c, records) => Touch(c.row, PreparedRow(rows[c.row]))
    case Finish(c) => End(c.row, Delivered)
    case Fail(c, next) =>
      if Retries(cfg, s.handles[c].attempt) then Touch(c.row, RetriedRow(rows[c.row], next)) else End(c.row, Dead)
    case MarkDead(c) => End(c.row, Dead)
    case Halt(c, next) => Touch(c.row, HaltedRow(rows[c.row], next))
    case Replay(id, place, at) => Put(id, ReplayedRow(rows, rows[id], place, at))
    case _ => Nothing
  }

  ghost function ChangeRows(rows: Rows, ch: RowChange): Rows
    requires ch.End? ==> ch.id in rows
  {
    match ch
    case Nothing => rows
    case Put(id, row) => rows[id := row]
    case Touch(id, row) => rows[id := row]
    case Lease(ids, token, until) => Queue.Claim(rows, ids, token, until)
    case End(id, to) => Queue.Finish(rows, id, to)
  }

  ghost function ChangeRecs(cfg: Config, s: Sys, e: Event): map<RowId, seq<Rec>>
    requires Enabled(cfg, s, e)
  {
    var recs := s.db.recs;
    match e
    case Accept(id, _, _, _, _, _) => recs[id := []]
    case Prepare(c, records) => recs[c.row := Stored(Batch(cfg, s, records).prepared)]
    case Finish(c) => recs[c.row := SettleAll(recs[c.row], RefusedIn(s.handles[c].phase))]
    case Replay(id, _, _) => recs[id := Revive(recs[id])]
    case _ => recs
  }

  ghost function ChangeLedger(cfg: Config, s: Sys, e: Event): Ledger.Table
    requires Enabled(cfg, s, e)
  {
    if e.Prepare? then Batch(cfg, s, e.records).table else s.db.ledger
  }

  ghost function ChangeDb(cfg: Config, s: Sys, e: Event): Db
    requires Enabled(cfg, s, e)
  {
    Db(ChangeRows(s.db.rows, RowChangeOf(cfg, s, e)), ChangeRecs(cfg, s, e), ChangeLedger(cfg, s, e))
  }

  function Claims(ids: set<RowId>, token: Token, rows: Rows): map<ClaimId, Handle> {
    map id | id in ids && id in rows :: ClaimId(token, id) := Handle(rows[id].attempts + 1, Fresh)
  }

  ghost function ChangeHandles(cfg: Config, s: Sys, e: Event): map<ClaimId, Handle>
    requires Enabled(cfg, s, e)
  {
    var hs := s.handles;
    match e
    case Claim(token, ids, until) => hs + Claims(ids, token, s.db.rows)
    case Start(c) => hs[c := hs[c].(phase := Working)]
    case SeeWork(c) => hs[c := hs[c].(phase := if s.db.rows[c.row].state == Pending then SawPending else SawStored)]
    case Prepare(c, records) => hs[c := hs[c].(phase := Ready(Batch(cfg, s, records).prepared))]
    case ReadPrepared(c) => hs[c := hs[c].(phase := Ready(WaitingIds(s.db.recs[c.row])))]
    case Deliver(c, refused) => hs[c := hs[c].(phase := Answered(hs[c].phase.offered, refused))]
    case Abandon(c) => hs - {c}
    case Release(c) => hs - {c}
    case Finish(c) => hs - {c}
    case Fail(c, _) => hs - {c}
    case MarkDead(c) => hs - {c}
    case Halt(c, _) => hs - {c}
    case Lose(c) => hs - {c}
    case _ => hs
  }

  ghost function Entries(cfg: Config, s: Sys, e: Event): seq<Entry>
    requires Enabled(cfg, s, e)
  {
    match e
    case Accept(id, _, _, _, _, _) => [Reset(id)]
    case Replay(id, _, _) => [Reset(id)]
    case Claim(_, ids, _) => [Took(ids)]
    case Release(c) => [GaveBack(c.row)]
    case Halt(c, _) => [GaveBack(c.row)]
    case _ => DoneBy(s.db.rows, RowChangeOf(cfg, s, e))
  }

  function DoneBy(rows: Rows, ch: RowChange): seq<Entry> {
    if ch.End? && ch.id in rows then [Done(ch.id, rows[ch.id].key, rows[ch.id].place)] else []
  }

  ghost function Apply(cfg: Config, s: Sys, e: Event): Sys
    requires Enabled(cfg, s, e)
  {
    Sys(
      ChangeDb(cfg, s, e),
      ChangeHandles(cfg, s, e),
      if e.Claim? then s.tokens + {e.token} else s.tokens,
      if e.Deliver? then s.taken + (set r | r in s.handles[e.c].phase.offered && r !in e.refused) else s.taken,
      if e.Prepare? then s.decided + Batch(cfg, s, e.records).decided else s.decided,
      if e.Tick? then e.now else s.now,
      s.log + Entries(cfg, s, e))
  }

  const EMPTY: Sys := Sys(Db(map[], map[], map[]), map[], {}, {}, {}, 0, [])

  /** Every state that some run of events reaches. */
  ghost predicate Run(cfg: Config, states: seq<Sys>, events: seq<Event>) {
    && |states| == |events| + 1
    && states[0] == EMPTY
    && forall i :: 0 <= i < |events| ==> Step(cfg, states[i], events[i], states[i + 1])
  }

  ghost predicate Step(cfg: Config, s: Sys, e: Event, s': Sys) {
    Enabled(cfg, s, e) && s' == Apply(cfg, s, e)
  }
}
