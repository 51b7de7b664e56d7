/** One row from its claim to its outcome, as the drain's worker carries it (internal/worker/worker.go): the code
    drives the outbox and the ledger only along runs of the state machine `Drain`. */
module Worker {
  import opened Names
  import Answers
  import opened Queue
  import Ledger
  import opened Drain
  import opened DrainTables
  import opened DrainTheorems
  import opened OutboxStore
  import opened LedgerStore
  import opened RowOutcomes

  // ---- Runs ------------------------------------------------------------------------------------------

  /** Some run of the machine reaches the state. */
  ghost predicate Reachable(cfg: Config, s: Sys) {
    exists states, events :: Run(cfg, states, events) && states[|events|] == s
  }

  lemma ReachableInv(cfg: Config, s: Sys)
    requires Reachable(cfg, s)
    ensures Inv(cfg, s)
  {
    var states, events :| Run(cfg, states, events) && states[|events|] == s;
    EveryRun(cfg, states, events, |events|);
  }

  lemma ReachableStep(cfg: Config, s: Sys, e: Event)
    requires Reachable(cfg, s) && Enabled(cfg, s, e)
    ensures Reachable(cfg, Apply(cfg, s, e))
  {
    var states, events :| Run(cfg, states, events) && states[|events|] == s;
    ExtendRun(cfg, states, events, e, Apply(cfg, s, e));
    assert Run(cfg, states + [Apply(cfg, s, e)], events + [e]);
  }

  function IdOf(c: Claimed): ClaimId {
    ClaimId(c.token, c.id)
  }

  /** The worker is at this phase with its claim. */
  predicate AtPhase(s: Sys, c: Claimed, phase: Phase) {
    IdOf(c) in s.handles && s.handles[IdOf(c)] == Handle(c.attempt, phase)
  }

  /** The step is this claim's own: every other claim's worker is where it was. */
  predicate Moves(s: Sys, s': Sys, c: Claimed) {
    s'.tokens == s.tokens && forall d :: d in s.handles && d != IdOf(c) ==> d in s'.handles && s'.handles[d] == s.handles[d]
  }

  /** The state holds these tables. */
  predicate Holding(s: Sys, rows: Rows, recs: map<RowId, seq<Rec>>, t: Ledger.Table, now: int) {
    s.db.rows == rows && s.db.recs == recs && s.db.ledger == t && s.now == now
  }

  // ---- The worker's steps are the machine's ---------------------------------------------------------------

  lemma Starts(cfg: Config, s: Sys, c: Claimed) returns (s': Sys)
    requires Reachable(cfg, s) && AtPhase(s, c, Fresh) && !Exhausted(cfg.ladder, c.attempt)
    ensures Moves(s, s', c) && Reachable(cfg, s') && Holding(s', s.db.rows, s.db.recs, s.db.ledger, s.now) && AtPhase(s', c, Working)
  {
    s' := Apply(cfg, s, Start(IdOf(c)));
    ReachableStep(cfg, s, Start(IdOf(c)));
  }

  /** A claimed row is never removed. */
  lemma ClaimedRowStays(cfg: Config, s: Sys, c: Claimed)
    requires Reachable(cfg, s) && IdOf(c) in s.handles
    ensures c.id in s.db.rows && c.id in s.db.recs
  {
    HandleFitsRow(cfg, s, c);
  }

  lemma Sees(cfg: Config, s: Sys, c: Claimed) returns (s': Sys)
    requires Reachable(cfg, s) && AtPhase(s, c, Working)
    ensures c.id in s.db.rows && c.id in s.db.recs
    ensures Moves(s, s', c) && Reachable(cfg, s') && Holding(s', s.db.rows, s.db.recs, s.db.ledger, s.now)
    ensures AtPhase(s', c, if s.db.rows[c.id].state == Pending then SawPending else SawStored)
  {
    ClaimedRowStays(cfg, s, c);
    s' := Apply(cfg, s, SeeWork(IdOf(c)));
    ReachableStep(cfg, s, SeeWork(IdOf(c)));
  }

  lemma Reads(cfg: Config, s: Sys, c: Claimed) returns (s': Sys)
    requires Reachable(cfg, s) && AtPhase(s, c, SawStored)
    ensures c.id in s.db.recs
    ensures Moves(s, s', c) && Reachable(cfg, s') && Holding(s', s.db.rows, s.db.recs, s.db.ledger, s.now)
    ensures AtPhase(s', c, Ready(WaitingIds(s.db.recs[c.id])))
  {
    ClaimedRowStays(cfg, s, c);
    s' := Apply(cfg, s, ReadPrepared(IdOf(c)));
    ReachableStep(cfg, s, ReadPrepared(IdOf(c)));
  }

  lemma Delivers(cfg: Config, s: Sys, c: Claimed, offered: seq<RecordId>, refused: set<RecordId>) returns (s': Sys)
    requires Reachable(cfg, s) && AtPhase(s, c, Ready(offered)) && offered != []
    requires forall r :: r in refused ==> r in offered
    ensures Moves(s, s', c) && Reachable(cfg, s') && Holding(s', s.db.rows, s.db.recs, s.db.ledger, s.now)
    ensures AtPhase(s', c, Phase.Answered(offered, refused))
  {
    s' := Apply(cfg, s, Deliver(IdOf(c), refused));
    ReachableStep(cfg, s, Deliver(IdOf(c), refused));
  }

  predicate MayDie(p: Phase) {
    p == SawPending || p == SawStored
  }

  predicate MayFail(p: Phase) {
    p == Working || p == SawPending || p == SawStored || p.Ready?
  }

  /** Marking dead, abandoning, and failing at the end of the ladder end the row dead. */
  lemma EndsDead(cfg: Config, s: Sys, c: Claimed, phase: Phase) returns (s': Sys)
    requires Reachable(cfg, s) && AtPhase(s, c, phase) && HeldIn(s.db.rows, c)
    requires MayDie(phase) || (phase == Fresh && Exhausted(cfg.ladder, c.attempt)) || (MayFail(phase) && !Retries(cfg, c.attempt))
    ensures Moves(s, s', c) && Reachable(cfg, s') && Holding(s', Queue.Finish(s.db.rows, c.id, Dead), s.db.recs, s.db.ledger, s.now)
  {
    var e := if MayDie(phase) then Event.MarkDead(IdOf(c)) else if phase == Fresh then Abandon(IdOf(c)) else Event.Fail(IdOf(c), s.now);
    s' := Apply(cfg, s, e);
    ReachableStep(cfg, s, e);
  }

  lemma Waits(cfg: Config, s: Sys, c: Claimed, phase: Phase, next: int) returns (s': Sys)
    requires Reachable(cfg, s) && AtPhase(s, c, phase) && HeldIn(s.db.rows, c) && MayFail(phase) && Retries(cfg, c.attempt)
    ensures Moves(s, s', c) && Reachable(cfg, s') && Holding(s', s.db.rows[c.id := RetriedRow(s.db.rows[c.id], next)], s.db.recs, s.db.ledger, s.now)
  {
    s' := Apply(cfg, s, Event.Fail(IdOf(c), next));
    ReachableStep(cfg, s, Event.Fail(IdOf(c), next));
  }

  lemma Halts(cfg: Config, s: Sys, c: Claimed, offered: seq<RecordId>, pause: int) returns (s': Sys)
    requires Reachable(cfg, s) && AtPhase(s, c, Ready(offered)) && HeldIn(s.db.rows, c)
    ensures Moves(s, s', c) && Reachable(cfg, s') && Holding(s', HaltedRows(s.db.rows, c, s.now, pause), s.db.recs, s.db.ledger, s.now)
  {
    s' := Apply(cfg, s, Event.Halt(IdOf(c), s.now + pause));
    ReachableStep(cfg, s, Event.Halt(IdOf(c), s.now + pause));
  }

  lemma Finishes(cfg: Config, s: Sys, c: Claimed, phase: Phase) returns (s': Sys)
    requires Reachable(cfg, s) && AtPhase(s, c, phase) && CanFinish(phase) && HeldIn(s.db.rows, c)
    ensures c.id in s.db.recs
    ensures Moves(s, s', c) && Reachable(cfg, s')
    ensures Holding(s', Queue.Finish(s.db.rows, c.id, Delivered), s.db.recs[c.id := SettleAll(s.db.recs[c.id], RefusedIn(phase))], s.db.ledger, s.now)
  {
    ClaimedRowStays(cfg, s, c);
    s' := Apply(cfg, s, Event.Finish(IdOf(c)));
    ReachableStep(cfg, s, Event.Finish(IdOf(c)));
  }

  /** A pending row has no records yet. */
  lemma PendingHasNone(cfg: Config, s: Sys, id: RowId)
    requires Reachable(cfg, s) && id in s.db.rows && s.db.rows[id].state == Pending
    ensures id in s.db.recs && s.db.recs[id] == []
  {
    ReachableInv(cfg, s);
    assert RowRecsOk(s.db.rows[id], s.db.recs[id]);
  }

  /** Failing is waiting out the ladder's delay, or the end of the ladder. */
  lemma Fails(cfg: Config, s: Sys, ladder: Ladder, c: Claimed, phase: Phase) returns (s': Sys)
    requires Reachable(cfg, s) && AtPhase(s, c, phase) && HeldIn(s.db.rows, c) && MayFail(phase) && cfg.ladder == |ladder|
    ensures Moves(s, s', c) && Reachable(cfg, s') && Holding(s', FailedRows(s.db.rows, ladder, c, s.now), s.db.recs, s.db.ledger, s.now)
  {
    var delay := Next(ladder, c.attempt);
    if delay.Some? {
      s' := Waits(cfg, s, c, phase, s.now + delay.value);
    } else {
      s' := EndsDead(cfg, s, c, phase);
    }
  }

  lemma NothingBefore(rs: seq<Rec>)
    ensures [] + rs == rs
  {
  }

  /** The ledger rows and the prepared records commit together. */
  lemma Prepares(cfg: Config, s: Sys, c: Claimed, records: seq<RecordId>, b: Ledger.Batch, rows: Rows, recs: map<RowId, seq<Rec>>) returns (s': Sys)
    requires Reachable(cfg, s) && AtPhase(s, c, SawPending) && HeldIn(s.db.rows, c) && s.db.rows[c.id].state == Pending
    requires OfRow(s.db.rows[c.id], records) && b == Ledger.AdmitAll(s.db.ledger, cfg.compare, records) && b.Admitted?
    requires c.id in s.db.recs && PreparesRow(s.db.rows, s.db.recs, c, b.prepared, rows, recs)
    ensures Moves(s, s', c) && Reachable(cfg, s') && s.db.recs[c.id] == []
    ensures Holding(s', rows, recs, b.table, s.now) && AtPhase(s', c, Ready(b.prepared))
  {
    PendingHasNone(cfg, s, c.id);
    NothingBefore(Stored(b.prepared));
    s' := Apply(cfg, s, Event.Prepare(IdOf(c), records));
    ReachableStep(cfg, s, Event.Prepare(IdOf(c), records));
  }

  // ---- The code --------------------------------------------------------------------------------------

  /** The objects hold the machine's tables. */
  ghost predicate Mirrors(cfg: Config, s: Sys, o: Outbox, l: RecordLedger)
    reads o, l
  {
    && Reachable(cfg, s) && Holding(s, o.rows, o.recs, l.table, o.now)
    && o.Valid() && cfg.compare == l.compare
  }

  lemma LedgerIsValid(cfg: Config, s: Sys, o: Outbox, l: RecordLedger)
    requires Mirrors(cfg, s, o, l)
    ensures l.Valid()
  {
    ReachableInv(cfg, s);
  }

  ghost function TablesOf(o: Outbox, l: RecordLedger): Tables
    reads o, l
  {
    Tables(o.rows, o.recs, l.table)
  }

  /** In a state of the machine, holding the row is being its holder. */
  lemma HeldIsHolder(cfg: Config, s: Sys, o: Outbox, l: RecordLedger, c: Claimed)
    requires Mirrors(cfg, s, o, l)
    ensures Holder(TablesOf(o, l), c) <==> HeldIn(o.rows, c)
  {
  }

  /** dead: the row is parked, for a failure the same bytes produce again; and MarkAbandoned, for a row claimed
      past the end of its ladder. */
  method ParkRow(o: Outbox, l: RecordLedger, opts: Options, c: Claimed, ghost phase: Phase, ghost cfg: Config, ghost s: Sys) returns (ghost s': Sys)
    requires Mirrors(cfg, s, o, l) && AtPhase(s, c, phase) && (MayDie(phase) || (phase == Fresh && Exhausted(cfg.ladder, c.attempt)))
    modifies o`rows
    ensures Mirrors(cfg, s', o, l) && Moves(s, s', c)
    ensures TablesOf(o, l) == Ended(old(TablesOf(o, l)), opts, o.now, c, Parked)
  {
    s' := s;
    HeldIsHolder(cfg, s, o, l, c);
    var lost := o.MarkDead(c);
    if lost.None? {
      s' := EndsDead(cfg, s, c, phase);
    }
  }

  /** fail: the row goes back on the ladder, which parks it at the end. */
  method FailRow(o: Outbox, l: RecordLedger, opts: Options, c: Claimed, ghost phase: Phase, ghost cfg: Config, ghost s: Sys)
    returns (ghost s': Sys)
    requires Mirrors(cfg, s, o, l) && AtPhase(s, c, phase) && MayFail(phase) && cfg.ladder == |opts.ladder|
    modifies o`rows
    ensures Mirrors(cfg, s', o, l) && Moves(s, s', c)
    ensures TablesOf(o, l) == Ended(old(TablesOf(o, l)), opts, o.now, c, Retried)
  {
    s' := s;
    HeldIsHolder(cfg, s, o, l, c);
    var lost := o.Fail(c, opts.ladder);
    if lost.None? {
      s' := Fails(cfg, s, opts.ladder, c, phase);
    }
  }

  /** halt: the row waits where it is, to be claimed again after the pause. */
  method HaltRow(o: Outbox, l: RecordLedger, opts: Options, c: Claimed, ghost offered: seq<RecordId>, ghost cfg: Config, ghost s: Sys)
    returns (ghost s': Sys)
    requires Mirrors(cfg, s, o, l) && AtPhase(s, c, Ready(offered))
    modifies o`rows
    ensures Mirrors(cfg, s', o, l) && Moves(s, s', c)
    ensures TablesOf(o, l) == Ended(old(TablesOf(o, l)), opts, o.now, c, Paused)
  {
    s' := s;
    HeldIsHolder(cfg, s, o, l, c);
    var lost := o.Halt(c, opts.pause);
    if lost.None? {
      s' := Halts(cfg, s, c, offered, opts.pause);
    }
  }

  lemma FinishEnds(t: Tables, opts: Options, now: int, c: Claimed, dead: seq<RecordId>, offered: seq<RecordId>, r: Option<OutboxError>, t': Tables)
    requires (Holder(t, c) <==> HeldIn(t.rows, c)) && (Holder(t, c) ==> offered == WaitingIds(t.recs[c.id]))
    requires Answers.LinesUp(dead, offered)
    requires r.Some? ==> t' == t && (!HeldIn(t.rows, c) || !Answers.LinesUp(dead, WaitingIds(if c.id in t.recs then t.recs[c.id] else [])))
    requires r.None? ==>
      && c.id in t.rows && c.id in t.recs && HeldIn(t.rows, c)
      && t' == t.(rows := Queue.Finish(t.rows, c.id, Delivered), recs := t.recs[c.id := SettleAll(t.recs[c.id], SetOf(dead))])
    ensures t' == Ended(t, opts, now, c, Finished(dead))
  {
  }

  /** finish: the row is delivered, with the records the sink refused as dead letters. That the outbox finds each
      of them waiting is no accident: while the lease stays, what waits is what was offered. */
  method FinishRow(o: Outbox, l: RecordLedger, opts: Options, c: Claimed, dead: seq<RecordId>, ghost phase: Phase, ghost cfg: Config, ghost s: Sys)
    returns (ghost s': Sys)
    requires Mirrors(cfg, s, o, l) && AtPhase(s, c, phase) && CanFinish(phase) && RefusedIn(phase) == SetOf(dead)
    requires Answers.LinesUp(dead, phase.offered)
    modifies o`rows, o`recs
    ensures Mirrors(cfg, s', o, l) && Moves(s, s', c)
    ensures TablesOf(o, l) == Ended(old(TablesOf(o, l)), opts, o.now, c, Finished(dead))
  {
    s' := s;
    ghost var t := TablesOf(o, l);
    HeldIsHolder(cfg, s, o, l, c);
    HolderOffersWhatWaits(cfg, s, c, phase);
    var lost := o.MarkDelivered(c, dead);
    FinishEnds(t, opts, o.now, c, dead, phase.offered, lost, TablesOf(o, l));
    if lost.None? {
      s' := Finishes(cfg, s, c, phase);
    }
  }

  /** While the token stays on the row, the records waiting under it are the ones its holder offers. */
  lemma HolderOffersWhatWaits(cfg: Config, s: Sys, c: Claimed, phase: Phase)
    requires Reachable(cfg, s) && AtPhase(s, c, phase) && CanFinish(phase)
    ensures HeldIn(s.db.rows, c) ==> c.id in s.db.recs && phase.offered == WaitingIds(s.db.recs[c.id])
  {
    HandleFitsRow(cfg, s, c);
  }

  lemma HandleFitsRow(cfg: Config, s: Sys, c: Claimed)
    requires Reachable(cfg, s) && IdOf(c) in s.handles
    ensures RowFits(s.handles[IdOf(c)], s.db, IdOf(c))
  {
    ReachableInv(cfg, s);
    assert HandleFits(s, IdOf(c));
  }

  /** deliver: the records go to the sink, outside every transaction, and what comes back is recorded. */
  method DeliverRecords(o: Outbox, l: RecordLedger, opts: Options, c: Claimed, offered: seq<RecordId>, answer: SinkAnswer,
                        ghost cfg: Config, ghost s: Sys)
    returns (ghost s': Sys)
    requires Mirrors(cfg, s, o, l) && AtPhase(s, c, Ready(offered)) && cfg.ladder == |opts.ladder|
    modifies o`rows, o`recs
    ensures Mirrors(cfg, s', o, l) && Moves(s, s', c)
    ensures TablesOf(o, l) == Ended(old(TablesOf(o, l)), opts, o.now, c, SinkEnding(offered, answer))
    ensures AnswerSays(old(TablesOf(o, l)), TablesOf(o, l), opts, o.now, c, offered, answer)
  {
    ghost var t := TablesOf(o, l);
    if offered == [] {
      assert SetOf([]) == {};
      s' := FinishRow(o, l, opts, c, [], Ready([]), cfg, s);
      AnswerMeans(t, TablesOf(o, l), opts, o.now, c, offered, answer);
      return;
    }
    s' := AskSink(o, l, opts, c, offered, answer, cfg, s);
    AnswerMeans(t, TablesOf(o, l), opts, o.now, c, offered, answer);
  }

  /** The branches of deliver on what the sink comes to. */
  method AskSink(o: Outbox, l: RecordLedger, opts: Options, c: Claimed, offered: seq<RecordId>, answer: SinkAnswer,
                 ghost cfg: Config, ghost s: Sys)
    returns (ghost s': Sys)
    requires Mirrors(cfg, s, o, l) && AtPhase(s, c, Ready(offered)) && cfg.ladder == |opts.ladder| && offered != []
    modifies o`rows, o`recs
    ensures Mirrors(cfg, s', o, l) && Moves(s, s', c)
    ensures TablesOf(o, l) == Ended(old(TablesOf(o, l)), opts, o.now, c, SinkEnding(offered, answer))
  {
    match answer
    case NoSink => s' := HaltRow(o, l, opts, c, offered, cfg, s);
    case HaltFault => s' := HaltRow(o, l, opts, c, offered, cfg, s);
    case Broken => s' := HaltRow(o, l, opts, c, offered, cfg, s);
    case RetryFault => s' := FailRow(o, l, opts, c, Ready(offered), cfg, s);
    case Answered(rejected) => s' := RecordAnswer(o, l, opts, c, offered, rejected, cfg, s);
  }

  /** The last branch of deliver: an answer is believed only if it names records of the batch, each once. */
  method RecordAnswer(o: Outbox, l: RecordLedger, opts: Options, c: Claimed, offered: seq<RecordId>, rejected: seq<RecordId>,
                      ghost cfg: Config, ghost s: Sys)
    returns (ghost s': Sys)
    requires Mirrors(cfg, s, o, l) && AtPhase(s, c, Ready(offered)) && cfg.ladder == |opts.ladder| && offered != []
    modifies o`rows, o`recs
    ensures Mirrors(cfg, s', o, l) && Moves(s, s', c)
    ensures TablesOf(o, l)
         == Ended(old(TablesOf(o, l)), opts, o.now, c, if Answers.LinesUp(rejected, offered) then Finished(rejected) else Retried)
  {
    var dead := Answers.DeadRecords(rejected, offered);
    if dead.Err? {
      s' := FailRow(o, l, opts, c, Ready(offered), cfg, s);
    } else {
      RefusedWereOffered(dead.value, offered);
      s' := Delivers(cfg, s, c, offered, SetOf(dead.value));
      s' := FinishRow(o, l, opts, c, dead.value, Phase.Answered(offered, SetOf(dead.value)), cfg, s');
    }
  }

  lemma RefusedWereOffered(dead: seq<RecordId>, offered: seq<RecordId>)
    requires Answers.LinesUp(dead, offered)
    ensures forall r :: r in SetOf(dead) ==> r in offered
  {
  }

  /** What the preparing transaction answers, and leaves: an error exactly if the ledger refuses a record or masking
      fails, and then nothing is written; nothing written for a worker that lost its lease; and otherwise the
      ledger rows, the prepared records and the row's new state, together. */
  ghost predicate PrepareSays(t: Tables, compare: Ledger.Compare, c: Claimed, records: seq<RecordId>, masking: Option<bool>,
                              r: PrepareOutcome, t': Tables) {
    var b := Ledger.AdmitAll(t.ledger, compare, records);
    if r.Fault? then t' == t && (b.Refused? || masking.Some?) && r.deadLetter == (b.Refused? || masking == Some(true))
    else b.Admitted? && masking.None? && StoreSays(t, c, b, r, t')
  }

  ghost predicate StoreSays(t: Tables, c: Claimed, b: Ledger.Batch, r: PrepareOutcome, t': Tables)
    requires b.Admitted?
  {
    match r
    case Fault(_) => false
    case Lost => t' == t && !HeldIn(t.rows, c)
    case Prepared(prepared) => Holder(t, c) && prepared == b.prepared && t' == PreparedTables(t, c, b)
  }

  /** The transaction that prepares: the ledger rows, the prepared records and the row's new state commit
      together, or everything is as it was. */
  method PrepareRow(o: Outbox, l: RecordLedger, c: Claimed, records: seq<RecordId>, masking: Option<bool>, ghost cfg: Config, ghost s: Sys)
    returns (r: PrepareOutcome, ghost s': Sys)
    requires Mirrors(cfg, s, o, l) && AtPhase(s, c, SawPending) && c.id in o.rows && OfRow(o.rows[c.id], records)
    modifies o`rows, o`recs, l`table
    ensures Mirrors(cfg, s', o, l) && Moves(s, s', c)
    ensures PrepareSays(old(TablesOf(o, l)), l.compare, c, records, masking, r, TablesOf(o, l))
    ensures if r.Prepared? then AtPhase(s', c, Ready(r.records)) else s' == s
  {
    var before := l.table;
    LedgerIsValid(cfg, s, o, l);
    var out, refused := l.Prepare(records);
    if refused.Some? {
      return Fault(true), s;
    }
    if masking.Some? {
      l.table := before;
      return Fault(masking.value), s;
    }
    HolderSawPending(cfg, s, c);
    r, s' := StorePrepared(o, l, c, records, IdsOf(out.records), before, Ledger.AdmitAll(before, l.compare, records), cfg, s);
  }

  /** The ledger has admitted this batch in a transaction that began with the ledger `before`. */
  ghost predicate Admitting(cfg: Config, s: Sys, o: Outbox, l: RecordLedger, b: Ledger.Batch, before: Ledger.Table)
    reads o, l
  {
    && b.Admitted? && l.table == b.table
    && Reachable(cfg, s) && Holding(s, o.rows, o.recs, before, o.now)
    && o.Valid() && cfg.compare == l.compare
  }

  lemma PreparedSays(t: Tables, c: Claimed, b: Ledger.Batch, t': Tables)
    requires Holder(t, c) && t.recs[c.id] == [] && b.Admitted? && t'.ledger == b.table
    requires PreparesRow(t.rows, t.recs, c, b.prepared, t'.rows, t'.recs)
    ensures StoreSays(t, c, b, PrepareOutcome.Prepared(b.prepared), t')
  {
    NothingBefore(Stored(b.prepared));
  }

  /** The last statements of that transaction: PrepareIn, whose refusal takes the ledger rows back. */
  method StorePrepared(o: Outbox, l: RecordLedger, c: Claimed, ghost records: seq<RecordId>, prepared: seq<RecordId>, before: Ledger.Table,
                       ghost b: Ledger.Batch, ghost cfg: Config, ghost s: Sys)
    returns (r: PrepareOutcome, ghost s': Sys)
    requires AtPhase(s, c, SawPending) && c.id in o.rows && OfRow(o.rows[c.id], records)
    requires HeldIn(o.rows, c) ==> o.rows[c.id].state == Pending
    requires Admitting(cfg, s, o, l, b, before) && b == Ledger.AdmitAll(before, cfg.compare, records) && prepared == b.prepared
    modifies o`rows, o`recs, l`table
    ensures Mirrors(cfg, s', o, l) && Moves(s, s', c)
    ensures StoreSays(old(TablesOf(o, l)).(ledger := before), c, b, r, TablesOf(o, l))
    ensures if r.Prepared? then AtPhase(s', c, Ready(r.records)) else s' == s
  {
    ghost var t := TablesOf(o, l).(ledger := before);
    var lost := o.PrepareIn(c, prepared);
    if lost.Some? {
      l.table := before;
      return Lost, s;
    }
    ghost var rows, recs := o.rows, o.recs;
    s' := Prepares(cfg, s, c, records, b, rows, recs);
    PreparedSays(t, c, b, TablesOf(o, l));
    return PrepareOutcome.Prepared(prepared), s';
  }

  /** A row that its holder saw pending is pending. */
  lemma HolderSawPending(cfg: Config, s: Sys, c: Claimed)
    requires Reachable(cfg, s) && AtPhase(s, c, SawPending)
    ensures HeldIn(s.db.rows, c) ==> s.db.rows[c.id].state == Pending
  {
    HandleFitsRow(cfg, s, c);
  }

  /** What the preparing transaction comes to: records to deliver, a lease that was lost, or an error, which may
      be one the same bytes produce again. */
  datatype PrepareOutcome = Prepared(records: seq<RecordId>) | Lost | Fault(deadLetter: bool)

  /** failPipeline: an error of the row's own is parked if the same bytes give it again, and retried if not. */
  method FailPipeline(o: Outbox, l: RecordLedger, opts: Options, c: Claimed, deadLetter: bool, ghost cfg: Config, ghost s: Sys)
    returns (ghost s': Sys)
    requires Mirrors(cfg, s, o, l) && AtPhase(s, c, SawPending) && cfg.ladder == |opts.ladder|
    modifies o`rows
    ensures Mirrors(cfg, s', o, l) && Moves(s, s', c)
    ensures TablesOf(o, l) == Ended(old(TablesOf(o, l)), opts, o.now, c, Failing(deadLetter))
  {
    if deadLetter {
      s' := ParkRow(o, l, opts, c, SawPending, cfg, s);
    } else {
      s' := FailRow(o, l, opts, c, SawPending, cfg, s);
    }
  }

  /** readyRecords, for a row that an earlier claim prepared: the records come from the table, and one that does
      not reopen parks the row. */
  method WorkStored(o: Outbox, l: RecordLedger, opts: Options, c: Claimed, world: World, ghost cfg: Config, ghost s: Sys)
    returns (ghost s': Sys)
    requires Mirrors(cfg, s, o, l) && AtPhase(s, c, SawStored) && cfg.ladder == |opts.ladder| && c.id in o.recs
    modifies o`rows, o`recs
    ensures Mirrors(cfg, s', o, l) && Moves(s, s', c)
    ensures TablesOf(o, l)
         == Ended(old(TablesOf(o, l)), opts, o.now, c, if world.reopens then SinkEnding(WaitingIds(old(o.recs)[c.id]), world.answer) else Parked)
  {
    if !world.reopens {
      s' := ParkRow(o, l, opts, c, SawStored, cfg, s);
      return;
    }
    s' := Reads(cfg, s, c);
    var offered := o.PreparedRecords(c);
    s' := DeliverRecords(o, l, opts, c, offered, world.answer, cfg, s');
  }

  /** readyRecords, for a row that is still pending: its body is normalized outside every transaction, and the
      records that come of it are prepared. Records that are not this row's are refused before they are stored. */
  method WorkPending(o: Outbox, l: RecordLedger, opts: Options, c: Claimed, world: World, ghost cfg: Config, ghost s: Sys)
    returns (ghost s': Sys)
    requires Mirrors(cfg, s, o, l) && AtPhase(s, c, SawPending) && c.id in o.rows && cfg.ladder == |opts.ladder|
    modifies o`rows, o`recs, l`table
    ensures Mirrors(cfg, s', o, l) && Moves(s, s', c)
    ensures PendingWorked(old(TablesOf(o, l)), opts, l.compare, o.now, c, world, TablesOf(o, l))
  {
    if world.normalized.Err? {
      s' := FailPipeline(o, l, opts, c, world.normalized.error, cfg, s);
      return;
    }
    var row := o.rows[c.id];
    if !OfRow(row, world.normalized.value) {
      s' := ParkRow(o, l, opts, c, SawPending, cfg, s);
      return;
    }
    ghost var t := TablesOf(o, l);
    var ready;
    ready, s' := PrepareRow(o, l, c, world.normalized.value, world.masking, cfg, s);
    ghost var t' := TablesOf(o, l);
    if ready.Prepared? {
      s' := DeliverRecords(o, l, opts, c, ready.records, world.answer, cfg, s');
    } else if ready.Fault? {
      s' := FailPipeline(o, l, opts, c, ready.deadLetter, cfg, s');
    }
    PendingByPrepare(t, opts, l.compare, o.now, c, world, ready, t', TablesOf(o, l));
  }

  lemma PendingByPrepare(t: Tables, opts: Options, compare: Ledger.Compare, now: int, c: Claimed, world: World,
                         ready: PrepareOutcome, t': Tables, after: Tables)
    requires c.id in t.rows && c.id in t.recs && world.normalized.Ok? && OfRow(t.rows[c.id], world.normalized.value)
    requires PrepareSays(t, compare, c, world.normalized.value, world.masking, ready, t')
    requires after == match ready
                      case Prepared(records) => Ended(t', opts, now, c, SinkEnding(records, world.answer))
                      case Fault(deadLetter) => Ended(t', opts, now, c, Failing(deadLetter))
                      case Lost => t'
    ensures PendingWorked(t, opts, compare, now, c, world, after)
  {
  }

  /** What the tables hold once a row that was pending has been worked. */
  ghost predicate PendingWorked(t: Tables, opts: Options, compare: Ledger.Compare, now: int, c: Claimed, world: World, after: Tables) {
    if !Holder(t, c) then after == t
    else
      match Preparing(t, compare, c, world)
      case Ends(e) => after == Ended(t, opts, now, c, e)
      case Offers(tables, records) => after == Ended(tables, opts, now, c, SinkEnding(records, world.answer))
  }

  /** workRow: one row from its claim to its outcome, whatever the provider, the ledger and the sink answer. */
  method WorkRow(o: Outbox, l: RecordLedger, opts: Options, c: Claimed, world: World, ghost cfg: Config, ghost s: Sys)
    returns (ghost s': Sys)
    requires Mirrors(cfg, s, o, l) && AtPhase(s, c, Fresh) && cfg.ladder == |opts.ladder|
    modifies o`rows, o`recs, l`table
    ensures Mirrors(cfg, s', o, l) && Moves(s, s', c)
    ensures TablesOf(o, l) == Worked(old(TablesOf(o, l)), opts, l.compare, o.now, c, world)
    ensures WorkSays(old(TablesOf(o, l)), TablesOf(o, l), opts, l.compare, o.now, c, world)
  {
    ghost var t := TablesOf(o, l);
    if Exhausted(|opts.ladder|, c.attempt) {
      s' := ParkRow(o, l, opts, c, Fresh, cfg, s);
    } else {
      s' := WorkStarted(o, l, opts, c, world, cfg, s);
    }
    WorkedMeans(t, TablesOf(o, l), opts, l.compare, o.now, c, world);
  }

  /** The rest of workRow, for a claim that the ladder still accounts for. */
  method WorkStarted(o: Outbox, l: RecordLedger, opts: Options, c: Claimed, world: World, ghost cfg: Config, ghost s: Sys)
    returns (ghost s': Sys)
    requires Mirrors(cfg, s, o, l) && AtPhase(s, c, Fresh) && cfg.ladder == |opts.ladder| && !Exhausted(|opts.ladder|, c.attempt)
    modifies o`rows, o`recs, l`table
    ensures Mirrors(cfg, s', o, l) && Moves(s, s', c)
    ensures TablesOf(o, l) == Worked(old(TablesOf(o, l)), opts, l.compare, o.now, c, world)
  {
    s' := Starts(cfg, s, c);
    if !world.readable {
      s' := FailRow(o, l, opts, c, Working, cfg, s');
      return;
    }
    s' := Sees(cfg, s', c);
    if o.rows[c.id].state == Pending {
      s' := WorkPending(o, l, opts, c, world, cfg, s');
    } else {
      s' := WorkStored(o, l, opts, c, world, cfg, s');
    }
  }

  // ---- A batch -----------------------------------------------------------------------------------------

  /** The worker of every claim from the `i`th on has not started. */
  predicate AllFresh(s: Sys, claims: seq<Claimed>, i: nat) {
    forall j :: i <= j < |claims| ==> AtPhase(s, claims[j], Fresh)
  }

  predicate DistinctRows(claims: seq<Claimed>) {
    forall i, j :: 0 <= i < j < |claims| ==> claims[i].id != claims[j].id
  }

  /** None of the first `n` claims holds its row. */
  predicate NoneHeld(rows: Rows, claims: seq<Claimed>, n: nat) {
    forall i :: 0 <= i < n && i < |claims| ==> !HeldIn(rows, claims[i])
  }

  /** Every token of the past is one that the sequence of tokens is past. */
  predicate TokensPast(s: Sys, next: Token) {
    forall token :: token in s.tokens ==> token < next
  }

  /** A batch is one claim of the machine. */
  lemma Takes(cfg: Config, s: Sys, rows: Rows, batch: int, lease: int, token: Token, claims: seq<Claimed>) returns (s': Sys)
    requires Reachable(cfg, s) && TokensPast(s, token)
    requires ClaimAnswers(s.db.rows, rows, s.now, batch, lease, token, Ok(claims))
    ensures Reachable(cfg, s') && Holding(s', rows, s.db.recs, s.db.ledger, s.now) && TokensPast(s', token + 1)
    ensures AllFresh(s', claims, 0) && DistinctRows(claims)
  {
    var ids, until := IdSet(ClaimedIds(claims)), s.now + lease;
    DueHeads(s.db.rows, s.now, AtMost(batch), claims);
    s' := Apply(cfg, s, Event.Claim(token, ids, until));
    ReachableStep(cfg, s, Event.Claim(token, ids, until));
    HandedToAll(s.db.rows, rows, token, ids, until, claims);
  }

  lemma DueHeads(rows: Rows, now: int, limit: nat, claims: seq<Claimed>)
    requires Picks(rows, now, limit, ClaimedIds(claims))
    ensures forall id :: id in IdSet(ClaimedIds(claims)) ==> IsDue(rows, id, now)
    ensures DistinctRows(claims)
  {
    assert forall i :: 0 <= i < |claims| ==> claims[i].id == ClaimedIds(claims)[i];
  }

  lemma HandedToAll(was: Rows, rows: Rows, token: Token, ids: set<RowId>, until: int, claims: seq<Claimed>)
    requires ids == IdSet(ClaimedIds(claims)) && (forall id :: id in ids ==> id in was)
    requires rows == Queue.Claim(was, ids, token, until) && forall i :: 0 <= i < |claims| ==> HandedOut(rows, claims[i], token)
    ensures forall j :: 0 <= j < |claims| ==>
              IdOf(claims[j]) in Claims(ids, token, was) && Claims(ids, token, was)[IdOf(claims[j])] == Handle(claims[j].attempt, Fresh)
  {
    forall j | 0 <= j < |claims|
      ensures IdOf(claims[j]) in Claims(ids, token, was) && Claims(ids, token, was)[IdOf(claims[j])] == Handle(claims[j].attempt, Fresh)
    {
      assert ClaimedIds(claims)[j] in ids;
      assert HandedOut(rows, claims[j], token);
    }
  }

  lemma Releases(cfg: Config, s: Sys, c: Claimed) returns (s': Sys)
    requires Reachable(cfg, s) && AtPhase(s, c, Fresh) && HeldIn(s.db.rows, c)
    ensures Moves(s, s', c) && Reachable(cfg, s')
    ensures Holding(s', s.db.rows[c.id := ReleasedRow(s.db.rows[c.id])], s.db.recs, s.db.ledger, s.now)
  {
    s' := Apply(cfg, s, Event.Release(IdOf(c)));
    ReachableStep(cfg, s, Event.Release(IdOf(c)));
  }

  lemma OthersStayFresh(s: Sys, s': Sys, claims: seq<Claimed>, i: nat)
    requires i < |claims| && AllFresh(s, claims, i) && DistinctRows(claims) && Moves(s, s', claims[i])
    ensures AllFresh(s', claims, i + 1)
  {
  }

  lemma WorkLeavesNone(t: Tables, opts: Options, compare: Ledger.Compare, now: int, claims: seq<Claimed>, i: nat, world: World)
    requires i < |claims| && DistinctRows(claims) && NoneHeld(t.rows, claims, i)
    requires Holder(t, claims[i]) <==> HeldIn(t.rows, claims[i])
    ensures opts.pause > 0 ==> NoneHeld(Worked(t, opts, compare, now, claims[i], world).rows, claims, i + 1)
  {
    if Holder(t, claims[i]) {
      forall j | 0 <= j <= i
        ensures opts.pause > 0 ==> !HeldIn(Worked(t, opts, compare, now, claims[i], world).rows, claims[j])
      {
        WorkedLeases(t, opts, compare, now, claims[i], world, claims[j]);
      }
    }
  }

  /** Releasing frees the row for the claim that holds it. */
  function ReleasedRows(rows: Rows, c: Claimed): Rows {
    if HeldIn(rows, c) then rows[c.id := ReleasedRow(rows[c.id])] else rows
  }

  /** release: one row that was claimed and will not be reached goes back, its attempt uncharged. */
  method ReleaseRow(o: Outbox, l: RecordLedger, c: Claimed, ghost cfg: Config, ghost s: Sys) returns (ghost s': Sys)
    requires Mirrors(cfg, s, o, l) && AtPhase(s, c, Fresh)
    modifies o`rows
    ensures Mirrors(cfg, s', o, l) && Moves(s, s', c)
    ensures o.rows == ReleasedRows(old(o.rows), c)
    ensures ReleaseSays(old(TablesOf(o, l)), TablesOf(o, l), c)
  {
    s' := s;
    var lost := o.Release(c);
    if lost.None? {
      s' := Releases(cfg, s, c);
    }
  }

  /** once: a batch is claimed and worked row by row, and what a shutdown after `stop` rows leaves of it is given
      back: `trail` holds the tables before, between and after these steps. However the rows end, none of the batch
      is still leased to its claim (unless a row was to wait and the pause is refused). */
  method Once(o: Outbox, l: RecordLedger, opts: Options, batch: int, lease: int, world: Claimed -> World, stop: nat,
              ghost cfg: Config, ghost s: Sys)
    returns (claimed: Result<seq<Claimed>, OutboxError>, ghost trail: seq<Tables>, ghost s': Sys)
    requires Mirrors(cfg, s, o, l) && TokensPast(s, o.next.token) && cfg.ladder == |opts.ladder|
    modifies o`rows, o`recs, o`next, l`table
    ensures Mirrors(cfg, s', o, l)
    ensures claimed.Err? <==> batch <= 0 || lease <= 0
    ensures claimed.Err? ==> TablesOf(o, l) == old(TablesOf(o, l))
    ensures claimed.Ok? ==> Picks(old(o.rows), o.now, AtMost(batch), ClaimedIds(claimed.value))
    ensures claimed.Ok? ==> Batched(old(TablesOf(o, l)), TablesOf(o, l), trail, opts, l.compare, o.now, lease, old(o.next.token), claimed.value, world, stop)
    ensures claimed.Ok? && opts.pause > 0 ==> NoneHeld(o.rows, claimed.value, |claimed.value|)
  {
    ghost var t, next := TablesOf(o, l), o.next;
    claimed, s' := TakeBatch(o, l, batch, lease, cfg, s);
    trail := [];
    if claimed.Ok? {
      ghost var taken := TablesOf(o, l);
      BatchTaken(t, taken, o.now, batch, lease, next.token, claimed.value);
      trail, s' := WorkTaken(o, l, opts, claimed.value, world, stop, cfg, s');
    }
  }

  /** The tables once a batch is claimed: its rows, which are of different queues, are leased, and nothing else is
      touched. */
  ghost predicate Leased(t: Tables, t': Tables, now: int, lease: int, token: Token, claims: seq<Claimed>) {
    ClaimLeases(t.rows, t'.rows, now + lease, token, claims) && t'.recs == t.recs && t'.ledger == t.ledger && Apart(t', claims)
  }

  lemma BatchTaken(t: Tables, t': Tables, now: int, batch: int, lease: int, token: Token, claims: seq<Claimed>)
    requires QueueOk(t.rows) && t.recs.Keys == t.rows.Keys && t'.recs == t.recs && t'.ledger == t.ledger
    requires ClaimAnswers(t.rows, t'.rows, now, batch, lease, token, Ok(claims))
    ensures Leased(t, t', now, lease, token, claims)
  {
    ClaimMeans(t.rows, t'.rows, now, batch, lease, token, claims);
    ClaimedApart(t.rows, t', now, batch, lease, token, claims);
  }

  /** What becomes of a claimed batch. */
  method WorkTaken(o: Outbox, l: RecordLedger, opts: Options, claims: seq<Claimed>, world: Claimed -> World, stop: nat, ghost cfg: Config, ghost s: Sys)
    returns (ghost trail: seq<Tables>, ghost s': Sys)
    requires Mirrors(cfg, s, o, l) && AllFresh(s, claims, 0) && DistinctRows(claims) && cfg.ladder == |opts.ladder|
    modifies o`rows, o`recs, l`table
    ensures Mirrors(cfg, s', o, l)
    ensures BatchSteps(trail, opts, l.compare, o.now, claims, world, stop) && trail[0] == old(TablesOf(o, l)) && trail[|claims|] == TablesOf(o, l)
    ensures opts.pause > 0 ==> NoneHeld(o.rows, claims, |claims|)
  {
    var i;
    ghost var worked, released;
    i, worked, s' := WorkBatch(o, l, opts, claims, world, stop, cfg, s);
    released, s' := ReleaseRest(o, l, opts, claims, i, cfg, s');
    trail := Joined(worked, released, opts, l.compare, o.now, claims, world, i);
    StopIsEnough(trail, opts, l.compare, o.now, claims, world, i, stop);
  }

  /** What a batch comes to: its rows are leased, and the trail runs from there to the tables as they are. */
  ghost predicate Batched(t: Tables, t': Tables, trail: seq<Tables>, opts: Options, compare: Ledger.Compare, now: int, lease: int, token: Token,
                          claims: seq<Claimed>, world: Claimed -> World, stop: nat) {
    BatchSteps(trail, opts, compare, now, claims, world, stop) && Leased(t, trail[0], now, lease, token, claims) && trail[|claims|] == t'
  }

  lemma Joined(worked: seq<Tables>, released: seq<Tables>, opts: Options, compare: Ledger.Compare, now: int, claims: seq<Claimed>,
               world: Claimed -> World, n: nat) returns (trail: seq<Tables>)
    requires n <= |claims| && WorkedSteps(worked, opts, compare, now, claims, world, n) && ReleasedSteps(released, claims, n, |claims|)
    requires worked[n] == released[0]
    ensures BatchSteps(trail, opts, compare, now, claims, world, n) && trail[0] == worked[0] && trail[|claims|] == released[|claims| - n]
  {
    trail := worked[..n] + released;
    forall i | 0 <= i < |claims|
      ensures BatchStep(trail[i], trail[i + 1], opts, compare, now, claims[i], world(claims[i]), i < n)
    {
      if i < n {
        assert trail[i] == worked[i] && trail[i + 1] == worked[i + 1];
        assert WorkStep(worked[i], worked[i + 1], opts, compare, now, claims[i], world(claims[i]));
      } else {
        assert trail[i] == released[i - n] && trail[i + 1] == released[i - n + 1];
        assert ReleaseSays(released[i - n], released[i - n + 1], claims[n + (i - n)]);
      }
    }
  }

  lemma StopIsEnough(trail: seq<Tables>, opts: Options, compare: Ledger.Compare, now: int, claims: seq<Claimed>, world: Claimed -> World, n: nat, stop: nat)
    requires BatchSteps(trail, opts, compare, now, claims, world, n) && n == if stop < |claims| then stop else |claims|
    ensures BatchSteps(trail, opts, compare, now, claims, world, stop)
  {
    forall i | 0 <= i < |claims|
      ensures BatchStep(trail[i], trail[i + 1], opts, compare, now, claims[i], world(claims[i]), i < stop)
    {
      assert (i < n) == (i < stop);
    }
  }

  /** The rows of a batch, worked one after the other until a shutdown. */
  method WorkBatch(o: Outbox, l: RecordLedger, opts: Options, claims: seq<Claimed>, world: Claimed -> World, stop: nat, ghost cfg: Config, ghost s: Sys)
    returns (i: nat, ghost trail: seq<Tables>, ghost s': Sys)
    requires Mirrors(cfg, s, o, l) && AllFresh(s, claims, 0) && DistinctRows(claims) && cfg.ladder == |opts.ladder|
    modifies o`rows, o`recs, l`table
    ensures i == if stop < |claims| then stop else |claims|
    ensures Mirrors(cfg, s', o, l) && AllFresh(s', claims, i)
    ensures opts.pause > 0 ==> NoneHeld(o.rows, claims, i)
    ensures WorkedSteps(trail, opts, l.compare, o.now, claims, world, i) && trail[0] == old(TablesOf(o, l)) && trail[i] == TablesOf(o, l)
  {
    s', i, trail := s, 0, [TablesOf(o, l)];
    while i < |claims| && i < stop
      invariant i <= |claims| && i <= stop && Mirrors(cfg, s', o, l) && AllFresh(s', claims, i)
      invariant opts.pause > 0 ==> NoneHeld(o.rows, claims, i)
      invariant WorkedSteps(trail, opts, l.compare, o.now, claims, world, i) && trail[0] == old(TablesOf(o, l)) && trail[i] == TablesOf(o, l)
    {
      s' := WorkNext(o, l, opts, claims, i, world(claims[i]), cfg, s');
      trail := WorkedOne(trail, TablesOf(o, l), opts, l.compare, o.now, claims, world, i);
      i := i + 1;
    }
  }

  method WorkNext(o: Outbox, l: RecordLedger, opts: Options, claims: seq<Claimed>, i: nat, world: World, ghost cfg: Config, ghost s: Sys)
    returns (ghost s': Sys)
    requires Mirrors(cfg, s, o, l) && i < |claims| && AllFresh(s, claims, i) && DistinctRows(claims) && cfg.ladder == |opts.ladder|
    requires opts.pause > 0 ==> NoneHeld(o.rows, claims, i)
    modifies o`rows, o`recs, l`table
    ensures Mirrors(cfg, s', o, l) && AllFresh(s', claims, i + 1)
    ensures opts.pause > 0 ==> NoneHeld(o.rows, claims, i + 1)
    ensures WorkStep(old(TablesOf(o, l)), TablesOf(o, l), opts, l.compare, o.now, claims[i], world)
  {
    ghost var t := TablesOf(o, l);
    HeldIsHolder(cfg, s, o, l, claims[i]);
    s' := WorkRow(o, l, opts, claims[i], world, cfg, s);
    if opts.pause > 0 {
      WorkLeavesNone(t, opts, l.compare, o.now, claims, i, world);
    }
    OthersStayFresh(s, s', claims, i);
  }

  lemma WorkedOne(trail: seq<Tables>, t': Tables, opts: Options, compare: Ledger.Compare, now: int, claims: seq<Claimed>,
                  world: Claimed -> World, i: nat) returns (trail': seq<Tables>)
    requires i < |claims| && WorkedSteps(trail, opts, compare, now, claims, world, i)
    requires WorkStep(trail[i], t', opts, compare, now, claims[i], world(claims[i]))
    ensures WorkedSteps(trail', opts, compare, now, claims, world, i + 1) && trail'[0] == trail[0] && trail'[i + 1] == t'
  {
    trail' := trail + [t'];
    forall j | 0 <= j < i + 1
      ensures WorkStep(trail'[j], trail'[j + 1], opts, compare, now, claims[j], world(claims[j]))
    {
      if j < i {
        assert WorkStep(trail[j], trail[j + 1], opts, compare, now, claims[j], world(claims[j]));
      }
    }
  }

  /** release: the rows that were not reached. */
  method ReleaseRest(o: Outbox, l: RecordLedger, opts: Options, claims: seq<Claimed>, from: nat, ghost cfg: Config, ghost s: Sys)
    returns (ghost trail: seq<Tables>, ghost s': Sys)
    requires from <= |claims| && Mirrors(cfg, s, o, l) && AllFresh(s, claims, from) && DistinctRows(claims)
    requires opts.pause > 0 ==> NoneHeld(o.rows, claims, from)
    modifies o`rows
    ensures Mirrors(cfg, s', o, l)
    ensures opts.pause > 0 ==> NoneHeld(o.rows, claims, |claims|)
    ensures ReleasedSteps(trail, claims, from, |claims|) && trail[0] == old(TablesOf(o, l)) && trail[|claims| - from] == TablesOf(o, l)
  {
    s', trail := s, [TablesOf(o, l)];
    for i := from to |claims|
      invariant Mirrors(cfg, s', o, l) && AllFresh(s', claims, i)
      invariant opts.pause > 0 ==> NoneHeld(o.rows, claims, i)
      invariant ReleasedSteps(trail, claims, from, i) && trail[0] == old(TablesOf(o, l)) && trail[i - from] == TablesOf(o, l)
    {
      ghost var before, rows := s', o.rows;
      s' := ReleaseRow(o, l, claims[i], cfg, s');
      OthersStayFresh(before, s', claims, i);
      ReleaseLeavesNone(rows, o.rows, claims, i);
      trail := ReleasedOne(trail, TablesOf(o, l), claims, from, i);
    }
  }

  lemma ReleasedOne(trail: seq<Tables>, t': Tables, claims: seq<Claimed>, from: nat, i: nat) returns (trail': seq<Tables>)
    requires from <= i < |claims| && ReleasedSteps(trail, claims, from, i) && ReleaseSays(trail[i - from], t', claims[i])
    ensures ReleasedSteps(trail', claims, from, i + 1) && trail'[0] == trail[0] && trail'[i + 1 - from] == t'
  {
    trail' := trail + [t'];
    forall j | 0 <= j < i + 1 - from
      ensures ReleaseSays(trail'[j], trail'[j + 1], claims[from + j])
    {
      if j < i - from {
        assert ReleaseSays(trail[j], trail[j + 1], claims[from + j]);
      }
    }
  }

  lemma ReleaseLeavesNone(was: Rows, rows: Rows, claims: seq<Claimed>, i: nat)
    requires i < |claims| && DistinctRows(claims)
    requires rows == ReleasedRows(was, claims[i])
    ensures NoneHeld(was, claims, i) ==> NoneHeld(rows, claims, i + 1)
  {
  }

  /** The claim of a batch. */
  method TakeBatch(o: Outbox, l: RecordLedger, batch: int, lease: int, ghost cfg: Config, ghost s: Sys)
    returns (claimed: Result<seq<Claimed>, OutboxError>, ghost s': Sys)
    requires Mirrors(cfg, s, o, l) && TokensPast(s, o.next.token)
    modifies o`rows, o`next
    ensures Mirrors(cfg, s', o, l) && TokensPast(s', o.next.token)
    ensures claimed.Err? <==> batch <= 0 || lease <= 0
    ensures ClaimAnswers(old(o.rows), o.rows, o.now, batch, lease, old(o.next.token), claimed)
    ensures claimed.Ok? ==> AllFresh(s', claimed.value, 0) && DistinctRows(claimed.value)
  {
    s' := s;
    claimed := o.Claim(batch, lease);
    if claimed.Ok? {
      ClaimKeeps(old(o.rows), o.rows, o.recs, old(o.next), o.now, batch, lease, claimed.value);
      s' := Takes(cfg, s, o.rows, batch, lease, old(o.next.token), claimed.value);
    }
  }
}
