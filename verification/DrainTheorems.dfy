/** The promises of the drain, over every run of accepts, claims, crashes, takeovers, sink answers, finishes
    and replays. */
module DrainTheorems {
  import opened Names
  import opened Queue
  import Ledger
  import opened Drain
  import opened DrainTables
  import opened DrainWorkers
  import opened DrainHistory
  import opened DrainRecords

  ghost predicate Inv(cfg: Config, s: Sys) {
    && QueueOk(s.db.rows)
    && RecsOk(s.db)
    && HandlesOk(s)
    && LedgerMatches(s.db)
    && TakenOk(s.db.recs, s.taken)
    && AttemptsOk(s.db.rows, s.log)
    && OrderOk(s.db.rows, s.log)
    && StartedOk(cfg, s)
    && Ledger.ChainsOk(cfg.compare, s.db.ledger)
    && Ledger.HeadIsNewest(cfg.compare, s.db.ledger, s.decided)
  }

  /** No work starts on an attempt the ladder cannot account for. */
  ghost predicate StartedOk(cfg: Config, s: Sys) {
    forall c :: c in s.handles && s.handles[c].phase != Fresh ==> s.handles[c].attempt <= cfg.ladder + 1
  }

  lemma StepStarted(cfg: Config, s: Sys, e: Event)
    requires StartedOk(cfg, s) && Enabled(cfg, s, e)
    ensures StartedOk(cfg, Apply(cfg, s, e))
  {
  }

  lemma InvEmpty(cfg: Config)
    ensures Inv(cfg, EMPTY)
  {
    forall e
      ensures Ledger.HasPath(cfg.compare, EMPTY.db.ledger, e)
    {
      assert Ledger.IsPath(cfg.compare, EMPTY.db.ledger, e, []);
    }
  }

  lemma InvStep(cfg: Config, s: Sys, e: Event)
    requires Inv(cfg, s) && Enabled(cfg, s, e)
    ensures Inv(cfg, Apply(cfg, s, e))
  {
    EnabledChangeOk(cfg, s, e);
    ChangeKeepsQueue(s.db.rows, RowChangeOf(cfg, s, e));
    StepRecs(cfg, s, e);
    StepHandles(cfg, s, e);
    StepMatches(cfg, s, e);
    StepTaken(cfg, s, e);
    StepAttempts(cfg, s, e);
    StepOrder(cfg, s, e);
    StepStarted(cfg, s, e);
    StepLedger(cfg, s, e);
  }

  /** Every state of every run satisfies the invariant. */
  lemma {:induction false} EveryRun(cfg: Config, states: seq<Sys>, events: seq<Event>, n: nat)
    requires Run(cfg, states, events) && n < |states|
    ensures Inv(cfg, states[n])
  {
    if n == 0 {
      InvEmpty(cfg);
    } else {
      EveryRun(cfg, states, events, n - 1);
      assert Step(cfg, states[n - 1], events[n - 1], states[n]);
      InvStep(cfg, states[n - 1], events[n - 1]);
    }
  }

  /** A run goes on with any enabled event. */
  lemma ExtendRun(cfg: Config, run: seq<Sys>, events: seq<Event>, e: Event, s: Sys)
    requires Run(cfg, run, events) && Step(cfg, run[|run| - 1], e, s)
    ensures Run(cfg, run + [s], events + [e])
  {
    var run', events' := run + [s], events + [e];
    forall i | 0 <= i < |events'|
      ensures Step(cfg, run'[i], events'[i], run'[i + 1])
    {
      if i < |events| {
        assert run'[i] == run[i] && run'[i + 1] == run[i + 1] && events'[i] == events[i];
      }
    }
  }

  // ---- The queue ---------------------------------------------------------------------------------

  /** In every state of every run: a queue with unfinished rows has exactly one head, the unfinished row
      with the lowest place; nothing is stranded; and at most one row of a queue is leased, its head. */
  lemma QueueInEveryRun(cfg: Config, states: seq<Sys>, events: seq<Event>, n: nat, key: Key)
    requires Run(cfg, states, events) && n < |states|
    ensures var rows := states[n].db.rows;
            && (Busy(rows, key) <==> exists id :: id in rows && rows[id].key == key && rows[id].isHead)
            && (forall a :: a in rows && rows[a].isHead ==> IsLowest(rows, a))
            && (forall a, b :: a in rows && b in rows && rows[a].key == rows[b].key == key && rows[a].isHead && rows[b].isHead ==> a == b)
            && (forall a :: a in rows && rows[a].lease.Held? ==> rows[a].isHead)
            && !Stranded(rows, key)
  {
    EveryRun(cfg, states, events, n);
    var rows := states[n].db.rows;
    OneHeadPerBusyQueue(rows, key);
    NothingStranded(rows, key);
    forall a | a in rows
      ensures LeaseOk(rows[a])
    {
    }
  }

  /** The rows of one queue finish in rising order of place, replayed rows included. */
  lemma FinishesInOrder(cfg: Config, states: seq<Sys>, events: seq<Event>, n: nat)
    requires Run(cfg, states, events) && n < |states|
    ensures FinishesRise(states[n].log)
  {
    EveryRun(cfg, states, events, n);
  }

  /** Until a lease runs out, only the worker that holds it can change the row's lease. */
  lemma LeaseIsExclusive(cfg: Config, s: Sys, e: Event, id: RowId)
    requires Inv(cfg, s) && Enabled(cfg, s, e)
    requires id in s.db.rows && s.db.rows[id].lease.Held? && s.now < s.db.rows[id].lease.until
    requires Actor(e) != Some(ClaimId(s.db.rows[id].lease.token, id))
    ensures var rows' := Apply(cfg, s, e).db.rows;
            id in rows' && rows'[id].lease == s.db.rows[id].lease && rows'[id].attempts == s.db.rows[id].attempts
  {
    var ch := RowChangeOf(cfg, s, e);
    EnabledChangeOk(cfg, s, e);
    ChangeFrame(s.db.rows, ch);
    NotTarget(cfg, s, e, id);
    assert SameLease(s.db.rows[id], ChangeRows(s.db.rows, ch)[id]);
  }

  lemma NotTarget(cfg: Config, s: Sys, e: Event, id: RowId)
    requires QueueOk(s.db.rows) && Enabled(cfg, s, e)
    requires id in s.db.rows && s.db.rows[id].lease.Held? && s.now < s.db.rows[id].lease.until
    requires Actor(e) != Some(ClaimId(s.db.rows[id].lease.token, id))
    ensures id !in Target(RowChangeOf(cfg, s, e)) && id !in Leased(RowChangeOf(cfg, s, e))
  {
    assert LeaseOk(s.db.rows[id]);
    assert s.db.rows[id].isHead <==> IsLowest(s.db.rows, id);
  }

  /** The head of a busy queue can always be claimed once its backoff and its lease have passed: no state
      is one from which a queue cannot move. */
  lemma HeadCanBeClaimed(cfg: Config, s: Sys, key: Key, token: Token, until: int) returns (id: RowId, t: int)
    requires QueueOk(s.db.rows) && Busy(s.db.rows, key) && token !in s.tokens
    ensures id in s.db.rows && s.db.rows[id].key == key && t >= s.now
    ensures Enabled(cfg, s.(now := t), Event.Claim(token, {id}, until))
  {
    id := NextHead(s.db.rows, key);
    t := Greatest(s.now, s.db.rows[id].DueAt());
    assert s.db.rows[id].isHead;
  }

  // ---- Leases and workers --------------------------------------------------------------------------

  /** A worker whose token is no longer on its row changes no row and no record. */
  lemma SupersededTokenIsInert(cfg: Config, s: Sys, e: Event)
    requires Enabled(cfg, s, e) && Actor(e).Some?
    requires Actor(e).value.row in s.db.rows ==> !s.db.rows[Actor(e).value.row].HeldBy(Actor(e).value.token)
    ensures ChangeDb(cfg, s, e) == s.db
  {
  }

  /** What a finish makes of one record: refused if it was offered and refused, delivered (and taken by the sink) if
      it was offered and not refused, and what it was if it was not offered. */
  predicate SettledAs(offered: seq<RecordId>, refused: set<RecordId>, taken: set<RecordId>, before: Rec, after: Rec) {
    if before.id !in offered then after == before
    else if before.id in refused then after == Rec(before.id, Refused)
    else after == Rec(before.id, Taken) && before.id in taken
  }

  /** While the token stays on the row, the records waiting under it are the ones its holder offers, and a
      finish marks delivered exactly those offered and not refused, all of which the sink took. */
  lemma FinishIsExact(cfg: Config, s: Sys, c: ClaimId, i: nat)
    requires Inv(cfg, s) && Enabled(cfg, s, Finish(c)) && i < |s.db.recs[c.row]|
    ensures s.handles[c].phase.offered == WaitingIds(s.db.recs[c.row])
    ensures c.row in ChangeRecs(cfg, s, Finish(c)) && i < |ChangeRecs(cfg, s, Finish(c))[c.row]|
    ensures SettledAs(s.handles[c].phase.offered, RefusedIn(s.handles[c].phase), s.taken,
                      s.db.recs[c.row][i], ChangeRecs(cfg, s, Finish(c))[c.row][i])
  {
    FinishRecs(cfg, s, c);
    FinishSettles(s, c, i);
  }

  lemma FinishRecs(cfg: Config, s: Sys, c: ClaimId)
    requires Enabled(cfg, s, Finish(c))
    ensures ChangeRecs(cfg, s, Finish(c)) == s.db.recs[c.row := SettleAll(s.db.recs[c.row], RefusedIn(s.handles[c].phase))]
  {
  }

  lemma FinishSettles(s: Sys, c: ClaimId, i: nat)
    requires HandlesOk(s) && StoredOnce(s.db.recs) && c in s.handles && Guarded(s, c) && CanFinish(s.handles[c].phase)
    requires c.row in s.db.recs && i < |s.db.recs[c.row]|
    ensures s.handles[c].phase.offered == WaitingIds(s.db.recs[c.row])
    ensures SettledAs(s.handles[c].phase.offered, RefusedIn(s.handles[c].phase), s.taken,
                      s.db.recs[c.row][i], SettleAll(s.db.recs[c.row], RefusedIn(s.handles[c].phase))[i])
  {
    HolderOffersWaiting(s, c);
    FinishTakes(s, c, i);
    WaitingOnce(s.db.recs, c.row, i);
  }

  lemma HolderOffersWaiting(s: Sys, c: ClaimId)
    requires HandlesOk(s) && c in s.handles && Guarded(s, c) && CanFinish(s.handles[c].phase)
    ensures c.row in s.db.recs && s.handles[c].phase.offered == WaitingIds(s.db.recs[c.row])
  {
    assert HandleFits(s, c);
  }

  /** Ids are stored once, so an id on the list of what waits names one record, and that record waits. */
  lemma WaitingOnce(recs: RecTable, id: RowId, i: nat)
    requires StoredOnce(recs) && id in recs && i < |recs[id]|
    ensures recs[id][i].id in WaitingIds(recs[id]) <==> recs[id][i].state == Waiting
  {
    WaitingMember(recs[id], recs[id][i].id);
  }

  /** The attempts of a row are its claims less its halts and releases since it was accepted or replayed,
      and a worker that still holds the row was told that number. */
  lemma AttemptsAreCharged(cfg: Config, s: Sys, id: RowId, c: ClaimId)
    requires Inv(cfg, s) && id in s.db.rows
    ensures s.db.rows[id].attempts == Charged(s.log, id) >= 0
    ensures c in s.handles && c.row == id && s.db.rows[id].HeldBy(c.token) ==> s.handles[c].attempt == Charged(s.log, id)
    ensures c in s.handles && s.handles[c].phase != Fresh ==> s.handles[c].attempt <= cfg.ladder + 1
  {
    assert LeaseOk(s.db.rows[id]);
    if c in s.handles {
      assert HandleFits(s, c);
    }
  }

  /** A row abandoned by the ladder was claimed at least two more times than the ladder has waits without
      the claim being given back. */
  lemma AbandonedOnlyAfterTheLadder(cfg: Config, s: Sys, c: ClaimId)
    requires Inv(cfg, s) && Enabled(cfg, s, Abandon(c))
    ensures Charged(s.log, c.row) >= cfg.ladder + 2
  {
    AttemptsAreCharged(cfg, s, c.row, c);
  }

  lemma RetriesRunOutOnlyAtTheEnd(cfg: Config, s: Sys, c: ClaimId, next: int)
    requires Inv(cfg, s) && Enabled(cfg, s, Fail(c, next))
    ensures RowChangeOf(cfg, s, Fail(c, next)).End? <==> Charged(s.log, c.row) == cfg.ladder + 1
  {
    AttemptsAreCharged(cfg, s, c.row, c);
    assert LeaseOk(s.db.rows[c.row]);
  }

  // ---- Halting never kills --------------------------------------------------------------------------

  /** The event gives the row's attempt back, if it ends a claim of the row short of delivery: no failure, no
      dead letter, and no claim while an earlier one has neither been halted nor released. */
  ghost predicate Spares(s: Sys, e: Event, id: RowId) {
    && (e.Claim? && id in e.ids ==> id in s.db.rows && s.db.rows[id].lease == Free)
    && !((e.Fail? || e.MarkDead?) && e.c.row == id)
  }

  /** The row is not dead, and is charged one attempt while it is leased and none while it waits. */
  ghost predicate Spared(rows: Rows, id: RowId) {
    id in rows ==> SparedRow(rows[id])
  }

  predicate SparedRow(row: Row) {
    row.state != Dead && (row.Unfinished() ==> row.attempts == if row.lease.Held? then 1 else 0)
  }

  lemma AbandonsNone(cfg: Config, s: Sys, e: Event, id: RowId)
    requires Inv(cfg, s) && Enabled(cfg, s, e) && Spared(s.db.rows, id)
    ensures !(e.Abandon? && e.c.row == id)
  {
    if e.Abandon? && e.c.row == id {
      AbandonedOnlyAfterTheLadder(cfg, s, e.c);
      AttemptsAreCharged(cfg, s, id, e.c);
    }
  }

  /** The row the event is about. */
  lemma TargetSpared(cfg: Config, s: Sys, e: Event, id: RowId)
    requires Enabled(cfg, s, e) && Spares(s, e, id) && Spared(s.db.rows, id) && !(e.Abandon? && e.c.row == id)
    requires ChangeOk(s.db.rows, RowChangeOf(cfg, s, e))
    ensures var ch := RowChangeOf(cfg, s, e);
            AboutOneRow(s.db.rows, ch) && ch.id == id ==> SparedRow(TargetRow(s.db.rows, ch))
  {
  }

  /** The rows a claim leases. */
  lemma LeasedSpared(cfg: Config, s: Sys, e: Event, id: RowId)
    requires Enabled(cfg, s, e) && Spares(s, e, id) && Spared(s.db.rows, id)
    ensures id in Leased(RowChangeOf(cfg, s, e)) ==> id in s.db.rows && forall token, until :: SparedRow(ClaimedRow(s.db.rows[id], token, until))
  {
  }

  lemma SparedByFrame(rows: Rows, ch: RowChange, rows': Rows, id: RowId)
    requires RowsFrame(rows, ch, rows') && Spared(rows, id)
    requires ch.End? ==> ch.id in rows
    requires AboutOneRow(rows, ch) && ch.id == id ==> SparedRow(TargetRow(rows, ch))
    requires id in Leased(ch) ==> id in rows && forall token, until :: SparedRow(ClaimedRow(rows[id], token, until))
    ensures Spared(rows', id)
  {
    if id in rows && id !in Target(ch) {
      assert SameState(rows[id], rows'[id]);
      if id !in Leased(ch) {
        assert SameLease(rows[id], rows'[id]);
      }
    }
  }

  lemma StepSpares(cfg: Config, s: Sys, e: Event, id: RowId)
    requires QueueOk(s.db.rows) && Enabled(cfg, s, e) && Spares(s, e, id) && Spared(s.db.rows, id)
    requires !(e.Abandon? && e.c.row == id)
    ensures Spared(ChangeRows(s.db.rows, RowChangeOf(cfg, s, e)), id)
  {
    var ch := RowChangeOf(cfg, s, e);
    EnabledChangeOk(cfg, s, e);
    ChangeFrame(s.db.rows, ch);
    TargetSpared(cfg, s, e, id);
    LeasedSpared(cfg, s, e, id);
    SparedByFrame(s.db.rows, ch, ChangeRows(s.db.rows, ch), id);
  }

  /** A row whose every claim that does not deliver it is halted or released never dies, however often it is
      claimed and whatever the ladder. */
  lemma {:induction false} HaltsNeverKill(cfg: Config, states: seq<Sys>, events: seq<Event>, n: nat, id: RowId)
    requires Run(cfg, states, events) && n < |states|
    requires forall k :: 0 <= k < n ==> Spares(states[k], events[k], id)
    ensures Spared(states[n].db.rows, id)
  {
    if n > 0 {
      HaltsNeverKill(cfg, states, events, n - 1, id);
      EveryRun(cfg, states, events, n - 1);
      assert Step(cfg, states[n - 1], events[n - 1], states[n]);
      AbandonsNone(cfg, states[n - 1], events[n - 1], id);
      StepSpares(cfg, states[n - 1], events[n - 1], id);
    }
  }

  // ---- Nothing lost, nothing twice ------------------------------------------------------------------

  /** In every state of every run the ledger and the stored records are one set of ids, each stored under
      exactly one row of its own tenant; and what is marked delivered was taken by the sink. */
  lemma NothingIsLost(cfg: Config, states: seq<Sys>, events: seq<Event>, n: nat, r: RecordId)
    requires Run(cfg, states, events) && n < |states|
    ensures var s := states[n]; r in s.db.ledger <==> IsStored(s.db.recs, r)
    ensures StoredOnce(states[n].db.recs)
    ensures forall id, i :: id in states[n].db.recs && 0 <= i < |states[n].db.recs[id]| && states[n].db.recs[id][i].state == Taken
              ==> states[n].db.recs[id][i].id in states[n].taken
  {
    EveryRun(cfg, states, events, n);
    var s := states[n];
    if IsStored(s.db.recs, r) {
      var id, i :| id in s.db.recs && 0 <= i < |s.db.recs[id]| && s.db.recs[id][i].id == r;
      assert OfTenant(s.db, id, s.db.recs[id][i].id);
    }
  }

  lemma {:induction false} TakenStaysInRun(cfg: Config, states: seq<Sys>, events: seq<Event>, m: nat, n: nat, id: RowId, i: nat)
    requires Run(cfg, states, events) && m <= n < |states|
    requires id in states[m].db.recs && i < |states[m].db.recs[id]| && states[m].db.recs[id][i].state == Taken
    ensures id in states[n].db.recs && i < |states[n].db.recs[id]| && states[n].db.recs[id][i] == states[m].db.recs[id][i]
  {
    if m < n {
      TakenStaysInRun(cfg, states, events, m, n - 1, id, i);
      EveryRun(cfg, states, events, n - 1);
      assert Step(cfg, states[n - 1], events[n - 1], states[n]);
      StepTakenStays(cfg, states[n - 1], events[n - 1]);
    }
  }

  /** Once a record is marked delivered, no batch read afterwards contains it, from any row, replays
      included. */
  lemma NeverOfferedAgain(cfg: Config, states: seq<Sys>, events: seq<Event>, m: nat, n: nat, id: RowId, i: nat, other: RowId)
    requires Run(cfg, states, events) && m <= n < |states|
    requires id in states[m].db.recs && i < |states[m].db.recs[id]| && states[m].db.recs[id][i].state == Taken
    requires other in states[n].db.recs
    ensures states[m].db.recs[id][i].id !in WaitingIds(states[n].db.recs[other])
  {
    TakenStaysInRun(cfg, states, events, m, n, id, i);
    EveryRun(cfg, states, events, n);
    var recs, r := states[n].db.recs, states[m].db.recs[id][i].id;
    WaitingMember(recs[other], r);
  }

  // ---- The ledger ------------------------------------------------------------------------------------

  /** In every state of every run each entity's ledger rows form one supersedes path, oldest first, along
      which versions never go back, ending at the entity's only head; and no version ever admitted or held
      back as stale is newer than that head. */
  lemma ChainsInEveryRun(cfg: Config, states: seq<Sys>, events: seq<Event>, n: nat, e: Entity)
    requires Run(cfg, states, events) && n < |states|
    ensures exists path :: Ledger.IsPath(cfg.compare, states[n].db.ledger, e, path)
    ensures forall r :: r in states[n].decided && r.entity == e ==> Ledger.BelowHead(cfg.compare, states[n].db.ledger, r)
  {
    EveryRun(cfg, states, events, n);
    assert Ledger.HasPath(cfg.compare, states[n].db.ledger, e);
  }

  // ---- Every record that was ever to be prepared -------------------------------------------------------

  /** The record has a ledger row, or was held back. */
  ghost predicate Known(s: Sys, r: RecordId) {
    r in s.db.ledger || r in s.decided
  }

  lemma PrepareKnows(cfg: Config, s: Sys, c: ClaimId, records: seq<RecordId>, r: RecordId)
    requires Enabled(cfg, s, Prepare(c, records)) && r in records
    ensures Known(Apply(cfg, s, Prepare(c, records)), r)
  {
    Ledger.AdmitAllAccounts(cfg.compare, s.db.ledger, records);
    Ledger.AdmitAllAdds(s.db.ledger, cfg.compare, records);
  }

  lemma StaysKnown(cfg: Config, s: Sys, e: Event, r: RecordId)
    requires Enabled(cfg, s, e) && Known(s, r)
    ensures Known(Apply(cfg, s, e), r)
  {
    if e.Prepare? {
      Ledger.AdmitAllAdds(s.db.ledger, cfg.compare, e.records);
    }
  }

  lemma {:induction false} KnownInRun(cfg: Config, states: seq<Sys>, events: seq<Event>, i: nat, n: nat, r: RecordId)
    requires Run(cfg, states, events) && i < n < |states| && events[i].Prepare? && r in events[i].records
    ensures Known(states[n], r)
  {
    assert Step(cfg, states[n - 1], events[n - 1], states[n]);
    if i < n - 1 {
      KnownInRun(cfg, states, events, i, n - 1, r);
      StaysKnown(cfg, states[n - 1], events[n - 1], r);
    } else {
      PrepareKnows(cfg, states[i], events[i].c, events[i].records, r);
    }
  }

  /** A record of a delivery whose preparing committed is, from then on and in every later state, stored under
      exactly one row, or held back by its entity's head, which is not older. */
  lemma EveryRecordIsAccountedFor(cfg: Config, states: seq<Sys>, events: seq<Event>, i: nat, n: nat, r: RecordId)
    requires Run(cfg, states, events) && i < n < |states| && events[i].Prepare? && r in events[i].records
    ensures StoredOnce(states[n].db.recs)
    ensures IsStored(states[n].db.recs, r) || Ledger.HeldBack(cfg.compare, states[n].db.ledger, r)
  {
    KnownInRun(cfg, states, events, i, n, r);
    NothingIsLost(cfg, states, events, n, r);
    var t := states[n].db.ledger;
    if r !in t {
      EveryRun(cfg, states, events, n);
      assert Ledger.BelowHead(cfg.compare, t, r);
      assert Ledger.IsHeadRow(t, r.entity, Ledger.HeadOf(t, r.entity).value);
    }
  }
}
