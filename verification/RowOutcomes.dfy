/** What becomes of one claimed row, in one picture: what the tables hold after a worker has carried the row from
    its claim to its outcome, as a function of what they held before and of what the world answered
    (internal/worker/worker.go, workRow). */
module RowOutcomes {
  import opened Names
  import Answers
  import opened Queue
  import Ledger
  import opened Drain
  import opened OutboxStore

  // ---- What the worker meets outside the tables -------------------------------------------------------

  /** What the tenant's sink comes to: none to be built, a fault, a broken answer, or the records it refused. */
  datatype SinkAnswer = NoSink | RetryFault | HaltFault | Broken | Answered(rejected: seq<RecordId>)

  /** Whether the row can be read, what normalizing its body gives (or an error, which may be one that the same
      bytes give again), whether masking fails, whether the stored records reopen, and the sink's answer. */
  datatype World = World(
    readable: bool,
    normalized: Result<seq<RecordId>, bool>,
    masking: Option<bool>,
    reopens: bool,
    answer: SinkAnswer)

  datatype Options = Options(ladder: Ladder, pause: int)

  datatype Tables = Tables(rows: Rows, recs: map<RowId, seq<Rec>>, ledger: Ledger.Table)

  /** The row is leased to the claim. */
  predicate HeldIn(rows: Rows, c: Claimed) {
    c.id in rows && rows[c.id].Guard(c.token)
  }

  predicate Holder(t: Tables, c: Claimed) {
    HeldIn(t.rows, c) && c.id in t.recs
  }

  // ---- How a claim can end -----------------------------------------------------------------------------

  /** Dead; back on the ladder; waiting out a pause; or delivered, but for the records the sink refused. */
  datatype Ending = Parked | Retried | Paused | Finished(refused: seq<RecordId>)

  /** The tables after the ending, which only the holder of the row can bring about. A pause that is not positive
      is refused, and the row keeps its lease. */
  ghost function Ended(t: Tables, opts: Options, now: int, c: Claimed, e: Ending): Tables {
    if !Holder(t, c) then t
    else
      match e
      case Parked => t.(rows := Queue.Finish(t.rows, c.id, Dead))
      case Retried => t.(rows := FailedRows(t.rows, opts.ladder, c, now))
      case Paused => if opts.pause <= 0 then t else t.(rows := HaltedRows(t.rows, c, now, opts.pause))
      case Finished(refused) =>
        t.(rows := Queue.Finish(t.rows, c.id, Delivered), recs := t.recs[c.id := SettleAll(t.recs[c.id], SetOf(refused))])
  }

  /** What the sink's answer to the offered records means for the row. */
  ghost function SinkEnding(offered: seq<RecordId>, answer: SinkAnswer): Ending {
    if offered == [] then Finished([])
    else
      match answer
      case RetryFault => Retried
      case Answered(rejected) => if Answers.LinesUp(rejected, offered) then Finished(rejected) else Retried
      case NoSink => Paused
      case HaltFault => Paused
      case Broken => Paused
  }

  /** An error of the row's own: one that the same bytes give again parks it. */
  function Failing(deadLetter: bool): Ending {
    if deadLetter then Parked else Retried
  }

  /** Either the row ends before anything is offered, or these records are offered, from these tables. */
  datatype Readiness = Ends(e: Ending) | Offers(tables: Tables, records: seq<RecordId>)

  /** The transaction that prepares a pending row. */
  ghost function Preparing(t: Tables, compare: Ledger.Compare, c: Claimed, world: World): Readiness
    requires Holder(t, c)
  {
    if world.normalized.Err? then Ends(Failing(world.normalized.error))
    else if !OfRow(t.rows[c.id], world.normalized.value) then Ends(Parked)
    else
      var b := Ledger.AdmitAll(t.ledger, compare, world.normalized.value);
      if b.Refused? then Ends(Parked)
      else if world.masking.Some? then Ends(Failing(world.masking.value))
      else Offers(PreparedTables(t, c, b), b.prepared)
  }

  ghost function PreparedTables(t: Tables, c: Claimed, b: Ledger.Batch): Tables
    requires Holder(t, c) && b.Admitted?
  {
    Tables(t.rows[c.id := PreparedRow(t.rows[c.id])], t.recs[c.id := Stored(b.prepared)], b.table)
  }

  /** What the claim comes to before the sink is asked. */
  ghost function Readying(t: Tables, opts: Options, compare: Ledger.Compare, c: Claimed, world: World): Readiness
    requires Holder(t, c)
  {
    if Exhausted(|opts.ladder|, c.attempt) then Ends(Parked)
    else if !world.readable then Ends(Retried)
    else if t.rows[c.id].state == Pending then Preparing(t, compare, c, world)
    else if !world.reopens then Ends(Parked)
    else Offers(t, WaitingIds(t.recs[c.id]))
  }

  ghost function Worked(t: Tables, opts: Options, compare: Ledger.Compare, now: int, c: Claimed, world: World): Tables {
    if !Holder(t, c) then t
    else
      match Readying(t, opts, compare, c, world)
      case Ends(e) => Ended(t, opts, now, c, e)
      case Offers(tables, records) => Ended(tables, opts, now, c, SinkEnding(records, world.answer))
  }

  ghost function EndingOf(t: Tables, opts: Options, compare: Ledger.Compare, c: Claimed, world: World): Ending
    requires Holder(t, c)
  {
    match Readying(t, opts, compare, c, world)
    case Ends(e) => e
    case Offers(_, records) => SinkEnding(records, world.answer)
  }

  // ---- What that means -----------------------------------------------------------------------------------

  /** The row that ends is free, but for a pause that was refused; every other row keeps its lease as it was. */
  lemma EndedLeases(t: Tables, opts: Options, now: int, c: Claimed, e: Ending)
    requires Holder(t, c)
    ensures var rows := Ended(t, opts, now, c, e).rows;
            && c.id in rows && rows.Keys == t.rows.Keys
            && (rows[c.id].lease == if e == Paused && opts.pause <= 0 then t.rows[c.id].lease else Free)
            && (forall id :: id in rows && id != c.id ==> rows[id] == t.rows[id].(isHead := rows[id].isHead))
            && (forall id :: id in rows && rows[id].key != t.rows[c.id].key ==> rows[id] == t.rows[id])
  {
    if e.Finished? {
      FinishFrame(t.rows, c.id, Delivered);
    } else if e == Parked || (e == Retried && Next(opts.ladder, c.attempt).None?) {
      FinishFrame(t.rows, c.id, Dead);
    }
  }

  /** No worker comes away with a lease it did not have, and the worker of the row keeps its own only when it was
      to wait and the pause is refused. */
  lemma WorkedLeases(t: Tables, opts: Options, compare: Ledger.Compare, now: int, c: Claimed, world: World, d: Claimed)
    requires Holder(t, c)
    ensures var rows := Worked(t, opts, compare, now, c, world).rows;
            && (HeldIn(rows, c) <==> EndingOf(t, opts, compare, c, world) == Paused && opts.pause <= 0)
            && (d.id != c.id ==> (HeldIn(rows, d) <==> HeldIn(t.rows, d)))
  {
    match Readying(t, opts, compare, c, world)
    case Ends(e) => EndedLeases(t, opts, now, c, e);
    case Offers(tables, records) => EndedLeases(tables, opts, now, c, SinkEnding(records, world.answer));
  }

  /** Work on a row touches no other queue, no other delivery's records, and nothing at all without the lease. */
  lemma WorkedFrame(t: Tables, opts: Options, compare: Ledger.Compare, now: int, c: Claimed, world: World, id: RowId)
    requires id in t.rows && id in t.recs && c.id in t.rows
    ensures var after := Worked(t, opts, compare, now, c, world);
            && id in after.rows && id in after.recs
            && (t.rows[id].key != t.rows[c.id].key ==> after.rows[id] == t.rows[id])
            && (id != c.id ==> after.rows[id] == t.rows[id].(isHead := after.rows[id].isHead) && after.recs[id] == t.recs[id])
  {
    if Holder(t, c) {
      match Readying(t, opts, compare, c, world)
      case Ends(e) => EndedLeases(t, opts, now, c, e);
      case Offers(tables, records) => EndedLeases(tables, opts, now, c, SinkEnding(records, world.answer));
    }
  }

  /** The row is delivered exactly if its records were ready and there was nothing to offer or the sink gave an
      answer that lines up with them; and it is dead exactly if it was parked, or failed at the end of the ladder. */
  lemma WorkedState(t: Tables, opts: Options, compare: Ledger.Compare, now: int, c: Claimed, world: World)
    requires Holder(t, c)
    ensures c.id in Worked(t, opts, compare, now, c, world).rows
    ensures var row, ready, e := Worked(t, opts, compare, now, c, world).rows[c.id],
              Readying(t, opts, compare, c, world), EndingOf(t, opts, compare, c, world);
            && (row.state == Delivered <==> ready.Offers? && Answered(ready.records, world.answer))
            && (row.state == Dead <==> e == Parked || (e == Retried && Next(opts.ladder, c.attempt).None?))
            && row.attempts == (if e == Paused && opts.pause > 0 then Greatest(t.rows[c.id].attempts - 1, 0) else t.rows[c.id].attempts)
  {
    var e := EndingOf(t, opts, compare, c, world);
    match Readying(t, opts, compare, c, world)
    case Ends(_) => EndedState(t, opts, now, c, e);
    case Offers(tables, _) => EndedState(tables, opts, now, c, e);
  }

  predicate Answered(offered: seq<RecordId>, answer: SinkAnswer) {
    offered == [] || (answer.Answered? && Answers.LinesUp(answer.rejected, offered))
  }

  lemma EndedState(t: Tables, opts: Options, now: int, c: Claimed, e: Ending)
    requires Holder(t, c)
    ensures c.id in Ended(t, opts, now, c, e).rows
    ensures var row := Ended(t, opts, now, c, e).rows[c.id];
            && (row.state == Delivered <==> e.Finished?)
            && (row.state == Dead <==> e == Parked || (e == Retried && Next(opts.ladder, c.attempt).None?))
            && row.attempts == (if e == Paused && opts.pause > 0 then Greatest(t.rows[c.id].attempts - 1, 0) else t.rows[c.id].attempts)
  {
    FinishFrame(t.rows, c.id, Dead);
    FinishFrame(t.rows, c.id, Delivered);
  }

  /** A record that waited when the row was delivered is dead if the sink named it and delivered if it did not, and
      no record waits any longer; in every other outcome every record is as it was when it was offered. */
  lemma WorkedRecords(t: Tables, opts: Options, compare: Ledger.Compare, now: int, c: Claimed, world: World, i: nat)
    requires Holder(t, c) && Readying(t, opts, compare, c, world).Offers?
    requires var ready := Readying(t, opts, compare, c, world); c.id in ready.tables.recs && i < |ready.tables.recs[c.id]|
    ensures var ready, after := Readying(t, opts, compare, c, world), Worked(t, opts, compare, now, c, world);
            var before := ready.tables.recs[c.id][i];
            && c.id in after.recs && i < |after.recs[c.id]| && after.recs[c.id][i].id == before.id
            && after.recs[c.id][i].state ==
               if before.state != Waiting || !Answered(ready.records, world.answer) then before.state
               else if ready.records != [] && before.id in world.answer.rejected then Refused
               else Taken
  {
    var ready := Readying(t, opts, compare, c, world);
    var e := SinkEnding(ready.records, world.answer);
    if e.Finished? {
      assert forall r :: r in SetOf(e.refused) <==> r in e.refused;
    }
  }

  // ---- The same, column by column ---------------------------------------------------------------------------

  /** The row is dead, and nothing else of it is touched: its records wait for a replay. */
  ghost predicate ParkLeaves(t: Tables, t': Tables, c: Claimed) {
    t'.recs == t.recs && t'.ledger == t.ledger && EndLeaves(t.rows, t'.rows, c.id, Dead)
  }

  /** The row waits out the ladder's delay for its attempt, still charged; at the ladder's end it is dead. */
  ghost predicate RetryLeaves(t: Tables, t': Tables, opts: Options, now: int, c: Claimed) {
    t'.recs == t.recs && t'.ledger == t.ledger && FailLeaves(t.rows, t'.rows, opts.ladder, c.id, c.attempt, now)
  }

  /** The row waits out the pause in the state it was in, its attempt given back. */
  predicate PauseLeaves(t: Tables, t': Tables, opts: Options, now: int, c: Claimed) {
    if opts.pause > 0 then t'.recs == t.recs && t'.ledger == t.ledger && HaltLeaves(t.rows, t'.rows, c.id, now, opts.pause)
    else t' == t
  }

  /** The row is delivered, its refused records are dead, and the other waiting ones are delivered. */
  ghost predicate DeliveryLeaves(t: Tables, t': Tables, c: Claimed, refused: seq<RecordId>)
    requires c.id in t.recs
  {
    && t'.ledger == t.ledger && t'.recs.Keys == t.recs.Keys && EndLeaves(t.rows, t'.rows, c.id, Delivered)
    && RecordsSettle(t.recs[c.id], t'.recs[c.id], refused) && forall x :: x in t.recs && x != c.id ==> t'.recs[x] == t.recs[x]
  }

  /** What the sink's answer leaves of a held row whose records are ready. With nothing to offer the row is
      delivered. A sink that cannot be built, tells the drain to stop, or breaks costs the row nothing but the pause.
      A sink that asks for another try, or whose answer does not line up with what was offered, costs it an attempt.
      Any other answer is final. */
  ghost predicate AnswerLeaves(t: Tables, t': Tables, opts: Options, now: int, c: Claimed, offered: seq<RecordId>, answer: SinkAnswer)
    requires c.id in t.recs
  {
    && (offered == [] ==> DeliveryLeaves(t, t', c, []))
    && (offered != [] && (answer == NoSink || answer == HaltFault || answer == Broken) ==> PauseLeaves(t, t', opts, now, c))
    && (offered != [] && answer == RetryFault ==> RetryLeaves(t, t', opts, now, c))
    && (offered != [] && answer.Answered? && !Answers.LinesUp(answer.rejected, offered) ==> RetryLeaves(t, t', opts, now, c))
    && (offered != [] && answer.Answered? && Answers.LinesUp(answer.rejected, offered) ==> DeliveryLeaves(t, t', c, answer.rejected))
  }

  /** Only the holder of the row changes anything. */
  ghost predicate AnswerSays(t: Tables, t': Tables, opts: Options, now: int, c: Claimed, offered: seq<RecordId>, answer: SinkAnswer) {
    if Holder(t, c) then AnswerLeaves(t, t', opts, now, c, offered, answer) else t' == t
  }

  lemma EndedLeaves(t: Tables, t': Tables, opts: Options, now: int, c: Claimed, e: Ending)
    requires QueueOk(t.rows) && Holder(t, c) && t' == Ended(t, opts, now, c, e)
    ensures e == Parked ==> ParkLeaves(t, t', c)
    ensures e == Retried ==> RetryLeaves(t, t', opts, now, c)
    ensures e == Paused ==> PauseLeaves(t, t', opts, now, c)
    ensures e.Finished? ==> DeliveryLeaves(t, t', c, e.refused)
  {
    match e
    case Parked => EndMeans(t.rows, c, Dead);
    case Retried => FailMeans(t.rows, opts.ladder, c, now);
    case Paused => HaltMeans(t.rows, c, now, opts.pause);
    case Finished(refused) =>
      EndMeans(t.rows, c, Delivered);
      SettleMeans(t.recs[c.id], refused);
  }

  lemma AnswerMeans(t: Tables, t': Tables, opts: Options, now: int, c: Claimed, offered: seq<RecordId>, answer: SinkAnswer)
    requires QueueOk(t.rows) && t' == Ended(t, opts, now, c, SinkEnding(offered, answer))
    ensures AnswerSays(t, t', opts, now, c, offered, answer)
  {
    if Holder(t, c) {
      EndedLeaves(t, t', opts, now, c, SinkEnding(offered, answer));
    }
  }

  /** The tables once a pending row is prepared: the row and its records, and the ledger's links, together. */
  predicate ReadyLeaves(t: Tables, t': Tables, c: Claimed, b: Ledger.Batch)
    requires Holder(t, c) && b.Admitted?
  {
    && t'.ledger == b.table && t'.recs.Keys == t.recs.Keys && PrepareLeaves(t.rows, t'.rows, [], t'.recs[c.id], c.id, b.prepared)
    && forall x :: x in t.recs && x != c.id ==> t'.recs[x] == t.recs[x]
  }

  /** What the work on a held row leaves. A row past the end of its ladder is parked, unread. One that cannot be
      read is retried. Stored records that do not reopen park the row, and the others are offered as they wait. */
  ghost predicate WorkLeaves(t: Tables, t': Tables, opts: Options, compare: Ledger.Compare, now: int, c: Claimed, world: World)
    requires Holder(t, c)
  {
    if c.attempt > |opts.ladder| + 1 then ParkLeaves(t, t', c)
    else if !world.readable then RetryLeaves(t, t', opts, now, c)
    else if t.rows[c.id].state == Pending then PendingLeaves(t, t', opts, compare, now, c, world)
    else if !world.reopens then ParkLeaves(t, t', c)
    else AnswerLeaves(t, t', opts, now, c, WaitingIds(t.recs[c.id]), world.answer)
  }

  /** For a pending row: an error that the same bytes give again parks it, and any other is retried; records of
      another tenant or provider, and records the ledger refuses, park it; and otherwise what the ledger lets through
      is stored and offered. */
  ghost predicate PendingLeaves(t: Tables, t': Tables, opts: Options, compare: Ledger.Compare, now: int, c: Claimed, world: World)
    requires Holder(t, c)
  {
    && (world.normalized == Err(true) ==> ParkLeaves(t, t', c))
    && (world.normalized == Err(false) ==> RetryLeaves(t, t', opts, now, c))
    && (world.normalized.Ok? ==> NormalizedLeaves(t, t', opts, compare, now, c, world.normalized.value, world.masking, world.answer))
  }

  ghost predicate NormalizedLeaves(t: Tables, t': Tables, opts: Options, compare: Ledger.Compare, now: int, c: Claimed,
                                   records: seq<RecordId>, masking: Option<bool>, answer: SinkAnswer)
    requires Holder(t, c)
  {
    var b := Ledger.AdmitAll(t.ledger, compare, records);
    if !OfRow(t.rows[c.id], records) || b.Refused? || masking == Some(true) then ParkLeaves(t, t', c)
    else if masking == Some(false) then RetryLeaves(t, t', opts, now, c)
    else exists ready {:trigger ReadyLeaves(t, ready, c, b)} ::
           ReadyLeaves(t, ready, c, b) && Holder(ready, c) && AnswerLeaves(ready, t', opts, now, c, b.prepared, answer)
  }

  ghost predicate WorkSays(t: Tables, t': Tables, opts: Options, compare: Ledger.Compare, now: int, c: Claimed, world: World) {
    if Holder(t, c) then WorkLeaves(t, t', opts, compare, now, c, world) else t' == t
  }

  lemma WorkedMeans(t: Tables, t': Tables, opts: Options, compare: Ledger.Compare, now: int, c: Claimed, world: World)
    requires QueueOk(t.rows) && t' == Worked(t, opts, compare, now, c, world)
    ensures WorkSays(t, t', opts, compare, now, c, world)
  {
    if Holder(t, c) {
      match Readying(t, opts, compare, c, world)
      case Ends(e) => EndedLeaves(t, t', opts, now, c, e);
      case Offers(tables, offered) => OfferedMeans(t, t', opts, compare, now, c, world, tables, offered);
    }
  }

  lemma OfferedMeans(t: Tables, t': Tables, opts: Options, compare: Ledger.Compare, now: int, c: Claimed, world: World,
                     tables: Tables, offered: seq<RecordId>)
    requires QueueOk(t.rows) && Holder(t, c) && Readying(t, opts, compare, c, world) == Offers(tables, offered)
    requires t' == Ended(tables, opts, now, c, SinkEnding(offered, world.answer))
    ensures WorkLeaves(t, t', opts, compare, now, c, world)
  {
    if t.rows[c.id].state == Pending {
      var b := Ledger.AdmitAll(t.ledger, compare, world.normalized.value);
      ReadyKeeps(t, c, b);
      assert ReadyLeaves(t, tables, c, b);
    }
    AnswerMeans(tables, t', opts, now, c, offered, world.answer);
  }

  lemma ReadyKeeps(t: Tables, c: Claimed, b: Ledger.Batch)
    requires QueueOk(t.rows) && Holder(t, c) && b.Admitted?
    ensures var ready := PreparedTables(t, c, b);
            ReadyLeaves(t, ready, c, b) && Holder(ready, c) && QueueOk(ready.rows)
  {
    assert LeaseOk(t.rows[c.id]);
    SameQueueKeeps(t.rows, PreparedTables(t, c, b).rows);
  }

  // ---- A batch ------------------------------------------------------------------------------------------------

  /** A held row is given back, free and due when it was, its attempt uncharged. */
  predicate ReleaseSays(t: Tables, t': Tables, c: Claimed) {
    t'.recs == t.recs && t'.ledger == t.ledger && if HeldIn(t.rows, c) then ReleaseLeaves(t.rows, t'.rows, c.id) else t'.rows == t.rows
  }

  ghost predicate WorkStep(t: Tables, t': Tables, opts: Options, compare: Ledger.Compare, now: int, c: Claimed, world: World) {
    t' == Worked(t, opts, compare, now, c, world) && WorkSays(t, t', opts, compare, now, c, world)
  }

  ghost predicate BatchStep(t: Tables, t': Tables, opts: Options, compare: Ledger.Compare, now: int, c: Claimed, world: World, worked: bool) {
    if worked then WorkStep(t, t', opts, compare, now, c, world) else ReleaseSays(t, t', c)
  }

  /** The tables before, between and after the steps of a batch: its first claims are worked, in order, and those that
      a shutdown leaves are released. */
  ghost predicate BatchSteps(trail: seq<Tables>, opts: Options, compare: Ledger.Compare, now: int, claims: seq<Claimed>, world: Claimed -> World, stop: nat) {
    && |trail| == |claims| + 1
    && forall i :: 0 <= i < |claims| ==> BatchStep(trail[i], trail[i + 1], opts, compare, now, claims[i], world(claims[i]), i < stop)
  }

  ghost predicate WorkedSteps(trail: seq<Tables>, opts: Options, compare: Ledger.Compare, now: int, claims: seq<Claimed>, world: Claimed -> World, n: nat) {
    && n <= |claims| && |trail| == n + 1
    && forall i :: 0 <= i < n ==> WorkStep(trail[i], trail[i + 1], opts, compare, now, claims[i], world(claims[i]))
  }

  predicate ReleasedSteps(trail: seq<Tables>, claims: seq<Claimed>, from: nat, to: nat) {
    && from <= to <= |claims| && |trail| == to - from + 1
    && forall j :: 0 <= j < to - from ==> ReleaseSays(trail[j], trail[j + 1], claims[from + j])
  }

  /** The claims are of rows that the tables have, in different queues. */
  predicate Apart(t: Tables, claims: seq<Claimed>) {
    && (forall i :: 0 <= i < |claims| ==> claims[i].id in t.rows && claims[i].id in t.recs)
    && (forall i, j :: 0 <= i < j < |claims| ==> t.rows[claims[i].id].key != t.rows[claims[j].id].key)
  }

  /** The row and its records are the same in both tables. */
  predicate SameRow(t: Tables, t': Tables, id: RowId) {
    id in t.rows && id in t'.rows && id in t.recs && id in t'.recs && t'.rows[id] == t.rows[id] && t'.recs[id] == t.recs[id]
  }

  lemma StepKeepsKeys(t: Tables, t': Tables, opts: Options, compare: Ledger.Compare, now: int, claims: seq<Claimed>, i: nat, world: World, worked: bool)
    requires i < |claims| && Apart(t, claims) && BatchStep(t, t', opts, compare, now, claims[i], world, worked)
    ensures Apart(t', claims) && forall j :: 0 <= j < |claims| && j != i ==> SameRow(t, t', claims[j].id)
  {
    forall j | 0 <= j < |claims|
      ensures HasKey(t', claims[j].id, t.rows[claims[j].id].key)
      ensures j != i ==> SameRow(t, t', claims[j].id)
    {
      if j != i {
        assert t.rows[claims[j].id].key != t.rows[claims[i].id].key;
        StepFrame(t, t', opts, compare, now, claims[i], world, worked, claims[j].id);
      } else if worked {
        WorkedKey(t, opts, compare, now, claims[i], world);
      }
    }
    forall j, k | 0 <= j < k < |claims|
      ensures t'.rows[claims[j].id].key != t'.rows[claims[k].id].key
    {
      assert HasKey(t', claims[j].id, t.rows[claims[j].id].key) && HasKey(t', claims[k].id, t.rows[claims[k].id].key);
    }
  }

  lemma StepFrame(t: Tables, t': Tables, opts: Options, compare: Ledger.Compare, now: int, c: Claimed, world: World, worked: bool, id: RowId)
    requires c.id in t.rows && id in t.rows && id in t.recs && t.rows[id].key != t.rows[c.id].key
    requires BatchStep(t, t', opts, compare, now, c, world, worked)
    ensures SameRow(t, t', id)
  {
    if worked {
      WorkedFrame(t, opts, compare, now, c, world, id);
    }
  }

  lemma WorkedKey(t: Tables, opts: Options, compare: Ledger.Compare, now: int, c: Claimed, world: World)
    requires c.id in t.rows && c.id in t.recs
    ensures HasKey(Worked(t, opts, compare, now, c, world), c.id, t.rows[c.id].key)
  {
    if Holder(t, c) {
      match Readying(t, opts, compare, c, world)
      case Ends(e) => EndedKey(t, opts, now, c, e);
      case Offers(tables, records) => EndedKey(tables, opts, now, c, SinkEnding(records, world.answer));
    }
  }

  lemma EndedKey(t: Tables, opts: Options, now: int, c: Claimed, e: Ending)
    requires Holder(t, c)
    ensures HasKey(Ended(t, opts, now, c, e), c.id, t.rows[c.id].key)
  {
    FinishFrame(t.rows, c.id, Dead);
    FinishFrame(t.rows, c.id, Delivered);
  }

  predicate HasKey(t: Tables, id: RowId, key: Key) {
    id in t.rows && id in t.recs && t.rows[id].key == key
  }

  /** The rows of a batch do not touch each other: until its own step each row is as it was when the batch was claimed,
      and afterwards it stays as its own step left it. */
  lemma {:induction false} EachRowByItself(trail: seq<Tables>, opts: Options, compare: Ledger.Compare, now: int, claims: seq<Claimed>, world: Claimed -> World, stop: nat, n: nat)
    requires BatchSteps(trail, opts, compare, now, claims, world, stop) && Apart(trail[0], claims) && n <= |claims|
    ensures Apart(trail[n], claims) && forall j :: 0 <= j < |claims| ==> SameRow(trail[if j < n then j + 1 else 0], trail[n], claims[j].id)
  {
    if n > 0 {
      EachRowByItself(trail, opts, compare, now, claims, world, stop, n - 1);
      var w := world(claims[n - 1]);
      assert BatchStep(trail[n - 1], trail[n], opts, compare, now, claims[n - 1], w, n - 1 < stop);
      StepKeepsKeys(trail[n - 1], trail[n], opts, compare, now, claims, n - 1, w, n - 1 < stop);
      forall j | 0 <= j < |claims|
        ensures SameRow(trail[if j < n then j + 1 else 0], trail[n], claims[j].id)
      {
        StillSame(trail, claims, n, j);
      }
    }
  }

  lemma StillSame(trail: seq<Tables>, claims: seq<Claimed>, n: nat, j: nat)
    requires 0 < n <= |claims| && |trail| == |claims| + 1 && j < |claims| && Apart(trail[n], claims)
    requires j != n - 1 ==> SameRow(trail[if j < n - 1 then j + 1 else 0], trail[n - 1], claims[j].id) && SameRow(trail[n - 1], trail[n], claims[j].id)
    ensures SameRow(trail[if j < n then j + 1 else 0], trail[n], claims[j].id)
  {
  }

  /** Rows claimed together are of different queues. */
  lemma ClaimedApart(was: Rows, t: Tables, now: int, batch: int, lease: int, token: Token, claims: seq<Claimed>)
    requires QueueOk(was) && ClaimAnswers(was, t.rows, now, batch, lease, token, Ok(claims)) && t.recs.Keys == was.Keys
    ensures Apart(t, claims)
  {
    var ids := ClaimedIds(claims);
    PickedAreHeads(was, now, AtMost(batch), ids);
    forall i | 0 <= i < |claims|
      ensures claims[i].id in t.rows && claims[i].id in t.recs && t.rows[claims[i].id].key == was[ids[i]].key
    {
      assert ids[i] in was;
    }
    forall i, j | 0 <= i < j < |claims|
      ensures was[ids[i]].key != was[ids[j]].key
    {
      assert IsDue(was, ids[i], now) && IsDue(was, ids[j], now) && ids[i] != ids[j];
      OneHeadPerBusyQueue(was, was[ids[i]].key);
    }
  }
}
