/** The outbox tables as an object, one method per transaction (internal/outbox/outbox.go). Each method's
    contract names the statement functions of `Queue` and `Drain`, which the state machine `Drain` is made of. */
module OutboxStore {
  import opened Names
  import opened Lists
  import Utf8
  import RecordIds
  import opened Answers
  import opened Queue
  import opened Drain
  import DrainRecords
  import opened Interleaving

  const MAX_ORDERING_KEY := 512
  const MAX_BATCH := 1000

  datatype OutboxError =
    | BadOrderingKey
    | BadProvider
    | BadArgument
    | LeaseLost
    | NotFound
    | NoSuchRecord

  /** A leased row, as Claim hands it out. */
  datatype Claimed = Claimed(id: RowId, tenant: Text, attempt: int, token: Token)

  datatype Accepted = NewRow(id: RowId) | AlreadyHeld

  /** The retry schedule: element i is the wait after attempt i+1 fails. */
  type Ladder = seq<int>

  function Next(ladder: Ladder, attempts: int): Option<int> {
    if attempts < 1 || attempts > |ladder| then None else Some(ladder[attempts - 1])
  }

  /** The ladder schedules a wait for exactly the attempts it does not end at, and the first attempt it cannot
      account for comes after the one that finds it used up. */
  lemma LadderAccounts(ladder: Ladder, attempts: int)
    requires attempts >= 1
    ensures Next(ladder, attempts).Some? <==> Retries(Config(|ladder|, (p: Text, v: Text, head: Text) => None), attempts)
    ensures Exhausted(|ladder|, attempts) <==> Next(ladder, attempts).None? && attempts != |ladder| + 1
  {
  }

  predicate KeyOk(name: Text) {
    0 < |name| <= MAX_ORDERING_KEY && Utf8.Storable(name)
  }

  /** Earlier in `ORDER BY due_at, seq`. */
  predicate DueBefore(a: Row, b: Row) {
    a.DueAt() < b.DueAt() || (a.DueAt() == b.DueAt() && a.place <= b.place)
  }

  predicate IsDue(rows: Rows, id: RowId, now: int) {
    id in rows && rows[id].isHead && rows[id].DueAt() <= now
  }

  // ---- Searching the table -----------------------------------------------------------------------------

  /** The subquery of PromoteNextHead. */
  method FirstUnfinished(rows: Rows, key: Key) returns (found: Option<RowId>)
    ensures found.None? <==> !Busy(rows, key)
    ensures found.Some? ==> IsLowest(rows, found.value) && rows[found.value].key == key
  {
    found := None;
    var left := rows.Keys;
    while left != {}
      invariant left <= rows.Keys
      invariant found.None? ==> forall id :: id in rows && id !in left ==> !(rows[id].key == key && rows[id].Unfinished())
      invariant found.Some? ==> found.value in rows && rows[found.value].key == key && rows[found.value].Unfinished()
      invariant found.Some? ==> forall id :: id in rows && id !in left && rows[id].key == key && rows[id].Unfinished()
                                  ==> rows[found.value].place <= rows[id].place
      decreases |left|
    {
      var id :| id in left;
      left := left - {id};
      if rows[id].key == key && rows[id].Unfinished() && (found.None? || rows[id].place < rows[found.value].place) {
        found := Some(id);
      }
    }
  }

  /** The next row the claim's candidate list names. */
  method FirstDue(rows: Rows, now: int, taken: set<RowId>) returns (found: Option<RowId>)
    ensures found.None? <==> forall id :: IsDue(rows, id, now) ==> id in taken
    ensures found.Some? ==> IsDue(rows, found.value, now) && found.value !in taken
    ensures found.Some? ==> forall id :: IsDue(rows, id, now) && id !in taken ==> DueBefore(rows[found.value], rows[id])
  {
    found := None;
    var left := rows.Keys;
    while left != {}
      invariant left <= rows.Keys
      invariant found.None? ==> forall id :: IsDue(rows, id, now) && id !in left ==> id in taken
      invariant found.Some? ==> IsDue(rows, found.value, now) && found.value !in taken
      invariant found.Some? ==> forall id :: IsDue(rows, id, now) && id !in left && id !in taken ==> DueBefore(rows[found.value], rows[id])
      decreases |left|
    {
      var id :| id in left;
      left := left - {id};
      if IsDue(rows, id, now) && id !in taken && (found.None? || !DueBefore(rows[found.value], rows[id])) {
        found := Some(id);
      }
    }
  }

  /** PromoteNextHead. */
  method PromoteNextHead(rows: Rows, key: Key) returns (rows': Rows)
    requires PlacesDistinct(rows)
    ensures rows' == Promote(rows, key)
  {
    var found := FirstUnfinished(rows, key);
    rows' := rows;
    if found.Some? {
      LowestUnique(rows, found.value, NextHead(rows, key));
      rows' := rows[found.value := rows[found.value].(isHead := true)];
    }
  }

  function SetOf(ids: seq<RecordId>): set<RecordId> {
    set i | 0 <= i < |ids| :: ids[i]
  }

  lemma SetPush(ids: seq<RecordId>, i: nat)
    requires i < |ids|
    ensures SetOf(ids[..i + 1]) == SetOf(ids[..i]) + {ids[i]}
    ensures ids[i] in SetOf(ids[..i]) <==> exists j :: 0 <= j < i && ids[j] == ids[i]
  {
    assert forall j :: 0 <= j < i ==> ids[..i][j] == ids[j] == ids[..i + 1][j];
    assert ids[..i + 1][i] == ids[i];
  }

  /** MarkRecordDead for each refusal: each has to be a record that is still waiting, which also refuses one
      that is named twice. */
  method RefuseEach(rs: seq<Rec>, dead: seq<RecordId>) returns (r: Option<seq<Rec>>)
    ensures r.Some? <==> LinesUp(dead, WaitingIds(rs))
    ensures r.Some? ==> r.value == RefuseIn(rs, SetOf(dead))
  {
    var now := rs;
    RefuseNone(rs);
    assert SetOf(dead[..0]) == {};
    for i := 0 to |dead|
      invariant now == RefuseIn(rs, SetOf(dead[..i]))
      invariant forall j :: 0 <= j < i ==> dead[j] in WaitingIds(rs)
      invariant forall j, k :: 0 <= j < k < i ==> dead[j] != dead[k]
    {
      StillWaiting(rs, SetOf(dead[..i]), dead[i]);
      SetPush(dead, i);
      if dead[i] !in WaitingIds(now) {
        return None;
      }
      RefuseMore(rs, SetOf(dead[..i]), dead[i]);
      now := RefuseIn(now, {dead[i]});
    }
    assert dead[..|dead|] == dead;
    return Some(now);
  }

  lemma RefuseNone(rs: seq<Rec>)
    ensures RefuseIn(rs, {}) == rs
  {
  }

  /** What still waits after some were refused. */
  lemma {:induction false} StillWaiting(rs: seq<Rec>, ids: set<RecordId>, r: RecordId)
    ensures r in WaitingIds(RefuseIn(rs, ids)) <==> r in WaitingIds(rs) && r !in ids
  {
    if rs != [] {
      assert RefuseIn(rs, ids)[1..] == RefuseIn(rs[1..], ids);
      StillWaiting(rs[1..], ids, r);
    }
  }

  // ---- What every transaction keeps ------------------------------------------------------------------

  /** The next values of the sequence of `seq`, of the row ids and of the lease tokens are all unused. */
  datatype Counters = Counters(place: nat, id: RowId, token: Token)

  ghost predicate TablesOk(rows: Rows, recs: map<RowId, seq<Rec>>, next: Counters) {
    && QueueOk(rows) && recs.Keys == rows.Keys
    && (forall id :: id in rows ==> id < next.id && rows[id].place < next.place)
    && (forall id :: id in rows && rows[id].lease.Held? ==> rows[id].lease.token < next.token)
  }

  /** A row as Accept inserts it. */
  ghost predicate GoesLast(rows: Rows, row: Row, place: nat) {
    && FreshDelivery(rows, row.key.tenant, row.delivery)
    && row.Unfinished() && row.lease == Free && row.attempts == 0 && row.isHead == !Busy(rows, row.key) && row.place == place
  }

  lemma AcceptedGoesLast(rows: Rows, key: Key, provider: Text, delivery: DeliveryId, place: nat, now: int)
    requires FreshDelivery(rows, key.tenant, delivery)
    ensures GoesLast(rows, AcceptedRow(rows, key, provider, delivery, place, now), place)
  {
  }

  function RowUsed(next: Counters): Counters {
    Counters(next.place + 1, next.id + 1, next.token)
  }

  lemma InsertKeeps(rows: Rows, recs: map<RowId, seq<Rec>>, next: Counters, row: Row)
    requires TablesOk(rows, recs, next) && GoesLast(rows, row, next.place)
    ensures TablesOk(rows[next.id := row], recs[next.id := []], RowUsed(next))
  {
    AppendKeeps(rows, next.id, row);
  }

  lemma RequeueKeeps(rows: Rows, recs: map<RowId, seq<Rec>>, next: Counters, id: RowId, now: int)
    requires TablesOk(rows, recs, next) && Replayable(Db(rows, recs, map[]), id)
    ensures TablesOk(rows[id := ReplayedRow(rows, rows[id], next.place, now)], recs[id := Revive(recs[id])], next.(place := next.place + 1))
  {
    assert LeaseOk(rows[id]);
    assert rows[id].isHead <==> IsLowest(rows, id);
    AppendKeeps(rows, id, ReplayedRow(rows, rows[id], next.place, now));
  }

  /** A statement that leaves its row where it is in the queue. */
  lemma TouchKeeps(rows: Rows, recs: map<RowId, seq<Rec>>, next: Counters, id: RowId, row: Row, rs: seq<Rec>)
    requires TablesOk(rows, recs, next) && id in rows && SameInQueue(rows[id], row) && LeaseOk(row)
    requires row.lease.Held? ==> row.lease == rows[id].lease
    ensures TablesOk(rows[id := row], recs[id := rs], next)
  {
    SameQueueKeeps(rows, rows[id := row]);
  }

  predicate AllHeads(rows: Rows, ids: set<RowId>) {
    forall id :: id in ids ==> id in rows && rows[id].isHead
  }

  function TokenUsed(next: Counters): Counters {
    Counters(next.place, next.id, next.token + 1)
  }

  lemma LeaseKeeps(was: Rows, rows: Rows, recs: map<RowId, seq<Rec>>, next: Counters, ids: set<RowId>, until: int)
    requires TablesOk(was, recs, next) && LeasedHeads(was, rows, ids, next.token, until)
    ensures TablesOk(rows, recs, TokenUsed(next))
  {
    SameQueueKeeps(was, rows);
  }

  /** Heads, and no other row, are leased and charged. */
  ghost predicate LeasedHeads(was: Rows, rows: Rows, ids: set<RowId>, token: Token, until: int) {
    AllHeads(was, ids) && rows == Queue.Claim(was, ids, token, until)
  }

  lemma EndKeeps(rows: Rows, recs: map<RowId, seq<Rec>>, next: Counters, id: RowId, token: Token, to: RowState, rs: seq<Rec>)
    requires TablesOk(rows, recs, next) && id in rows && rows[id].Guard(token) && (to == Delivered || to == Dead)
    ensures TablesOk(Queue.Finish(rows, id, to), recs[id := rs], next)
  {
    assert LeaseOk(rows[id]);
    FinishKeeps(rows, id, to);
    FinishFrame(rows, id, to);
  }

  /** A statement of a row's holder that leaves the row the head of its queue, free. */
  lemma StayKeeps(rows: Rows, recs: map<RowId, seq<Rec>>, next: Counters, c: Claimed, row: Row)
    requires TablesOk(rows, recs, next) && c.id in rows && rows[c.id].Guard(c.token)
    requires SameInQueue(rows[c.id], row) && row.lease == Free && row.attempts >= rows[c.id].attempts - 1
    ensures TablesOk(rows[c.id := row], recs, next)
  {
    assert LeaseOk(rows[c.id]);
    assert recs[c.id := recs[c.id]] == recs;
    TouchKeeps(rows, recs, next, c.id, row, recs[c.id]);
  }

  // ---- Claiming ------------------------------------------------------------------------------------

  function IdSet(ids: seq<RowId>): set<RowId> {
    set i | 0 <= i < |ids| :: ids[i]
  }

  /** A due head that is not among those taken. */
  predicate LeftOut(rows: Rows, now: int, ids: seq<RowId>, id: RowId) {
    IsDue(rows, id, now) && id !in ids
  }

  predicate NotLater(rows: Rows, a: RowId, b: RowId) {
    a in rows && b in rows && DueBefore(rows[a], rows[b])
  }

  /** The claim's answer: due heads, each once, at most as many as asked for, none due after any of those left
      out, and none left out at all if fewer than asked for were found. */
  ghost predicate Picks(rows: Rows, now: int, limit: nat, ids: seq<RowId>) {
    && |ids| <= limit
    && (forall i :: 0 <= i < |ids| ==> IsDue(rows, ids[i], now))
    && Distinct(ids)
    && (forall id, i {:trigger LeftOut(rows, now, ids, id), ids[i]} ::
          0 <= i < |ids| && LeftOut(rows, now, ids, id) ==> NotLater(rows, ids[i], id))
    && (|ids| < limit ==> forall id :: !LeftOut(rows, now, ids, id))
  }

  method PickDue(rows: Rows, now: int, limit: nat) returns (ids: seq<RowId>)
    ensures Picks(rows, now, limit, ids)
  {
    ids := [];
    var taken: set<RowId> := {};
    while |ids| < limit
      invariant |ids| <= limit
      invariant forall id :: id in taken <==> id in ids
      invariant forall i :: 0 <= i < |ids| ==> IsDue(rows, ids[i], now)
      invariant Distinct(ids)
      invariant forall id, i :: 0 <= i < |ids| && LeftOut(rows, now, ids, id) ==> NotLater(rows, ids[i], id)
    {
      var found := FirstDue(rows, now, taken);
      if found.None? {
        return;
      }
      ghost var before := ids;
      taken := taken + {found.value};
      ids := ids + [found.value];
      forall id, i | 0 <= i < |ids| && LeftOut(rows, now, ids, id)
        ensures NotLater(rows, ids[i], id)
      {
        assert LeftOut(rows, now, before, id);
      }
    }
  }

  /** What the claim's RETURNING clause hands out. */
  function HandOut(rows: Rows, ids: seq<RowId>, token: Token): seq<Claimed>
    requires forall i :: 0 <= i < |ids| ==> ids[i] in rows
  {
    seq(|ids|, i requires 0 <= i < |ids| => Claimed(ids[i], rows[ids[i]].key.tenant, rows[ids[i]].attempts + 1, token))
  }

  function AtMost(batch: int): nat
  {
    if batch < 0 then 0 else if batch < MAX_BATCH then batch else MAX_BATCH
  }

  /** What Claim makes of the table, and answers: the rows picked, which are leased under the claim's token and
      charged an attempt. */
  ghost predicate ClaimAnswers(was: Rows, rows: Rows, now: int, batch: int, lease: int, token: Token, r: Result<seq<Claimed>, OutboxError>) {
    match r
    case Err(_) => rows == was
    case Ok(claims) =>
      && Picks(was, now, AtMost(batch), ClaimedIds(claims))
      && rows == Queue.Claim(was, IdSet(ClaimedIds(claims)), token, now + lease)
      && forall i :: 0 <= i < |claims| ==> HandedOut(rows, claims[i], token)
  }

  function ClaimedIds(claims: seq<Claimed>): seq<RowId> {
    seq(|claims|, i requires 0 <= i < |claims| => claims[i].id)
  }

  predicate HandedOut(rows: Rows, c: Claimed, token: Token) {
    c.id in rows && c.token == token && rows[c.id].HeldBy(token) && rows[c.id].attempts == c.attempt && rows[c.id].key.tenant == c.tenant
  }

  lemma HandOutAnswers(rows: Rows, now: int, batch: int, lease: int, token: Token, ids: seq<RowId>)
    requires Picks(rows, now, AtMost(batch), ids) && forall i :: 0 <= i < |ids| ==> ids[i] in rows
    ensures ClaimedIds(HandOut(rows, ids, token)) == ids
    ensures ClaimAnswers(rows, Queue.Claim(rows, IdSet(ids), token, now + lease), now, batch, lease, token, Ok(HandOut(rows, ids, token)))
  {
    assert ClaimedIds(HandOut(rows, ids, token)) == ids;
    assert forall i :: 0 <= i < |ids| ==> ids[i] in IdSet(ids);
  }

  /** A row's holder was charged at least one attempt, so giving one back never meets the clamp at zero. */
  lemma HolderWasCharged(rows: Rows, id: RowId, token: Token, next: int)
    requires QueueOk(rows) && id in rows && rows[id].Guard(token)
    ensures LeaseOk(rows[id]) && rows[id].attempts >= 1
    ensures HaltedRow(rows[id], next).attempts == ReleasedRow(rows[id]).attempts == rows[id].attempts - 1
  {
    assert LeaseOk(rows[id]);
  }

  /** PreparedRecords: what waits, in order. */
  method ListWaiting(rs: seq<Rec>) returns (ids: seq<RecordId>)
    ensures ids == WaitingIds(rs)
  {
    ids := [];
    assert rs[0..] == rs;
    for i := 0 to |rs|
      invariant WaitingIds(rs) == ids + WaitingIds(rs[i..])
    {
      WaitingStep(rs, i, ids);
      if rs[i].state == Waiting {
        ids := ids + [rs[i].id];
      }
    }
  }

  lemma WaitingStep(rs: seq<Rec>, i: nat, ids: seq<RecordId>)
    requires i < |rs| && WaitingIds(rs) == ids + WaitingIds(rs[i..])
    ensures WaitingIds(rs) == (if rs[i].state == Waiting then ids + [rs[i].id] else ids) + WaitingIds(rs[i + 1..])
  {
    var first: seq<RecordId> := if rs[i].state == Waiting then [rs[i].id] else [];
    DropDrop(rs, i, 1);
    assert rs[i..][0] == rs[i];
    Joins(ids, first, WaitingIds(rs[i + 1..]));
    assert ids + [] == ids;
  }

  lemma PickedAreHeads(rows: Rows, now: int, limit: nat, ids: seq<RowId>)
    requires Picks(rows, now, limit, ids)
    ensures AllHeads(rows, IdSet(ids)) && forall i :: 0 <= i < |ids| ==> ids[i] in rows
  {
  }

  lemma AnswersAreHeads(was: Rows, rows: Rows, now: int, batch: int, lease: int, token: Token, claims: seq<Claimed>)
    requires ClaimAnswers(was, rows, now, batch, lease, token, Ok(claims))
    ensures LeasedHeads(was, rows, IdSet(ClaimedIds(claims)), token, now + lease)
  {
    PickedAreHeads(was, now, AtMost(batch), ClaimedIds(claims));
  }

  /** A claim keeps the tables valid: only heads are leased, under a token no row has. */
  lemma ClaimKeeps(was: Rows, rows: Rows, recs: map<RowId, seq<Rec>>, next: Counters, now: int, batch: int, lease: int, claims: seq<Claimed>)
    requires TablesOk(was, recs, next) && ClaimAnswers(was, rows, now, batch, lease, next.token, Ok(claims))
    ensures TablesOk(rows, recs, TokenUsed(next))
  {
    AnswersAreHeads(was, rows, now, batch, lease, next.token, claims);
    LeaseKeeps(was, rows, recs, next, IdSet(ClaimedIds(claims)), now + lease);
  }

  // ---- What the transactions mean, column by column -----------------------------------------------------

  predicate NotDueBefore(rows: Rows, id: RowId, t: int) {
    id in rows ==> rows[id].nextAttempt >= t || (rows[id].lease.Held? && rows[id].lease.until >= t)
  }

  /** Until then no claim finds the row. */
  lemma NotDueMeans(rows: Rows, id: RowId, t: int, now: int)
    requires NotDueBefore(rows, id, t) && now < t
    ensures !IsDue(rows, id, now)
  {
  }

  /** A claim leases exactly the rows it hands out, each to the end of the lease asked for. */
  ghost predicate ClaimLeases(was: Rows, rows: Rows, until: int, token: Token, claims: seq<Claimed>) {
    && rows.Keys == was.Keys
    && (forall i :: 0 <= i < |claims| ==> ClaimLeasesOne(was, rows, until, token, claims[i]))
    && (forall id :: id in was && id !in ClaimedIds(claims) ==> rows[id] == was[id])
  }

  predicate ClaimLeasesOne(was: Rows, rows: Rows, until: int, token: Token, c: Claimed) {
    && c.id in was && c.id in rows && LeasedUntil(was[c.id], rows[c.id], token, until) && NotDueBefore(rows, c.id, until)
    && c.token == token && c.tenant == was[c.id].key.tenant && c.attempt == rows[c.id].attempts
  }

  lemma ClaimMeans(was: Rows, rows: Rows, now: int, batch: int, lease: int, token: Token, claims: seq<Claimed>)
    requires ClaimAnswers(was, rows, now, batch, lease, token, Ok(claims))
    ensures ClaimLeases(was, rows, now + lease, token, claims)
  {
    var ids := ClaimedIds(claims);
    forall i | 0 <= i < |claims|
      ensures ClaimLeasesOne(was, rows, now + lease, token, claims[i])
    {
      assert ids[i] in IdSet(ids) && IsDue(was, ids[i], now);
      assert HandedOut(rows, claims[i], token);
    }
    forall id | id in was && id !in ids
      ensures rows[id] == was[id]
    {
      assert id !in IdSet(ids);
    }
  }

  /** The order of a claim: by the moment a row is due, and by place among rows due at one moment. */
  lemma DueBeforeMeans(a: Row, b: Row)
    ensures DueBefore(a, b) <==> (forall t :: DueBy(b, t) ==> DueBy(a, t)) && ((exists t :: DueBy(a, t) && !DueBy(b, t)) || a.place <= b.place)
  {
    DueByMeans(a);
    DueByMeans(b);
    assert DueBy(b, b.DueAt()) && DueBy(a, a.DueAt());
  }

  predicate DueBy(row: Row, t: int) {
    row.nextAttempt <= t && (row.lease.Held? ==> row.lease.until <= t)
  }

  lemma DueByMeans(row: Row)
    ensures forall t :: DueBy(row, t) <==> row.DueAt() <= t
  {
  }

  /** A held row that failed: it waits the ladder's delay for its attempt, still charged, or it is dead. */
  ghost predicate FailLeaves(rows: Rows, rows': Rows, ladder: Ladder, id: RowId, attempt: int, now: int) {
    && id in rows && id in rows'
    && if 1 <= attempt <= |ladder| then
         && WaitsUntil(rows[id], rows'[id], now + ladder[attempt - 1], rows[id].attempts)
         && NotDueBefore(rows', id, now + ladder[attempt - 1]) && OthersStay(rows, rows', id)
       else
         EndedAs(rows[id], rows'[id], Dead) && MarkerMoves(rows, rows', id)
  }

  lemma FailMeans(rows: Rows, ladder: Ladder, c: Claimed, now: int)
    requires QueueOk(rows) && c.id in rows && rows[c.id].Guard(c.token)
    ensures FailLeaves(rows, FailedRows(rows, ladder, c, now), ladder, c.id, c.attempt, now)
  {
    assert LeaseOk(rows[c.id]);
    if !(1 <= c.attempt <= |ladder|) {
      FinishEndsRow(rows, c.id, Dead);
    }
  }

  /** A held row that halted: it waits the pause, and its attempt is given back. */
  predicate HaltLeaves(rows: Rows, rows': Rows, id: RowId, now: int, pause: int) {
    && id in rows && id in rows' && WaitsUntil(rows[id], rows'[id], now + pause, rows[id].attempts - 1)
    && NotDueBefore(rows', id, now + pause) && OthersStay(rows, rows', id)
  }

  lemma HaltMeans(rows: Rows, c: Claimed, now: int, pause: int)
    requires QueueOk(rows) && c.id in rows && rows[c.id].Guard(c.token)
    ensures HaltLeaves(rows, HaltedRows(rows, c, now, pause), c.id, now, pause)
  {
    HolderWasCharged(rows, c.id, c.token, now + pause);
  }

  /** A held row that is given back: it is due when it was, and its attempt is given back. */
  predicate ReleaseLeaves(rows: Rows, rows': Rows, id: RowId) {
    && id in rows && id in rows' && WaitsUntil(rows[id], rows'[id], rows[id].nextAttempt, rows[id].attempts - 1) && OthersStay(rows, rows', id)
  }

  lemma ReleaseMeans(rows: Rows, c: Claimed)
    requires QueueOk(rows) && c.id in rows && rows[c.id].Guard(c.token)
    ensures ReleaseLeaves(rows, rows[c.id := ReleasedRow(rows[c.id])], c.id)
  {
    HolderWasCharged(rows, c.id, c.token, 0);
  }

  ghost predicate EndLeaves(rows: Rows, rows': Rows, id: RowId, to: RowState) {
    id in rows && id in rows' && EndedAs(rows[id], rows'[id], to) && MarkerMoves(rows, rows', id)
  }

  lemma EndMeans(rows: Rows, c: Claimed, to: RowState)
    requires QueueOk(rows) && c.id in rows && rows[c.id].Guard(c.token) && (to == Delivered || to == Dead)
    ensures EndLeaves(rows, Queue.Finish(rows, c.id, to), c.id, to)
  {
    assert LeaseOk(rows[c.id]);
    FinishEndsRow(rows, c.id, to);
  }

  /** Each record that waited is dead if it was refused and delivered if not; every other record is as it was. */
  predicate RecordsSettle(rs: seq<Rec>, rs': seq<Rec>, dead: seq<RecordId>) {
    && |rs'| == |rs|
    && forall i :: 0 <= i < |rs| ==>
         rs'[i].id == rs[i].id && rs'[i].state == if rs[i].state != Waiting then rs[i].state else if rs[i].id in dead then Refused else Taken
  }

  lemma SettleMeans(rs: seq<Rec>, dead: seq<RecordId>)
    ensures RecordsSettle(rs, SettleAll(rs, SetOf(dead)), dead)
  {
    assert forall r :: r in SetOf(dead) <==> r in dead;
  }

  /** The records that were dead wait again; every other record is as it was. */
  predicate RecordsRevive(rs: seq<Rec>, rs': seq<Rec>) {
    && |rs'| == |rs|
    && forall i :: 0 <= i < |rs| ==> rs'[i].id == rs[i].id && rs'[i].state == if rs[i].state == Refused then Waiting else rs[i].state
  }

  lemma ReviveMeans(rs: seq<Rec>)
    ensures RecordsRevive(rs, Revive(rs))
  {
  }

  /** An accepted row is new in its queue and carries what it was accepted with. */
  predicate AcceptLeaves(rows: Rows, rows': Rows, id: RowId, key: Key, provider: Text, delivery: DeliveryId, now: int) {
    && id !in rows && rows'.Keys == rows.Keys + {id} && (forall x :: x in rows ==> rows'[x] == rows[x])
    && rows'[id].key == key && rows'[id].provider == provider && rows'[id].delivery == delivery
    && rows'[id].state == Pending && !rows'[id].wasPrepared && StartsOver(rows', id, rows'[id], now)
  }

  /** Every answer, by the key, the provider, and whether some row of the tenant is of the same delivery. */
  predicate AcceptAnswers(rows: Rows, key: Key, provider: Text, delivery: DeliveryId, r: Result<Accepted, OutboxError>) {
    var badKey := key.name == [] || |key.name| > 512 || !Utf8.Storable(key.name);
    var badProvider := provider == [] || 0x1F in provider || !Utf8.Storable(provider);
    var held := exists x :: x in rows && rows[x].key.tenant == key.tenant && rows[x].delivery == delivery;
    && (r == Err(BadOrderingKey) <==> badKey)
    && (r == Err(BadProvider) <==> !badKey && badProvider)
    && (r == Ok(AlreadyHeld) <==> !badKey && !badProvider && held)
    && (r.Ok? && r.value.NewRow? <==> !badKey && !badProvider && !held)
  }

  /** Whether Accept inserts a row, which has this id. */
  method AnswerTo(rows: Rows, key: Key, provider: Text, delivery: DeliveryId, id: RowId) returns (r: Result<Accepted, OutboxError>)
    ensures r == (if !KeyOk(key.name) then Err(BadOrderingKey)
                  else if !ProviderOk(provider) then Err(BadProvider)
                  else if !FreshDelivery(rows, key.tenant, delivery) then Ok(AlreadyHeld)
                  else Ok(NewRow(id)))
    ensures AcceptAnswers(rows, key, provider, delivery, r)
  {
    if !KeyOk(key.name) {
      return Err(BadOrderingKey);
    }
    if !ProviderOk(provider) {
      return Err(BadProvider);
    }
    if !FreshDelivery(rows, key.tenant, delivery) {
      return Ok(AlreadyHeld);
    }
    return Ok(NewRow(id));
  }

  lemma AcceptMeans(rows: Rows, id: RowId, key: Key, provider: Text, delivery: DeliveryId, place: nat, now: int)
    requires id !in rows && forall x :: x in rows ==> rows[x].place < place
    ensures AcceptLeaves(rows, rows[id := AcceptedRow(rows, key, provider, delivery, place, now)], id, key, provider, delivery, now)
  {
    BusyMeans(rows, key);
  }

  lemma BusyMeans(rows: Rows, key: Key)
    ensures !Busy(rows, key) <==> forall x :: x in rows && rows[x].key == key ==> rows[x].state == Delivered || rows[x].state == Dead
  {
  }

  /** A dead row, or a delivered one with a dead record, of this tenant. */
  predicate ReplayAllowed(rows: Rows, recs: map<RowId, seq<Rec>>, tenant: Text, id: RowId) {
    && id in rows && id in recs && rows[id].key.tenant == tenant
    && (rows[id].state == Dead || (rows[id].state == Delivered && exists i :: 0 <= i < |recs[id]| && recs[id][i].state == Refused))
  }

  lemma ReplayableMeans(rows: Rows, recs: map<RowId, seq<Rec>>, id: RowId)
    requires recs.Keys == rows.Keys
    ensures forall tenant :: ReplayAllowed(rows, recs, tenant, id) <==>
              id in rows && rows[id].key.tenant == tenant && Replayable(Db(rows, recs, map[]), id)
  {
  }

  /** A replayed row is new in its queue, in the state it can be taken up again from. */
  predicate ReplayLeaves(rows: Rows, rows': Rows, id: RowId, now: int) {
    && id in rows && OthersStay(rows, rows', id)
    && rows'[id].key == rows[id].key && rows'[id].provider == rows[id].provider && rows'[id].delivery == rows[id].delivery
    && rows'[id].wasPrepared == rows[id].wasPrepared && rows'[id].state == (if rows[id].wasPrepared then Prepared else Pending)
    && StartsOver(rows', id, rows'[id], now)
  }

  lemma ReplayMeans(rows: Rows, id: RowId, place: nat, now: int)
    requires QueueOk(rows) && id in rows && !rows[id].Unfinished() && forall x :: x in rows ==> rows[x].place < place
    ensures ReplayLeaves(rows, rows[id := ReplayedRow(rows, rows[id], place, now)], id, now)
  {
    assert LeaseOk(rows[id]);
    assert rows[id].isHead <==> IsLowest(rows, id);
    BusyMeans(rows, rows[id].key);
  }

  function ReplayedRows(rows: Rows, id: RowId, place: nat, now: int): Rows
    requires id in rows
  {
    rows[id := ReplayedRow(rows, rows[id], place, now)]
  }

  method PutBack(rows: Rows, recs: map<RowId, seq<Rec>>, next: Counters, id: RowId, now: int)
    returns (rows': Rows, recs': map<RowId, seq<Rec>>, next': Counters)
    requires TablesOk(rows, recs, next) && Replayable(Db(rows, recs, map[]), id)
    ensures TablesOk(rows', recs', next') && next'.token == next.token
    ensures rows' == ReplayedRows(rows, id, next.place, now) && recs' == recs[id := Revive(recs[id])]
    ensures ReplayLeaves(rows, rows', id, now) && RecordsRevive(recs[id], recs'[id])
  {
    RequeueKeeps(rows, recs, next, id, now);
    ReplayMeans(rows, id, next.place, now);
    ReviveMeans(recs[id]);
    rows' := ReplayedRows(rows, id, next.place, now);
    recs' := recs[id := Revive(recs[id])];
    next' := next.(place := next.place + 1);
  }

  /** A prepared row, with its records behind those it had, all waiting, in order. */
  predicate PrepareLeaves(rows: Rows, rows': Rows, rs: seq<Rec>, rs': seq<Rec>, id: RowId, ids: seq<RecordId>) {
    && id in rows && OthersStay(rows, rows', id)
    && rows'[id] == rows[id].(state := Prepared, wasPrepared := true)
    && |rs'| == |rs| + |ids| && rs'[..|rs|] == rs
    && forall i :: 0 <= i < |ids| ==> rs'[|rs| + i].id == ids[i] && rs'[|rs| + i].state == Waiting
  }

  method PutPrepared(rows: Rows, recs: map<RowId, seq<Rec>>, ghost next: Counters, c: Claimed, records: seq<RecordId>)
    returns (rows': Rows, recs': map<RowId, seq<Rec>>)
    requires TablesOk(rows, recs, next) && c.id in rows && rows[c.id].Guard(c.token) && rows[c.id].state == Pending
    ensures TablesOk(rows', recs', next)
    ensures PreparesRow(rows, recs, c, records, rows', recs')
    ensures c.id in recs' && PrepareLeaves(rows, rows', recs[c.id], recs'[c.id], c.id, records)
  {
    assert LeaseOk(rows[c.id]);
    TouchKeeps(rows, recs, next, c.id, PreparedRow(rows[c.id]), recs[c.id] + Stored(records));
    rows', recs' := rows[c.id := PreparedRow(rows[c.id])], recs[c.id := recs[c.id] + Stored(records)];
  }

  // ---- The object --------------------------------------------------------------------------------------

  class Outbox {
    var rows: Rows
    var recs: map<RowId, seq<Rec>>
    var next: Counters
    var now: int

    ghost predicate Valid()
      reads this
    {
      TablesOk(rows, recs, next)
    }

    constructor (now: int)
      ensures Valid() && rows == map[] && recs == map[] && this.now == now
    {
      rows, recs, next := map[], map[], Counters(0, 0, 0);
      this.now := now;
    }

    /** The row is leased to the claim and still unfinished. */
    predicate Holds(c: Claimed)
      reads this
    {
      c.id in rows && rows[c.id].Guard(c.token)
    }

    /** Accept: a delivery whose key cannot be stored is refused, one the tenant already has changes nothing,
        and a new one goes to the back of its queue, its head exactly if nothing of the queue is unfinished. */
    method Accept(key: Key, provider: Text, delivery: DeliveryId) returns (r: Result<Accepted, OutboxError>)
      requires Valid()
      modifies `rows, `recs, `next
      ensures Valid()
      ensures r == (if !KeyOk(key.name) then Err(BadOrderingKey)
                    else if !ProviderOk(provider) then Err(BadProvider)
                    else if !FreshDelivery(old(rows), key.tenant, delivery) then Ok(AlreadyHeld)
                    else Ok(NewRow(old(next).id)))
      ensures r.Ok? && r.value.NewRow? ==>
        && rows == old(rows)[old(next).id := AcceptedRow(old(rows), key, provider, delivery, old(next).place, now)]
        && recs == old(recs)[old(next).id := []]
      ensures r.Ok? && r.value.NewRow? ==> AcceptLeaves(old(rows), rows, r.value.id, key, provider, delivery, now)
      ensures AcceptAnswers(old(rows), key, provider, delivery, r)
      ensures r.Err? || r == Ok(AlreadyHeld) ==> rows == old(rows) && recs == old(recs)
      ensures next == if r.Ok? && r.value.NewRow? then RowUsed(old(next)) else old(next)
    {
      r := AnswerTo(rows, key, provider, delivery, next.id);
      if r.Ok? && r.value.NewRow? {
        var row := AcceptedRow(rows, key, provider, delivery, next.place, now);
        AcceptedGoesLast(rows, key, provider, delivery, next.place, now);
        AcceptMeans(rows, next.id, key, provider, delivery, next.place, now);
        Insert(row);
      }
    }

    /** The INSERT of a row that goes to the back of its queue. */
    method Insert(row: Row)
      requires Valid() && GoesLast(rows, row, next.place)
      modifies `rows, `recs, `next
      ensures Valid()
      ensures rows == old(rows)[old(next).id := row] && recs == old(recs)[old(next).id := []] && next == RowUsed(old(next))
    {
      InsertKeeps(rows, recs, next, row);
      rows, recs, next := rows[next.id := row], recs[next.id := []], RowUsed(next);
    }

    /** Claim: the earliest due heads, at most `batch` and never more than MaxBatch, all leased under one new
        token and each charged one attempt. (ClaimKeeps: the tables stay valid.) */
    method Claim(batch: int, lease: int) returns (r: Result<seq<Claimed>, OutboxError>)
      modifies `rows, `next
      ensures r.Err? <==> batch <= 0 || lease <= 0
      ensures ClaimAnswers(old(rows), rows, now, batch, lease, old(next).token, r)
      ensures next == if r.Ok? then TokenUsed(old(next)) else old(next)
      ensures r.Ok? ==> ClaimLeases(old(rows), rows, now + lease, old(next).token, r.value)
      ensures r.Ok? ==> Picks(old(rows), now, if batch < 1000 then batch else 1000, ClaimedIds(r.value))
    {
      if batch <= 0 || lease <= 0 {
        return Err(BadArgument);
      }
      var ids := PickDue(rows, now, AtMost(batch));
      PickedAreHeads(rows, now, AtMost(batch), ids);
      HandOutAnswers(rows, now, batch, lease, next.token, ids);
      r := Ok(HandOut(rows, ids, next.token));
      ClaimMeans(rows, Queue.Claim(rows, IdSet(ids), next.token, now + lease), now, batch, lease, next.token, r.value);
      rows := Queue.Claim(rows, IdSet(ids), next.token, now + lease);
      next := TokenUsed(next);
    }

    /** PrepareIn: for the holder of a pending row, the row becomes prepared and its records are stored in
        order; for anybody else nothing changes. */
    method PrepareIn(c: Claimed, records: seq<RecordId>) returns (r: Option<OutboxError>)
      requires Valid()
      modifies `rows, `recs
      ensures Valid()
      ensures r == if old(Holds(c)) && old(rows[c.id].state) == Pending then None else Some(LeaseLost)
      ensures r.Some? ==> rows == old(rows) && recs == old(recs)
      ensures r.None? ==>
        c.id in old(rows) && c.id in old(recs) && PreparesRow(old(rows), old(recs), c, records, rows, recs)
      ensures r.None? ==> c.id in recs && PrepareLeaves(old(rows), rows, old(recs)[c.id], recs[c.id], c.id, records)
    {
      if !(Holds(c) && rows[c.id].state == Pending) {
        return Some(LeaseLost);
      }
      rows, recs := PutPrepared(rows, recs, next, c, records);
      return None;
    }

    /** PreparedRecords: what the row still has to deliver, in order. */
    method PreparedRecords(c: Claimed) returns (ids: seq<RecordId>)
      ensures ids == if c.id in recs then WaitingIds(recs[c.id]) else []
      ensures c.id in recs ==> DrainRecords.ListsWaiting(recs[c.id], ids)
    {
      ids := [];
      if c.id in recs {
        DrainRecords.WaitingAreListed(recs[c.id]);
        ids := ListWaiting(recs[c.id]);
      }
    }

    /** MarkDelivered: the refusals have to name waiting records, each once, and the row has to be held; then
        exactly the refused records are dead, every other waiting record is delivered, and the marker moves to
        the queue's next row. Otherwise nothing changes. */
    method MarkDelivered(c: Claimed, dead: seq<RecordId>) returns (r: Option<OutboxError>)
      requires Valid()
      modifies `rows, `recs
      ensures Valid()
      ensures r == (if !LinesUp(dead, WaitingIds(if c.id in old(recs) then old(recs)[c.id] else [])) then Some(NoSuchRecord)
                    else if !old(Holds(c)) then Some(LeaseLost) else None)
      ensures r.Some? ==> rows == old(rows) && recs == old(recs)
      ensures r.None? ==>
        && c.id in old(rows) && c.id in old(recs)
        && rows == Queue.Finish(old(rows), c.id, Delivered) && recs == old(recs)[c.id := SettleAll(old(recs)[c.id], SetOf(dead))]
      ensures r.None? ==> EndLeaves(old(rows), rows, c.id, Delivered)
      ensures r.None? ==> c.id in recs && RecordsSettle(old(recs)[c.id], recs[c.id], dead) && forall x :: x in recs && x != c.id ==> recs[x] == old(recs)[x]
    {
      var rs := if c.id in recs then recs[c.id] else [];
      var refused := RefuseEach(rs, dead);
      if refused.None? {
        return Some(NoSuchRecord);
      }
      RefuseThenDeliver(rs, SetOf(dead));
      if !Holds(c) {
        return Some(LeaseLost);
      }
      EndKeeps(rows, recs, next, c.id, c.token, Delivered, DeliverRest(refused.value));
      EndMeans(rows, c, Delivered);
      SettleMeans(rs, dead);
      var finished := rows[c.id := FinishedRow(rows[c.id], Delivered)];
      FinishedPlaces(rows, c.id, Delivered);
      rows := PromoteNextHead(finished, rows[c.id].key);
      recs := recs[c.id := DeliverRest(refused.value)];
      return None;
    }

    /** MarkDead and MarkAbandoned: the holder's row is dead, its records wait for a replay, and the marker
        moves on. */
    method MarkDead(c: Claimed) returns (r: Option<OutboxError>)
      requires Valid()
      modifies `rows
      ensures Valid()
      ensures r == if old(Holds(c)) then None else Some(LeaseLost)
      ensures rows == if r.None? then Queue.Finish(old(rows), c.id, Dead) else old(rows)
      ensures r.None? ==> EndLeaves(old(rows), rows, c.id, Dead)
    {
      if !Holds(c) {
        return Some(LeaseLost);
      }
      EndKeeps(rows, recs, next, c.id, c.token, Dead, recs[c.id]);
      EndMeans(rows, c, Dead);
      assert recs[c.id := recs[c.id]] == recs;
      var finished := rows[c.id := FinishedRow(rows[c.id], Dead)];
      FinishedPlaces(rows, c.id, Dead);
      rows := PromoteNextHead(finished, rows[c.id].key);
      return None;
    }

    /** Fail: the row waits out the ladder's delay for the claim's attempt, or is dead once the ladder is used
        up. */
    method Fail(c: Claimed, ladder: Ladder) returns (r: Option<OutboxError>)
      requires Valid()
      modifies `rows
      ensures Valid()
      ensures r == if old(Holds(c)) then None else Some(LeaseLost)
      ensures r.Some? ==> rows == old(rows)
      ensures r.None? ==> c.id in old(rows) && rows == FailedRows(old(rows), ladder, c, now)
      ensures r.None? ==> FailLeaves(old(rows), rows, ladder, c.id, c.attempt, now)
    {
      var delay := Next(ladder, c.attempt);
      if delay.None? {
        r := MarkDead(c);
        return;
      }
      if !Holds(c) {
        return Some(LeaseLost);
      }
      FailMeans(rows, ladder, c, now);
      RetryKeeps(rows, recs, next, c, now, delay.value);
      rows := RetriedRows(rows, c, now, delay.value);
      return None;
    }

    /** Halt: the row waits out the pause where it is, and its attempt is given back. */
    method Halt(c: Claimed, pause: int) returns (r: Option<OutboxError>)
      requires Valid()
      modifies `rows
      ensures Valid()
      ensures r == if pause <= 0 then Some(BadArgument) else if old(Holds(c)) then None else Some(LeaseLost)
      ensures r.Some? ==> rows == old(rows)
      ensures r.None? ==> c.id in old(rows) && rows == HaltedRows(old(rows), c, now, pause)
      ensures r.None? ==> HaltLeaves(old(rows), rows, c.id, now, pause)
    {
      if pause <= 0 {
        return Some(BadArgument);
      }
      if !Holds(c) {
        return Some(LeaseLost);
      }
      HaltMeans(rows, c, now, pause);
      HaltKeeps(rows, recs, next, c, now, pause);
      rows := HaltedRows(rows, c, now, pause);
      return None;
    }

    /** Release: the row is free at once, and its attempt is given back. */
    method Release(c: Claimed) returns (r: Option<OutboxError>)
      requires Valid()
      modifies `rows
      ensures Valid()
      ensures r == if old(Holds(c)) then None else Some(LeaseLost)
      ensures rows == if r.None? then old(rows)[c.id := ReleasedRow(old(rows)[c.id])] else old(rows)
      ensures r.None? ==> ReleaseLeaves(old(rows), rows, c.id)
    {
      if !Holds(c) {
        return Some(LeaseLost);
      }
      ReleaseMeans(rows, c);
      StayKeeps(rows, recs, next, c, ReleasedRow(rows[c.id]));
      rows := rows[c.id := ReleasedRow(rows[c.id])];
      return None;
    }

    /** Replay: a dead row, or a delivered row with a dead record, goes to the back of its queue with its dead
        records waiting again; nothing else can be replayed. */
    method Replay(tenant: Text, id: RowId) returns (r: Option<OutboxError>)
      requires Valid()
      modifies `rows, `recs, `next
      ensures Valid()
      ensures r == if ReplayAllowed(old(rows), old(recs), tenant, id) then None else Some(NotFound)
      ensures r.Some? ==> rows == old(rows) && recs == old(recs)
      ensures r.None? ==>
        && id in old(rows) && id in old(recs)
        && rows == ReplayedRows(old(rows), id, old(next).place, old(now))
        && recs == old(recs)[id := Revive(old(recs)[id])]
      ensures next.token == old(next).token
      ensures r.None? ==> ReplayLeaves(old(rows), rows, id, old(now)) && RecordsRevive(old(recs)[id], recs[id])
    {
      ReplayableMeans(rows, recs, id);
      if !(id in rows && rows[id].key.tenant == tenant && Replayable(Db(rows, recs, map[]), id)) {
        return Some(NotFound);
      }
      rows, recs, next := PutBack(rows, recs, next, id, now);
      return None;
    }

    /** StrandedKeys: keys of the tenant with unfinished rows and no head, all of them if there are fewer than
        asked for. */
    method StrandedKeys(tenant: Text, limit: int) returns (r: Result<set<Key>, OutboxError>)
      ensures r.Err? <==> limit <= 0
      ensures r.Ok? ==> forall key :: key in r.value ==> key.tenant == tenant && Stranded(rows, key)
      ensures r.Ok? ==> |r.value| <= limit && |r.value| <= 1000
      ensures r.Ok? && |r.value| < limit && |r.value| < 1000 ==> forall key: Key :: key.tenant == tenant && Stranded(rows, key) ==> key in r.value
    {
      if limit <= 0 {
        return Err(BadArgument);
      }
      var keys: set<Key> := {};
      var left := rows.Keys;
      while left != {} && |keys| < AtMost(limit)
        invariant left <= rows.Keys && |keys| <= AtMost(limit)
        invariant forall key :: key in keys ==> key.tenant == tenant && Stranded(rows, key)
        invariant forall id :: id in rows && id !in left && rows[id].Unfinished() && rows[id].key.tenant == tenant && Stranded(rows, rows[id].key)
                    ==> rows[id].key in keys
        decreases |left|
      {
        var id :| id in left;
        left := left - {id};
        if rows[id].key.tenant == tenant && rows[id].Unfinished() && !rows[id].isHead
           && !(exists h :: h in rows && rows[h].key == rows[id].key && rows[h].isHead) {
          keys := keys + {rows[id].key};
        }
      }
      return Ok(keys);
    }

    /** And under the outbox's own transactions there are none. */
    lemma NoKeyIsStranded(key: Key)
      requires Valid()
      ensures !Stranded(rows, key)
    {
      NothingStranded(rows, key);
    }
  }

  /** The row becomes prepared, with these records after those it had. */
  predicate PreparesRow(was: Rows, wasRecs: map<RowId, seq<Rec>>, c: Claimed, ids: seq<RecordId>, rows: Rows, recs: map<RowId, seq<Rec>>)
    requires c.id in was && c.id in wasRecs
  {
    rows == was[c.id := PreparedRow(was[c.id])] && recs == wasRecs[c.id := wasRecs[c.id] + Stored(ids)]
  }

  /** What Retry leaves of the table. */
  function RetriedRows(rows: Rows, c: Claimed, now: int, delay: int): Rows
    requires c.id in rows
  {
    rows[c.id := RetriedRow(rows[c.id], now + delay)]
  }

  lemma RetryKeeps(rows: Rows, recs: map<RowId, seq<Rec>>, next: Counters, c: Claimed, now: int, delay: int)
    requires TablesOk(rows, recs, next) && c.id in rows && rows[c.id].Guard(c.token)
    ensures TablesOk(RetriedRows(rows, c, now, delay), recs, next)
  {
    StayKeeps(rows, recs, next, c, RetriedRow(rows[c.id], now + delay));
  }

  lemma HaltKeeps(rows: Rows, recs: map<RowId, seq<Rec>>, next: Counters, c: Claimed, now: int, pause: int)
    requires TablesOk(rows, recs, next) && c.id in rows && rows[c.id].Guard(c.token)
    ensures TablesOk(HaltedRows(rows, c, now, pause), recs, next)
  {
    HolderWasCharged(rows, c.id, c.token, now + pause);
    StayKeeps(rows, recs, next, c, HaltedRow(rows[c.id], now + pause));
  }

  /** What Halt leaves of the table. */
  function HaltedRows(rows: Rows, c: Claimed, now: int, pause: int): Rows
    requires c.id in rows
  {
    rows[c.id := HaltedRow(rows[c.id], now + pause)]
  }

  /** The table after a held row failed. */
  ghost function FailedRows(rows: Rows, ladder: Ladder, c: Claimed, now: int): Rows
    requires c.id in rows
  {
    match Next(ladder, c.attempt)
    case Some(delay) => RetriedRows(rows, c, now, delay)
    case None => Queue.Finish(rows, c.id, Dead)
  }

  predicate ProviderOk(provider: Text) {
    RecordIds.CheckPart(provider).None? && Utf8.Storable(provider)
  }

  lemma FinishedPlaces(rows: Rows, id: RowId, to: RowState)
    requires QueueOk(rows) && id in rows
    ensures PlacesDistinct(rows[id := FinishedRow(rows[id], to)])
    ensures Promote(rows[id := FinishedRow(rows[id], to)], rows[id].key) == Queue.Finish(rows, id, to)
  {
  }
}
