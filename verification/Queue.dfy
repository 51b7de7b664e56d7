/** The rows of the `outbox` table and the statements that move them (internal/outbox).

    A row is unfinished while it is pending or prepared. The head of a queue is the unfinished row with
    the lowest `seq`; the marker is a stored column, so that it is right is something to prove. */
module Queue {
  import opened Names

  datatype RowState = Pending | Prepared | Delivered | Dead

  datatype Lease = Free | Held(token: Token, until: int)

  datatype Row = Row(
    key: Key,
    provider: Text,
    delivery: DeliveryId,
    place: nat,
    state: RowState,
    isHead: bool,
    attempts: int,
    nextAttempt: int,
    lease: Lease,
    wasPrepared: bool)
  {
    predicate Unfinished() {
      state == Pending || state == Prepared
    }

    /** The generated column `due_at`: the later of the backoff and the lease end. */
    function DueAt(): int {
      if lease.Held? && lease.until > nextAttempt then lease.until else nextAttempt
    }

    predicate HeldBy(token: Token) {
      lease.Held? && lease.token == token
    }

    /** The guard of every lease-guarded transition. */
    predicate Guard(token: Token) {
      HeldBy(token) && Unfinished()
    }
  }

  type Rows = map<RowId, Row>

  // ---- Statements ----------------------------------------------------------------------------

  /** `EXISTS (... state IN ('pending', 'prepared'))` for one queue. */
  predicate Busy(rows: Rows, key: Key) {
    exists id :: id in rows && rows[id].key == key && rows[id].Unfinished()
  }

  /** `id` is the row that `ORDER BY seq LIMIT 1` over the unfinished rows of its queue selects. */
  predicate IsLowest(rows: Rows, id: RowId) {
    && id in rows
    && rows[id].Unfinished()
    && forall other :: other in rows && rows[other].key == rows[id].key && rows[other].Unfinished()
         ==> rows[id].place <= rows[other].place
  }

  /** The row an Accept inserts. */
  function AcceptedRow(rows: Rows, key: Key, provider: Text, delivery: DeliveryId, place: nat, now: int): Row {
    Row(key, provider, delivery, place, Pending, !Busy(rows, key), 0, now, Free, false)
  }

  /** What Replay's UPDATE makes of a finished row. */
  function ReplayedRow(rows: Rows, row: Row, place: nat, now: int): Row {
    row.(place := place,
         state := if row.wasPrepared then Prepared else Pending,
         isHead := !Busy(rows, row.key),
         attempts := 0,
         nextAttempt := now)
  }

  /** What MarkDelivered's and MarkDead's UPDATE make of a row. */
  function FinishedRow(row: Row, to: RowState): Row {
    row.(state := to, isHead := false, lease := Free)
  }

  /** What Claim's UPDATE makes of one row. */
  function ClaimedRow(row: Row, token: Token, until: int): Row {
    row.(lease := Held(token, until), attempts := row.attempts + 1)
  }

  function Greatest(a: int, b: int): int {
    if a < b then b else a
  }

  function HaltedRow(row: Row, next: int): Row {
    row.(nextAttempt := next, lease := Free, attempts := Greatest(row.attempts - 1, 0))
  }

  function ReleasedRow(row: Row): Row {
    row.(lease := Free, attempts := Greatest(row.attempts - 1, 0))
  }

  function RetriedRow(row: Row, next: int): Row {
    row.(nextAttempt := next, lease := Free)
  }

  function PreparedRow(row: Row): Row {
    row.(state := Prepared, wasPrepared := true)
  }

  /** The id PromoteNextHead's subquery returns. */
  ghost function NextHead(rows: Rows, key: Key): (id: RowId)
    requires Busy(rows, key)
    ensures IsLowest(rows, id) && rows[id].key == key
  {
    LowestExists(rows, key);
    var id :| IsLowest(rows, id) && rows[id].key == key;
    id
  }

  ghost function Promote(rows: Rows, key: Key): Rows {
    if Busy(rows, key) then
      var id := NextHead(rows, key);
      rows[id := rows[id].(isHead := true)]
    else
      rows
  }

  /** finishIn without its lock: the guarded state change, then the promotion. */
  ghost function Finish(rows: Rows, id: RowId, to: RowState): Rows
    requires id in rows
  {
    Promote(rows[id := FinishedRow(rows[id], to)], rows[id].key)
  }

  function Claim(rows: Rows, ids: set<RowId>, token: Token, until: int): Rows {
    map id | id in rows :: if id in ids then ClaimedRow(rows[id], token, until) else rows[id]
  }

  // ---- What every committed table satisfies ----------------------------------------------------

  /** The marker is on exactly the lowest unfinished row of each queue. */
  ghost predicate HeadsAreLowest(rows: Rows) {
    forall id {:trigger IsLowest(rows, id)} {:trigger rows[id].isHead} :: id in rows ==> (rows[id].isHead <==> IsLowest(rows, id))
  }

  ghost predicate PlacesDistinct(rows: Rows) {
    forall a, b :: a in rows && b in rows && rows[a].key == rows[b].key && rows[a].place == rows[b].place ==> a == b
  }

  /** A lease is held only on a head, and only after a claim was charged to the row. */
  ghost predicate LeasesOnHeads(rows: Rows) {
    forall id :: id in rows ==> LeaseOk(rows[id])
  }

  ghost predicate LeaseOk(row: Row) {
    row.attempts >= 0 && (row.lease.Held? ==> row.isHead && row.attempts >= 1)
  }

  ghost predicate DeliveriesDistinct(rows: Rows) {
    forall a, b :: a in rows && b in rows && rows[a].key.tenant == rows[b].key.tenant && rows[a].delivery == rows[b].delivery
      ==> a == b
  }

  ghost predicate QueueOk(rows: Rows) {
    HeadsAreLowest(rows) && PlacesDistinct(rows) && LeasesOnHeads(rows) && DeliveriesDistinct(rows)
  }

  /** A fresh `seq` is above every one its queue has used. */
  ghost predicate FreshPlace(rows: Rows, key: Key, place: nat) {
    forall id :: id in rows && rows[id].key == key ==> rows[id].place < place
  }

  predicate FreshDelivery(rows: Rows, tenant: Text, delivery: DeliveryId) {
    forall id :: id in rows ==> !(rows[id].key.tenant == tenant && rows[id].delivery == delivery)
  }

  // ---- Lemmas ----------------------------------------------------------------------------------

  /** A busy queue has a lowest unfinished row. */
  lemma {:induction false} LowestExists(rows: Rows, key: Key)
    requires Busy(rows, key)
    ensures exists id :: IsLowest(rows, id) && rows[id].key == key
  {
    var start :| start in rows && rows[start].key == key && rows[start].Unfinished();
    var id := LowestFrom(rows, start);
  }

  lemma LowestFrom(rows: Rows, start: RowId) returns (id: RowId)
    requires start in rows && rows[start].Unfinished()
    ensures IsLowest(rows, id) && rows[id].key == rows[start].key
    decreases rows[start].place
  {
    if other :| other in rows && rows[other].key == rows[start].key && rows[other].Unfinished()
                && rows[other].place < rows[start].place {
      id := LowestFrom(rows, other);
    } else {
      id := start;
    }
  }

  /** Two rows that are both lowest in one queue are one row. */
  lemma LowestUnique(rows: Rows, a: RowId, b: RowId)
    requires PlacesDistinct(rows)
    requires IsLowest(rows, a) && IsLowest(rows, b) && rows[a].key == rows[b].key
    ensures a == b
  {
  }

  /** The fields of a row that its queue depends on. */
  ghost predicate SameInQueue(a: Row, b: Row) {
    && a.key == b.key
    && a.place == b.place
    && a.isHead == b.isHead
    && a.Unfinished() == b.Unfinished()
    && a.delivery == b.delivery
  }

  /** A statement that changes no queue field (claim, halt, retry, release, prepare) keeps the table. */
  lemma SameQueueKeeps(rows: Rows, rows': Rows)
    requires QueueOk(rows)
    requires rows.Keys == rows'.Keys
    requires forall id :: id in rows ==> SameInQueue(rows[id], rows'[id]) && LeaseOk(rows'[id])
    ensures QueueOk(rows')
  {
    forall id | id in rows'
      ensures rows'[id].isHead <==> IsLowest(rows', id)
    {
      assert rows[id].isHead <==> IsLowest(rows, id);
      assert SameInQueue(rows[id], rows'[id]);
      if IsLowest(rows', id) {
        forall other | other in rows && rows[other].key == rows[id].key && rows[other].Unfinished()
          ensures rows[id].place <= rows[other].place
        {
          assert SameInQueue(rows[other], rows'[other]);
        }
      }
    }
    forall a, b | a in rows' && b in rows' && rows'[a].key == rows'[b].key && rows'[a].place == rows'[b].place
      ensures a == b
    {
      assert SameInQueue(rows[a], rows'[a]) && SameInQueue(rows[b], rows'[b]);
    }
    forall a, b | a in rows' && b in rows' && rows'[a].key.tenant == rows'[b].key.tenant
                  && rows'[a].delivery == rows'[b].delivery
      ensures a == b
    {
      assert SameInQueue(rows[a], rows'[a]) && SameInQueue(rows[b], rows'[b]);
    }
  }

  /** A row put at the back of its queue (Accept, Replay) keeps the table. */
  lemma AppendKeeps(rows: Rows, id: RowId, row: Row)
    requires QueueOk(rows)
    requires id in rows ==> rows[id].key == row.key && !rows[id].Unfinished() && rows[id].delivery == row.delivery
    requires id !in rows ==> FreshDelivery(rows, row.key.tenant, row.delivery)
    requires row.Unfinished() && row.lease == Free && row.attempts >= 0 && row.isHead == !Busy(rows, row.key)
    requires FreshPlace(rows, row.key, row.place)
    ensures QueueOk(rows[id := row])
  {
    var rows' := rows[id := row];
    forall x | x in rows'
      ensures rows'[x].isHead <==> IsLowest(rows', x)
    {
      if x != id {
        if IsLowest(rows, x) {
          assert IsLowest(rows', x);
        }
        if IsLowest(rows', x) {
          assert forall other :: other in rows && rows[other].Unfinished() ==> other != id && rows'[other] == rows[other];
          assert IsLowest(rows, x);
        }
      } else if Busy(rows, row.key) {
        var other :| other in rows && rows[other].key == row.key && rows[other].Unfinished();
        assert rows'[other] == rows[other] && rows[other].place < row.place;
      } else {
        assert forall other :: other in rows' && rows'[other].key == row.key && rows'[other].Unfinished() ==> other == id;
      }
    }
  }

  /** Finishing a head and promoting the next row keeps the table. */
  lemma FinishKeeps(rows: Rows, id: RowId, to: RowState)
    requires QueueOk(rows)
    requires id in rows && rows[id].isHead
    requires to == Delivered || to == Dead
    ensures QueueOk(Finish(rows, id, to))
  {
    FinishHeads(rows, id, to);
    FinishFrame(rows, id, to);
    SameNames(rows, Finish(rows, id, to));
  }

  /** Finishing changes the state, marker and lease of one row and the marker of at most one other. */
  lemma FinishFrame(rows: Rows, id: RowId, to: RowState)
    requires id in rows
    ensures var rows' := Finish(rows, id, to);
            && rows'.Keys == rows.Keys
            && rows'[id] == FinishedRow(rows[id], to).(isHead := rows'[id].isHead)
            && (forall x :: x in rows && x != id ==> rows'[x] == rows[x].(isHead := rows'[x].isHead))
            && (forall x :: x in rows && rows[x].isHead && x != id ==> rows'[x].isHead)
            && (forall x :: x in rows && rows[x].key != rows[id].key ==> rows'[x] == rows[x])
  {
  }

  /** What names a row (its queue, its place and its delivery) is unchanged. */
  lemma SameNames(rows: Rows, rows': Rows)
    requires rows'.Keys == rows.Keys
    requires forall x :: x in rows ==> rows'[x].key == rows[x].key && rows'[x].place == rows[x].place && rows'[x].delivery == rows[x].delivery
    requires PlacesDistinct(rows) && DeliveriesDistinct(rows)
    ensures PlacesDistinct(rows') && DeliveriesDistinct(rows')
  {
  }

  lemma FinishHeads(rows: Rows, id: RowId, to: RowState)
    requires HeadsAreLowest(rows) && PlacesDistinct(rows)
    requires id in rows && rows[id].isHead
    requires to == Delivered || to == Dead
    ensures HeadsAreLowest(Finish(rows, id, to))
  {
    var rows' := Finish(rows, id, to);
    FinishedHead(rows, id, to);
    FinishFrame(rows, id, to);
    forall x | x in rows'
      ensures rows'[x].isHead <==> IsLowest(rows', x)
    {
      if rows[x].key != rows[id].key {
        OtherQueueSame(rows, rows', rows[id].key, x);
      }
    }
  }

  /** In the queue of the finished row the marker moves to the lowest row left, if there is one. */
  lemma FinishedHead(rows: Rows, id: RowId, to: RowState)
    requires HeadsAreLowest(rows) && PlacesDistinct(rows)
    requires id in rows && rows[id].isHead
    requires to == Delivered || to == Dead
    ensures var rows' := Finish(rows, id, to);
            forall x :: x in rows' && rows[x].key == rows[id].key ==> (rows'[x].isHead <==> IsLowest(rows', x))
  {
    var key := rows[id].key;
    var mid := rows[id := FinishedRow(rows[id], to)];
    var rows' := Finish(rows, id, to);
    forall x | x in rows && rows[x].key == key
      ensures !mid[x].isHead
    {
      if x != id && rows[x].isHead {
        LowestUnique(rows, x, id);
      }
    }
    if Busy(mid, key) {
      var n := NextHead(mid, key);
      SameLowest(mid, rows', n);
      assert PlacesDistinct(rows');
      forall x | x in rows' && rows[x].key == key && IsLowest(rows', x)
        ensures x == n
      {
        LowestUnique(rows', x, n);
      }
    }
  }

  lemma OtherQueueSame(rows: Rows, rows': Rows, key: Key, x: RowId)
    requires rows.Keys == rows'.Keys && x in rows && rows[x].key != key
    requires forall id :: id in rows ==> rows'[id].key == rows[id].key
    requires forall id :: id in rows && rows[id].key != key ==> rows'[id] == rows[id]
    ensures IsLowest(rows, x) <==> IsLowest(rows', x)
  {
    if IsLowest(rows', x) {
      forall other | other in rows && rows[other].key == rows[x].key && rows[other].Unfinished()
        ensures rows[x].place <= rows[other].place
      {
        assert rows'[other] == rows[other];
      }
    }
  }

  /** Setting the marker changes no seq and no state, so the lowest row stays the lowest. */
  lemma SameLowest(rows: Rows, rows': Rows, n: RowId)
    requires n in rows && rows' == rows[n := rows[n].(isHead := true)]
    ensures forall x :: IsLowest(rows, x) <==> IsLowest(rows', x)
  {
    forall x
      ensures IsLowest(rows, x) <==> IsLowest(rows', x)
    {
      if IsLowest(rows', x) {
        forall other | other in rows && rows[other].key == rows[x].key && rows[other].Unfinished()
          ensures rows[x].place <= rows[other].place
        {
          assert rows'[other].place == rows[other].place && rows'[other].Unfinished();
        }
      }
    }
  }

  // ---- What the statements mean, column by column ---------------------------------------------------

  /** Held under the token, and neither delivered nor dead. */
  lemma GuardMeans(row: Row, token: Token)
    ensures row.Guard(token) <==> (exists until :: row.lease == Held(token, until)) && row.state != Delivered && row.state != Dead
  {
    if row.lease.Held? {
      assert row.lease == Held(row.lease.token, row.lease.until);
    }
  }

  /** A row is due from the moment that its backoff has passed and its lease, if it has one, has run out. */
  lemma DueMeans(row: Row, t: int)
    ensures row.DueAt() <= t <==> row.nextAttempt <= t && (row.lease.Held? ==> row.lease.until <= t)
  {
  }

  /** What nothing but an Accept or a Replay settles. */
  predicate SameStanding(a: Row, b: Row) {
    a.key == b.key && a.provider == b.provider && a.delivery == b.delivery && a.place == b.place && a.wasPrepared == b.wasPrepared
  }

  /** The row is free and waits for this moment at the head of its queue, charged with so many attempts. */
  predicate WaitsUntil(before: Row, after: Row, t: int, attempts: int) {
    && SameStanding(before, after) && after.state == before.state && after.isHead == before.isHead
    && after.lease == Free && after.nextAttempt == t && after.attempts == attempts
  }

  /** The row has ended in this state, and is free and no head. */
  predicate EndedAs(before: Row, after: Row, to: RowState) {
    && SameStanding(before, after) && after.state == to && !after.isHead
    && after.lease == Free && after.nextAttempt == before.nextAttempt && after.attempts == before.attempts
  }

  /** The row is leased to this token until then, and charged one more attempt. */
  predicate LeasedUntil(before: Row, after: Row, token: Token, until: int) {
    && SameStanding(before, after) && after.state == before.state && after.isHead == before.isHead
    && after.lease == Held(token, until) && after.nextAttempt == before.nextAttempt && after.attempts == before.attempts + 1
  }

  /** The row is new in its queue: behind every other row of it, due now, uncharged, and the head exactly if nothing
      else of the queue is unfinished. */
  predicate StartsOver(rows: Rows, id: RowId, after: Row, now: int) {
    && after.lease == Free && after.nextAttempt == now && after.attempts == 0
    && (forall x :: x in rows && x != id && rows[x].key == after.key ==> rows[x].place < after.place)
    && (after.isHead <==> forall x :: x in rows && x != id && rows[x].key == after.key ==> rows[x].state == Delivered || rows[x].state == Dead)
  }

  /** Every other row is as it was. */
  predicate OthersStay(rows: Rows, rows': Rows, id: RowId) {
    rows'.Keys == rows.Keys && forall x :: x in rows && x != id ==> rows'[x] == rows[x]
  }

  /** Every other row is as it was, but for the marker, which is on the lowest unfinished row of the queue. */
  ghost predicate MarkerMoves(rows: Rows, rows': Rows, id: RowId)
    requires id in rows
  {
    && rows'.Keys == rows.Keys
    && (forall x :: x in rows && x != id ==> rows'[x] == rows[x].(isHead := rows'[x].isHead))
    && (forall x :: x in rows' && rows[x].key != rows[id].key ==> rows'[x] == rows[x])
    && (forall x :: x in rows' && rows'[x].key == rows[id].key ==>
          (rows'[x].isHead <==> rows'[x].state != Delivered && rows'[x].state != Dead && NothingBelow(rows', x)))
  }

  /** No unfinished row of its queue has a lower place. */
  predicate NothingBelow(rows: Rows, id: RowId)
    requires id in rows
  {
    forall x :: x in rows && rows[x].key == rows[id].key && rows[x].state != Delivered && rows[x].state != Dead ==> rows[id].place <= rows[x].place
  }

  lemma LowestMeans(rows: Rows, id: RowId)
    requires id in rows
    ensures IsLowest(rows, id) <==> rows[id].state != Delivered && rows[id].state != Dead && NothingBelow(rows, id)
  {
  }

  /** A finish ends its row and moves the marker. */
  lemma FinishEndsRow(rows: Rows, id: RowId, to: RowState)
    requires QueueOk(rows) && id in rows && rows[id].isHead && (to == Delivered || to == Dead)
    ensures var rows' := Finish(rows, id, to);
            id in rows' && EndedAs(rows[id], rows'[id], to) && MarkerMoves(rows, rows', id)
  {
    FinishFrame(rows, id, to);
    FinishHeads(rows, id, to);
    MarkerOnLowest(rows, Finish(rows, id, to), id, to);
  }

  lemma MarkerOnLowest(rows: Rows, rows': Rows, id: RowId, to: RowState)
    requires id in rows && rows'.Keys == rows.Keys && HeadsAreLowest(rows') && (to == Delivered || to == Dead)
    requires rows'[id] == FinishedRow(rows[id], to).(isHead := rows'[id].isHead)
    requires forall x :: x in rows && x != id ==> rows'[x] == rows[x].(isHead := rows'[x].isHead)
    requires forall x :: x in rows && rows[x].key != rows[id].key ==> rows'[x] == rows[x]
    ensures EndedAs(rows[id], rows'[id], to) && MarkerMoves(rows, rows', id)
  {
    LowestMeans(rows', id);
    forall x | x in rows'
      ensures rows'[x].isHead <==> rows'[x].state != Delivered && rows'[x].state != Dead && NothingBelow(rows', x)
    {
      LowestMeans(rows', x);
      assert rows'[x].isHead <==> IsLowest(rows', x);
    }
  }

  // ---- What the invariant gives a reader ---------------------------------------------------------

  /** Every queue with unfinished rows has exactly one head, the unfinished row with the lowest seq. */
  lemma OneHeadPerBusyQueue(rows: Rows, key: Key)
    requires QueueOk(rows)
    ensures Busy(rows, key) <==> exists id :: id in rows && rows[id].key == key && rows[id].isHead
    ensures forall a, b :: a in rows && b in rows && rows[a].key == rows[b].key == key && rows[a].isHead && rows[b].isHead ==> a == b
  {
    if Busy(rows, key) {
      var id := NextHead(rows, key);
      assert rows[id].isHead;
    }
    forall a, b | a in rows && b in rows && rows[a].key == key && rows[b].key == key && rows[a].isHead && rows[b].isHead
      ensures a == b
    {
      LowestUnique(rows, a, b);
    }
  }

  /** The StrandedKeys query: queues of a tenant with an unfinished row and no head. */
  ghost predicate Stranded(rows: Rows, key: Key) {
    && (exists id :: id in rows && rows[id].key == key && rows[id].Unfinished() && !rows[id].isHead)
    && !(exists id :: id in rows && rows[id].key == key && rows[id].isHead)
  }

  lemma NothingStranded(rows: Rows, key: Key)
    requires QueueOk(rows)
    ensures !Stranded(rows, key)
  {
    OneHeadPerBusyQueue(rows, key);
  }

  /** At most one row of a queue is leased. */
  lemma OneLeasePerQueue(rows: Rows, a: RowId, b: RowId)
    requires QueueOk(rows)
    requires a in rows && b in rows && rows[a].key == rows[b].key
    requires rows[a].lease.Held? && rows[b].lease.Held?
    ensures a == b
  {
    LowestUnique(rows, a, b);
  }
}
