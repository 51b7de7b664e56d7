/** The record ledger as an object: the statements on record_ledger, admit, and the loop of Prepare over one
    delivery (internal/pipeline/ledger.go, internal/pipeline/pipeline.go). */
module LedgerStore {
  import opened Names
  import opened Lists
  import opened Ledger

  /** A record to deliver, and the record it supersedes. */
  datatype Linked = Linked(id: RecordId, supersedes: Option<RecordId>)

  /** What Prepare reports about one delivery. */
  datatype Prepared = Prepared(records: seq<Linked>, skipped: nat, stale: nat, scopeReturned: nat, versionUnordered: nat)

  /** What is decided about each record of a delivery, up to the first refusal. */
  ghost function Decisions(t: Table, compare: Compare, rs: seq<RecordId>): seq<Admission> {
    if rs == [] then []
    else
      var before := AdmitAll(t, compare, rs[..|rs| - 1]);
      Decisions(t, compare, rs[..|rs| - 1]) + if before.Admitted? then [Decide(before.table, compare, rs[|rs| - 1])] else []
  }

  function Times(s: seq<Admission>, what: Admission): nat {
    if s == [] then 0 else Times(s[..|s| - 1], what) + if s[|s| - 1] == what then 1 else 0
  }

  /** The report counts the decisions. */
  ghost predicate Counts(out: Prepared, decisions: seq<Admission>) {
    && |out.records| == Times(decisions, Prepare) && out.skipped == Times(decisions, Skip) && out.stale == Times(decisions, Stale)
    && out.scopeReturned == Times(decisions, ScopeReturned) && out.versionUnordered == Times(decisions, VersionUnordered)
  }

  function Counted(out: Prepared, what: Admission, linked: Linked): Prepared {
    match what
    case Prepare => out.(records := out.records + [linked])
    case Skip => out.(skipped := out.skipped + 1)
    case Stale => out.(stale := out.stale + 1)
    case ScopeReturned => out.(scopeReturned := out.scopeReturned + 1)
    case VersionUnordered => out.(versionUnordered := out.versionUnordered + 1)
  }

  lemma CountOne(out: Prepared, decisions: seq<Admission>, what: Admission, linked: Linked)
    requires Counts(out, decisions)
    ensures Counts(Counted(out, what, linked), decisions + [what])
  {
    assert (decisions + [what])[..|decisions|] == decisions;
  }

  /** The links reported are the links stored. */
  predicate LinksStored(t: Table, records: seq<Linked>) {
    forall i :: 0 <= i < |records| ==> records[i].id in t && t[records[i].id].supersedes == records[i].supersedes
  }

  function IdsOf(records: seq<Linked>): seq<RecordId> {
    seq(|records|, i requires 0 <= i < |records| => records[i].id)
  }

  /** Linking another record changes no stored link. */
  lemma LinkKeepsLinks(t: Table, r: RecordId, records: seq<Linked>)
    requires LinksStored(t, records) && r !in t
    ensures LinksStored(Link(t, r), records + [Linked(r, HeadOf(t, r.entity))])
  {
    forall i | 0 <= i < |records|
      ensures records[i].id in Link(t, r) && Link(t, r)[records[i].id].supersedes == records[i].supersedes
    {
      LinkRow(t, r, records[i].id);
    }
  }

  /** An entity's chain has one head, so whichever row the query returns is the head. */
  lemma HeadIsFound(compare: Compare, t: Table, e: Entity, found: Option<RecordId>)
    requires HasPath(compare, t, e)
    requires found.None? ==> Heads(t, e) == {}
    requires found.Some? ==> found.value in Heads(t, e)
    ensures found == HeadOf(t, e)
  {
    var path :| IsPath(compare, t, e, path);
    HeadIsLast(t, e, path);
    if found.Some? {
      assert found.value in path;
    }
  }

  lemma AdmitMeans(compare: Compare, t: Table, r: RecordId)
    requires ChainsOk(compare, t)
    ensures IsDecision(t, compare, r, Decide(t, compare, r)) && IsLinked(t, Link(t, r), r)
    ensures forall h :: HeadOf(t, r.entity) == Some(h) <==> IsHeadRow(t, r.entity, h)
  {
    DecideIsDecision(compare, t, r);
    LinkIsLinked(compare, t, r);
    forall h
      ensures HeadOf(t, r.entity) == Some(h) <==> IsHeadRow(t, r.entity, h)
    {
      OnlyHeadRow(compare, t, r.entity, h);
    }
  }

  class RecordLedger {
    const compare: Compare
    var table: Table

    /** Every entity's rows are one forward chain with one head. */
    ghost predicate Valid()
      reads this
    {
      ChainsOk(compare, table)
    }

    constructor (compare: Compare)
      ensures Valid() && table == map[] && this.compare == compare
    {
      this.compare, table := compare, map[];
      new;
      forall e
        ensures HasPath(compare, map[], e)
      {
        assert IsPath(compare, map[], e, []);
      }
    }

    /** EntityHead. */
    method EntityHead(e: Entity) returns (head: Option<RecordId>)
      requires Valid()
      ensures head == HeadOf(table, e)
    {
      head := None;
      var left := table.Keys;
      while left != {} && head.None?
        invariant left <= table.Keys
        invariant head.None? ==> forall id :: id in table && id !in left ==> id !in Heads(table, e)
        invariant head.Some? ==> head.value in Heads(table, e)
        decreases |left|
      {
        var id :| id in left;
        left := left - {id};
        if id.entity == e && table[id].isHead {
          head := Some(id);
        }
      }
      assert HasPath(compare, table, e);
      HeadIsFound(compare, table, e, head);
    }

    /** admit: the decision, and for a record that is to be delivered its ledger row, linked to the entity's
        head, which it replaces. Every other decision writes nothing. */
    method Admit(r: RecordId) returns (what: Admission, supersedes: Option<RecordId>)
      requires Valid()
      modifies `table
      ensures Valid()
      ensures what == Decide(old(table), compare, r) && supersedes == HeadOf(old(table), r.entity)
      ensures table == if what == Admission.Prepare then Link(old(table), r) else old(table)
      ensures IsDecision(old(table), compare, r, what)
      ensures forall h :: supersedes == Some(h) <==> IsHeadRow(old(table), r.entity, h)
      ensures what == Admission.Prepare ==> IsLinked(old(table), table, r)
    {
      AdmitMeans(compare, table, r);
      var head := EntityHead(r.entity);
      supersedes := head;
      if r in table {
        if !table[r].isHead && head.Some? && head.value.scope != r.scope {
          return ScopeReturned, head;
        }
        return Skip, head;
      }
      if head.Some? {
        var order := compare(r.entity.provider, r.version, head.value.version);
        if order.None? {
          return VersionUnordered, head;
        }
        if order.value < 0 {
          return Stale, head;
        }
      }
      LinkKeeps(compare, table, r);
      DemoteNothing(table, r.entity);
      if head.Some? {
        table := Demote(table, r.entity);
      }
      table := table[r := Entry(head, true)];
      return Admission.Prepare, head;
    }

    /** Prepare's loop: the delivery is admitted record by record in order, and either all of it is written or,
        at the first refusal, none of it; and the report counts every decision made, a refusal included. */
    method Prepare(records: seq<RecordId>) returns (out: Prepared, refused: Option<Admission>)
      requires Valid()
      modifies `table
      ensures Valid()
      ensures var b := AdmitAll(old(table), compare, records);
              refused == if b.Refused? then Some(b.why) else None
      ensures refused.None? ==> Delivers(old(table), table, records, out)
      ensures refused.Some? ==> table == old(table) && out.records == [] && out.scopeReturned + out.versionUnordered == 1
      ensures refused.None? ==> forall r :: r in records ==> r in old(table) || r in IdsOf(out.records) || HeldBack(compare, table, r)
      ensures refused.None? ==> table.Keys == old(table).Keys + (set r | r in IdsOf(out.records))
      ensures refused.None? ==> InOrderOf(records, IdsOf(out.records)) && Distinct(IdsOf(out.records)) && forall r :: r in IdsOf(out.records) ==> r !in old(table)
    {
      var before := table;
      out := Prepared([], 0, 0, 0, 0);
      assert records[..0] == [];
      for i := 0 to |records|
        invariant Valid() && out.scopeReturned == 0 && out.versionUnordered == 0
        invariant Delivers(before, table, records[..i], out)
      {
        ghost var t := table;
        var what, supersedes := Admit(records[i]);
        AdmitNext(before, compare, records, i);
        DeliversOne(before, t, records, i, out, what);
        out := Counted(out, what, Linked(records[i], supersedes));
        if what == ScopeReturned || what == VersionUnordered {
          table := before;
          RefusedStays(before, records, i + 1);
          return out.(records := []), Some(what);
        }
      }
      assert records[..|records|] == records;
      AccountsFor(before, records);
      return out, None;
    }

    /** The delivery's records are admitted: the ledger is what admitting them all leaves, and the report gives
        the prepared records in order with the links that are stored, and counts the rest. */
    ghost predicate Delivers(was: Table, t: Table, records: seq<RecordId>, out: Prepared) {
      var b := AdmitAll(was, compare, records);
      && b.Admitted? && t == b.table && IdsOf(out.records) == b.prepared
      && LinksStored(t, out.records) && Counts(out, Decisions(was, compare, records))
    }

    /** Every record of an admitted delivery was known, is prepared, or is held back; and what is prepared is new. */
    lemma AccountsFor(was: Table, records: seq<RecordId>)
      requires ChainsOk(compare, was) && AdmitAll(was, compare, records).Admitted?
      ensures var b := AdmitAll(was, compare, records);
              && (forall r :: r in records ==> r in was || r in b.prepared || HeldBack(compare, b.table, r))
              && b.table.Keys == was.Keys + (set r | r in b.prepared) && Distinct(b.prepared)
              && (forall r :: r in b.prepared ==> r !in was) && InOrderOf(records, b.prepared)
    {
      PreparedInOrder(compare, was, records);
      AdmitAllAdds(was, compare, records);
      forall r | r in records
        ensures r in was || r in AdmitAll(was, compare, records).prepared || HeldBack(compare, AdmitAll(was, compare, records).table, r)
      {
        AdmittedOrHeldBack(compare, was, records, r);
      }
    }

    lemma DeliversOne(was: Table, t: Table, records: seq<RecordId>, i: nat, out: Prepared, what: Admission)
      requires i < |records| && Delivers(was, t, records[..i], out) && what == Decide(t, compare, records[i])
      ensures var linked := Linked(records[i], HeadOf(t, records[i].entity));
              if what == ScopeReturned || what == VersionUnordered then AdmitAll(was, compare, records[..i + 1]) == Refused(what)
              else Delivers(was, if what == Admission.Prepare then Link(t, records[i]) else t, records[..i + 1], Counted(out, what, linked))
    {
      var linked := Linked(records[i], HeadOf(t, records[i].entity));
      AdmitNext(was, compare, records, i);
      assert records[..i + 1][..i] == records[..i];
      CountOne(out, Decisions(was, compare, records[..i]), what, linked);
      if what == Admission.Prepare {
        LinkKeepsLinks(t, records[i], out.records);
        assert IdsOf(out.records + [linked]) == IdsOf(out.records) + [records[i]];
      }
    }

    /** Once refused, the rest of the delivery changes nothing. */
    lemma {:induction false} RefusedStays(was: Table, records: seq<RecordId>, n: nat)
      requires n <= |records| && AdmitAll(was, compare, records[..n]).Refused?
      ensures AdmitAll(was, compare, records) == AdmitAll(was, compare, records[..n])
      decreases |records| - n
    {
      if n < |records| {
        AdmitNext(was, compare, records, n);
        RefusedStays(was, records, n + 1);
      } else {
        assert records[..n] == records;
      }
    }
  }

  /** Without a head there is nothing to demote. */
  lemma DemoteNothing(t: Table, e: Entity)
    ensures Heads(t, e) == {} ==> Demote(t, e) == t
    ensures HeadOf(t, e).None? ==> Heads(t, e) == {}
  {
    if Heads(t, e) == {} {
      forall id | id in t && id.entity == e
        ensures !t[id].isHead
      {
        assert id !in Heads(t, e);
      }
    }
  }
}
