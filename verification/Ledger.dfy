/** The `record_ledger` table and what internal/pipeline/ledger.go decides about a record.

    A record id hashes its provider, external id, version, scope and tenant, so a ledger row is fixed by
    its id but for two columns: what it supersedes, and whether it is its entity's newest. */
module Ledger {
  import opened Names
  import opened Lists
  import opened Versions

  datatype Entry = Entry(supersedes: Option<RecordId>, isHead: bool)

  type Table = map<RecordId, Entry>

  /** How two versions of a provider's entities compare, for the pairs that can be compared. The program
      uses `ByOrder` below; the chain needs only that the comparison is an order. */
  type Compare = c: (Text, Text, Text) -> Option<int> | Lawful(c) ghost witness (p: Text, v: Text, head: Text) => None

  ghost predicate Lawful(compare: (Text, Text, Text) -> Option<int>) {
    forall p, a, b, c {:trigger compare(p, a, b), compare(p, b, c)} ::
      LawfulAt(compare(p, a, b), compare(p, b, a), compare(p, b, c), compare(p, a, c))
  }

  predicate LawfulAt(ab: Option<int>, ba: Option<int>, bc: Option<int>, ac: Option<int>) {
    && ab.Some? == ba.Some?
    && (ab.Some? ==> Sign(ab.value) == -Sign(ba.value))
    && (ab.Some? && bc.Some? && ab.value <= 0 && bc.value <= 0 ==> ac.Some? && ac.value <= 0)
  }

  /** compareVersions under the order each provider declared, as the registry validated it. */
  function ByOrder(orders: Text -> VersionOrder): (Text, Text, Text) -> Option<int> {
    (p: Text, v: Text, head: Text) => CompareVersions(orders(p), v, head)
  }

  lemma ByOrderIsLawful(orders: Text -> VersionOrder)
    ensures Lawful(ByOrder(orders))
  {
    forall p, a, b, c
      ensures var f := ByOrder(orders); LawfulAt(f(p, a, b), f(p, b, a), f(p, b, c), f(p, a, c))
    {
      CompareIsAnOrder(orders(p), a, b, c);
    }
  }

  /** `a` is no newer than `b`. */
  predicate NoNewer(compare: Compare, p: Text, a: Text, b: Text) {
    a == b || (compare(p, a, b).Some? && compare(p, a, b).value <= 0)
  }

  lemma NoNewerTransitive(compare: Compare, p: Text, a: Text, b: Text, c: Text)
    requires NoNewer(compare, p, a, b) && NoNewer(compare, p, b, c)
    ensures NoNewer(compare, p, a, c)
  {
    assert LawfulAt(compare(p, a, b), compare(p, b, a), compare(p, b, c), compare(p, a, c));
  }

  lemma NotOlderIsNoNewer(compare: Compare, p: Text, a: Text, b: Text)
    requires compare(p, a, b).Some? && compare(p, a, b).value >= 0
    ensures NoNewer(compare, p, b, a)
  {
    assert LawfulAt(compare(p, a, b), compare(p, b, a), compare(p, b, a), compare(p, a, a));
  }

  datatype Admission = Prepare | Skip | Stale | ScopeReturned | VersionUnordered

  // ---- The code --------------------------------------------------------------------------------

  /** The rows EntityHead selects. */
  function Heads(t: Table, e: Entity): set<RecordId> {
    set id | id in t && id.entity == e && t[id].isHead
  }

  ghost function PickOne(s: set<RecordId>): (id: RecordId)
    requires s != {}
    ensures id in s
  {
    var id :| id in s; id
  }

  ghost function HeadOf(t: Table, e: Entity): (head: Option<RecordId>)
    ensures head.Some? ==> head.value in t && head.value.entity == e && t[head.value].isHead
  {
    if Heads(t, e) == {} then None else Some(PickOne(Heads(t, e)))
  }

  /** admit, up to its writes. */
  ghost function Decide(t: Table, compare: Compare, r: RecordId): Admission {
    var head := HeadOf(t, r.entity);
    if r in t then
      if !t[r].isHead && head.Some? && head.value.scope != r.scope then ScopeReturned else Skip
    else if head.None? then
      Prepare
    else
      var c := compare(r.entity.provider, r.version, head.value.version);
      if c.None? then VersionUnordered else if c.value < 0 then Stale else Prepare
  }

  /** DemoteEntityHead. */
  function Demote(t: Table, e: Entity): Table {
    map id | id in t :: if id.entity == e then t[id].(isHead := false) else t[id]
  }

  /** DemoteEntityHead, then InsertLedgerEntry. */
  ghost function Link(t: Table, r: RecordId): Table {
    Demote(t, r.entity)[r := Entry(HeadOf(t, r.entity), true)]
  }

  /** What Prepare's loop over the records of one delivery leaves: `prepared` in order, and every id it
      admitted or held back as stale. A refusal rolls the delivery back. */
  datatype Batch = Refused(why: Admission) | Admitted(table: Table, prepared: seq<RecordId>, decided: set<RecordId>)

  ghost function Admit(b: Batch, compare: Compare, r: RecordId): Batch {
    if b.Refused? then b
    else
      match Decide(b.table, compare, r)
      case Prepare => Admitted(Link(b.table, r), b.prepared + [r], b.decided + {r})
      case Skip => b
      case Stale => b.(decided := b.decided + {r})
      case why => Refused(why)
  }

  ghost function AdmitAll(t: Table, compare: Compare, rs: seq<RecordId>): Batch {
    if rs == [] then Admitted(t, [], {})
    else Admit(AdmitAll(t, compare, rs[..|rs| - 1]), compare, rs[|rs| - 1])
  }

  /** One more record is one more step of the loop. */
  lemma AdmitNext(t: Table, compare: Compare, rs: seq<RecordId>, n: nat)
    requires n < |rs|
    ensures AdmitAll(t, compare, rs[..n + 1]) == Admit(AdmitAll(t, compare, rs[..n]), compare, rs[n])
  {
    assert rs[..n + 1][..n] == rs[..n];
  }

  // ---- The chain -------------------------------------------------------------------------------

  /** `path` is the supersede chain of `e`, oldest first: every row of the entity once, each superseding
      the one before it, the last the only head, and versions never going back. */
  ghost predicate IsPath(compare: Compare, t: Table, e: Entity, path: seq<RecordId>) {
    Links(t, e, path) && Rising(compare, e.provider, path)
  }

  ghost predicate Links(t: Table, e: Entity, path: seq<RecordId>) {
    && (forall k :: 0 <= k < |path| ==> path[k] in t && path[k].entity == e)
    && (forall id :: id in t && id.entity == e ==> id in path)
    && Distinct(path)
    && (forall k :: 0 <= k < |path| ==> t[path[k]] == Entry(Before(path, k), k == |path| - 1))
  }

  ghost predicate Rising(compare: Compare, p: Text, path: seq<RecordId>) {
    forall j, k :: 0 <= j < k < |path| ==> NoNewer(compare, p, path[j].version, path[k].version)
  }

  function Before(path: seq<RecordId>, k: nat): Option<RecordId>
    requires k < |path|
  {
    if k == 0 then None else Some(path[k - 1])
  }

  ghost predicate HasPath(compare: Compare, t: Table, e: Entity) {
    exists path :: IsPath(compare, t, e, path)
  }

  ghost predicate ChainsOk(compare: Compare, t: Table) {
    forall e :: HasPath(compare, t, e)
  }

  /** Nothing that was admitted or held back is newer than its entity's head. */
  ghost predicate HeadIsNewest(compare: Compare, t: Table, decided: set<RecordId>) {
    forall r :: r in decided ==> BelowHead(compare, t, r)
  }

  ghost predicate BelowHead(compare: Compare, t: Table, r: RecordId) {
    var head := HeadOf(t, r.entity);
    head.Some? && NoNewer(compare, r.entity.provider, r.version, head.value.version)
  }

  /** The head read by EntityHead is the end of the path. */
  lemma HeadIsLast(t: Table, e: Entity, path: seq<RecordId>)
    requires Links(t, e, path)
    ensures HeadOf(t, e) == if path == [] then None else Some(path[|path| - 1])
  {
    HeadsOnPath(t, e, path);
  }

  lemma HeadsOnPath(t: Table, e: Entity, path: seq<RecordId>)
    requires Links(t, e, path)
    ensures Heads(t, e) == if path == [] then {} else {path[|path| - 1]}
  {
    forall id | id in t && id.entity == e
      ensures t[id].isHead <==> id == path[|path| - 1]
    {
      var k :| 0 <= k < |path| && path[k] == id;
    }
    if path != [] {
      assert path[|path| - 1] in Heads(t, e);
    }
  }

  lemma LinkExtends(compare: Compare, t: Table, path: seq<RecordId>, r: RecordId)
    requires IsPath(compare, t, r.entity, path)
    requires Decide(t, compare, r) == Prepare
    ensures IsPath(compare, Link(t, r), r.entity, path + [r])
  {
    HeadIsLast(t, r.entity, path);
    LinkLinks(t, path, r);
    if path != [] {
      RisingExtends(compare, r.entity.provider, path, r);
    }
  }

  lemma LinkLinks(t: Table, path: seq<RecordId>, r: RecordId)
    requires Links(t, r.entity, path) && r !in t
    ensures Links(Link(t, r), r.entity, path + [r])
  {
    var path', t' := path + [r], Link(t, r);
    forall k | 0 <= k < |path'|
      ensures path'[k] in t' && path'[k].entity == r.entity && t'[path'[k]] == Entry(Before(path', k), k == |path'| - 1)
    {
      LinkedRow(t, path, r, k);
    }
    forall id | id in t' && id.entity == r.entity
      ensures id in path'
    {
      LinkedMember(t, path, r, id);
    }
  }

  lemma LinkedRow(t: Table, path: seq<RecordId>, r: RecordId, k: nat)
    requires Links(t, r.entity, path) && r !in t && k <= |path|
    ensures var path', t' := path + [r], Link(t, r);
            path'[k] in t' && path'[k].entity == r.entity && t'[path'[k]] == Entry(Before(path', k), k == |path'| - 1)
  {
    if k < |path| {
      LinkRow(t, r, path[k]);
    } else {
      HeadIsLast(t, r.entity, path);
    }
  }

  lemma LinkedMember(t: Table, path: seq<RecordId>, r: RecordId, id: RecordId)
    requires Links(t, r.entity, path) && id in Link(t, r) && id.entity == r.entity
    ensures id in path + [r]
  {
    if id != r {
      assert id in path;
    }
  }

  lemma LinkRow(t: Table, r: RecordId, id: RecordId)
    requires id in t && id != r
    ensures id in Link(t, r)
    ensures Link(t, r)[id] == if id.entity == r.entity then t[id].(isHead := false) else t[id]
  {
  }

  lemma RisingExtends(compare: Compare, p: Text, path: seq<RecordId>, r: RecordId)
    requires Rising(compare, p, path) && path != []
    requires var c := compare(p, r.version, path[|path| - 1].version); c.Some? && c.value >= 0
    ensures Rising(compare, p, path + [r])
  {
    var last := path[|path| - 1];
    NotOlderIsNoNewer(compare, p, r.version, last.version);
    forall j, k | 0 <= j < k < |path + [r]|
      ensures NoNewer(compare, p, (path + [r])[j].version, (path + [r])[k].version)
    {
      if k == |path| {
        assert j == |path| - 1 || NoNewer(compare, p, path[j].version, last.version);
        NoNewerTransitive(compare, p, path[j].version, last.version, r.version);
      }
    }
  }

  lemma LinkKeepsOthers(compare: Compare, t: Table, e: Entity, path: seq<RecordId>, r: RecordId)
    requires IsPath(compare, t, e, path) && e != r.entity
    ensures IsPath(compare, Link(t, r), e, path)
  {
  }

  lemma LinkKeeps(compare: Compare, t: Table, r: RecordId)
    requires ChainsOk(compare, t)
    requires Decide(t, compare, r) == Prepare
    ensures ChainsOk(compare, Link(t, r))
  {
    forall e
      ensures HasPath(compare, Link(t, r), e)
    {
      assert HasPath(compare, t, e);
      var path :| IsPath(compare, t, e, path);
      if e == r.entity {
        LinkExtends(compare, t, path, r);
      } else {
        LinkKeepsOthers(compare, t, e, path, r);
      }
    }
  }

  /** The head only ever moves to a version that is not older. */
  lemma LinkRaises(compare: Compare, t: Table, r: RecordId, past: RecordId)
    requires ChainsOk(compare, t)
    requires Decide(t, compare, r) == Prepare
    requires BelowHead(compare, t, past)
    ensures BelowHead(compare, Link(t, r), past)
  {
    var e := past.entity;
    assert HasPath(compare, t, e);
    var path :| IsPath(compare, t, e, path);
    HeadIsLast(t, e, path);
    if e == r.entity {
      LinkExtends(compare, t, path, r);
      HeadIsLast(Link(t, r), e, path + [r]);
      var n := |path| - 1;
      assert NoNewer(compare, e.provider, (path + [r])[n].version, (path + [r])[n + 1].version);
      NoNewerTransitive(compare, e.provider, past.version, path[n].version, r.version);
    } else {
      LinkKeepsOthers(compare, t, e, path, r);
      HeadIsLast(Link(t, r), e, path);
    }
  }

  lemma LinkedIsHead(compare: Compare, t: Table, r: RecordId)
    requires ChainsOk(compare, t)
    requires Decide(t, compare, r) == Prepare
    ensures BelowHead(compare, Link(t, r), r)
  {
    assert HasPath(compare, t, r.entity);
    var path :| IsPath(compare, t, r.entity, path);
    LinkExtends(compare, t, path, r);
    HeadIsLast(Link(t, r), r.entity, path + [r]);
  }

  /** One delivery keeps every chain, and leaves no version above its head. */
  lemma {:induction false} AdmitAllKeeps(compare: Compare, t: Table, rs: seq<RecordId>, decided: set<RecordId>)
    requires ChainsOk(compare, t) && HeadIsNewest(compare, t, decided)
    ensures var b := AdmitAll(t, compare, rs);
            b.Admitted? ==> ChainsOk(compare, b.table) && HeadIsNewest(compare, b.table, decided + b.decided)
  {
    if rs != [] {
      var r := rs[|rs| - 1];
      AdmitAllKeeps(compare, t, rs[..|rs| - 1], decided);
      var b := AdmitAll(t, compare, rs[..|rs| - 1]);
      if b.Admitted? {
        match Decide(b.table, compare, r)
        case Prepare =>
          LinkKeeps(compare, b.table, r);
          LinkedIsHead(compare, b.table, r);
          forall past | past in decided + b.decided
            ensures BelowHead(compare, Link(b.table, r), past)
          {
            LinkRaises(compare, b.table, r, past);
          }
        case _ =>
      }
    }
  }

  /** What a delivery adds to the ledger is exactly what it prepared, each id new and once. */
  ghost predicate Adds(t: Table, b: Batch, rs: seq<RecordId>) {
    b.Admitted? ==>
      && b.table.Keys == t.Keys + (set r | r in b.prepared)
      && (forall i :: 0 <= i < |b.prepared| ==> b.prepared[i] !in t && b.prepared[i] in rs)
      && Distinct(b.prepared)
  }

  lemma {:induction false} AdmitAllAdds(t: Table, compare: Compare, rs: seq<RecordId>)
    ensures Adds(t, AdmitAll(t, compare, rs), rs)
  {
    if rs != [] {
      AdmitAllAdds(t, compare, rs[..|rs| - 1]);
      AdmitAdds(t, AdmitAll(t, compare, rs[..|rs| - 1]), compare, rs);
    }
  }

  lemma AdmitAdds(t: Table, b: Batch, compare: Compare, rs: seq<RecordId>)
    requires rs != [] && Adds(t, b, rs[..|rs| - 1])
    ensures Adds(t, Admit(b, compare, rs[|rs| - 1]), rs)
  {
    assert forall x :: x in rs[..|rs| - 1] ==> x in rs;
    if b.Admitted? && Decide(b.table, compare, rs[|rs| - 1]) == Prepare {
      LinkAdds(t, b, rs);
    }
  }

  lemma LinkAdds(t: Table, b: Batch, rs: seq<RecordId>)
    requires rs != [] && b.Admitted? && Adds(t, b, rs) && rs[|rs| - 1] !in b.table
    ensures var r := rs[|rs| - 1]; Adds(t, Admitted(Link(b.table, r), b.prepared + [r], b.decided + {r}), rs)
  {
    var r := rs[|rs| - 1];
    assert Link(b.table, r).Keys == b.table.Keys + {r};
    assert r !in b.prepared by { assert r !in (set x | x in b.prepared); }
    AppendNew(b.prepared, r);
    assert rs[|rs| - 1] in rs;
  }

  lemma AppendNew(p: seq<RecordId>, r: RecordId)
    requires r !in p
    requires Distinct(p)
    ensures Distinct(p + [r])
    ensures (set x | x in p + [r]) == (set x | x in p) + {r}
  {
    forall i, j | 0 <= i < j < |p + [r]|
      ensures (p + [r])[i] != (p + [r])[j]
    {
      if j == |p| {
        assert (p + [r])[i] == p[i] && p[i] in p;
      }
    }
  }

  // ---- What the chain gives a reader -------------------------------------------------------------

  /** On a path, one row is the head and every other row is superseded. */
  lemma PathHeads(t: Table, e: Entity, path: seq<RecordId>, i: nat, j: nat)
    requires Links(t, e, path) && i < |path| && j < |path|
    ensures t[path[i]].isHead && t[path[j]].isHead ==> i == j
    ensures t[path[i]].isHead || exists c :: c in t && c.entity == e && t[c].supersedes == Some(path[i])
  {
    if i + 1 < |path| {
      assert t[path[i + 1]].supersedes == Some(path[i]);
    }
  }

  /** On a path, no two rows supersede the same row, and each supersedes the one before it. */
  lemma PathLinks(t: Table, e: Entity, path: seq<RecordId>, i: nat, j: nat)
    requires Links(t, e, path) && i < |path| && j < |path|
    ensures t[path[i]].supersedes == t[path[j]].supersedes ==> i == j
    ensures t[path[i]].supersedes == Some(path[j]) ==> i == j + 1
  {
  }

  /** One supersedes path per entity: one head, nothing superseded twice, nothing superseding itself. */
  lemma ChainShape(compare: Compare, t: Table, a: RecordId, b: RecordId)
    requires ChainsOk(compare, t) && a in t && b in t && a.entity == b.entity
    ensures t[a].isHead && t[b].isHead ==> a == b
    ensures t[a].supersedes == t[b].supersedes ==> a == b
    ensures t[a].supersedes == Some(b) ==> a != b && !t[b].isHead && NoNewer(compare, a.entity.provider, b.version, a.version)
    ensures t[a].isHead || exists c :: c in t && c.entity == a.entity && t[c].supersedes == Some(a)
  {
    assert HasPath(compare, t, a.entity);
    var path :| IsPath(compare, t, a.entity, path);
    var i, j := PlaceOf(t, a.entity, path, a), PlaceOf(t, a.entity, path, b);
    PathHeads(t, a.entity, path, i, j);
    PathLinks(t, a.entity, path, i, j);
    if i == j + 1 {
      PathHeads(t, a.entity, path, j, i);
    }
  }

  ghost function PlaceOf(t: Table, e: Entity, path: seq<RecordId>, a: RecordId): (i: nat)
    requires Links(t, e, path) && a in t && a.entity == e
    ensures i < |path| && path[i] == a
  {
    var i: nat :| i < |path| && path[i] == a;
    i
  }

  /** admit without its second condition, `!isHead`. */
  ghost function DecideTwoConditions(t: Table, compare: Compare, r: RecordId): Admission {
    var head := HeadOf(t, r.entity);
    if r in t && head.Some? && head.value.scope != r.scope then ScopeReturned else
    if r in t then Skip else Decide(t, compare, r)
  }

  /** The `!isHead` test changes no answer: a known head is its own entity's head, in its own scope. */
  lemma IsHeadTestIsRedundant(compare: Compare, t: Table, r: RecordId)
    requires ChainsOk(compare, t)
    ensures DecideTwoConditions(t, compare, r) == Decide(t, compare, r)
  {
    var head := HeadOf(t, r.entity);
    if r in t && t[r].isHead && head.Some? {
      ChainShape(compare, t, r, head.value);
    }
  }

  // ---- What a decision means -----------------------------------------------------------------------

  /** The row with the entity's head marker. */
  predicate IsHeadRow(t: Table, e: Entity, h: RecordId) {
    h in t && h.entity == e && t[h].isHead
  }

  /** The two versions compare, and `r` is not the older. */
  predicate NotOlder(compare: Compare, r: RecordId, h: RecordId) {
    var c := compare(r.entity.provider, r.version, h.version);
    c.Some? && c.value >= 0
  }

  predicate Older(compare: Compare, r: RecordId, h: RecordId) {
    var c := compare(r.entity.provider, r.version, h.version);
    c.Some? && c.value < 0
  }

  predicate Incomparable(compare: Compare, r: RecordId, h: RecordId) {
    compare(r.entity.provider, r.version, h.version).None?
  }

  /** Every decision, by the record's own row, its entity's head row and how the two versions compare: a record is
      prepared exactly if it is new and not older than its entity's head, if there is one; held back as stale exactly
      if it is new and older; refused exactly if it is new and cannot be compared, or known and its entity has moved
      to a head in another scope; and skipped exactly if it is known otherwise. */
  ghost predicate IsDecision(t: Table, compare: Compare, r: RecordId, what: Admission) {
    && (what == Prepare <==> r !in t && (forall h :: IsHeadRow(t, r.entity, h) ==> NotOlder(compare, r, h)))
    && (what == Stale <==> r !in t && (exists h :: IsHeadRow(t, r.entity, h) && Older(compare, r, h)))
    && (what == VersionUnordered <==> r !in t && (exists h :: IsHeadRow(t, r.entity, h) && Incomparable(compare, r, h)))
    && (what == ScopeReturned <==> r in t && !t[r].isHead && (exists h :: IsHeadRow(t, r.entity, h) && h.scope != r.scope))
    && (what == Skip <==> r in t && (t[r].isHead || forall h :: IsHeadRow(t, r.entity, h) ==> h.scope == r.scope))
  }

  lemma OnlyHeadRow(compare: Compare, t: Table, e: Entity, h: RecordId)
    requires ChainsOk(compare, t)
    ensures IsHeadRow(t, e, h) <==> HeadOf(t, e) == Some(h)
  {
    assert HasPath(compare, t, e);
    var path :| IsPath(compare, t, e, path);
    HeadsOnPath(t, e, path);
    HeadIsLast(t, e, path);
    assert IsHeadRow(t, e, h) <==> h in Heads(t, e);
  }

  lemma DecideIsDecision(compare: Compare, t: Table, r: RecordId)
    requires ChainsOk(compare, t)
    ensures IsDecision(t, compare, r, Decide(t, compare, r))
  {
    forall h
      ensures IsHeadRow(t, r.entity, h) <==> HeadOf(t, r.entity) == Some(h)
    {
      OnlyHeadRow(compare, t, r.entity, h);
    }
    var head := HeadOf(t, r.entity);
    if head.Some? {
      assert IsHeadRow(t, r.entity, head.value);
    }
  }

  /** What linking writes: the record's own row is its entity's head and supersedes the row that was; that row, and
      no other, loses its marker; and nothing else changes. */
  ghost predicate IsLinked(t: Table, t': Table, r: RecordId) {
    && t'.Keys == t.Keys + {r} && t'[r].isHead
    && (forall h :: t'[r].supersedes == Some(h) <==> IsHeadRow(t, r.entity, h))
    && (forall id :: id in t && id != r ==>
          t'[id].supersedes == t[id].supersedes && t'[id].isHead == (t[id].isHead && id.entity != r.entity))
  }

  lemma LinkIsLinked(compare: Compare, t: Table, r: RecordId)
    requires ChainsOk(compare, t)
    ensures IsLinked(t, Link(t, r), r)
  {
    forall h
      ensures IsHeadRow(t, r.entity, h) <==> HeadOf(t, r.entity) == Some(h)
    {
      OnlyHeadRow(compare, t, r.entity, h);
    }
    forall id | id in t && id != r
      ensures Link(t, r)[id] == (if id.entity == r.entity then t[id].(isHead := false) else t[id])
    {
      LinkRow(t, r, id);
    }
  }

  /** A delivery that is admitted leaves out none of its records: each was known already, or was decided upon. */
  lemma {:induction false} AdmitAllAccounts(compare: Compare, t: Table, rs: seq<RecordId>)
    ensures var b := AdmitAll(t, compare, rs); b.Admitted? ==> forall r :: r in rs ==> r in t || r in b.decided
  {
    if rs != [] {
      var init, r := rs[..|rs| - 1], rs[|rs| - 1];
      AdmitAllAccounts(compare, t, init);
      AdmitAllAdds(t, compare, init);
      AdmitAllDecided(compare, t, init);
      assert rs == init + [r];
    }
  }

  /** What is prepared was decided upon. */
  lemma {:induction false} AdmitAllDecided(compare: Compare, t: Table, rs: seq<RecordId>)
    ensures var b := AdmitAll(t, compare, rs); b.Admitted? ==> forall r :: r in b.prepared ==> r in b.decided
  {
    if rs != [] {
      AdmitAllDecided(compare, t, rs[..|rs| - 1]);
    }
  }

  /** A record that is not in the ledger is held back by its entity's head, which it is not newer than. */
  ghost predicate HeldBack(compare: Compare, t: Table, r: RecordId) {
    r !in t && exists h :: IsHeadRow(t, r.entity, h) && NoNewer(compare, r.entity.provider, r.version, h.version)
  }

  /** So each record of an admitted delivery was known, or is prepared, or is held back. */
  lemma AdmittedOrHeldBack(compare: Compare, t: Table, rs: seq<RecordId>, r: RecordId)
    requires ChainsOk(compare, t) && AdmitAll(t, compare, rs).Admitted? && r in rs
    ensures var b := AdmitAll(t, compare, rs); r in t || r in b.prepared || HeldBack(compare, b.table, r)
  {
    var b := AdmitAll(t, compare, rs);
    AdmitAllAccounts(compare, t, rs);
    AdmitAllAdds(t, compare, rs);
    AdmitAllKeeps(compare, t, rs, {});
    if r in b.decided {
      assert r in {} + b.decided;
      assert BelowHead(compare, b.table, r);
      assert IsHeadRow(b.table, r.entity, HeadOf(b.table, r.entity).value);
    }
  }

  /** What is prepared keeps the order of the delivery. */
  lemma {:induction false} PreparedInOrder(compare: Compare, t: Table, rs: seq<RecordId>)
    ensures var b := AdmitAll(t, compare, rs); b.Admitted? ==> InOrderOf(rs, b.prepared)
  {
    if rs == [] {
      assert PickedAt(rs, [], []);
    } else {
      var init, r := rs[..|rs| - 1], rs[|rs| - 1];
      PreparedInOrder(compare, t, init);
      assert rs == init + [r];
      if AdmitAll(t, compare, init).Admitted? {
        PickOneMore(init, AdmitAll(t, compare, init).prepared, r);
      }
    }
  }

  // ---- Only the entities of a delivery matter to it ------------------------------------------------

  /** Two tables with the same rows for these entities. */
  ghost predicate Agree(t: Table, u: Table, es: set<Entity>) {
    forall id: RecordId :: id.entity in es ==> (id in t <==> id in u) && (id in t ==> t[id] == u[id])
  }

  ghost predicate AgreeOutside(t: Table, u: Table, es: set<Entity>) {
    forall id: RecordId :: id.entity !in es ==> (id in t <==> id in u) && (id in t ==> t[id] == u[id])
  }

  lemma SameHead(t: Table, u: Table, es: set<Entity>, e: Entity)
    requires Agree(t, u, es) && e in es
    ensures HeadOf(t, e) == HeadOf(u, e)
  {
    assert Heads(t, e) == Heads(u, e);
  }

  lemma LinkFrame(t: Table, u: Table, es: set<Entity>, r: RecordId)
    requires Agree(t, u, es) && r.entity in es
    ensures Agree(Link(t, r), Link(u, r), es)
    ensures AgreeOutside(t, Link(t, r), es)
  {
    SameHead(t, u, es, r.entity);
  }

  /** A delivery reads and writes only the rows of its own entities. */
  ghost predicate Framed(t: Table, u: Table, es: set<Entity>, a: Batch, b: Batch) {
    && (a.Refused? ==> b == a)
    && (a.Admitted? ==>
      && b.Admitted? && a.prepared == b.prepared && a.decided == b.decided
      && Agree(a.table, b.table, es) && AgreeOutside(t, a.table, es) && AgreeOutside(u, b.table, es))
  }

  lemma {:induction false} AdmitAllFrame(t: Table, u: Table, es: set<Entity>, compare: Compare, rs: seq<RecordId>)
    requires Agree(t, u, es)
    requires forall i :: 0 <= i < |rs| ==> rs[i].entity in es
    ensures Framed(t, u, es, AdmitAll(t, compare, rs), AdmitAll(u, compare, rs))
  {
    if rs != [] {
      AdmitAllFrame(t, u, es, compare, rs[..|rs| - 1]);
      AdmitFrame(t, u, es, AdmitAll(t, compare, rs[..|rs| - 1]), AdmitAll(u, compare, rs[..|rs| - 1]), compare, rs[|rs| - 1]);
    }
  }

  lemma DecideFrame(t: Table, u: Table, es: set<Entity>, compare: Compare, r: RecordId)
    requires Agree(t, u, es) && r.entity in es
    ensures Decide(t, compare, r) == Decide(u, compare, r)
  {
    SameHead(t, u, es, r.entity);
    assert r in t <==> r in u;
  }

  lemma AdmitFrame(t: Table, u: Table, es: set<Entity>, a: Batch, b: Batch, compare: Compare, r: RecordId)
    requires Framed(t, u, es, a, b) && r.entity in es
    ensures Framed(t, u, es, Admit(a, compare, r), Admit(b, compare, r))
  {
    if a.Admitted? {
      DecideFrame(a.table, b.table, es, compare, r);
      LinkFrame(a.table, b.table, es, r);
      LinkFrame(b.table, a.table, es, r);
    }
  }
}
