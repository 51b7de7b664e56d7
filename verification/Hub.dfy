/** Which tenant a delivery belongs to (internal/hub/hub.go and the two candidate queries of
    internal/hub/hubdb). */
module Hub {
  import opened Names
  import Utf8
  import opened Lists
  import RecordIds

  const MAX_DELIVERY_KEY := 256
  const COLON: byte := 0x3A

  /** A row of the subscriptions table. */
  datatype Sub = Sub(id: Text, tenant: Text, provider: Text, workspace: Text, external: Text, secret: Text)

  /** The keys a delivery carries; an empty one says nothing. */
  datatype Keys = Keys(workspace: Text, subscription: Text)

  /** What calling the provider's Verify with one secret comes to. */
  datatype Outcome = Yes | No | Panic | TimedOut

  /** What storing the delivery for a tenant comes to. */
  datatype Storing = Fresh | Repeat | BadOrderingKey | StoreFailed

  datatype Reason = Unreadable | NoOwner | AmbiguousOwner | Unverifiable | Unstorable

  datatype Verdict = Stored(owner: Sub) | Duplicate(owner: Sub) | Unverified | Parked(why: Reason) | Failed

  // ---- The table and the queries -----------------------------------------------------------------------

  /** Ids are the primary key. */
  ghost predicate TableOk(rows: set<Sub>) {
    forall a, b :: a in rows && b in rows && a.id == b.id ==> a == b
  }

  predicate ByWorkspace(r: Sub, provider: Text, keys: Keys) {
    && r.provider == provider && r.workspace == keys.workspace
    && (r.external == [] || keys.subscription == [] || r.external == keys.subscription)
  }

  predicate BySubscription(r: Sub, provider: Text, keys: Keys) {
    && r.provider == provider && r.external == keys.subscription
    && (r.workspace == [] || keys.workspace == [] || r.workspace == keys.workspace)
  }

  /** A row the delivery could belong to: one key it carries names the row, and the other does not disagree. */
  predicate Matches(r: Sub, provider: Text, keys: Keys) {
    || (keys.workspace != [] && ByWorkspace(r, provider, keys))
    || (keys.subscription != [] && BySubscription(r, provider, keys))
  }

  function Matching(rows: set<Sub>, provider: Text, keys: Keys): set<Sub> {
    set r | r in rows && Matches(r, provider, keys)
  }

  function Members(s: seq<Sub>): set<Sub> {
    set i | 0 <= i < |s| :: s[i]
  }

  /** What a query with LIMIT answers: different rows of those it selects, all of them unless it was cut. */
  ghost predicate Answers(selected: set<Sub>, limit: nat, answer: seq<Sub>) {
    && Distinct(answer) && Members(answer) <= selected && |answer| <= limit
    && (|answer| < limit ==> Members(answer) == selected)
  }

  /** The two queries of candidates, each run when the delivery carries its key. */
  ghost predicate QueriesAnswer(rows: set<Sub>, provider: Text, keys: Keys, limit: nat, a: seq<Sub>, b: seq<Sub>) {
    && (keys.workspace != [] ==> Answers((set r | r in rows && ByWorkspace(r, provider, keys)), limit, a))
    && (keys.subscription != [] ==> Answers((set r | r in rows && BySubscription(r, provider, keys)), limit, b))
  }

  // ---- Candidates ----------------------------------------------------------------------------------

  predicate Usable(r: Sub) {
    RecordIds.IsTenant(r.tenant) && r.secret != []
  }

  /** The closure add: what was not seen is appended. */
  method Add(union: seq<Sub>, more: seq<Sub>, ghost rows: set<Sub>) returns (r: seq<Sub>)
    requires TableOk(rows) && Members(union) <= rows && Members(more) <= rows && Distinct(union)
    ensures Distinct(r) && Members(r) == Members(union) + Members(more)
    ensures |r| >= |union| && (Distinct(more) ==> |r| >= |more|)
  {
    r := union;
    for i := 0 to |more|
      invariant Distinct(r) && Members(r) == Members(union) + Members(more[..i])
      invariant |r| >= |union|
    {
      assert more[..i + 1] == more[..i] + [more[i]];
      MembersPush(more[..i], more[i]);
      if exists k :: 0 <= k < |r| && r[k].id == more[i].id {
        var k :| 0 <= k < |r| && r[k].id == more[i].id;
        assert r[k] in Members(r) && more[i] in Members(more);
        continue;
      }
      MembersPush(r, more[i]);
      r := r + [more[i]];
    }
    assert more[..|more|] == more;
    Sizes(r);
    if Distinct(more) {
      Sizes(more);
      Within(Members(more), Members(r));
    }
  }

  lemma MembersPush(s: seq<Sub>, r: Sub)
    ensures Members(s + [r]) == Members(s) + {r}
  {
    assert forall i :: 0 <= i < |s| ==> (s + [r])[i] == s[i];
    assert (s + [r])[|s|] == r;
  }

  lemma Within(a: set<Sub>, b: set<Sub>)
    requires a <= b
    ensures |a| <= |b|
  {
    assert b == a + (b - a);
  }

  lemma {:induction false} Sizes(s: seq<Sub>)
    requires Distinct(s)
    ensures |Members(s)| == |s|
  {
    if s == [] {
      assert Members(s) == {};
    } else {
      var n := |s| - 1;
      Sizes(s[..n]);
      assert s == s[..n] + [s[n]];
      MembersPush(s[..n], s[n]);
    }
  }

  /** strings.Compare says `a` is not after `b`. */
  predicate NotAfter(a: Text, b: Text) {
    a == [] || (b != [] && (a[0] < b[0] || (a[0] == b[0] && NotAfter(a[1..], b[1..]))))
  }

  lemma {:induction false} NotAfterTransitive(a: Text, b: Text, c: Text)
    requires NotAfter(a, b) && NotAfter(b, c)
    ensures NotAfter(a, c)
  {
    if a != [] && a[0] == b[0] == c[0] {
      NotAfterTransitive(a[1..], b[1..], c[1..]);
    }
  }

  lemma {:induction false} NotAfterTotal(a: Text, b: Text)
    ensures NotAfter(a, b) || NotAfter(b, a)
  {
    if a != [] && b != [] && a[0] == b[0] {
      NotAfterTotal(a[1..], b[1..]);
    }
  }

  predicate SortedById(s: seq<Sub>) {
    forall i, j :: 0 <= i < j < |s| ==> NotAfter(s[i].id, s[j].id)
  }

  /** Where a row goes among sorted rows. */
  method Place(s: seq<Sub>, r: Sub) returns (k: nat)
    requires SortedById(s)
    ensures k <= |s| && (forall i :: 0 <= i < k ==> NotAfter(s[i].id, r.id)) && (forall i :: k <= i < |s| ==> NotAfter(r.id, s[i].id))
  {
    k := 0;
    while k < |s| && NotAfter(s[k].id, r.id)
      invariant k <= |s| && forall i :: 0 <= i < k ==> NotAfter(s[i].id, r.id)
    {
      k := k + 1;
    }
    forall i | k <= i < |s|
      ensures NotAfter(r.id, s[i].id)
    {
      NotAfterTotal(s[k].id, r.id);
      if i > k {
        NotAfterTransitive(r.id, s[k].id, s[i].id);
      }
    }
  }

  lemma InsertedAt(s: seq<Sub>, k: nat, r: Sub)
    requires SortedById(s) && k <= |s|
    requires (forall i :: 0 <= i < k ==> NotAfter(s[i].id, r.id)) && (forall i :: k <= i < |s| ==> NotAfter(r.id, s[i].id))
    ensures SortedById(s[..k] + [r] + s[k..])
  {
    var t := s[..k] + [r] + s[k..];
    forall i, j | 0 <= i < j < |t|
      ensures NotAfter(t[i].id, t[j].id)
    {
      assert t[i] == if i < k then s[i] else if i == k then r else s[i - 1];
      assert t[j] == if j < k then s[j] else if j == k then r else s[j - 1];
    }
  }

  /** slices.SortFunc by id. */
  method SortById(s: seq<Sub>) returns (r: seq<Sub>)
    ensures SortedById(r) && multiset(r) == multiset(s)
  {
    r := [];
    for n := 0 to |s|
      invariant SortedById(r) && multiset(r) == multiset(s[..n])
    {
      var k := Place(r, s[n]);
      assert s[..n + 1] == s[..n] + [s[n]];
      InsertedAt(r, k, s[n]);
      assert r == r[..k] + r[k..];
      r := r[..k] + [s[n]] + r[k..];
    }
    assert s[..|s|] == s;
  }

  lemma SameRows(a: seq<Sub>, b: seq<Sub>)
    requires multiset(a) == multiset(b) && Distinct(a)
    ensures Members(a) == Members(b) && |a| == |b| && Distinct(b)
  {
    assert forall r :: r in Members(a) <==> r in a;
    assert forall r :: r in Members(b) <==> r in b;
    assert forall r :: r in a <==> r in multiset(a);
    assert forall r :: r in b <==> r in multiset(b);
    assert |a| == |multiset(a)| == |multiset(b)| == |b|;
    forall i, j | 0 <= i < j < |b|
      ensures b[i] != b[j]
    {
      AtMostOnce(a, b[i]);
      if b[i] == b[j] {
        TwiceCounts(b, i, j);
      }
    }
  }

  lemma TwiceCounts(s: seq<Sub>, i: nat, j: nat)
    requires i < j < |s| && s[i] == s[j]
    ensures multiset(s)[s[i]] >= 2
  {
    assert s == s[..i] + [s[i]] + s[i + 1..j] + [s[j]] + s[j + 1..];
  }

  lemma {:induction false} AtMostOnce(s: seq<Sub>, r: Sub)
    requires Distinct(s)
    ensures multiset(s)[r] <= 1
  {
    if s != [] {
      var n := |s| - 1;
      AtMostOnce(s[..n], r);
      assert s == s[..n] + [s[n]];
      if s[n] == r {
        assert r !in s[..n];
      }
    }
  }

  /** The rows of the queries that were run, each once; nothing if one of them cannot be an owner. */
  method Union(ghost rows: set<Sub>, provider: Text, keys: Keys, max: nat, a: seq<Sub>, b: seq<Sub>) returns (union: Option<seq<Sub>>)
    requires TableOk(rows) && QueriesAnswer(rows, provider, keys, max + 1, a, b)
    ensures union.Some? ==> Distinct(union.value) && Members(union.value) == Asked(keys, a, b)
    ensures union.Some? <==> forall r :: r in Asked(keys, a, b) ==> Usable(r)
  {
    var u: seq<Sub> := [];
    assert Members(u) == {};
    if keys.workspace != [] {
      var bad := FindUnusable(a);
      if bad {
        return None;
      }
      u := Add(u, a, rows);
    }
    if keys.subscription != [] {
      var bad := FindUnusable(b);
      if bad {
        return None;
      }
      u := Add(u, b, rows);
    }
    return Some(u);
  }

  function Asked(keys: Keys, a: seq<Sub>, b: seq<Sub>): set<Sub> {
    (if keys.workspace != [] then Members(a) else {}) + (if keys.subscription != [] then Members(b) else {})
  }

  /** candidates: an error if a row that was read cannot be an owner; otherwise every matching row, or more than
      the hub will verify. */
  method Candidates(ghost rows: set<Sub>, provider: Text, keys: Keys, max: nat, a: seq<Sub>, b: seq<Sub>)
    returns (found: Option<seq<Sub>>)
    requires TableOk(rows) && (keys.workspace != [] || keys.subscription != [])
    requires QueriesAnswer(rows, provider, keys, max + 1, a, b)
    ensures found.Some? ==> Found(Matching(rows, provider, keys), max, found.value)
    ensures found.Some? <==> forall r :: r in Asked(keys, a, b) ==> Usable(r)
  {
    var union := Union(rows, provider, keys, max, a, b);
    if union.None? {
      return None;
    }
    UnionFinds(rows, provider, keys, max, a, b, union.value);
    var sorted := SortById(union.value);
    SameRows(union.value, sorted);
    return Some(sorted);
  }

  /** Different rows, all matching, and all that match unless there are more than the hub will verify. */
  ghost predicate Found(all: set<Sub>, max: nat, found: seq<Sub>) {
    && Distinct(found) && Members(found) <= all
    && (|found| <= max ==> Members(found) == all)
    && (|all| <= max ==> Members(found) == all)
  }

  method FindUnusable(s: seq<Sub>) returns (bad: bool)
    ensures bad <==> exists r :: r in Members(s) && !Usable(r)
  {
    for i := 0 to |s|
      invariant forall j :: 0 <= j < i ==> Usable(s[j])
    {
      if !Usable(s[i]) {
        assert s[i] in Members(s);
        return true;
      }
    }
    return false;
  }

  /** A query that was cut leaves more candidates than the hub will verify. */
  lemma UnionFinds(rows: set<Sub>, provider: Text, keys: Keys, max: nat, a: seq<Sub>, b: seq<Sub>, union: seq<Sub>)
    requires QueriesAnswer(rows, provider, keys, max + 1, a, b) && (keys.workspace != [] || keys.subscription != [])
    requires Distinct(union)
    requires Members(union) == Asked(keys, a, b)
    ensures Found(Matching(rows, provider, keys), max, union)
  {
    var all := Matching(rows, provider, keys);
    Sizes(union);
    Within(Members(union), all);
    if keys.workspace != [] {
      Sizes(a);
      Within(Members(a), Members(union));
    }
    if keys.subscription != [] {
      Sizes(b);
      Within(Members(b), Members(union));
    }
  }

  // ---- Verification ------------------------------------------------------------------------------------

  /** Exactly one of the rows verifies, and each of the others was asked and said no. */
  ghost predicate OnlyOwner(all: set<Sub>, verify: Text -> Outcome, owner: Sub) {
    && owner in all && verify(owner.secret) == Yes
    && forall r :: r in all && r != owner ==> verify(r.secret) == No
  }

  ghost predicate NobodyVerifies(all: set<Sub>, verify: Text -> Outcome) {
    forall r :: r in all ==> verify(r.secret) == No
  }

  datatype Verification = Owners(owners: seq<Sub>) | Panicked | NoAnswer

  /** verifyAll: it stops at the second that verifies, and at the first that does not answer. */
  method VerifyAll(verify: Text -> Outcome, candidates: seq<Sub>) returns (v: Verification)
    requires Distinct(candidates)
    ensures v == Owners([]) <==> NobodyVerifies(Members(candidates), verify)
    ensures v.Owners? && |v.owners| == 1 ==> OnlyOwner(Members(candidates), verify, v.owners[0])
    ensures forall o :: OnlyOwner(Members(candidates), verify, o) ==> v == Owners([o])
    ensures v.Owners? ==> |v.owners| <= 2
    ensures v.Owners? && |v.owners| == 2 ==> TwoOwners(Members(candidates), verify)
    ensures v == Panicked ==> exists r :: r in Members(candidates) && verify(r.secret) == Panic
    ensures v == NoAnswer ==> exists r :: r in Members(candidates) && verify(r.secret) == TimedOut
  {
    var owners: seq<Sub> := [];
    for i := 0 to |candidates|
      invariant |owners| <= 1
      invariant owners != [] ==> owners[0] in candidates[..i] && verify(owners[0].secret) == Yes
      invariant forall j :: 0 <= j < i ==> verify(candidates[j].secret) == No || owners == [candidates[j]]
    {
      var c := candidates[i];
      assert c in Members(candidates);
      match verify(c.secret)
      case TimedOut => return NoAnswer;
      case Panic => return Panicked;
      case Yes =>
        owners := owners + [c];
        if |owners| > 1 {
          TwoVerify(verify, candidates, owners[0], i);
          return Owners(owners);
        }
      case No =>
    }
    assert owners != [] ==> owners[0] in Members(candidates);
    return Owners(owners);
  }

  ghost predicate TwoOwners(all: set<Sub>, verify: Text -> Outcome) {
    exists a, b :: a in all && b in all && a != b && verify(a.secret) == Yes && verify(b.secret) == Yes
  }

  /** Two that verify leave no only owner. */
  lemma TwoVerify(verify: Text -> Outcome, candidates: seq<Sub>, first: Sub, i: nat)
    requires Distinct(candidates) && i < |candidates| && first in candidates[..i]
    requires verify(first.secret) == Yes && verify(candidates[i].secret) == Yes
    ensures forall o :: !OnlyOwner(Members(candidates), verify, o)
    ensures !NobodyVerifies(Members(candidates), verify)
    ensures TwoOwners(Members(candidates), verify)
  {
    var k :| 0 <= k < i && candidates[..i][k] == first;
    assert candidates[k] in Members(candidates) && candidates[i] in Members(candidates);
  }

  // ---- Accept --------------------------------------------------------------------------------------

  /** deliveryKeys: what the provider read is bounded, storable, and says something. */
  predicate KeysOk(keys: Keys) {
    && (keys.workspace != [] || keys.subscription != [])
    && |keys.workspace| <= MAX_DELIVERY_KEY && Utf8.Storable(keys.workspace)
    && |keys.subscription| <= MAX_DELIVERY_KEY && Utf8.Storable(keys.subscription)
  }

  function OrderingKey(provider: Text, id: Text): Text {
    provider + [COLON] + id
  }

  /** There is a row to ask, few enough to ask, and none of them verifies. */
  ghost predicate Forged(all: set<Sub>, max: nat, verify: Text -> Outcome) {
    0 < |all| <= max && NobodyVerifies(all, verify)
  }

  /** Accept. `read` is what the provider reads from the delivery; `verify` and `store` are what its Verify and
      the outbox answer; `a` and `b` are what the queries answer. */
  method Accept(ghost rows: set<Sub>, provider: Text, read: Option<Keys>, max: nat, a: seq<Sub>, b: seq<Sub>,
                verify: Text -> Outcome, store: (Text, Text) -> Storing) returns (v: Verdict)
    requires TableOk(rows)
    requires read.Some? && KeysOk(read.value) ==> QueriesAnswer(rows, provider, read.value, max + 1, a, b)
    ensures v == Parked(Unreadable) <==> read.None? || !KeysOk(read.value)
    ensures v.Stored? ==> Routed(rows, provider, read, max, verify, v.owner) && store(v.owner.tenant, OrderingKey(provider, v.owner.id)) == Fresh
    ensures v.Duplicate? ==> Routed(rows, provider, read, max, verify, v.owner) && store(v.owner.tenant, OrderingKey(provider, v.owner.id)) == Repeat
    ensures v == Parked(NoOwner) <==> read.Some? && KeysOk(read.value) && Matching(rows, provider, read.value) == {}
    ensures v == Unverified ==> read.Some? && KeysOk(read.value) && Forged(Matching(rows, provider, read.value), max, verify)
    ensures (read.Some? && KeysOk(read.value) && Forged(Matching(rows, provider, read.value), max, verify)
             && forall r :: r in Matching(rows, provider, read.value) ==> Usable(r)) ==> v == Unverified
    ensures forall o :: read.Some? && KeysOk(read.value) && Routed(rows, provider, read, max, verify, o)
                        && (forall r :: r in Matching(rows, provider, read.value) ==> Usable(r)) ==>
              v == match store(o.tenant, provider + [0x3A] + o.id)
                   case Fresh => Stored(o)
                   case Repeat => Duplicate(o)
                   case BadOrderingKey => Parked(Unstorable)
                   case StoreFailed => Failed
    ensures AcceptMeans(rows, provider, read, verify, store, v)
    ensures v == Parked(AmbiguousOwner) ==> read.Some? && TooMany(Matching(rows, provider, read.value), max, verify)
    ensures read.Some? && KeysOk(read.value) && AllAnswer(Matching(rows, provider, read.value), verify) && TooMany(Matching(rows, provider, read.value), max, verify)
            ==> v == Parked(AmbiguousOwner)
  {
    AcceptMeaning(rows, provider, read, max, verify);
    if read.None? || !KeysOk(read.value) {
      return Parked(Unreadable);
    }
    var found := Candidates(rows, provider, read.value, max, a, b);
    AskedMatch(rows, provider, read.value, max, a, b);
    if found.None? {
      return Failed;
    }
    ghost var all := Matching(rows, provider, read.value);
    FoundSize(all, max, found.value);
    if |found.value| == 0 {
      return Parked(NoOwner);
    }
    if |found.value| > max {
      return Parked(AmbiguousOwner);
    }
    v := Route(all, provider, found.value, verify, store);
  }

  /** What the outbox's answer is to the sender. */
  function AnswerOf(stored: Storing, owner: Sub): Verdict {
    match stored
    case Fresh => Stored(owner)
    case Repeat => Duplicate(owner)
    case BadOrderingKey => Parked(Unstorable)
    case StoreFailed => Failed
  }

  /** The rest of Accept: the candidates are all the rows the delivery could belong to. */
  method Route(ghost all: set<Sub>, provider: Text, candidates: seq<Sub>, verify: Text -> Outcome, store: (Text, Text) -> Storing) returns (v: Verdict)
    requires Distinct(candidates) && Members(candidates) == all && all != {}
    ensures v != Parked(Unreadable) && v != Parked(NoOwner)
    ensures v.Stored? || v.Duplicate? ==> OnlyOwner(all, verify, v.owner) && v == AnswerOf(store(v.owner.tenant, OrderingKey(provider, v.owner.id)), v.owner)
    ensures v == Unverified <==> NobodyVerifies(all, verify)
    ensures forall o :: OnlyOwner(all, verify, o) ==> v == AnswerOf(store(o.tenant, OrderingKey(provider, o.id)), o)
    ensures v == Parked(AmbiguousOwner) ==> TwoOwners(all, verify)
    ensures AllAnswer(all, verify) && TwoOwners(all, verify) ==> v == Parked(AmbiguousOwner)
  {
    var verified := VerifyAll(verify, candidates);
    match verified
    case NoAnswer => return Failed;
    case Panicked => return Parked(Unverifiable);
    case Owners(owners) =>
      if |owners| == 0 {
        return Unverified;
      }
      if |owners| > 1 {
        return Parked(AmbiguousOwner);
      }
      match store(owners[0].tenant, OrderingKey(provider, owners[0].id))
      case Fresh => return Stored(owners[0]);
      case Repeat => return Duplicate(owners[0]);
      case BadOrderingKey => return Parked(Unstorable);
      case StoreFailed => return Failed;
  }

  // ---- What that means, column by column ---------------------------------------------------------------

  /** A delivery is unreadable if the provider reads no key from it, or one that is too long or cannot be stored. */
  predicate CannotBeRead(read: Option<Keys>) {
    || read.None?
    || (read.value.workspace == [] && read.value.subscription == [])
    || |read.value.workspace| > 256 || !Utf8.Storable(read.value.workspace)
    || |read.value.subscription| > 256 || !Utf8.Storable(read.value.subscription)
  }

  /** Both are given, and they differ. */
  predicate Disagrees(column: Text, key: Text) {
    column != [] && key != [] && column != key
  }

  /** The row is the provider's, some key of the delivery is the row's own, and none disagrees with it. */
  predicate CouldOwn(r: Sub, provider: Text, keys: Keys) {
    && r.provider == provider
    && ((r.workspace != [] && r.workspace == keys.workspace) || (r.external != [] && r.external == keys.subscription))
    && !Disagrees(r.workspace, keys.workspace) && !Disagrees(r.external, keys.subscription)
  }

  lemma MatchesMeans(provider: Text, keys: Keys)
    ensures forall r :: Matches(r, provider, keys) <==> CouldOwn(r, provider, keys)
  {
  }

  /** Of the rows that could own the delivery, this one verifies, and each of the others was asked and said no. */
  ghost predicate OwnedBy(rows: set<Sub>, provider: Text, keys: Keys, verify: Text -> Outcome, owner: Sub) {
    && owner in rows && CouldOwn(owner, provider, keys) && verify(owner.secret) == Yes
    && forall r :: r in rows && CouldOwn(r, provider, keys) && r != owner ==> verify(r.secret) == No
  }

  lemma RoutedMeans(rows: set<Sub>, provider: Text, read: Option<Keys>, max: nat, verify: Text -> Outcome, owner: Sub)
    ensures Routed(rows, provider, read, max, verify, owner) <==>
            !CannotBeRead(read) && OwnedBy(rows, provider, read.value, verify, owner) && |set r | r in rows && CouldOwn(r, provider, read.value)| <= max
  {
    if !CannotBeRead(read) {
      MatchesMeans(provider, read.value);
      assert Matching(rows, provider, read.value) == (set r | r in rows && CouldOwn(r, provider, read.value));
    }
  }

  /** The queue is named by the provider, a colon and the subscription, which it gives back: a provider's own key has no
      colon. */
  lemma OrderingKeyNamesOne(p: Text, a: Text, q: Text, b: Text)
    requires COLON !in p && COLON !in q && OrderingKey(p, a) == OrderingKey(q, b)
    ensures p == q && a == b
  {
    FirstColon(p, a);
    FirstColon(q, b);
    var k, n := OrderingKey(p, a), |p|;
    assert k[..n] == p && k[..|q|] == q && k[n + 1..] == a && k[|q| + 1..] == b;
  }

  lemma FirstColon(p: Text, a: Text)
    requires COLON !in p
    ensures var k := OrderingKey(p, a); k[|p|] == COLON && forall i :: 0 <= i < |p| ==> k[i] != COLON
  {
  }

  /** A delivery is answered as unreadable or as nobody's exactly if it is, is stored only for its one owner, and only in
      the queue of that owner's subscription. */
  ghost predicate AcceptMeans(rows: set<Sub>, provider: Text, read: Option<Keys>, verify: Text -> Outcome, store: (Text, Text) -> Storing, v: Verdict) {
    && (v == Parked(Unreadable) <==> CannotBeRead(read))
    && (v == Parked(NoOwner) <==> !CannotBeRead(read) && forall r :: r in rows ==> !CouldOwn(r, provider, read.value))
    && (v.Stored? || v.Duplicate? ==>
          && !CannotBeRead(read) && OwnedBy(rows, provider, read.value, verify, v.owner)
          && store(v.owner.tenant, provider + [0x3A] + v.owner.id) == if v.Stored? then Fresh else Repeat)
  }

  /** More rows could own it than the hub will verify, or two of them do. */
  ghost predicate TooMany(all: set<Sub>, max: nat, verify: Text -> Outcome) {
    |all| > max || TwoOwners(all, verify)
  }

  predicate AllAnswer(all: set<Sub>, verify: Text -> Outcome) {
    forall r :: r in all ==> Usable(r) && (verify(r.secret) == Yes || verify(r.secret) == No)
  }

  lemma AcceptMeaning(rows: set<Sub>, provider: Text, read: Option<Keys>, max: nat, verify: Text -> Outcome)
    ensures CannotBeRead(read) <==> read.None? || !KeysOk(read.value)
    ensures forall o :: Routed(rows, provider, read, max, verify, o) ==> !CannotBeRead(read) && OwnedBy(rows, provider, read.value, verify, o)
    ensures !CannotBeRead(read) ==> (Matching(rows, provider, read.value) == {} <==> forall r :: r in rows ==> !CouldOwn(r, provider, read.value))
  {
    forall o
      ensures Routed(rows, provider, read, max, verify, o) ==> !CannotBeRead(read) && OwnedBy(rows, provider, read.value, verify, o)
    {
      RoutedMeans(rows, provider, read, max, verify, o);
    }
    if !CannotBeRead(read) {
      MatchesMeans(provider, read.value);
      assert forall r :: r in Matching(rows, provider, read.value) <==> r in rows && CouldOwn(r, provider, read.value);
    }
  }

  /** The delivery is shown to be the owner's: of all the rows it could belong to, few enough to ask, exactly
      that one verifies. */
  ghost predicate Routed(rows: set<Sub>, provider: Text, read: Option<Keys>, max: nat, verify: Text -> Outcome, owner: Sub) {
    && read.Some? && KeysOk(read.value)
    && var all := Matching(rows, provider, read.value); |all| <= max && OnlyOwner(all, verify, owner)
  }

  lemma AskedMatch(rows: set<Sub>, provider: Text, keys: Keys, max: nat, a: seq<Sub>, b: seq<Sub>)
    requires QueriesAnswer(rows, provider, keys, max + 1, a, b)
    ensures Asked(keys, a, b) <= Matching(rows, provider, keys)
  {
  }

  lemma FoundSize(all: set<Sub>, max: nat, found: seq<Sub>)
    requires Found(all, max, found)
    ensures |found| <= max <==> |all| <= max
    ensures |found| <= max ==> |all| == |found| && Members(found) == all
  {
    Sizes(found);
    Within(Members(found), all);
  }

  /** Whoever a delivery is stored for is the only one it could have been stored for, whatever the queries
      left out and in whatever order the candidates were asked. */
  lemma OwnerIsUnique(rows: set<Sub>, provider: Text, read: Option<Keys>, max: nat, verify: Text -> Outcome, a: Sub, b: Sub)
    requires Routed(rows, provider, read, max, verify, a) && Routed(rows, provider, read, max, verify, b)
    ensures a == b
  {
  }
}
