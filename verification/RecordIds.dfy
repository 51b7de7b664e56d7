/** The id recipes (internal/ids/ids.go) and the seal that ties a record to its id (internal/record/record.go).

    A hash is taken to be collision free, so an id is represented by the bytes that were hashed. JSON encoding
    of a valid record is taken to be a round trip, so a document is represented by the fields it spells. */
module RecordIds {
  import opened Names
  import opened Lists
  import opened Clean
  import opened ScopeIds

  const SEP: byte := 0x1F

  const MAX_EXTERNAL_ID := 1024
  const MAX_VERSION := 256
  const MAX_CONTAINER_ID := 512
  const MAX_DELIVERY := 128
  const MAX_SOURCE := 64
  const MAX_TENANT := 64

  // ---- Recipes -------------------------------------------------------------------------------------

  /** An id of the form of a record id: minted from some input, or any other text of that form. */
  datatype Id = Minted(input: Text) | Other(text: Text)

  datatype BadPart = EmptyPart | SeparatorInPart

  predicate PartOk(p: Text) {
    p != [] && SEP !in p
  }

  function CheckPart(p: Text): Option<BadPart> {
    if p == [] then Some(EmptyPart) else if SEP in p then Some(SeparatorInPart) else None
  }

  /** The parts with a separator between each two. */
  function Join(parts: seq<Text>): Text {
    if parts == [] then [] else if |parts| == 1 then parts[0] else Join(parts[..|parts| - 1]) + [SEP] + parts[|parts| - 1]
  }

  function Parts(provider: Text, externalId: Text, version: Text, scope: Text, tenant: Text): seq<Text> {
    [provider, externalId, version, scope, tenant]
  }

  predicate AllOk(parts: seq<Text>) {
    forall i :: 0 <= i < |parts| ==> PartOk(parts[i])
  }

  /** RecordID. */
  method MintRecordId(provider: Text, externalId: Text, version: Text, scope: Text, tenant: Text) returns (r: Result<Id, BadPart>)
    ensures r == RecordIdOf(provider, externalId, version, scope, tenant)
    ensures r.Ok? <==> AllOk([provider, externalId, version, scope, tenant])
    ensures r.Ok? ==> r.value == Minted(provider + [SEP] + externalId + [SEP] + version + [SEP] + scope + [SEP] + tenant)
  {
    var parts := Parts(provider, externalId, version, scope, tenant);
    var h: Text := [];
    for i := 0 to |parts|
      invariant h == Join(parts[..i])
      invariant forall j :: 0 <= j < i ==> CheckPart(parts[j]).None?
    {
      var bad := CheckPart(parts[i]);
      if bad.Some? {
        FirstBadIs(parts, i);
        FirstBadNone(parts);
        return Err(bad.value);
      }
      assert parts[..i + 1][..i] == parts[..i] && parts[..i + 1][i] == parts[i];
      if i > 0 {
        h := h + [SEP];
      }
      h := h + parts[i];
    }
    FirstBadNone(parts);
    assert parts[..|parts|] == parts;
    FiveJoin(provider, externalId, version, scope, tenant);
    return Ok(Minted(h));
  }

  lemma FiveJoin(a: Text, b: Text, c: Text, d: Text, e: Text)
    ensures Join([a, b, c, d, e]) == a + [SEP] + b + [SEP] + c + [SEP] + d + [SEP] + e
  {
    assert [a, b, c, d, e] == [a, b, c, d] + [e] && [a, b, c, d] == [a, b, c] + [d] && [a, b, c] == [a, b] + [c] && [a, b] == [a] + [b];
    JoinOneMore([a, b, c, d], e);
    JoinOneMore([a, b, c], d);
    JoinOneMore([a, b], c);
    JoinOneMore([a], b);
  }

  lemma JoinOneMore(parts: seq<Text>, p: Text)
    requires parts != []
    ensures Join(parts + [p]) == Join(parts) + [SEP] + p
  {
    assert (parts + [p])[..|parts|] == parts;
  }

  /** What is wrong with the first part that is wrong. */
  function FirstBad(parts: seq<Text>): Option<BadPart> {
    if parts == [] then None else if CheckPart(parts[0]).Some? then CheckPart(parts[0]) else FirstBad(parts[1..])
  }

  function RecordIdOf(provider: Text, externalId: Text, version: Text, scope: Text, tenant: Text): Result<Id, BadPart> {
    var parts := Parts(provider, externalId, version, scope, tenant);
    if FirstBad(parts).Some? then Err(FirstBad(parts).value) else Ok(Minted(Join(parts)))
  }

  lemma {:induction false} FirstBadIs(parts: seq<Text>, i: nat)
    requires i < |parts| && CheckPart(parts[i]).Some? && forall j :: 0 <= j < i ==> CheckPart(parts[j]).None?
    ensures FirstBad(parts) == CheckPart(parts[i])
  {
    if i > 0 {
      FirstBadIs(parts[1..], i - 1);
    }
  }

  lemma {:induction false} FirstBadNone(parts: seq<Text>)
    ensures FirstBad(parts).None? <==> AllOk(parts)
  {
    if parts != [] {
      FirstBadNone(parts[1..]);
      assert CheckPart(parts[0]).None? <==> PartOk(parts[0]);
      assert forall i :: 0 < i < |parts| ==> parts[i] == parts[1..][i - 1];
    }
  }

  /** Where the last separator is. */
  lemma LastPart(a: Text, p: Text, b: Text, q: Text)
    requires SEP !in p && SEP !in q && a + [SEP] + p == b + [SEP] + q
    ensures a == b && p == q
  {
    var s := a + [SEP] + p;
    assert s[|a|] == SEP && s[|b|] == SEP;
    assert forall i :: |a| < i < |s| ==> s[i] == p[i - |a| - 1] && s[i] in p;
    assert forall i :: |b| < i < |s| ==> s[i] == q[i - |b| - 1] && s[i] in q;
    assert |a| == |b|;
    assert a == s[..|a|] && b == s[..|b|] && p == s[|a| + 1..] && q == s[|b| + 1..];
  }

  /** Lists of as many accepted parts that join to the same bytes are the same parts. */
  lemma {:induction false} JoinIsInjective(a: seq<Text>, b: seq<Text>)
    requires AllOk(a) && AllOk(b) && |a| == |b| && Join(a) == Join(b)
    ensures a == b
  {
    if |a| > 1 {
      var n := |a| - 1;
      LastPart(Join(a[..n]), a[n], Join(b[..n]), b[n]);
      JoinIsInjective(a[..n], b[..n]);
      assert a == a[..n] + [a[n]] && b == b[..n] + [b[n]];
    } else if |a| == 1 {
      assert a == [a[0]] && b == [b[0]];
    }
  }

  /** A record id names its provider, external id, version, scope and tenant. */
  lemma RecordIdNamesItsParts(p: Text, e: Text, v: Text, s: Text, t: Text, p': Text, e': Text, v': Text, s': Text, t': Text)
    requires RecordIdOf(p, e, v, s, t).Ok? && RecordIdOf(p, e, v, s, t) == RecordIdOf(p', e', v', s', t')
    ensures p == p' && e == e' && v == v' && s == s' && t == t'
  {
    var a, b := Parts(p, e, v, s, t), Parts(p', e', v', s', t');
    FirstBadNone(a);
    FirstBadNone(b);
    JoinIsInjective(a, b);
    assert a[0] == b[0] && a[1] == b[1] && a[2] == b[2] && a[3] == b[3] && a[4] == b[4];
  }

  /** DeliveryID's input: the body comes last, so it may hold any byte. */
  function DeliveryIdOf(provider: Text, body: Text): Result<Id, BadPart> {
    if CheckPart(provider).Some? then Err(CheckPart(provider).value) else Ok(Minted(provider + [SEP] + body))
  }

  /** Where the first separator is. */
  lemma FirstPart(p: Text, a: Text, q: Text, b: Text)
    requires SEP !in p && SEP !in q && p + [SEP] + a == q + [SEP] + b
    ensures p == q && a == b
  {
    var s := p + [SEP] + a;
    assert s[|p|] == SEP && s[|q|] == SEP;
    assert forall i :: 0 <= i < |p| ==> s[i] == p[i] && s[i] in p;
    assert forall i :: 0 <= i < |q| ==> s[i] == q[i] && s[i] in q;
    assert |p| == |q|;
    assert p == s[..|p|] && q == s[..|q|] && a == s[|p| + 1..] && b == s[|q| + 1..];
  }

  /** A delivery id names its provider and its body: a re-send is the same delivery, and nothing else is. */
  lemma DeliveryIdNamesItsParts(p: Text, body: Text, p': Text, body': Text)
    requires DeliveryIdOf(p, body).Ok? && DeliveryIdOf(p, body) == DeliveryIdOf(p', body')
    ensures p == p' && body == body'
  {
    FirstPart(p, body, p', body');
  }

  // ---- Records ---------------------------------------------------------------------------------------

  datatype Op = Upsert | Delete | OtherOp(text: Text)

  datatype Kind = Task | Message | Ticket | Document | Page | OtherKind(text: Text)

  datatype Audience = Direct | Group | OtherAudience(text: Text)

  datatype Time = Time(utc: bool, year: int, rest: Text)

  /** The fields of the envelope. An empty `supersedes` or `replyParent` is no reference. */
  datatype Wire = Wire(
    formatV1: bool,
    id: Option<Id>,
    op: Op,
    source: Text,
    kind: Kind,
    externalId: Text,
    version: Text,
    supersedes: Option<Id>,
    occurredAt: Time,
    title: Text,
    text: Text,
    authorId: Text,
    authorDisplay: Text,
    containerKind: Text,
    containerId: Text,
    scope: Text,
    audience: Audience,
    automation: bool,
    untrusted: bool,
    replyParent: Text,
    delivery: Text)

  datatype Sealing = Sealing(id: Option<Id>, externalId: Text, version: Text, scope: Text, op: Op, kind: Kind)

  /** A record is its fields, what was sealed, and the tenant it was sealed for (empty when decoded). */
  datatype Record = Record(wire: Wire, sealing: Sealing, sealedFor: Text)

  function CurrentSeal(w: Wire): Sealing {
    Sealing(w.id, w.externalId, w.version, w.scope, w.op, w.kind)
  }

  predicate IsExternalId(s: Text) {
    && Permitted(s, 1, MAX_EXTERNAL_ID, IdentifierChars)
    && var colon := IndexOf(s, COLON, 0);
       colon < |s| - 1 && IsName(s[..colon], MAX_KIND, false)
  }

  /** Validate. */
  ghost predicate Valid(w: Wire) {
    && w.formatV1 && w.id.Some?
    && (w.op == Upsert || w.op == Delete)
    && IsName(w.source, MAX_SOURCE, true)
    && !w.kind.OtherKind?
    && IsExternalId(w.externalId)
    && Permitted(w.version, 1, MAX_VERSION, IdentifierChars)
    && (w.supersedes.Some? ==> w.supersedes != w.id)
    && w.occurredAt.utc && 1000 <= w.occurredAt.year <= 9999
    && Permitted(w.title, 0, MAX_TITLE, OneLineChars)
    && Permitted(w.text, 0, MAX_TEXT, ContentChars)
    && (w.op == Delete ==> w.title == [] && w.text == [])
    && Permitted(w.authorId, 0, MAX_AUTHOR, IdentifierChars)
    && Permitted(w.authorDisplay, 0, MAX_AUTHOR, DisplayChars)
    && IsName(w.containerKind, MAX_KIND, false)
    && Permitted(w.containerId, 1, MAX_CONTAINER_ID, IdentifierChars)
    && IsScopeId(w.scope)
    && !w.audience.OtherAudience?
    && (w.replyParent != [] ==> IsExternalId(w.replyParent))
    && Permitted(w.delivery, 0, MAX_DELIVERY, IdentifierChars)
  }

  predicate IsTenant(s: Text) {
    0 < |s| <= MAX_TENANT && forall i :: 0 <= i < |s| ==> TenantChar(s[i])
  }

  predicate TenantChar(c: byte) {
    IsUpper(c) || IsLower(c) || IsDigit(c) || c == 0x5F || c == 0x2D
  }

  /** strings.HasPrefix(s, provider+":"). */
  predicate BelongsTo(s: Text, provider: Text) {
    provider + [COLON] <= s
  }

  datatype RecordError = Invalid | NotThisTenantsRecord | NotTheRecordStored

  /** The checks of Seal, before it mints. */
  ghost predicate Sealable(w: Wire, provider: Text, tenant: Text) {
    && IsName(provider, MAX_KIND, false)
    && (w.source == [] || w.source == provider)
    && IsScopeId(w.scope) && BelongsTo(w.scope, provider)
    && BelongsTo(w.externalId, provider)
    && (w.replyParent != [] ==> BelongsTo(w.replyParent, provider))
    && IsTenant(tenant)
  }

  ghost function Seal(r: Record, provider: Text, tenant: Text): Result<Record, RecordError> {
    var id := RecordIdOf(provider, r.wire.externalId, r.wire.version, r.wire.scope, tenant);
    if !Sealable(r.wire, provider, tenant) || id.Err? then
      Err(Invalid)
    else
      var w := r.wire.(formatV1 := true, source := provider, id := Some(id.value));
      if Valid(w) then Ok(Record(w, CurrentSeal(w), tenant)) else Err(Invalid)
  }

  predicate SealedFor(r: Record, tenant: Text) {
    tenant != [] && r.sealedFor == tenant && r.sealing == CurrentSeal(r.wire)
  }

  /** MarshalJSON: the fields, if they are valid and what was sealed. */
  ghost function Marshal(r: Record): Result<Wire, RecordError> {
    if Valid(r.wire) && r.sealing == CurrentSeal(r.wire) then Ok(r.wire) else Err(Invalid)
  }

  /** UnmarshalJSON of a document that spells these fields: strict, and sealed for nobody. */
  ghost function Unmarshal(doc: Wire): Result<Record, RecordError> {
    if Valid(doc) then Ok(Record(doc, CurrentSeal(doc), [])) else Err(Invalid)
  }

  /** What the outbox stores of a record: its document, and beside it the id, op and kind. */
  datatype StoredRecord = StoredRecord(id: Option<Id>, op: Op, kind: Kind, document: Wire)

  ghost function DocumentOf(r: Record): Result<StoredRecord, RecordError> {
    var doc := Marshal(r);
    if doc.Err? then Err(doc.error) else Ok(StoredRecord(r.wire.id, r.wire.op, r.wire.kind, doc.value))
  }

  ghost function Reopen(s: StoredRecord, provider: Text, tenant: Text): Result<Record, RecordError> {
    var stored := Unmarshal(s.document);
    if stored.Err? then Err(stored.error)
    else
      var again := Seal(stored.value, provider, tenant);
      if again.Err? then Err(again.error)
      else if again.value.wire.id != s.document.id then Err(NotThisTenantsRecord)
      else if s.id != s.document.id || s.op != s.document.op || s.kind != s.document.kind then Err(NotTheRecordStored)
      else again
  }

  // ---- What Reopen promises ------------------------------------------------------------------------------

  /** Reopen gives back exactly the record that documentsOf stored, sealed for its tenant, whatever was set on
      it after Seal that sealing leaves open. */
  lemma ReopenRestores(r: Record, provider: Text, tenant: Text, changed: Wire)
    requires Seal(r, provider, tenant).Ok?
    requires var sealed := Seal(r, provider, tenant).value;
             && CurrentSeal(changed) == sealed.sealing && changed.source == provider
             && (changed.replyParent != [] ==> BelongsTo(changed.replyParent, provider))
             && DocumentOf(sealed.(wire := changed)).Ok?
    ensures var sealed := Seal(r, provider, tenant).value.(wire := changed);
            Reopen(DocumentOf(sealed).value, provider, tenant) == Ok(sealed) && SealedFor(sealed, tenant)
  {
  }

  /** What Reopen accepts is what was stored beside the document, minted for this provider and tenant. */
  lemma ReopenedIsMinted(s: StoredRecord, provider: Text, tenant: Text)
    requires Reopen(s, provider, tenant).Ok?
    ensures var w := Reopen(s, provider, tenant).value.wire;
            && w == s.document && CurrentSeal(w).(id := s.id, op := s.op, kind := s.kind) == CurrentSeal(w)
            && RecordIdOf(provider, w.externalId, w.version, w.scope, tenant).Ok?
            && w.id == Some(RecordIdOf(provider, w.externalId, w.version, w.scope, tenant).value)
            && SealedFor(Reopen(s, provider, tenant).value, tenant)
  {
  }

  /** One row reopens for one provider and one tenant. */
  lemma ReopensForOneTenant(s: StoredRecord, p: Text, t: Text, p': Text, t': Text)
    requires Reopen(s, p, t).Ok? && Reopen(s, p', t').Ok?
    ensures p == p' && t == t'
  {
    ReopenedIsMinted(s, p, t);
    ReopenedIsMinted(s, p', t');
    var w := s.document;
    RecordIdNamesItsParts(p, w.externalId, w.version, w.scope, t, p', w.externalId, w.version, w.scope, t');
  }

  /** A document edited in any sealed field no longer reopens from its row, under any provider or tenant. */
  lemma EditedDocumentIsRefused(s: StoredRecord, edited: Wire, p: Text, t: Text, p': Text, t': Text)
    requires Reopen(s, p, t).Ok? && Reopen(s.(document := edited), p', t').Ok?
    ensures CurrentSeal(edited) == CurrentSeal(s.document) && p == p' && t == t'
  {
    ReopenedIsMinted(s, p, t);
    ReopenedIsMinted(s.(document := edited), p', t');
    var w := s.document;
    RecordIdNamesItsParts(p, w.externalId, w.version, w.scope, t, p', edited.externalId, edited.version, edited.scope, t');
  }
}
