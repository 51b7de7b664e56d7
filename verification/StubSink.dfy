/** The strict stub sink, which remembers what it holds (internal/sink/stub.go). */
module StubSink {
  import opened Names
  import opened Links
  import opened Lists
  import opened Answers

  /** What the strict decoder reads out of a document it accepts. */
  datatype Parsed = Parsed(id: Id, supersedes: Id, content: Text)

  /** The decoder, which accepts no record without an id. */
  type Decoder = d: Text -> Option<Parsed> | forall doc :: d(doc).Some? ==> d(doc).value.id != []
    ghost witness (doc: Text) => None

  datatype Refusal = BadTenant | TooLarge | InvalidRecord | RepeatDiffers | SupersedeCycle

  /** What is held under an id after a document was taken, or refused. */
  function Then(was: Option<Text>, taken: bool, p: Parsed, id: Id): Option<Text> {
    if taken && id == p.id then Some(p.content) else was
  }

  /** What one tenant's receiver holds. */
  class Held {
    var order: seq<Id>
    var docs: map<Id, Text>
    var content: map<Id, Text>
    var supersedes: map<Id, Id>

    /** One document, one content and one link per id; and no chain of links comes back. */
    ghost predicate Valid()
      reads this
    {
      && Distinct(order)
      && (forall id :: id in order <==> id in docs)
      && docs.Keys == content.Keys == supersedes.Keys
      && Proper(supersedes) && Acyclic(supersedes)
    }

    constructor ()
      ensures Valid() && order == [] && content == map[]
    {
      order, docs, content, supersedes := [], map[], map[], map[];
      new;
      forall x, n: nat | x != [] && n > 0
        ensures Follow(supersedes, x, n) != x
      {
        EndedStays(map[], n - 1);
      }
    }

    /** The content held under an id. */
    function At(id: Id): Option<Text>
      reads this
    {
      if id in content then Some(content[id]) else None
    }

    /** The refusals that rest on memory. */
    ghost function Verdict(p: Parsed): Option<Refusal>
      reads this
    {
      if p.id in content then
        if content[p.id] != p.content then Some(RepeatDiffers) else None
      else if !Acyclic(supersedes[p.id := p.supersedes]) then Some(SupersedeCycle)
      else None
    }

    /** Take a document: a repeat with the same content changes nothing, and a new one is kept with its link. */
    method Take(p: Parsed, doc: Text) returns (r: Option<Refusal>)
      requires Valid() && p.id != []
      modifies this
      ensures Valid() && r == old(Verdict(p))
      ensures forall id :: At(id) == Then(old(At(id)), r.None?, p, id)
      ensures r.Some? || old(p.id in content) ==>
        order == old(order) && docs == old(docs) && content == old(content) && supersedes == old(supersedes)
      ensures r.None? && old(p.id !in content) ==>
        && order == old(order) + [p.id] && docs == old(docs)[p.id := doc]
        && content == old(content)[p.id := p.content] && supersedes == old(supersedes)[p.id := p.supersedes]
    {
      if p.id in content {
        if content[p.id] != p.content {
          return Some(RepeatDiffers);
        }
        return None;
      }
      var back := LeadsBack(supersedes, p.id, p.supersedes);
      if back {
        return Some(SupersedeCycle);
      }
      assert p.id !in order;
      order := order + [p.id];
      docs := docs[p.id := doc];
      content := content[p.id := p.content];
      supersedes := supersedes[p.id := p.supersedes];
      return None;
    }
  }

  class Stub {
    const maxBytes: nat
    const decode: Decoder
    var tenants: map<Text, Held>

    /** Each tenant's memory is its own. */
    ghost predicate Valid()
      reads this, tenants.Values
    {
      && (forall t :: t in tenants ==> tenants[t].Valid())
      && (forall t, u :: t in tenants && u in tenants && t != u ==> tenants[t] != tenants[u])
    }

    /** The content held under an id for a tenant. */
    function ContentOf(t: Text, id: Id): Option<Text>
      reads this, tenants.Values
    {
      if t in tenants then tenants[t].At(id) else None
    }

    /** What the tenant's memory makes of a document. A tenant that holds nothing refuses only a record that
        supersedes itself. */
    ghost function VerdictFor(t: Text, p: Parsed): Option<Refusal>
      reads this, tenants.Values
    {
      if t in tenants then tenants[t].Verdict(p)
      else if Acyclic(map[p.id := p.supersedes]) then None
      else Some(SupersedeCycle)
    }

    constructor (maxBytes: nat, decode: Decoder)
      ensures Valid() && tenants == map[] && this.maxBytes == maxBytes && this.decode == decode
    {
      this.maxBytes, this.decode, tenants := maxBytes, decode, map[];
    }

    /** The memory of a tenant, made when its first document arrives. */
    method HeldFor(t: Text) returns (held: Held)
      requires Valid()
      modifies this
      ensures Valid() && t in tenants && tenants[t] == held
      ensures if old(t in tenants) then tenants == old(tenants) else fresh(held) && tenants == old(tenants)[t := held]
      ensures forall p :: VerdictFor(t, p) == old(VerdictFor(t, p))
      ensures forall u, id :: ContentOf(u, id) == old(ContentOf(u, id))
    {
      if t in tenants {
        return tenants[t];
      }
      held := new Held();
      tenants := tenants[t := held];
    }

    /** The part of Accept under the lock. */
    method Keep(t: Text, p: Parsed, doc: Text) returns (r: Option<Refusal>)
      requires Valid() && p.id != []
      modifies this, tenants.Values
      ensures Valid() && fresh(tenants.Values - old(tenants.Values))
      ensures forall id :: ContentOf(t, id) == Then(old(ContentOf(t, id)), r.None?, p, id)
      ensures forall u, id :: u != t ==> ContentOf(u, id) == old(ContentOf(u, id))
      ensures r == old(VerdictFor(t, p))
    {
      var held := HeldFor(t);
      r := TakeInto(t, held, p, doc);
    }

    /** The tenant's memory takes the document; the others are not touched. */
    method TakeInto(t: Text, held: Held, p: Parsed, doc: Text) returns (r: Option<Refusal>)
      requires Valid() && t in tenants && tenants[t] == held && p.id != []
      modifies held
      ensures Valid()
      ensures forall id :: ContentOf(t, id) == Then(old(ContentOf(t, id)), r.None?, p, id)
      ensures forall u, id :: u != t ==> ContentOf(u, id) == old(ContentOf(u, id))
      ensures r == old(VerdictFor(t, p))
    {
      r := held.Take(p, doc);
    }

    /** Accept: a document is refused, or it was already held with this content, or it is now held; whatever
        was held stays held with the content it has, for every tenant. */
    method Accept(t: Text, tenantOk: bool, doc: Text) returns (r: Option<Refusal>)
      requires Valid()
      modifies this, tenants.Values
      ensures Valid() && fresh(tenants.Values - old(tenants.Values))
      ensures r == (if !tenantOk then Some(BadTenant)
                    else if |doc| > maxBytes then Some(TooLarge)
                    else if decode(doc).None? then Some(InvalidRecord)
                    else old(VerdictFor(t, decode(doc).value)))
      ensures r.None? ==> decode(doc).Some? && ContentOf(t, decode(doc).value.id) == Some(decode(doc).value.content)
      ensures forall u, id :: old(ContentOf(u, id)).Some? ==> ContentOf(u, id) == old(ContentOf(u, id))
      ensures forall u, id :: ContentOf(u, id) != old(ContentOf(u, id)) ==> u == t && r.None? && decode(doc).value.id == id
    {
      if !tenantOk {
        return Some(BadTenant);
      }
      if |doc| > maxBytes {
        return Some(TooLarge);
      }
      var parsed := decode(doc);
      if parsed.None? {
        return Some(InvalidRecord);
      }
      r := Keep(t, parsed.value, doc);
    }

    /** The record is held, with the content its document has. */
    predicate Holds(t: Text, rec: Offered)
      reads this, tenants.Values
    {
      && rec.sealedForTenant && rec.document.Some? && decode(rec.document.value).Some?
      && var p := decode(rec.document.value).value; ContentOf(t, p.id) == Some(p.content)
    }

    /** Deliver: what the answer does not name is held, and with distinct ids the answer names only offered
        records, each once. */
    method Deliver(t: Text, tenantOk: bool, recs: seq<Offered>) returns (r: Option<seq<Text>>)
      requires Valid()
      modifies this, tenants.Values
      ensures Valid()
      ensures r.Some? <==> tenantOk
      ensures r.Some? ==> forall k :: 0 <= k < |recs| && recs[k].id !in r.value ==> Holds(t, recs[k])
      ensures r.Some? && Distinct(OfferedIds(recs)) ==> LinesUp(r.value, OfferedIds(recs))
      ensures forall u, id :: old(ContentOf(u, id)).Some? ==> ContentOf(u, id) == old(ContentOf(u, id))
    {
      if !tenantOk {
        return None;
      }
      var rejected: seq<Text> := [];
      for i := 0 to |recs|
        invariant Valid() && fresh(tenants.Values - old(tenants.Values))
        invariant forall u, id :: old(ContentOf(u, id)).Some? ==> ContentOf(u, id) == old(ContentOf(u, id))
        invariant forall k :: 0 <= k < i && recs[k].id !in rejected ==> Holds(t, recs[k])
        invariant Within(rejected, OfferedIds(recs)[..i]) && (Distinct(OfferedIds(recs)) ==> Distinct(rejected))
      {
        var refused := DeliverOne(t, recs[i]);
        if refused {
          RefersOne(rejected, OfferedIds(recs), i);
          rejected := rejected + [recs[i].id];
        }
      }
      return Some(rejected);
    }

    /** One record of the loop: a record that is not this tenant's, or has no document, is refused. */
    method DeliverOne(t: Text, rec: Offered) returns (refused: bool)
      requires Valid()
      modifies this, tenants.Values
      ensures Valid() && fresh(tenants.Values - old(tenants.Values))
      ensures !refused ==> Holds(t, rec)
      ensures forall u, id :: old(ContentOf(u, id)).Some? ==> ContentOf(u, id) == old(ContentOf(u, id))
    {
      if !rec.sealedForTenant || rec.document.None? {
        return true;
      }
      var refusal := Accept(t, true, rec.document.value);
      return refusal.Some?;
    }
  }

  /** A record handed to the sink. */
  datatype Offered = Offered(id: Text, sealedForTenant: bool, document: Option<Text>)

  function OfferedIds(recs: seq<Offered>): seq<Text> {
    seq(|recs|, i requires 0 <= i < |recs| => recs[i].id)
  }

  /** Refusing the next record too. */
  lemma RefersOne(rejected: seq<Text>, ids: seq<Text>, n: nat)
    requires n < |ids| && Within(rejected, ids[..n]) && (Distinct(ids) ==> Distinct(rejected))
    ensures Within(rejected + [ids[n]], ids[..n + 1]) && (Distinct(ids) ==> Distinct(rejected + [ids[n]]))
  {
    assert ids[..n + 1] == ids[..n] + [ids[n]];
    if Distinct(ids) {
      forall k | 0 <= k < |rejected|
        ensures rejected[k] != ids[n]
      {
        var j :| 0 <= j < n && ids[..n][j] == rejected[k];
        assert ids[j] != ids[n];
      }
    }
  }
}
