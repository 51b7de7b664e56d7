/** The HTTP sink: byte-bounded requests and per-record outcomes (internal/sink/http.go). */
module HttpSink {
  import opened Names
  import opened Lists
  import opened Answers

  const PREFIX: Text := Ascii("{\"v\":1,\"records\":[")
  const SUFFIX: Text := Ascii("]}")
  const COMMA: byte := ',' as int
  const FRAMING: nat := |PREFIX| + |SUFFIX|

  /** A record to send: whether it is sealed for the tenant, and its document, unless the format refuses it. */
  datatype Outgoing = Outgoing(id: Text, sealedForTenant: bool, document: Option<Text>)

  datatype Action = Retry | Halt

  /** What a receiver answers, as far as it is read. */
  datatype Body = Blank | NotAnObject | Members(count: nat, rejected: Member) | TooLong
  datatype Member = Absent | Null | NotAList | Listed(ids: seq<Text>)
  datatype Reply = NoReply | Reply(status: int, body: Body)

  /** A request that was posted, and what came of it: the records of it the receiver refused, or a fault of the
      whole delivery. */
  datatype Request = Request(body: Text, documents: seq<Text>, ids: seq<Text>, outcome: Result<seq<Text>, Action>)

  // ---- Bodies ----------------------------------------------------------------------------------------

  function Commas(docs: seq<Text>): Text {
    if docs == [] then [] else if |docs| == 1 then docs[0] else Commas(docs[..|docs| - 1]) + [COMMA] + docs[|docs| - 1]
  }

  function BodyOf(docs: seq<Text>): Text {
    PREFIX + Commas(docs) + SUFFIX
  }

  /** Deliver's running count. */
  function SizeOf(docs: seq<Text>): nat {
    if docs == [] then FRAMING else SizeOf(docs[..|docs| - 1]) + Cost(|docs| - 1, docs[|docs| - 1])
  }

  /** A document, and the comma that joins it to the one before it. */
  function Cost(before: nat, doc: Text): nat {
    |doc| + if before > 0 then 1 else 0
  }

  lemma SizePush(docs: seq<Text>, doc: Text)
    ensures SizeOf(docs + [doc]) == SizeOf(docs) + Cost(|docs|, doc)
  {
    assert (docs + [doc])[..|docs|] == docs;
  }

  lemma CommasPush(docs: seq<Text>, doc: Text)
    ensures Commas(docs + [doc]) == (if docs == [] then [] else Commas(docs) + [COMMA]) + doc
  {
    assert (docs + [doc])[..|docs|] == docs;
  }

  /** The body has exactly the size that was added up. */
  lemma {:induction false} BodyHasItsSize(docs: seq<Text>)
    ensures |BodyOf(docs)| == SizeOf(docs)
  {
    if docs != [] {
      BodyHasItsSize(docs[..|docs| - 1]);
    }
  }

  /** The loop of send that joins the chunk. */
  method Assemble(chunk: seq<Text>) returns (body: Text)
    ensures body == BodyOf(chunk)
  {
    body := PREFIX;
    assert chunk[..0] == [] && PREFIX + Commas([]) == PREFIX;
    for i := 0 to |chunk|
      invariant body == PREFIX + Commas(chunk[..i])
    {
      assert chunk[..i + 1] == chunk[..i] + [chunk[i]];
      CommasPush(chunk[..i], chunk[i]);
      if i > 0 {
        Joins(PREFIX, Commas(chunk[..i]), [COMMA]);
        body := body + [COMMA];
        Joins(PREFIX, Commas(chunk[..i]) + [COMMA], chunk[i]);
      } else {
        Joins(PREFIX, [], chunk[i]);
      }
      body := body + chunk[i];
    }
    assert chunk[..|chunk|] == chunk;
    body := body + SUFFIX;
  }

  // ---- Answers ---------------------------------------------------------------------------------------

  /** statusOf: no action when the receiver refused what was sent. */
  function StatusOf(status: int): Option<Action> {
    if status == 401 || status == 403 then Some(Halt)
    else if status == 408 || status == 429 then Some(Retry)
    else if status == 422 then None
    else if 400 <= status <= 499 then Some(Halt)
    else Some(Retry)
  }

  /** The receiver said what it did with this request: nothing at all, or a list of records of it, each once. */
  predicate Readable(body: Body, ids: seq<Text>) {
    body == Blank || body == Members(0, Absent) || (body.Members? && body.rejected.Listed? && LinesUp(body.rejected.ids, ids))
  }

  function NamedIn(body: Body): seq<Text> {
    if body.Members? && body.rejected.Listed? then body.rejected.ids else []
  }

  /** What each body of a 2xx answer says: a blank one and `{}` that everything was taken, a list of records of this
      request, each once, that these were refused, and any other nothing. */
  predicate BodyMeans(body: Body, ids: seq<Text>, r: Result<seq<Text>, Action>) {
    match body
    case Blank => r == Ok([])
    case NotAnObject => r == Err(Retry)
    case TooLong => r == Err(Retry)
    case Members(count, Absent) => r == if count == 0 then Ok([]) else Err(Retry)
    case Members(_, Null) => r == Err(Retry)
    case Members(_, NotAList) => r == Err(Retry)
    case Members(_, Listed(named)) =>
      if (forall i :: 0 <= i < |named| ==> named[i] in ids) && (forall i, j :: 0 <= i < j < |named| ==> named[i] != named[j])
      then r == Ok(named) else r == Err(Retry)
  }

  /** rejectionsFrom. */
  method RejectionsFrom(body: Body, ids: seq<Text>) returns (r: Result<seq<Text>, Action>)
    ensures r == if Readable(body, ids) then Ok(NamedIn(body)) else Err(Retry)
    ensures BodyMeans(body, ids, r)
  {
    match body
    case Blank => return Ok([]);
    case NotAnObject => return Err(Retry);
    case TooLong => return Err(Retry);
    case Members(count, rejected) =>
      match rejected
      case Absent => return if count == 0 then Ok([]) else Err(Retry);
      case Null => return Err(Retry);
      case NotAList => return Err(Retry);
      case Listed(named) => r := Named(named, ids);
  }

  /** The loop over the named records, which are to be of this request and each named once. */
  method Named(named: seq<Text>, ids: seq<Text>) returns (r: Result<seq<Text>, Action>)
    ensures r == if LinesUp(named, ids) then Ok(named) else Err(Retry)
  {
    var dead := DeadRecords(named, ids);
    return if dead.Ok? then Ok(dead.value) else Err(Retry);
  }

  /** What a reply to a request means: a fault, the records the receiver refused by a 2xx answer, or the refusal of
      the whole request. */
  function OutcomeOf(reply: Reply, ids: seq<Text>): Result<seq<Text>, Action> {
    if reply.NoReply? then Err(Retry)
    else if 200 <= reply.status <= 299 then if Readable(reply.body, ids) then Ok(NamedIn(reply.body)) else Err(Retry)
    else if StatusOf(reply.status).Some? then Err(StatusOf(reply.status).value)
    else Ok(ids)
  }

  /** Whatever the reply, the records refused are of the request, each once if the request's are distinct. */
  lemma OutcomeRefers(reply: Reply, ids: seq<Text>)
    ensures OutcomeOf(reply, ids).Ok? ==> Refers(OutcomeOf(reply, ids).value, ids)
  {
  }

  /** What each reply says, status by status: a 2xx answer is as good as its body, a 422 refuses every record of the
      request, 408 and 429 and whatever is not a 4xx ask for another try, as does silence, and every other 4xx stops
      the delivery. */
  predicate ReplyMeans(reply: Reply, ids: seq<Text>, r: Result<seq<Text>, Action>) {
    match reply
    case NoReply => r == Err(Retry)
    case Reply(status, body) =>
      && (200 <= status <= 299 ==> BodyMeans(body, ids, r))
      && (status == 422 ==> r == Ok(ids))
      && (status == 408 || status == 429 ==> r == Err(Retry))
      && (400 <= status <= 499 && status != 408 && status != 422 && status != 429 ==> r == Err(Halt))
      && (status < 200 || 300 <= status <= 399 || 500 <= status ==> r == Err(Retry))
  }

  lemma OutcomeMeans(reply: Reply, ids: seq<Text>)
    ensures ReplyMeans(reply, ids, OutcomeOf(reply, ids))
  {
  }

  /** send: one request, and what came of it. */
  method Send(chunk: seq<Text>, ids: seq<Text>, reply: Reply) returns (body: Text, r: Result<seq<Text>, Action>)
    ensures body == BodyOf(chunk) && r == OutcomeOf(reply, ids)
    ensures ReplyMeans(reply, ids, r)
  {
    body := Assemble(chunk);
    if reply.NoReply? {
      return body, Err(Retry);
    }
    if reply.status < 200 || reply.status > 299 {
      var verdict := StatusOf(reply.status);
      r := if verdict.Some? then Err(verdict.value) else Ok(ids);
    } else {
      r := RejectionsFrom(reply.body, ids);
    }
  }

  // ---- A delivery ------------------------------------------------------------------------------------

  predicate Sendable(r: Outgoing, max: nat) {
    r.sealedForTenant && r.document.Some? && FRAMING + |r.document.value| <= max
  }

  function SendableOf(recs: seq<Outgoing>, max: nat): seq<Outgoing> {
    if recs == [] then []
    else SendableOf(recs[..|recs| - 1], max) + if Sendable(recs[|recs| - 1], max) then [recs[|recs| - 1]] else []
  }

  /** What marshalAll rejects by itself. */
  function UnsendableIds(recs: seq<Outgoing>, max: nat): seq<Text> {
    if recs == [] then []
    else UnsendableIds(recs[..|recs| - 1], max) + if Sendable(recs[|recs| - 1], max) then [] else [recs[|recs| - 1].id]
  }

  function Ids(recs: seq<Outgoing>): seq<Text> {
    seq(|recs|, i requires 0 <= i < |recs| => recs[i].id)
  }

  /** Everything the requests carried, in order, and everything refused in them. */
  function DocumentsSent(sent: seq<Request>): seq<Text> {
    if sent == [] then [] else DocumentsSent(sent[..|sent| - 1]) + sent[|sent| - 1].documents
  }

  function IdsSent(sent: seq<Request>): seq<Text> {
    if sent == [] then [] else IdsSent(sent[..|sent| - 1]) + sent[|sent| - 1].ids
  }

  function RefusedBy(q: Request): seq<Text> {
    if q.outcome.Ok? then q.outcome.value else []
  }

  function Refused(sent: seq<Request>): seq<Text> {
    if sent == [] then [] else Refused(sent[..|sent| - 1]) + RefusedBy(sent[|sent| - 1])
  }

  predicate RequestOk(q: Request, max: nat) {
    && q.documents != [] && |q.ids| == |q.documents|
    && q.body == BodyOf(q.documents) && |q.body| <= max
    && Refers(RefusedBy(q), q.ids)
  }

  /** Each request was answered in its turn. */
  predicate AnsweredBy(sent: seq<Request>, replies: nat -> Reply) {
    forall k :: 0 <= k < |sent| ==> sent[k].outcome == OutcomeOf(replies(k), sent[k].ids)
  }

  /** The requests so far all went through. */
  predicate NoFault(sent: seq<Request>) {
    forall k :: 0 <= k < |sent| ==> sent[k].outcome.Ok?
  }

  /** The last request met this fault, and no other did. */
  predicate EndsIn(sent: seq<Request>, fault: Action) {
    sent != [] && sent[|sent| - 1].outcome == Err(fault) && NoFault(sent[..|sent| - 1])
  }

  function Documents(recs: seq<Outgoing>): seq<Text>
    requires forall i :: 0 <= i < |recs| ==> recs[i].document.Some?
  {
    seq(|recs|, i requires 0 <= i < |recs| => recs[i].document.value)
  }

  lemma {:induction false} SendableHaveDocuments(recs: seq<Outgoing>, max: nat)
    ensures forall i :: 0 <= i < |SendableOf(recs, max)| ==> Sendable(SendableOf(recs, max)[i], max)
  {
    if recs != [] {
      SendableHaveDocuments(recs[..|recs| - 1], max);
    }
  }

  function SendableDocuments(recs: seq<Outgoing>, max: nat): seq<Text> {
    SendableHaveDocuments(recs, max);
    Documents(SendableOf(recs, max))
  }

  /** What was posted, and what is in the chunk, is what could be sent of the first `i` records, in order; and every
      request was within the limit and answered in its turn. */
  ghost predicate Posted(recs: seq<Outgoing>, max: nat, i: nat, replies: nat -> Reply, sent: seq<Request>, chunk: seq<Text>, ids: seq<Text>) {
    && i <= |recs|
    && DocumentsSent(sent) + chunk == SendableDocuments(recs[..i], max)
    && IdsSent(sent) + ids == Ids(SendableOf(recs[..i], max))
    && AnsweredBy(sent, replies)
    && forall k :: 0 <= k < |sent| ==> RequestOk(sent[k], max)
  }

  /** The loop of Deliver after `i` records: all requests went through, and the chunk's size is the running count. */
  ghost predicate Batching(recs: seq<Outgoing>, max: nat, i: nat, replies: nat -> Reply,
                           sent: seq<Request>, chunk: seq<Text>, ids: seq<Text>, size: nat) {
    && Posted(recs, max, i, replies, sent, chunk, ids) && NoFault(sent)
    && |ids| == |chunk| && size == SizeOf(chunk) && (chunk != [] ==> size <= max)
  }

  lemma SendablePush(recs: seq<Outgoing>, max: nat, i: nat)
    requires i < |recs|
    ensures var docs, docs' := SendableDocuments(recs[..i], max), SendableDocuments(recs[..i + 1], max);
            var ids, ids' := Ids(SendableOf(recs[..i], max)), Ids(SendableOf(recs[..i + 1], max));
            if Sendable(recs[i], max) then docs' == docs + [recs[i].document.value] && ids' == ids + [recs[i].id]
            else docs' == docs && ids' == ids
  {
    assert recs[..i + 1][..i] == recs[..i];
    SendableHaveDocuments(recs[..i], max);
    SendableHaveDocuments(recs[..i + 1], max);
    if !Sendable(recs[i], max) {
      assert SendableOf(recs[..i + 1], max) == SendableOf(recs[..i], max);
    }
  }

  /** A record goes into the chunk. */
  lemma ChunkPush(recs: seq<Outgoing>, max: nat, i: nat, replies: nat -> Reply, sent: seq<Request>, chunk: seq<Text>, ids: seq<Text>, size: nat)
    requires i < |recs| && Batching(recs, max, i, replies, sent, chunk, ids, size) && Sendable(recs[i], max)
    requires size + Cost(|chunk|, recs[i].document.value) <= max
    ensures Batching(recs, max, i + 1, replies, sent, chunk + [recs[i].document.value], ids + [recs[i].id], size + Cost(|chunk|, recs[i].document.value))
  {
    SendablePush(recs, max, i);
    SizePush(chunk, recs[i].document.value);
    Joins(DocumentsSent(sent), chunk, [recs[i].document.value]);
    Joins(IdsSent(sent), ids, [recs[i].id]);
  }

  lemma Skipped(recs: seq<Outgoing>, max: nat, i: nat, replies: nat -> Reply, sent: seq<Request>, chunk: seq<Text>, ids: seq<Text>, size: nat)
    requires i < |recs| && Batching(recs, max, i, replies, sent, chunk, ids, size) && !Sendable(recs[i], max)
    ensures Batching(recs, max, i + 1, replies, sent, chunk, ids, size)
  {
    SendablePush(recs, max, i);
  }

  lemma SumsPush(sent: seq<Request>, q: Request)
    ensures DocumentsSent(sent + [q]) + [] == DocumentsSent(sent) + q.documents && IdsSent(sent + [q]) + [] == IdsSent(sent) + q.ids
    ensures Refused(sent + [q]) == Refused(sent) + RefusedBy(q)
  {
    assert (sent + [q])[..|sent|] == sent;
  }

  lemma FaultsPush(sent: seq<Request>, q: Request)
    requires NoFault(sent)
    ensures if q.outcome.Ok? then NoFault(sent + [q]) else EndsIn(sent + [q], q.outcome.error)
  {
    assert (sent + [q])[..|sent|] == sent;
  }

  lemma AllPush(sent: seq<Request>, q: Request, max: nat, replies: nat -> Reply)
    requires AnsweredBy(sent, replies) && q.outcome == OutcomeOf(replies(|sent|), q.ids)
    requires RequestOk(q, max) && forall k :: 0 <= k < |sent| ==> RequestOk(sent[k], max)
    ensures AnsweredBy(sent + [q], replies) && forall k :: 0 <= k < |sent + [q]| ==> RequestOk((sent + [q])[k], max)
  {
  }

  lemma ChunkIsOk(chunk: seq<Text>, ids: seq<Text>, max: nat, reply: Reply)
    requires chunk != [] && |ids| == |chunk| && SizeOf(chunk) <= max
    ensures RequestOk(Request(BodyOf(chunk), chunk, ids, OutcomeOf(reply, ids)), max)
  {
    BodyHasItsSize(chunk);
    OutcomeRefers(reply, ids);
  }

  /** The chunk goes out as one request. */
  lemma SentPush(recs: seq<Outgoing>, max: nat, i: nat, replies: nat -> Reply, sent: seq<Request>, chunk: seq<Text>, ids: seq<Text>, size: nat, q: Request)
    requires Batching(recs, max, i, replies, sent, chunk, ids, size) && chunk != []
    requires q == Request(BodyOf(chunk), chunk, ids, OutcomeOf(replies(|sent|), ids))
    ensures Posted(recs, max, i, replies, sent + [q], [], []) && Refused(sent + [q]) == Refused(sent) + RefusedBy(q)
    ensures if q.outcome.Ok? then NoFault(sent + [q]) else EndsIn(sent + [q], q.outcome.error)
  {
    ChunkIsOk(chunk, ids, max, replies(|sent|));
    AllPush(sent, q, max, replies);
    SumsPush(sent, q);
    FaultsPush(sent, q);
  }

  /** marshalAll's own rejections. */
  method Unsendable(recs: seq<Outgoing>, max: nat) returns (rejected: seq<Text>)
    ensures rejected == UnsendableIds(recs, max)
  {
    rejected := [];
    assert recs[..0] == [];
    for i := 0 to |recs|
      invariant rejected == UnsendableIds(recs[..i], max)
    {
      assert recs[..i + 1][..i] == recs[..i];
      var r := recs[i];
      if !r.sealedForTenant {
        rejected := rejected + [r.id];
        continue;
      }
      if r.document.None? || FRAMING + |r.document.value| > max {
        rejected := rejected + [r.id];
      }
    }
    assert recs[..|recs|] == recs;
  }

  /** flush: what is in the chunk goes out, if there is anything. */
  method Flush(ghost recs: seq<Outgoing>, ghost max: nat, ghost i: nat, replies: nat -> Reply,
               sent: seq<Request>, chunk: seq<Text>, ids: seq<Text>, size: nat)
    returns (r: Result<seq<Text>, Action>, sent': seq<Request>)
    requires Batching(recs, max, i, replies, sent, chunk, ids, size)
    ensures r.Ok? ==> Batching(recs, max, i, replies, sent', [], [], FRAMING) && Refused(sent') == Refused(sent) + r.value
    ensures r.Err? ==> Posted(recs, max, i, replies, sent', [], []) && EndsIn(sent', r.error)
  {
    if chunk == [] {
      assert Refused(sent) + [] == Refused(sent);
      return Ok([]), sent;
    }
    var body;
    body, r := Send(chunk, ids, replies(|sent|));
    sent' := sent + [Request(body, chunk, ids, r)];
    SentPush(recs, max, i, replies, sent, chunk, ids, size, Request(body, chunk, ids, r));
  }

  /** A document that does not fit beside what is in the chunk goes first into the next one. */
  method MakeRoom(ghost recs: seq<Outgoing>, max: nat, ghost i: nat, replies: nat -> Reply,
                  sent: seq<Request>, chunk: seq<Text>, ids: seq<Text>, size: nat, doc: Text)
    returns (r: Result<seq<Text>, Action>, sent': seq<Request>, chunk': seq<Text>, ids': seq<Text>, size': nat)
    requires Batching(recs, max, i, replies, sent, chunk, ids, size) && FRAMING + |doc| <= max
    ensures r.Ok? ==> Batching(recs, max, i, replies, sent', chunk', ids', size') && size' + Cost(|chunk'|, doc) <= max
    ensures r.Ok? ==> Refused(sent') == Refused(sent) + r.value
    ensures r.Err? ==> Posted(recs, max, i, replies, sent', [], []) && EndsIn(sent', r.error)
  {
    if size + Cost(|chunk|, doc) > max {
      r, sent' := Flush(recs, max, i, replies, sent, chunk, ids, size);
      chunk', ids', size' := [], [], FRAMING;
    } else {
      assert Refused(sent) + [] == Refused(sent);
      r, sent', chunk', ids', size' := Ok([]), sent, chunk, ids, size;
    }
  }

  /** What could be sent of the first records comes first. */
  lemma {:induction false} SendablePrefix(recs: seq<Outgoing>, max: nat, i: nat)
    requires i <= |recs|
    ensures SendableDocuments(recs[..i], max) <= SendableDocuments(recs, max)
    ensures Ids(SendableOf(recs[..i], max)) <= Ids(SendableOf(recs, max))
    decreases |recs| - i
  {
    if i < |recs| {
      SendablePush(recs, max, i);
      SendablePrefix(recs, max, i + 1);
    } else {
      assert recs[..i] == recs;
    }
  }

  lemma PostedSoFar(recs: seq<Outgoing>, max: nat, i: nat, replies: nat -> Reply, sent: seq<Request>)
    requires Posted(recs, max, i, replies, sent, [], [])
    ensures DocumentsSent(sent) <= SendableDocuments(recs, max) && IdsSent(sent) <= Ids(SendableOf(recs, max))
  {
    SendablePrefix(recs, max, i);
    assert DocumentsSent(sent) + [] == DocumentsSent(sent) && IdsSent(sent) + [] == IdsSent(sent);
  }

  /** The loop of Deliver over what marshalAll left to send. */
  method Post(recs: seq<Outgoing>, max: nat, replies: nat -> Reply) returns (r: Result<seq<Text>, Action>, sent: seq<Request>)
    ensures AnsweredBy(sent, replies) && forall k :: 0 <= k < |sent| ==> RequestOk(sent[k], max)
    ensures r.Ok? ==> Batching(recs, max, |recs|, replies, sent, [], [], FRAMING) && r.value == Refused(sent)
    ensures r.Err? ==> DocumentsSent(sent) <= SendableDocuments(recs, max) && IdsSent(sent) <= Ids(SendableOf(recs, max)) && EndsIn(sent, r.error)
  {
    sent := [];
    var result: seq<Text> := [];
    var chunk: seq<Text>, ids: seq<Text>, size: nat := [], [], FRAMING;
    assert recs[..0] == [];
    for i := 0 to |recs|
      invariant Batching(recs, max, i, replies, sent, chunk, ids, size)
      invariant result == Refused(sent)
    {
      if !Sendable(recs[i], max) {
        Skipped(recs, max, i, replies, sent, chunk, ids, size);
        continue;
      }
      var doc := recs[i].document.value;
      r, sent, chunk, ids, size := MakeRoom(recs, max, i, replies, sent, chunk, ids, size, doc);
      if r.Err? {
        PostedSoFar(recs, max, i, replies, sent);
        return r, sent;
      }
      result := result + r.value;
      ChunkPush(recs, max, i, replies, sent, chunk, ids, size);
      size := size + Cost(|chunk|, doc);
      chunk, ids := chunk + [doc], ids + [recs[i].id];
    }
    r, sent := Flush(recs, max, |recs|, replies, sent, chunk, ids, size);
    if r.Err? {
      PostedSoFar(recs, max, |recs|, replies, sent);
    } else {
      r := Ok(result + r.value);
    }
  }

  // ---- What a delivery means for one record ---------------------------------------------------------------

  /** A record of another tenant, one the format refuses, and one whose document alone does not fit a request. */
  predicate CannotGo(r: Outgoing, max: nat) {
    !r.sealedForTenant || r.document.None? || 20 + |r.document.value| > max
  }

  /** The reply refuses this record of its request: all of them, or by name. */
  predicate Refuses(reply: Reply, ids: seq<Text>, id: Text) {
    && reply.Reply?
    && ((reply.status == 422 && id in ids)
        || (200 <= reply.status <= 299 && reply.body.Members? && reply.body.rejected.Listed? && id in reply.body.rejected.ids))
  }

  /** The reply says that this record of its request was taken: a 2xx answer that could be read, and does not name it. */
  predicate Takes(reply: Reply, ids: seq<Text>, id: Text) {
    && reply.Reply? && 200 <= reply.status <= 299
    && (|| reply.body == Blank
        || reply.body == Members(0, Absent)
        || (reply.body.Members? && reply.body.rejected.Listed? && id !in reply.body.rejected.ids && LinesUp(reply.body.rejected.ids, ids)))
  }

  /** Each request went through: its reply took or refused each of its records. */
  predicate AllSettled(sent: seq<Request>, replies: nat -> Reply) {
    forall k, id {:trigger Takes(replies(k), sent[k].ids, id)} ::
      0 <= k < |sent| && id in sent[k].ids ==> (Takes(replies(k), sent[k].ids, id) <==> !Refuses(replies(k), sent[k].ids, id))
  }

  predicate Unsent(recs: seq<Outgoing>, max: nat, id: Text) {
    exists i :: 0 <= i < |recs| && recs[i].id == id && CannotGo(recs[i], max)
  }

  predicate RefusedInOne(sent: seq<Request>, replies: nat -> Reply, id: Text) {
    exists k :: 0 <= k < |sent| && Refuses(replies(k), sent[k].ids, id)
  }

  /** The answer names the records that cannot go, those refused in a request, and no others. */
  ghost predicate NamesExactly(recs: seq<Outgoing>, max: nat, sent: seq<Request>, replies: nat -> Reply, answer: seq<Text>) {
    forall id :: id in answer <==> Unsent(recs, max, id) || RefusedInOne(sent, replies, id)
  }

  /** The request has the record's id and document at one place. */
  predicate CarriedIn(q: Request, r: Outgoing) {
    exists j :: 0 <= j < |q.ids| && j < |q.documents| && q.ids[j] == r.id && r.document == Some(q.documents[j])
  }

  predicate Carries(sent: seq<Request>, r: Outgoing) {
    exists k :: 0 <= k < |sent| && CarriedIn(sent[k], r)
  }

  /** Every record that can go is carried, with its document, by one of the requests. */
  predicate CarriesAll(recs: seq<Outgoing>, max: nat, sent: seq<Request>) {
    forall i :: 0 <= i < |recs| && !CannotGo(recs[i], max) ==> Carries(sent, recs[i])
  }

  lemma {:induction false} UnsendableMeans(recs: seq<Outgoing>, max: nat, id: Text)
    ensures id in UnsendableIds(recs, max) <==> Unsent(recs, max, id)
  {
    if recs != [] {
      var init, last := recs[..|recs| - 1], recs[|recs| - 1];
      UnsendableMeans(init, max, id);
      assert forall i :: 0 <= i < |init| ==> recs[i] == init[i];
      assert last.id == id && CannotGo(last, max) ==> recs[|recs| - 1].id == id;
    }
  }

  lemma OutcomeRefuses(reply: Reply, ids: seq<Text>, id: Text)
    ensures var r := OutcomeOf(reply, ids);
            && (id in RefusedBy(Request([], [], ids, r)) <==> r.Ok? && Refuses(reply, ids, id))
            && (r.Ok? && id in ids ==> (Takes(reply, ids, id) <==> !Refuses(reply, ids, id)))
  {
  }

  lemma {:induction false} RefusedMeans(sent: seq<Request>, replies: nat -> Reply, id: Text)
    requires AnsweredBy(sent, replies) && NoFault(sent)
    ensures id in Refused(sent) <==> RefusedInOne(sent, replies, id)
  {
    if sent != [] {
      var init, k := sent[..|sent| - 1], |sent| - 1;
      RefusedMeans(init, replies, id);
      OutcomeRefuses(replies(k), sent[k].ids, id);
      RefusedInLast(sent, replies, id);
    }
  }

  lemma RefusedInLast(sent: seq<Request>, replies: nat -> Reply, id: Text)
    requires sent != []
    ensures var k := |sent| - 1; RefusedInOne(sent, replies, id) <==> RefusedInOne(sent[..k], replies, id) || Refuses(replies(k), sent[k].ids, id)
  {
    var k := |sent| - 1;
    if RefusedInOne(sent[..k], replies, id) {
      var j :| 0 <= j < k && Refuses(replies(j), sent[..k][j].ids, id);
      assert Refuses(replies(j), sent[j].ids, id);
    }
    if j :| 0 <= j < |sent| && Refuses(replies(j), sent[j].ids, id) {
      assert j < k ==> Refuses(replies(j), sent[..k][j].ids, id);
    }
  }

  lemma Settled(sent: seq<Request>, replies: nat -> Reply)
    requires AnsweredBy(sent, replies) && NoFault(sent)
    ensures AllSettled(sent, replies)
  {
    forall k, id | 0 <= k < |sent| && id in sent[k].ids
      ensures Takes(replies(k), sent[k].ids, id) <==> !Refuses(replies(k), sent[k].ids, id)
    {
      OutcomeRefuses(replies(k), sent[k].ids, id);
    }
  }

  lemma AnswersMean(sent: seq<Request>, replies: nat -> Reply)
    requires AnsweredBy(sent, replies)
    ensures RepliesMean(sent, replies)
  {
    forall k | 0 <= k < |sent|
      ensures ReplyMeans(replies(k), sent[k].ids, sent[k].outcome)
    {
      OutcomeMeans(replies(k), sent[k].ids);
    }
  }

  predicate RepliesMean(sent: seq<Request>, replies: nat -> Reply) {
    forall k :: 0 <= k < |sent| ==> ReplyMeans(replies(k), sent[k].ids, sent[k].outcome)
  }

  lemma {:induction false} SentIsCarried(sent: seq<Request>, max: nat, r: Outgoing, n: nat)
    requires forall k :: 0 <= k < |sent| ==> RequestOk(sent[k], max)
    requires |IdsSent(sent)| == |DocumentsSent(sent)|
    requires n < |IdsSent(sent)| && IdsSent(sent)[n] == r.id && r.document == Some(DocumentsSent(sent)[n])
    ensures Carries(sent, r)
  {
    var init, k := sent[..|sent| - 1], |sent| - 1;
    SameCount(init, max);
    var m := |IdsSent(init)|;
    if n < m {
      SentIsCarried(init, max, r, n);
      CarriedEarlier(sent, r);
    } else {
      PlaceInLast(IdsSent(init), sent[k].ids, n);
      PlaceInLast(DocumentsSent(init), sent[k].documents, n);
      assert CarriedIn(sent[k], r);
    }
  }

  lemma PlaceInLast(a: seq<Text>, b: seq<Text>, n: nat)
    requires |a| <= n < |a + b|
    ensures (a + b)[n] == b[n - |a|]
  {
  }

  lemma CarriedEarlier(sent: seq<Request>, r: Outgoing)
    requires sent != [] && Carries(sent[..|sent| - 1], r)
    ensures Carries(sent, r)
  {
    var i :| 0 <= i < |sent| - 1 && CarriedIn(sent[..|sent| - 1][i], r);
    assert CarriedIn(sent[i], r);
  }

  lemma {:induction false} SameCount(sent: seq<Request>, max: nat)
    requires forall k :: 0 <= k < |sent| ==> RequestOk(sent[k], max)
    ensures |IdsSent(sent)| == |DocumentsSent(sent)|
  {
    if sent != [] {
      SameCount(sent[..|sent| - 1], max);
    }
  }

  /** Every record that can go has a position among those sent. */
  lemma {:induction false} SendablePlace(recs: seq<Outgoing>, max: nat, i: nat) returns (n: nat)
    requires i < |recs| && !CannotGo(recs[i], max)
    ensures n < |SendableOf(recs, max)| && SendableOf(recs, max)[n] == recs[i]
  {
    var init := recs[..|recs| - 1];
    if i < |init| {
      n := SendablePlace(init, max, i);
    } else {
      n := |SendableOf(init, max)|;
    }
  }

  lemma AllCarried(recs: seq<Outgoing>, max: nat, sent: seq<Request>)
    requires forall k :: 0 <= k < |sent| ==> RequestOk(sent[k], max)
    requires DocumentsSent(sent) == SendableDocuments(recs, max) && IdsSent(sent) == Ids(SendableOf(recs, max))
    ensures CarriesAll(recs, max, sent)
  {
    SendableHaveDocuments(recs, max);
    forall i | 0 <= i < |recs| && !CannotGo(recs[i], max)
      ensures Carries(sent, recs[i])
    {
      var n := SendablePlace(recs, max, i);
      SentIsCarried(sent, max, recs[i], n);
    }
  }

  lemma AnswerNames(recs: seq<Outgoing>, max: nat, replies: nat -> Reply, sent: seq<Request>, answer: seq<Text>)
    requires AnsweredBy(sent, replies) && NoFault(sent) && answer == UnsendableIds(recs, max) + Refused(sent)
    ensures NamesExactly(recs, max, sent, replies, answer)
  {
    forall id
      ensures id in answer <==> Unsent(recs, max, id) || RefusedInOne(sent, replies, id)
    {
      UnsendableMeans(recs, max, id);
      RefusedMeans(sent, replies, id);
    }
  }

  /** What was sent is what can go, in its order: `at` are the positions of the records sent. */
  predicate SentAt(recs: seq<Outgoing>, max: nat, ids: seq<Text>, at: seq<nat>) {
    PickedAt(Ids(recs), ids, at) && forall i :: 0 <= i < |recs| ==> (i in at <==> !CannotGo(recs[i], max))
  }

  ghost predicate InTurn(recs: seq<Outgoing>, max: nat, ids: seq<Text>) {
    exists at: seq<nat> :: SentAt(recs, max, ids, at)
  }

  lemma SentInTurn(recs: seq<Outgoing>, max: nat)
    ensures InTurn(recs, max, Ids(SendableOf(recs, max)))
  {
    var at := SentInOrder(recs, max);
  }

  lemma {:induction false} SentInOrder(recs: seq<Outgoing>, max: nat) returns (at: seq<nat>)
    ensures SentAt(recs, max, Ids(SendableOf(recs, max)), at)
  {
    if recs == [] {
      at := [];
    } else {
      var init, last := recs[..|recs| - 1], recs[|recs| - 1];
      var before := SentInOrder(init, max);
      at := SentOneMore(recs, max, init, last, before);
    }
  }

  lemma SentOneMore(recs: seq<Outgoing>, max: nat, init: seq<Outgoing>, last: Outgoing, before: seq<nat>) returns (at: seq<nat>)
    requires recs != [] && init == recs[..|recs| - 1] && last == recs[|recs| - 1] && SentAt(init, max, Ids(SendableOf(init, max)), before)
    ensures SentAt(recs, max, Ids(SendableOf(recs, max)), at)
  {
    var ids := Ids(SendableOf(init, max));
    SentAtPush(init, last, max, ids, before);
    LastParts(recs, max);
    assert recs == init + [last];
    if CannotGo(last, max) {
      assert ids + [] == ids;
      at := before;
    } else {
      at := before + [|init|];
    }
  }

  lemma SentAtPush(init: seq<Outgoing>, last: Outgoing, max: nat, ids: seq<Text>, before: seq<nat>)
    requires SentAt(init, max, ids, before)
    ensures if CannotGo(last, max) then SentAt(init + [last], max, ids, before) else SentAt(init + [last], max, ids + [last.id], before + [|init|])
  {
    var recs := init + [last];
    assert |init| !in before;
    assert forall i :: 0 <= i < |init| ==> Ids(recs)[i] == Ids(init)[i];
    assert forall i :: i in before + [|init|] <==> i in before || i == |init|;
  }

  /** Deliver. Every request that is posted, one that meets a fault included, is a body of exactly the size that was
      added up and within the limit, and is answered in its turn. On success no request met a fault, the requests
      carry each record that can be sent once and in order, and the answer names the records that could not be sent
      and those the receiver refused. On a fault the requests carry the first of those records, the last request is
      the one that met it, and without a credential there is no request. `replies` is what the receiver answers. */
  method Deliver(credential: bool, recs: seq<Outgoing>, max: nat, replies: nat -> Reply) returns (r: Result<seq<Text>, Action>, sent: seq<Request>)
    ensures AnsweredBy(sent, replies) && forall k :: 0 <= k < |sent| ==> RequestOk(sent[k], max)
    ensures r.Ok? ==> NoFault(sent) && DocumentsSent(sent) == SendableDocuments(recs, max) && IdsSent(sent) == Ids(SendableOf(recs, max))
    ensures r.Ok? ==> r.value == UnsendableIds(recs, max) + Refused(sent)
    ensures r.Err? ==> DocumentsSent(sent) <= SendableDocuments(recs, max) && IdsSent(sent) <= Ids(SendableOf(recs, max))
    ensures r.Err? ==> if credential then EndsIn(sent, r.error) else sent == [] && r.error == Retry
    ensures r.Ok? ==> credential || recs == []
    ensures RepliesMean(sent, replies)
    ensures r.Ok? ==> AllSettled(sent, replies) && NamesExactly(recs, max, sent, replies, r.value) && CarriesAll(recs, max, sent) && InTurn(recs, max, IdsSent(sent))
  {
    if recs == [] {
      SentInTurn(recs, max);
      return Ok([]), [];
    }
    if !credential {
      return Err(Retry), [];
    }
    var own := Unsendable(recs, max);
    r, sent := Post(recs, max, replies);
    AnswersMean(sent, replies);
    if r.Ok? {
      Delivered(recs, max, replies, sent);
      r := Ok(own + r.value);
      Settled(sent, replies);
      AnswerNames(recs, max, replies, sent, r.value);
      AllCarried(recs, max, sent);
      SentInTurn(recs, max);
    }
  }

  lemma Delivered(recs: seq<Outgoing>, max: nat, replies: nat -> Reply, sent: seq<Request>)
    requires Batching(recs, max, |recs|, replies, sent, [], [], FRAMING)
    ensures DocumentsSent(sent) == SendableDocuments(recs, max) && IdsSent(sent) == Ids(SendableOf(recs, max))
  {
    assert recs[..|recs|] == recs;
    assert DocumentsSent(sent) + [] == DocumentsSent(sent) && IdsSent(sent) + [] == IdsSent(sent);
  }

  // ---- So the drain can always read the answer -----------------------------------------------------------

  /** The ids of the records before the last, and of what can be sent of all of them. */
  lemma LastParts(recs: seq<Outgoing>, max: nat)
    requires recs != []
    ensures var init, last := recs[..|recs| - 1], recs[|recs| - 1];
            && Ids(recs) == Ids(init) + [last.id]
            && Ids(SendableOf(recs, max)) == Ids(SendableOf(init, max)) + (if Sendable(last, max) then [last.id] else [])
            && UnsendableIds(recs, max) == UnsendableIds(init, max) + (if Sendable(last, max) then [] else [last.id])
  {
  }

  lemma WithinMore(a: seq<Text>, ids: seq<Text>, id: Text)
    requires Within(a, ids)
    ensures Within(a, ids + [id]) && Within(a + [id], ids + [id]) && Within(a + [], ids + [id])
  {
  }

  lemma {:induction false} PartsAreWithin(recs: seq<Outgoing>, max: nat)
    ensures Within(Ids(SendableOf(recs, max)), Ids(recs)) && Within(UnsendableIds(recs, max), Ids(recs))
  {
    if recs != [] {
      var init, last := recs[..|recs| - 1], recs[|recs| - 1];
      LastParts(recs, max);
      PartsAreWithin(init, max);
      WithinMore(Ids(SendableOf(init, max)), Ids(init), last.id);
      WithinMore(UnsendableIds(init, max), Ids(init), last.id);
    }
  }

  /** With distinct ids, a record was sent or rejected here, not both, and once. */
  lemma {:induction false} PartsAreDistinct(recs: seq<Outgoing>, max: nat)
    requires Distinct(Ids(recs))
    ensures Distinct(UnsendableIds(recs, max) + Ids(SendableOf(recs, max)))
  {
    if recs != [] {
      var init, last := recs[..|recs| - 1], recs[|recs| - 1];
      LastParts(recs, max);
      DistinctParts(Ids(init), [last.id]);
      assert [last.id][0] == last.id;
      PartsAreDistinct(init, max);
      PartsAreWithin(init, max);
      NotWithin(UnsendableIds(init, max), Ids(init), last.id);
      NotWithin(Ids(SendableOf(init, max)), Ids(init), last.id);
      OneMore(UnsendableIds(init, max), Ids(SendableOf(init, max)), last.id);
    }
  }

  lemma NotWithin(a: seq<Text>, ids: seq<Text>, id: Text)
    requires Within(a, ids) && forall i :: 0 <= i < |ids| ==> ids[i] != id
    ensures id !in a
  {
  }

  lemma OneMore(a: seq<Text>, b: seq<Text>, id: Text)
    requires Distinct(a + b) && id !in a && id !in b
    ensures Distinct(a + [] + (b + [id])) && Distinct(a + [id] + (b + []))
  {
    assert b + [] == b && a + [] == a;
    DistinctParts(a, b);
    forall i, j | 0 <= i < j < |a + [id] + b|
      ensures (a + [id] + b)[i] != (a + [id] + b)[j]
    {
      var s := a + [id] + b;
      assert s[i] == (if i < |a| then a[i] else if i == |a| then id else b[i - |a| - 1]);
      assert s[j] == (if j < |a| then a[j] else if j == |a| then id else b[j - |a| - 1]);
    }
    forall i, j | 0 <= i < j < |a + (b + [id])|
      ensures (a + (b + [id]))[i] != (a + (b + [id]))[j]
    {
      var s := a + (b + [id]);
      assert s[i] == (if i < |a + b| then (a + b)[i] else id);
      assert s[j] == (if j < |a + b| then (a + b)[j] else id);
    }
  }

  lemma DistinctParts(a: seq<Text>, b: seq<Text>)
    requires Distinct(a + b)
    ensures Distinct(a) && Distinct(b) && forall i, j :: 0 <= i < |a| && 0 <= j < |b| ==> a[i] != b[j]
  {
    assert forall i :: 0 <= i < |a| ==> (a + b)[i] == a[i];
    assert forall i :: 0 <= i < |b| ==> (a + b)[|a| + i] == b[i];
  }

  /** What was refused in the requests is among what they carried, each once if that is distinct. */
  lemma {:induction false} RefusedIsSent(sent: seq<Request>, max: nat)
    requires forall k :: 0 <= k < |sent| ==> RequestOk(sent[k], max)
    ensures Refers(Refused(sent), IdsSent(sent))
  {
    if sent != [] {
      var init, q := sent[..|sent| - 1], sent[|sent| - 1];
      RefusedIsSent(init, max);
      RefersPush(Refused(init), IdsSent(init), RefusedBy(q), q.ids);
    }
  }

  lemma RefersPush(a: seq<Text>, ids: seq<Text>, b: seq<Text>, more: seq<Text>)
    requires Refers(a, ids) && Refers(b, more)
    ensures Refers(a + b, ids + more)
  {
    if Distinct(ids + more) {
      DistinctParts(ids, more);
      forall i, j | 0 <= i < j < |a + b|
        ensures (a + b)[i] != (a + b)[j]
      {
        if i < |a| <= j {
          assert a[i] in ids && b[j - |a|] in more;
        }
      }
    }
  }

  /** With distinct ids, every successful answer names only offered records and each at most once, so
      deadRecords accepts it, and taken and refused split the batch. */
  lemma AnswerLinesUp(recs: seq<Outgoing>, max: nat, sent: seq<Request>)
    requires Distinct(Ids(recs)) && forall k :: 0 <= k < |sent| ==> RequestOk(sent[k], max)
    requires IdsSent(sent) == Ids(SendableOf(recs, max))
    ensures LinesUp(UnsendableIds(recs, max) + Refused(sent), Ids(recs))
  {
    var own, ids := UnsendableIds(recs, max), IdsSent(sent);
    PartsAreWithin(recs, max);
    PartsAreDistinct(recs, max);
    DistinctParts(own, ids);
    RefusedIsSent(sent, max);
    var all := own + Refused(sent);
    forall i, j | 0 <= i < j < |all|
      ensures all[i] != all[j]
    {
      if i < |own| <= j {
        assert Refused(sent)[j - |own|] in ids;
      }
    }
    forall i | 0 <= i < |all|
      ensures all[i] in Ids(recs)
    {
      if i >= |own| {
        var k :| 0 <= k < |ids| && ids[k] == Refused(sent)[i - |own|];
      }
    }
  }
}
