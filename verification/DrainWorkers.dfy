/** What every event keeps of the workers: a worker whose token is still on its row knows exactly which
    records wait under it; one whose token was taken over knows nothing and can change nothing. */
module DrainWorkers {
  import opened Names
  import opened Queue
  import Ledger
  import opened Drain
  import opened DrainTables

  /** The claim an event acts for. */
  function Actor(e: Event): Option<ClaimId> {
    match e
    case Start(c) => Some(c)
    case Abandon(c) => Some(c)
    case Release(c) => Some(c)
    case SeeWork(c) => Some(c)
    case Prepare(c, _) => Some(c)
    case ReadPrepared(c) => Some(c)
    case Deliver(c, _) => Some(c)
    case Finish(c) => Some(c)
    case Fail(c, _) => Some(c)
    case MarkDead(c) => Some(c)
    case Halt(c, _) => Some(c)
    case Lose(c) => Some(c)
    case _ => None
  }

  /** The row an event changes is free afterwards, or still its holder's. */
  ghost predicate LeftToHolder(rows: Rows, e: Event, ch: RowChange) {
    AboutOneRow(rows, ch) ==>
      || TargetRow(rows, ch).lease == Free
      || (Actor(e).Some? && Actor(e).value.row == ch.id && ch.id in rows
          && rows[ch.id].HeldBy(Actor(e).value.token) && TargetRow(rows, ch).lease == rows[ch.id].lease)
  }

  lemma TargetLease(cfg: Config, s: Sys, e: Event)
    requires Enabled(cfg, s, e) && ChangeOk(s.db.rows, RowChangeOf(cfg, s, e))
    ensures LeftToHolder(s.db.rows, e, RowChangeOf(cfg, s, e))
  {
  }

  lemma WaitingStored(ids: seq<RecordId>)
    ensures WaitingIds(Stored(ids)) == ids
  {
    if ids != [] {
      WaitingStored(ids[1..]);
      assert Stored(ids)[1..] == Stored(ids[1..]);
    }
  }

  /** A worker that is not the one acting is left as it was, or has lost its row. */
  lemma OtherHandle(cfg: Config, s: Sys, e: Event, c: ClaimId)
    requires QueueOk(s.db.rows) && RecsOk(s.db) && HandlesOk(s) && Enabled(cfg, s, e)
    requires c in s.handles && Actor(e) != Some(c)
    ensures RowFits(s.handles[c], ChangeDb(cfg, s, e), c)
  {
    assert HandleFits(s, c);
    var ch := RowChangeOf(cfg, s, e);
    EnabledChangeOk(cfg, s, e);
    ChangeFrame(s.db.rows, ch);
    RecsChangeFrame(cfg, s, e);
    TargetLease(cfg, s, e);
    FreshClaimToken(cfg, s, e);
    OtherHandleByFrame(s.handles[c], s.db, e, ch, ChangeDb(cfg, s, e), c);
  }

  /** A claim's token is on no row yet. */
  ghost predicate NewToken(ch: RowChange, c: ClaimId) {
    ch.Lease? ==> ch.token != c.token
  }

  lemma FreshClaimToken(cfg: Config, s: Sys, e: Event)
    requires Enabled(cfg, s, e) && HandlesOk(s)
    ensures forall c :: c in s.handles ==> NewToken(RowChangeOf(cfg, s, e), c)
  {
    forall c | c in s.handles
      ensures c.token in s.tokens
    {
      assert HandleFits(s, c);
    }
  }

  lemma OtherHandleByFrame(h: Handle, db: Db, e: Event, ch: RowChange, db': Db, c: ClaimId)
    requires RowsFrame(db.rows, ch, db'.rows) && RecsFrame(db.recs, ch, db'.recs) && LeftToHolder(db.rows, e, ch)
    requires RowFits(h, db, c)
    requires NewToken(ch, c) && Actor(e) != Some(c)
    requires ch.End? ==> ch.id in db.rows
    ensures RowFits(h, db', c)
  {
    assert SameRow(db.rows[c.row], db'.rows[c.row]);
    if c.row in Target(ch) {
      assert AboutOneRow(db.rows, ch) && ch.id == c.row;
    } else if c.row !in Leased(ch) {
      assert SameState(db.rows[c.row], db'.rows[c.row]);
      assert SameLease(db.rows[c.row], db'.rows[c.row]);
    }
  }

  /** What the acting worker may believe afterwards. */
  lemma OwnHandle(cfg: Config, s: Sys, e: Event)
    requires QueueOk(s.db.rows) && RecsOk(s.db) && HandlesOk(s) && Enabled(cfg, s, e)
    requires Actor(e).Some? && Actor(e).value in ChangeHandles(cfg, s, e)
    ensures RowFits(ChangeHandles(cfg, s, e)[Actor(e).value], ChangeDb(cfg, s, e), Actor(e).value)
  {
    var c := Actor(e).value;
    assert HandleFits(s, c);
    if e.Prepare? {
      PreparedFits(cfg, s, c, e.records);
    } else {
      LookedFits(cfg, s, e, c);
    }
  }

  lemma PreparedFits(cfg: Config, s: Sys, c: ClaimId, records: seq<RecordId>)
    requires c in s.handles && RowFits(s.handles[c], s.db, c) && Enabled(cfg, s, Event.Prepare(c, records))
    ensures RowFits(ChangeHandles(cfg, s, Event.Prepare(c, records))[c], ChangeDb(cfg, s, Event.Prepare(c, records)), c)
  {
    WaitingStored(Batch(cfg, s, records).prepared);
  }

  lemma LookedFits(cfg: Config, s: Sys, e: Event, c: ClaimId)
    requires c in s.handles && RowFits(s.handles[c], s.db, c) && RecsOk(s.db) && Enabled(cfg, s, e)
    requires Actor(e) == Some(c) && !e.Prepare? && c in ChangeHandles(cfg, s, e)
    ensures RowFits(ChangeHandles(cfg, s, e)[c], ChangeDb(cfg, s, e), c)
  {
    assert RowRecsOk(s.db.rows[c.row], s.db.recs[c.row]);
  }

  /** A claim hands out the attempt it charged. */
  lemma NewHandle(cfg: Config, s: Sys, e: Event, c: ClaimId)
    requires QueueOk(s.db.rows) && RecsOk(s.db) && Enabled(cfg, s, e) && e.Claim?
    requires c in Claims(e.ids, e.token, s.db.rows)
    ensures RowFits(Claims(e.ids, e.token, s.db.rows)[c], ChangeDb(cfg, s, e), c)
  {
    assert s.db.rows[c.row].isHead <==> IsLowest(s.db.rows, c.row);
  }

  lemma StepRowFits(cfg: Config, s: Sys, e: Event, c: ClaimId)
    requires QueueOk(s.db.rows) && RecsOk(s.db) && HandlesOk(s) && Enabled(cfg, s, e)
    requires c in ChangeHandles(cfg, s, e)
    ensures RowFits(ChangeHandles(cfg, s, e)[c], ChangeDb(cfg, s, e), c)
  {
    if Actor(e) == Some(c) {
      OwnHandle(cfg, s, e);
    } else if e.Claim? && c in Claims(e.ids, e.token, s.db.rows) {
      NewHandle(cfg, s, e, c);
    } else {
      OtherHandle(cfg, s, e, c);
    }
  }

  lemma StepAnswer(cfg: Config, s: Sys, e: Event, c: ClaimId)
    requires HandlesOk(s) && Enabled(cfg, s, e)
    requires c in ChangeHandles(cfg, s, e)
    ensures AnswerFits(ChangeHandles(cfg, s, e)[c].phase, Apply(cfg, s, e).taken)
  {
    if c in s.handles {
      assert HandleFits(s, c);
    }
  }

  lemma StepTokens(cfg: Config, s: Sys, e: Event)
    requires QueueOk(s.db.rows) && TokensKnown(s.db.rows, s.tokens) && Enabled(cfg, s, e)
    ensures TokensKnown(ChangeRows(s.db.rows, RowChangeOf(cfg, s, e)), Apply(cfg, s, e).tokens)
  {
    var ch := RowChangeOf(cfg, s, e);
    EnabledChangeOk(cfg, s, e);
    ChangeFrame(s.db.rows, ch);
    TargetLease(cfg, s, e);
    TokensByFrame(s.db.rows, e, ch, ChangeRows(s.db.rows, ch), s.tokens);
    ClaimsMint(cfg, s, e);
  }

  /** The tokens of the past grow by the token of a claim, which is the only change that leases rows. */
  lemma ClaimsMint(cfg: Config, s: Sys, e: Event)
    requires Enabled(cfg, s, e)
    ensures var ch := RowChangeOf(cfg, s, e);
            Apply(cfg, s, e).tokens == if ch.Lease? then s.tokens + {ch.token} else s.tokens
  {
  }

  lemma HandleTokens(cfg: Config, s: Sys, e: Event)
    requires HandlesOk(s) && Enabled(cfg, s, e)
    ensures forall c :: c in ChangeHandles(cfg, s, e) ==> c.token in Apply(cfg, s, e).tokens
  {
    forall c | c in s.handles
      ensures c.token in s.tokens
    {
      assert HandleFits(s, c);
    }
  }

  lemma TokensByFrame(rows: Rows, e: Event, ch: RowChange, rows': Rows, tokens: set<Token>)
    requires RowsFrame(rows, ch, rows') && LeftToHolder(rows, e, ch) && TokensKnown(rows, tokens)
    requires ch.End? ==> ch.id in rows
    ensures TokensKnown(rows', if ch.Lease? then tokens + {ch.token} else tokens)
  {
    forall id | id in rows' && rows'[id].lease.Held?
      ensures rows'[id].lease.token in (if ch.Lease? then tokens + {ch.token} else tokens)
    {
      if id in rows && id !in Target(ch) && id !in Leased(ch) {
        assert SameLease(rows[id], rows'[id]);
      }
    }
  }

  lemma StepHandles(cfg: Config, s: Sys, e: Event)
    requires QueueOk(s.db.rows) && RecsOk(s.db) && HandlesOk(s) && Enabled(cfg, s, e)
    ensures HandlesOk(Apply(cfg, s, e))
  {
    var s' := Apply(cfg, s, e);
    StepTokens(cfg, s, e);
    HandleTokens(cfg, s, e);
    forall c | c in s'.handles
      ensures HandleFits(s', c)
    {
      StepRowFits(cfg, s, e, c);
      StepAnswer(cfg, s, e, c);
    }
  }
}
