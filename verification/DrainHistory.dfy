/** What the tables say about the past: how many attempts a row has been charged, and in what order the
    rows of a queue finish. */
module DrainHistory {
  import opened Names
  import opened Queue
  import opened Drain
  import opened DrainTables

  // ---- Attempts ---------------------------------------------------------------------------------

  /** Claims less halts and releases, since the row was accepted or last replayed. */
  function Charged(log: seq<Entry>, id: RowId): int {
    if log == [] then 0 else Charge(log[|log| - 1], id, Charged(log[..|log| - 1], id))
  }

  function Charge(x: Entry, id: RowId, before: int): int {
    if x.Reset? && x.id == id then 0
    else if x.Took? && id in x.ids then before + 1
    else if x.GaveBack? && x.id == id then before - 1
    else before
  }

  ghost predicate AttemptsOk(rows: Rows, log: seq<Entry>) {
    && (forall id :: id in rows ==> rows[id].attempts == Charged(log, id))
    && (forall id :: id !in rows ==> Charged(log, id) == 0)
  }

  /** What one event charges a row. */
  function ChargedBy(entries: seq<Entry>, id: RowId, before: int): int {
    if entries == [] then before else Charge(entries[0], id, before)
  }

  /** How the attempts column and the log move together. */
  ghost predicate ChargesMatch(rows: Rows, ch: RowChange, entries: seq<Entry>) {
    match ch
    case Nothing => entries == []
    case Put(id, row) => entries == [Reset(id)] && row.attempts == 0
    case Touch(id, row) =>
      id in rows && ((entries == [] && row.attempts == rows[id].attempts)
                     || (entries == [GaveBack(id)] && row.attempts == rows[id].attempts - 1))
    case Lease(ids, _, _) => entries == [Took(ids)] && ids <= rows.Keys
    case End(id, _) => id in rows && entries == DoneBy(rows, ch)
  }

  /** The clamp at zero never bites: a row that is halted or released is leased, so a claim was charged to it. */
  lemma EventCharges(cfg: Config, s: Sys, e: Event)
    requires QueueOk(s.db.rows) && Enabled(cfg, s, e)
    ensures ChargesMatch(s.db.rows, RowChangeOf(cfg, s, e), Entries(cfg, s, e))
  {
    if e.Halt? || e.Release? {
      assert LeaseOk(s.db.rows[e.c.row]);
    }
  }

  lemma StepAttempts(cfg: Config, s: Sys, e: Event)
    requires QueueOk(s.db.rows) && AttemptsOk(s.db.rows, s.log) && Enabled(cfg, s, e)
    ensures AttemptsOk(ChangeRows(s.db.rows, RowChangeOf(cfg, s, e)), s.log + Entries(cfg, s, e))
  {
    var ch := RowChangeOf(cfg, s, e);
    EnabledChangeOk(cfg, s, e);
    ChangeFrame(s.db.rows, ch);
    EventCharges(cfg, s, e);
    AttemptsByFrame(s.db.rows, ch, ChangeRows(s.db.rows, ch), s.log, Entries(cfg, s, e));
  }

  lemma AttemptsByFrame(rows: Rows, ch: RowChange, rows': Rows, log: seq<Entry>, entries: seq<Entry>)
    requires RowsFrame(rows, ch, rows') && ChargesMatch(rows, ch, entries) && AttemptsOk(rows, log)
    ensures AttemptsOk(rows', log + entries)
  {
    forall id
      ensures Charged(log + entries, id) == if id in rows' then rows'[id].attempts else 0
    {
      ChargedAppend(log, entries, id);
      if id in rows && id !in Target(ch) && id !in Leased(ch) {
        assert SameLease(rows[id], rows'[id]);
      }
    }
  }

  lemma ChargedAppend(log: seq<Entry>, entries: seq<Entry>, id: RowId)
    requires |entries| <= 1
    ensures Charged(log + entries, id) == ChargedBy(entries, id, Charged(log, id))
  {
    if entries == [] {
      assert log + entries == log;
    } else {
      assert (log + entries)[..|log|] == log;
    }
  }

  // ---- The order of finishes -----------------------------------------------------------------------

  /** Every finish in the log is of a row that is not ahead of where it finished, and every unfinished row
      of its queue is behind it. */
  ghost predicate DoneOk(rows: Rows, d: Entry)
    requires d.Done?
  {
    && d.id in rows && rows[d.id].key == d.key && d.place <= rows[d.id].place
    && forall id :: id in rows && rows[id].key == d.key && rows[id].Unfinished() ==> d.place < rows[id].place
  }

  ghost predicate OrderOk(rows: Rows, log: seq<Entry>) {
    && (forall i :: 0 <= i < |log| && log[i].Done? ==> DoneOk(rows, log[i]))
    && FinishesRise(log)
  }

  /** The places at which the rows of one queue finish only rise, replayed rows included. */
  ghost predicate FinishesRise(log: seq<Entry>) {
    forall i, j :: 0 <= i < j < |log| && log[i].Done? && log[j].Done? && log[i].key == log[j].key ==> log[i].place < log[j].place
  }

  lemma DoneStays(rows: Rows, ch: RowChange, d: Entry)
    requires QueueOk(rows) && ChangeOk(rows, ch) && d.Done? && DoneOk(rows, d)
    ensures DoneOk(ChangeRows(rows, ch), d)
  {
    var rows' := ChangeRows(rows, ch);
    ChangeFrame(rows, ch);
    assert SameRow(rows[d.id], rows'[d.id]);
    forall id | id in rows' && rows'[id].key == d.key && rows'[id].Unfinished()
      ensures d.place < rows'[id].place
    {
      if ch.Put? && id == ch.id {
        assert rows[d.id].place < ch.row.place;
      } else {
        assert SameRow(rows[id], rows'[id]);
        if id !in Target(ch) {
          assert SameState(rows[id], rows'[id]);
        }
      }
    }
  }

  /** A finish is of the head, so everything unfinished of its queue is behind it. */
  lemma NewDone(rows: Rows, ch: RowChange)
    requires QueueOk(rows) && ChangeOk(rows, ch) && ch.End?
    ensures DoneOk(ChangeRows(rows, ch), Done(ch.id, rows[ch.id].key, rows[ch.id].place))
  {
    var rows' := ChangeRows(rows, ch);
    ChangeFrame(rows, ch);
    assert IsLowest(rows, ch.id);
    forall id | id in rows' && rows'[id].key == rows[ch.id].key && rows'[id].Unfinished()
      ensures rows[ch.id].place < rows'[id].place
    {
      assert SameRow(rows[id], rows'[id]);
      if id != ch.id {
        assert SameState(rows[id], rows'[id]);
      }
    }
  }

  /** The entries an event can log, against the row change it makes. */
  lemma EventEntries(cfg: Config, s: Sys, e: Event)
    requires Enabled(cfg, s, e) && ChangeOk(s.db.rows, RowChangeOf(cfg, s, e))
    ensures var ch, entries := RowChangeOf(cfg, s, e), Entries(cfg, s, e);
            |entries| <= 1 && (entries != [] && entries[0].Done? ==> ch.End? && ch.id in s.db.rows && entries == DoneBy(s.db.rows, ch))
  {
  }

  lemma StepOrder(cfg: Config, s: Sys, e: Event)
    requires QueueOk(s.db.rows) && OrderOk(s.db.rows, s.log) && Enabled(cfg, s, e)
    ensures OrderOk(ChangeRows(s.db.rows, RowChangeOf(cfg, s, e)), s.log + Entries(cfg, s, e))
  {
    EnabledChangeOk(cfg, s, e);
    EventEntries(cfg, s, e);
    OrderByChange(s.db.rows, RowChangeOf(cfg, s, e), s.log, Entries(cfg, s, e));
  }

  lemma OrderByChange(rows: Rows, ch: RowChange, log: seq<Entry>, entries: seq<Entry>)
    requires QueueOk(rows) && ChangeOk(rows, ch) && OrderOk(rows, log)
    requires |entries| <= 1
    requires entries != [] && entries[0].Done? ==> ch.End? && ch.id in rows && entries == DoneBy(rows, ch)
    ensures OrderOk(ChangeRows(rows, ch), log + entries)
  {
    var log' := log + entries;
    forall i | 0 <= i < |log'| && log'[i].Done?
      ensures DoneOk(ChangeRows(rows, ch), log'[i])
    {
      if i < |log| {
        DoneStays(rows, ch, log[i]);
      } else {
        NewDone(rows, ch);
      }
    }
    forall i, j | 0 <= i < j < |log'| && log'[i].Done? && log'[j].Done? && log'[i].key == log'[j].key
      ensures log'[i].place < log'[j].place
    {
      if j == |log| {
        assert DoneOk(rows, log[i]) && IsLowest(rows, ch.id);
      }
    }
  }
}
