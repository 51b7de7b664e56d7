/** The redaction map as transactions see it: a Prepare takes its values one by one, each is held to the end of
    the transaction, and no two open transactions hold the same one. */
module InterleavingMappings {
  import opened Names
  import opened Knots
  import opened Drain
  import opened Interleaving
  import opened InterleavingSteps

  /** How far the upsert is: after the ledger, in the order of its list, and all of it before the row is marked. */
  predicate MappedOk(lk: Locking, x: Txn) {
    && x.mapped <= Wanted(lk, x)
    && (x.mapped != [] ==> x.event.Prepare? && x.count == |x.event.records|)
    && (x.event.Prepare? && (x.stage == Marked || x.stage == Complete) ==> x.mapped == Wanted(lk, x))
  }

  ghost predicate AllMapped(lk: Locking, txns: map<TxnId, Txn>) {
    && (forall t :: t in txns ==> MappedOk(lk, txns[t]))
    && (forall t, u :: t in txns && u in txns && t != u ==> NoneShared(txns[t].mapped, txns[u].mapped))
  }

  lemma MapNext(lk: Locking, x: Txn)
    requires MappedOk(lk, x) && AtValue(lk, x)
    ensures MappedOk(lk, x.(mapped := x.mapped + [NextValue(lk, x)]))
  {
  }

  lemma WorkMapped(cfg: Config, lk: Locking, f: Fine, a: Act)
    requires IsStatement(a) && Open(f, a) && Can(cfg, lk, f, a) && MappedOk(lk, f.txns[a.t])
    ensures MappedOk(lk, Work(cfg, lk, f, a))
  {
    if a.MapValue? {
      MapNext(lk, f.txns[a.t]);
    }
  }

  /** What a statement adds is free. */
  lemma WorkTakes(cfg: Config, lk: Locking, f: Fine, a: Act)
    requires IsStatement(a) && Open(f, a) && Can(cfg, lk, f, a)
    ensures var x' := Work(cfg, lk, f, a);
            forall m :: m in x'.mapped ==> m in f.txns[a.t].mapped || MappingFree(f, a.t, m)
  {
  }

  lemma StatementMaps(cfg: Config, lk: Locking, f: Fine, a: Act)
    requires IsStatement(a) && Open(f, a) && Can(cfg, lk, f, a) && AllMapped(lk, f.txns)
    ensures AllMapped(lk, f.txns[a.t := Work(cfg, lk, f, a)])
  {
    WorkMapped(cfg, lk, f, a);
    WorkTakes(cfg, lk, f, a);
    ReplacedMaps(lk, f, a.t, Work(cfg, lk, f, a));
  }

  lemma ReplacedMaps(lk: Locking, f: Fine, t: TxnId, x': Txn)
    requires t in f.txns && AllMapped(lk, f.txns) && MappedOk(lk, x')
    requires forall m :: m in x'.mapped ==> m in f.txns[t].mapped || MappingFree(f, t, m)
    ensures AllMapped(lk, f.txns[t := x'])
  {
    forall u | u in f.txns && u != t
      ensures NoneShared(x'.mapped, f.txns[u].mapped) && NoneShared(f.txns[u].mapped, x'.mapped)
    {
      assert NoneShared(f.txns[t].mapped, f.txns[u].mapped);
    }
  }
}
