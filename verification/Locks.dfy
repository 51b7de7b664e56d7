/** The advisory lock keys and the order a delivery takes them in (internal/pipeline/ledger.go and the lock
    statements of internal/outbox and internal/pipeline). */
module Locks {
  import opened Names

  // ---- Keys ------------------------------------------------------------------------------------------

  const HIGH_BIT: bv64 := 0x8000_0000_0000_0000
  const LOW_BITS: bv64 := 0x7FFF_FFFF_FFFF_FFFF
  const TWO_TO_THE_64: int := 0x1_0000_0000_0000_0000

  /** A bigint is a 64-bit two's complement number. */
  function Signed(b: bv64): int {
    if b & HIGH_BIT == 0 then b as int else b as int - TWO_TO_THE_64
  }

  /** The key of a queue's lock: its hash with the high bit set. */
  function QueueLockKey(hash: bv64): int {
    Signed(hash | HIGH_BIT)
  }

  /** The key of an entity's lock: its hash with the high bit cleared. */
  function EntityLockKey(hash: bv64): int {
    Signed(hash & LOW_BITS)
  }

  lemma HighBitSet(hash: bv64)
    ensures (hash | HIGH_BIT) & HIGH_BIT != 0
  {
  }

  lemma HighBitClear(hash: bv64)
    ensures (hash & LOW_BITS) & HIGH_BIT == 0
  {
  }

  /** The two halves of the namespace are disjoint, whatever the hashes: ascending order puts every queue
      lock before every entity lock. */
  lemma HalvesAreDisjoint(queueHash: bv64, entityHash: bv64)
    ensures QueueLockKey(queueHash) < 0 <= EntityLockKey(entityHash)
  {
    HighBitSet(queueHash);
    HighBitClear(entityHash);
  }

  // ---- The order --------------------------------------------------------------------------------------

  predicate Ascending(s: seq<int>) {
    forall i, j :: 0 <= i < j < |s| ==> s[i] <= s[j]
  }

  predicate StrictlyAscending(s: seq<int>) {
    forall i, j :: 0 <= i < j < |s| ==> s[i] < s[j]
  }

  /** slices.Sort: the keys in ascending order, in place. */
  method Sort(keys: array<int>)
    modifies keys
    ensures Ascending(keys[..]) && multiset(keys[..]) == multiset(old(keys[..]))
  {
    var n := 0;
    while n < keys.Length
      invariant n <= keys.Length
      invariant Ascending(keys[..n])
      invariant multiset(keys[..]) == multiset(old(keys[..]))
    {
      var k := n;
      while k > 0 && keys[k - 1] > keys[k]
        invariant 0 <= k <= n
        invariant forall i, j :: 0 <= i < j <= n && j != k ==> keys[i] <= keys[j]
        invariant multiset(keys[..]) == multiset(old(keys[..]))
      {
        keys[k - 1], keys[k] := keys[k], keys[k - 1];
        k := k - 1;
      }
      n := n + 1;
    }
    assert keys[..n] == keys[..];
  }

  ghost predicate SameKeys(a: seq<int>, b: seq<int>) {
    forall k :: k in a <==> k in b
  }

  /** slices.Compact: each run of equal keys once. */
  method Compact(keys: array<int>) returns (kept: nat)
    requires Ascending(keys[..])
    modifies keys
    ensures kept <= keys.Length && StrictlyAscending(keys[..kept]) && SameKeys(keys[..kept], old(keys[..]))
  {
    ghost var was := keys[..];
    kept := 0;
    var i := 0;
    while i < keys.Length
      invariant kept <= i <= keys.Length == |was|
      invariant keys[i..] == was[i..]
      invariant StrictlyAscending(keys[..kept]) && SameKeys(keys[..kept], was[..i])
      invariant i > 0 ==> kept > 0 && keys[kept - 1] == was[i - 1]
    {
      ghost var before := keys[..kept];
      assert was[..i + 1] == was[..i] + [was[i]] && keys[i] == keys[i..][0] == was[i];
      if kept == 0 || keys[kept - 1] != keys[i] {
        assert kept > 0 ==> before[kept - 1] < was[i];
        keys[kept] := keys[i];
        kept := kept + 1;
        assert keys[..kept] == before + [was[i]];
      }
      i := i + 1;
      assert keys[i..] == was[i..];
    }
    assert was[..i] == was;
  }

  /** lockOrder: strictly ascending, and the same keys. */
  method LockOrder(keys: array<int>) returns (order: seq<int>)
    modifies keys
    ensures StrictlyAscending(order) && SameKeys(order, old(keys[..]))
  {
    ghost var was := keys[..];
    Sort(keys);
    ghost var sorted := keys[..];
    assert forall k :: (k in was <==> k in multiset(was)) && (k in sorted <==> k in multiset(sorted));
    var kept := Compact(keys);
    order := keys[..kept];
  }

  lemma SomeKeys(a: seq<int>, b: seq<int>)
    requires SameKeys(a, b) && b != []
    ensures a != []
  {
    var k := b[0];
    assert k in b && k in a;
  }

  /** Two deliveries with the same keys take them in the same order, whatever order the database returned
      them in: the order is a function of the set. */
  lemma {:induction false} OrderIsOfTheSet(a: seq<int>, b: seq<int>)
    requires StrictlyAscending(a) && StrictlyAscending(b) && SameKeys(a, b)
    ensures a == b
  {
    if b != [] {
      SomeKeys(a, b);
    }
    if a != [] {
      SomeKeys(b, a);
      var m, n := |a| - 1, |b| - 1;
      assert a[m] in b && b[n] in a;
      assert a == a[..m] + [a[m]] && b == b[..n] + [b[n]];
      forall k
        ensures k in a[..m] <==> k in b[..n]
      {
        assert k in a <==> k in b;
      }
      OrderIsOfTheSet(a[..m], b[..n]);
    }
  }

  /** A transaction that held locks of both kinds would take its queue's before its entities'. */
  lemma QueueLocksFirst(order: seq<int>, i: nat, j: nat, queueHash: bv64, entityHash: bv64)
    requires StrictlyAscending(order) && i < |order| && j < |order|
    requires order[i] == QueueLockKey(queueHash) && order[j] == EntityLockKey(entityHash)
    ensures i < j
  {
    HalvesAreDisjoint(queueHash, entityHash);
  }

  /** Taken in that order, each key is above every key already held. */
  lemma NextIsAbove(order: seq<int>, n: nat)
    requires StrictlyAscending(order) && n < |order|
    ensures forall l :: l in order[..n] ==> l < order[n]
  {
  }
}
