/** Sequences: what it is to have no repeats, and equations that proofs by induction call for by name. */
module Lists {
  predicate Distinct<T(==)>(s: seq<T>) {
    forall i, j :: 0 <= i < j < |s| ==> s[i] != s[j]
  }

  lemma Joins<T>(a: seq<T>, b: seq<T>, c: seq<T>)
    ensures a + b + c == a + (b + c)
  {
  }

  lemma HeadAndTail<T>(s: seq<T>)
    requires s != []
    ensures s == [s[0]] + s[1..]
  {
  }

  lemma Cut<T>(s: seq<T>, n: nat)
    requires n <= |s|
    ensures s == s[..n] + s[n..]
  {
  }

  /** Reading one more element of `all`, of which `n` are read. */
  lemma ReadOne<T>(all: seq<T>, n: nat, c: T, rest: seq<T>)
    requires n <= |all| && all[n..] == [c] + rest
    ensures n < |all| && all[n] == c && all[n + 1..] == rest && all[..n + 1] == all[..n] + [c]
  {
    assert all[n..][0] == c && all[n..][1..] == rest;
  }

  lemma DropInto<T>(a: seq<T>, b: seq<T>, n: nat)
    requires n <= |a|
    ensures (a + b)[n..] == a[n..] + b
  {
  }

  lemma DropDrop<T>(s: seq<T>, i: nat, n: nat)
    requires i + n <= |s|
    ensures s[i..][n..] == s[i + n..]
  {
  }

  /** `some` are the elements of `all` at these positions, in order. */
  predicate PickedAt<T(==)>(all: seq<T>, some: seq<T>, at: seq<nat>) {
    && |at| == |some|
    && (forall n :: 0 <= n < |at| ==> at[n] < |all| && all[at[n]] == some[n])
    && (forall m, n :: 0 <= m < n < |at| ==> at[m] < at[n])
  }

  ghost predicate InOrderOf<T>(all: seq<T>, some: seq<T>) {
    exists at: seq<nat> :: PickedAt(all, some, at)
  }

  /** One more element, which is picked or is not. */
  lemma PickOneMore<T>(all: seq<T>, some: seq<T>, x: T)
    requires InOrderOf(all, some)
    ensures InOrderOf(all + [x], some) && InOrderOf(all + [x], some + [x])
  {
    var at: seq<nat> :| PickedAt(all, some, at);
    assert PickedAt(all + [x], some, at);
    assert PickedAt(all + [x], some + [x], at + [|all|]);
  }

  /** One more element in front. */
  lemma PickOneBefore<T>(all: seq<T>, some: seq<T>, x: T)
    requires InOrderOf(all, some)
    ensures InOrderOf([x] + all, some) && InOrderOf([x] + all, [x] + some)
  {
    var at: seq<nat> :| PickedAt(all, some, at);
    var next: seq<nat> := seq(|at|, n requires 0 <= n < |at| => at[n] + 1);
    assert PickedAt([x] + all, some, next);
    assert PickedAt([x] + all, [x] + some, [0] + next);
  }
}
