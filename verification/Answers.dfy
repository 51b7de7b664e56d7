/** What a sink's answer has to say, and how the drain reads it (internal/worker/worker.go, deadRecords). */
module Answers {
  import opened Names
  import opened Lists

  predicate Within<T(==)>(ids: seq<T>, offered: seq<T>) {
    forall i :: 0 <= i < |ids| ==> ids[i] in offered
  }

  /** The answer names only records that were offered, each at most once. */
  predicate LinesUp<T(==)>(rejected: seq<T>, offered: seq<T>) {
    Within(rejected, offered) && Distinct(rejected)
  }

  /** Some of these ids, each once if those are distinct. */
  predicate Refers<T(==)>(refused: seq<T>, ids: seq<T>) {
    Within(refused, ids) && (Distinct(ids) ==> Distinct(refused))
  }

  datatype Unreadable = NotInTheBatch | Twice

  /** deadRecords: the per-record dead letters, or a refusal to read the answer. */
  method DeadRecords<T(==, !new)>(rejected: seq<T>, offered: seq<T>) returns (r: Result<seq<T>, Unreadable>)
    ensures r.Ok? <==> LinesUp(rejected, offered)
    ensures r.Ok? ==> r.value == rejected
  {
    if rejected == [] {
      return Ok([]);
    }
    var inBatch := set i | 0 <= i < |offered| :: offered[i];
    var seen: set<T>, dead: seq<T> := {}, [];
    for i := 0 to |rejected|
      invariant dead == rejected[..i] && LinesUp(dead, offered)
      invariant forall id :: id in seen <==> id in dead
    {
      assert rejected[..i + 1] == rejected[..i] + [rejected[i]];
      if rejected[i] !in inBatch {
        return Err(NotInTheBatch);
      }
      if rejected[i] in seen {
        return Err(Twice);
      }
      seen := seen + {rejected[i]};
      dead := dead + [rejected[i]];
    }
    return Ok(dead);
  }

  /** Read that way, an answer splits the batch: every offered record was refused or was taken, never both. */
  lemma AnswerSplitsTheBatch<T(!new)>(rejected: seq<T>, offered: seq<T>)
    requires LinesUp(rejected, offered) && Distinct(offered)
    ensures var taken := set id | id in offered && id !in rejected;
            var refused := set id | id in rejected;
            && taken !! refused && taken + refused == (set id | id in offered)
            && |taken| + |rejected| == |offered|
  {
    SetSize(offered);
    SetSize(rejected);
    var taken := set id | id in offered && id !in rejected;
    var refused := set id | id in rejected;
    assert taken + refused == (set id | id in offered);
  }

  lemma {:induction false} SetSize<T(!new)>(ids: seq<T>)
    requires Distinct(ids)
    ensures |set id | id in ids| == |ids|
  {
    if ids == [] {
      assert (set id | id in ids) == {};
    } else {
      var n := |ids| - 1;
      SetSize(ids[..n]);
      assert ids == ids[..n] + [ids[n]];
      assert (set id | id in ids) == (set id | id in ids[..n]) + {ids[n]};
    }
  }
}
