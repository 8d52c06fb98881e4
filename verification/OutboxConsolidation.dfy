/** `consolidate_deferred_streams` on outbox records: the greedy cover of
    Consolidation for disposable trend deferrals and the deferred-stream relation. */
module OutboxConsolidation {
  import opened OutboxRecord
  import Options
  import opened OutboxEnqueue
  import opened OutboxList
  import Consolidation
  import Evictions

  const DISPOSABLE: Record -> bool := (rec: Record) => SafeToEvict(rec) && rec.reason.TrendDeferred?
  const STREAM: (Record, Record) -> bool := (left: Record, right: Record) => SameDeferredStream(left, right)

  ghost predicate Cover(q: seq<Record>, keep: set<nat>) {
    Consolidation.Greedy(q, DISPOSABLE, STREAM, CREATED, keep)
  }

  lemma StreamSymmetric()
    ensures Consolidation.Symmetric(STREAM)
  {
  }

  /** The wildcard provider makes the relation non-transitive, so "one survivor
      per stream" has no meaning and the cover is what the code can promise. */
  lemma StreamNotTransitive(rec: Record)
    ensures var a := rec.(lifecycle := SubmitPending, reason := TrendDeferred);
            var left := a.(provider := Options.Some("binance"));
            var wild := a.(provider := Options.None);
            var right := a.(provider := Options.Some("kraken"));
            STREAM(left, wild) && STREAM(wild, right) && !STREAM(left, right)
  {
    assert "binance"[0] != "kraken"[0];
  }

  lemma {:induction false} CoverOnlyEvicts(q: seq<Record>, keep: set<nat>)
    requires forall i :: 0 <= i < |q| && i !in keep ==> DISPOSABLE(q[i])
    ensures OnlyEvicts(q, Consolidation.Keep(q, keep))
  {
    if q != [] {
      var n := |q| - 1;
      CoverOnlyEvicts(q[..n], keep);
      var front := Consolidation.Keep(q[..n], keep);
      if n in keep {
        assert (front + [q[n]])[..|front|] == front;
      } else {
        assert DISPOSABLE(q[n]) && Consolidation.Keep(q, keep) == front;
      }
    }
  }

  /** Surviving disposable deferrals are pairwise in different streams, each
      removed record has a surviving record of its stream that is no older, every
      other record survives in order, and a second call removes nothing. */
  lemma ConsolidationIsCorrect(q: seq<Record>, keep: set<nat>, again: set<nat>)
    requires Cover(q, keep)
    ensures forall i, j :: i in keep && j in keep && i != j && DISPOSABLE(q[i]) && DISPOSABLE(q[j]) ==>
              !SameDeferredStream(q[i], q[j])
    ensures forall i :: 0 <= i < |q| && i !in keep ==>
              DISPOSABLE(q[i]) &&
              exists j :: j in keep && DISPOSABLE(q[j]) && STREAM(q[i], q[j]) && q[j].createdTs >= q[i].createdTs
    ensures OnlyEvicts(q, Consolidation.Keep(q, keep))
    ensures forall rec :: rec in q && !DISPOSABLE(rec) ==> rec in Consolidation.Keep(q, keep)
    ensures Cover(Consolidation.Keep(q, keep), again) ==>
              Consolidation.Keep(Consolidation.Keep(q, keep), again) == Consolidation.Keep(q, keep)
  {
    StreamSymmetric();
    Consolidation.CoverIsCorrect(q, DISPOSABLE, STREAM, CREATED, keep);
    forall i: nat, j: nat | i in keep && j in keep && i != j && DISPOSABLE(q[i]) && DISPOSABLE(q[j])
      ensures !SameDeferredStream(q[i], q[j])
    {
      assert !STREAM(q[i], q[j]);
    }
    CoverOnlyEvicts(q, keep);
    forall rec | rec in q && !DISPOSABLE(rec) ensures rec in Consolidation.Keep(q, keep) {
      var i :| 0 <= i < |q| && q[i] == rec;
      KeptIsIn(q, keep, i);
    }
    if Cover(Consolidation.Keep(q, keep), again) {
      Consolidation.SecondCallDropsNothing(q, DISPOSABLE, STREAM, CREATED, keep, again);
    }
  }

  lemma {:induction false} KeptIsIn(q: seq<Record>, keep: set<nat>, i: nat)
    requires i < |q| && i in keep
    ensures q[i] in Consolidation.Keep(q, keep)
  {
    if i < |q| - 1 {
      KeptIsIn(q[..|q| - 1], keep, i);
    }
  }

  /** The outcome is determined by the stored list alone. */
  lemma CoverIsUnique(q: seq<Record>, k1: set<nat>, k2: set<nat>)
    requires Cover(q, k1) && Cover(q, k2)
    ensures k1 == k2
  {
    forall i: nat ensures i in k1 <==> i in k2 {
      if i < |q| {
        Consolidation.GreedyUnique(q, DISPOSABLE, STREAM, CREATED, k1, k2, i);
      }
    }
  }
}
