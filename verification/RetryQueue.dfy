/** The outbox file under its lock: every method is one locked operation of
    order_retry.py, written as the loop over the stored list that the source runs
    and proved against the list functions of OutboxList and OutboxEnqueue. */
module RetryQueueFile {
  import opened Options
  import opened OutboxRecord
  import opened OutboxEdits
  import opened OutboxList
  import opened OutboxEnqueue
  import Passes
  import Evictions
  import Consolidation
  import opened OutboxConsolidation

  class RetryQueue {
    const cfg: Config
    var records: seq<Record>

    ghost predicate Valid()
      reads this
    {
      ValidList(records)
    }

    /** At most RETRY_MAX_QUEUE records. */
    predicate Bounded()
      reads this
    {
      WithinBound(cfg, records)
    }

    constructor (cfg: Config)
      ensures Valid() && Bounded() && this.cfg == cfg && records == []
    {
      this.cfg := cfg;
      records := [];
    }

    /** `claim`: leases every listed record that is not under a live lease.  A lease
        that is not positive raises, unless there is nothing to claim. */
    method Claim(ids: set<nat>, now: real, lease: real, token: nat) returns (raised: bool, claimed: seq<Record>)
      requires Valid()
      modifies this
      ensures Valid() && (old(Bounded()) ==> Bounded())
      ensures raised == (ids != {} && lease <= 0.0)
      ensures raised || ids == {} ==> records == old(records) && claimed == []
      ensures !raised && ids != {} ==>
                records == Rewrite(old(records), ClaimEdit(ids, now, lease, token)) &&
                claimed == Passes.Rewrite(old(records), Chosen(ClaimEdit(ids, now, lease, token)))
    {
      raised, claimed := ids != {} && lease <= 0.0, [];
      if ids != {} && !raised {
        claimed := ClaimPass(ids, now, lease, token);
      }
    }

    method ClaimPass(ids: set<nat>, now: real, lease: real, token: nat) returns (claimed: seq<Record>)
      requires Valid() && lease > 0.0
      modifies this
      ensures Valid() && (old(Bounded()) ==> Bounded())
      ensures records == Rewrite(old(records), ClaimEdit(ids, now, lease, token))
      ensures claimed == Passes.Rewrite(old(records), Chosen(ClaimEdit(ids, now, lease, token)))
    {
      ghost var edit := ClaimEdit(ids, now, lease, token);
      var existing := records;
      var rewritten: seq<Record> := [];
      claimed := [];
      var i := 0;
      while i < |existing|
        invariant 0 <= i <= |existing| && existing == old(records) && records == old(records)
        invariant rewritten == Rewrite(existing[..i], edit)
        invariant claimed == Passes.Rewrite(existing[..i], Chosen(edit))
      {
        Passes.RewriteStep(existing, i, Chosen(edit));
        Passes.RewriteStep(existing, i, Pass(edit));
        var rec := existing[i];
        if rec.id in ids && !(rec.claim.Some? && rec.claim.value.until > now) {
          rec := rec.(claim := Some(Lease(token, now + lease, rec.revision)));
          claimed := claimed + [rec];
        }
        rewritten := rewritten + [rec];
        i := i + 1;
      }
      assert existing[..i] == existing;
      RewriteKeepsValid(existing, edit);
      RewriteShorter(existing, edit);
      records := rewritten;
    }

    /** `begin_claimed_submit`: marks one exact claimed revision possibly
        submitted, or returns nothing and changes nothing. */
    method BeginClaimedSubmit(snap: Record, now: real, lease: real, process: nat) returns (refreshed: Option<Record>)
      requires Valid()
      modifies this
      ensures Valid() && (old(Bounded()) ==> Bounded())
      ensures now <= 0.0 || lease <= 0.0 ==> refreshed.None? && records == old(records)
      ensures now > 0.0 && lease > 0.0 ==>
                records == Rewrite(old(records), BeginEdit(snap, now, lease, process)) &&
                (refreshed.Some? <==> exists o :: o in old(records) && BeginMatches(o, snap))
      ensures refreshed.None? ==> records == old(records)
      ensures refreshed.Some? ==> refreshed.value.id == snap.id && Lookup(records, snap.id) == refreshed
    {
      refreshed := None;
      if now > 0.0 && lease > 0.0 {
        refreshed := BeginPass(snap, now, lease, process);
      }
    }

    method BeginPass(snap: Record, now: real, lease: real, process: nat) returns (refreshed: Option<Record>)
      requires Valid() && now > 0.0 && lease > 0.0
      modifies this
      ensures Valid() && (old(Bounded()) ==> Bounded())
      ensures records == Rewrite(old(records), BeginEdit(snap, now, lease, process))
      ensures refreshed.Some? <==> exists o :: o in old(records) && BeginMatches(o, snap)
      ensures refreshed.None? ==> records == old(records)
      ensures refreshed.Some? ==> refreshed.value.id == snap.id && Lookup(records, snap.id) == refreshed
    {
      ghost var edit := BeginEdit(snap, now, lease, process);
      refreshed := None;
      var i := 0;
      while i < |records|
        invariant 0 <= i <= |records| && records == old(records)
        invariant forall k :: 0 <= k < i ==> !Selects(edit, records[k])
      {
        var rec := records[i];
        if rec.id == snap.id && rec.claim.Some? && snap.claim.Some?
           && rec.claim.value.token == snap.claim.value.token
           && rec.revision == snap.claim.value.revision
           && rec.claim.value.revision == snap.claim.value.revision
           && rec.clientId == snap.clientId
        {
          RewriteKeepsValid(records, edit);
          RewriteShorter(records, edit);
          RewriteAtTarget(records, edit, i);
          var begun := rec.(safeToDiscard := false, owner := Some(process), submission := ProducerClaimed,
                            claim := Some(rec.claim.value.(until := Max(rec.claim.value.until, now + lease))));
          records := records[..i] + [begun] + records[i + 1..];
          assert records[i] == begun;
          Passes.LookupAt(records, ID, i);
          return Some(begun);
        }
        i := i + 1;
      }
      RewriteNoTarget(records, edit);
    }

    /** `complete_claim`: finalizes one exact leased revision.  An outcome or a
        submission state outside the contract raises and changes nothing. */
    method CompleteClaim(snap: Record, outcome: Outcome, state: Option<SubmissionState>, now: real)
      returns (raised: bool, changed: bool)
      requires Valid() && now > 0.0
      modifies this
      ensures Valid() && (old(Bounded()) ==> Bounded())
      ensures raised == !ValidCompletion(outcome, state)
      ensures raised ==> records == old(records) && !changed
      ensures !raised ==> records == Rewrite(old(records), CompleteEdit(snap, outcome, state, now))
      ensures !raised ==> (changed <==> exists o :: o in old(records) && CompleteMatches(o, snap))
    {
      if !ValidCompletion(outcome, state) {
        return true, false;
      }
      raised, changed := false, false;
      ghost var edit := CompleteEdit(snap, outcome, state, now);
      var remaining: seq<Record> := [];
      var i := 0;
      while i < |records|
        invariant 0 <= i <= |records| && records == old(records)
        invariant remaining == Rewrite(records[..i], edit)
        invariant changed <==> exists k :: 0 <= k < i && CompleteMatches(records[k], snap)
      {
        Passes.RewriteStep(records, i, Pass(edit));
        var rec := records[i];
        if CompleteMatches(rec, snap) {
          changed := true;
          var after := CompleteRecord(rec, snap, outcome, state, now);
          if after.Some? {
            remaining := remaining + [after.value];
          }
        } else {
          remaining := remaining + [rec];
        }
        i := i + 1;
      }
      assert records[..i] == records;
      RewriteKeepsValid(records, edit);
      RewriteShorter(records, edit);
      if changed {
        records := remaining;
      } else {
        RewriteNoTarget(records, edit);
      }
    }

    /** `advance_claimed_status`: one venue status of an accepted order becomes the
        outcome of its claim; a snapshot that is not accepted raises. */
    method AdvanceClaimedStatus(snap: Record, status: VenueStatus, now: real) returns (raised: bool, transition: Transition)
      requires Valid() && now > 0.0
      modifies this
      ensures Valid() && (old(Bounded()) ==> Bounded())
      ensures raised == !snap.lifecycle.Accepted?
      ensures raised ==> records == old(records)
      ensures !raised ==> records == Rewrite(old(records), CompleteEdit(snap, StatusOutcome(status), None, now))
      ensures !raised ==> transition == TransitionOf(snap, status)
    {
      transition := Transition(ObservedAction, false, 0.0);
      if !snap.lifecycle.Accepted? {
        return true, transition;
      }
      if status.kind.OpenStatus? {
        var observation := Observation(status.venue, status.filled, status.cost, status.fee);
        var _, _ := CompleteClaim(snap, Observed(observation), None, now);
        var known := snap.observed;
        return false, transition.(changed := known.None? || (known.value.filled, known.value.venueStatus) != (status.filled, status.venue));
      }
      if status.kind.ClosedStatus? {
        var _, _ := CompleteClaim(snap, Success, None, now);
        return false, Transition(FilledAction, true, 0.0);
      }
      var remaining := Max(0.0, snap.qty - status.filled);
      if RetryableName(status) {
        var _, _ := CompleteClaim(snap, RetryTerminal(status.filled, if status.venue != "" then status.venue else "EXPIRED"), None, now);
        return false, Transition(RetryAction, true, remaining);
      }
      var _, _ := CompleteClaim(snap, Success, None, now);
      return false, Transition(TerminalAction, true, remaining);
    }

    /** `activate_claimed_replacement`: makes a replacement submittable after its
        order is confirmed canceled, or drops it when nothing is left to replace. */
    method ActivateClaimedReplacement(snap: Record, qty: real, now: real) returns (verdict: Activation)
      requires Valid() && now > 0.0
      modifies this
      ensures Valid() && (old(Bounded()) ==> Bounded())
      ensures records == Rewrite(old(records), ActivateEdit(snap, qty, now))
      ensures verdict ==
                var found := Lookup(old(records), snap.id);
                if found.Some? && ActivateMatches(found.value, snap) then ActivateVerdict(found.value, qty)
                else NotActivated
    {
      ghost var edit := ActivateEdit(snap, qty, now);
      verdict := NotActivated;
      var i := 0;
      while i < |records|
        invariant 0 <= i <= |records| && records == old(records) && verdict == NotActivated
        invariant forall k :: 0 <= k < i ==> !ActivateMatches(records[k], snap)
      {
        var rec := records[i];
        if ActivateMatches(rec, snap) {
          Passes.LookupAt(records, ID, i);
          verdict := ActivateAt(i, snap, qty, now);
          return;
        }
        i := i + 1;
      }
      var found := Lookup(records, snap.id);
      if found.Some? {
        var k :| 0 <= k < |records| && records[k] == found.value;
      }
      RewriteNoTarget(records, edit);
    }

    /** ... the record found. */
    method ActivateAt(i: nat, snap: Record, qty: real, now: real) returns (verdict: Activation)
      requires Valid() && now > 0.0 && i < |records| && ActivateMatches(records[i], snap)
      modifies this
      ensures Valid() && (old(Bounded()) ==> Bounded())
      ensures records == Rewrite(old(records), ActivateEdit(snap, qty, now))
      ensures verdict == ActivateVerdict(old(records[i]), qty)
    {
      ghost var edit := ActivateEdit(snap, qty, now);
      RewriteKeepsValid(records, edit);
      RewriteShorter(records, edit);
      RewriteAtTarget(records, edit, i);
      var rec := records[i];
      verdict := ActivateVerdict(rec, qty);
      if verdict == Resolved {
        records := records[..i] + records[i + 1..];
      } else if verdict == Activated {
        records := records[..i] + [ActivateRecord(rec, qty, now)] + records[i + 1..];
      } else {
        assert records == records[..i] + [rec] + records[i + 1..];
      }
    }

    /** `discard_expired`: removes only records that are still the exact expired
        revision of a snapshot. */
    method DiscardExpired(snapshots: seq<Record>, now: real) returns (removed: seq<Record>)
      requires Valid()
      modifies this
      ensures Valid() && (old(Bounded()) ==> Bounded())
      ensures records == Rewrite(old(records), DiscardEdit(cfg, set s | s in snapshots :: KeyOf(s), now))
      ensures removed == Passes.Rewrite(old(records), Dropped(DiscardEdit(cfg, set s | s in snapshots :: KeyOf(s), now)))
    {
      var keys := set s | s in snapshots :: KeyOf(s);
      ghost var edit := DiscardEdit(cfg, keys, now);
      var retained: seq<Record> := [];
      removed := [];
      var i := 0;
      while i < |records|
        invariant 0 <= i <= |records| && records == old(records)
        invariant retained == Rewrite(records[..i], edit)
        invariant removed == Passes.Rewrite(records[..i], Dropped(edit))
      {
        Passes.RewriteStep(records, i, Dropped(edit));
        Passes.RewriteStep(records, i, Pass(edit));
        var rec := records[i];
        if KeyOf(rec) in keys && IsExpired(cfg, rec, now) {
          removed := removed + [rec];
        } else {
          retained := retained + [rec];
        }
        i := i + 1;
      }
      assert records[..i] == records;
      RewriteKeepsValid(records, edit);
      RewriteShorter(records, edit);
      records := retained;
    }

    /** The record an `awaiting_cancel` request duplicates, if one is stored. */
    method FindReplacement(req: Request) returns (found: Option<nat>)
      ensures found == FirstReplacement(records, req)
    {
      var i := 0;
      while i < |records|
        invariant 0 <= i <= |records|
        invariant forall k :: 0 <= k < i ==> !SameReplacement(records[k], req)
      {
        if SameReplacement(records[i], req) {
          return Some(i);
        }
        i := i + 1;
      }
      return None;
    }

    method FindTarget(kept: seq<Record>, req: Request) returns (found: Option<nat>)
      ensures found == FirstTarget(kept, req, 0)
    {
      var i := 0;
      while i < |kept|
        invariant 0 <= i <= |kept|
        invariant forall k :: 0 <= k < i ==> !SameTarget(kept[k], req)
      {
        if SameTarget(kept[i], req) {
          return Some(i);
        }
        i := i + 1;
      }
      return None;
    }

    /** Drops the older disposable deferrals of the incoming deferred stream. */
    method Supersede(incoming: Record) returns (kept: seq<Record>)
      ensures kept == Rewrite(records, SupersedeEdit(incoming))
    {
      kept := [];
      var i := 0;
      while i < |records|
        invariant 0 <= i <= |records|
        invariant kept == Rewrite(records[..i], SupersedeEdit(incoming))
      {
        Passes.RewriteStep(records, i, Pass(SupersedeEdit(incoming)));
        if !(SafeToEvict(records[i]) && SameDeferredStream(records[i], incoming)) {
          kept := kept + [records[i]];
        }
        i := i + 1;
      }
      assert records[..i] == records;
    }

    /** Evicts the oldest evictable records until one more fits, trend deferrals first. */
    method MakeRoomIn(kept: seq<Record>) returns (room: Option<seq<Record>>)
      ensures room == MakeRoom(cfg, kept)
    {
      if cfg.maxQueue == 0 || |kept| < cfg.maxQueue {
        return Some(kept);
      }
      var deferred := Evictions.CountLoop(kept, CandidateTest(true));
      room := EvictIn(kept, deferred > 0, |kept| - cfg.maxQueue + 1);
    }

    method EvictIn(kept: seq<Record>, deferredOnly: bool, count: nat) returns (room: Option<seq<Record>>)
      ensures room == EvictFrom(kept, deferredOnly, count)
    {
      var available := Evictions.CountLoop(kept, CandidateTest(deferredOnly));
      if available < count {
        return None;
      }
      var left := Evictions.EvictLoop(kept, CandidateTest(deferredOnly), CREATED, count);
      return Some(left);
    }

    /** `enqueue` and `enqueue_claimed`: `id` and `token` are fresh UUIDs. */
    method Enqueue(req: Request, id: nat, token: nat) returns (verdict: Admission)
      requires Valid() && forall r :: r in records ==> r.id != id
      modifies this
      ensures Valid() && (old(Bounded()) ==> Bounded())
      ensures (records, verdict) == Admit(cfg, old(records), req, id, token)
    {
      AdmitKeepsValid(cfg, records, req, id, token);
      if Bounded() {
        AdmitKeepsBound(cfg, records, req, id, token);
      }
      if !cfg.enabled || !WellFormed(req) {
        return Rejected;
      }
      var rec := NewRecord(req, id, token);
      if req.lifecycle.AwaitingCancel? {
        var found := FindReplacement(req);
        if found.Some? {
          return Existing(records[found.value].id);
        }
      }
      var kept := records;
      if req.lifecycle.SubmitPending? && req.reason.TrendDeferred? {
        kept := Supersede(rec);
      }
      if cfg.dedup && req.lifecycle.SubmitPending? && req.producer.None? {
        var found := FindTarget(kept, req);
        if found.Some? {
          records := kept[found.value := Refresh(kept[found.value], req)];
          return Refreshed(kept[found.value].id);
        }
      }
      var room := MakeRoomIn(kept);
      if room.None? {
        return Rejected;
      }
      records := room.value + [rec];
      return Added(rec);
    }

    /** `consolidate_deferred_streams`: keeps the newest disposable deferral per
        stream and returns the removed ones. */
    method ConsolidateDeferredStreams() returns (removed: seq<Record>, ghost keep: set<nat>)
      requires Valid()
      modifies this
      ensures Valid() && (old(Bounded()) ==> Bounded())
      ensures Cover(old(records), keep) && records == Consolidation.Keep(old(records), keep)
      ensures forall rec :: rec in removed <==> Consolidation.DroppedFrom(old(records), keep, rec)
    {
      var kept, positions := Consolidation.Sweep(records, DISPOSABLE, STREAM, CREATED);
      keep := kept;
      CoverOnlyEvicts(records, keep);
      OnlyEvictsValid(records, Consolidation.Keep(records, keep));
      Evictions.Members(records, Consolidation.Keep(records, keep), SAFE);
      removed := Consolidation.Pick(records, positions);
      forall rec ensures rec in removed <==> Consolidation.DroppedFrom(records, keep, rec) {
        Consolidation.PickedAreDropped(records, keep, positions, removed, rec);
      }
      var rest := Consolidation.Rebuild(records, kept);
      records := rest;
    }
  }
}
