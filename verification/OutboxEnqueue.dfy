/** Admission of a new intent: replacement deduplication, consolidation of the
    deferred stream, the optional symbol/side refresh and capacity eviction. */
module OutboxEnqueue {
  import opened Options
  import opened OutboxRecord
  import opened OutboxEdits
  import opened OutboxList
  import Passes
  import Evictions

  /** The arguments of `enqueue`.  A producer lease carries its duration and the
      process that owns it. */
  datatype Request = Request(
    provider: Option<string>,
    symbol: string,
    side: Side,
    kind: Option<string>,
    qty: real,
    requestedPrice: Option<real>,
    createdTs: real,
    attempts: nat,
    lastAttemptTs: real,
    reason: Reason,
    lifecycle: Lifecycle,
    replacesOrder: Option<nat>,
    replacesOriginalQty: Option<real>,
    producer: Option<(real, nat)>,
    now: real)

  datatype Admission = Rejected | Existing(id: nat) | Refreshed(id: nat) | Added(rec: Record)

  predicate WellFormed(req: Request) {
    && !req.lifecycle.Accepted?
    && (req.lifecycle.AwaitingCancel? ==>
          req.replacesOrder.Some? && req.replacesOriginalQty.Some? && req.replacesOriginalQty.value > 0.0)
    && (req.producer.Some? ==> req.lifecycle.SubmitPending? && req.producer.value.0 > 0.0)
    && req.qty > 0.0 && req.now > 0.0 && req.createdTs > 0.0
  }

  function NewRecord(req: Request, id: nat, token: nat): Record {
    var awaiting := req.lifecycle.AwaitingCancel?;
    var plain := Record(
      id, req.provider, req.symbol, req.side, req.kind,
      req.qty, req.qty, 0.0, ClientId(id, 0), req.requestedPrice,
      req.createdTs, req.attempts, req.lastAttemptTs, req.createdTs, req.reason,
      0, req.lifecycle,
      if awaiting then req.replacesOrder else None,
      if awaiting then req.replacesOriginalQty else None,
      false, None, Unset, None, None, None, false, 0.0, None, false, false);
    var flagged := WithDiscard(plain, req.lifecycle.SubmitPending? && NonFailureDeferral(req.reason));
    if req.producer.None? then flagged
    else flagged.(claim := Some(Lease(token, req.now + req.producer.value.0, 0)),
                  submission := ProducerClaimed,
                  owner := Some(req.producer.value.1))
  }

  /** The dedup key of a pre-cancel replacement. */
  predicate SameReplacement(rec: Record, req: Request) {
    && rec.lifecycle.AwaitingCancel?
    && rec.provider == req.provider
    && rec.symbol == req.symbol
    && rec.side == req.side
    && rec.replacesOrder == req.replacesOrder
  }

  predicate SameTarget(rec: Record, req: Request) {
    SafeToEvict(rec) && rec.symbol == req.symbol && rec.side == req.side
  }

  /** The symbol/side refresh: a new revision that keeps age and attempts. */
  function Refresh(rec: Record, req: Request): Record {
    var renewed := rec.(
      requestedPrice := req.requestedPrice,
      qty := req.qty,
      requestedTotal := req.qty,
      clientId := ClientId(rec.id, rec.revision + 1),
      createdTs := Min(rec.createdTs, req.createdTs),
      attempts := MaxNat(rec.attempts, req.attempts),
      lastAttemptTs := Max(rec.lastAttemptTs, req.lastAttemptTs),
      ttlStartedTs :=
        if NonFailureDeferral(rec.reason) && !NonFailureDeferral(req.reason) then req.now else rec.ttlStartedTs,
      reason := req.reason,
      provider := req.provider,
      kind := req.kind,
      orderId := None,
      revision := rec.revision + 1);
    WithDiscard(renewed, NonFailureDeferral(req.reason))
  }

  function FirstReplacement(q: seq<Record>, req: Request): (i: Option<nat>)
    ensures i.Some? ==> i.value < |q| && SameReplacement(q[i.value], req)
    ensures i.Some? ==> forall j :: 0 <= j < i.value ==> !SameReplacement(q[j], req)
    ensures i.None? ==> forall j :: 0 <= j < |q| ==> !SameReplacement(q[j], req)
  {
    FirstReplacementFrom(q, req, 0)
  }

  function FirstReplacementFrom(q: seq<Record>, req: Request, from: nat): (i: Option<nat>)
    requires from <= |q|
    ensures i.Some? ==> from <= i.value < |q| && SameReplacement(q[i.value], req)
    ensures i.Some? ==> forall j :: from <= j < i.value ==> !SameReplacement(q[j], req)
    ensures i.None? ==> forall j :: from <= j < |q| ==> !SameReplacement(q[j], req)
    decreases |q| - from
  {
    if from == |q| then None
    else if SameReplacement(q[from], req) then Some(from)
    else FirstReplacementFrom(q, req, from + 1)
  }

  function FirstTarget(q: seq<Record>, req: Request, from: nat): (i: Option<nat>)
    requires from <= |q|
    ensures i.Some? ==> from <= i.value < |q| && SameTarget(q[i.value], req)
    ensures i.Some? ==> forall j :: from <= j < i.value ==> !SameTarget(q[j], req)
    ensures i.None? ==> forall j :: from <= j < |q| ==> !SameTarget(q[j], req)
    decreases |q| - from
  {
    if from == |q| then None
    else if SameTarget(q[from], req) then Some(from)
    else FirstTarget(q, req, from + 1)
  }

  /** A record that capacity pressure may remove; `deferredOnly` narrows the
      choice to trend deferrals. */
  predicate Candidate(rec: Record, deferredOnly: bool) {
    SafeToEvict(rec) && (deferredOnly ==> rec.reason.TrendDeferred?)
  }

  function CandidateTest(deferredOnly: bool): Record -> bool {
    rec => Candidate(rec, deferredOnly)
  }

  const CREATED: Record -> real := (rec: Record) => rec.createdTs
  const SAFE: Record -> bool := (rec: Record) => SafeToEvict(rec)

  /** `None` when the new record may not be stored without evicting a protected one. */
  function MakeRoom(cfg: Config, q: seq<Record>): Option<seq<Record>> {
    if cfg.maxQueue == 0 || |q| < cfg.maxQueue then Some(q)
    else EvictFrom(q, Evictions.Count(q, CandidateTest(true)) > 0, |q| - cfg.maxQueue + 1)
  }

  /** Evicts the oldest candidates, if there are as many. */
  function EvictFrom(q: seq<Record>, deferredOnly: bool, count: nat): Option<seq<Record>> {
    if Evictions.Count(q, CandidateTest(deferredOnly)) < count then None
    else Some(Evictions.Evict(q, CandidateTest(deferredOnly), CREATED, count))
  }

  /** The list after consolidation, which only a trend deferral triggers. */
  function Consolidated(q: seq<Record>, req: Request, rec: Record): seq<Record> {
    if req.lifecycle.SubmitPending? && req.reason.TrendDeferred? then Rewrite(q, SupersedeEdit(rec)) else q
  }

  function Admit(cfg: Config, q: seq<Record>, req: Request, id: nat, token: nat): (seq<Record>, Admission) {
    if !cfg.enabled || !WellFormed(req) then (q, Rejected)
    else
      var rec := NewRecord(req, id, token);
      var replacement := if req.lifecycle.AwaitingCancel? then FirstReplacement(q, req) else None;
      if replacement.Some? then (q, Existing(q[replacement.value].id))
      else
        var kept := Consolidated(q, req, rec);
        var target :=
          if cfg.dedup && req.lifecycle.SubmitPending? && req.producer.None? then FirstTarget(kept, req, 0) else None;
        if target.Some? then
          var i := target.value;
          (kept[i := Refresh(kept[i], req)], Refreshed(kept[i].id))
        else
          var room := MakeRoom(cfg, kept);
          if room.None? then (q, Rejected) else (room.value + [rec], Added(rec))
  }

  // ------------------------------------------------------------------
  // What admission may and may not do to the records already stored.
  // ------------------------------------------------------------------

  /** Everything missing from `after` was safe to evict. */
  ghost predicate OnlyEvicts(before: seq<Record>, after: seq<Record>) {
    Evictions.OnlyRemoves(before, after, SAFE)
  }

  lemma {:induction false} SupersedeOnlyEvicts(q: seq<Record>, incoming: Record)
    ensures OnlyEvicts(q, Rewrite(q, SupersedeEdit(incoming)))
  {
    if q != [] {
      var n := |q| - 1;
      SupersedeOnlyEvicts(q[..n], incoming);
      var edit := SupersedeEdit(incoming);
      var front := Rewrite(q[..n], edit);
      assert Rewrite(q, edit) == front + Apply(edit, q[n]);
      if !Selects(edit, q[n]) {
        assert (front + [q[n]])[..|front|] == front;
      } else {
        assert SAFE(q[n]);
        assert Rewrite(q, edit) == front;
      }
    }
  }

  /** A record that is claimed, accepted, awaiting a cancel, possibly submitted
      or carries venue evidence. */
  predicate Protected(rec: Record) {
    rec.claim.Some? || !rec.lifecycle.SubmitPending? || PossiblySubmitted(rec) || HasVenueEvidence(rec)
  }

  /** Admission never removes or alters a protected record; a capacity refusal
      leaves the queue as it was; and an added record leaves the queue within its bound. */
  lemma AdmitProtects(cfg: Config, q: seq<Record>, req: Request, id: nat, token: nat)
    ensures forall rec :: rec in q && Protected(rec) ==> rec in Admit(cfg, q, req, id, token).0
    ensures Admit(cfg, q, req, id, token).1.Rejected? ==> Admit(cfg, q, req, id, token).0 == q
    ensures Admit(cfg, q, req, id, token).1.Existing? ==> Admit(cfg, q, req, id, token).0 == q
    ensures Admit(cfg, q, req, id, token).1.Added? && cfg.maxQueue > 0 ==>
              |Admit(cfg, q, req, id, token).0| <= cfg.maxQueue
    ensures Admit(cfg, q, req, id, token).1.Added? ==>
              var after := Admit(cfg, q, req, id, token).0;
              |after| > 0 && after[|after| - 1] == NewRecord(req, id, token) && OnlyEvicts(q, after[..|after| - 1])
    ensures Admit(cfg, q, req, id, token).1.Refreshed? ==>
              exists kept, i :: OnlyEvicts(q, kept) && 0 <= i < |kept| && SameTarget(kept[i], req) &&
                Admit(cfg, q, req, id, token).0 == kept[i := Refresh(kept[i], req)]
  {
    var (after, verdict) := Admit(cfg, q, req, id, token);
    if verdict.Added? || verdict.Refreshed? {
      var rec := NewRecord(req, id, token);
      var kept := Consolidated(q, req, rec);
      Evictions.Reflexive(q, SAFE);
      SupersedeOnlyEvicts(q, rec);
      assert OnlyEvicts(q, kept);
      if verdict.Added? {
        RoomFrame(cfg, kept);
        var room := MakeRoom(cfg, kept).value;
        Evictions.Transitive(q, kept, room, SAFE);
        assert after[..|after| - 1] == room;
        Evictions.Members(q, room, SAFE);
      } else {
        var i := FirstTarget(kept, req, 0).value;
        assert after == kept[i := Refresh(kept[i], req)];
        Evictions.Members(q, kept, SAFE);
        forall r | r in q && Protected(r) ensures r in after {
          var k :| 0 <= k < |kept| && kept[k] == r;
          assert after[k] == r;
        }
      }
    }
  }

  lemma RoomFrame(cfg: Config, q: seq<Record>)
    ensures MakeRoom(cfg, q).Some? ==>
              OnlyEvicts(q, MakeRoom(cfg, q).value) &&
              (cfg.maxQueue > 0 ==> |MakeRoom(cfg, q).value| < cfg.maxQueue)
  {
    if cfg.maxQueue == 0 || |q| < cfg.maxQueue {
      Evictions.Reflexive(q, SAFE);
    } else {
      var test := CandidateTest(Evictions.Count(q, CandidateTest(true)) > 0);
      var count := |q| - cfg.maxQueue + 1;
      if count <= Evictions.Count(q, test) {
        Evictions.EvictFrame(q, test, CREATED, count);
        Evictions.Weaken(q, Evictions.Evict(q, test, CREATED, count), test, SAFE);
      }
    }
  }

  /** Admission keeps the list well formed, for a record ID not in use. */
  lemma AdmitKeepsValid(cfg: Config, q: seq<Record>, req: Request, id: nat, token: nat)
    requires ValidList(q) && forall r :: r in q ==> r.id != id
    ensures ValidList(Admit(cfg, q, req, id, token).0)
  {
    var (after, verdict) := Admit(cfg, q, req, id, token);
    if verdict.Added? || verdict.Refreshed? {
      var rec := NewRecord(req, id, token);
      var kept := Consolidated(q, req, rec);
      ConsolidatedValid(q, req, rec);
      if verdict.Added? {
        RoomFrame(cfg, kept);
        OnlyEvictsValid(kept, MakeRoom(cfg, kept).value);
        Evictions.Members(kept, MakeRoom(cfg, kept).value, SAFE);
        NewRecordValid(req, id, token);
        SupersedeOnlyEvicts(q, rec);
        Evictions.Members(q, Rewrite(q, SupersedeEdit(rec)), SAFE);
      } else {
        var i := FirstTarget(kept, req, 0).value;
        RefreshValid(kept[i], req);
      }
    }
  }

  lemma NewRecordValid(req: Request, id: nat, token: nat)
    requires WellFormed(req)
    ensures ValidRecord(NewRecord(req, id, token)) && NewRecord(req, id, token).id == id
  {
  }

  lemma RefreshValid(rec: Record, req: Request)
    requires ValidRecord(rec) && WellFormed(req) && SafeToEvict(rec)
    ensures ValidRecord(Refresh(rec, req)) && Refresh(rec, req).id == rec.id
  {
  }

  lemma ConsolidatedValid(q: seq<Record>, req: Request, rec: Record)
    requires ValidList(q)
    ensures ValidList(Consolidated(q, req, rec))
  {
    RewriteKeepsValid(q, SupersedeEdit(rec));
  }

  lemma {:induction false} OnlyEvictsValid(before: seq<Record>, after: seq<Record>)
    requires ValidList(before) && OnlyEvicts(before, after)
    ensures ValidList(after)
    decreases |before|
  {
    if before != [] {
      var front, last := before[..|before| - 1], before[|before| - 1];
      if after != [] && after[|after| - 1] == last && OnlyEvicts(front, after[..|after| - 1]) {
        OnlyEvictsValid(front, after[..|after| - 1]);
        Evictions.Members(front, after[..|after| - 1], SAFE);
        forall k | 0 <= k < |after| - 1 ensures ID(after[k]) != ID(last) {
          assert after[..|after| - 1][k] in front;
          var m :| 0 <= m < |front| && front[m] == after[k];
          assert ID(before[m]) != ID(before[|before| - 1]);
        }
      } else {
        OnlyEvictsValid(front, after);
      }
    }
  }

  lemma {:induction false} UnselectedStays(q: seq<Record>, edit: Edit, rec: Record)
    requires rec in q && !Selects(edit, rec)
    ensures rec in Rewrite(q, edit)
  {
    var n := |q| - 1;
    assert q == q[..n] + [q[n]];
    if rec != q[n] {
      UnselectedStays(q[..n], edit, rec);
    }
  }

  predicate Kept(rec: Record, now: real) {
    rec.lifecycle.Accepted? || rec.lifecycle.AwaitingCancel? || PossiblySubmitted(rec) || Leased(rec, now)
  }

  /** `discard_expired` never removes or alters a record that is accepted, awaits
      a cancel, is possibly submitted or under a live lease, and it removes every
      listed expired one. */
  lemma DiscardProtects(cfg: Config, q: seq<Record>, keys: set<ExactKey>, now: real)
    requires ValidList(q)
    ensures forall rec :: rec in q && Kept(rec, now) ==> rec in Rewrite(q, DiscardEdit(cfg, keys, now))
    ensures forall rec :: rec in Rewrite(q, DiscardEdit(cfg, keys, now)) <==>
              rec in q && !(KeyOf(rec) in keys && IsExpired(cfg, rec, now))
  {
    var edit := DiscardEdit(cfg, keys, now);
    forall rec | rec in q && !Selects(edit, rec) ensures rec in Rewrite(q, edit) {
      UnselectedStays(q, edit, rec);
    }
    forall rec | rec in Rewrite(q, edit) ensures rec in q && !Selects(edit, rec) {
      var i := Passes.RewriteOrigin(q, Pass(edit), rec);
    }
  }

  // ------------------------------------------------------------------
  // The capacity bound.
  // ------------------------------------------------------------------

  /** The bound that the configuration sets; 0 is no bound. */
  predicate WithinBound(cfg: Config, q: seq<Record>) {
    cfg.maxQueue > 0 ==> |q| <= cfg.maxQueue
  }

  /** Admission keeps the bound. */
  lemma AdmitKeepsBound(cfg: Config, q: seq<Record>, req: Request, id: nat, token: nat)
    requires WithinBound(cfg, q)
    ensures WithinBound(cfg, Admit(cfg, q, req, id, token).0)
  {
    AdmitProtects(cfg, q, req, id, token);
    RewriteShorter(q, SupersedeEdit(NewRecord(req, id, token)));
  }

  lemma RoomForOne(cfg: Config, q: seq<Record>)
    requires cfg.maxQueue > 0 && |q| <= cfg.maxQueue
    ensures MakeRoom(cfg, q).None? <==> |q| == cfg.maxQueue && forall i :: 0 <= i < |q| ==> !SafeToEvict(q[i])
  {
    if exists i :: 0 <= i < |q| && SafeToEvict(q[i]) {
      var i :| 0 <= i < |q| && SafeToEvict(q[i]);
      assert CandidateTest(false)(q[i]);
    }
  }

  /** Exactly when a queue within its bound refuses a new record: it is full and
      not one of its records may be evicted.  (A duplicate replacement is answered
      with the stored one instead.) */
  lemma CapacityRefusalExactly(cfg: Config, q: seq<Record>, req: Request, id: nat, token: nat)
    requires cfg.enabled && WellFormed(req) && cfg.maxQueue > 0 && WithinBound(cfg, q)
    ensures Admit(cfg, q, req, id, token).1.Rejected? <==>
              && |q| == cfg.maxQueue && (forall i :: 0 <= i < |q| ==> !SafeToEvict(q[i]))
              && (req.lifecycle.AwaitingCancel? ==> forall i :: 0 <= i < |q| ==> !SameReplacement(q[i], req))
  {
    var edit := SupersedeEdit(NewRecord(req, id, token));
    var kept := Consolidated(q, req, NewRecord(req, id, token));
    RewriteShorter(q, edit);
    RoomForOne(cfg, kept);
    if forall i :: 0 <= i < |q| ==> !SafeToEvict(q[i]) {
      RewriteNoTarget(q, edit);
    } else {
      var i :| 0 <= i < |q| && SafeToEvict(q[i]);
      if Selects(edit, q[i]) {
        assert Apply(edit, q[i]) == [];
      } else {
        UnselectedStays(q, edit, q[i]);
      }
      assert |kept| == cfg.maxQueue ==> q[i] in kept;
    }
  }

  /** Is a new request answered by a record that is stored already? */
  predicate AnsweredByStored(cfg: Config, q: seq<Record>, req: Request, rec: Record) {
    || (req.lifecycle.AwaitingCancel? && FirstReplacement(q, req).Some?)
    || (cfg.dedup && req.lifecycle.SubmitPending? && req.producer.None? && FirstTarget(Consolidated(q, req, rec), req, 0).Some?)
  }

  /** Could the bound be met by evicting nothing but safe records? */
  ghost predicate RoomCouldBeMade(cfg: Config, q: seq<Record>) {
    exists fewer :: OnlyEvicts(q, fewer) && |fewer| < cfg.maxQueue
  }

  lemma RoomCouldBeMadeExactly(cfg: Config, q: seq<Record>)
    ensures RoomCouldBeMade(cfg, q) <==> cfg.maxQueue > 0 && |q| - Evictions.Count(q, SAFE) < cfg.maxQueue
  {
    if RoomCouldBeMade(cfg, q) {
      var fewer :| OnlyEvicts(q, fewer) && |fewer| < cfg.maxQueue;
      Evictions.RemovesAtMost(q, fewer, SAFE);
    }
    if cfg.maxQueue > 0 && |q| - Evictions.Count(q, SAFE) < cfg.maxQueue {
      Evictions.EvictFrame(q, SAFE, CREATED, Evictions.Count(q, SAFE));
      assert OnlyEvicts(q, Evictions.Evict(q, SAFE, CREATED, Evictions.Count(q, SAFE)));
    }
  }

  /** Exactly when an intent is refused although evicting safe records would have
      made room for it: the list is over its bound, as after the bound was lowered,
      and holds some trend deferrals, but fewer than have to go.  They hide the
      other records that could be evicted. */
  lemma OverfullRefusalExactly(cfg: Config, q: seq<Record>, req: Request, id: nat, token: nat)
    requires cfg.enabled && WellFormed(req)
    ensures var rec := NewRecord(req, id, token);
            var kept := Consolidated(q, req, rec);
            Admit(cfg, q, req, id, token).1.Rejected? && RoomCouldBeMade(cfg, kept) <==>
              && !AnsweredByStored(cfg, q, req, rec) && 0 < cfg.maxQueue < |kept|
              && 0 < Evictions.Count(kept, CandidateTest(true)) <= |kept| - cfg.maxQueue < Evictions.Count(kept, SAFE)
  {
    var kept := Consolidated(q, req, NewRecord(req, id, token));
    RoomCouldBeMadeExactly(cfg, kept);
    Evictions.CountSame(kept, CandidateTest(false), SAFE);
  }

  /** Such a list: two evictable records, one of them a trend deferral, and a bound
      lowered to one.  Both would have to go, and only one is offered: whatever the
      new intent, it is refused unless a stored record answers it. */
  lemma OverfullRefused(cfg: Config, deferred: Record, other: Record, req: Request, id: nat, token: nat)
    requires cfg.enabled && cfg.maxQueue == 1 && SafeToEvict(deferred) && SafeToEvict(other)
    requires deferred.reason.TrendDeferred? && !other.reason.TrendDeferred?
    requires WellFormed(req) && !req.reason.TrendDeferred? && !AnsweredByStored(cfg, [deferred, other], req, NewRecord(req, id, token))
    ensures Admit(cfg, [deferred, other], req, id, token) == ([deferred, other], Rejected)
    ensures RoomCouldBeMade(cfg, [deferred, other])
  {
    var q := [deferred, other];
    Evictions.CountTwo(deferred, other, SAFE);
    Evictions.CountTwo(deferred, other, CandidateTest(true));
    OverfullRefusalExactly(cfg, q, req, id, token);
  }
}
