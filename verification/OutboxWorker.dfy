/** One pass of the worker (order_retry_worker.py): what the scan puts into each
    work list, when a claimed record may be submitted, and what becomes of it
    after the provider call. */
module OutboxWorker {
  import opened Options
  import opened OutboxRecord
  import opened OutboxEdits
  import opened OutboxList
  import opened OutboxRefinement
  import opened RetryQueueFile
  import Passes
  import P = OutboxProtocol

  // ------------------------------------------------------------------
  // The scan.
  // ------------------------------------------------------------------

  datatype OwnerState = Alive | Dead | Mismatched | Unverifiable

  /** What a pass learns from the process table and from the venue adapter. */
  datatype World = World(owner: Record -> OwnerState, supportsLookup: Record -> bool)

  datatype Group = Expired | Waiting | LiveOwner | Quarantined | Observe | ReconcileCancel | Retry

  predicate Claimable(group: Group) {
    group.Observe? || group.ReconcileCancel? || group.Retry?
  }

  function Classify(cfg: Config, world: World, now: real, rec: Record): Group {
    if IsExpired(cfg, rec, now) then Expired
    else if rec.submission.ProducerClaimed? && Leased(rec, now) then Waiting
    else if rec.submission.ProducerClaimed? && world.owner(rec).Alive? then LiveOwner
    else if rec.submission.ProducerClaimed? && (world.owner(rec).Unverifiable? || !world.supportsLookup(rec)) then Quarantined
    else if !IsDue(cfg, rec, now) then Waiting
    else if rec.lifecycle.Accepted? then Observe
    else if rec.lifecycle.AwaitingCancel? then ReconcileCancel
    else Retry
  }

  function Only(cfg: Config, world: World, now: real, group: Group): Record -> seq<Record> {
    rec => if Classify(cfg, world, now, rec) == group then [rec] else []
  }

  /** The records of one group, in queue order. */
  function Members(cfg: Config, world: World, now: real, snapshot: seq<Record>, group: Group): seq<Record> {
    Passes.Rewrite(snapshot, Only(cfg, world, now, group))
  }

  /** The decisions of one turn of the scan's loop, in order. */
  method GroupFor(cfg: Config, world: World, now: real, rec: Record) returns (group: Group)
    ensures group == Classify(cfg, world, now, rec)
  {
    if IsExpired(cfg, rec, now) {
      return Expired;
    }
    if rec.submission.ProducerClaimed? {
      if Leased(rec, now) {
        return Waiting;
      }
      var owner := world.owner(rec);
      if owner.Alive? {
        return LiveOwner;
      }
      if !owner.Dead? && !owner.Mismatched? {
        return Quarantined;
      }
      if !world.supportsLookup(rec) {
        return Quarantined;
      }
    }
    if !IsDue(cfg, rec, now) {
      return Waiting;
    }
    if rec.lifecycle.Accepted? {
      return Observe;
    }
    if rec.lifecycle.AwaitingCancel? {
      return ReconcileCancel;
    }
    return Retry;
  }

  /** One more record joins its own group and no other. */
  lemma NextMember(cfg: Config, world: World, now: real, snapshot: seq<Record>, i: nat, group: Group)
    requires i < |snapshot| && group == Classify(cfg, world, now, snapshot[i])
    ensures forall g: Group ::
              Members(cfg, world, now, snapshot[..i + 1], g) ==
                Members(cfg, world, now, snapshot[..i], g) + (if g == group then [snapshot[i]] else [])
  {
    forall g: Group {
      Passes.RewriteStep(snapshot, i, Only(cfg, world, now, g));
    }
  }

  /** `process_once`, first half: sorts one snapshot of the queue into work lists. */
  method Scan(cfg: Config, world: World, now: real, snapshot: seq<Record>)
    returns (expired: seq<Record>, live: seq<Record>, observe: seq<Record>, cancel: seq<Record>, retry: seq<Record>,
             quarantined: nat)
    ensures expired == Members(cfg, world, now, snapshot, Expired)
    ensures live == Members(cfg, world, now, snapshot, LiveOwner)
    ensures observe == Members(cfg, world, now, snapshot, Observe)
    ensures cancel == Members(cfg, world, now, snapshot, ReconcileCancel)
    ensures retry == Members(cfg, world, now, snapshot, Retry)
    ensures quarantined == |Members(cfg, world, now, snapshot, Quarantined)|
  {
    expired, live, observe, cancel, retry, quarantined := [], [], [], [], [], 0;
    var i := 0;
    while i < |snapshot|
      invariant 0 <= i <= |snapshot|
      invariant expired == Members(cfg, world, now, snapshot[..i], Expired)
      invariant live == Members(cfg, world, now, snapshot[..i], LiveOwner)
      invariant observe == Members(cfg, world, now, snapshot[..i], Observe)
      invariant cancel == Members(cfg, world, now, snapshot[..i], ReconcileCancel)
      invariant retry == Members(cfg, world, now, snapshot[..i], Retry)
      invariant quarantined == |Members(cfg, world, now, snapshot[..i], Quarantined)|
    {
      var rec := snapshot[i];
      var group := GroupFor(cfg, world, now, rec);
      NextMember(cfg, world, now, snapshot, i, group);
      match group {
        case Expired => expired := expired + [rec];
        case LiveOwner => live := live + [rec];
        case Quarantined => quarantined := quarantined + 1;
        case Observe => observe := observe + [rec];
        case ReconcileCancel => cancel := cancel + [rec];
        case Retry => retry := retry + [rec];
        case Waiting =>
      }
      i := i + 1;
    }
    assert snapshot[..i] == snapshot;
  }

  /** The owner check is exact: alive is alive, dead and mismatched are not. */
  ghost predicate ExactOwners(world: World, alive: set<nat>) {
    && (forall rec: Record :: world.owner(rec).Alive? ==> rec.owner.Some? && rec.owner.value in alive)
    && (forall rec: Record :: world.owner(rec).Dead? || world.owner(rec).Mismatched? ==>
          rec.owner.Some? && rec.owner.value !in alive)
  }

  ghost predicate IsPlan(cfg: Config, world: World, now: real, snapshot: seq<Record>, ids: set<nat>) {
    forall id :: id in ids <==>
      Lookup(snapshot, id).Some? && Claimable(Classify(cfg, world, now, Lookup(snapshot, id).value))
  }

  /** The IDs that the pass goes on to claim are a plan the protocol allows: no
      record whose producer is alive or cannot be verified is among them. */
  lemma ScanRefines(cfg: Config, world: World, q: seq<Record>, s: P.State, process: nat, now: real, ids: set<nat>)
    requires RepresentsQueue(q, s.queue) && ExactOwners(world, s.alive) && IsPlan(cfg, world, now, q, ids)
    requires process in s.alive && P.WorkerIdle(s, process) && now <= s.now
    ensures P.WorkerScan(s, s.(plan := Some(P.Plan(process, now, ids, s.next)), next := s.next + 1), process, now, ids)
  {
    forall id | id in ids ensures id in s.queue && P.Plannable(s, s.queue[id]) {
      var rec := Lookup(q, id).value;
      assert Represents(rec, s.queue[id]);
    }
  }

  /** A record is claimed by the pass exactly when it is due, not expired, and, if
      a producer began its dispatch, that producer is verifiably gone and the venue
      can be asked for the client ID. */
  lemma ClaimedExactly(cfg: Config, world: World, now: real, rec: Record)
    ensures Claimable(Classify(cfg, world, now, rec)) <==>
              !IsExpired(cfg, rec, now) && IsDue(cfg, rec, now) &&
              (rec.submission.ProducerClaimed? ==>
                 (world.owner(rec).Dead? || world.owner(rec).Mismatched?) && world.supportsLookup(rec))
    ensures Classify(cfg, world, now, rec).LiveOwner? <==>
              rec.submission.ProducerClaimed? && !IsExpired(cfg, rec, now) && !Leased(rec, now) && world.owner(rec).Alive?
  {
  }

  /** Expired records can be dropped and overdue live producers can be watched. */
  lemma ListsRefine(cfg: Config, world: World, q: seq<Record>, s: P.State, process: nat, now: real, i: nat)
    requires RepresentsQueue(q, s.queue) && ExactOwners(world, s.alive) && i < |q|
    requires process in s.alive && now <= s.now
    ensures var id := q[i].id; id in s.queue
    ensures var id := q[i].id;
            Classify(cfg, world, now, q[i]).Expired? ==> P.Discard(s, s.(queue := s.queue - {id}), id)
    ensures var id := q[i].id;
            Classify(cfg, world, now, q[i]).LiveOwner? ==>
              P.WorkerWatch(s, s.(tasks := s.tasks[s.next := P.Task(P.Worker, process, P.Watching, id, s.queue[id], None)],
                                  next := s.next + 1), id, process)
  {
    Passes.LookupAt(q, ID, i);
    RemovalsAgree(cfg, q[i], s.queue[q[i].id], now);
  }

  // ------------------------------------------------------------------
  // A claimed pending record.
  // ------------------------------------------------------------------

  datatype LookupAnswer = FoundOrder(order: nat) | NotFound | Unavailable
  datatype Decision = Recovered(order: nat) | Deferral | Submit

  predicate PriceGateOk(rec: Record, price: Option<real>, tol: real) {
    && price.Some? && rec.requestedPrice.Some? && price.value > 0.0 && rec.requestedPrice.value > 0.0 && tol >= 0.0
    && match rec.side
       case Sell => price.value >= rec.requestedPrice.value * (1.0 - tol)
       case Buy => price.value <= rec.requestedPrice.value * (1.0 + tol)
  }

  /** An absence counts only from a venue that declares a horizon. */
  predicate AbsenceReliable(cfg: Config, rec: Record, now: real, horizon: Option<real>) {
    horizon.Some? && NotFoundIsReliable(cfg, rec, now, horizon.value)
  }

  /** `process_once` for one claimed pending record, up to the submit: looks the
      client ID up when the record may be at a venue, then asks for the price. */
  method ReconcilePending(queue: RetryQueue, rec: Record, answer: LookupAnswer, horizon: Option<real>,
                          price: Option<real>, tol: real, provider: Option<string>, now: real)
    returns (decision: Decision)
    requires queue.Valid() && now > 0.0
    modifies queue
    ensures queue.Valid()
    ensures decision == Submit <==>
              PriceGateOk(rec, price, tol) &&
              (!RequiresReconciliation(rec) || (answer == NotFound && AbsenceReliable(queue.cfg, rec, now, horizon)))
    ensures decision.Recovered? <==> RequiresReconciliation(rec) && answer.FoundOrder?
    ensures decision.Recovered? ==> decision.order == answer.order
    ensures queue.records ==
              match decision
              case Submit => old(queue.records)
              case Recovered(order) =>
                Rewrite(old(queue.records), CompleteEdit(rec, AcceptedAs(Some(order), provider), None, now))
              case Deferral => Rewrite(old(queue.records), CompleteEdit(rec, Release, None, now))
  {
    if RequiresReconciliation(rec) {
      if answer.FoundOrder? {
        var _, _ := queue.CompleteClaim(rec, AcceptedAs(Some(answer.order), provider), None, now);
        return Recovered(answer.order);
      }
      var reliable := answer.NotFound? && horizon.Some? && NotFoundIsReliable(queue.cfg, rec, now, horizon.value);
      if !reliable {
        var _, _ := queue.CompleteClaim(rec, Release, None, now);
        return Deferral;
      }
    }
    if price.None? {
      var _, _ := queue.CompleteClaim(rec, Release, None, now);
      return Deferral;
    }
    if !PriceGateOk(rec, price, tol) {
      var _, _ := queue.CompleteClaim(rec, Release, None, now);
      return Deferral;
    }
    return Submit;
  }

  /** What a venue that keeps its lookup promise answers.  Inside the horizon "not
      found" also rules out that a call already made still becomes an order. */
  ghost predicate Truthful(cfg: Config, calls: seq<P.Call>, rec: Record, answer: LookupAnswer, now: real, horizon: Option<real>) {
    && (answer.FoundOrder? ==>
          answer.order < |calls| && P.ForRevision(calls[answer.order], rec.id, rec.revision) && P.Delivered(calls[answer.order]))
    && (answer.NotFound? && AbsenceReliable(cfg, rec, now, horizon) ==> P.Absent(calls, rec.id, rec.revision))
  }

  /** The decision to submit and the decision to recover are steps that the
      protocol allows. */
  lemma DecisionRefines(cfg: Config, s: P.State, k: nat, rec: Record, answer: LookupAnswer, horizon: Option<real>, now: real)
    requires P.Acting(s, k, P.Worker, P.Claimed) && s.plan.None?
    requires rec.id == s.tasks[k].id && rec.lifecycle.SubmitPending? && ValidRecord(rec) && Represents(rec, s.tasks[k].snap)
    requires Truthful(cfg, s.calls, rec, answer, now, horizon)
    ensures !RequiresReconciliation(rec) || (answer == NotFound && AbsenceReliable(cfg, rec, now, horizon)) ==>
              P.WorkerClear(s, s.(tasks := s.tasks[k := s.tasks[k].(phase := P.Armed)]), k)
    ensures RequiresReconciliation(rec) && answer.FoundOrder? ==>
              P.WorkerFound(s, P.Finish(s, k, slot => Some(P.AcceptSlot(slot, answer.order))), k, answer.order)
  {
    ReconciliationDecides(rec, s.tasks[k].snap);
  }

  // ------------------------------------------------------------------
  // After the provider call.
  // ------------------------------------------------------------------

  /** What is known once the call returned or raised: an order from the response,
      one from the lookup that follows a missing order ID, and the boundary's own
      account of a refusal. */
  datatype Aftermath = Aftermath(order: Option<nat>, recovered: Option<nat>, reason: Option<Reason>, refused: bool)

  /** Refusals after which the unchanged intent can never become executable. */
  predicate HopelessReason(reason: Reason) {
    reason.OtherReason? &&
    (|| reason.text == "execution_disabled" || reason.text == "trading_disabled"
     || reason.text == "below_min_notional" || "binance_filter_refused:" <= reason.text)
  }

  function RefusalReason(after: Aftermath): Reason {
    if after.reason.Some? then after.reason.value
    else if after.refused then OtherReason("pre_submit_refused")
    else SubmitAmbiguous
  }

  /** `process_once`, after the provider call of a begun dispatch. */
  method FinishDispatch(queue: RetryQueue, rec: Record, after: Aftermath, provider: Option<string>, now: real)
    requires queue.Valid() && now > 0.0
    modifies queue
    ensures queue.Valid()
    ensures queue.records == Rewrite(old(queue.records), FinishEdit(rec, after, provider, now))
  {
    var accepted := after.order.Some?;
    var order := after.order;
    if !accepted && after.recovered.Some? {
      order := after.recovered;
      accepted := true;
    }
    if accepted {
      var _, _ := queue.CompleteClaim(rec, AcceptedAs(order, provider), None, now);
    } else {
      var reason := RefusalReason(after);
      var state := if after.refused then Refused else Unknown;
      if HopelessReason(reason) && state == Refused {
        var _, _ := queue.CompleteClaim(rec, Success, None, now);
      } else if NonFailureDeferral(reason) {
        var _, _ := queue.CompleteClaim(rec, Deferred(reason), Some(state), now);
      } else {
        var _, _ := queue.CompleteClaim(rec, Failure(reason), Some(state), now);
      }
    }
  }

  function FinishEdit(rec: Record, after: Aftermath, provider: Option<string>, now: real): (edit: Edit)
    ensures edit.CompleteEdit? && edit.snap == rec && edit.now == now && ValidCompletion(edit.outcome, edit.state)
  {
    var reason := RefusalReason(after);
    if after.order.Some? then CompleteEdit(rec, AcceptedAs(after.order, provider), None, now)
    else if after.recovered.Some? then CompleteEdit(rec, AcceptedAs(after.recovered, provider), None, now)
    else if after.refused && HopelessReason(reason) then CompleteEdit(rec, Success, None, now)
    else
      CompleteEdit(rec, if NonFailureDeferral(reason) then Deferred(reason) else Failure(reason),
                   Some(if after.refused then Refused else Unknown), now)
  }

  /** No dispatch is ever forgotten.  While the begun record is still the stored
      one, an order that came back is tracked as accepted, a call whose fate is
      unknown leaves a record that will be looked up before any resubmission and
      that neither expiry nor eviction may drop, and only a definite refusal makes
      the record submittable without a lookup or removes it. */
  lemma NothingForgotten(cfg: Config, rec: Record, after: Aftermath, provider: Option<string>, now: real, later: real)
    requires rec.claim.Some? && rec.revision == rec.claim.value.revision && rec.lifecycle.SubmitPending?
    ensures Selects(FinishEdit(rec, after, provider, now), rec)
    ensures var left := Edited(FinishEdit(rec, after, provider, now), rec);
            && (after.order.Some? || after.recovered.Some? ==>
                  left.Some? && left.value.lifecycle.Accepted? &&
                  left.value.orderId == (if after.order.Some? then after.order else after.recovered))
            && (after.order.None? && after.recovered.None? && !after.refused ==>
                  left.Some? && PossiblySubmitted(left.value) && RequiresReconciliation(left.value) &&
                  !IsExpired(cfg, left.value, later) && !SafeToEvict(left.value))
            && (left.None? || (left.value.lifecycle.SubmitPending? && !RequiresReconciliation(left.value)) ==>
                  after.refused && after.order.None? && after.recovered.None?)
  {
    var left := Edited(FinishEdit(rec, after, provider, now), rec);
    if after.order.None? && after.recovered.None? && !after.refused {
      assert left.value.submission == Unknown;
    }
  }

  // ------------------------------------------------------------------
  // A claimed replacement.
  // ------------------------------------------------------------------

  /** The replaced order as the venue reports it. */
  datatype PriorOrder = StatusUnavailable | StillLive | EndedOtherwise | CanceledAfter(filled: real)

  /** `process_once` for one claimed `awaiting_cancel` record. */
  method ReconcileReplacement(queue: RetryQueue, rec: Record, prior: PriorOrder, now: real)
    requires queue.Valid() && now > 0.0
    modifies queue
    ensures queue.Valid()
    ensures queue.records ==
              Rewrite(ActivatedFirst(old(queue.records), rec, prior, now), ReplacementEdit(old(queue.records), rec, prior, now))
  {
    ghost var before := queue.records;
    match prior
    case StatusUnavailable =>
      var _, _ := queue.CompleteClaim(rec, StatusError, None, now);
    case CanceledAfter(filled) =>
      var verdict := queue.ActivateClaimedReplacement(rec, LeftToReplace(rec, filled), now);
      if verdict == Activated {
        var _, _ := queue.CompleteClaim(rec, Release, None, now);
      } else if verdict == NotActivated {
        var _, _ := queue.CompleteClaim(rec, StatusError, None, now);
      } else {
        AlreadyResolved(before, queue.records, rec, LeftToReplace(rec, filled), now);
      }
    case EndedOtherwise =>
      var _, _ := queue.CompleteClaim(rec, Success, None, now);
    case StillLive =>
      var _, _ := queue.CompleteClaim(rec, Release, None, now);
  }

  function LeftToReplace(rec: Record, filled: real): real {
    if rec.replacesOriginalQty.Some? then Max(0.0, rec.replacesOriginalQty.value - filled) else -1.0
  }

  /** Only an observed cancel activates. */
  function ActivatedFirst(q: seq<Record>, rec: Record, prior: PriorOrder, now: real): seq<Record> {
    if prior.CanceledAfter? then Rewrite(q, ActivateEdit(rec, LeftToReplace(rec, prior.filled), now)) else q
  }

  function ReplacementEdit(q: seq<Record>, rec: Record, prior: PriorOrder, now: real): Edit {
    match prior
    case StatusUnavailable => CompleteEdit(rec, StatusError, None, now)
    case StillLive => CompleteEdit(rec, Release, None, now)
    case EndedOtherwise => CompleteEdit(rec, Success, None, now)
    case CanceledAfter(filled) =>
      var found := Lookup(q, rec.id);
      CompleteEdit(rec,
                   if found.Some? && ActivateMatches(found.value, rec) &&
                      ActivateVerdict(found.value, LeftToReplace(rec, filled)) != NotActivated then Release
                   else StatusError,
                   None, now)
  }

  /** A replacement with nothing left to replace is gone: nothing is left to release. */
  lemma AlreadyResolved(before: seq<Record>, q: seq<Record>, rec: Record, qty: real, now: real)
    requires ValidList(before) && q == Rewrite(before, ActivateEdit(rec, qty, now)) && now > 0.0
    requires Lookup(before, rec.id).Some? && ActivateMatches(Lookup(before, rec.id).value, rec)
    requires ActivateVerdict(Lookup(before, rec.id).value, qty) == Resolved
    ensures Rewrite(q, CompleteEdit(rec, Release, None, now)) == q
  {
    RewriteKeepsValid(before, ActivateEdit(rec, qty, now));
    PassAt(before, ActivateEdit(rec, qty, now), rec.id);
    StaleSnapshot(q, CompleteEdit(rec, Release, None, now), rec.id);
  }

  /** What a canceled order makes of its leased replacement. */
  lemma AfterActivation(q: seq<Record>, rec: Record, qty: real, now: real)
    requires ValidList(q) && now > 0.0 && rec.claim.Some? && Lookup(q, rec.id) == Some(rec)
    ensures ValidList(Rewrite(q, ActivateEdit(rec, qty, now)))
    ensures Lookup(Rewrite(q, ActivateEdit(rec, qty, now)), rec.id) ==
              match ActivateVerdict(rec, qty)
              case NotActivated => Some(rec)
              case Resolved => None
              case Activated => Some(ActivateRecord(rec, qty, now))
  {
    assert rec in q;
    RewriteKeepsValid(q, ActivateEdit(rec, qty, now));
    PassAt(q, ActivateEdit(rec, qty, now), rec.id);
  }

  /** Completing the claim of a replacement, activated or not. */
  lemma AfterCompletion(q: seq<Record>, rec: Record, edit: Edit)
    requires ValidList(q) && edit.CompleteEdit? && edit.snap == rec && rec.claim.Some?
    requires rec.claim.value.revision == rec.revision
    requires Lookup(q, rec.id).Some? ==>
               var found := Lookup(q, rec.id).value;
               found.claim == rec.claim && found.revision == rec.revision && found.clientId == rec.clientId
    ensures Lookup(Rewrite(q, edit), rec.id) ==
              if Lookup(q, rec.id).None? then None
              else CompleteRecord(Lookup(q, rec.id).value, rec, edit.outcome, edit.state, edit.now)
  {
    PassAt(q, edit, rec.id);
  }

  lemma ActivationLeft(rec: Record, qty: real, now: real)
    requires ActivateVerdict(rec, qty) == Activated && rec.claim.Some?
    ensures var left := CompleteRecord(ActivateRecord(rec, qty, now), rec, Release, None, now);
            && left == Some(ActivateRecord(rec, qty, now).(claim := None)) && !RequiresReconciliation(left.value)
  {
  }

  lemma StillAwaiting(rec: Record, now: real)
    requires rec.lifecycle.AwaitingCancel?
    ensures var left := CompleteRecord(rec, rec, StatusError, None, now); left.Some? && left.value.lifecycle.AwaitingCancel?
    ensures var left := CompleteRecord(rec, rec, Release, None, now); left.Some? && left.value.lifecycle.AwaitingCancel?
  {
  }

  /** The stored replacement after the pass. */
  function Reconciled(q: seq<Record>, rec: Record, prior: PriorOrder, now: real): Option<Record> {
    Lookup(Rewrite(ActivatedFirst(q, rec, prior, now), ReplacementEdit(q, rec, prior, now)), rec.id)
  }

  /** ... by the status of the replaced order. */
  function ReconciledTo(rec: Record, prior: PriorOrder, now: real): Option<Record> {
    match prior
    case StatusUnavailable => CompleteRecord(rec, rec, StatusError, None, now)
    case StillLive => CompleteRecord(rec, rec, Release, None, now)
    case EndedOtherwise => None
    case CanceledAfter(filled) =>
      match ActivateVerdict(rec, LeftToReplace(rec, filled))
      case NotActivated => CompleteRecord(rec, rec, StatusError, None, now)
      case Resolved => None
      case Activated => CompleteRecord(ActivateRecord(rec, LeftToReplace(rec, filled), now), rec, Release, None, now)
  }

  lemma ReconciledAs(q: seq<Record>, rec: Record, prior: PriorOrder, now: real)
    requires ValidList(q) && now > 0.0 && rec.claim.Some? && Lookup(q, rec.id) == Some(rec) && rec.lifecycle.AwaitingCancel?
    ensures Reconciled(q, rec, prior, now) == ReconciledTo(rec, prior, now)
  {
    assert rec in q;
    if prior.CanceledAfter? {
      AfterActivation(q, rec, LeftToReplace(rec, prior.filled), now);
    }
    AfterCompletion(ActivatedFirst(q, rec, prior, now), rec, ReplacementEdit(q, rec, prior, now));
  }

  /** A replacement that its canceled order made submittable. */
  predicate Submittable(rec: Record, left: Record, qty: real) {
    && left.lifecycle.SubmitPending? && left.claim.None? && left.qty == left.requestedTotal == qty
    && left.qty > Tolerance(rec.qty) && left.qty <= rec.qty + Tolerance(rec.qty)
    && !RequiresReconciliation(left)
  }

  lemma SubmittableTo(rec: Record, prior: PriorOrder, now: real)
    requires rec.claim.Some? && rec.lifecycle.AwaitingCancel?
    ensures var after := ReconciledTo(rec, prior, now);
            && (after.Some? && !after.value.lifecycle.AwaitingCancel? <==>
                  prior.CanceledAfter? && ActivateVerdict(rec, LeftToReplace(rec, prior.filled)) == Activated)
            && (after.Some? && !after.value.lifecycle.AwaitingCancel? ==>
                  Submittable(rec, after.value, LeftToReplace(rec, prior.filled)))
            && (after.None? <==>
                  prior.EndedOtherwise? ||
                  (prior.CanceledAfter? && ActivateVerdict(rec, LeftToReplace(rec, prior.filled)) == Resolved))
  {
    StillAwaiting(rec, now);
    if prior.CanceledAfter? && ActivateVerdict(rec, LeftToReplace(rec, prior.filled)) == Activated {
      ActivationLeft(rec, LeftToReplace(rec, prior.filled), now);
    }
  }

  /** After the pass the stored replacement is submittable only if its order was
      seen canceled, and then its size is what the old order left of its own. */
  lemma SubmittableAfterCancel(q: seq<Record>, rec: Record, prior: PriorOrder, now: real)
    requires ValidList(q) && now > 0.0 && rec.claim.Some? && Lookup(q, rec.id) == Some(rec) && rec.lifecycle.AwaitingCancel?
    ensures var after := Reconciled(q, rec, prior, now);
            && (after.Some? && !after.value.lifecycle.AwaitingCancel? <==>
                  prior.CanceledAfter? && ActivateVerdict(rec, LeftToReplace(rec, prior.filled)) == Activated)
            && (after.Some? && !after.value.lifecycle.AwaitingCancel? ==>
                  Submittable(rec, after.value, LeftToReplace(rec, prior.filled)))
            && (after.None? <==>
                  prior.EndedOtherwise? ||
                  (prior.CanceledAfter? && ActivateVerdict(rec, LeftToReplace(rec, prior.filled)) == Resolved))
  {
    ReconciledAs(q, rec, prior, now);
    SubmittableTo(rec, prior, now);
  }
}
