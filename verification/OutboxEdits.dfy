/** What one queue operation does to one record.  Every operation of the outbox
    under its lock is a pass over the stored list that keeps, replaces or drops
    each record, so it is described here per record and lifted to the list by
    RetryQueue. */
module OutboxEdits {
  import opened Options
  import opened OutboxRecord

  datatype Outcome =
    | Success
    | Failure(reason: Reason)
    | Deferred(reason: Reason)
    | Release
    | AcceptedAs(order: Option<nat>, provider: Option<string>)
    | Observed(observation: Observation)
    | StatusError
    | RetryTerminal(filled: real, status: string)

  datatype StatusKind = OpenStatus | ClosedStatus | CanceledStatus | ExpiredStatus

  /** One status snapshot of an accepted order, with the venue's own name for it in
      upper case. */
  datatype VenueStatus = VenueStatus(kind: StatusKind, filled: real, cost: real, fee: real, venue: string)

  /** `_outbox_retryable_terminal`: the venue's name counts, whatever it was
      normalized to. */
  predicate RetryableName(status: VenueStatus) {
    status.venue == "REJECTED" || status.venue == "EXPIRED" || status.kind.ExpiredStatus?
  }

  /** What becomes of the claim: an open order is observed, a closed one is done
      even under a retryable name, any other end is retried or done by its name. */
  function StatusOutcome(status: VenueStatus): Outcome {
    if status.kind.OpenStatus? then Observed(Observation(status.venue, status.filled, status.cost, status.fee))
    else if !status.kind.ClosedStatus? && RetryableName(status) then
      RetryTerminal(status.filled, if status.venue != "" then status.venue else "EXPIRED")
    else Success
  }

  datatype Action = ObservedAction | FilledAction | RetryAction | TerminalAction

  /** `OutboxStatusTransition`. */
  datatype Transition = Transition(action: Action, changed: bool, remaining: real)

  /** What the worker is told about the transition, from the snapshot alone. */
  function TransitionOf(snap: Record, status: VenueStatus): Transition {
    if status.kind.OpenStatus? then
      Transition(ObservedAction,
                 snap.observed.None? || snap.observed.value.filled != status.filled || snap.observed.value.venueStatus != status.venue,
                 0.0)
    else if status.kind.ClosedStatus? then Transition(FilledAction, true, 0.0)
    else Transition(if RetryableName(status) then RetryAction else TerminalAction, true, Max(0.0, snap.qty - status.filled))
  }

  datatype Activation = NotActivated | Resolved | Activated

  /** `complete_claim` raises on a deferral whose reason is a real failure and on
      a submission state other than refused and unknown. */
  predicate ValidCompletion(outcome: Outcome, state: Option<SubmissionState>) {
    && (outcome.Deferred? ==> NonFailureDeferral(outcome.reason))
    && (state.Some? ==> state.value.Refused? || state.value.Unknown?)
  }

  function Token(rec: Record): Option<nat> {
    if rec.claim.Some? then Some(rec.claim.value.token) else None
  }

  function ClaimRecord(rec: Record, now: real, lease: real, token: nat): Record {
    rec.(claim := Some(Lease(token, now + lease, rec.revision)))
  }

  /** The exact-claim test of `begin_claimed_submit`. */
  predicate BeginMatches(rec: Record, snap: Record) {
    && rec.id == snap.id
    && rec.claim.Some? && snap.claim.Some?
    && rec.claim.value.token == snap.claim.value.token
    && rec.revision == snap.claim.value.revision
    && rec.claim.value.revision == snap.claim.value.revision
    && rec.clientId == snap.clientId
  }

  function BeginRecord(rec: Record, now: real, lease: real, process: nat): Record
    requires rec.claim.Some?
  {
    rec.(safeToDiscard := false,
         owner := Some(process),
         submission := ProducerClaimed,
         claim := Some(rec.claim.value.(until := Max(rec.claim.value.until, now + lease))))
  }

  /** The exact-claim test of `complete_claim`.  A snapshot without a lease
      matches an unclaimed record of revision zero. */
  predicate CompleteMatches(rec: Record, snap: Record) {
    && rec.id == snap.id
    && Token(rec) == Token(snap)
    && rec.revision == (if snap.claim.Some? then snap.claim.value.revision else 0)
    && rec.clientId == snap.clientId
  }

  function AcceptRecord(rec: Record, order: nat, provider: Option<string>, now: real): Record {
    rec.(safeToDiscard := false,
         orderId := Some(order),
         lifecycle := Accepted,
         acceptedTs := Some(now),
         lastStatusTs := 0.0,
         reason := NoReason,
         submission := Acknowledged,
         provider := if provider.Some? then provider else rec.provider,
         hasHistory := true)
  }

  /** The terminal remainder becomes a new revision with a new client ID, or
      nothing when it is within the tolerance. */
  function RemainderRecord(rec: Record, filled: real, status: string, now: real): Option<Record> {
    var done := Max(0.0, filled);
    var remaining := Max(0.0, rec.qty - done);
    if remaining <= Tolerance(rec.qty) then None
    else
      Some(rec.(delivered := rec.delivered + Min(rec.qty, done),
                revision := rec.revision + 1,
                qty := remaining,
                attempts := 0,
                lastAttemptTs := now,
                ttlStartedTs := now,
                safeToDiscard := false,
                reason := TerminalReason(status),
                lifecycle := SubmitPending,
                submission := Refused,
                orderId := None,
                acceptedTs := None,
                lastStatusTs := 0.0,
                observed := None,
                submitStatus := false,
                hasHistory := rec.hasHistory || rec.orderId.Some?,
                clientId := ClientId(rec.id, rec.revision + 1)))
  }

  function MaxNat(x: nat, y: nat): nat {
    if x >= y then x else y
  }

  function FailedRecord(rec: Record, snap: Record, reason: Reason, now: real): Record {
    rec.(attempts := MaxNat(rec.attempts, snap.attempts) + 1,
         lastAttemptTs := now,
         ttlStartedTs :=
           if NonFailureDeferral(rec.reason) && !NonFailureDeferral(reason) then now else rec.ttlStartedTs,
         reason := reason)
  }

  /** The record left by the outcome itself, before the submission flag and the
      lease are dealt with. */
  function OutcomeRecord(rec: Record, snap: Record, outcome: Outcome, now: real): Option<Record> {
    match outcome
    case Success => None
    case Failure(reason) => Some(FailedRecord(rec, snap, reason, now))
    case Deferred(reason) => Some(rec.(lastAttemptTs := now, reason := reason))
    case Release => Some(rec)
    case AcceptedAs(order, provider) =>
      if order.Some? then Some(AcceptRecord(rec, order.value, provider, now))
      else Some(rec.(safeToDiscard := false,
                     reason := ResponseWithoutOrderId,
                     attempts := MaxNat(rec.attempts, snap.attempts) + 1,
                     lastAttemptTs := now))
    case Observed(observation) =>
      Some(rec.(lastStatusTs := now, observed := Some(observation), statusError := false))
    case StatusError => Some(rec.(lastStatusTs := now, statusError := true))
    case RetryTerminal(filled, status) => RemainderRecord(rec, filled, status, now)
  }

  function CompleteRecord(rec: Record, snap: Record, outcome: Outcome, state: Option<SubmissionState>, now: real)
    : Option<Record>
  {
    var after := OutcomeRecord(rec, snap, outcome, now);
    if after.None? then None
    else Some(Flagged(after.value, state, outcome.RetryTerminal?).(claim := None))
  }

  /** The submission flag is stored, and with it the discard flag decided. */
  function Flagged(rec: Record, state: Option<SubmissionState>, terminal: bool): Record {
    if state.Some? then WithDiscard(rec.(submission := state.value), state.value.Refused?)
    else if terminal then WithDiscard(rec, false)
    else rec
  }

  predicate ActivateMatches(rec: Record, snap: Record) {
    && rec.id == snap.id
    && snap.claim.Some?
    && Token(rec) == Token(snap)
    && rec.revision == snap.claim.value.revision
  }

  function ActivateVerdict(rec: Record, qty: real): Activation {
    if !rec.lifecycle.AwaitingCancel? || qty < 0.0 || qty > rec.qty + Tolerance(rec.qty) then NotActivated
    else if qty <= Tolerance(rec.qty) then Resolved
    else Activated
  }

  function ActivateRecord(rec: Record, qty: real, now: real): Record {
    rec.(qty := qty,
         requestedTotal := qty,
         lifecycle := SubmitPending,
         reason := SubmitPendingReason,
         submission := Refused,
         safeToDiscard := false,
         ttlStartedTs := now,
         lastAttemptTs := 0.0)
  }

  /** The identity that `discard_expired` rechecks under the lock. */
  datatype ExactKey = ExactKey(id: nat, revision: nat, clientId: ClientId)

  function KeyOf(rec: Record): ExactKey {
    ExactKey(rec.id, rec.revision, rec.clientId)
  }

  datatype Edit =
    | ClaimEdit(ids: set<nat>, now: real, lease: real, token: nat)
    | BeginEdit(snap: Record, now: real, lease: real, process: nat)
    | CompleteEdit(snap: Record, outcome: Outcome, state: Option<SubmissionState>, now: real)
    | ActivateEdit(snap: Record, qty: real, now: real)
    | DiscardEdit(cfg: Config, keys: set<ExactKey>, now: real)
    | SupersedeEdit(incoming: Record)

  /** Does the edit select this record? */
  predicate Selects(edit: Edit, rec: Record) {
    match edit
    case ClaimEdit(ids, now, _, _) => rec.id in ids && !Leased(rec, now)
    case BeginEdit(snap, _, _, _) => BeginMatches(rec, snap)
    case CompleteEdit(snap, _, _, _) => CompleteMatches(rec, snap)
    case ActivateEdit(snap, qty, _) => ActivateMatches(rec, snap) && ActivateVerdict(rec, qty) != NotActivated
    case DiscardEdit(cfg, keys, now) => KeyOf(rec) in keys && IsExpired(cfg, rec, now)
    case SupersedeEdit(incoming) => SafeToEvict(rec) && SameDeferredStream(rec, incoming)
  }

  /** What a selected record becomes; None drops it. */
  function Edited(edit: Edit, rec: Record): Option<Record>
    requires Selects(edit, rec)
  {
    match edit
    case ClaimEdit(_, now, lease, token) => Some(ClaimRecord(rec, now, lease, token))
    case BeginEdit(_, now, lease, process) => Some(BeginRecord(rec, now, lease, process))
    case CompleteEdit(snap, outcome, state, now) => CompleteRecord(rec, snap, outcome, state, now)
    case ActivateEdit(_, qty, now) =>
      if ActivateVerdict(rec, qty) == Resolved then None else Some(ActivateRecord(rec, qty, now))
    case DiscardEdit(_, _, _) => None
    case SupersedeEdit(_) => None
  }

  /** The result of one pass for one record: zero or one records. */
  function Apply(edit: Edit, rec: Record): seq<Record> {
    if !Selects(edit, rec) then [rec]
    else if Edited(edit, rec).None? then []
    else [Edited(edit, rec).value]
  }

  lemma CompleteKeepsIdentity(rec: Record, snap: Record, outcome: Outcome, state: Option<SubmissionState>, now: real)
    ensures CompleteRecord(rec, snap, outcome, state, now).Some? ==>
              CompleteRecord(rec, snap, outcome, state, now).value.id == rec.id
  {
    var after := OutcomeRecord(rec, snap, outcome, now);
    assert after.Some? ==> after.value.id == rec.id;
  }

  lemma ApplyKeepsIdentity(edit: Edit, rec: Record)
    ensures Apply(edit, rec) == [] || (|Apply(edit, rec)| == 1 && Apply(edit, rec)[0].id == rec.id)
  {
    if Selects(edit, rec) && edit.CompleteEdit? {
      CompleteKeepsIdentity(rec, edit.snap, edit.outcome, edit.state, edit.now);
    }
  }

  /** A remainder revision moves the fill from the open to the delivered
      quantity and nothing else. */
  lemma RemainderConserves(rec: Record, filled: real, status: string, now: real)
    requires ValidRecord(rec) && now > 0.0
    ensures RemainderRecord(rec, filled, status, now).Some? ==>
              var next := RemainderRecord(rec, filled, status, now).value;
              && ValidBody(next)
              && next.requestedTotal == rec.requestedTotal
              && next.delivered == rec.delivered + Max(0.0, filled)
              && next.qty == rec.qty - Max(0.0, filled)
              && next.revision == rec.revision + 1
              && next.clientId != rec.clientId
    ensures RemainderRecord(rec, filled, status, now).None? <==>
              Max(0.0, filled) >= rec.qty - Tolerance(rec.qty) || rec.qty <= Tolerance(rec.qty)
  {
  }

  /** The transition reported to the worker agrees with what happens to the stored
      record of the snapshot: it stays as it is but for the observation, disappears,
      or asks as a new revision for exactly the remainder that was reported. */
  lemma TransitionAgrees(rec: Record, snap: Record, status: VenueStatus, now: real)
    requires ValidRecord(rec) && now > 0.0 && CompleteMatches(rec, snap) && rec.qty == snap.qty && status.filled >= 0.0
    ensures var after, t := CompleteRecord(rec, snap, StatusOutcome(status), None, now), TransitionOf(snap, status);
            match t.action
            case ObservedAction =>
              && !(status.kind.ClosedStatus? || status.kind.CanceledStatus? || status.kind.ExpiredStatus?)
              && after.Some? && after.value.qty == rec.qty && after.value.revision == rec.revision && after.value.orderId == rec.orderId
            case FilledAction => status.kind.ClosedStatus? && after.None?
            case TerminalAction => status.kind.CanceledStatus? && !RetryableName(status) && after.None?
            case RetryAction =>
              && !status.kind.ClosedStatus? && RetryableName(status)
              && (after.None? <==> t.remaining <= Tolerance(rec.qty))
              && (after.Some? ==>
                    && after.value.qty == t.remaining && after.value.revision == rec.revision + 1
                    && after.value.delivered + after.value.qty == rec.delivered + rec.qty)
  {
    RemainderConserves(rec, status.filled, if status.venue != "" then status.venue else "EXPIRED", now);
  }

  lemma AcceptKeepsValid(rec: Record, order: nat, provider: Option<string>, now: real)
    requires ValidRecord(rec)
    ensures ValidBody(AcceptRecord(rec, order, provider, now))
  {
  }

  lemma FailureKeepsValid(rec: Record, snap: Record, reason: Reason, now: real)
    requires ValidRecord(rec) && now > 0.0
    ensures ValidBody(FailedRecord(rec, snap, reason, now))
  {
  }

  lemma OutcomeKeepsValid(rec: Record, snap: Record, outcome: Outcome, now: real)
    requires ValidRecord(rec) && now > 0.0
    ensures OutcomeRecord(rec, snap, outcome, now).Some? ==> ValidBody(OutcomeRecord(rec, snap, outcome, now).value)
  {
    match outcome
    case Success =>
    case Failure(reason) => FailureKeepsValid(rec, snap, reason, now);
    case Deferred(_) =>
    case Release =>
    case AcceptedAs(order, provider) =>
      if order.Some? {
        AcceptKeepsValid(rec, order.value, provider, now);
      }
    case Observed(_) =>
    case StatusError =>
    case RetryTerminal(filled, status) => RemainderConserves(rec, filled, status, now);
  }

  /** The submission flag of a completion is refused or unknown, never acknowledged. */
  lemma FlagKeepsValid(rec: Record, state: Option<SubmissionState>, terminal: bool)
    requires ValidBody(rec) && (state.Some? ==> state.value.Refused? || state.value.Unknown?)
    ensures ValidRecord(Flagged(rec, state, terminal).(claim := None))
  {
  }

  lemma CompleteKeepsValid(rec: Record, snap: Record, outcome: Outcome, state: Option<SubmissionState>, now: real)
    requires ValidRecord(rec) && now > 0.0 && ValidCompletion(outcome, state)
    ensures CompleteRecord(rec, snap, outcome, state, now).Some? ==>
              ValidRecord(CompleteRecord(rec, snap, outcome, state, now).value)
  {
    OutcomeKeepsValid(rec, snap, outcome, now);
    var after := OutcomeRecord(rec, snap, outcome, now);
    if after.Some? {
      FlagKeepsValid(after.value, state, outcome.RetryTerminal?);
    }
  }

  lemma ActivateKeepsValid(rec: Record, qty: real, now: real)
    requires ValidRecord(rec) && now > 0.0 && ActivateVerdict(rec, qty) == Activated
    ensures ValidRecord(ActivateRecord(rec, qty, now))
  {
  }

  /** What the operations check before they touch the queue, and a positive clock. */
  predicate Admissible(edit: Edit) {
    match edit
    case ClaimEdit(_, now, lease, _) => lease > 0.0
    case BeginEdit(_, now, lease, _) => now > 0.0 && lease > 0.0
    case CompleteEdit(_, outcome, state, now) => now > 0.0 && ValidCompletion(outcome, state)
    case ActivateEdit(_, _, now) => now > 0.0
    case DiscardEdit(_, _, _) => true
    case SupersedeEdit(_) => true
  }

  /** Every edit keeps the record well formed: in particular the delivered and
      the open quantity still add up to the requested one. */
  lemma ApplyKeepsValid(edit: Edit, rec: Record)
    requires ValidRecord(rec) && Admissible(edit)
    ensures forall r :: r in Apply(edit, rec) ==> ValidRecord(r)
  {
    if Selects(edit, rec) {
      match edit
      case ClaimEdit(_, _, _, _) =>
      case BeginEdit(_, _, _, _) =>
      case CompleteEdit(snap, outcome, state, now) => CompleteKeepsValid(rec, snap, outcome, state, now);
      case ActivateEdit(_, qty, now) =>
        if ActivateVerdict(rec, qty) == Activated {
          ActivateKeepsValid(rec, qty, now);
        }
      case DiscardEdit(_, _, _) =>
      case SupersedeEdit(_) =>
    }
  }
}
