/** One durable intent of the order outbox (order_retry.py) and the pure
    predicates that decide what may happen to it.  Quantities and times are
    reals; identifiers are naturals. */
module OutboxRecord {
  import opened Options

  datatype Side = Buy | Sell
  datatype Lifecycle = AwaitingCancel | SubmitPending | Accepted

  /** The `submission_state` flag; Unset is a record without the key. */
  datatype SubmissionState = Unset | ProducerClaimed | Unknown | Refused | Acknowledged

  datatype Reason =
    | NoReason
    | TrendDeferred
    | CacheNotFresh
    | CacheSnapshotChanged
    | RetryPriceUnfavorable
    | SubmitPendingReason
    | SubmitAmbiguous
    | ResponseWithoutOrderId
    | TerminalReason(status: string)
    | OtherReason(text: string)

  /** The deterministic client ID of one revision of one record. */
  datatype ClientId = ClientId(record: nat, revision: nat)

  datatype Lease = Lease(token: nat, until: real, revision: nat)

  /** The last non-terminal status seen for an accepted order. */
  datatype Observation = Observation(venueStatus: string, filled: real, cost: real, fee: real)

  datatype Record = Record(
    id: nat,
    provider: Option<string>,
    symbol: string,
    side: Side,
    kind: Option<string>,
    qty: real,
    requestedTotal: real,
    delivered: real,
    clientId: ClientId,
    requestedPrice: Option<real>,
    createdTs: real,
    attempts: nat,
    lastAttemptTs: real,
    ttlStartedTs: real,
    reason: Reason,
    revision: nat,
    lifecycle: Lifecycle,
    replacesOrder: Option<nat>,
    replacesOriginalQty: Option<real>,
    safeToDiscard: bool,
    claim: Option<Lease>,
    submission: SubmissionState,
    owner: Option<nat>,
    orderId: Option<nat>,
    acceptedTs: Option<real>,
    submitStatus: bool,
    lastStatusTs: real,
    observed: Option<Observation>,
    statusError: bool,
    hasHistory: bool)

  /** The retry policy read from order_retry_config.env. */
  datatype Config = Config(
    enabled: bool,
    interval: real,
    ttl: real,
    maxAttempts: nat,
    dedup: bool,
    maxQueue: nat,
    lease: real,
    notFoundMaxAge: real)
  {
    predicate Valid() {
      interval > 0.0 && ttl > 0.0 && lease > 0.0 && notFoundMaxAge > 0.0
    }
  }

  function Max(x: real, y: real): real {
    if x >= y then x else y
  }

  function Min(x: real, y: real): real {
    if x <= y then x else y
  }

  function Abs(x: real): real {
    if x < 0.0 then -x else x
  }

  /** The tolerance below which a quantity counts as nothing. */
  function Tolerance(qty: real): real {
    Max(0.000000000001, qty * 0.000000001)
  }

  predicate NonFailureDeferral(reason: Reason) {
    reason.TrendDeferred? || reason.CacheNotFresh? || reason.CacheSnapshotChanged? || reason.RetryPriceUnfavorable?
  }

  predicate AmbiguousReason(reason: Reason) {
    reason.NoReason? || reason.SubmitPendingReason? || reason.SubmitAmbiguous? || reason.ResponseWithoutOrderId?
  }

  /** May the intent have reached a venue?  The worker asks the same question
      without looking at the lifecycle. */
  predicate RequiresReconciliation(rec: Record) {
    if rec.submission.Refused? then false
    else if rec.submission.ProducerClaimed? || rec.submission.Unknown? then true
    else AmbiguousReason(rec.reason)
  }

  predicate PossiblySubmitted(rec: Record) {
    rec.lifecycle.SubmitPending? && RequiresReconciliation(rec)
  }

  predicate HasVenueEvidence(rec: Record) {
    || !rec.lifecycle.SubmitPending?
    || rec.orderId.Some? || rec.acceptedTs.Some? || rec.submitStatus
    || (rec.observed.Some? && rec.observed.value.venueStatus != "")
    || rec.statusError || rec.hasHistory
    || rec.replacesOrder.Some? || rec.replacesOriginalQty.Some?
    || rec.reason.TerminalReason?
    || rec.delivered != 0.0
    || (rec.observed.Some? &&
        (rec.observed.value.filled != 0.0 || rec.observed.value.cost != 0.0 || rec.observed.value.fee != 0.0))
    || Abs(rec.requestedTotal - rec.qty) > Max(0.000000000001, Abs(rec.requestedTotal) * 0.000000001)
  }

  /** `_set_safe_to_discard`: the flag is granted only without venue evidence. */
  function WithDiscard(rec: Record, eligible: bool): Record {
    rec.(safeToDiscard := eligible && !HasVenueEvidence(rec))
  }

  /** The eviction allowlist.  The order fields that the code re-checks first
      are part of HasVenueEvidence. */
  predicate SafeToEvict(rec: Record) {
    && rec.lifecycle.SubmitPending?
    && rec.claim.None?
    && rec.safeToDiscard
    && !PossiblySubmitted(rec)
    && !HasVenueEvidence(rec)
  }

  /** A missing provider name is a wildcard, which makes the relation symmetric
      but not transitive. */
  predicate SameDeferredStream(left: Record, right: Record) {
    && left.lifecycle.SubmitPending? && left.reason.TrendDeferred?
    && right.lifecycle.SubmitPending? && right.reason.TrendDeferred?
    && (left.provider.None? || right.provider.None? || left.provider == right.provider)
    && left.symbol == right.symbol
    && left.side == right.side
    && left.kind == right.kind
  }

  predicate Leased(rec: Record, now: real) {
    rec.claim.Some? && rec.claim.value.until > now
  }

  predicate IsExpired(cfg: Config, rec: Record, now: real) {
    if rec.lifecycle.Accepted? || rec.lifecycle.AwaitingCancel? || PossiblySubmitted(rec) then false
    else if rec.createdTs <= 0.0 || rec.ttlStartedTs <= 0.0 then true
    else if Leased(rec, now) then false
    else if NonFailureDeferral(rec.reason) then false
    else now - rec.ttlStartedTs > cfg.ttl || (cfg.maxAttempts > 0 && rec.attempts >= cfg.maxAttempts)
  }

  predicate IsDue(cfg: Config, rec: Record, now: real) {
    var base :=
      if rec.lifecycle.SubmitPending? then Max(rec.lastAttemptTs, rec.createdTs)
      else Max(rec.lastStatusTs, Max(if rec.acceptedTs.Some? then rec.acceptedTs.value else 0.0, rec.createdTs));
    !Leased(rec, now) && now - base >= cfg.interval
  }

  /** `_not_found_is_reliable` for a venue that declares a lookup horizon. */
  predicate NotFoundIsReliable(cfg: Config, rec: Record, now: real, horizon: real) {
    var reference := Max(rec.createdTs, rec.lastAttemptTs);
    horizon > 0.0 && reference > 0.0 && 0.0 <= now - reference <= Min(horizon, cfg.notFoundMaxAge)
  }

  /** `valid_record` together with the facts every queue operation keeps, the
      lease aside: the client ID is the default one of the current revision and
      the delivered and open quantities add up to the requested one. */
  predicate ValidBody(rec: Record) {
    && rec.qty > 0.0
    && rec.createdTs > 0.0
    && rec.ttlStartedTs > 0.0
    && rec.clientId == ClientId(rec.id, rec.revision)
    && rec.delivered >= 0.0
    && rec.delivered + rec.qty == rec.requestedTotal
    && (rec.lifecycle.Accepted? <==> rec.orderId.Some?)
    && (rec.lifecycle.AwaitingCancel? ==>
          rec.replacesOrder.Some? && rec.replacesOriginalQty.Some? && rec.replacesOriginalQty.value > 0.0 &&
          rec.revision == 0 && rec.delivered == 0.0)
    && (rec.safeToDiscard ==> rec.lifecycle.SubmitPending? && rec.delivered == 0.0)
    && (rec.lifecycle.SubmitPending? ==> !rec.submission.Acknowledged?)
  }

  predicate ValidRecord(rec: Record) {
    ValidBody(rec) && (rec.claim.Some? ==> rec.claim.value.revision == rec.revision)
  }
}
