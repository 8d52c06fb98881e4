/** The strategy-owned order lifecycle of order_retry.py: what `submit` and
    `reconcile` persist, in order, for every answer the venue may give.  A process
    that dies has persisted a prefix. */
module TrackedLifecycle {
  import opened Options

  datatype Kind = Buy | Sell
  datatype StatusKind = Open | Closed | Canceled | Expired

  datatype Status = Status(kind: StatusKind, filled: real, cost: real, fee: real)

  /** Deterministic: a hash of these fields, taken to be injective. */
  datatype ClientId = ClientId(kind: Kind, referenceTs: real, threshold: real, attempt: nat)

  datatype Submission = NotSent | RefusedBefore | UnknownOutcome | AcceptedOutcome

  datatype Pending = Pending(
    clientId: ClientId, threshold: real, attempt: nat, requested: real, createdAt: real,
    submission: Submission, orderId: Option<nat>, misses: nat,
    lookupError: bool, statusError: bool, cancelError: bool,
    last: Option<Status>, terminal: Option<Status>, cancelAt: Option<real>)

  datatype Lookup = LookupFails | NotFound | FoundOrder(order: nat)
  datatype StatusAnswer = StatusFails | Got(status: Status)

  /** What the venue says during one reconciliation. */
  datatype Answers = Answers(lookup: Lookup, first: StatusAnswer, canceled: bool, second: StatusAnswer)

  datatype Policy = Policy(missing: nat, retryOnLookupError: bool, maxAge: Option<real>)

  datatype Outcome = Active | Ended(status: Status) | Absent | Retryable

  /** The pending rows persisted one after the other; None removes the row. */
  datatype Trace = Trace(saves: seq<Option<Pending>>, outcome: Outcome)

  predicate Terminal(status: Status) {
    !status.kind.Open?
  }

  function Max(x: real, y: real): real {
    if x >= y then x else y
  }

  function EndedRow(p: Pending, status: Status): Pending {
    p.(last := Some(status), terminal := Some(status))
  }

  function Then(first: seq<Option<Pending>>, rest: Trace): Trace {
    Trace(first + rest.saves, rest.outcome)
  }

  /** After the cancel was asked for. */
  function AfterCancel(p: Pending, a: Answers): Trace {
    if !a.canceled then Trace([Some(p.(cancelError := true))], Active)
    else
      var asked := p.(cancelError := false);
      match a.second
      case StatusFails => Trace([Some(asked), Some(asked.(statusError := true))], Active)
      case Got(status) =>
        if Terminal(status) then Trace([Some(asked), Some(EndedRow(asked, status))], Ended(status))
        else Trace([Some(asked), Some(asked.(last := Some(status)))], Active)
  }

  predicate MayCancel(policy: Policy, p: Pending, now: real) {
    policy.maxAge.Some? && Max(0.0, now - p.createdAt) >= policy.maxAge.value && p.cancelAt.None?
  }

  /** Once the order ID is known. */
  function StatusTrace(policy: Policy, p: Pending, now: real, a: Answers): Trace {
    match a.first
    case StatusFails => Trace([Some(p.(statusError := true))], Active)
    case Got(status) =>
      var seen := p.(statusError := false);
      if Terminal(status) then Trace([Some(EndedRow(seen, status))], Ended(status))
      else
        var open := seen.(last := Some(status));
        if !MayCancel(policy, open, now) then Trace([Some(open)], Active)
        else
          var asking := open.(cancelAt := Some(now));
          Then([Some(open), Some(asking)], AfterCancel(asking, a))
  }

  /** `reconcile`: cached terminal truth first, then the client ID, then the status. */
  function ReconcileTrace(policy: Policy, p: Pending, now: real, a: Answers): Trace {
    if p.terminal.Some? && Terminal(p.terminal.value) then Trace([], Ended(p.terminal.value))
    else if p.orderId.Some? then StatusTrace(policy, p, now, a)
    else
      match a.lookup
      case LookupFails =>
        var failed := p.(lookupError := true);
        if policy.retryOnLookupError then Trace([Some(failed), None], Retryable) else Trace([Some(failed)], Active)
      case NotFound =>
        var missed := p.(misses := p.misses + 1);
        if missed.misses < policy.missing then Trace([Some(missed)], Active) else Trace([Some(missed), None], Absent)
      case FoundOrder(order) =>
        var known := p.(orderId := Some(order), misses := 0, lookupError := false);
        Then([Some(known)], StatusTrace(policy, known, now, a))
  }

  /** `submit`: the intent is persisted before the venue is called, and what the
      call said afterwards. */
  function SubmitTrace(p: Pending, said: Submission, order: Option<nat>): seq<Option<Pending>> {
    [Some(p), Some(p.(submission := said, orderId := if said.AcceptedOutcome? then order else None))]
  }

  // ------------------------------------------------------------------
  // What every trace keeps.
  // ------------------------------------------------------------------

  /** The same intent: its identity and its size never change. */
  predicate SameIntent(p: Pending, q: Pending) {
    q.clientId == p.clientId && q.threshold == p.threshold && q.attempt == p.attempt && q.requested == p.requested
  }

  /** Every answer that is final is one the venue may give. */
  ghost predicate Honest(p: Pending, a: Answers, within: (Status, real) -> bool) {
    && (a.first.Got? && Terminal(a.first.status) ==> within(a.first.status, p.requested))
    && (a.second.Got? && Terminal(a.second.status) ==> within(a.second.status, p.requested))
  }

  /** How a trace may look: rows of the same intent; only the last save may set
      the terminal status or remove the row, and it does so exactly for the
      outcomes that say so. */
  predicate WellTraced(p: Pending, t: Trace) {
    && (forall i :: 0 <= i < |t.saves| && t.saves[i].Some? ==> SameIntent(p, t.saves[i].value))
    && (forall i :: 0 <= i < |t.saves| - 1 ==> t.saves[i].Some? && t.saves[i].value.terminal.None?)
    && (t.outcome.Ended? ==>
          Terminal(t.outcome.status) &&
          (if t.saves == [] then p.terminal == Some(t.outcome.status)
           else t.saves[|t.saves| - 1].Some? && t.saves[|t.saves| - 1].value.terminal == Some(t.outcome.status)))
    && (t.outcome.Active? ==> |t.saves| > 0 && t.saves[|t.saves| - 1].Some? && t.saves[|t.saves| - 1].value.terminal.None?)
    && (t.outcome.Absent? || t.outcome.Retryable? ==> |t.saves| > 0 && t.saves[|t.saves| - 1].None?)
  }

  lemma StatusWellTraced(policy: Policy, p: Pending, now: real, a: Answers)
    requires p.terminal.None?
    ensures WellTraced(p, StatusTrace(policy, p, now, a))
    ensures StatusTrace(policy, p, now, a).saves != []
    ensures StatusTrace(policy, p, now, a).outcome.Active? || StatusTrace(policy, p, now, a).outcome.Ended?
  {
  }

  /** Reconciliation is well traced for every answer, and it submits nothing: a row
      that is removed had no order ID. */
  lemma ReconcileWellTraced(policy: Policy, p: Pending, now: real, a: Answers)
    requires p.terminal.Some? ==> Terminal(p.terminal.value)
    ensures WellTraced(p, ReconcileTrace(policy, p, now, a))
    ensures ReconcileTrace(policy, p, now, a).outcome.Absent? || ReconcileTrace(policy, p, now, a).outcome.Retryable? ==>
              p.orderId.None?
    ensures p.terminal.Some? ==>
              ReconcileTrace(policy, p, now, a).saves == [] && ReconcileTrace(policy, p, now, a).outcome == Ended(p.terminal.value)
  {
    if p.terminal.None? {
      if p.orderId.Some? {
        StatusWellTraced(policy, p, now, a);
      } else if a.lookup.FoundOrder? {
        var known := p.(orderId := Some(a.lookup.order), misses := 0, lookupError := false);
        var rest := StatusTrace(policy, known, now, a);
        StatusWellTraced(policy, known, now, a);
        var all := Then([Some(known)], rest);
        forall i | 0 <= i < |all.saves| && all.saves[i].Some? ensures SameIntent(p, all.saves[i].value) {
          assert i > 0 ==> all.saves[i] == rest.saves[i - 1];
        }
        forall i | 0 <= i < |all.saves| - 1 ensures all.saves[i].Some? && all.saves[i].value.terminal.None? {
          assert i > 0 ==> all.saves[i] == rest.saves[i - 1];
        }
      }
    }
  }

  /** The final status is one the venue gave now, or the one already persisted. */
  lemma EndedIsHonest(policy: Policy, p: Pending, now: real, a: Answers, within: (Status, real) -> bool)
    requires Honest(p, a, within)
    requires ReconcileTrace(policy, p, now, a).outcome.Ended?
    ensures p.terminal == Some(ReconcileTrace(policy, p, now, a).outcome.status) ||
            within(ReconcileTrace(policy, p, now, a).outcome.status, p.requested)
  {
  }
}
