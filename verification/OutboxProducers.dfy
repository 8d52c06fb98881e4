/** The two clients that dispatch their own records: `Instrument.place` around its
    one provider call, and the monitor's cancel-then-replace of one open order.
    Whenever the monitor takes the queue lock again, others may have left any list
    there; OutboxProtocol says which ones they can. */
module OutboxProducers {
  import opened Options
  import opened OutboxRecord
  import opened OutboxEdits
  import opened OutboxList
  import opened OutboxEnqueue
  import opened OutboxRefinement
  import opened OutboxWorker
  import opened RetryQueueFile
  import Passes

  // ------------------------------------------------------------------
  // Instrument.place.
  // ------------------------------------------------------------------

  /** How the provider call ends. */
  datatype Answer = AnsweredWith(order: nat) | AnsweredWithoutId | RefusedAtBoundary(reason: Reason) | CallRaised

  function AftermathOf(answer: Answer): Aftermath {
    match answer
    case AnsweredWith(order) => Aftermath(Some(order), None, None, false)
    case AnsweredWithoutId => Aftermath(None, None, Some(ResponseWithoutOrderId), false)
    case RefusedAtBoundary(reason) => Aftermath(None, None, Some(reason), true)
    case CallRaised => Aftermath(None, None, Some(SubmitAmbiguous), false)
  }

  function NeverSent(reason: Reason): Aftermath {
    Aftermath(None, None, Some(reason), true)
  }

  const CLAIM_LOST := OtherReason("producer_claim_lost")

  /** The queue after one placement under a durable claim. */
  function Placed(q: seq<Record>, claim: Record, refusal: Option<Reason>, process: nat, now: real, lease: real,
                  answer: Answer, provider: Option<string>, later: real): seq<Record>
  {
    var found := Lookup(q, claim.id);
    if refusal.Some? then Rewrite(q, FinishEdit(claim, NeverSent(refusal.value), provider, later))
    else if found.Some? && BeginMatches(found.value, claim) then
      Rewrite(Rewrite(q, BeginEdit(claim, now, lease, process)),
              FinishEdit(BeginRecord(found.value, now, lease, process), AftermathOf(answer), provider, later))
    else Rewrite(q, FinishEdit(claim, NeverSent(CLAIM_LOST), provider, later))
  }

  /** `Instrument.place` from the guards on: `refusal` is the guards' verdict, and
      the `finally` clause records what became of the call. */
  method Place(queue: RetryQueue, claim: Record, refusal: Option<Reason>, process: nat, now: real, lease: real,
               answer: Answer, provider: Option<string>, later: real)
    returns (sent: bool, order: Option<nat>)
    requires queue.Valid() && now > 0.0 && lease > 0.0 && later > 0.0
    modifies queue
    ensures queue.Valid()
    ensures sent <==> refusal.None? && exists o :: o in old(queue.records) && BeginMatches(o, claim)
    ensures order == if sent && answer.AnsweredWith? then Some(answer.order) else None
    ensures queue.records == Placed(old(queue.records), claim, refusal, process, now, lease, answer, provider, later)
  {
    sent, order := false, None;
    var held := claim;
    var attempted := false;
    var reason := SubmitPendingReason;
    BeginFound(queue.records, claim, now, lease, process);
    if refusal.Some? {
      reason := refusal.value;
    } else {
      var refreshed := queue.BeginClaimedSubmit(claim, now, lease, process);
      if refreshed.None? {
        reason := CLAIM_LOST;
      } else {
        held := refreshed.value;
        sent, attempted, reason := true, true, SubmitAmbiguous;
        match answer
        case AnsweredWith(id) => order := Some(id);
        case AnsweredWithoutId => reason := ResponseWithoutOrderId;
        case RefusedAtBoundary(why) => reason, attempted := why, false;
        case CallRaised =>
      }
    }
    if order.Some? {
      FinishDispatch(queue, held, Aftermath(order, None, None, false), provider, later);
    } else {
      FinishDispatch(queue, held, Aftermath(None, None, Some(reason), !attempted), provider, later);
    }
  }

  /** The refreshed claim is the begun record. */
  lemma BeginFound(q: seq<Record>, claim: Record, now: real, lease: real, process: nat)
    requires ValidList(q) && now > 0.0 && lease > 0.0
    ensures var found := Lookup(q, claim.id);
            && ((found.Some? && BeginMatches(found.value, claim)) <==> exists o :: o in q && BeginMatches(o, claim))
            && (found.Some? && BeginMatches(found.value, claim) ==>
                  Lookup(Rewrite(q, BeginEdit(claim, now, lease, process)), claim.id)
                    == Some(BeginRecord(found.value, now, lease, process)))
  {
    PassAt(q, BeginEdit(claim, now, lease, process), claim.id);
    forall o | o in q && BeginMatches(o, claim) ensures Lookup(q, claim.id) == Some(o) {
      var i :| 0 <= i < |q| && q[i] == o;
      Passes.LookupAt(q, ID, i);
    }
  }

  /** Whatever the call did, its record remembers it: an order is tracked, an
      unknown fate is looked up before any resubmission, and only a definite
      refusal removes the record or makes it submittable again. */
  lemma PlacedIsRemembered(q: seq<Record>, claim: Record, process: nat, now: real, lease: real,
                           answer: Answer, provider: Option<string>, later: real)
    requires ValidList(q) && now > 0.0 && lease > 0.0 && later > 0.0
    requires Lookup(q, claim.id).Some? && BeginMatches(Lookup(q, claim.id).value, claim)
    requires Lookup(q, claim.id).value.lifecycle.SubmitPending?
    ensures var left := Lookup(Placed(q, claim, None, process, now, lease, answer, provider, later), claim.id);
            && (answer.AnsweredWith? ==>
                  left.Some? && left.value.lifecycle.Accepted? && left.value.orderId == Some(answer.order))
            && (answer.AnsweredWithoutId? || answer.CallRaised? ==> left.Some? && PossiblySubmitted(left.value))
            && (left.None? || (left.value.lifecycle.SubmitPending? && !RequiresReconciliation(left.value)) ==>
                  answer.RefusedAtBoundary?)
  {
    var begun := BeginRecord(Lookup(q, claim.id).value, now, lease, process);
    var middle := Rewrite(q, BeginEdit(claim, now, lease, process));
    BeginFound(q, claim, now, lease, process);
    RewriteKeepsValid(q, BeginEdit(claim, now, lease, process));
    PassAt(middle, FinishEdit(begun, AftermathOf(answer), provider, later), claim.id);
    NothingForgotten(Config(true, 1.0, 1.0, 0, false, 0, 1.0, 1.0), begun, AftermathOf(answer), provider, later, later);
  }

  /** A producer whose claim was taken over sends nothing and changes nothing,
      whether it notices at the guards or at begin. */
  lemma LostClaimChangesNothing(q: seq<Record>, claim: Record, refusal: Option<Reason>, process: nat, now: real, lease: real,
                                answer: Answer, provider: Option<string>, later: real)
    requires ValidList(q) && ValidRecord(claim) && claim.claim.Some?
    requires Lookup(q, claim.id).Some? ==> !BeginMatches(Lookup(q, claim.id).value, claim)
    ensures Placed(q, claim, refusal, process, now, lease, answer, provider, later) == q
  {
    var found := Lookup(q, claim.id);
    if found.Some? {
      assert found.value in q;
      TestsAgree(found.value, View(found.value), claim, View(claim));
    }
    StaleSnapshot(q, FinishEdit(claim, NeverSent(if refusal.Some? then refusal.value else CLAIM_LOST), provider, later), claim.id);
  }

  // ------------------------------------------------------------------
  // The monitor.
  // ------------------------------------------------------------------

  /** A record of another intent stays through an edit addressed to one ID. */
  lemma OthersStay(q: seq<Record>, edit: Edit, id: nat)
    requires Addressed(edit, id) || (edit.ClaimEdit? && edit.ids == {id})
    ensures forall rec :: rec in q && rec.id != id ==> rec in Rewrite(q, edit)
  {
    forall rec | rec in q && rec.id != id ensures rec in Rewrite(q, edit) {
      if edit.ClaimEdit? {
        assert !Selects(edit, rec);
      } else {
        AddressedSelects(edit, id, rec);
      }
      UnselectedStays(q, edit, rec);
    }
  }

  /** What the monitor found in the queue: its own new record or the stored one
      for the same order. */
  ghost predicate Admitted(before: seq<Record>, q: seq<Record>, req: Request, id: nat) {
    && ValidList(q)
    && (forall rec :: rec in before && Protected(rec) ==> rec in q)
    && Lookup(q, id).Some? && SameReplacement(Lookup(q, id).value, req)
  }

  method PersistReplacement(queue: RetryQueue, req: Request, id: nat, token: nat) returns (target: Option<nat>)
    requires queue.Valid() && (forall r :: r in queue.records ==> r.id != id) && req.lifecycle.AwaitingCancel?
    modifies queue
    ensures queue.Valid()
    ensures target.Some? ==> Admitted(old(queue.records), queue.records, req, target.value)
    ensures target.None? ==> queue.records == old(queue.records)
  {
    ghost var before := queue.records;
    AdmitProtects(queue.cfg, before, req, id, token);
    var verdict := queue.Enqueue(req, id, token);
    if verdict.Added? {
      Passes.LookupAt(queue.records, ID, |queue.records| - 1);
      return Some(verdict.rec.id);
    }
    if verdict.Existing? {
      ghost var i := FirstReplacement(before, req).value;
      Passes.LookupAt(before, ID, i);
      return Some(verdict.id);
    }
    return None;
  }

  /** The lease the monitor gets on the one listed record, if it is there and free. */
  function Leasing(q: seq<Record>, id: nat, now: real, lease: real, token: nat): Option<Record> {
    var stored := Lookup(q, id);
    if stored.None? || Leased(stored.value, now) then None else Some(ClaimRecord(stored.value, now, lease, token))
  }

  lemma ClaimedAlone(q: seq<Record>, id: nat, now: real, lease: real, token: nat)
    requires ValidList(q) && lease > 0.0
    ensures var edit := ClaimEdit({id}, now, lease, token);
            var claimed := Passes.Rewrite(q, Chosen(edit));
            && claimed == (if Leasing(q, id, now, lease, token).None? then [] else [Leasing(q, id, now, lease, token).value])
            && (claimed == [] ==> Rewrite(q, edit) == q)
            && (claimed != [] ==> Lookup(Rewrite(q, edit), id) == Some(claimed[0]))
  {
    var edit := ClaimEdit({id}, now, lease, token);
    PassAt(q, edit, id);
    forall j | 0 <= j < |q| && Selects(edit, q[j]) ensures Lookup(q, id) == Some(q[j]) && !Leased(q[j], now) {
      Passes.LookupAt(q, ID, j);
    }
    if Leasing(q, id, now, lease, token).None? {
      NoneChosen(q, edit);
      RewriteNoTarget(q, edit);
    } else {
      var i :| 0 <= i < |q| && q[i] == Lookup(q, id).value;
      OnlyChosen(q, edit, i);
    }
  }

  lemma {:induction false} OnlyChosen(q: seq<Record>, edit: Edit, i: nat)
    requires i < |q| && forall j :: 0 <= j < |q| && j != i ==> !Selects(edit, q[j])
    ensures Passes.Rewrite(q, Chosen(edit)) == Chosen(edit)(q[i])
  {
    var n := |q| - 1;
    if i == n {
      NoneChosen(q[..n], edit);
    } else {
      OnlyChosen(q[..n], edit, i);
    }
  }

  lemma {:induction false} NoneChosen(q: seq<Record>, edit: Edit)
    requires forall j :: 0 <= j < |q| ==> !Selects(edit, q[j])
    ensures Passes.Rewrite(q, Chosen(edit)) == []
  {
    if q != [] {
      NoneChosen(q[..|q| - 1], edit);
    }
  }

  /** What a canceled order left of its original size. */
  function Unfilled(original: real, prior: PriorOrder): real {
    if prior.CanceledAfter? then Max(0.0, original - Max(0.0, prior.filled)) else 0.0
  }

  /** What a dispatched replacement looks like. */
  predicate DispatchedFor(rec: Record, req: Request, qty: real, process: nat) {
    && rec.replacesOrder == req.replacesOrder && rec.provider == req.provider && rec.symbol == req.symbol && rec.side == req.side
    && rec.lifecycle.SubmitPending? && rec.submission.ProducerClaimed? && rec.owner == Some(process) && rec.claim.Some?
    && rec.qty == rec.requestedTotal == qty > 0.0
  }

  /** What the queue holds whenever the monitor takes its lock again after the
      replacement was stored: to claim it, to act on the old order's status, to
      begin the dispatch, and to record what it reported. */
  datatype Meanwhile = Meanwhile(atClaim: seq<Record>, atHandle: seq<Record>, atBegin: seq<Record>, atFinish: seq<Record>)
  {
    ghost predicate Valid() {
      ValidList(atClaim) && ValidList(atHandle) && ValidList(atBegin) && ValidList(atFinish)
    }
  }

  /** Others had the lock in between. */
  method Interfere(queue: RetryQueue, seen: seq<Record>)
    requires queue.Valid() && ValidList(seen)
    modifies queue`records
    ensures queue.Valid() && queue.records == seen
  {
    queue.records := seen;
  }

  /** `monitor_open_orders_by_type` for one open order.  `blocked` is a refusal of
      the venue filters or the preflight, `prior` the old order's status after the
      cancel request, `after` what the placement reported. */
  method ReplaceOrder(queue: RetryQueue, req: Request, id: nat, token: nat, second: nat, process: nat, now: real, lease: real,
                      blocked: bool, prior: PriorOrder, original: real, after: Aftermath, later: real, m: Meanwhile)
    returns (target: Option<nat>, claimed: Option<Record>, dispatched: Option<Record>, ghost admitted: seq<Record>)
    requires queue.Valid() && (forall r :: r in queue.records ==> r.id != id) && req.lifecycle.AwaitingCancel?
    requires now > 0.0 && lease > 0.0 && later > 0.0 && m.Valid()
    modifies queue
    ensures queue.Valid()
    ensures target.None? ==> claimed.None? && dispatched.None? && queue.records == old(queue.records)
    ensures target.Some? ==>
              Admitted(old(queue.records), admitted, req, target.value) &&
              claimed == Leasing(m.atClaim, target.value, now, lease, second)
    ensures target.Some? && claimed.None? ==> dispatched.None? && queue.records == m.atClaim
    ensures claimed.Some? ==>
              (dispatched, queue.records) ==
                Handled(m.atHandle, claimed.value, process, now, lease, blocked, prior, original, after, later, m.atBegin, m.atFinish)
  {
    claimed, dispatched := None, None;
    target := PersistReplacement(queue, req, id, token);
    admitted := queue.records;
    if target.Some? {
      Interfere(queue, m.atClaim);
      claimed := ClaimReplacement(queue, target.value, now, lease, second);
      if claimed.Some? {
        Interfere(queue, m.atHandle);
        dispatched := ReplaceClaimed(queue, claimed.value, process, now, lease, blocked, prior, original, after, later, m.atBegin, m.atFinish);
      }
    }
  }

  method ClaimReplacement(queue: RetryQueue, id: nat, now: real, lease: real, token: nat) returns (claimed: Option<Record>)
    requires queue.Valid() && lease > 0.0
    modifies queue
    ensures queue.Valid()
    ensures claimed == Leasing(old(queue.records), id, now, lease, token)
    ensures claimed.Some? ==> claimed.value.id == id && Lookup(queue.records, id) == claimed
    ensures claimed.None? ==> queue.records == old(queue.records)
    ensures forall rec :: rec in old(queue.records) && rec.id != id ==> rec in queue.records
  {
    ClaimedAlone(queue.records, id, now, lease, token);
    OthersStay(queue.records, ClaimEdit({id}, now, lease, token), id);
    var _, list := queue.Claim({id}, now, lease, token);
    claimed := if list == [] then None else Some(list[0]);
  }

  /** What the placement reported; the monitor has its own word for silence. */
  function Report(after: Aftermath): Aftermath {
    Aftermath(after.order, None,
              Some(if after.reason.Some? then after.reason.value else OtherReason("replacement_not_accepted")), after.refused)
  }

  /** Begin, the placement, and its record: what was dispatched, and the queue. */
  function Dispatched(atBegin: seq<Record>, claim: Record, process: nat, now: real, lease: real, after: Aftermath, later: real,
                      atFinish: seq<Record>): (Option<Record>, seq<Record>)
  {
    var found := Lookup(atBegin, claim.id);
    if found.None? || !BeginMatches(found.value, claim) then (None, atBegin)
    else
      var begun := BeginRecord(found.value, now, lease, process);
      (Some(begun), Rewrite(atFinish, FinishEdit(begun, Report(after), Some("Binance"), later)))
  }

  /** Would an activation of this claim succeed on this list? */
  predicate Activates(q: seq<Record>, claim: Record, qty: real) {
    var found := Lookup(q, claim.id);
    found.Some? && ActivateMatches(found.value, claim) && ActivateVerdict(found.value, qty) == Activated
  }

  /** What the monitor dispatches for a leased replacement, and the queue then. */
  function Handled(q: seq<Record>, claim: Record, process: nat, now: real, lease: real, blocked: bool, prior: PriorOrder,
                   original: real, after: Aftermath, later: real, atBegin: seq<Record>, atFinish: seq<Record>): (Option<Record>, seq<Record>)
    requires claim.claim.Some?
  {
    if blocked then (None, Rewrite(q, CompleteEdit(claim, Success, None, now)))
    else
      match prior
      case StatusUnavailable => (None, Rewrite(q, CompleteEdit(claim, StatusError, None, now)))
      case StillLive => (None, Rewrite(q, CompleteEdit(claim, Release, None, now)))
      case EndedOtherwise => (None, Rewrite(q, CompleteEdit(claim, Success, None, now)))
      case CanceledAfter(_) =>
        var qty := Unfilled(original, prior);
        if !Activates(q, claim, qty) then (None, Rewrite(q, ActivateEdit(claim, qty, now)))
        else Dispatched(atBegin, claim, process, now, lease, after, later, atFinish)
  }

  /** The same, from the leased replacement on. */
  method ReplaceClaimed(queue: RetryQueue, claim: Record, process: nat, now: real, lease: real,
                        blocked: bool, prior: PriorOrder, original: real, after: Aftermath, later: real,
                        atBegin: seq<Record>, atFinish: seq<Record>)
    returns (dispatched: Option<Record>)
    requires queue.Valid() && now > 0.0 && lease > 0.0 && later > 0.0
    requires claim.claim.Some? && ValidList(atBegin) && ValidList(atFinish)
    modifies queue
    ensures queue.Valid()
    ensures (dispatched, queue.records) ==
              Handled(old(queue.records), claim, process, now, lease, blocked, prior, original, after, later, atBegin, atFinish)
  {
    dispatched := None;
    if blocked {
      Finish(queue, claim, Success, now);
      return;
    }
    match prior
    case StatusUnavailable => Finish(queue, claim, StatusError, now);
    case StillLive => Finish(queue, claim, Release, now);
    case EndedOtherwise => Finish(queue, claim, Success, now);
    case CanceledAfter(_) =>
      var verdict := queue.ActivateClaimedReplacement(claim, Unfilled(original, prior), now);
      if verdict == Activated {
        Interfere(queue, atBegin);
        dispatched := DispatchReplacement(queue, claim, process, now, lease, after, later, atFinish);
      }
  }

  method Finish(queue: RetryQueue, claim: Record, outcome: Outcome, now: real)
    requires queue.Valid() && now > 0.0 && ValidCompletion(outcome, None)
    modifies queue
    ensures queue.Valid()
    ensures queue.records == Rewrite(old(queue.records), CompleteEdit(claim, outcome, None, now))
    ensures forall rec :: rec in old(queue.records) && rec.id != claim.id ==> rec in queue.records
  {
    OthersStay(queue.records, CompleteEdit(claim, outcome, None, now), claim.id);
    var _, _ := queue.CompleteClaim(claim, outcome, None, now);
  }

  /** Begin, one placement, and what it reported; nothing when the claim is lost. */
  method DispatchReplacement(queue: RetryQueue, claim: Record, process: nat, now: real, lease: real,
                             after: Aftermath, later: real, atFinish: seq<Record>)
    returns (begun: Option<Record>)
    requires queue.Valid() && now > 0.0 && lease > 0.0 && later > 0.0 && ValidList(atFinish)
    modifies queue
    ensures queue.Valid()
    ensures (begun, queue.records) == Dispatched(old(queue.records), claim, process, now, lease, after, later, atFinish)
  {
    BeginFound(queue.records, claim, now, lease, process);
    begun := queue.BeginClaimedSubmit(claim, now, lease, process);
    if begun.Some? {
      Interfere(queue, atFinish);
      FinishDispatch(queue, begun.value, Report(after), Some("Binance"), later);
    }
  }

  // ------------------------------------------------------------------
  // What the monitor's replacement is worth.
  // ------------------------------------------------------------------

  /** Whatever others do meanwhile, a dispatch follows an observed cancel that left
      something unfilled, under the exact claim that was taken; and when they leave
      the leased record alone it asks for exactly what was left. */
  lemma DispatchFollowsCancel(q: seq<Record>, req: Request, stored: Record, claim: Record, process: nat, now: real, lease: real, token: nat,
                              blocked: bool, prior: PriorOrder, original: real, after: Aftermath, later: real,
                              atBegin: seq<Record>, atFinish: seq<Record>)
    requires claim == ClaimRecord(stored, now, lease, token)
    ensures var qty := Unfilled(original, prior);
            var dispatched := Handled(q, claim, process, now, lease, blocked, prior, original, after, later, atBegin, atFinish).0;
            dispatched.Some? ==>
              && !blocked && prior.CanceledAfter? && qty > 0.0
              && dispatched.value.id == claim.id && dispatched.value.clientId == claim.clientId
              && dispatched.value.revision == claim.revision && Token(dispatched.value) == Some(token)
              && dispatched.value.submission.ProducerClaimed? && dispatched.value.owner == Some(process)
              && (SameReplacement(stored, req) && Lookup(atBegin, claim.id) == Some(ActivateRecord(claim, qty, now)) ==>
                    DispatchedFor(dispatched.value, req, qty, process))
  {
  }

  /** A record of another intent that is there at every turn stays. */
  lemma HandledTouchesOne(q: seq<Record>, claim: Record, process: nat, now: real, lease: real, blocked: bool, prior: PriorOrder,
                          original: real, after: Aftermath, later: real, atBegin: seq<Record>, atFinish: seq<Record>, rec: Record)
    requires claim.claim.Some? && rec.id != claim.id && rec in q && rec in atBegin && rec in atFinish
    ensures rec in Handled(q, claim, process, now, lease, blocked, prior, original, after, later, atBegin, atFinish).1
  {
    var qty := Unfilled(original, prior);
    OthersStay(q, CompleteEdit(claim, Success, None, now), claim.id);
    OthersStay(q, CompleteEdit(claim, StatusError, None, now), claim.id);
    OthersStay(q, CompleteEdit(claim, Release, None, now), claim.id);
    OthersStay(q, ActivateEdit(claim, qty, now), claim.id);
    var found := Lookup(atBegin, claim.id);
    if found.Some? && BeginMatches(found.value, claim) {
      var begun := BeginRecord(found.value, now, lease, process);
      OthersStay(atFinish, FinishEdit(begun, Report(after), Some("Binance"), later), claim.id);
    }
  }

  lemma DispatchedIsRemembered(claim: Record, stored: Record, process: nat, now: real, lease: real, after: Aftermath, later: real,
                               atBegin: seq<Record>, atFinish: seq<Record>)
    requires ValidList(atBegin) && ValidList(atFinish) && now > 0.0 && lease > 0.0
    requires Lookup(atBegin, claim.id) == Some(stored) && BeginMatches(stored, claim) && stored.lifecycle.SubmitPending?
    requires Lookup(atFinish, claim.id) == Some(BeginRecord(stored, now, lease, process))
    ensures var left := Lookup(Dispatched(atBegin, claim, process, now, lease, after, later, atFinish).1, claim.id);
            && (after.order.Some? ==> left.Some? && left.value.lifecycle.Accepted? && left.value.orderId == after.order)
            && (after.order.None? && !after.refused ==> left.Some? && PossiblySubmitted(left.value))
            && (left.Some? ==> !left.value.lifecycle.AwaitingCancel?)
            && (left.None? ==> after.order.None? && after.refused)
  {
    var begun := BeginRecord(stored, now, lease, process);
    var edit := FinishEdit(begun, Report(after), Some("Binance"), later);
    PassAt(atFinish, edit, claim.id);
    NothingForgotten(Config(true, 1.0, 1.0, 0, false, 0, 1.0, 1.0), begun, Report(after), Some("Binance"), later, later);
    if after.order.None? && after.refused {
      assert Edited(edit, begun).Some? ==> Edited(edit, begun).value.lifecycle == begun.lifecycle;
    }
  }

  /** Whatever others do to other records: after the monitor is done, its
      replacement has left the pre-cancel state only if the old order was seen
      canceled with something left to replace; a placed one is tracked, one of
      unknown fate will be looked up; and the intent is gone only when it was
      blocked, is not needed any more, or was definitely refused. */
  lemma HandledIsRemembered(q: seq<Record>, claim: Record, process: nat, now: real, lease: real, blocked: bool, prior: PriorOrder,
                            original: real, after: Aftermath, later: real, atBegin: seq<Record>, atFinish: seq<Record>)
    requires ValidList(q) && ValidList(atBegin) && ValidList(atFinish) && now > 0.0 && lease > 0.0
    requires claim.claim.Some? && claim.lifecycle.AwaitingCancel? && Lookup(q, claim.id) == Some(claim)
    requires Activates(q, claim, Unfilled(original, prior)) ==>
               var activated := ActivateRecord(claim, Unfilled(original, prior), now);
               Lookup(atBegin, claim.id) == Some(activated) && Lookup(atFinish, claim.id) == Some(BeginRecord(activated, now, lease, process))
    ensures var verdict := ActivateVerdict(claim, Unfilled(original, prior));
            var sent := !blocked && prior.CanceledAfter? && verdict == Activated;
            var (dispatched, records) := Handled(q, claim, process, now, lease, blocked, prior, original, after, later, atBegin, atFinish);
            var left := Lookup(records, claim.id);
            && (dispatched.Some? <==> sent)
            && (left.Some? && !left.value.lifecycle.AwaitingCancel? ==> sent)
            && (sent && after.order.Some? ==> left.Some? && left.value.lifecycle.Accepted? && left.value.orderId == after.order)
            && (sent && after.order.None? && !after.refused ==> left.Some? && PossiblySubmitted(left.value))
            && (left.None? ==> || blocked || prior.EndedOtherwise? || (prior.CanceledAfter? && verdict == Resolved)
                               || (sent && after.order.None? && after.refused))
  {
    assert claim in q;
    if blocked {
      PassAt(q, CompleteEdit(claim, Success, None, now), claim.id);
    } else {
      match prior
      case StatusUnavailable => PassAt(q, CompleteEdit(claim, StatusError, None, now), claim.id);
      case StillLive => PassAt(q, CompleteEdit(claim, Release, None, now), claim.id);
      case EndedOtherwise => PassAt(q, CompleteEdit(claim, Success, None, now), claim.id);
      case CanceledAfter(_) =>
        var qty := Unfilled(original, prior);
        if Activates(q, claim, qty) {
          DispatchedIsRemembered(claim, ActivateRecord(claim, qty, now), process, now, lease, after, later, atBegin, atFinish);
        } else {
          PassAt(q, ActivateEdit(claim, qty, now), claim.id);
        }
    }
  }
}
