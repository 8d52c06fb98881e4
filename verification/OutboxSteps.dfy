/** Every locked operation of the queue file is a step of the protocol, or a few
    steps in a row: whatever the operation makes of the stored list, the protocol
    reaches a state whose slots that list represents. */
module OutboxSteps {
  import opened Options
  import opened OutboxRecord
  import opened OutboxEdits
  import opened OutboxList
  import opened OutboxEnqueue
  import opened OutboxConsolidation
  import opened OutboxRefinement
  import Passes
  import Consolidation
  import P = OutboxProtocol

  /** The step is possible and leads to the slots of the new list. */
  ghost predicate Becomes(s: P.State, step: P.Step, q: seq<Record>) {
    exists s' :: P.NextStep(s, s', step) && RepresentsQueue(q, s'.queue)
  }

  lemma Reaches(s: P.State, s': P.State, step: P.Step, q: seq<Record>, m: P.Queue)
    requires P.NextStep(s, s', step) && RepresentsQueue(q, m) && m == s'.queue
    ensures Becomes(s, step, q)
  {
  }

  // ------------------------------------------------------------------
  // Several steps in a row.
  // ------------------------------------------------------------------

  ghost predicate Chain(run: seq<P.State>) {
    |run| > 0 && forall i, j {:trigger P.Next(run[i], run[j])} :: 0 <= i < |run| && j == i + 1 && j < |run| ==> P.Next(run[i], run[j])
  }

  ghost predicate LeadsTo(s: P.State, s': P.State) {
    exists run :: Chain(run) && run[0] == s && run[|run| - 1] == s'
  }

  lemma LeadsNowhere(s: P.State)
    ensures LeadsTo(s, s)
  {
    assert Chain([s]) && [s][0] == s && [s][|[s]| - 1] == s;
  }

  lemma LeadsOn(s: P.State, m: P.State, s': P.State, step: P.Step)
    requires LeadsTo(s, m) && P.NextStep(m, s', step)
    ensures LeadsTo(s, s')
  {
    var run :| Chain(run) && run[0] == s && run[|run| - 1] == m;
    var longer := run + [s'];
    assert P.Next(m, s');
    assert Chain(longer) && longer[0] == s && longer[|longer| - 1] == s';
  }

  // ------------------------------------------------------------------
  // claim.
  // ------------------------------------------------------------------

  /** The queue after the worker claimed some of its records. */
  function ClaimedQueue(q: P.Queue, done: set<nat>, token: nat, until: real): P.Queue {
    map id | id in q :: if id in done then P.ClaimSlot(q[id], token, until) else q[id]
  }

  /** Each claimed record has a task that holds a copy of it. */
  ghost predicate TaskFor(s: P.State, id: nat, process: nat) {
    id in s.queue && exists k :: k in s.tasks && s.tasks[k] == P.Task(P.Worker, process, P.Claimed, id, s.queue[id], None)
  }

  ghost predicate HasTasks(s: P.State, done: set<nat>, process: nat) {
    forall id {:trigger TaskFor(s, id, process)} :: id in done ==> TaskFor(s, id, process)
  }

  lemma OneMoreClaim(s: P.State, m: P.State, done: set<nat>, id: nat, until: real, plan: P.Plan)
    requires m.plan == Some(plan) && m.queue == ClaimedQueue(s.queue, done, plan.token, until) && HasTasks(m, done, plan.process)
    requires id in plan.ids && id in s.queue && id !in done && !P.SlotLeased(s.queue[id], plan.start) && m.next !in m.tasks
    ensures var slot := P.ClaimSlot(m.queue[id], plan.token, until);
            var s' := m.(queue := m.queue[id := slot], plan := Some(plan.(ids := plan.ids - {id})),
                         tasks := m.tasks[m.next := P.Task(P.Worker, plan.process, P.Claimed, id, slot, None)], next := m.next + 1);
            && P.NextStep(m, s', P.StepWorkerClaim(id, until))
            && s'.queue == ClaimedQueue(s.queue, done + {id}, plan.token, until) && HasTasks(s', done + {id}, plan.process)
  {
    var slot := P.ClaimSlot(m.queue[id], plan.token, until);
    var s' := m.(queue := m.queue[id := slot], plan := Some(plan.(ids := plan.ids - {id})),
                 tasks := m.tasks[m.next := P.Task(P.Worker, plan.process, P.Claimed, id, slot, None)], next := m.next + 1);
    assert P.WorkerClaim(m, s', id, until);
    forall i | i in done + {id} ensures TaskFor(s', i, plan.process) {
      if i == id {
        assert s'.tasks[m.next] == P.Task(P.Worker, plan.process, P.Claimed, i, s'.queue[i], None);
      } else {
        assert TaskFor(m, i, plan.process);
        var k :| k in m.tasks && m.tasks[k] == P.Task(P.Worker, plan.process, P.Claimed, i, m.queue[i], None);
        assert s'.tasks[k] == m.tasks[k];
      }
    }
  }

  ghost predicate FreshTasks(s: P.State) {
    forall k :: k in s.tasks ==> k < s.next
  }

  /** Any set of planned, unleased records can be claimed one after the other. */
  lemma {:induction false} ClaimAll(s: P.State, todo: set<nat>, until: real) returns (s': P.State)
    requires s.plan.Some? && FreshTasks(s) && todo <= s.plan.value.ids
    requires forall id :: id in todo ==> id in s.queue && !P.SlotLeased(s.queue[id], s.plan.value.start)
    ensures LeadsTo(s, s') && FreshTasks(s') && s'.plan == Some(s.plan.value.(ids := s.plan.value.ids - todo))
    ensures s'.queue == ClaimedQueue(s.queue, todo, s.plan.value.token, until) && HasTasks(s', todo, s.plan.value.process)
    decreases |todo|
  {
    if todo == {} {
      LeadsNowhere(s);
      s' := s;
      assert s.plan.value.ids - todo == s.plan.value.ids;
    } else {
      var id :| id in todo;
      var m := ClaimAll(s, todo - {id}, until);
      var plan := m.plan.value;
      OneMoreClaim(s, m, todo - {id}, id, until, plan);
      var slot := P.ClaimSlot(m.queue[id], plan.token, until);
      s' := m.(queue := m.queue[id := slot], plan := Some(plan.(ids := plan.ids - {id})),
               tasks := m.tasks[m.next := P.Task(P.Worker, plan.process, P.Claimed, id, slot, None)], next := m.next + 1);
      LeadsOn(s, m, s', P.StepWorkerClaim(id, until));
      assert todo - {id} + {id} == todo && s.plan.value.ids - (todo - {id}) - {id} == s.plan.value.ids - todo;
    }
  }

  /** The planned records without a live lease. */
  function Claimable(q: P.Queue, p: P.Plan): set<nat> {
    set id | id in p.ids && id in q && !P.SlotLeased(q[id], p.start)
  }

  /** The queue of the list lemma is the queue of the claims. */
  lemma SameClaims(q: P.Queue, p: P.Plan, until: real)
    ensures ClaimedQueue(q, Claimable(q, p), p.token, until) == ClaimedSlots(q, p.ids, p.start, p.token, until)
  {
  }

  /** Steps in a row, after which a task of the pass holds each claimed record. */
  ghost predicate ClaimsAll(s: P.State, s': P.State, p: P.Plan) {
    && LeadsTo(s, s')
    && (forall id :: id in s.queue && id in p.ids && !P.SlotLeased(s.queue[id], p.start) ==> TaskFor(s', id, p.process))
  }

  lemma ClaimPlanned(s: P.State, p: P.Plan, until: real) returns (s': P.State)
    requires s.plan == Some(p) && FreshTasks(s)
    ensures ClaimsAll(s, s', p) && s'.queue == ClaimedSlots(s.queue, p.ids, p.start, p.token, until)
  {
    s' := ClaimAll(s, Claimable(s.queue, p), until);
    SameClaims(s.queue, p, until);
    forall id | id in s.queue && id in p.ids && !P.SlotLeased(s.queue[id], p.start) ensures TaskFor(s', id, p.process) {
      assert id in Claimable(s.queue, p);
    }
  }

  /** The worker's `claim` of its planned IDs, under one token: a step per record
      that has no live lease.  ClaimPlanned has the tasks that it leaves. */
  lemma WorkerClaims(q: seq<Record>, s: P.State, p: P.Plan, lease: real) returns (s': P.State)
    requires RepresentsQueue(q, s.queue) && s.plan == Some(p) && FreshTasks(s) && lease > 0.0
    ensures LeadsTo(s, s') && RepresentsQueue(Rewrite(q, ClaimEdit(p.ids, p.start, lease, p.token)), s'.queue)
  {
    s' := ClaimWhole(s, p, p.start + lease);
    ListClaims(q, s.queue, p, lease, s'.queue);
  }

  lemma ClaimWhole(s: P.State, p: P.Plan, until: real) returns (s': P.State)
    requires s.plan == Some(p) && FreshTasks(s)
    ensures LeadsTo(s, s') && s'.queue == ClaimedSlots(s.queue, p.ids, p.start, p.token, until)
  {
    s' := ClaimPlanned(s, p, until);
  }

  lemma ListClaims(q: seq<Record>, m: P.Queue, p: P.Plan, lease: real, n: P.Queue)
    requires RepresentsQueue(q, m) && lease > 0.0 && n == ClaimedSlots(m, p.ids, p.start, p.token, p.start + lease)
    ensures RepresentsQueue(Rewrite(q, ClaimEdit(p.ids, p.start, lease, p.token)), n)
  {
    ClaimRefines(q, m, p.ids, p.start, lease, p.token);
  }

  lemma OneClaim(q: P.Queue, id: nat, now: real, token: nat, until: real)
    ensures ClaimedSlots(q, {id}, now, token, until) ==
              if id in q && !P.SlotLeased(q[id], now) then q[id := P.ClaimSlot(q[id], token, until)] else q
  {
  }

  lemma OneListClaim(q: seq<Record>, m: P.Queue, id: nat, now: real, lease: real, token: nat) returns (n: P.Queue)
    requires RepresentsQueue(q, m) && lease > 0.0
    ensures n == if id in m && !P.SlotLeased(m[id], now) then m[id := P.ClaimSlot(m[id], token, now + lease)] else m
    ensures RepresentsQueue(Rewrite(q, ClaimEdit({id}, now, lease, token)), n)
  {
    ClaimRefines(q, m, {id}, now, lease, token);
    OneClaim(m, id, now, token, now + lease);
    n := ClaimedSlots(m, {id}, now, token, now + lease);
  }

  /** The monitor's `claim` of its one replacement. */
  lemma MonitorClaims(q: seq<Record>, s: P.State, k: nat, id: nat, lease: real)
    requires RepresentsQueue(q, s.queue) && P.Acting(s, k, P.Monitor, P.Target) && s.tasks[k].id == id && lease > 0.0
    ensures var after := Rewrite(q, ClaimEdit({id}, s.now, lease, s.next));
            if id in s.queue && !P.SlotLeased(s.queue[id], s.now) then Becomes(s, P.StepMonitorClaim(k, s.now + lease), after)
            else RepresentsQueue(after, s.queue)
  {
    var after := Rewrite(q, ClaimEdit({id}, s.now, lease, s.next));
    var claimed := OneListClaim(q, s.queue, id, s.now, lease, s.next);
    if id in s.queue && !P.SlotLeased(s.queue[id], s.now) {
      var slot := P.ClaimSlot(s.queue[id], s.next, s.now + lease);
      var s' := s.(queue := s.queue[id := slot], tasks := s.tasks[k := s.tasks[k].(phase := P.Claimed, snap := slot)], next := s.next + 1);
      Reaches(s, s', P.StepMonitorClaim(k, s.now + lease), after, claimed);
    }
  }

  // ------------------------------------------------------------------
  // begin, complete, activate.
  // ------------------------------------------------------------------

  /** The record is the copy that the task holds. */
  ghost predicate Held(s: P.State, k: nat, snap: Record) {
    k in s.tasks && snap.id == s.tasks[k].id && ValidRecord(snap) && Represents(snap, s.tasks[k].snap)
  }

  lemma BeginIsStep(q: seq<Record>, s: P.State, k: nat, snap: Record, at: real, lease: real)
    requires RepresentsQueue(q, s.queue) && Held(s, k, snap) && snap.claim.Some?
    requires P.Live(s, k) && s.tasks[k].phase.Armed? && at > 0.0 && lease > 0.0
    requires if s.tasks[k].role.Worker? then s.plan.None? else at == s.now
    ensures var after := Rewrite(q, BeginEdit(snap, at, lease, s.tasks[k].process));
            var found := Lookup(q, snap.id);
            if found.Some? && BeginMatches(found.value, snap) then Becomes(s, P.StepBegin(k, at, lease), after) else after == q
  {
    var t := s.tasks[k];
    var found := Lookup(q, snap.id);
    var after := Rewrite(q, BeginEdit(snap, at, lease, t.process));
    if found.Some? && BeginMatches(found.value, snap) {
      FoundFor(q, s.queue, snap, t.snap);
      BeginRefines(q, s.queue, snap, t.snap, at, lease, t.process);
      var s' := Begun(s, k, at, lease);
      Reaches(s, s', P.StepBegin(k, at, lease), after, s'.queue);
    } else {
      StaleSnapshot(q, BeginEdit(snap, at, lease, t.process), snap.id);
    }
  }

  /** The stored record that passes the exact-claim test is the task's own slot. */
  lemma FoundFor(q: seq<Record>, m: P.Queue, snap: Record, copy: P.Slot)
    requires RepresentsQueue(q, m) && ValidRecord(snap) && Represents(snap, copy) && snap.claim.Some?
    requires Lookup(q, snap.id).Some? && (BeginMatches(Lookup(q, snap.id).value, snap) || ActivateMatches(Lookup(q, snap.id).value, snap))
    ensures snap.id in m && P.Matches(m[snap.id], copy) && m[snap.id].lease.Some?
    ensures Represents(Lookup(q, snap.id).value, m[snap.id])
  {
    var found := Lookup(q, snap.id).value;
    assert found in q;
    TestsAgree(found, m[snap.id], snap, copy);
  }

  function Begun(s: P.State, k: nat, at: real, lease: real): P.State
    requires k in s.tasks && s.tasks[k].id in s.queue && s.queue[s.tasks[k].id].lease.Some?
  {
    var t := s.tasks[k];
    var slot := P.BeginSlot(s.queue[t.id], t.process, at + lease);
    s.(queue := s.queue[t.id := slot], tasks := s.tasks[k := t.(phase := P.Begun, snap := slot)])
  }

  predicate Flags(outcome: Outcome, state: Option<SubmissionState>, flag: SubmissionState) {
    (outcome.Failure? || outcome.Deferred?) && state == Some(flag)
  }

  predicate LetsGo(outcome: Outcome, state: Option<SubmissionState>) {
    (outcome.Release? || outcome.StatusError?) && state.None?
  }

  /** The outcome is what the venue says of the accepted order of the task. */
  predicate ToldBy(c: P.Call, outcome: Outcome, state: Option<SubmissionState>) {
    && state.None?
    && if !c.fate.Done? then outcome.Observed?
       else if c.fate.final.Expired? || c.fate.final.Rejected? then outcome.RetryTerminal? && outcome.filled == c.filled
       else outcome.Success?
  }

  /** Which completion of a task is which step.  Lookups and statuses are those of
      the venue, and a definite refusal means that the call became no order. */
  predicate Completes(s: P.State, k: nat, outcome: Outcome, state: Option<SubmissionState>, step: P.Step)
    requires k in s.tasks
  {
    var t := s.tasks[k];
    match step
    case StepMonitorGiveUp(m, remove) =>
      m == k && P.Acting(s, k, P.Monitor, P.Claimed) && state.None? && (if remove then outcome.Success? else LetsGo(outcome, state))
    case StepWorkerRelease(m) =>
      m == k && (P.Acting(s, k, P.Worker, P.Claimed) || P.Acting(s, k, P.Worker, P.Armed)) && s.plan.None? && LetsGo(outcome, state)
    case StepWorkerResolve(m) =>
      m == k && P.Acting(s, k, P.Worker, P.Claimed) && s.plan.None? && t.snap.lifecycle.AwaitingCancel? &&
      outcome.Success? && state.None?
    case StepWorkerObserve(m) =>
      m == k && P.Acting(s, k, P.Worker, P.Claimed) && s.plan.None? && t.snap.lifecycle.Accepted? && t.snap.orderId.Some? &&
      t.snap.orderId.value < |s.calls| && ToldBy(s.calls[t.snap.orderId.value], outcome, state)
    case StepWorkerFound(m, order) =>
      m == k && P.Acting(s, k, P.Worker, P.Claimed) && s.plan.None? && t.snap.lifecycle.SubmitPending? &&
      P.Found(s, t.id, t.snap.revision, order) && outcome.AcceptedAs? && outcome.order == Some(order) && state.None?
    case StepWorkerRecover(m, order) =>
      m == k && P.Acting(s, k, P.Worker, P.Watching) && s.plan.None? &&
      P.Found(s, t.id, t.snap.revision, order) && outcome.AcceptedAs? && outcome.order == Some(order) && state.None?
    case StepRefuseEarly(m, remove) =>
      m == k && P.Acting(s, k, P.Producer, P.Armed) && (if remove then outcome.Success? && state.None? else Flags(outcome, state, Refused))
    case StepCompleteAccepted(m, order) =>
      m == k && P.Live(s, k) && t.phase.Sent? && P.Found(s, t.id, t.snap.revision, order) &&
      outcome.AcceptedAs? && outcome.order == Some(order) && state.None?
    case StepCompleteRefused(m, remove) =>
      m == k && P.Live(s, k) && t.phase.Sent? &&
      (t.call.Some? ==> t.call.value < |s.calls| && !P.Solid(s.calls[t.call.value])) &&
      (if remove then outcome.Success? && state.None? else Flags(outcome, state, Refused))
    case StepCompleteUnknown(m) =>
      m == k && P.Live(s, k) && t.phase.Sent? && Flags(outcome, state, Unknown)
    case _ => false
  }

  function ByOutcome(outcome: Outcome, state: Option<SubmissionState>): P.Slot -> Option<P.Slot> {
    slot => OutcomeSlot(slot, outcome, state)
  }

  lemma FinishIsStep(s: P.State, s': P.State, k: nat, outcome: Outcome, state: Option<SubmissionState>, step: P.Step)
    requires k in s.tasks && Completes(s, k, outcome, state, step) && s' == P.Finish(s, k, ByOutcome(outcome, state))
    ensures P.NextStep(s, s', step)
  {
    var t := s.tasks[k];
    if step.StepWorkerObserve? && P.Finds(s, t) {
      assert OutcomeSlot(s.queue[t.id], outcome, state) == P.AfterStatus(s.queue[t.id], s.calls[t.snap.orderId.value]);
    }
  }

  /** A completion is its step.  Only a recovery whose copy carries no lease may
      miss its record: `complete_claim` then expects revision 0, finds nothing and
      the task is forgotten. */
  lemma CompleteIsStep(q: seq<Record>, s: P.State, k: nat, snap: Record, outcome: Outcome, state: Option<SubmissionState>,
                       now: real, step: P.Step)
    requires RepresentsQueue(q, s.queue) && Held(s, k, snap) && Admissible(CompleteEdit(snap, outcome, state, now))
    requires Completes(s, k, outcome, state, step) && (snap.claim.Some? || step.StepWorkerRecover?)
    ensures var after := Rewrite(q, CompleteEdit(snap, outcome, state, now));
            Becomes(s, if snap.claim.Some? || snap.revision == 0 then step else P.StepForget(k), after)
  {
    var t := s.tasks[k];
    CompleteRefines(q, s.queue, snap, t.snap, outcome, state, now);
    if snap.claim.Some? || snap.revision == 0 {
      var s' := P.Finish(s, k, ByOutcome(outcome, state));
      FinishIsStep(s, s', k, outcome, state, step);
    } else {
      assert P.NextStep(s, s.(tasks := s.tasks - {k}), P.StepForget(k));
    }
  }

  /** Activation after the cancel of the replaced order was observed. */
  lemma ActivateIsStep(q: seq<Record>, s: P.State, k: nat, snap: Record, now: real)
    requires RepresentsQueue(q, s.queue) && Held(s, k, snap) && snap.claim.Some? && now > 0.0
    requires P.Acting(s, k, P.Monitor, P.Claimed) || (P.Acting(s, k, P.Worker, P.Claimed) && s.plan.None?)
    requires s.tasks[k].snap.standsFor.Some? && s.tasks[k].snap.standsFor.value.order in s.originals
    requires s.originals[s.tasks[k].snap.standsFor.value.order].canceled
    ensures var qty := P.ReplacementQty(s, s.tasks[k]);
            var after := Rewrite(q, ActivateEdit(snap, qty, now));
            var found := Lookup(q, snap.id);
            if found.Some? && ActivateMatches(found.value, snap) && ActivateVerdict(found.value, qty) != NotActivated
            then Becomes(s, P.StepActivate(k), after)
            else after == q
  {
    var t := s.tasks[k];
    var qty := P.ReplacementQty(s, t);
    var found := Lookup(q, snap.id);
    ActivateRefines(q, s.queue, snap, t.snap, qty, now);
    if found.Some? {
      assert found.value in q;
      TestsAgree(found.value, s.queue[t.id], snap, t.snap);
      ActivateActs(found.value, s.queue[t.id], qty, now);
    }
    if found.Some? && ActivateMatches(found.value, snap) && ActivateVerdict(found.value, qty) != NotActivated {
      if qty <= Tolerance(s.queue[t.id].qty) {
        assert P.NextStep(s, s.(queue := s.queue - {t.id}, tasks := s.tasks - {k}), P.StepActivate(k));
      } else {
        var slot := P.ActivateSlot(s.queue[t.id], qty);
        assert P.NextStep(s, s.(queue := s.queue[t.id := slot], asked := s.asked[t.id := qty], activated := s.activated + {t.id},
                                tasks := s.tasks[k := t.(phase := if t.role.Monitor? then P.Armed else P.Claimed, snap := slot)]),
                          P.StepActivate(k));
      }
    } else {
      StaleSnapshot(q, ActivateEdit(snap, qty, now), snap.id);
    }
  }

  // ------------------------------------------------------------------
  // Expiry and consolidation.
  // ------------------------------------------------------------------

  lemma {:induction false} DiscardAll(s: P.State, gone: set<nat>) returns (s': P.State)
    requires forall id :: id in gone ==> id in s.queue && P.Unexposed(s.queue[id])
    ensures LeadsTo(s, s') && s' == s.(queue := s.queue - gone)
    decreases |gone|
  {
    if gone == {} {
      LeadsNowhere(s);
      s' := s;
      assert s.queue - gone == s.queue;
    } else {
      var id :| id in gone;
      var m := DiscardAll(s, gone - {id});
      s' := m.(queue := m.queue - {id});
      assert s'.queue == s.queue - gone;
      LeadsOn(s, m, s', P.StepDiscard(id));
    }
  }

  lemma Gone(q: P.Queue, kept: P.Queue)
    requires kept.Keys <= q.Keys && forall id :: id in kept ==> kept[id] == q[id]
    ensures q - (q.Keys - kept.Keys) == kept
  {
  }

  /** `discard_expired`: a step per removed record. */
  lemma DiscardsAreSteps(q: seq<Record>, s: P.State, cfg: Config, keys: set<ExactKey>, now: real) returns (s': P.State)
    requires RepresentsQueue(q, s.queue)
    ensures LeadsTo(s, s') && RepresentsQueue(Rewrite(q, DiscardEdit(cfg, keys, now)), s'.queue)
  {
    var edit := DiscardEdit(cfg, keys, now);
    DroppingRefines(q, s.queue, edit);
    var kept: P.Queue :| RepresentsQueue(Rewrite(q, edit), kept) && kept.Keys <= s.queue.Keys &&
      (forall id :: id in kept ==> kept[id] == s.queue[id]) && (forall id :: id in s.queue && id !in kept ==> P.Unexposed(s.queue[id]));
    Gone(s.queue, kept);
    s' := DiscardAll(s, s.queue.Keys - kept.Keys);
  }

  /** `consolidate_deferred_streams`. */
  lemma ConsolidationIsStep(q: seq<Record>, s: P.State, keep: set<nat>)
    requires RepresentsQueue(q, s.queue) && Cover(q, keep)
    ensures Becomes(s, P.StepConsolidate(Survivors(Consolidation.Keep(q, keep), s.queue)), Consolidation.Keep(q, keep))
  {
    var after := Consolidation.Keep(q, keep);
    ConsolidationIsCorrect(q, keep, keep);
    EvictionRefines(q, s.queue, after);
    var kept := Survivors(after, s.queue);
    assert P.NextStep(s, s.(queue := kept), P.StepConsolidate(kept));
  }

  // ------------------------------------------------------------------
  // enqueue.
  // ------------------------------------------------------------------

  /** The new record is stored under the next unused ID, by whom the request says. */
  predicate Requested(s: P.State, req: Request, process: nat) {
    && process in s.alive && req.now == s.now
    && (req.producer.Some? ==> req.producer.value.1 == process)
    && (req.lifecycle.AwaitingCancel? && req.replacesOrder.Some? && req.replacesOriginalQty.Some? ==>
          req.replacesOrder.value in s.originals && req.replacesOriginalQty.value == s.originals[req.replacesOrder.value].size)
  }

  function AdmissionStep(s: P.State, req: Request, process: nat, slot: P.Slot, kept: P.Queue): P.Step {
    if req.lifecycle.AwaitingCancel? then P.StepMonitorEnqueue(process, slot, kept)
    else if req.producer.Some? then P.StepProducerEnqueue(process, slot, req.now + req.producer.value.0, kept)
    else P.StepPlainEnqueue(slot, kept)
  }

  /** The slot that `enqueue` stores, before a producer takes it. */
  function PlainSlot(req: Request, id: nat, token: nat): P.Slot {
    View(NewRecord(req.(producer := None), id, token))
  }

  /** The state after a new record was stored. */
  function Stored(s: P.State, req: Request, process: nat, slot: P.Slot, kept: P.Queue): P.State
    requires req.lifecycle.AwaitingCancel? ==> slot.standsFor.Some?
  {
    var mine :=
      if req.producer.None? then slot
      else slot.(lease := Some(P.SlotLease(s.next + 1, req.now + req.producer.value.0)), submission := ProducerClaimed, owner := Some(process));
    var base := s.(queue := kept[s.next := mine], asked := s.asked[s.next := slot.qty]);
    if req.lifecycle.AwaitingCancel? then
      base.(replacing := s.replacing[s.next := slot.standsFor.value.order],
            tasks := s.tasks[s.next + 1 := P.Task(P.Monitor, process, P.Target, s.next, slot, None)], next := s.next + 2)
    else if req.producer.Some? then
      base.(tasks := s.tasks[s.next + 2 := P.Task(P.Producer, process, P.Armed, s.next, mine, None)], next := s.next + 3)
    else base.(next := s.next + 1)
  }

  /** No stored record awaits the cancel of the same order. */
  ghost predicate NoOther(s: P.State, slot: P.Slot) {
    slot.standsFor.Some? ==> forall i {:trigger P.SameReplacement(s.queue, i, slot.standsFor.value)} ::
      !P.SameReplacement(s.queue, i, slot.standsFor.value)
  }

  lemma StoredIsStep(s: P.State, req: Request, process: nat, slot: P.Slot, kept: P.Queue)
    requires Requested(s, req, process) && WellFormed(req) && slot == PlainSlot(req, s.next, s.next + 1)
    requires P.NewSlot(slot) && P.SafeRemoval(s.queue, kept) && slot.lifecycle == req.lifecycle
    requires req.lifecycle.AwaitingCancel? ==>
               P.MonitorIdle(s) && NoOther(s, slot) && slot.originalQty == req.replacesOriginalQty.value
    ensures P.NextStep(s, Stored(s, req, process, slot, kept), AdmissionStep(s, req, process, slot, kept))
  {
    var s' := Stored(s, req, process, slot, kept);
    if req.lifecycle.AwaitingCancel? {
      StoredAwaiting(s, s', req, process, slot, kept);
    } else {
      StoredPending(s, s', req, process, slot, kept);
    }
  }

  lemma StoredAwaiting(s: P.State, s': P.State, req: Request, process: nat, slot: P.Slot, kept: P.Queue)
    requires Requested(s, req, process) && WellFormed(req) && slot == PlainSlot(req, s.next, s.next + 1)
    requires P.NewSlot(slot) && P.SafeRemoval(s.queue, kept) && slot.lifecycle == req.lifecycle && req.lifecycle.AwaitingCancel?
    requires P.MonitorIdle(s) && NoOther(s, slot) && slot.originalQty == req.replacesOriginalQty.value
    requires s' == Stored(s, req, process, slot, kept)
    ensures P.NextStep(s, s', P.StepMonitorEnqueue(process, slot, kept))
  {
  }

  lemma StoredPending(s: P.State, s': P.State, req: Request, process: nat, slot: P.Slot, kept: P.Queue)
    requires Requested(s, req, process) && slot.lifecycle.SubmitPending? && !req.lifecycle.AwaitingCancel?
    requires P.NewSlot(slot) && P.SafeRemoval(s.queue, kept) && s' == Stored(s, req, process, slot, kept)
    ensures req.producer.Some? ==> P.NextStep(s, s', P.StepProducerEnqueue(process, slot, req.now + req.producer.value.0, kept))
    ensures req.producer.None? ==> P.NextStep(s, s', P.StepPlainEnqueue(slot, kept))
  {
  }

  lemma NothingElse(cfg: Config, q: seq<Record>, s: P.State, req: Request)
    requires RepresentsQueue(q, s.queue) && Admit(cfg, q, req, s.next, s.next + 1).1.Added? && req.lifecycle.AwaitingCancel?
    ensures NoOther(s, PlainSlot(req, s.next, s.next + 1))
  {
    ReplacementIsNew(cfg, q, s.queue, req, s.next, s.next + 1);
    assert PlainSlot(req, s.next, s.next + 1).standsFor == KeyOfReplacement(NewRecord(req, s.next, s.next + 1));
  }

  /** `enqueue` and `enqueue_claimed` when they store a new record. */
  lemma AdditionIsStep(cfg: Config, q: seq<Record>, s: P.State, req: Request, process: nat) returns (kept: P.Queue)
    requires RepresentsQueue(q, s.queue) && s.next !in s.queue && Requested(s, req, process)
    requires req.lifecycle.AwaitingCancel? ==> P.MonitorIdle(s)
    requires Admit(cfg, q, req, s.next, s.next + 1).1.Added?
    ensures Becomes(s, AdmissionStep(s, req, process, PlainSlot(req, s.next, s.next + 1), kept),
                    Admit(cfg, q, req, s.next, s.next + 1).0)
  {
    kept := KeptBy(cfg, q, s.queue, req, s.next, s.next + 1);
    if req.lifecycle.AwaitingCancel? {
      NothingElse(cfg, q, s, req);
    }
    AdditionReaches(s, req, process, kept, Admit(cfg, q, req, s.next, s.next + 1).0);
  }

  lemma KeptBy(cfg: Config, q: seq<Record>, m: P.Queue, req: Request, id: nat, token: nat) returns (kept: P.Queue)
    requires RepresentsQueue(q, m) && id !in m && Admit(cfg, q, req, id, token).1.Added?
    ensures WellFormed(req) && P.SafeRemoval(m, kept)
    ensures RepresentsQueue(Admit(cfg, q, req, id, token).0, kept[id := View(NewRecord(req, id, token))])
  {
    AddedRefines(cfg, q, m, req, id, token);
    kept :| P.SafeRemoval(m, kept) &&
      RepresentsQueue(Admit(cfg, q, req, id, token).0, kept[id := View(NewRecord(req, id, token))]);
  }

  lemma AdditionReaches(s: P.State, req: Request, process: nat, kept: P.Queue, after: seq<Record>)
    requires Requested(s, req, process) && WellFormed(req) && P.SafeRemoval(s.queue, kept)
    requires RepresentsQueue(after, kept[s.next := View(NewRecord(req, s.next, s.next + 1))])
    requires req.lifecycle.AwaitingCancel? ==> P.MonitorIdle(s) && NoOther(s, PlainSlot(req, s.next, s.next + 1))
    ensures Becomes(s, AdmissionStep(s, req, process, PlainSlot(req, s.next, s.next + 1), kept), after)
  {
    var slot := PlainSlot(req, s.next, s.next + 1);
    var full := kept[s.next := View(NewRecord(req, s.next, s.next + 1))];
    StoresTheRecord(s, req, process, kept, full);
    Reaches(s, Stored(s, req, process, slot, kept), AdmissionStep(s, req, process, slot, kept), after, full);
  }

  lemma StoresTheRecord(s: P.State, req: Request, process: nat, kept: P.Queue, full: P.Queue)
    requires Requested(s, req, process) && WellFormed(req) && P.SafeRemoval(s.queue, kept)
    requires full == kept[s.next := View(NewRecord(req, s.next, s.next + 1))]
    requires req.lifecycle.AwaitingCancel? ==> P.MonitorIdle(s) && NoOther(s, PlainSlot(req, s.next, s.next + 1))
    ensures var slot := PlainSlot(req, s.next, s.next + 1);
            && (req.lifecycle.AwaitingCancel? ==> slot.standsFor.Some?)
            && P.NextStep(s, Stored(s, req, process, slot, kept), AdmissionStep(s, req, process, slot, kept))
            && Stored(s, req, process, slot, kept).queue == full
  {
    NewRecordActs(req, s.next, s.next + 1);
    StoredIsStep(s, req, process, PlainSlot(req, s.next, s.next + 1), kept);
  }

  /** When they renew an older record instead ... */
  lemma RefreshIsStep(cfg: Config, q: seq<Record>, s: P.State, req: Request) returns (id: nat, kept: P.Queue)
    requires RepresentsQueue(q, s.queue) && Admit(cfg, q, req, s.next, s.next + 1).1.Refreshed?
    ensures Becomes(s, P.StepRefreshPending(id, req.qty, kept), Admit(cfg, q, req, s.next, s.next + 1).0)
  {
    var after := Admit(cfg, q, req, s.next, s.next + 1).0;
    RefreshedAdmissionRefines(cfg, q, s.queue, req, s.next, s.next + 1);
    kept, id :| P.SafeRemoval(s.queue, kept) && id in kept && P.Evictable(kept[id]) &&
      RepresentsQueue(after, kept[id := P.RefreshSlot(kept[id], req.qty)]);
    assert req.qty > 0.0;
    var s' := s.(queue := kept[id := P.RefreshSlot(kept[id], req.qty)], asked := s.asked[id := req.qty]);
    Reaches(s, s', P.StepRefreshPending(id, req.qty, kept), after, s'.queue);
  }

  /** ... or find the stored replacement of the same order. */
  lemma ReuseIsStep(cfg: Config, q: seq<Record>, s: P.State, req: Request, process: nat)
    requires RepresentsQueue(q, s.queue) && process in s.alive && P.MonitorIdle(s)
    requires Admit(cfg, q, req, s.next, s.next + 1).1.Existing?
    ensures Becomes(s, P.StepMonitorReuse(process, Admit(cfg, q, req, s.next, s.next + 1).1.id),
                    Admit(cfg, q, req, s.next, s.next + 1).0)
  {
    var id := Admit(cfg, q, req, s.next, s.next + 1).1.id;
    OtherAdmissionRefines(cfg, q, s.queue, req, s.next, s.next + 1);
    var s' := s.(tasks := s.tasks[s.next := P.Task(P.Monitor, process, P.Target, id, s.queue[id], None)], next := s.next + 1);
    Reaches(s, s', P.StepMonitorReuse(process, id), q, s.queue);
  }
}
