/** The outbox as a concurrent protocol.  Producers, one monitor and one worker
    run as tasks of processes that may die at any point; every locked queue
    operation is one step; the venue answers late, never, or with its response
    lost.  A queued record is reduced to its Slot, the part of it that the
    protocol reads; OutboxRefinement shows that every list operation acts on
    slots as the steps here do. */
module OutboxProtocol {
  import opened Options
  import opened OutboxRecord

  // ------------------------------------------------------------------
  // State.
  // ------------------------------------------------------------------

  datatype SlotLease = SlotLease(token: nat, until: real)

  /** The dedup key of a replacement, the replaced order included. */
  datatype ReplacementKey = ReplacementKey(provider: Option<string>, symbol: string, side: Side, order: nat)

  datatype Slot = Slot(
    revision: nat,
    lifecycle: Lifecycle,
    submission: SubmissionState,
    owner: Option<nat>,
    lease: Option<SlotLease>,
    qty: real,
    delivered: real,
    total: real,
    orderId: Option<nat>,
    standsFor: Option<ReplacementKey>,
    originalQty: real)

  datatype Role = Producer | Monitor | Worker

  /** Where a task stands between two of its locked operations.
      Target: the monitor knows the ID of its replacement record.
      Watching: the worker may only recover venue truth for a live owner.
      Claimed: the task holds a lease.
      Armed: the next thing it may do is `begin_claimed_submit`.
      Begun: begin succeeded and the provider call is next.
      Sent: the provider call was made; only completing the claim is left. */
  datatype Phase = Target | Watching | Claimed | Armed | Begun | Sent

  datatype Task = Task(role: Role, process: nat, phase: Phase, id: nat, snap: Slot, call: Option<nat>)

  datatype Final = Closed | Canceled | Expired | Rejected
  datatype Fate = InFlight | Void | Open | Done(final: Final)

  /** One provider call for one revision of one record, and the venue order it
      became, if it did. */
  datatype Call = Call(id: nat, revision: nat, size: real, filled: real, fate: Fate)

  /** The live order that a replacement stands in for. */
  datatype Original = Original(size: real, filled: real, canceled: bool)

  /** One worker pass: its clock reading, the record IDs it means to claim and the
      one token it claims them under. */
  datatype Plan = Plan(process: nat, start: real, ids: set<nat>, token: nat)

  type Queue = map<nat, Slot>

  datatype State = State(
    now: real,
    queue: Queue,
    tasks: map<nat, Task>,
    calls: seq<Call>,
    alive: set<nat>,
    plan: Option<Plan>,
    asked: map<nat, real>,          // the requested total last stored for each record ID ever used
    replacing: map<nat, nat>,       // record ID -> the order it was enqueued to replace
    originals: map<nat, Original>,
    activated: set<nat>,            // every replacement record that was ever made submittable
    next: nat)                      // every ID, token, task and process below it has been used

  predicate Live(s: State, k: nat) {
    k in s.tasks && s.tasks[k].process in s.alive
  }

  predicate Acting(s: State, k: nat, role: Role, phase: Phase) {
    Live(s, k) && s.tasks[k].role == role && s.tasks[k].phase == phase
  }

  /** The call has a venue order, now or possibly later. */
  predicate Solid(c: Call) {
    !c.fate.Void?
  }

  predicate Delivered(c: Call) {
    c.fate.Open? || c.fate.Done?
  }

  predicate Settled(c: Call) {
    c.fate.Void? || c.fate.Done?
  }

  predicate ForRevision(c: Call, id: nat, revision: nat) {
    c.id == id && c.revision == revision
  }

  /** The venue holds no order of this client ID and never will. */
  ghost predicate Absent(calls: seq<Call>, id: nat, revision: nat) {
    forall i :: 0 <= i < |calls| && ForRevision(calls[i], id, revision) ==> !Solid(calls[i])
  }

  // ------------------------------------------------------------------
  // Slot operations.
  // ------------------------------------------------------------------

  function Token(slot: Slot): Option<nat> {
    if slot.lease.Some? then Some(slot.lease.value.token) else None
  }

  predicate SlotLeased(slot: Slot, now: real) {
    slot.lease.Some? && slot.lease.value.until > now
  }

  /** Certainly not at a venue under the current revision. */
  predicate Unexposed(slot: Slot) {
    slot.lifecycle.SubmitPending? && !slot.submission.ProducerClaimed? && !slot.submission.Unknown?
  }

  /** What every record that admission may evict looks like. */
  predicate Evictable(slot: Slot) {
    Unexposed(slot) && slot.lease.None? && slot.delivered == 0.0 && slot.standsFor.None?
  }

  function ClaimSlot(slot: Slot, token: nat, until: real): Slot {
    slot.(lease := Some(SlotLease(token, until)))
  }

  /** Claim, begin, complete and activate find their record by ID and token; a
      stored token fixes the revision. */
  predicate Matches(slot: Slot, snap: Slot) {
    Token(slot) == Token(snap) && slot.revision == snap.revision
  }

  function BeginSlot(slot: Slot, process: nat, until: real): Slot
    requires slot.lease.Some?
  {
    slot.(owner := Some(process), submission := ProducerClaimed,
          lease := Some(slot.lease.value.(until := Max(slot.lease.value.until, until))))
  }

  function ReleaseSlot(slot: Slot): Slot {
    slot.(lease := None)
  }

  function FlagSlot(slot: Slot, submission: SubmissionState): Slot {
    slot.(lease := None, submission := submission)
  }

  function AcceptSlot(slot: Slot, order: nat): Slot {
    slot.(lease := None, lifecycle := Accepted, submission := Acknowledged, orderId := Some(order))
  }

  function RemainderSlot(slot: Slot, filled: real): Option<Slot> {
    var done := Max(0.0, filled);
    var remaining := Max(0.0, slot.qty - done);
    if remaining <= Tolerance(slot.qty) then None
    else Some(slot.(lease := None, revision := slot.revision + 1, qty := remaining,
                    delivered := slot.delivered + Min(slot.qty, done),
                    lifecycle := SubmitPending, submission := Refused, orderId := None))
  }

  function ActivateSlot(slot: Slot, qty: real): Slot {
    slot.(qty := qty, total := qty, lifecycle := SubmitPending, submission := Refused)
  }

  predicate MayActivate(slot: Slot, qty: real) {
    slot.lifecycle.AwaitingCancel? && 0.0 <= qty <= slot.qty + Tolerance(slot.qty)
  }

  function RefreshSlot(slot: Slot, qty: real): Slot {
    slot.(revision := slot.revision + 1, qty := qty, total := qty, orderId := None)
  }

  // ------------------------------------------------------------------
  // Queue operations.
  // ------------------------------------------------------------------

  /** Admission and consolidation may drop evictable records and nothing else. */
  predicate SafeRemoval(q: Queue, kept: Queue) {
    && kept.Keys <= q.Keys
    && (forall id :: id in kept ==> kept[id] == q[id])
    && (forall id :: id in q && id !in kept ==> Evictable(q[id]))
  }

  function Put(q: Queue, id: nat, slot: Option<Slot>): Queue {
    if slot.Some? then q[id := slot.value] else q - {id}
  }

  /** Does the task find its record? */
  predicate Finds(s: State, t: Task) {
    t.id in s.queue && Matches(s.queue[t.id], t.snap)
  }

  /** A fresh slot as `enqueue` stores it. */
  predicate NewSlot(slot: Slot) {
    && slot.revision == 0 && slot.qty > 0.0 && slot.delivered == 0.0 && slot.total == slot.qty && slot.orderId.None?
    && slot.lease.None? && slot.submission.Unset? && slot.owner.None?
    && (slot.lifecycle.SubmitPending? ==> slot.standsFor.None?)
    && (slot.lifecycle.AwaitingCancel? ==> slot.standsFor.Some? && slot.originalQty > 0.0)
    && !slot.lifecycle.Accepted?
  }

  // ------------------------------------------------------------------
  // Steps of the environment.
  // ------------------------------------------------------------------

  predicate Tick(s: State, s': State) {
    s'.now >= s.now && s' == s.(now := s'.now)
  }

  predicate Spawn(s: State, s': State) {
    s' == s.(alive := s.alive + {s.next}, next := s.next + 1)
  }

  predicate Die(s: State, s': State, process: nat) {
    s' == s.(alive := s.alive - {process},
             plan := if s.plan.Some? && s.plan.value.process == process then None else s.plan)
  }

  /** An accepted call, a call that never arrives, an execution, a terminal status. */
  predicate Venue(s: State, s': State, i: nat, c: Call) {
    && i < |s.calls|
    && var b := s.calls[i];
    && (|| (b.fate.InFlight? && (c == b.(fate := Open) || c == b.(fate := Void)))
        || (b.fate.Open? && b.filled <= c.filled <= b.size && c == b.(filled := c.filled))
        || (b.fate.Open? && c.fate.Done? && c == b.(fate := c.fate)))
    && s' == s.(calls := s.calls[i := c])
  }

  predicate OriginalOpens(s: State, s': State, order: nat, size: real) {
    order !in s.originals && size > 0.0 && s' == s.(originals := s.originals[order := Original(size, 0.0, false)])
  }

  predicate OriginalMoves(s: State, s': State, order: nat, filled: real, canceled: bool) {
    && order in s.originals && !s.originals[order].canceled
    && s.originals[order].filled <= filled <= s.originals[order].size
    && s' == s.(originals := s.originals[order := s.originals[order].(filled := filled, canceled := canceled)])
  }

  // ------------------------------------------------------------------
  // Admission.
  // ------------------------------------------------------------------

  /** `enqueue_claimed`: the producer owns the record before it is visible. */
  predicate ProducerEnqueue(s: State, s': State, process: nat, slot: Slot, until: real, kept: Queue) {
    && process in s.alive && SafeRemoval(s.queue, kept)
    && NewSlot(slot) && slot.lifecycle.SubmitPending?
    && var mine := slot.(lease := Some(SlotLease(s.next + 1, until)), submission := ProducerClaimed, owner := Some(process));
       s' == s.(queue := kept[s.next := mine], asked := s.asked[s.next := slot.qty],
                tasks := s.tasks[s.next + 2 := Task(Producer, process, Armed, s.next, mine, None)], next := s.next + 3)
  }

  predicate PlainEnqueue(s: State, s': State, slot: Slot, kept: Queue) {
    && SafeRemoval(s.queue, kept) && NewSlot(slot) && slot.lifecycle.SubmitPending?
    && s' == s.(queue := kept[s.next := slot], asked := s.asked[s.next := slot.qty], next := s.next + 1)
  }

  /** The symbol/side refresh gives an evictable record a new revision and quantity. */
  predicate RefreshPending(s: State, s': State, id: nat, qty: real, kept: Queue) {
    && SafeRemoval(s.queue, kept) && id in kept && Evictable(kept[id]) && qty > 0.0
    && s' == s.(queue := kept[id := RefreshSlot(kept[id], qty)],
                asked := s.asked[id := qty])
  }

  predicate Consolidate(s: State, s': State, kept: Queue) {
    SafeRemoval(s.queue, kept) && s' == s.(queue := kept)
  }

  predicate Discard(s: State, s': State, id: nat) {
    id in s.queue && Unexposed(s.queue[id]) && s' == s.(queue := s.queue - {id})
  }

  // ------------------------------------------------------------------
  // The monitor.
  // ------------------------------------------------------------------

  /** The one monitor runs its loop sequentially: nothing it started is open
      except provider calls whose completion failed. */
  ghost predicate MonitorIdle(s: State) {
    forall k :: Live(s, k) && s.tasks[k].role.Monitor? ==> s.tasks[k].phase.Sent?
  }

  predicate SameReplacement(q: Queue, id: nat, key: ReplacementKey) {
    id in q && q[id].lifecycle.AwaitingCancel? && q[id].standsFor == Some(key)
  }

  ghost predicate MonitorEnqueue(s: State, s': State, process: nat, slot: Slot, kept: Queue) {
    && process in s.alive && MonitorIdle(s) && SafeRemoval(s.queue, kept)
    && NewSlot(slot) && slot.lifecycle.AwaitingCancel?
    && slot.standsFor.value.order in s.originals
    && slot.originalQty == s.originals[slot.standsFor.value.order].size
    && (forall id :: !SameReplacement(s.queue, id, slot.standsFor.value))
    && s' == s.(queue := kept[s.next := slot], asked := s.asked[s.next := slot.qty],
                replacing := s.replacing[s.next := slot.standsFor.value.order],
                tasks := s.tasks[s.next + 1 := Task(Monitor, process, Target, s.next, slot, None)], next := s.next + 2)
  }

  /** Re-observing the same order returns the stored record instead. */
  ghost predicate MonitorReuse(s: State, s': State, process: nat, id: nat) {
    && process in s.alive && MonitorIdle(s) && id in s.queue && s.queue[id].lifecycle.AwaitingCancel?
    && s' == s.(tasks := s.tasks[s.next := Task(Monitor, process, Target, id, s.queue[id], None)], next := s.next + 1)
  }

  predicate MonitorClaim(s: State, s': State, k: nat, until: real) {
    && Acting(s, k, Monitor, Target)
    && var t := s.tasks[k];
    && t.id in s.queue && !SlotLeased(s.queue[t.id], s.now)
    && var slot := ClaimSlot(s.queue[t.id], s.next, until);
       s' == s.(queue := s.queue[t.id := slot], tasks := s.tasks[k := t.(phase := Claimed, snap := slot)], next := s.next + 1)
  }

  /** Success, status_error and release: the record goes or loses its lease. */
  predicate MonitorGiveUp(s: State, s': State, k: nat, remove: bool) {
    && Acting(s, k, Monitor, Claimed)
    && s' == Finish(s, k, slot => if remove then None else Some(ReleaseSlot(slot)))
  }

  function Finish(s: State, k: nat, f: Slot -> Option<Slot>): State
    requires k in s.tasks
  {
    var t := s.tasks[k];
    s.(queue := if Finds(s, t) then Put(s.queue, t.id, f(s.queue[t.id])) else s.queue, tasks := s.tasks - {k})
  }

  /** The quantity left to replace, from the old order's final fill.  The worker
      reads the original size from the record, the monitor from the order. */
  function ReplacementQty(s: State, t: Task): real
    requires t.snap.standsFor.Some? && t.snap.standsFor.value.order in s.originals
  {
    var original := s.originals[t.snap.standsFor.value.order];
    Max(0.0, (if t.role.Worker? then t.snap.originalQty else original.size) - original.filled)
  }

  /** Activation follows an observed cancel.  The monitor goes on to submit, the
      worker releases the record for a later pass. */
  predicate Activate(s: State, s': State, k: nat) {
    && (Acting(s, k, Monitor, Claimed) || (Acting(s, k, Worker, Claimed) && s.plan.None?))
    && var t := s.tasks[k];
    && t.snap.standsFor.Some? && t.snap.standsFor.value.order in s.originals
    && s.originals[t.snap.standsFor.value.order].canceled
    && Finds(s, t)
    && var qty := ReplacementQty(s, t);
    && MayActivate(s.queue[t.id], qty)
    && if qty <= Tolerance(s.queue[t.id].qty) then
         s' == s.(queue := s.queue - {t.id}, tasks := s.tasks - {k})
       else
         var slot := ActivateSlot(s.queue[t.id], qty);
         s' == s.(queue := s.queue[t.id := slot], asked := s.asked[t.id := qty], activated := s.activated + {t.id},
                  tasks := s.tasks[k := t.(phase := if t.role.Monitor? then Armed else Claimed, snap := slot)])
  }

  // ------------------------------------------------------------------
  // The worker.
  // ------------------------------------------------------------------

  ghost predicate WorkerIdle(s: State, process: nat) {
    && s.plan.None?
    && (forall k :: Live(s, k) && s.tasks[k].role.Worker? ==>
          s.tasks[k].process == process && (s.tasks[k].phase.Sent? || s.tasks[k].phase.Watching?))
  }

  /** The scan lets the worker claim no record whose producer is alive. */
  predicate Plannable(s: State, slot: Slot) {
    slot.submission.ProducerClaimed? ==> slot.owner.Some? && slot.owner.value !in s.alive
  }

  /** One clock reading and one snapshot of the queue. */
  ghost predicate WorkerScan(s: State, s': State, process: nat, start: real, ids: set<nat>) {
    && process in s.alive && WorkerIdle(s, process) && start <= s.now
    && (forall id :: id in ids ==> id in s.queue && Plannable(s, s.queue[id]))
    && s' == s.(plan := Some(Plan(process, start, ids, s.next)), next := s.next + 1)
  }

  /** One record of the claim, which compares leases with the old clock reading; a
      whole claim is several of these in a row, all under the token of the plan. */
  predicate WorkerClaim(s: State, s': State, id: nat, until: real) {
    && s.plan.Some? && id in s.plan.value.ids
    && id in s.queue && !SlotLeased(s.queue[id], s.plan.value.start)
    && var p, slot := s.plan.value, ClaimSlot(s.queue[id], s.plan.value.token, until);
       s' == s.(queue := s.queue[id := slot], plan := Some(p.(ids := p.ids - {id})),
                tasks := s.tasks[s.next := Task(Worker, p.process, Claimed, id, slot, None)], next := s.next + 1)
  }

  predicate WorkerPlanned(s: State, s': State) {
    s' == s.(plan := None)
  }

  /** A snapshot of a record whose lease ran out while its producer lives. */
  predicate WorkerWatch(s: State, s': State, id: nat, process: nat) {
    && process in s.alive && id in s.queue && s.queue[id].submission.ProducerClaimed?
    && s.queue[id].owner.Some? && s.queue[id].owner.value in s.alive && !SlotLeased(s.queue[id], s.now)
    && s' == s.(tasks := s.tasks[s.next := Task(Worker, process, Watching, id, s.queue[id], None)], next := s.next + 1)
  }

  predicate Found(s: State, id: nat, revision: nat, order: nat) {
    order < |s.calls| && ForRevision(s.calls[order], id, revision) && Delivered(s.calls[order])
  }

  predicate WorkerRecover(s: State, s': State, k: nat, order: nat) {
    && Acting(s, k, Worker, Watching) && s.plan.None?
    && Found(s, s.tasks[k].id, s.tasks[k].snap.revision, order)
    && s' == Finish(s, k, slot => Some(AcceptSlot(slot, order)))
  }

  /** Release and status_error of anything the worker claimed. */
  predicate WorkerRelease(s: State, s': State, k: nat) {
    && (Acting(s, k, Worker, Claimed) || Acting(s, k, Worker, Armed)) && s.plan.None?
    && s' == Finish(s, k, slot => Some(ReleaseSlot(slot)))
  }

  /** The old order ended without a cancel: the replacement is not needed. */
  predicate WorkerResolve(s: State, s': State, k: nat) {
    && Acting(s, k, Worker, Claimed) && s.plan.None? && s.tasks[k].snap.lifecycle.AwaitingCancel?
    && s' == Finish(s, k, slot => None)
  }

  /** `advance_claimed_status` on the truthful status of the accepted order. */
  function AfterStatus(slot: Slot, c: Call): Option<Slot> {
    if !c.fate.Done? then Some(ReleaseSlot(slot))
    else if c.fate.final.Expired? || c.fate.final.Rejected? then RemainderSlot(slot, c.filled)
    else None
  }

  predicate WorkerObserve(s: State, s': State, k: nat) {
    && Acting(s, k, Worker, Claimed) && s.plan.None?
    && var t := s.tasks[k];
    && t.snap.lifecycle.Accepted? && t.snap.orderId.Some? && t.snap.orderId.value < |s.calls|
    && var c := s.calls[t.snap.orderId.value];
       s' == Finish(s, k, slot => AfterStatus(slot, c))
  }

  predicate WorkerFound(s: State, s': State, k: nat, order: nat) {
    && Acting(s, k, Worker, Claimed) && s.plan.None? && s.tasks[k].snap.lifecycle.SubmitPending?
    && Found(s, s.tasks[k].id, s.tasks[k].snap.revision, order)
    && s' == Finish(s, k, slot => Some(AcceptSlot(slot, order)))
  }

  /** The worker may submit only what is known not to be at the venue: a
      pre-submit refusal, or a client ID whose absence the venue reported inside
      the reliable horizon. */
  ghost predicate WorkerClear(s: State, s': State, k: nat) {
    && Acting(s, k, Worker, Claimed) && s.plan.None? && s.tasks[k].snap.lifecycle.SubmitPending?
    && (Unexposed(s.tasks[k].snap) || Absent(s.calls, s.tasks[k].id, s.tasks[k].snap.revision))
    && s' == s.(tasks := s.tasks[k := s.tasks[k].(phase := Armed)])
  }

  // ------------------------------------------------------------------
  // Dispatch.
  // ------------------------------------------------------------------

  /** `begin_claimed_submit` next to the provider call.  Only the worker passes
      an old clock reading. */
  predicate Begin(s: State, s': State, k: nat, at: real, lease: real) {
    && Live(s, k) && s.tasks[k].phase.Armed? && lease > 0.0
    && (!s.tasks[k].role.Worker? ==> at == s.now)
    && (s.tasks[k].role.Worker? ==> s.plan.None?)
    && var t := s.tasks[k];
    && Finds(s, t) && s.queue[t.id].lease.Some?
    && var slot := BeginSlot(s.queue[t.id], t.process, at + lease);
       s' == s.(queue := s.queue[t.id := slot], tasks := s.tasks[k := t.(phase := Begun, snap := slot)])
  }

  predicate Send(s: State, s': State, k: nat, size: real) {
    && Live(s, k) && s.tasks[k].phase.Begun? && 0.0 < size <= s.tasks[k].snap.qty
    && var t := s.tasks[k];
       s' == s.(calls := s.calls + [Call(t.id, t.snap.revision, size, 0.0, InFlight)],
                tasks := s.tasks[k := t.(phase := Sent, call := Some(|s.calls|))])
  }

  /** Refused before the venue was contacted, or given up by an exception. */
  predicate Skip(s: State, s': State, k: nat) {
    && Live(s, k) && s.tasks[k].phase.Begun?
    && s' == s.(tasks := s.tasks[k := s.tasks[k].(phase := Sent)])
  }

  /** A producer's refusal before begin. */
  predicate RefuseEarly(s: State, s': State, k: nat, remove: bool) {
    && Acting(s, k, Producer, Armed)
    && s' == Finish(s, k, slot => if remove then None else Some(FlagSlot(slot, Refused)))
  }

  predicate CompleteAccepted(s: State, s': State, k: nat, order: nat) {
    && Live(s, k) && s.tasks[k].phase.Sent?
    && Found(s, s.tasks[k].id, s.tasks[k].snap.revision, order)
    && s' == Finish(s, k, slot => Some(AcceptSlot(slot, order)))
  }

  /** A definite refusal: the call, if one was made, has no venue order. */
  predicate CompleteRefused(s: State, s': State, k: nat, remove: bool) {
    && Live(s, k) && s.tasks[k].phase.Sent?
    && (s.tasks[k].call.Some? ==> s.tasks[k].call.value < |s.calls| && !Solid(s.calls[s.tasks[k].call.value]))
    && s' == Finish(s, k, slot => if remove then None else Some(FlagSlot(slot, Refused)))
  }

  predicate CompleteUnknown(s: State, s': State, k: nat) {
    && Live(s, k) && s.tasks[k].phase.Sent?
    && s' == Finish(s, k, slot => Some(FlagSlot(slot, Unknown)))
  }

  /** A task that found nothing to do, gave up before begin, or died. */
  predicate Forget(s: State, s': State, k: nat) {
    && k in s.tasks && (!Live(s, k) || !(s.tasks[k].phase.Begun? || s.tasks[k].phase.Sent?))
    && s' == s.(tasks := s.tasks - {k})
  }

  // ------------------------------------------------------------------
  // Runs.
  // ------------------------------------------------------------------

  datatype Step =
    | StepTick | StepSpawn | StepDie(process: nat)
    | StepVenue(i: nat, c: Call)
    | StepOriginalOpens(order: nat, size: real) | StepOriginalMoves(order: nat, filled: real, canceled: bool)
    | StepProducerEnqueue(process: nat, slot: Slot, until: real, kept: Queue)
    | StepPlainEnqueue(slot: Slot, kept: Queue)
    | StepRefreshPending(id: nat, qty: real, kept: Queue)
    | StepConsolidate(kept: Queue) | StepDiscard(id: nat)
    | StepMonitorEnqueue(process: nat, slot: Slot, kept: Queue) | StepMonitorReuse(process: nat, id: nat)
    | StepMonitorClaim(k: nat, until: real) | StepMonitorGiveUp(k: nat, remove: bool)
    | StepActivate(k: nat)
    | StepWorkerScan(process: nat, start: real, ids: set<nat>) | StepWorkerClaim(id: nat, until: real) | StepWorkerPlanned
    | StepWorkerWatch(id: nat, process: nat) | StepWorkerRecover(k: nat, order: nat)
    | StepWorkerRelease(k: nat) | StepWorkerResolve(k: nat) | StepWorkerObserve(k: nat)
    | StepWorkerFound(k: nat, order: nat) | StepWorkerClear(k: nat)
    | StepBegin(k: nat, at: real, lease: real) | StepSend(k: nat, size: real) | StepSkip(k: nat)
    | StepRefuseEarly(k: nat, remove: bool) | StepCompleteAccepted(k: nat, order: nat)
    | StepCompleteRefused(k: nat, remove: bool) | StepCompleteUnknown(k: nat)
    | StepForget(k: nat)

  ghost predicate NextStep(s: State, s': State, step: Step) {
    match step
    case StepTick => Tick(s, s')
    case StepSpawn => Spawn(s, s')
    case StepDie(process) => Die(s, s', process)
    case StepVenue(i, c) => Venue(s, s', i, c)
    case StepOriginalOpens(order, size) => OriginalOpens(s, s', order, size)
    case StepOriginalMoves(order, filled, canceled) => OriginalMoves(s, s', order, filled, canceled)
    case StepProducerEnqueue(process, slot, until, kept) => ProducerEnqueue(s, s', process, slot, until, kept)
    case StepPlainEnqueue(slot, kept) => PlainEnqueue(s, s', slot, kept)
    case StepRefreshPending(id, qty, kept) => RefreshPending(s, s', id, qty, kept)
    case StepConsolidate(kept) => Consolidate(s, s', kept)
    case StepDiscard(id) => Discard(s, s', id)
    case StepMonitorEnqueue(process, slot, kept) => MonitorEnqueue(s, s', process, slot, kept)
    case StepMonitorReuse(process, id) => MonitorReuse(s, s', process, id)
    case StepMonitorClaim(k, until) => MonitorClaim(s, s', k, until)
    case StepMonitorGiveUp(k, remove) => MonitorGiveUp(s, s', k, remove)
    case StepActivate(k) => Activate(s, s', k)
    case StepWorkerScan(process, start, ids) => WorkerScan(s, s', process, start, ids)
    case StepWorkerClaim(id, until) => WorkerClaim(s, s', id, until)
    case StepWorkerPlanned => WorkerPlanned(s, s')
    case StepWorkerWatch(id, process) => WorkerWatch(s, s', id, process)
    case StepWorkerRecover(k, order) => WorkerRecover(s, s', k, order)
    case StepWorkerRelease(k) => WorkerRelease(s, s', k)
    case StepWorkerResolve(k) => WorkerResolve(s, s', k)
    case StepWorkerObserve(k) => WorkerObserve(s, s', k)
    case StepWorkerFound(k, order) => WorkerFound(s, s', k, order)
    case StepWorkerClear(k) => WorkerClear(s, s', k)
    case StepBegin(k, at, lease) => Begin(s, s', k, at, lease)
    case StepSend(k, size) => Send(s, s', k, size)
    case StepSkip(k) => Skip(s, s', k)
    case StepRefuseEarly(k, remove) => RefuseEarly(s, s', k, remove)
    case StepCompleteAccepted(k, order) => CompleteAccepted(s, s', k, order)
    case StepCompleteRefused(k, remove) => CompleteRefused(s, s', k, remove)
    case StepCompleteUnknown(k) => CompleteUnknown(s, s', k)
    case StepForget(k) => Forget(s, s', k)
  }

  ghost predicate Next(s: State, s': State) {
    exists step :: NextStep(s, s', step)
  }

  ghost predicate Init(s: State) {
    && s.queue == map[] && s.tasks == map[] && s.calls == [] && s.plan.None?
    && s.asked == map[] && s.replacing == map[] && s.originals == map[] && s.activated == {}
    && (forall p :: p in s.alive ==> p < s.next)
  }

  /** A finite run: any interleaving of any steps from the empty outbox. */
  ghost predicate IsRun(run: seq<State>) {
    && |run| > 0 && Init(run[0])
    && forall i, j :: 0 <= i < |run| && j == i + 1 && j < |run| ==> Next(run[i], run[j])
  }
}
