/** Cancel-then-replace for a whole order: all records that replace it together.
    The queue compares only records that still await their cancel, so an order may
    come to have several replacements; this module says exactly when the order's
    size is kept, and exactly which admission guard keeps it. */
module OutboxOrders {
  import opened Options
  import opened OutboxRecord
  import opened OutboxProtocol
  import opened OutboxInvariant
  import opened OutboxVenue
  import opened OutboxBooks
  import opened OutboxRuns
  import opened OutboxTheorems
  import opened Sums

  // ------------------------------------------------------------------
  // Which replacements have become submittable.
  // ------------------------------------------------------------------

  /** A stored replacement awaits its cancel exactly until it is activated. */
  predicate SlotStage(s: State, id: nat)
    requires id in s.queue
  {
    id in s.replacing ==> (s.queue[id].lifecycle.AwaitingCancel? <==> id !in s.activated)
  }

  predicate TaskStage(s: State, k: nat)
    requires k in s.tasks
  {
    var t := s.tasks[k];
    t.id in s.replacing && !t.snap.lifecycle.AwaitingCancel? ==> t.id in s.activated
  }

  predicate CallStage(s: State, i: nat)
    requires i < |s.calls|
  {
    s.calls[i].id in s.replacing ==> s.calls[i].id in s.activated
  }

  /** What an order left when its cancel was seen. */
  function Left(s: State, order: nat): real
    requires order in s.originals
  {
    s.originals[order].size - s.originals[order].filled
  }

  /** An activated replacement asks for exactly what its canceled order left. */
  predicate AskedStage(s: State, id: nat) {
    && id in s.replacing && id in s.asked && s.replacing[id] in s.originals
    && s.originals[s.replacing[id]].canceled && s.asked[id] == Left(s, s.replacing[id]) > 0.0
  }

  ghost predicate Stages(s: State) {
    && (forall id {:trigger SlotStage(s, id)} :: id in s.queue ==> SlotStage(s, id))
    && (forall k {:trigger TaskStage(s, k)} :: k in s.tasks ==> TaskStage(s, k))
    && (forall i {:trigger CallStage(s, i)} :: 0 <= i < |s.calls| ==> CallStage(s, i))
    && (forall id {:trigger AskedStage(s, id)} :: id in s.activated ==> AskedStage(s, id))
  }

  /** A replacement that is, or may still become, submittable. */
  predicate Standing(s: State, id: nat) {
    id in s.replacing && (id in s.activated || (id in s.queue && s.queue[id].lifecycle.AwaitingCancel?))
  }

  /** No step makes a replacement stand again, or a new one but by admission. */
  ghost predicate Frame(s: State, s': State) {
    && s'.replacing == s.replacing && s.activated <= s'.activated
    && (forall id :: id in s'.activated && id !in s.activated ==> Standing(s, id))
    && (forall id :: id in s'.queue && id in s.replacing ==> id in s.queue)
  }

  // ------------------------------------------------------------------
  // Steps that activate nothing.
  // ------------------------------------------------------------------

  predicate SlotMoves(s: State, s': State, id: nat)
    requires id in s'.queue
  {
    id !in s.replacing || (id in s.queue && (s'.queue[id].lifecycle.AwaitingCancel? <==> s.queue[id].lifecycle.AwaitingCancel?))
  }

  predicate TaskMoves(s: State, s': State, k: nat)
    requires k in s'.tasks
  {
    var t := s'.tasks[k];
    || t.snap.lifecycle.AwaitingCancel? || t.id !in s.replacing || t.id in s.activated
    || (k in s.tasks && s.tasks[k].id == t.id && !s.tasks[k].snap.lifecycle.AwaitingCancel?)
    || (t.id in s.queue && !s.queue[t.id].lifecycle.AwaitingCancel?)
  }

  predicate CallMoves(s: State, s': State, i: nat)
    requires i < |s'.calls|
  {
    || s'.calls[i].id !in s.replacing || s'.calls[i].id in s.activated
    || (i < |s.calls| && s'.calls[i].id == s.calls[i].id)
  }

  ghost predicate Unmoved(s: State, s': State) {
    && s'.replacing == s.replacing && s'.activated == s.activated
    && (forall o :: o in s.originals && s.originals[o].canceled ==> o in s'.originals && s'.originals[o] == s.originals[o])
    && (forall id :: id in s.activated && id in s.asked ==> id in s'.asked && s'.asked[id] == s.asked[id])
    && (forall id {:trigger SlotMoves(s, s', id)} :: id in s'.queue ==> SlotMoves(s, s', id))
    && (forall k {:trigger TaskMoves(s, s', k)} :: k in s'.tasks ==> TaskMoves(s, s', k))
    && (forall i {:trigger CallMoves(s, s', i)} :: 0 <= i < |s'.calls| ==> CallMoves(s, s', i))
  }

  lemma UnmovedStages(s: State, s': State)
    requires Stages(s) && Unmoved(s, s')
    ensures Stages(s') && Frame(s, s')
  {
    forall id | id in s'.queue ensures SlotStage(s', id) {
      assert SlotMoves(s, s', id);
      assert id in s.queue ==> SlotStage(s, id);
    }
    forall k | k in s'.tasks ensures TaskStage(s', k) {
      assert TaskMoves(s, s', k);
      assert k in s.tasks ==> TaskStage(s, k);
      assert s'.tasks[k].id in s.queue ==> SlotStage(s, s'.tasks[k].id);
    }
    forall i | 0 <= i < |s'.calls| ensures CallStage(s', i) {
      assert CallMoves(s, s', i);
      assert i < |s.calls| ==> CallStage(s, i);
    }
    forall id | id in s'.activated ensures AskedStage(s', id) {
      assert AskedStage(s, id);
    }
    forall id | id in s'.queue && id in s.replacing ensures id in s.queue {
      assert SlotMoves(s, s', id);
    }
  }

  /** Queue, tasks and calls as they were, or fewer of them. */
  predicate Plain(step: Step) {
    || TakesAway(step) || OfTheVenue(step) || step.StepWorkerScan? || step.StepSkip? || step.StepWorkerClear?
  }

  /** Fewer records and tasks, and calls of the same records. */
  ghost predicate Fewer(s: State, s': State) {
    && s'.replacing == s.replacing && s'.activated == s.activated && s'.asked == s.asked
    && (forall o :: o in s.originals && s.originals[o].canceled ==> o in s'.originals && s'.originals[o] == s.originals[o])
    && (forall id :: id in s'.queue ==> id in s.queue && s'.queue[id] == s.queue[id])
    && (forall k :: k in s'.tasks ==> k in s.tasks && s'.tasks[k].id == s.tasks[k].id && s'.tasks[k].snap == s.tasks[k].snap)
    && |s'.calls| == |s.calls| && (forall i :: 0 <= i < |s.calls| ==> s'.calls[i].id == s.calls[i].id)
  }

  lemma FewerStages(s: State, s': State)
    requires Stages(s) && Fewer(s, s')
    ensures Stages(s') && Frame(s, s')
  {
    forall k | k in s'.tasks ensures TaskMoves(s, s', k) {
      assert TaskStage(s, k);
    }
    UnmovedStages(s, s');
  }

  lemma TakingIsFewer(s: State, s': State, step: Step)
    requires NextStep(s, s', step) && TakesAway(step)
    ensures Fewer(s, s')
  {
  }

  lemma PlainIsFewer(s: State, s': State, step: Step)
    requires NextStep(s, s', step) && Plain(step) && !TakesAway(step)
    ensures Fewer(s, s')
  {
  }

  lemma PlainStages(s: State, s': State, step: Step)
    requires Stages(s) && NextStep(s, s', step) && Plain(step)
    ensures Stages(s') && Frame(s, s')
  {
    if TakesAway(step) {
      TakingIsFewer(s, s', step);
    } else {
      PlainIsFewer(s, s', step);
    }
    FewerStages(s, s');
  }

  /** Records under fresh IDs replace nothing, and evictable ones neither. */
  lemma NotReplacing(s: State, s': State, step: Step)
    requires Inv(s) && NextStep(s, s', step) && (step.StepProducerEnqueue? || step.StepPlainEnqueue? || step.StepRefreshPending?)
    ensures s.next !in s.replacing && (step.StepRefreshPending? ==> step.id in s.queue && step.id !in s.replacing)
  {
    if step.StepRefreshPending? {
      assert SlotBooks(s, step.id);
    }
  }

  lemma AdmittingStages(s: State, s': State, step: Step)
    requires Stages(s) && NextStep(s, s', step)
    requires step.StepProducerEnqueue? || step.StepPlainEnqueue? || step.StepRefreshPending?
    requires s.next !in s.replacing && (step.StepRefreshPending? ==> step.id !in s.replacing)
    ensures Stages(s') && Frame(s, s')
  {
    forall id | id in s.activated ensures id in s.replacing {
      assert AskedStage(s, id);
    }
    forall k | k in s'.tasks ensures TaskMoves(s, s', k) {
      assert k in s.tasks ==> TaskStage(s, k);
    }
    UnmovedStages(s, s');
  }

  /** A new replacement has not been activated. */
  lemma ReplacementStages(s: State, s': State, process: nat, slot: Slot, kept: Queue)
    requires Inv(s) && Stages(s) && MonitorEnqueue(s, s', process, slot, kept)
    ensures Stages(s')
  {
    assert s.next !in s.replacing;
    forall id | id in s'.activated ensures AskedStage(s', id) {
      assert AskedStage(s, id);
      assert AskedOk(s, id);
    }
    forall id | id in s'.queue ensures SlotStage(s', id) {
      if id != s.next {
        assert SlotStage(s, id);
      } else {
        assert id in s.activated ==> AskedStage(s, id);
      }
    }
    forall k | k in s'.tasks ensures TaskStage(s', k) {
      if k in s.tasks && s'.tasks[k] == s.tasks[k] {
        assert TaskStage(s, k) && TaskOk(s, k);
      }
    }
    forall i | 0 <= i < |s'.calls| ensures CallStage(s', i) {
      assert CallStage(s, i) && CallOk(s, i);
    }
  }

  /** Leases and copies change no stage: every task of another form holds a copy of
      a stored record. */
  ghost predicate Copies(s: State, s': State) {
    && s'.replacing == s.replacing && s'.activated == s.activated && s'.asked == s.asked && s'.originals == s.originals
    && s'.calls == s.calls
    && (forall id :: id in s'.queue ==>
          id in s.queue && (s'.queue[id].lifecycle.AwaitingCancel? <==> s.queue[id].lifecycle.AwaitingCancel?))
    && (forall k :: k in s'.tasks ==>
          || (k in s.tasks && s'.tasks[k] == s.tasks[k])
          || (s'.tasks[k].id in s'.queue && s'.tasks[k].snap == s'.queue[s'.tasks[k].id]))
  }

  lemma CopiesStages(s: State, s': State)
    requires Stages(s) && Copies(s, s')
    ensures Stages(s') && Frame(s, s')
  {
    forall k | k in s'.tasks ensures TaskMoves(s, s', k) {
      assert k in s.tasks ==> TaskStage(s, k);
    }
    UnmovedStages(s, s');
  }

  lemma LookingCopies(s: State, s': State, step: Step)
    requires NextStep(s, s', step) && (step.StepMonitorReuse? || step.StepWorkerWatch? || step.StepBegin?)
    ensures Copies(s, s')
  {
  }

  lemma LeasingStages(s: State, s': State, step: Step)
    requires Stages(s) && NextStep(s, s', step)
    requires step.StepMonitorReuse? || step.StepWorkerWatch? || step.StepMonitorClaim? || step.StepWorkerClaim? || step.StepBegin?
    ensures Stages(s') && Frame(s, s')
  {
    if step.StepMonitorClaim? || step.StepWorkerClaim? {
      assert Copies(s, s');
    } else {
      LookingCopies(s, s', step);
    }
    CopiesStages(s, s');
  }

  lemma SendStages(s: State, s': State, k0: nat, size: real)
    requires Inv(s) && Stages(s) && Send(s, s', k0, size)
    ensures Stages(s') && Frame(s, s')
  {
    assert TaskOk(s, k0) && TaskStage(s, k0);
    forall k | k in s'.tasks ensures TaskMoves(s, s', k) {
      assert TaskStage(s, k);
    }
    forall i | 0 <= i < |s'.calls| ensures CallMoves(s, s', i) {
    }
    UnmovedStages(s, s');
  }

  /** A finishing task leaves its record waiting if and only if it was. */
  lemma FinishStages(s: State, s': State, k0: nat, f: Slot -> Option<Slot>)
    requires Stages(s) && k0 in s.tasks && s' == Finish(s, k0, f)
    requires Finds(s, s.tasks[k0]) && f(s.queue[s.tasks[k0].id]).Some? && s.tasks[k0].id in s.replacing ==>
               (f(s.queue[s.tasks[k0].id]).value.lifecycle.AwaitingCancel? <==> s.queue[s.tasks[k0].id].lifecycle.AwaitingCancel?)
    ensures Stages(s') && Frame(s, s')
  {
    forall k | k in s'.tasks ensures TaskMoves(s, s', k) {
      assert TaskStage(s, k);
    }
    UnmovedStages(s, s');
  }

  lemma ReleasingStages(s: State, s': State, k: nat, remove: bool)
    requires Stages(s) && (MonitorGiveUp(s, s', k, remove) || (WorkerRelease(s, s', k) && !remove))
    ensures Stages(s') && Frame(s, s')
  {
    if MonitorGiveUp(s, s', k, remove) {
      FinishStages(s, s', k, slot => if remove then None else Some(ReleaseSlot(slot)));
    } else {
      FinishStages(s, s', k, slot => Some(ReleaseSlot(slot)));
    }
  }

  lemma FlaggingStages(s: State, s': State, k: nat, remove: bool)
    requires Stages(s)
    requires RefuseEarly(s, s', k, remove) || CompleteRefused(s, s', k, remove) || (CompleteUnknown(s, s', k) && !remove)
    ensures Stages(s') && Frame(s, s')
  {
    if CompleteUnknown(s, s', k) && !remove {
      FinishStages(s, s', k, slot => Some(FlagSlot(slot, Unknown)));
    } else {
      FinishStages(s, s', k, slot => if remove then None else Some(FlagSlot(slot, Refused)));
    }
  }

  /** An order found at the venue belongs to an activated record. */
  lemma AcceptingStages(s: State, s': State, k: nat, order: nat)
    requires Stages(s) && k in s.tasks && Found(s, s.tasks[k].id, s.tasks[k].snap.revision, order)
    requires s' == Finish(s, k, slot => Some(AcceptSlot(slot, order)))
    ensures Stages(s') && Frame(s, s')
  {
    assert CallStage(s, order);
    assert s.tasks[k].id in s.queue ==> SlotStage(s, s.tasks[k].id);
    FinishStages(s, s', k, slot => Some(AcceptSlot(slot, order)));
  }

  lemma ObserveStages(s: State, s': State, k: nat)
    requires Stages(s) && WorkerObserve(s, s', k)
    ensures Stages(s') && Frame(s, s')
  {
    var c := s.calls[s.tasks[k].snap.orderId.value];
    assert TaskStage(s, k);
    assert s.tasks[k].id in s.queue ==> SlotStage(s, s.tasks[k].id);
    FinishStages(s, s', k, slot => AfterStatus(slot, c));
  }

  // ------------------------------------------------------------------
  // Activation.
  // ------------------------------------------------------------------

  /** The quantity activated is what the canceled order left. */
  lemma ActivatesLeft(s: State, k: nat)
    requires Inv(s) && k in s.tasks && s.tasks[k].snap.standsFor.Some? && s.tasks[k].snap.standsFor.value.order in s.originals
    ensures s.tasks[k].id in s.replacing && s.replacing[s.tasks[k].id] == s.tasks[k].snap.standsFor.value.order
    ensures ReplacementQty(s, s.tasks[k]) == Left(s, s.replacing[s.tasks[k].id])
  {
    assert TaskBooks(s, k) && OriginalOk(s, s.tasks[k].snap.standsFor.value.order);
  }

  lemma ActivateStages(s: State, s': State, k0: nat)
    requires Inv(s) && Stages(s) && Activate(s, s', k0)
    ensures Stages(s') && Frame(s, s')
  {
    var t := s.tasks[k0];
    ActivatesLeft(s, k0);
    if s'.activated == s.activated && s'.queue == s.queue - {t.id} {
      forall k | k in s'.tasks ensures TaskMoves(s, s', k) {
        assert TaskStage(s, k);
      }
      UnmovedStages(s, s');
    } else {
      ActivatedStages(s, s', k0);
    }
  }

  lemma ActivatedStages(s: State, s': State, k0: nat)
    requires Inv(s) && Stages(s) && Activate(s, s', k0) && s'.queue != s.queue - {s.tasks[k0].id}
    ensures Stages(s') && Frame(s, s')
  {
    var t := s.tasks[k0];
    ActivatesLeft(s, k0);
    assert SlotStage(s, t.id) && SlotOk(s, t.id);
    forall id | id in s'.activated ensures AskedStage(s', id) {
      assert id != t.id ==> AskedStage(s, id);
    }
    forall id | id in s'.queue ensures SlotStage(s', id) {
      assert SlotStage(s, id);
    }
    forall k | k in s'.tasks ensures TaskStage(s', k) {
      assert TaskStage(s, k);
    }
    forall i | 0 <= i < |s'.calls| ensures CallStage(s', i) {
      assert CallStage(s, i);
    }
  }

  // ------------------------------------------------------------------
  // Every run.
  // ------------------------------------------------------------------

  lemma NextStages(s: State, s': State, step: Step)
    requires Inv(s) && Stages(s) && NextStep(s, s', step)
    ensures Stages(s') && (!step.StepMonitorEnqueue? ==> Frame(s, s'))
  {
    if Plain(step) {
      PlainStages(s, s', step);
    } else if step.StepProducerEnqueue? || step.StepPlainEnqueue? || step.StepRefreshPending? {
      NotReplacing(s, s', step);
      AdmittingStages(s, s', step);
    } else if step.StepMonitorEnqueue? {
      ReplacementStages(s, s', step.process, step.slot, step.kept);
    } else if step.StepMonitorReuse? || step.StepWorkerWatch? || step.StepMonitorClaim? || step.StepWorkerClaim? || step.StepBegin? {
      LeasingStages(s, s', step);
    } else if step.StepSend? {
      SendStages(s, s', step.k, step.size);
    } else if step.StepActivate? {
      ActivateStages(s, s', step.k);
    } else {
      FinishingStages(s, s', step);
    }
  }

  lemma FinishingStages(s: State, s': State, step: Step)
    requires Inv(s) && Stages(s) && NextStep(s, s', step) && !Plain(step)
    requires !step.StepProducerEnqueue? && !step.StepPlainEnqueue? && !step.StepRefreshPending? && !step.StepMonitorEnqueue?
    requires !step.StepMonitorReuse? && !step.StepWorkerWatch? && !step.StepMonitorClaim? && !step.StepWorkerClaim?
    requires !step.StepBegin? && !step.StepSend? && !step.StepActivate?
    ensures Stages(s') && Frame(s, s')
  {
    match step {
      case StepMonitorGiveUp(k, remove) => ReleasingStages(s, s', k, remove);
      case StepWorkerRelease(k) => ReleasingStages(s, s', k, false);
      case StepWorkerObserve(k) => ObserveStages(s, s', k);
      case StepWorkerFound(k, order) => AcceptingStages(s, s', k, order);
      case StepWorkerRecover(k, order) => AcceptingStages(s, s', k, order);
      case StepCompleteAccepted(k, order) => AcceptingStages(s, s', k, order);
      case StepRefuseEarly(k, remove) => FlaggingStages(s, s', k, remove);
      case StepCompleteRefused(k, remove) => FlaggingStages(s, s', k, remove);
      case StepCompleteUnknown(k) => FlaggingStages(s, s', k, false);
      case _ =>
    }
  }

  lemma {:induction false} RunStages(run: seq<State>, n: nat)
    requires IsRun(run) && n < |run|
    ensures Stages(run[n])
  {
    if n > 0 {
      RunStages(run, n - 1);
      RunInv(run, n - 1);
      assert Next(run[n - 1], run[n]);
      var step :| NextStep(run[n - 1], run[n], step);
      NextStages(run[n - 1], run[n], step);
    }
  }

  lemma ReachableStages(s: State)
    requires Reachable(s)
    ensures Inv(s) && Stages(s)
  {
    ReachableInv(s);
    var run :| IsRun(run) && run[|run| - 1] == s;
    RunStages(run, |run| - 1);
  }

  // ------------------------------------------------------------------
  // The order as a whole.
  // ------------------------------------------------------------------

  /** The replacements of an order that became submittable. */
  function ActivatedFor(s: State, order: nat): set<nat> {
    set id | id in s.activated && id in s.replacing && s.replacing[id] == order
  }

  /** What is asked for over a set of records. */
  ghost function AskedOver(asked: map<nat, real>, ids: set<nat>): real
    requires ids <= asked.Keys
  {
    if ids == {} then 0.0
    else
      var id :| id in ids;
      asked[id] + AskedOver(asked, ids - {id})
  }

  lemma {:induction false} AskedEqually(asked: map<nat, real>, ids: set<nat>, each: real)
    requires ids <= asked.Keys && forall id :: id in ids ==> asked[id] == each
    ensures AskedOver(asked, ids) == (|ids| as real) * each
    decreases |ids|
  {
    if ids != {} {
      var id :| id in ids && AskedOver(asked, ids) == asked[id] + AskedOver(asked, ids - {id});
      AskedEqually(asked, ids - {id}, each);
      OneShare(|ids|, each);
    }
  }

  lemma OneShare(n: nat, each: real)
    requires n > 0
    ensures (n as real) * each == each + ((n - 1) as real) * each
  {
  }

  /** The old fills and everything asked for in the order's name fit into it. */
  ghost predicate OrderKept(s: State, order: nat)
    requires order in s.originals && ActivatedFor(s, order) <= s.asked.Keys
  {
    s.originals[order].filled + AskedOver(s.asked, ActivatedFor(s, order)) <= s.originals[order].size
  }

  lemma ShareGrows(n: nat, each: real)
    requires n >= 2 && each > 0.0
    ensures (n as real) * each > each
  {
    OneShare(n, each);
    var m := (n - 1) as real;
    assert m * each > 0.0;
  }

  lemma AllAsked(s: State, order: nat)
    requires Inv(s) && Stages(s)
    ensures ActivatedFor(s, order) <= s.asked.Keys
    ensures order in s.originals ==> forall id :: id in ActivatedFor(s, order) ==> s.asked[id] == Left(s, order) > 0.0
  {
    forall id | id in ActivatedFor(s, order) ensures id in s.asked && order in s.originals && s.asked[id] == Left(s, order) > 0.0 {
      assert AskedStage(s, id);
    }
  }

  /** Exactly when an order is kept: at most one of its replacements was ever
      activated, because each one asks for everything the order left. */
  lemma OrderKeptExactly(s: State, order: nat)
    requires Reachable(s) && order in s.originals
    ensures ActivatedFor(s, order) <= s.asked.Keys
    ensures OrderKept(s, order) <==> |ActivatedFor(s, order)| <= 1
  {
    ReachableStages(s);
    AllAsked(s, order);
    assert OriginalOk(s, order);
    var ids := ActivatedFor(s, order);
    AskedEqually(s.asked, ids, Left(s, order));
    if |ids| > 0 {
      var id :| id in ids;
    }
    Shares(s.originals[order].filled, s.originals[order].size, |ids|, AskedOver(s.asked, ids), Left(s, order));
  }

  /** Shares of everything that is left fit in exactly when there is at most one. */
  lemma Shares(filled: real, size: real, n: nat, total: real, each: real)
    requires filled <= size && each == size - filled && (n > 0 ==> each > 0.0) && total == (n as real) * each
    ensures filled + total <= size <==> n <= 1
  {
    if n >= 2 {
      ShareGrows(n, each);
    } else if n == 1 {
      OneShare(n, each);
    }
  }

  function FilledFor(replacing: map<nat, nat>, order: nat): Call -> real {
    (c: Call) => if c.id in replacing && replacing[c.id] == order && Delivered(c) then c.filled else 0.0
  }

  lemma {:induction false} SingletonOnly(ids: set<nat>, id: nat, jd: nat)
    requires |ids| <= 1 && id in ids && jd in ids
    ensures id == jd
  {
    assert jd in ids - {id} || id == jd;
    assert |ids - {id}| == |ids| - 1;
  }

  /** And then the old fills and the fills of all its replacements, over all
      revisions, never exceed the original size. */
  lemma OrderConserves(s: State, order: nat)
    requires Reachable(s) && order in s.originals && |ActivatedFor(s, order)| <= 1
    ensures s.originals[order].filled + Sum(s.calls, FilledFor(s.replacing, order)) <= s.originals[order].size
  {
    ReachableStages(s);
    AllAsked(s, order);
    assert OriginalOk(s, order);
    if ActivatedFor(s, order) == {} {
      forall i | 0 <= i < |s.calls| ensures FilledFor(s.replacing, order)(s.calls[i]) == 0.0 {
        assert CallStage(s, i);
        assert s.calls[i].id !in ActivatedFor(s, order);
      }
      SumZero(s.calls, FilledFor(s.replacing, order));
    } else {
      var id :| id in ActivatedFor(s, order);
      forall i | 0 <= i < |s.calls| ensures FilledFor(s.replacing, order)(s.calls[i]) <= Filled(id)(s.calls[i]) {
        OnlyOneFills(s, order, id, i);
      }
      SumUpTo(s.calls, FilledFor(s.replacing, order), Filled(id));
      FillsWithinAsked(s, id);
    }
  }

  lemma OnlyOneFills(s: State, order: nat, id: nat, i: nat)
    requires Inv(s) && Stages(s) && |ActivatedFor(s, order)| <= 1 && id in ActivatedFor(s, order) && i < |s.calls|
    ensures FilledFor(s.replacing, order)(s.calls[i]) <= Filled(id)(s.calls[i])
  {
    var c := s.calls[i];
    assert CallStage(s, i) && CallOk(s, i);
    if c.id in s.replacing && s.replacing[c.id] == order {
      SingletonOnly(ActivatedFor(s, order), id, c.id);
    }
  }

  // ------------------------------------------------------------------
  // The admission guard.
  // ------------------------------------------------------------------

  predicate AwaitsFor(slot: Slot, order: nat) {
    slot.lifecycle.AwaitingCancel? && slot.standsFor.Some? && slot.standsFor.value.order == order
  }

  /** No stored record awaits the same order under another provider, symbol or
      side: these belong to the order. */
  ghost predicate OneKey(s: State, key: ReplacementKey) {
    forall id :: id in s.queue && AwaitsFor(s.queue[id], key.order) ==> s.queue[id].standsFor.value == key
  }

  /** The guard: nothing was activated for the order before. */
  ghost predicate Guard(s: State, step: Step) {
    step.StepMonitorEnqueue? && step.slot.standsFor.Some? ==>
      OneKey(s, step.slot.standsFor.value) && ActivatedFor(s, step.slot.standsFor.value.order) == {}
  }

  ghost predicate GuardedNext(s: State, s': State) {
    exists step :: NextStep(s, s', step) && Guard(s, step)
  }

  ghost predicate IsGuardedRun(run: seq<State>) {
    |run| > 0 && forall i, j {:trigger GuardedNext(run[i], run[j])} ::
      0 <= i < |run| && j == i + 1 && j < |run| ==> GuardedNext(run[i], run[j])
  }

  predicate OnlyStanding(s: State, id: nat, jd: nat) {
    Standing(s, id) && Standing(s, jd) && s.replacing[id] == s.replacing[jd] ==> id == jd
  }

  ghost predicate OneStanding(s: State) {
    forall id, jd {:trigger OnlyStanding(s, id, jd)} :: OnlyStanding(s, id, jd)
  }

  /** Only an admission makes a new replacement stand. */
  lemma StandingBefore(s: State, s': State, id: nat)
    requires Stages(s) && Stages(s') && Frame(s, s') && Standing(s', id)
    ensures Standing(s, id)
  {
    if id !in s'.activated {
      assert SlotStage(s, id);
    }
  }

  /** The guard admits a replacement only where none stands. */
  lemma AdmittedAlone(s: State, s': State, step: Step, id: nat)
    requires Inv(s) && Stages(s) && NextStep(s, s', step) && step.StepMonitorEnqueue? && Guard(s, step)
    requires Standing(s', id) && id != s.next
    ensures Standing(s, id) && s'.replacing[id] == s.replacing[id] && s.replacing[id] != step.slot.standsFor.value.order
  {
    var key := step.slot.standsFor.value;
    assert id in s.replacing && Standing(s, id);
    assert id in s.activated && s.replacing[id] == key.order ==> id in ActivatedFor(s, key.order);
    assert id in s.queue ==> SlotBooks(s, id);
    assert !SameReplacement(s.queue, id, key);
  }

  lemma StandingNext(s: State, s': State, step: Step)
    requires Inv(s) && Stages(s) && OneStanding(s) && NextStep(s, s', step) && Guard(s, step)
    ensures OneStanding(s')
  {
    NextStages(s, s', step);
    forall id, jd ensures OnlyStanding(s', id, jd) {
      if Standing(s', id) && Standing(s', jd) && s'.replacing[id] == s'.replacing[jd] && id != jd {
        assert OnlyStanding(s, id, jd);
        if !step.StepMonitorEnqueue? {
          StandingBefore(s, s', id);
          StandingBefore(s, s', jd);
        } else {
          if id != s.next {
            AdmittedAlone(s, s', step, id);
          }
          if jd != s.next {
            AdmittedAlone(s, s', step, jd);
          }
        }
      }
    }
  }

  /** A guarded run keeps at most one replacement per order standing. */
  lemma {:induction false} GuardedStanding(run: seq<State>, n: nat)
    requires IsGuardedRun(run) && n < |run| && Reachable(run[0]) && OneStanding(run[0])
    ensures Reachable(run[n]) && OneStanding(run[n])
  {
    if n > 0 {
      GuardedStanding(run, n - 1);
      assert GuardedNext(run[n - 1], run[n]);
      var step :| NextStep(run[n - 1], run[n], step) && Guard(run[n - 1], step);
      assert Next(run[n - 1], run[n]);
      ReachableNext(run[n - 1], run[n]);
      ReachableStages(run[n - 1]);
      ReachableStages(run[n]);
      StandingNext(run[n - 1], run[n], step);
    }
  }

  lemma {:induction false} AtMostOne(ids: set<nat>)
    requires forall id, jd :: id in ids && jd in ids ==> id == jd
    ensures |ids| <= 1
  {
    if ids != {} {
      var id :| id in ids;
      assert ids == {id};
    }
  }

  lemma StandingKept(s: State, order: nat)
    requires Reachable(s) && OneStanding(s)
    ensures |ActivatedFor(s, order)| <= 1
  {
    forall id, jd | id in ActivatedFor(s, order) && jd in ActivatedFor(s, order) ensures id == jd {
      assert OnlyStanding(s, id, jd);
    }
    AtMostOne(ActivatedFor(s, order));
  }

  /** Under the guard every order is kept, in every state of every run. */
  lemma GuardedRunKeepsOrders(run: seq<State>, n: nat, order: nat)
    requires IsGuardedRun(run) && n < |run| && Init(run[0]) && order in run[n].originals
    ensures ActivatedFor(run[n], order) <= run[n].asked.Keys && OrderKept(run[n], order)
    ensures run[n].originals[order].filled + Sum(run[n].calls, FilledFor(run[n].replacing, order)) <= run[n].originals[order].size
  {
    assert IsRun([run[0]]) && [run[0]][|[run[0]]| - 1] == run[0];
    GuardedStanding(run, n);
    StandingKept(run[n], order);
    OrderKeptExactly(run[n], order);
    OrderConserves(run[n], order);
  }

  // ------------------------------------------------------------------
  // The guard is exact.
  // ------------------------------------------------------------------

  ghost predicate KeptFrom(s: State, order: nat) {
    forall run: seq<State>, n: nat :: IsGuardedRun(run) && run[0] == s && n < |run| && order in run[n].originals ==> KeptAt(run[n], order)
  }

  ghost predicate KeptAt(s: State, order: nat)
    requires order in s.originals
  {
    ActivatedFor(s, order) <= s.asked.Keys && OrderKept(s, order)
  }

  /** The stored quantity lets the replacement be activated: the order still left
      more than the tolerance, and no more than the listing showed. */
  predicate WouldActivate(s: State, slot: Slot)
    requires slot.standsFor.Some? && slot.standsFor.value.order in s.originals
  {
    Tolerance(slot.qty) < Left(s, slot.standsFor.value.order) <= slot.qty + Tolerance(slot.qty)
  }

  /** Exactly which admissions are safe: a replacement that would be activated
      keeps its order in every guarded continuation if and only if nothing was
      activated for the order before. */
  lemma GuardIsExact(s: State, s': State, process: nat, slot: Slot, kept: Queue)
    requires Reachable(s) && OneStanding(s) && MonitorEnqueue(s, s', process, slot, kept)
    requires OneKey(s, slot.standsFor.value) && WouldActivate(s, slot)
    ensures KeptFrom(s', slot.standsFor.value.order) <==> ActivatedFor(s, slot.standsFor.value.order) == {}
  {
    var order := slot.standsFor.value.order;
    var step := StepMonitorEnqueue(process, slot, kept);
    assert NextStep(s, s', step) && Next(s, s');
    ReachableNext(s, s');
    if ActivatedFor(s, order) == {} {
      ReachableStages(s);
      ReachableStages(s');
      StandingNext(s, s', step);
      forall run: seq<State>, n: nat | IsGuardedRun(run) && run[0] == s' && n < |run| && order in run[n].originals ensures KeptAt(run[n], order) {
        GuardedStanding(run, n);
        StandingKept(run[n], order);
        OrderKeptExactly(run[n], order);
      }
    } else {
      var run := SecondActivation(s, s', process, slot, kept);
      assert !KeptAt(run[2], order);
    }
  }

  /** The admitted replacement can be leased and activated at once. */
  lemma SecondActivation(s: State, s': State, process: nat, slot: Slot, kept: Queue) returns (run: seq<State>)
    requires Reachable(s) && Reachable(s') && MonitorEnqueue(s, s', process, slot, kept) && WouldActivate(s, slot)
    requires ActivatedFor(s, slot.standsFor.value.order) != {}
    ensures IsGuardedRun(run) && |run| == 3 && run[0] == s' && slot.standsFor.value.order in run[2].originals
    ensures !KeptAt(run[2], slot.standsFor.value.order)
  {
    var order := slot.standsFor.value.order;
    var m, e := ActivatesAgain(s, s', process, slot, kept);
    assert Next(s', m);
    ReachableNext(s', m);
    assert Next(m, e);
    ReachableNext(m, e);
    run := [s', m, e];
    assert GuardedNext(s', m) && GuardedNext(m, e);
    OrderKeptExactly(e, order);
  }

  lemma ActivatesAgain(s: State, s': State, process: nat, slot: Slot, kept: Queue) returns (m: State, e: State)
    requires Reachable(s) && MonitorEnqueue(s, s', process, slot, kept) && WouldActivate(s, slot)
    requires ActivatedFor(s, slot.standsFor.value.order) != {}
    ensures NextStep(s', m, StepMonitorClaim(s.next + 1, s'.now + 1.0)) && NextStep(m, e, StepActivate(s.next + 1))
    ensures slot.standsFor.value.order in e.originals && |ActivatedFor(e, slot.standsFor.value.order)| >= 2
  {
    var order := slot.standsFor.value.order;
    var earlier :| earlier in ActivatedFor(s, order);
    ReachableStages(s);
    assert AskedStage(s, earlier) && AskedOk(s, earlier);
    m, e := ActivatesNew(s, s', process, slot, kept);
    assert earlier in ActivatedFor(e, order) && s.next in ActivatedFor(e, order);
    TwoOfThem(ActivatedFor(e, order), earlier, s.next);
  }

  lemma ActivatesNew(s: State, s': State, process: nat, slot: Slot, kept: Queue) returns (m: State, e: State)
    requires MonitorEnqueue(s, s', process, slot, kept) && WouldActivate(s, slot)
    requires s.originals[slot.standsFor.value.order].canceled
    ensures NextStep(s', m, StepMonitorClaim(s.next + 1, s'.now + 1.0)) && NextStep(m, e, StepActivate(s.next + 1))
    ensures e.activated == s.activated + {s.next} && e.replacing == s.replacing[s.next := slot.standsFor.value.order]
    ensures e.originals == s.originals
  {
    var order, k := slot.standsFor.value.order, s.next + 1;
    m := Leased(s', k, s'.now + 1.0);
    NewlyLeased(s, s', process, slot, kept, m);
    e := NowActivated(m, k, Left(s, order));
    EnabledActivation(m, k, order, Left(s, order));
  }

  lemma NewlyLeased(s: State, s': State, process: nat, slot: Slot, kept: Queue, m: State)
    requires MonitorEnqueue(s, s', process, slot, kept) && m == Leased(s', s.next + 1, s'.now + 1.0)
    ensures NextStep(s', m, StepMonitorClaim(s.next + 1, s'.now + 1.0))
    ensures Acting(m, s.next + 1, Monitor, Claimed) && Finds(m, m.tasks[s.next + 1]) && m.tasks[s.next + 1].id == s.next
    ensures m.queue[s.next] == ClaimSlot(slot, s'.next, s'.now + 1.0) && m.tasks[s.next + 1].snap == m.queue[s.next]
    ensures m.originals == s.originals && m.activated == s.activated && m.replacing == s'.replacing
  {
  }

  lemma TwoOfThem(ids: set<nat>, id: nat, jd: nat)
    requires id in ids && jd in ids && id != jd
    ensures |ids| >= 2
  {
    assert |ids - {id}| == |ids| - 1 && jd in ids - {id};
  }

  function Leased(s: State, k: nat, until: real): State
    requires k in s.tasks && s.tasks[k].id in s.queue
  {
    var t := s.tasks[k];
    var slot := ClaimSlot(s.queue[t.id], s.next, until);
    s.(queue := s.queue[t.id := slot], tasks := s.tasks[k := t.(phase := Claimed, snap := slot)], next := s.next + 1)
  }

  function NowActivated(s: State, k: nat, qty: real): State
    requires k in s.tasks && s.tasks[k].id in s.queue
  {
    var t := s.tasks[k];
    var slot := ActivateSlot(s.queue[t.id], qty);
    s.(queue := s.queue[t.id := slot], asked := s.asked[t.id := qty], activated := s.activated + {t.id},
       tasks := s.tasks[k := t.(phase := Armed, snap := slot)])
  }

  lemma EnabledActivation(m: State, k: nat, order: nat, left: real)
    requires Acting(m, k, Monitor, Claimed) && Finds(m, m.tasks[k]) && m.queue[m.tasks[k].id].lifecycle.AwaitingCancel?
    requires m.tasks[k].snap.standsFor.Some? && m.tasks[k].snap.standsFor.value.order == order
    requires order in m.originals && m.originals[order].canceled && left == Left(m, order)
    requires var slot := m.queue[m.tasks[k].id]; slot.qty > 0.0 && Tolerance(slot.qty) < left <= slot.qty + Tolerance(slot.qty)
    ensures Activate(m, NowActivated(m, k, left), k)
  {
    assert ReplacementQty(m, m.tasks[k]) == left;
  }
}
