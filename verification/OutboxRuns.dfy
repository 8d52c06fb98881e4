/** The outbox over whole runs: what holds in every state that any interleaving
    of producers, monitor, worker, venue and crashes can reach. */
module OutboxRuns {
  import opened Options
  import opened OutboxRecord
  import opened OutboxProtocol
  import opened OutboxInvariant
  import opened OutboxVenue
  import opened OutboxLeases
  import opened OutboxDispatch
  import opened OutboxTruth
  import opened OutboxBooks
  import opened OutboxSettling
  import opened Sums

  ghost predicate Inv(s: State) {
    Core(s) && Truth(s) && Books(s)
  }

  lemma InitInv(s: State)
    requires Init(s)
    ensures Inv(s)
  {
  }

  /** Steps that only take records or tasks away, or move nothing at all. */
  predicate TakesAway(step: Step) {
    || step.StepTick? || step.StepSpawn? || step.StepDie? || step.StepConsolidate? || step.StepDiscard?
    || step.StepWorkerPlanned? || step.StepWorkerResolve? || step.StepForget?
  }

  lemma TakesAwayInv(s: State, s': State, step: Step)
    requires Inv(s) && NextStep(s, s', step) && TakesAway(step)
    ensures Inv(s')
  {
    assert Quiet(s, s');
    QuietCore(s, s');
    QuietTruth(s, s');
    QuietBooks(s, s');
  }

  /** Steps of the venue and of the replaced orders. */
  predicate OfTheVenue(step: Step) {
    step.StepVenue? || step.StepOriginalOpens? || step.StepOriginalMoves?
  }

  lemma VenueInv(s: State, s': State, step: Step)
    requires Inv(s) && NextStep(s, s', step) && OfTheVenue(step)
    ensures Inv(s')
  {
    QuietCore(s, s');
    match step {
      case StepVenue(i, c) =>
        VenueTruth(s, s', i, c);
        VenueBooks(s, s', i, c);
      case StepOriginalOpens(order, size) =>
        QuietTruth(s, s');
        OriginalsBooks(s, s', order);
      case StepOriginalMoves(order, filled, canceled) =>
        QuietTruth(s, s');
        OriginalsBooks(s, s', order);
      case _ =>
    }
  }

  lemma LookBooks(s: State, s': State, step: Step)
    requires Inv(s) && NextStep(s, s', step) && (step.StepMonitorReuse? || step.StepWorkerWatch?)
    ensures Books(s')
  {
    forall k | k in s'.tasks ensures BookedTask(s, s', k) {
      assert k in s.tasks ==> TaskOk(s, k);
    }
    SameBooksKeeps(s, s');
  }

  lemma ProducerEnqueueInv(s: State, s': State, process: nat, slot: Slot, until: real, kept: Queue)
    requires Inv(s) && ProducerEnqueue(s, s', process, slot, until, kept)
    ensures Inv(s')
  {
    ProducerEnqueueCore(s, s', process, slot, until, kept);
    ProducerEnqueueBooks(s, s', process, slot, until, kept);
    EnqueueTruth(s, s', StepProducerEnqueue(process, slot, until, kept));
  }

  lemma PlainEnqueueInv(s: State, s': State, slot: Slot, kept: Queue)
    requires Inv(s) && PlainEnqueue(s, s', slot, kept)
    ensures Inv(s')
  {
    PlainEnqueueCore(s, s', slot, kept);
    PlainEnqueueBooks(s, s', slot, kept);
    EnqueueTruth(s, s', StepPlainEnqueue(slot, kept));
  }

  lemma MonitorEnqueueInv(s: State, s': State, process: nat, slot: Slot, kept: Queue)
    requires Inv(s) && MonitorEnqueue(s, s', process, slot, kept)
    ensures Inv(s')
  {
    MonitorEnqueueCore(s, s', process, slot, kept);
    MonitorEnqueueBooks(s, s', process, slot, kept);
    EnqueueTruth(s, s', StepMonitorEnqueue(process, slot, kept));
  }

  lemma LookInv(s: State, s': State, step: Step)
    requires Inv(s) && NextStep(s, s', step) && (step.StepMonitorReuse? || step.StepWorkerWatch?)
    ensures Inv(s')
  {
    LookBooks(s, s', step);
    EnqueueTruth(s, s', step);
    if step.StepMonitorReuse? {
      MonitorReuseCore(s, s', step.process, step.id);
    } else {
      WorkerWatchCore(s, s', step.id, step.process);
    }
  }

  lemma EnqueueInv(s: State, s': State, step: Step)
    requires Inv(s) && NextStep(s, s', step)
    requires step.StepProducerEnqueue? || step.StepPlainEnqueue? || step.StepMonitorEnqueue?
    ensures Inv(s')
  {
    if step.StepProducerEnqueue? {
      ProducerEnqueueInv(s, s', step.process, step.slot, step.until, step.kept);
    } else if step.StepPlainEnqueue? {
      PlainEnqueueInv(s, s', step.slot, step.kept);
    } else {
      MonitorEnqueueInv(s, s', step.process, step.slot, step.kept);
    }
  }

  lemma RefreshInv(s: State, s': State, step: Step)
    requires Inv(s) && NextStep(s, s', step) && step.StepRefreshPending?
    ensures Inv(s')
  {
    RefreshCore(s, s', step.id, step.qty, step.kept);
    RefreshTruth(s, s', step.id, step.qty, step.kept);
    RefreshBooks(s, s', step.id, step.qty, step.kept);
  }

  predicate OfClaiming(step: Step) {
    || step.StepMonitorClaim? || step.StepWorkerClaim? || step.StepWorkerScan? || step.StepWorkerClear?
    || step.StepSkip?
  }

  lemma ClaimingBooks(s: State, s': State, step: Step)
    requires Inv(s) && NextStep(s, s', step) && OfClaiming(step)
    ensures Books(s')
  {
    forall k | k in s'.tasks ensures BookedTask(s, s', k) {
      assert k in s.tasks ==> TaskOk(s, k);
      if step.StepMonitorClaim? {
        assert TaskBooks(s, step.k) && SlotBooks(s, s.tasks[step.k].id);
      }
    }
    SameBooksKeeps(s, s');
  }

  lemma ClaimingInv(s: State, s': State, step: Step)
    requires Inv(s) && NextStep(s, s', step) && OfClaiming(step)
    ensures Inv(s')
  {
    ClaimingBooks(s, s', step);
    match step {
      case StepMonitorClaim(k, until) =>
        MonitorClaimCore(s, s', k, until);
        MonitorClaimTruth(s, s', k, until);
      case StepWorkerClaim(id, until) =>
        ClaimCore(s, s', id, until);
        ClaimTruth(s, s', id, until);
      case StepWorkerScan(process, start, ids) =>
        ScanCore(s, s', process, start, ids);
        ScanTruth(s, s', process, start, ids);
      case StepWorkerClear(k) =>
        assert TaskOk(s, k);
        MovesCore(s, s', k, Armed, s.tasks[k].call, s.calls);
        MoveTruth(s, s', k);
      case StepSkip(k) =>
        MovesCore(s, s', k, Sent, s.tasks[k].call, s.calls);
        MoveTruth(s, s', k);
      case _ =>
    }
  }

  lemma ScanTruth(s: State, s': State, process: nat, start: real, ids: set<nat>)
    requires Inv(s) && WorkerScan(s, s', process, start, ids)
    ensures Truth(s')
  {
    forall id | id in s'.queue ensures id != s.next {
      assert SlotOk(s, id);
    }
    forall k | k in s'.tasks ensures k != s.next {
      assert TaskOk(s, k);
    }
    KeepsTruth(s, s', s.next, s.next);
  }

  predicate OfDispatch(step: Step) {
    step.StepActivate? || step.StepBegin? || step.StepSend? || step.StepWorkerObserve?
  }

  lemma DispatchInv(s: State, s': State, step: Step)
    requires Inv(s) && NextStep(s, s', step) && OfDispatch(step)
    ensures Inv(s')
  {
    match step {
      case StepActivate(k) =>
        ActivateCore(s, s', k);
        ActivateTruth(s, s', k);
        ActivateBooks(s, s', k);
      case StepBegin(k, at, lease) =>
        BeginCore(s, s', k, at, lease);
        BeginTruth(s, s', k, at, lease);
        BeginBooks(s, s', k, at, lease);
      case StepSend(k, size) =>
        MovesCore(s, s', k, Sent, Some(|s.calls|), s'.calls);
        SendTruth(s, s', k, size);
        SendBooks(s, s', k, size);
      case StepWorkerObserve(k) =>
        ObserveCore(s, s', k);
        ObserveTruth(s, s', k);
        ObserveBooks(s, s', k);
      case _ =>
    }
  }

  lemma ReleasingTruth(s: State, s': State, k: nat, remove: bool)
    requires Inv(s) && k in s.tasks && s' == Finish(s, k, slot => if remove then None else Some(ReleaseSlot(slot)))
    ensures Truth(s') && Books(s')
  {
    var f := slot => if remove then None else Some(ReleaseSlot(slot));
    FinishCases(s, s', k, f);
    FinishBooks(s, s', k, f);
    if Quiet(s, s') {
      QuietTruth(s, s');
    } else {
      ReleaseTruth(s, s', k);
    }
  }

  /** An order found at the venue rules out that its record still awaits a cancel. */
  lemma FoundBooks(s: State, s': State, k: nat, order: nat)
    requires Inv(s) && k in s.tasks && Found(s, s.tasks[k].id, s.tasks[k].snap.revision, order)
    requires s' == Finish(s, k, slot => Some(AcceptSlot(slot, order)))
    ensures Books(s')
  {
    if Finds(s, s.tasks[k]) {
      assert SlotVenue(s, s.tasks[k].id, order);
    }
    FinishBooks(s, s', k, slot => Some(AcceptSlot(slot, order)));
  }

  lemma FlaggingBooks(s: State, s': State, k: nat, remove: bool, flag: SubmissionState)
    requires Inv(s) && k in s.tasks && s' == Finish(s, k, slot => if remove then None else Some(FlagSlot(slot, flag)))
    ensures Books(s')
  {
    FinishBooks(s, s', k, slot => if remove then None else Some(FlagSlot(slot, flag)));
  }

  lemma AcceptingInv(s: State, s': State, step: Step)
    requires Inv(s) && NextStep(s, s', step)
    requires step.StepWorkerRecover? || step.StepWorkerFound? || step.StepCompleteAccepted?
    ensures Inv(s')
  {
    var k, order := step.k, step.order;
    FoundBooks(s, s', k, order);
    AcceptTruth(s, s', k, order);
    if step.StepWorkerRecover? {
      RecoverMeetsNobody(s, s', k, order);
      RecoverCore(s, s', k, order);
    } else {
      assert TaskOk(s, k);
      SpeakerFinishCore(s, s', k, slot => Some(AcceptSlot(slot, order)));
    }
  }

  lemma RefusingInv(s: State, s': State, k: nat, remove: bool)
    requires Inv(s) && (RefuseEarly(s, s', k, remove) || CompleteRefused(s, s', k, remove))
    ensures Inv(s')
  {
    SpeakerFinishCore(s, s', k, slot => if remove then None else Some(FlagSlot(slot, Refused)));
    RefuseTruth(s, s', k, remove);
    FlaggingBooks(s, s', k, remove, Refused);
  }

  lemma UnknownInv(s: State, s': State, k: nat)
    requires Inv(s) && CompleteUnknown(s, s', k)
    ensures Inv(s')
  {
    SpeakerFinishCore(s, s', k, slot => Some(FlagSlot(slot, Unknown)));
    UnknownTruth(s, s', k);
    assert s' == Finish(s, k, slot => if false then None else Some(FlagSlot(slot, Unknown)));
    FlaggingBooks(s, s', k, false, Unknown);
  }

  lemma ReleasingInv(s: State, s': State, k: nat, remove: bool)
    requires Inv(s) && (MonitorGiveUp(s, s', k, remove) || (WorkerRelease(s, s', k) && !remove))
    ensures Inv(s')
  {
    if MonitorGiveUp(s, s', k, remove) {
      GiveUpCore(s, s', k, remove);
    } else {
      WorkerReleaseCore(s, s', k);
      assert s' == Finish(s, k, slot => if false then None else Some(ReleaseSlot(slot)));
    }
    ReleasingTruth(s, s', k, remove);
  }

  lemma VerdictInv(s: State, s': State, step: Step)
    requires Inv(s) && NextStep(s, s', step)
    requires step.StepRefuseEarly? || step.StepCompleteRefused? || step.StepCompleteUnknown?
    ensures Inv(s')
  {
    if step.StepCompleteUnknown? {
      UnknownInv(s, s', step.k);
    } else {
      RefusingInv(s, s', step.k, step.remove);
    }
  }

  lemma LettingGoInv(s: State, s': State, step: Step)
    requires Inv(s) && NextStep(s, s', step) && (step.StepMonitorGiveUp? || step.StepWorkerRelease?)
    ensures Inv(s')
  {
    ReleasingInv(s, s', step.k, step.StepMonitorGiveUp? && step.remove);
  }

  lemma NextInv(s: State, s': State)
    requires Inv(s) && Next(s, s')
    ensures Inv(s')
  {
    var step :| NextStep(s, s', step);
    if TakesAway(step) {
      TakesAwayInv(s, s', step);
    } else if OfTheVenue(step) {
      VenueInv(s, s', step);
    } else if step.StepProducerEnqueue? || step.StepPlainEnqueue? || step.StepMonitorEnqueue? {
      EnqueueInv(s, s', step);
    } else if step.StepRefreshPending? {
      RefreshInv(s, s', step);
    } else if step.StepMonitorReuse? || step.StepWorkerWatch? {
      LookInv(s, s', step);
    } else if OfClaiming(step) {
      ClaimingInv(s, s', step);
    } else if OfDispatch(step) {
      DispatchInv(s, s', step);
    } else if step.StepMonitorGiveUp? || step.StepWorkerRelease? {
      LettingGoInv(s, s', step);
    } else if step.StepRefuseEarly? || step.StepCompleteRefused? || step.StepCompleteUnknown? {
      VerdictInv(s, s', step);
    } else {
      AcceptingInv(s, s', step);
    }
  }

  lemma {:induction false} RunInv(run: seq<State>, n: nat)
    requires IsRun(run) && n < |run|
    ensures Inv(run[n])
  {
    if n == 0 {
      InitInv(run[0]);
    } else {
      RunInv(run, n - 1);
      NextInv(run[n - 1], run[n]);
    }
  }

  /** Some run ends here. */
  ghost predicate Reachable(s: State) {
    exists run :: IsRun(run) && run[|run| - 1] == s
  }

  lemma ReachableInv(s: State)
    requires Reachable(s)
    ensures Inv(s)
  {
    var run :| IsRun(run) && run[|run| - 1] == s;
    RunInv(run, |run| - 1);
  }

  lemma ReachableNext(s: State, s': State)
    requires Reachable(s) && Next(s, s')
    ensures Reachable(s')
  {
    var run :| IsRun(run) && run[|run| - 1] == s;
    var longer := run + [s'];
    assert longer[|longer| - 1] == s' && IsRun(longer);
  }
}
