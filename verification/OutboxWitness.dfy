/** Dispatch exclusion is per revision, not per record: a run in which the worker
    begins revision 1 of a record while the live producer of revision 0 has not
    completed its claim.  The producer's lease runs out during its call; the
    worker recovers the order by lookup, sees it rejected and opens the next
    revision. */
module OutboxWitness {
  import opened Options
  import opened OutboxRecord
  import opened OutboxProtocol
  import opened OutboxRuns
  import opened OutboxTheorems

  const ORDERED := Slot(0, SubmitPending, Unset, None, None, 1.0, 0.0, 1.0, None, None, 0.0)
  const MINE := ORDERED.(lease := Some(SlotLease(3, 5.0)), submission := ProducerClaimed, owner := Some(0))
  const RECOVERED := MINE.(lease := None, lifecycle := Accepted, submission := Acknowledged, orderId := Some(0))
  const CLAIMED := RECOVERED.(lease := Some(SlotLease(6, 15.0)))
  const REMAINDER := CLAIMED.(lease := None, revision := 1, lifecycle := SubmitPending, submission := Refused, orderId := None)
  const RECLAIMED := REMAINDER.(lease := Some(SlotLease(8, 15.0)))
  const BEGUN := RECLAIMED.(owner := Some(1), submission := ProducerClaimed)

  const SENT := Task(Producer, 0, Sent, 2, MINE, Some(0))
  const SEND := Call(2, 0, 1.0, 0.0, InFlight)
  const OPEN := SEND.(fate := Open)
  const REJECTED := SEND.(fate := Done(Rejected))

  function At(now: real, slot: Slot, tasks: map<nat, Task>, calls: seq<Call>, plan: Option<Plan>, next: nat): State {
    State(now, map[2 := slot], tasks, calls, {0, 1}, plan, map[2 := 1.0], map[], map[], {}, next)
  }

  const EMPTY := State(0.0, map[], map[], [], {0, 1}, None, map[], map[], map[], {}, 2)
  const ENQUEUED := At(0.0, MINE, map[4 := Task(Producer, 0, Armed, 2, MINE, None)], [], None, 5)
  const BEGAN := At(0.0, MINE, map[4 := Task(Producer, 0, Begun, 2, MINE, None)], [], None, 5)
  const CALLED := At(0.0, MINE, map[4 := SENT], [SEND], None, 5)
  const OPENED := At(0.0, MINE, map[4 := SENT], [OPEN], None, 5)
  const LATER := At(10.0, MINE, map[4 := SENT], [OPEN], None, 5)
  const WATCHED := At(10.0, MINE, map[4 := SENT, 5 := Task(Worker, 1, Watching, 2, MINE, None)], [OPEN], None, 6)
  const FOUND := At(10.0, RECOVERED, map[4 := SENT], [OPEN], None, 6)
  const ENDED := At(10.0, RECOVERED, map[4 := SENT], [REJECTED], None, 6)
  const SCANNED := At(10.0, RECOVERED, map[4 := SENT], [REJECTED], Some(Plan(1, 10.0, {2}, 6)), 7)
  const LEASED := At(10.0, CLAIMED, map[4 := SENT, 7 := Task(Worker, 1, Phase.Claimed, 2, CLAIMED, None)], [REJECTED],
                     Some(Plan(1, 10.0, {}, 6)), 8)
  const WORKING := LEASED.(plan := None)
  const REOPENED := At(10.0, REMAINDER, map[4 := SENT], [REJECTED], None, 8)
  const RESCANNED := REOPENED.(plan := Some(Plan(1, 10.0, {2}, 8)), next := 9)
  const RELEASED := At(10.0, RECLAIMED, map[4 := SENT, 9 := Task(Worker, 1, Phase.Claimed, 2, RECLAIMED, None)], [REJECTED],
                       Some(Plan(1, 10.0, {}, 8)), 10)
  const REWORKING := RELEASED.(plan := None)
  const ARMED := At(10.0, RECLAIMED, map[4 := SENT, 9 := Task(Worker, 1, Armed, 2, RECLAIMED, None)], [REJECTED], None, 10)
  const REBEGUN := At(10.0, BEGUN, map[4 := SENT, 9 := Task(Worker, 1, Begun, 2, BEGUN, None)], [REJECTED], None, 10)

  lemma ByStep(s: State, s': State, step: Step)
    requires Reachable(s) && NextStep(s, s', step)
    ensures Reachable(s')
  {
    ReachableNext(s, s');
  }

  lemma Start()
    ensures Reachable(EMPTY)
  {
    assert IsRun([EMPTY]) && [EMPTY][|[EMPTY]| - 1] == EMPTY;
  }

  lemma ToEnqueued()
    requires Reachable(EMPTY)
    ensures Reachable(ENQUEUED)
  {
    ByStep(EMPTY, ENQUEUED, StepProducerEnqueue(0, ORDERED, 5.0, map[]));
  }

  lemma ToBegan()
    requires Reachable(ENQUEUED)
    ensures Reachable(BEGAN)
  {
    ByStep(ENQUEUED, BEGAN, StepBegin(4, 0.0, 5.0));
  }

  lemma ToCalled()
    requires Reachable(BEGAN)
    ensures Reachable(CALLED)
  {
    ByStep(BEGAN, CALLED, StepSend(4, 1.0));
  }

  lemma ToOpened()
    requires Reachable(CALLED)
    ensures Reachable(OPENED)
  {
    ByStep(CALLED, OPENED, StepVenue(0, OPEN));
  }

  lemma ToLater()
    requires Reachable(OPENED)
    ensures Reachable(LATER)
  {
    ByStep(OPENED, LATER, StepTick);
  }

  lemma ToWatched()
    requires Reachable(LATER)
    ensures Reachable(WATCHED)
  {
    ByStep(LATER, WATCHED, StepWorkerWatch(2, 1));
  }

  lemma ToFound()
    requires Reachable(WATCHED)
    ensures Reachable(FOUND)
  {
    ByStep(WATCHED, FOUND, StepWorkerRecover(5, 0));
  }

  lemma ToEnded()
    requires Reachable(FOUND)
    ensures Reachable(ENDED)
  {
    ByStep(FOUND, ENDED, StepVenue(0, REJECTED));
  }

  lemma ToScanned()
    requires Reachable(ENDED)
    ensures Reachable(SCANNED)
  {
    ByStep(ENDED, SCANNED, StepWorkerScan(1, 10.0, {2}));
  }

  lemma ToLeased()
    requires Reachable(SCANNED)
    ensures Reachable(LEASED)
  {
    assert {2} - {2} == {};
    ByStep(SCANNED, LEASED, StepWorkerClaim(2, 15.0));
  }

  lemma ToWorking()
    requires Reachable(LEASED)
    ensures Reachable(WORKING)
  {
    ByStep(LEASED, WORKING, StepWorkerPlanned);
  }

  lemma NothingFilled(slot: Slot)
    requires slot.qty == 1.0
    ensures RemainderSlot(slot, 0.0) ==
              Some(slot.(lease := None, revision := slot.revision + 1, delivered := slot.delivered + 0.0,
                         lifecycle := SubmitPending, submission := Refused, orderId := None))
  {
    assert Tolerance(1.0) < 1.0;
  }

  lemma ObserveStep(s: State, s': State, k: nat, slot: Slot, c: Call, after: Slot)
    requires Reachable(s) && Acting(s, k, Worker, Phase.Claimed) && s.plan.None? && Finds(s, s.tasks[k])
    requires s.tasks[k].snap.lifecycle.Accepted? && s.tasks[k].snap.orderId == Some(0) && |s.calls| > 0
    requires s.queue[s.tasks[k].id] == slot && s.calls[0] == c && AfterStatus(slot, c) == Some(after)
    requires s' == s.(queue := s.queue[s.tasks[k].id := after], tasks := s.tasks - {k})
    ensures Reachable(s')
  {
    assert WorkerObserve(s, s', k);
    ByStep(s, s', StepWorkerObserve(k));
  }

  lemma RejectionReopens(slot: Slot, c: Call)
    requires slot == CLAIMED && c == REJECTED
    ensures AfterStatus(slot, c) == Some(REMAINDER)
  {
    NothingFilled(slot);
  }

  lemma Working()
    ensures Acting(WORKING, 7, Worker, Phase.Claimed) && WORKING.plan.None? && Finds(WORKING, WORKING.tasks[7])
    ensures WORKING.tasks[7].snap == CLAIMED && WORKING.tasks[7].id == 2
    ensures WORKING.queue[2] == CLAIMED && WORKING.calls == [REJECTED]
  {
  }

  lemma Reopening()
    ensures WORKING.tasks - {7} == REOPENED.tasks
    ensures REOPENED == WORKING.(queue := WORKING.queue[2 := REMAINDER], tasks := REOPENED.tasks)
  {
  }

  lemma ToReopened(s: State, s': State, slot: Slot, c: Call)
    requires Reachable(s) && s == WORKING && s' == REOPENED && slot == CLAIMED && c == REJECTED
    ensures Reachable(s')
  {
    Working();
    Reopening();
    RejectionReopens(slot, c);
    ObserveStep(s, s', 7, slot, c, REMAINDER);
  }

  lemma ToRescanned()
    requires Reachable(REOPENED)
    ensures Reachable(RESCANNED)
  {
    ByStep(REOPENED, RESCANNED, StepWorkerScan(1, 10.0, {2}));
  }

  lemma ToReleased()
    requires Reachable(RESCANNED)
    ensures Reachable(RELEASED)
  {
    assert {2} - {2} == {};
    ByStep(RESCANNED, RELEASED, StepWorkerClaim(2, 15.0));
  }

  lemma ToReworking()
    requires Reachable(RELEASED)
    ensures Reachable(REWORKING)
  {
    ByStep(RELEASED, REWORKING, StepWorkerPlanned);
  }

  lemma ToArmed()
    requires Reachable(REWORKING)
    ensures Reachable(ARMED)
  {
    ByStep(REWORKING, ARMED, StepWorkerClear(9));
  }

  lemma ReachesArmed()
    ensures Reachable(ARMED)
  {
    Start();
    ToEnqueued();
    ToBegan();
    ToCalled();
    ToOpened();
    ToLater();
    ToWatched();
    ToFound();
    ToEnded();
    ToScanned();
    ToLeased();
    ToWorking();
    ToReopened(WORKING, REOPENED, CLAIMED, REJECTED);
    ToRescanned();
    ToReleased();
    ToReworking();
    ToArmed();
  }

  lemma SecondBeginWhileFirstLives()
    ensures Reachable(ARMED) && Begin(ARMED, REBEGUN, 9, 10.0, 5.0)
    ensures OpenDispatch(ARMED, 4, ARMED.tasks[9].id, 0) && ARMED.tasks[4].process != ARMED.tasks[9].process
  {
    ReachesArmed();
  }
}
