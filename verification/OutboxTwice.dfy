/** A canceled order of size one is replaced twice, and both replacements fill.
    The monitor stores a replacement and gives up for now; the order is canceled;
    the worker activates the replacement and lets go of it.  The monitor, still
    working on a listing fetched before, meets the order again: the queue compares
    only records that await their cancel, so it stores a second replacement, and
    the venue's status activates that one in full, too. */
module OutboxTwice {
  import opened Options
  import opened OutboxRecord
  import opened OutboxProtocol
  import opened OutboxRuns
  import opened OutboxTheorems
  import opened OutboxOrders
  import opened Sums

  const KEY := ReplacementKey(Some("Binance"), "BTCUSDC", Sell, 9)
  const WAITING := Slot(0, AwaitingCancel, Unset, None, None, 1.0, 0.0, 1.0, None, Some(KEY), 1.0)
  const HELD := WAITING.(lease := Some(SlotLease(4, 5.0)))
  const TAKEN := WAITING.(lease := Some(SlotLease(5, 5.0)))
  const READY := TAKEN.(lifecycle := SubmitPending, submission := Refused)
  const FREE := READY.(lease := None)
  const RETAKEN := FREE.(lease := Some(SlotLease(10, 5.0)))
  const SENDING := RETAKEN.(owner := Some(1), submission := ProducerClaimed)
  const HELD2 := WAITING.(lease := Some(SlotLease(9, 5.0)))
  const READY2 := HELD2.(lifecycle := SubmitPending, submission := Refused)
  const SENDING2 := READY2.(owner := Some(0), submission := ProducerClaimed)

  const CALL7 := Call(7, 0, 1.0, 0.0, InFlight)
  const FULL7 := Call(7, 0, 1.0, 1.0, Open)
  const CALL2 := Call(2, 0, 1.0, 0.0, InFlight)
  const FULL2 := Call(2, 0, 1.0, 1.0, Open)
  const MONITOR := Task(Monitor, 0, Sent, 7, SENDING2, Some(0))
  const WORKER := Task(Worker, 1, Sent, 2, SENDING, Some(1))

  /** While the first replacement is the only one. */
  function One(slot: Slot, tasks: map<nat, Task>, plan: Option<Plan>, canceled: bool, activated: set<nat>, next: nat): State {
    State(0.0, map[2 := slot], tasks, [], {0, 1}, plan, map[2 := 1.0], map[2 := 9],
          map[9 := Original(1.0, 0.0, canceled)], activated, next)
  }

  /** With the second one beside it. */
  function Two(first: Slot, second: Slot, tasks: map<nat, Task>, calls: seq<Call>, plan: Option<Plan>, activated: set<nat>, next: nat)
    : State
  {
    State(0.0, map[2 := first, 7 := second], tasks, calls, {0, 1}, plan, map[2 := 1.0, 7 := 1.0], map[2 := 9, 7 := 9],
          map[9 := Original(1.0, 0.0, true)], activated, next)
  }

  const EMPTY := State(0.0, map[], map[], [], {0, 1}, None, map[], map[], map[], {}, 2)
  const OPENED := State(0.0, map[], map[], [], {0, 1}, None, map[], map[], map[9 := Original(1.0, 0.0, false)], {}, 2)
  const STORED := One(WAITING, map[3 := Task(Monitor, 0, Target, 2, WAITING, None)], None, false, {}, 4)
  const LEASED := One(HELD, map[3 := Task(Monitor, 0, Phase.Claimed, 2, HELD, None)], None, false, {}, 5)
  const RELEASED := One(WAITING, map[], None, false, {}, 5)
  const CANCELED := One(WAITING, map[], None, true, {}, 5)
  const SCANNED := One(WAITING, map[], Some(Plan(1, 0.0, {2}, 5)), true, {}, 6)
  const CLAIMED := One(TAKEN, map[6 := Task(Worker, 1, Phase.Claimed, 2, TAKEN, None)], Some(Plan(1, 0.0, {}, 5)), true, {}, 7)
  const WORKING := One(TAKEN, map[6 := Task(Worker, 1, Phase.Claimed, 2, TAKEN, None)], None, true, {}, 7)
  const ACTIVE := One(READY, map[6 := Task(Worker, 1, Phase.Claimed, 2, READY, None)], None, true, {2}, 7)
  const FREED := One(FREE, map[], None, true, {2}, 7)
  const AGAIN := Two(FREE, WAITING, map[8 := Task(Monitor, 0, Target, 7, WAITING, None)], [], None, {2}, 9)
  const AGAINLEASED := Two(FREE, HELD2, map[8 := Task(Monitor, 0, Phase.Claimed, 7, HELD2, None)], [], None, {2}, 10)
  const BOTH := Two(FREE, READY2, map[8 := Task(Monitor, 0, Armed, 7, READY2, None)], [], None, {2, 7}, 10)
  const BEGUN7 := Two(FREE, SENDING2, map[8 := Task(Monitor, 0, Begun, 7, SENDING2, None)], [], None, {2, 7}, 10)
  const SENT7 := Two(FREE, SENDING2, map[8 := MONITOR], [CALL7], None, {2, 7}, 10)
  const OPEN7 := Two(FREE, SENDING2, map[8 := MONITOR], [CALL7.(fate := Open)], None, {2, 7}, 10)
  const FILLED7 := Two(FREE, SENDING2, map[8 := MONITOR], [FULL7], None, {2, 7}, 10)
  const RESCANNED := Two(FREE, SENDING2, map[8 := MONITOR], [FULL7], Some(Plan(1, 0.0, {2}, 10)), {2, 7}, 11)
  const RECLAIMED := Two(RETAKEN, SENDING2, map[8 := MONITOR, 11 := Task(Worker, 1, Phase.Claimed, 2, RETAKEN, None)],
    [FULL7], Some(Plan(1, 0.0, {}, 10)), {2, 7}, 12)
  const REWORKING := Two(RETAKEN, SENDING2, map[8 := MONITOR, 11 := Task(Worker, 1, Phase.Claimed, 2, RETAKEN, None)],
    [FULL7], None, {2, 7}, 12)
  const ARMED := Two(RETAKEN, SENDING2, map[8 := MONITOR, 11 := Task(Worker, 1, Armed, 2, RETAKEN, None)], [FULL7], None,
    {2, 7}, 12)
  const BEGUN2 := Two(SENDING, SENDING2, map[8 := MONITOR, 11 := Task(Worker, 1, Begun, 2, SENDING, None)], [FULL7], None,
    {2, 7}, 12)
  const SENT2 := Two(SENDING, SENDING2, map[8 := MONITOR, 11 := WORKER], [FULL7, CALL2], None, {2, 7}, 12)
  const OPEN2 := Two(SENDING, SENDING2, map[8 := MONITOR, 11 := WORKER], [FULL7, CALL2.(fate := Open)], None, {2, 7}, 12)
  const TWICE := Two(SENDING, SENDING2, map[8 := MONITOR, 11 := WORKER], [FULL7, FULL2], None, {2, 7}, 12)

  lemma ByStep(s: State, s': State, step: Step)
    requires Reachable(s) && NextStep(s, s', step)
    ensures Reachable(s')
  {
    ReachableNext(s, s');
  }

  lemma Start()
    ensures Reachable(EMPTY)
  {
    assert IsRun([EMPTY]) && [EMPTY][|[EMPTY]| - 1] == EMPTY;
  }

  lemma ToOpened()
    requires Reachable(EMPTY)
    ensures Reachable(OPENED)
  {
    ByStep(EMPTY, OPENED, StepOriginalOpens(9, 1.0));
  }

  lemma ToStored()
    requires Reachable(OPENED)
    ensures Reachable(STORED)
  {
    ByStep(OPENED, STORED, StepMonitorEnqueue(0, WAITING, map[]));
  }

  lemma ToLeased()
    requires Reachable(STORED)
    ensures Reachable(LEASED)
  {
    ByStep(STORED, LEASED, StepMonitorClaim(3, 5.0));
  }

  lemma ToReleased()
    requires Reachable(LEASED)
    ensures Reachable(RELEASED)
  {
    ByStep(LEASED, RELEASED, StepMonitorGiveUp(3, false));
  }

  lemma ToCanceled()
    requires Reachable(RELEASED)
    ensures Reachable(CANCELED)
  {
    ByStep(RELEASED, CANCELED, StepOriginalMoves(9, 0.0, true));
  }

  lemma ToScanned()
    requires Reachable(CANCELED)
    ensures Reachable(SCANNED)
  {
    ByStep(CANCELED, SCANNED, StepWorkerScan(1, 0.0, {2}));
  }

  lemma ToClaimed()
    requires Reachable(SCANNED)
    ensures Reachable(CLAIMED)
  {
    assert {2} - {2} == {};
    ByStep(SCANNED, CLAIMED, StepWorkerClaim(2, 5.0));
  }

  lemma ToWorking()
    requires Reachable(CLAIMED)
    ensures Reachable(WORKING)
  {
    ByStep(CLAIMED, WORKING, StepWorkerPlanned);
  }

  lemma ToActive()
    requires Reachable(WORKING)
    ensures Reachable(ACTIVE)
  {
    assert Tolerance(1.0) < 1.0;
    ByStep(WORKING, ACTIVE, StepActivate(6));
  }

  lemma ToFreed()
    requires Reachable(ACTIVE)
    ensures Reachable(FREED)
  {
    ByStep(ACTIVE, FREED, StepWorkerRelease(6));
  }

  lemma ToAgain()
    requires Reachable(FREED)
    ensures Reachable(AGAIN)
  {
    ByStep(FREED, AGAIN, StepMonitorEnqueue(0, WAITING, map[2 := FREE]));
  }

  lemma ToAgainleased()
    requires Reachable(AGAIN)
    ensures Reachable(AGAINLEASED)
  {
    ByStep(AGAIN, AGAINLEASED, StepMonitorClaim(8, 5.0));
  }

  lemma ToBoth()
    requires Reachable(AGAINLEASED)
    ensures Reachable(BOTH)
  {
    assert Tolerance(1.0) < 1.0;
    ByStep(AGAINLEASED, BOTH, StepActivate(8));
  }

  lemma ToBegun7()
    requires Reachable(BOTH)
    ensures Reachable(BEGUN7)
  {
    ByStep(BOTH, BEGUN7, StepBegin(8, 0.0, 5.0));
  }

  lemma ToSent7()
    requires Reachable(BEGUN7)
    ensures Reachable(SENT7)
  {
    ByStep(BEGUN7, SENT7, StepSend(8, 1.0));
  }

  lemma ToOpen7()
    requires Reachable(SENT7)
    ensures Reachable(OPEN7)
  {
    ByStep(SENT7, OPEN7, StepVenue(0, CALL7.(fate := Open)));
  }

  lemma ToFilled7()
    requires Reachable(OPEN7)
    ensures Reachable(FILLED7)
  {
    ByStep(OPEN7, FILLED7, StepVenue(0, FULL7));
  }

  lemma ToRescanned()
    requires Reachable(FILLED7)
    ensures Reachable(RESCANNED)
  {
    ByStep(FILLED7, RESCANNED, StepWorkerScan(1, 0.0, {2}));
  }

  lemma ToReclaimed()
    requires Reachable(RESCANNED)
    ensures Reachable(RECLAIMED)
  {
    assert {2} - {2} == {};
    ByStep(RESCANNED, RECLAIMED, StepWorkerClaim(2, 5.0));
  }

  lemma ToReworking()
    requires Reachable(RECLAIMED)
    ensures Reachable(REWORKING)
  {
    ByStep(RECLAIMED, REWORKING, StepWorkerPlanned);
  }

  lemma ToArmed()
    requires Reachable(REWORKING)
    ensures Reachable(ARMED)
  {
    ByStep(REWORKING, ARMED, StepWorkerClear(11));
  }

  lemma ToBegun2()
    requires Reachable(ARMED)
    ensures Reachable(BEGUN2)
  {
    ByStep(ARMED, BEGUN2, StepBegin(11, 0.0, 5.0));
  }

  lemma ToSent2()
    requires Reachable(BEGUN2)
    ensures Reachable(SENT2)
  {
    ByStep(BEGUN2, SENT2, StepSend(11, 1.0));
  }

  lemma ToOpen2()
    requires Reachable(SENT2)
    ensures Reachable(OPEN2)
  {
    ByStep(SENT2, OPEN2, StepVenue(1, CALL2.(fate := Open)));
  }

  lemma ToTwice()
    requires Reachable(OPEN2)
    ensures Reachable(TWICE)
  {
    ByStep(OPEN2, TWICE, StepVenue(1, FULL2));
  }

  lemma ReachesTwice()
    ensures Reachable(TWICE)
  {
    Start();
    ToOpened();
    ToStored();
    ToLeased();
    ToReleased();
    ToCanceled();
    ToScanned();
    ToClaimed();
    ToWorking();
    ToActive();
    ToFreed();
    ToAgain();
    ToAgainleased();
    ToBoth();
    ToBegun7();
    ToSent7();
    ToOpen7();
    ToFilled7();
    ToRescanned();
    ToReclaimed();
    ToReworking();
    ToArmed();
    ToBegun2();
    ToSent2();
    ToOpen2();
    ToTwice();
  }

  /** Two fills of the whole size, and no guard on the second admission. */
  lemma ReplacedTwice()
    ensures Reachable(TWICE) && 9 in TWICE.originals && TWICE.originals[9].canceled
    ensures TWICE.originals[9].filled + Sum(TWICE.calls, FilledFor(TWICE.replacing, 9)) == 2.0 * TWICE.originals[9].size
    ensures !Guard(FREED, StepMonitorEnqueue(0, WAITING, map[2 := FREE]))
  {
    ReachesTwice();
    var f := FilledFor(TWICE.replacing, 9);
    SumAppend([TWICE.calls[0]], TWICE.calls[1], f);
    SumAppend([], TWICE.calls[0], f);
    assert TWICE.calls == [TWICE.calls[0]] + [TWICE.calls[1]] && [TWICE.calls[0]] == [] + [TWICE.calls[0]];
    assert 2 in ActivatedFor(FREED, 9);
  }
}
