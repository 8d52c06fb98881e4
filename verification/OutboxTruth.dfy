/** Every step keeps the records and the tasks in agreement with the venue. */
module OutboxTruth {
  import opened Options
  import opened OutboxRecord
  import opened OutboxProtocol
  import opened OutboxInvariant
  import opened OutboxVenue
  import opened OutboxLeases
  import opened OutboxDispatch

  // ------------------------------------------------------------------
  // Steps that change the calls.
  // ------------------------------------------------------------------

  lemma VenueSlot(s: State, s': State, i: nat, c: Call, id: nat, j: nat)
    requires Venue(s, s', i, c) && id in s.queue && j < |s.calls| && SlotVenue(s, id, j) && SlotOrder(s, id)
    ensures SlotVenue(s', id, j) && SlotOrder(s', id)
  {
  }

  lemma VenueTask(s: State, s': State, i: nat, c: Call, k: nat, j: nat)
    requires Venue(s, s', i, c) && k in s.tasks && j < |s.calls| && TaskCall(s, k, j)
    ensures TaskCall(s', k, j)
  {
  }

  lemma VenueTruth(s: State, s': State, i: nat, c: Call)
    requires Truth(s) && Venue(s, s', i, c)
    ensures Truth(s')
  {
    forall j | 0 <= j < |s'.calls| ensures CallOk(s', j) {
      assert CallOk(s, j);
    }
    forall j, m | 0 <= j < |s'.calls| && 0 <= m < |s'.calls| && j != m ensures CallPair(s'.calls, j, m) {
      assert CallPair(s.calls, j, m);
    }
    forall id, j | id in s'.queue && 0 <= j < |s'.calls| ensures SlotVenue(s', id, j) {
      assert SlotVenue(s, id, j) && SlotOrder(s, id);
      VenueSlot(s, s', i, c, id, j);
    }
    forall id | id in s'.queue ensures SlotOrder(s', id) {
      assert SlotVenue(s, id, i) && SlotOrder(s, id);
      VenueSlot(s, s', i, c, id, i);
    }
    forall k, j | k in s'.tasks && 0 <= j < |s'.calls| ensures TaskCall(s', k, j) {
      assert TaskCall(s, k, j);
      VenueTask(s, s', i, c, k, j);
    }
  }

  lemma SendOld(s: State, s': State, k0: nat, size: real, k: nat, j: nat)
    requires Send(s, s', k0, size) && k in s.tasks && j < |s.calls| && TaskCall(s, k, j)
    ensures TaskCall(s', k, j)
  {
  }

  /** A new call cannot concern a revision that another live task speaks for. */
  lemma SendNew(s: State, s': State, k0: nat, size: real, k: nat)
    requires Send(s, s', k0, size) && k in s.tasks
    requires k != k0 ==> PairOk(s, k, k0) && PairOk(s, k0, k)
    ensures TaskCall(s', k, |s.calls|)
  {
  }

  lemma SendTruth(s: State, s': State, k0: nat, size: real)
    requires Truth(s) && Core(s) && Send(s, s', k0, size)
    ensures Truth(s')
  {
    var n := |s.calls|;
    assert TaskOk(s, k0);
    forall j | 0 <= j < |s'.calls| ensures CallOk(s', j) {
      if j < n {
        assert CallOk(s, j);
      }
    }
    forall j, m | 0 <= j < |s'.calls| && 0 <= m < |s'.calls| && j != m ensures CallPair(s'.calls, j, m) {
      if j < n && m < n {
        assert CallPair(s.calls, j, m);
      } else if j < n {
        assert TaskCall(s, k0, j);
      } else {
        assert TaskCall(s, k0, m);
      }
    }
    forall id, j | id in s'.queue && 0 <= j < |s'.calls| ensures SlotVenue(s', id, j) {
      if j < n {
        assert SlotVenue(s, id, j);
      }
    }
    forall id | id in s'.queue ensures SlotOrder(s', id) {
      assert SlotOrder(s, id);
    }
    forall k, j | k in s'.tasks && 0 <= j < |s'.calls| ensures TaskCall(s', k, j) {
      if j < n {
        assert TaskCall(s, k, j);
        SendOld(s, s', k0, size, k, j);
      } else {
        assert k != k0 ==> PairOk(s, k, k0) && PairOk(s, k0, k);
        SendNew(s, s', k0, size, k);
      }
    }
  }

  // ------------------------------------------------------------------
  // Steps of one task on one record.
  // ------------------------------------------------------------------

  /** The record keeps its revision and its size, and stays as exposed as it was. */
  predicate SameStage(slot: Slot, after: Slot) {
    && after.revision == slot.revision && after.qty == slot.qty
    && (slot.lifecycle.Accepted? ==> after.lifecycle.Accepted?)
    && (slot.lifecycle.SubmitPending? ==>
          after.lifecycle.Accepted? ||
          (after.lifecycle.SubmitPending? &&
           (slot.submission.ProducerClaimed? || slot.submission.Unknown? ==>
              after.submission.ProducerClaimed? || after.submission.Unknown?)))
  }

  lemma StageTruth(s: State, s': State, id0: nat, k0: nat)
    requires Truth(s) && Keeps(s, s', id0, k0) && id0 in s.queue
    requires id0 in s'.queue ==> SameStage(s.queue[id0], s'.queue[id0]) && SlotOrder(s', id0)
    requires forall i {:trigger TaskCall(s', k0, i)} :: k0 in s'.tasks && 0 <= i < |s.calls| ==> TaskCall(s', k0, i)
    ensures Truth(s')
  {
    forall i | id0 in s'.queue && 0 <= i < |s.calls| ensures SlotVenue(s', id0, i) {
      assert SlotVenue(s, id0, i);
    }
    KeepsTruth(s, s', id0, k0);
  }

  lemma LeavesKeeps(s: State, s': State, k0: nat, slot: Slot)
    requires Core(s) && Leaves(s, s', k0, slot) && slot.lease.None?
    ensures Keeps(s, s', s.tasks[k0].id, k0)
  {
    forall k | k in s'.tasks ensures Holds(s', s.tasks[k]) ==> Holds(s, s.tasks[k]) {
      assert TaskOk(s, k);
    }
  }

  lemma ReleaseTruth(s: State, s': State, k0: nat)
    requires Truth(s) && Core(s) && k0 in s.tasks && Finds(s, s.tasks[k0])
    requires Leaves(s, s', k0, ReleaseSlot(s.queue[s.tasks[k0].id]))
    ensures Truth(s')
  {
    LeavesKeeps(s, s', k0, ReleaseSlot(s.queue[s.tasks[k0].id]));
    assert SlotOrder(s, s.tasks[k0].id);
    StageTruth(s, s', s.tasks[k0].id, k0);
  }

  /** Recording an order that the lookup found for the exact client ID. */
  lemma AcceptTruth(s: State, s': State, k0: nat, order: nat)
    requires Truth(s) && Core(s) && k0 in s.tasks && Found(s, s.tasks[k0].id, s.tasks[k0].snap.revision, order)
    requires s' == Finish(s, k0, slot => Some(AcceptSlot(slot, order)))
    ensures Truth(s')
  {
    FinishCases(s, s', k0, slot => Some(AcceptSlot(slot, order)));
    if Quiet(s, s') {
      QuietTruth(s, s');
    } else {
      LeavesKeeps(s, s', k0, AcceptSlot(s.queue[s.tasks[k0].id], order));
      StageTruth(s, s', s.tasks[k0].id, k0);
    }
  }

  lemma UnknownTruth(s: State, s': State, k0: nat)
    requires Truth(s) && Core(s) && CompleteUnknown(s, s', k0)
    ensures Truth(s')
  {
    FinishCases(s, s', k0, slot => Some(FlagSlot(slot, Unknown)));
    if Quiet(s, s') {
      QuietTruth(s, s');
    } else {
      var t := s.tasks[k0];
      assert TaskOk(s, k0) && SlotOk(s, t.id);
      LeavesKeeps(s, s', k0, FlagSlot(s.queue[t.id], Unknown));
      StageTruth(s, s', t.id, k0);
    }
  }

  /** The record may be marked refused only when its client ID is absent. */
  lemma RefuseTruth(s: State, s': State, k0: nat, remove: bool)
    requires Truth(s) && Core(s)
    requires RefuseEarly(s, s', k0, remove) || CompleteRefused(s, s', k0, remove)
    ensures Truth(s')
  {
    FinishCases(s, s', k0, slot => if remove then None else Some(FlagSlot(slot, Refused)));
    if Quiet(s, s') {
      QuietTruth(s, s');
    } else {
      var t := s.tasks[k0];
      var slot := FlagSlot(s.queue[t.id], Refused);
      assert TaskOk(s, k0) && SlotOk(s, t.id);
      LeavesKeeps(s, s', k0, slot);
      forall i | 0 <= i < |s.calls| ensures SlotVenue(s', t.id, i) {
        assert SlotVenue(s, t.id, i) && TaskCall(s, k0, i);
      }
      KeepsTruth(s, s', t.id, k0);
    }
  }

  lemma ObserveTruth(s: State, s': State, k0: nat)
    requires Truth(s) && Core(s) && WorkerObserve(s, s', k0)
    ensures Truth(s')
  {
    var t := s.tasks[k0];
    var c := s.calls[t.snap.orderId.value];
    FinishCases(s, s', k0, slot => AfterStatus(slot, c));
    if Quiet(s, s') {
      QuietTruth(s, s');
    } else if !c.fate.Done? {
      ReleaseTruth(s, s', k0);
    } else {
      var slot := AfterStatus(s.queue[t.id], c).value;
      assert TaskOk(s, k0) && SlotOk(s, t.id) && SlotOrder(s, t.id);
      assert s.queue[t.id] == t.snap;
      LeavesKeeps(s, s', k0, slot);
      var o := t.snap.orderId.value;
      forall i | 0 <= i < |s.calls| ensures SlotVenue(s', t.id, i) {
        assert SlotVenue(s, t.id, i);
        assert i != o ==> CallPair(s.calls, i, o);
      }
      KeepsTruth(s, s', t.id, k0);
    }
  }

  lemma BeginTruth(s: State, s': State, k0: nat, at: real, lease: real)
    requires Truth(s) && Core(s) && Begin(s, s', k0, at, lease)
    ensures Truth(s')
  {
    var t := s.tasks[k0];
    assert TaskOk(s, k0) && SlotOk(s, t.id) && SlotOrder(s, t.id);
    forall k | k in s'.tasks && k != k0 ensures Holds(s', s.tasks[k]) ==> Holds(s, s.tasks[k]) {
      assert TaskOk(s, k) && PairOk(s, k, k0);
    }
    forall i | 0 <= i < |s.calls| ensures TaskCall(s', k0, i) {
      assert TaskCall(s, k0, i) && SlotVenue(s, t.id, i);
    }
    StageTruth(s, s', t.id, k0);
  }

  /** Skip and WorkerClear: the task moves, the records stay. */
  lemma MoveTruth(s: State, s': State, k0: nat)
    requires Truth(s) && Core(s) && (Skip(s, s', k0) || WorkerClear(s, s', k0))
    ensures Truth(s')
  {
    var t := s.tasks[k0];
    assert TaskOk(s, k0);
    forall i | 0 <= i < |s.calls| ensures TaskCall(s', k0, i) {
      assert TaskCall(s, k0, i);
      assert t.id in s.queue ==> SlotVenue(s, t.id, i);
    }
    forall id | id in s'.queue ensures id != s.next {
      assert SlotOk(s, id);
    }
    KeepsTruth(s, s', s.next, k0);
  }

  lemma ClaimTruth(s: State, s': State, id: nat, until: real)
    requires Truth(s) && Core(s) && WorkerClaim(s, s', id, until)
    ensures Truth(s')
  {
    assert SlotOk(s, id) && SlotOrder(s, id);
    forall k | k in s'.tasks && k != s.next ensures Holds(s', s.tasks[k]) ==> Holds(s, s.tasks[k]) {
      assert TaskOk(s, k);
    }
    StageTruth(s, s', id, s.next);
  }

  lemma MonitorClaimTruth(s: State, s': State, k0: nat, until: real)
    requires Truth(s) && Core(s) && MonitorClaim(s, s', k0, until)
    ensures Truth(s')
  {
    assert SlotOk(s, s.tasks[k0].id) && SlotOrder(s, s.tasks[k0].id);
    forall k | k in s'.tasks && k != k0 ensures Holds(s', s.tasks[k]) ==> Holds(s, s.tasks[k]) {
      assert TaskOk(s, k);
    }
    StageTruth(s, s', s.tasks[k0].id, k0);
  }

  /** A record that awaits its cancel has no order, so neither has the activated one. */
  lemma ActivateTruth(s: State, s': State, k0: nat)
    requires Truth(s) && Core(s) && Activate(s, s', k0)
    ensures Truth(s')
  {
    ActivateCases(s, s', k0);
    if Quiet(s, s') {
      QuietTruth(s, s');
    } else {
      var t := s.tasks[k0];
      assert TaskOk(s, k0) && SlotOk(s, t.id) && SlotOrder(s, t.id);
      forall k | k in s'.tasks && k != k0 ensures Holds(s', s.tasks[k]) ==> Holds(s, s.tasks[k]) {
        assert TaskOk(s, k) && PairOk(s, k, k0);
      }
      forall i | 0 <= i < |s.calls| ensures SlotVenue(s', t.id, i) && TaskCall(s', k0, i) {
        assert SlotVenue(s, t.id, i) && TaskCall(s, k0, i);
      }
      KeepsTruth(s, s', t.id, k0);
    }
  }

  lemma RefreshTruth(s: State, s': State, id: nat, qty: real, kept: Queue)
    requires Truth(s) && Core(s) && RefreshPending(s, s', id, qty, kept)
    ensures Truth(s')
  {
    assert SlotOk(s, id);
    forall k | k in s'.tasks ensures k != s.next && (Holds(s', s.tasks[k]) ==> Holds(s, s.tasks[k])) {
      assert TaskOk(s, k);
    }
    forall i | 0 <= i < |s.calls| ensures SlotVenue(s', id, i) {
      assert SlotVenue(s, id, i);
    }
    KeepsTruth(s, s', id, s.next);
  }

  // ------------------------------------------------------------------
  // Admission and new tasks.
  // ------------------------------------------------------------------

  /** A record under a fresh ID has no call yet. */
  lemma AdmitsTruth(s: State, s': State, id0: nat, k0: nat)
    requires Truth(s) && Core(s) && s'.calls == s.calls && s'.next >= s.next && s'.alive == s.alive
    requires id0 >= s.next && k0 >= s.next
    requires forall id :: id in s'.queue && id != id0 ==> id in s.queue && s'.queue[id] == s.queue[id]
    requires forall k :: k in s'.tasks && k != k0 ==> k in s.tasks && s'.tasks[k] == s.tasks[k]
    requires id0 in s'.queue ==> !s'.queue[id0].lifecycle.Accepted?
    requires k0 in s'.tasks ==> !Dispatching(s'.tasks[k0]) && (s'.tasks[k0].phase.Armed? ==> s'.tasks[k0].id == id0)
    ensures Truth(s')
  {
    forall i | 0 <= i < |s.calls| ensures s.calls[i].id < s.next {
      assert CallOk(s, i);
    }
    forall k | k in s'.tasks && k != k0 ensures Holds(s', s.tasks[k]) ==> Holds(s, s.tasks[k]) {
      assert TaskOk(s, k);
    }
    KeepsTruth(s, s', id0, k0);
  }

  lemma EnqueueTruth(s: State, s': State, step: Step)
    requires Truth(s) && Core(s) && NextStep(s, s', step)
    requires step.StepProducerEnqueue? || step.StepPlainEnqueue? || step.StepMonitorEnqueue? || step.StepMonitorReuse? ||
             step.StepWorkerWatch?
    ensures Truth(s')
  {
    if step.StepProducerEnqueue? {
      AdmitsTruth(s, s', s.next, s.next + 2);
    } else if step.StepPlainEnqueue? {
      forall k | k in s.tasks ensures k != s.next {
        assert TaskOk(s, k);
      }
      AdmitsTruth(s, s', s.next, s.next);
    } else if step.StepMonitorEnqueue? {
      AdmitsTruth(s, s', s.next, s.next + 1);
    } else {
      forall id | id in s.queue ensures id != s.next {
        assert SlotOk(s, id);
      }
      AdmitsTruth(s, s', s.next, s.next);
    }
  }

  /** A recovered order meets no dispatcher that has not sent yet. */
  lemma RecoverMeetsNobody(s: State, s': State, k0: nat, order: nat)
    requires Truth(s) && WorkerRecover(s, s', k0, order)
    ensures forall k: nat :: NotBegun(s, s.tasks[k0].id, s.tasks[k0].snap.revision, k)
    ensures Finds(s, s.tasks[k0]) ==> !s.queue[s.tasks[k0].id].lifecycle.AwaitingCancel?
  {
    forall k: nat ensures NotBegun(s, s.tasks[k0].id, s.tasks[k0].snap.revision, k) {
      if Live(s, k) {
        assert TaskCall(s, k, order);
      }
    }
    if Finds(s, s.tasks[k0]) {
      assert SlotVenue(s, s.tasks[k0].id, order);
    }
  }
}
