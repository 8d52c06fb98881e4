/** The steps that move quantities between records, revisions and orders. */
module OutboxSettling {
  import opened Options
  import opened OutboxRecord
  import opened OutboxProtocol
  import opened OutboxInvariant
  import opened OutboxVenue
  import opened OutboxLeases
  import opened OutboxDispatch
  import opened OutboxBooks
  import opened Sums

  /** One record changes; calls, original orders and all other records stay. */
  ghost predicate OneRecord(s: State, s': State, id0: nat) {
    && s'.calls == s.calls && s'.originals == s.originals && s'.next >= s.next && s'.alive == s.alive
    && (forall id :: id in s'.queue && id != id0 ==> id in s.queue && s'.queue[id] == s.queue[id])
    && (forall id :: id in s.asked ==> id in s'.asked)
    && (forall id :: id in s'.asked && id != id0 ==> id in s.asked && s'.asked[id] == s.asked[id])
    && (forall id :: id != id0 ==> (id in s'.replacing <==> id in s.replacing))
    && (forall id :: id in s'.replacing && id in s.replacing ==> s'.replacing[id] == s.replacing[id])
    && (forall id :: id in s.replacing ==> id in s'.replacing)
  }

  /** The task is old and does not concern the changed record between begin and
      its call, or it is new and remembers its record. */
  ghost predicate SettledTask(s: State, s': State, id0: nat, k: nat)
    requires k in s'.tasks
  {
    var t := s'.tasks[k];
    && Remembers(s', t.id, t.snap)
    && (Live(s', k) && t.phase.Begun? ==> k in s.tasks && s.tasks[k] == t && t.id != id0)
  }

  lemma OneRecordBooks(s: State, s': State, id0: nat)
    requires Books(s) && OneRecord(s, s', id0)
    requires id0 in s'.queue ==> SlotBooks(s', id0) && SlotCleared(s', id0)
    requires id0 in s'.asked ==> AskedOk(s', id0)
    requires forall k {:trigger SettledTask(s, s', id0, k)} :: k in s'.tasks ==> SettledTask(s, s', id0, k)
    requires Cleared(s', id0) || forall i :: 0 <= i < |s.calls| ==> s.calls[i].id != id0
    requires forall id :: id0 in s'.queue && id in s'.queue && id != id0 ==>
               SingleReplacement(s', id0, id) && SingleReplacement(s', id, id0)
    ensures Books(s')
  {
    forall id | id in s'.queue ensures SlotBooks(s', id) && SlotCleared(s', id) {
      if id != id0 {
        assert SlotBooks(s, id);
      }
    }
    forall id | id in s'.asked ensures AskedOk(s', id) {
      if id != id0 {
        assert AskedOk(s, id);
      }
    }
    forall o | o in s'.originals ensures OriginalOk(s', o) {
      assert OriginalOk(s, o);
    }
    forall k | k in s'.tasks ensures TaskBooks(s', k) {
      assert SettledTask(s, s', id0, k);
      if k in s.tasks {
        assert TaskBooks(s, k);
      }
    }
    forall i | 0 <= i < |s'.calls| ensures CallCleared(s', i) {
      assert CallCleared(s, i);
    }
    forall id, jd | id in s'.queue && jd in s'.queue && id != jd ensures SingleReplacement(s', id, jd) {
      if id != id0 && jd != id0 {
        assert SingleReplacement(s, id, jd);
      }
    }
  }

  /** Only the given record of the queue is a pre-cancel replacement afterwards. */
  lemma NotAwaitingSingle(s: State, id0: nat)
    requires id0 in s.queue ==> !s.queue[id0].lifecycle.AwaitingCancel?
    ensures forall id :: id0 in s.queue && id in s.queue && id != id0 ==>
              SingleReplacement(s, id0, id) && SingleReplacement(s, id, id0)
  {
  }

  /** The terminal fill of the accepted order becomes the delivered quantity. */
  lemma RemainderSum(s: State, id: nat, order: nat)
    requires Books(s) && Truth(s) && id in s.queue && s.queue[id].qty > 0.0
    requires Found(s, id, s.queue[id].revision, order) && s.calls[order].fate.Done?
    ensures s.calls[order].filled <= s.queue[id].qty
    ensures Sum(s.calls, Below(id, s.queue[id].revision + 1)) == s.queue[id].delivered + s.calls[order].filled
  {
    var r := s.queue[id].revision;
    assert SlotBooks(s, id) && SlotVenue(s, id, order) && CallOk(s, order);
    forall i | 0 <= i < |s.calls| && i != order ensures Below(id, r + 1)(s.calls[i]) == Below(id, r)(s.calls[i]) {
      assert SlotVenue(s, id, i) && CallPair(s.calls, i, order);
    }
    SumOne(s.calls, order, Below(id, r + 1), Below(id, r));
  }

  lemma RemainderRecordBooks(s: State, s': State, k0: nat, slot: Slot)
    requires Books(s) && Core(s) && Truth(s) && WorkerObserve(s, s', k0) && Leaves(s, s', k0, slot)
    requires s.calls[s.tasks[k0].snap.orderId.value].fate.Done?
    requires RemainderSlot(s.queue[s.tasks[k0].id], s.calls[s.tasks[k0].snap.orderId.value].filled) == Some(slot)
    ensures SlotBooks(s', s.tasks[k0].id) && SlotCleared(s', s.tasks[k0].id) && Cleared(s', s.tasks[k0].id)
  {
    var t := s.tasks[k0];
    var order := t.snap.orderId.value;
    assert TaskOk(s, k0) && SlotOk(s, t.id) && SlotOrder(s, t.id) && SlotBooks(s, t.id);
    assert CallOk(s, order) && CallCleared(s, order);
    RemainderSum(s, t.id, order);
  }

  lemma ObserveOther(s: State, s': State, k0: nat, slot: Slot, k: nat)
    requires Leaves(s, s', k0, slot) && Acting(s, k0, Worker, Claimed) && s.tasks[k0].snap.lifecycle.Accepted?
    requires k in s'.tasks && TaskOk(s, k0) && TaskOk(s, k) && TaskBooks(s, k)
    ensures SettledTask(s, s', s.tasks[k0].id, k)
  {
  }

  lemma ObserveBooks(s: State, s': State, k0: nat)
    requires Books(s) && Core(s) && Truth(s) && WorkerObserve(s, s', k0)
    ensures Books(s')
  {
    var t := s.tasks[k0];
    var c := s.calls[t.snap.orderId.value];
    var f := slot => AfterStatus(slot, c);
    FinishCases(s, s', k0, f);
    if Quiet(s, s') {
      QuietBooks(s, s');
    } else if !c.fate.Done? {
      FinishBooks(s, s', k0, f);
    } else {
      RemainderRecordBooks(s, s', k0, s'.queue[t.id]);
      assert AskedOk(s, t.id) && TaskOk(s, k0) && SlotBooks(s, t.id);
      forall k | k in s'.tasks ensures SettledTask(s, s', t.id, k) {
        assert TaskBooks(s, k) && TaskOk(s, k);
        ObserveOther(s, s', k0, s'.queue[t.id], k);
      }
      NotAwaitingSingle(s', t.id);
      OneRecordBooks(s, s', t.id);
    }
  }

  /** An awaiting record has sent nothing, so the activated quantity is all of it. */
  lemma ActivateRecord(s: State, s': State, k0: nat)
    requires Books(s) && Core(s) && Truth(s) && Activate(s, s', k0) && !Quiet(s, s')
    ensures SlotBooks(s', s.tasks[k0].id) && SlotCleared(s', s.tasks[k0].id) && AskedOk(s', s.tasks[k0].id)
  {
    ActivateCases(s, s', k0);
    var t := s.tasks[k0];
    assert TaskOk(s, k0) && SlotOk(s, t.id) && SlotBooks(s, t.id) && TaskBooks(s, k0);
    assert OriginalOk(s, s.replacing[t.id]);
    forall i | 0 <= i < |s.calls| && ForRevision(s.calls[i], t.id, s.queue[t.id].revision) ensures !Solid(s.calls[i]) {
      assert SlotVenue(s, t.id, i);
    }
    AbsentSum(s, t.id);
    assert AskedOk(s, t.id);
  }

  /** Nobody is about to call for a record that awaits its cancel. */
  lemma ActivateOther(s: State, s': State, k0: nat, qty: real, k: nat)
    requires Activates(s, s', k0, qty) && k in s'.tasks && TaskOk(s, k) && TaskBooks(s, k)
    requires s'.originals == s.originals
    ensures SettledTask(s, s', s.tasks[k0].id, k)
  {
  }

  lemma ActivateBooks(s: State, s': State, k0: nat)
    requires Books(s) && Core(s) && Truth(s) && Activate(s, s', k0)
    ensures Books(s')
  {
    ActivateCases(s, s', k0);
    if Quiet(s, s') {
      assert SlotOk(s, s.tasks[k0].id);
      QuietBooks(s, s');
    } else {
      var t := s.tasks[k0];
      ActivateRecord(s, s', k0);
      assert SlotOk(s, t.id) && SlotBooks(s, t.id);
      forall k | k in s'.tasks ensures SettledTask(s, s', t.id, k) {
        assert TaskBooks(s, k) && TaskOk(s, k);
        ActivateOther(s, s', k0, ReplacementQty(s, t), k);
      }
      NotAwaitingSingle(s', t.id);
      OneRecordBooks(s, s', t.id);
    }
  }

  lemma RefreshBooks(s: State, s': State, id: nat, qty: real, kept: Queue)
    requires Books(s) && Core(s) && Truth(s) && RefreshPending(s, s', id, qty, kept)
    ensures Books(s')
  {
    assert SlotOk(s, id) && SlotBooks(s, id) && AskedOk(s, id);
    forall i | 0 <= i < |s.calls| && ForRevision(s.calls[i], id, s.queue[id].revision) ensures !Solid(s.calls[i]) {
      assert SlotVenue(s, id, i);
    }
    AbsentSum(s, id);
    forall k | k in s'.tasks ensures SettledTask(s, s', id, k) {
      assert TaskBooks(s, k) && TaskOk(s, k);
    }
    NotAwaitingSingle(s', id);
    OneRecordBooks(s, s', id);
  }

  /** A record under a fresh ID: nothing has been sent for it. */
  lemma FreshBooks(s: State, s': State, slot: Slot)
    requires Books(s) && Core(s) && Truth(s) && OneRecord(s, s', s.next)
    requires s.next in s'.queue && s'.queue[s.next] == slot && s.next in s'.asked && s'.asked[s.next] == slot.total
    requires s'.next > s.next && slot.revision == 0 && slot.delivered == 0.0 && slot.total > 0.0 && SlotCleared(s', s.next)
    requires forall k {:trigger SettledTask(s, s', s.next, k)} :: k in s'.tasks ==> SettledTask(s, s', s.next, k)
    requires forall id :: id in s'.queue && id != s.next ==>
               SingleReplacement(s', s.next, id) && SingleReplacement(s', id, s.next)
    ensures Books(s')
  {
    forall i | 0 <= i < |s.calls| ensures s.calls[i].id != s.next {
      assert CallOk(s, i);
    }
    SumZero(s.calls, Of(s.next));
    SumZero(s.calls, Below(s.next, 0));
    OneRecordBooks(s, s', s.next);
  }

  /** Tasks of other records do not notice a new one. */
  lemma FreshOther(s: State, s': State, k: nat)
    requires OneRecord(s, s', s.next) && k in s.tasks && k in s'.tasks && s'.tasks[k] == s.tasks[k]
    requires TaskOk(s, k) && TaskBooks(s, k)
    ensures SettledTask(s, s', s.next, k)
  {
  }

  /** Admission stores one record under a fresh ID and evicts others. */
  lemma FreshRecord(s: State, s': State, slot: Slot, kept: Queue)
    requires Books(s) && Core(s) && SafeRemoval(s.queue, kept)
    requires s'.queue == kept[s.next := slot] && s'.asked == s.asked[s.next := slot.qty]
    requires s'.calls == s.calls && s'.originals == s.originals && s'.alive == s.alive && s'.next > s.next
    requires s'.replacing == s.replacing || (s.next in s'.replacing && s'.replacing == s.replacing[s.next := s'.replacing[s.next]])
    ensures OneRecord(s, s', s.next) && s.next !in s.queue && s.next !in s.replacing
  {
    KeptSlots(s, kept);
    forall id | id in s.asked ensures id < s.next {
      assert AskedOk(s, id);
    }
    assert s.next in s.queue ==> SlotOk(s, s.next);
  }

  lemma OldTasks(s: State, s': State)
    requires Books(s) && Core(s) && OneRecord(s, s', s.next)
    ensures forall k {:trigger SettledTask(s, s', s.next, k)} ::
              k in s.tasks && k in s'.tasks && s'.tasks[k] == s.tasks[k] ==> SettledTask(s, s', s.next, k)
  {
    forall k | k in s.tasks && k in s'.tasks && s'.tasks[k] == s.tasks[k] ensures SettledTask(s, s', s.next, k) {
      assert TaskBooks(s, k) && TaskOk(s, k);
      FreshOther(s, s', k);
    }
  }

  lemma ProducerEnqueueBooks(s: State, s': State, process: nat, slot: Slot, until: real, kept: Queue)
    requires Books(s) && Core(s) && Truth(s) && ProducerEnqueue(s, s', process, slot, until, kept)
    ensures Books(s')
  {
    FreshRecord(s, s', s'.queue[s.next], kept);
    OldTasks(s, s');
    NotAwaitingSingle(s', s.next);
    FreshBooks(s, s', s'.queue[s.next]);
  }

  lemma PlainEnqueueBooks(s: State, s': State, slot: Slot, kept: Queue)
    requires Books(s) && Core(s) && Truth(s) && PlainEnqueue(s, s', slot, kept)
    ensures Books(s')
  {
    FreshRecord(s, s', slot, kept);
    OldTasks(s, s');
    NotAwaitingSingle(s', s.next);
    FreshBooks(s, s', slot);
  }

  /** The dedup test makes the new replacement the only one of its key. */
  lemma OnlyReplacement(s: State, s': State, process: nat, slot: Slot, kept: Queue, id: nat)
    requires MonitorEnqueue(s, s', process, slot, kept) && id in s'.queue && id != s.next
    ensures SingleReplacement(s', s.next, id) && SingleReplacement(s', id, s.next)
  {
    assert !SameReplacement(s.queue, id, slot.standsFor.value);
  }

  lemma MonitorEnqueueBooks(s: State, s': State, process: nat, slot: Slot, kept: Queue)
    requires Books(s) && Core(s) && Truth(s) && MonitorEnqueue(s, s', process, slot, kept)
    ensures Books(s')
  {
    FreshRecord(s, s', slot, kept);
    OldTasks(s, s');
    forall id | id in s'.queue && id != s.next ensures SingleReplacement(s', s.next, id) && SingleReplacement(s', id, s.next) {
      OnlyReplacement(s, s', process, slot, kept, id);
    }
    FreshBooks(s, s', slot);
  }

  // ------------------------------------------------------------------
  // The replaced orders.
  // ------------------------------------------------------------------

  /** A canceled order is final, so what it left stays free. */
  lemma OriginalsBooks(s: State, s': State, order: nat)
    requires Books(s)
    requires (exists size :: OriginalOpens(s, s', order, size)) ||
             (exists filled, canceled :: OriginalMoves(s, s', order, filled, canceled))
    ensures Books(s')
  {
    forall id | id in s'.queue ensures SlotBooks(s', id) && SlotCleared(s', id) {
      assert SlotBooks(s, id);
    }
    forall id | id in s'.asked ensures AskedOk(s', id) {
      assert AskedOk(s, id);
    }
    forall o | o in s'.originals ensures OriginalOk(s', o) {
      assert o in s.originals ==> OriginalOk(s, o);
    }
    forall k | k in s'.tasks ensures TaskBooks(s', k) {
      assert TaskBooks(s, k);
    }
    forall i | 0 <= i < |s'.calls| ensures CallCleared(s', i) {
      assert CallCleared(s, i);
    }
    forall id, jd | id in s'.queue && jd in s'.queue && id != jd ensures SingleReplacement(s', id, jd) {
      assert SingleReplacement(s, id, jd);
    }
  }
}
