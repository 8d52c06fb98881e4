/** The steps that take a lease, admit a record or move a task towards its
    provider call keep the lease invariant. */
module OutboxDispatch {
  import opened Options
  import opened OutboxRecord
  import opened OutboxProtocol
  import opened OutboxInvariant

  // ------------------------------------------------------------------
  // Begin and the provider call.
  // ------------------------------------------------------------------

  lemma BeginOwn(s: State, s': State, k0: nat, at: real, lease: real)
    requires Begin(s, s', k0, at, lease) && RestOk(s) && TaskOk(s, k0) && SlotOk(s, s.tasks[k0].id)
    ensures TaskOk(s', k0) && SlotOk(s', s.tasks[k0].id)
  {
  }

  lemma BeginBeside(s: State, s': State, k0: nat, at: real, lease: real, k: nat)
    requires Begin(s, s', k0, at, lease) && RestOk(s) && k in s.tasks && k != k0
    requires TaskOk(s, k0) && TaskOk(s, k) && PairOk(s, k0, k) && PairOk(s, k, k0)
    ensures Beside(s, s', k0, k)
  {
  }

  lemma BeginCore(s: State, s': State, k0: nat, at: real, lease: real)
    requires Core(s) && Begin(s, s', k0, at, lease)
    ensures Core(s')
  {
    assert TaskOk(s, k0) && SlotOk(s, s.tasks[k0].id);
    BeginOwn(s, s', k0, at, lease);
    forall id | id in s'.queue ensures SlotOk(s', id) {
      assert SlotOk(s, id);
    }
    forall k | k in s'.tasks && k != k0 ensures Beside(s, s', k0, k) {
      assert TaskOk(s, k) && PairOk(s, k0, k) && PairOk(s, k, k0);
      BeginBeside(s, s', k0, at, lease, k);
    }
    LocalCore(s, s', k0);
  }

  /** The task moves on without touching the queue. */
  predicate Moves(s: State, s': State, k0: nat, phase: Phase, call: Option<nat>, calls: seq<Call>) {
    && Live(s, k0)
    && (|| (s.tasks[k0].phase.Begun? && phase.Sent?)
        || (MayBegin(s.tasks[k0]) && phase.Armed? && s.plan.None? && s.tasks[k0].snap.lifecycle.SubmitPending?))
    && s' == s.(calls := calls, tasks := s.tasks[k0 := s.tasks[k0].(phase := phase, call := call)])
  }

  lemma MovesBeside(s: State, s': State, k0: nat, phase: Phase, call: Option<nat>, calls: seq<Call>, k: nat)
    requires Moves(s, s', k0, phase, call, calls) && RestOk(s) && k in s.tasks && k != k0
    requires TaskOk(s, k0) && TaskOk(s, k) && PairOk(s, k0, k) && PairOk(s, k, k0)
    ensures Beside(s, s', k0, k)
  {
  }

  lemma MovesCore(s: State, s': State, k0: nat, phase: Phase, call: Option<nat>, calls: seq<Call>)
    requires Core(s) && Moves(s, s', k0, phase, call, calls)
    ensures Core(s')
  {
    assert TaskOk(s, k0);
    forall id | id in s'.queue ensures SlotOk(s', id) {
      assert SlotOk(s, id);
    }
    forall k | k in s'.tasks && k != k0 ensures Beside(s, s', k0, k) {
      assert TaskOk(s, k) && PairOk(s, k0, k) && PairOk(s, k, k0);
      MovesBeside(s, s', k0, phase, call, calls, k);
    }
    LocalCore(s, s', k0);
  }

  // ------------------------------------------------------------------
  // The worker's pass.
  // ------------------------------------------------------------------

  lemma ScanTask(s: State, s': State, process: nat, start: real, ids: set<nat>, k: nat)
    requires WorkerScan(s, s', process, start, ids) && k in s.tasks && TaskOk(s, k)
    ensures TaskOk(s', k)
  {
    if Live(s, k) && Dispatching(s.tasks[k]) && s.tasks[k].id in ids {
      assert Plannable(s, s.queue[s.tasks[k].id]);
    }
  }

  lemma ScanCore(s: State, s': State, process: nat, start: real, ids: set<nat>)
    requires Core(s) && WorkerScan(s, s', process, start, ids)
    ensures Core(s')
  {
    forall id | id in s'.queue ensures SlotOk(s', id) {
      assert SlotOk(s, id);
    }
    forall k | k in s'.tasks ensures TaskOk(s', k) {
      assert TaskOk(s, k);
      ScanTask(s, s', process, start, ids, k);
    }
    forall k, m | k in s'.tasks && m in s'.tasks && k != m ensures PairOk(s', k, m) {
      assert PairOk(s, k, m);
    }
  }

  lemma ClaimOwn(s: State, s': State, id: nat, until: real)
    requires WorkerClaim(s, s', id, until) && RestOk(s) && SlotOk(s, id)
    ensures TaskOk(s', s.next) && SlotOk(s', id)
  {
  }

  lemma ClaimBeside(s: State, s': State, id: nat, until: real, k: nat)
    requires WorkerClaim(s, s', id, until) && RestOk(s) && SlotOk(s, id) && k in s.tasks && TaskOk(s, k)
    ensures Beside(s, s', s.next, k)
  {
  }

  lemma ClaimCore(s: State, s': State, id: nat, until: real)
    requires Core(s) && WorkerClaim(s, s', id, until)
    ensures Core(s')
  {
    assert SlotOk(s, id);
    ClaimOwn(s, s', id, until);
    forall i | i in s'.queue ensures SlotOk(s', i) {
      assert SlotOk(s, i);
    }
    forall k | k in s'.tasks && k != s.next ensures Beside(s, s', s.next, k) {
      assert TaskOk(s, k);
      ClaimBeside(s, s', id, until, k);
    }
    LocalCore(s, s', s.next);
  }

  // ------------------------------------------------------------------
  // The monitor.
  // ------------------------------------------------------------------

  lemma MonitorClaimOwn(s: State, s': State, k0: nat, until: real)
    requires MonitorClaim(s, s', k0, until) && RestOk(s) && TaskOk(s, k0) && SlotOk(s, s.tasks[k0].id)
    ensures TaskOk(s', k0) && SlotOk(s', s.tasks[k0].id)
  {
  }

  lemma MonitorClaimBeside(s: State, s': State, k0: nat, until: real, k: nat)
    requires MonitorClaim(s, s', k0, until) && RestOk(s) && k in s.tasks && k != k0
    requires TaskOk(s, k0) && TaskOk(s, k) && PairOk(s, k0, k) && PairOk(s, k, k0) && SlotOk(s, s.tasks[k0].id)
    ensures Beside(s, s', k0, k)
  {
  }

  lemma MonitorClaimCore(s: State, s': State, k0: nat, until: real)
    requires Core(s) && MonitorClaim(s, s', k0, until)
    ensures Core(s')
  {
    assert TaskOk(s, k0) && SlotOk(s, s.tasks[k0].id);
    MonitorClaimOwn(s, s', k0, until);
    forall id | id in s'.queue ensures SlotOk(s', id) {
      assert SlotOk(s, id);
    }
    forall k | k in s'.tasks && k != k0 ensures Beside(s, s', k0, k) {
      assert TaskOk(s, k) && PairOk(s, k0, k) && PairOk(s, k, k0);
      MonitorClaimBeside(s, s', k0, until, k);
    }
    LocalCore(s, s', k0);
  }

  /** Activation that goes on to submit. */
  predicate Activates(s: State, s': State, k0: nat, qty: real) {
    && (Acting(s, k0, Monitor, Claimed) || (Acting(s, k0, Worker, Claimed) && s.plan.None?))
    && var t := s.tasks[k0];
    && Finds(s, t) && MayActivate(s.queue[t.id], qty) && qty > 0.0
    && var slot := ActivateSlot(s.queue[t.id], qty);
    && s' == s.(queue := s.queue[t.id := slot], asked := s.asked[t.id := qty], activated := s.activated + {t.id},
                tasks := s.tasks[k0 := t.(phase := if t.role.Monitor? then Armed else Claimed, snap := slot)])
  }

  lemma ActivateCases(s: State, s': State, k0: nat)
    requires Activate(s, s', k0) && RestOk(s)
    ensures Quiet(s, s') || Activates(s, s', k0, ReplacementQty(s, s.tasks[k0]))
  {
  }

  lemma ActivateOwn(s: State, s': State, k0: nat, qty: real)
    requires Activates(s, s', k0, qty) && RestOk(s) && TaskOk(s, k0) && SlotOk(s, s.tasks[k0].id)
    ensures TaskOk(s', k0) && SlotOk(s', s.tasks[k0].id)
  {
  }

  lemma ActivateBeside(s: State, s': State, k0: nat, qty: real, k: nat)
    requires Activates(s, s', k0, qty) && RestOk(s) && k in s.tasks && k != k0
    requires TaskOk(s, k0) && TaskOk(s, k) && PairOk(s, k0, k) && PairOk(s, k, k0) && SlotOk(s, s.tasks[k0].id)
    ensures Beside(s, s', k0, k)
  {
  }

  lemma ActivateCore(s: State, s': State, k0: nat)
    requires Core(s) && Activate(s, s', k0)
    ensures Core(s')
  {
    ActivateCases(s, s', k0);
    if Quiet(s, s') {
      QuietCore(s, s');
    } else {
      var qty := ReplacementQty(s, s.tasks[k0]);
      assert TaskOk(s, k0) && SlotOk(s, s.tasks[k0].id);
      ActivateOwn(s, s', k0, qty);
      forall id | id in s'.queue ensures SlotOk(s', id) {
        assert SlotOk(s, id);
      }
      forall k | k in s'.tasks && k != k0 ensures Beside(s, s', k0, k) {
        assert TaskOk(s, k) && PairOk(s, k0, k) && PairOk(s, k, k0);
        ActivateBeside(s, s', k0, qty, k);
      }
      LocalCore(s, s', k0);
    }
  }

  // ------------------------------------------------------------------
  // Admission and new tasks.
  // ------------------------------------------------------------------

  /** Stored records survive or are evicted; a new one may appear under a fresh
      ID, and one fresh task with it. */
  ghost predicate Admits(s: State, s': State, k0: nat) {
    && Local(s, s', k0) && k0 >= s.next && k0 < s'.next && s'.plan == s.plan
    && (forall id :: id in s'.queue && id < s.next ==> id in s.queue && s'.queue[id] == s.queue[id])
    && (forall id :: id in s.replacing ==> id in s'.replacing && s'.replacing[id] == s.replacing[id])
    && (forall id :: id in s'.replacing && id < s.next ==> id in s.replacing)
    && (forall id :: id in s'.queue && id >= s.next ==> SlotOk(s', id))
    && (k0 in s'.tasks ==>
          var u := s'.tasks[k0];
          && TaskOk(s', k0) && !Dispatching(u)
          && (Holding(u) ==> u.snap.lease.value.token >= s.next)
          && (MayBegin(u) ==> u.id >= s.next)
          && (Probing(u) ==> MonitorIdle(s))
          && (u.role.Monitor? ==> Probing(u)))
  }

  /** A probing new task looks at no record of another monitor task. */
  predicate Elsewhere(s: State, s': State, k0: nat, k: nat) {
    (k0 in s'.tasks && Probing(s'.tasks[k0]) && Live(s, k) && s.tasks[k].role.Monitor?) ==> s'.tasks[k0].id != s.tasks[k].id
  }

  lemma AdmitsBeside(s: State, s': State, k0: nat, k: nat)
    requires Admits(s, s', k0) && RestOk(s) && k in s'.tasks && k != k0 && TaskOk(s, k)
    requires Elsewhere(s, s', k0, k)
    ensures Beside(s, s', k0, k)
  {
    if Live(s, k) {}
  }

  lemma AdmitsCore(s: State, s': State, k0: nat)
    requires Core(s) && Admits(s, s', k0)
    requires forall k {:trigger Elsewhere(s, s', k0, k)} :: Elsewhere(s, s', k0, k)
    ensures Core(s')
  {
    forall id | id in s'.queue ensures SlotOk(s', id) {
      if id < s.next {
        assert SlotOk(s, id);
      }
    }
    forall k | k in s'.tasks && k != k0 ensures Beside(s, s', k0, k) {
      assert TaskOk(s, k) && Elsewhere(s, s', k0, k);
      AdmitsBeside(s, s', k0, k);
    }
    LocalCore(s, s', k0);
  }

  lemma KeptSlots(s: State, kept: Queue)
    requires Core(s) && SafeRemoval(s.queue, kept)
    ensures forall id :: id in kept ==> id < s.next && id in s.queue && kept[id] == s.queue[id]
  {
    forall id | id in kept ensures id < s.next {
      assert SlotOk(s, id);
    }
  }

  lemma ProducerAdmits(s: State, s': State, process: nat, slot: Slot, until: real, kept: Queue)
    requires Core(s) && ProducerEnqueue(s, s', process, slot, until, kept)
    ensures Admits(s, s', s.next + 2)
  {
    KeptSlots(s, kept);
  }

  lemma ProducerEnqueueCore(s: State, s': State, process: nat, slot: Slot, until: real, kept: Queue)
    requires Core(s) && ProducerEnqueue(s, s', process, slot, until, kept)
    ensures Core(s')
  {
    ProducerAdmits(s, s', process, slot, until, kept);
    AdmitsCore(s, s', s.next + 2);
  }

  lemma PlainEnqueueCore(s: State, s': State, slot: Slot, kept: Queue)
    requires Core(s) && PlainEnqueue(s, s', slot, kept)
    ensures Core(s')
  {
    KeptSlots(s, kept);
    forall k | k in s.tasks ensures k != s.next {
      assert TaskOk(s, k);
    }
    AdmitsCore(s, s', s.next);
  }

  lemma MonitorEnqueueCore(s: State, s': State, process: nat, slot: Slot, kept: Queue)
    requires Core(s) && MonitorEnqueue(s, s', process, slot, kept)
    ensures Core(s')
  {
    KeptSlots(s, kept);
    var added := s.next + 1;
    forall k ensures Elsewhere(s, s', added, k) {
      if Live(s, k) {
        assert TaskOk(s, k);
      }
    }
    AdmitsCore(s, s', added);
  }

  /** A record still awaiting its cancel is not being dispatched by anyone. */
  lemma MonitorReuseCore(s: State, s': State, process: nat, id: nat)
    requires Core(s) && MonitorReuse(s, s', process, id)
    ensures Core(s')
  {
    assert SlotOk(s, id);
    forall k ensures Elsewhere(s, s', s.next, k) {
      if Live(s, k) && s.tasks[k].role.Monitor? {
        assert TaskOk(s, k) && s.tasks[k].phase.Sent?;
      }
    }
    KeptSlots(s, s.queue);
    AdmitsCore(s, s', s.next);
  }

  lemma WorkerWatchCore(s: State, s': State, id: nat, process: nat)
    requires Core(s) && WorkerWatch(s, s', id, process)
    ensures Core(s')
  {
    assert SlotOk(s, id);
    KeptSlots(s, s.queue);
    AdmitsCore(s, s', s.next);
  }

  lemma RefreshTask(s: State, s': State, id: nat, qty: real, kept: Queue, k: nat)
    requires RefreshPending(s, s', id, qty, kept) && RestOk(s) && k in s.tasks && TaskOk(s, k)
    ensures TaskOk(s', k) && (Holds(s', s.tasks[k]) ==> Holds(s, s.tasks[k]))
  {
  }

  lemma RefreshCore(s: State, s': State, id: nat, qty: real, kept: Queue)
    requires Core(s) && RefreshPending(s, s', id, qty, kept)
    ensures Core(s')
  {
    assert SlotOk(s, id);
    forall i | i in s'.queue ensures SlotOk(s', i) {
      assert SlotOk(s, i);
    }
    forall k | k in s.tasks ensures k != s.next {
      assert TaskOk(s, k);
    }
    forall k | k in s'.tasks && k != s.next ensures Beside(s, s', s.next, k) {
      assert TaskOk(s, k);
      RefreshTask(s, s', id, qty, kept, k);
    }
    LocalCore(s, s', s.next);
  }
}
