/** Every step keeps the lease invariant.  One lemma per kind of step, each
    checked for one other task at a time. */
module OutboxLeases {
  import opened Options
  import opened OutboxRecord
  import opened OutboxProtocol
  import opened OutboxInvariant

  // ------------------------------------------------------------------
  // Finishing a task.
  // ------------------------------------------------------------------

  /** The record left behind by a task that finds it. */
  predicate Leaves(s: State, s': State, k0: nat, slot: Slot) {
    && k0 in s.tasks && Finds(s, s.tasks[k0])
    && s' == s.(queue := s.queue[s.tasks[k0].id := slot], tasks := s.tasks - {k0})
  }

  lemma FinishCases(s: State, s': State, k0: nat, f: Slot -> Option<Slot>)
    requires k0 in s.tasks && s' == Finish(s, k0, f) && RestOk(s)
    ensures Quiet(s, s') || (Finds(s, s.tasks[k0]) && f(s.queue[s.tasks[k0].id]).Some? &&
                             Leaves(s, s', k0, f(s.queue[s.tasks[k0].id]).value))
  {
  }

  /** The left record has no lease and is otherwise well formed. */
  predicate Freed(s: State, id: nat, slot: Slot) {
    id in s.queue && slot.lease.None? && slot.standsFor == s.queue[id].standsFor && ValidSlot(slot, s.next)
  }

  lemma LeavesCore(s: State, s': State, k0: nat, slot: Slot)
    requires Core(s) && Leaves(s, s', k0, slot) && Freed(s, s.tasks[k0].id, slot)
    requires forall k {:trigger Marked(s', k)} :: k in s'.tasks ==> Marked(s', k) && Planned(s', k)
    ensures Core(s')
  {
    forall id | id in s'.queue ensures SlotOk(s', id) {
      assert SlotOk(s, id);
    }
    forall k | k in s'.tasks && k != k0 ensures Beside(s, s', k0, k) {
      assert TaskOk(s, k) && Marked(s', k);
    }
    LocalCore(s, s', k0);
  }

  /** Letting go of the lease changes no mark; the planning worker lets go of nothing. */
  lemma ReleaseBeside(s: State, s': State, k0: nat, k: nat)
    requires RestOk(s) && k0 in s.tasks && k in s.tasks && k != k0 && Finds(s, s.tasks[k0])
    requires Live(s, k0) && (Acting(s, k0, Monitor, Claimed) || s.plan.None?)
    requires Leaves(s, s', k0, ReleaseSlot(s.queue[s.tasks[k0].id]))
    requires TaskOk(s, k0) && TaskOk(s, k) && PairOk(s, k0, k) && PairOk(s, k, k0)
    ensures Marked(s', k) && Planned(s', k)
  {
  }

  lemma ReleaseCore(s: State, s': State, k0: nat)
    requires Core(s) && k0 in s.tasks && Finds(s, s.tasks[k0])
    requires Live(s, k0) && (Acting(s, k0, Monitor, Claimed) || s.plan.None?)
    requires Leaves(s, s', k0, ReleaseSlot(s.queue[s.tasks[k0].id]))
    ensures Core(s')
  {
    forall k | k in s'.tasks ensures Marked(s', k) && Planned(s', k) {
      assert TaskOk(s, k0) && TaskOk(s, k) && PairOk(s, k0, k) && PairOk(s, k, k0);
      ReleaseBeside(s, s', k0, k);
    }
    assert SlotOk(s, s.tasks[k0].id);
    LeavesCore(s, s', k0, ReleaseSlot(s.queue[s.tasks[k0].id]));
  }

  /** A task that may begin, or has sent, is the only one to speak for its
      revision; so it may set the flag and record the order. */
  predicate Speaks(s: State, k: nat) {
    Live(s, k) && (MayBegin(s.tasks[k]) || s.tasks[k].phase.Sent?)
  }

  lemma SpeakerBeside(s: State, s': State, k0: nat, slot: Slot, k: nat)
    requires RestOk(s) && k in s.tasks && k != k0 && Leaves(s, s', k0, slot) && Speaks(s, k0)
    requires slot.revision == s.queue[s.tasks[k0].id].revision && slot.lease.None?
    requires TaskOk(s, k0) && TaskOk(s, k) && PairOk(s, k0, k) && PairOk(s, k, k0)
    ensures Marked(s', k) && Planned(s', k)
  {
  }

  lemma SpeakerCore(s: State, s': State, k0: nat, slot: Slot)
    requires Core(s) && Leaves(s, s', k0, slot) && Speaks(s, k0)
    requires slot.revision == s.queue[s.tasks[k0].id].revision && Freed(s, s.tasks[k0].id, slot)
    ensures Core(s')
  {
    forall k | k in s'.tasks ensures Marked(s', k) && Planned(s', k) {
      assert TaskOk(s, k0) && TaskOk(s, k) && PairOk(s, k0, k) && PairOk(s, k, k0);
      SpeakerBeside(s, s', k0, slot, k);
    }
    LeavesCore(s, s', k0, slot);
  }

  /** The terminal status of an accepted order opens the next revision. */
  lemma RemainderBeside(s: State, s': State, k0: nat, slot: Slot, k: nat)
    requires RestOk(s) && k in s.tasks && k != k0 && Leaves(s, s', k0, slot) && Acting(s, k0, Worker, Claimed)
    requires s.tasks[k0].snap.lifecycle.Accepted? && s.plan.None?
    requires slot.revision > s.queue[s.tasks[k0].id].revision && slot.lease.None?
    requires TaskOk(s, k0) && TaskOk(s, k) && PairOk(s, k0, k) && PairOk(s, k, k0)
    ensures Marked(s', k) && Planned(s', k)
  {
  }

  lemma RemainderValid(s: State, id: nat, filled: real)
    requires id in s.queue && SlotOk(s, id) && RemainderSlot(s.queue[id], filled).Some?
    ensures Freed(s, id, RemainderSlot(s.queue[id], filled).value)
    ensures RemainderSlot(s.queue[id], filled).value.revision > s.queue[id].revision
  {
  }

  lemma ObserveCore(s: State, s': State, k0: nat)
    requires Core(s) && WorkerObserve(s, s', k0)
    ensures Core(s')
  {
    var t := s.tasks[k0];
    var c := s.calls[t.snap.orderId.value];
    FinishCases(s, s', k0, slot => AfterStatus(slot, c));
    if Quiet(s, s') {
      QuietCore(s, s');
    } else {
      var slot := AfterStatus(s.queue[t.id], c).value;
      assert SlotOk(s, t.id);
      if !c.fate.Done? {
        ReleaseCore(s, s', k0);
      } else {
        RemainderValid(s, t.id, c.filled);
        forall k | k in s'.tasks ensures Marked(s', k) && Planned(s', k) {
          assert TaskOk(s, k0) && TaskOk(s, k) && PairOk(s, k0, k) && PairOk(s, k, k0);
          RemainderBeside(s, s', k0, slot, k);
        }
        LeavesCore(s, s', k0, slot);
      }
    }
  }

  /** No dispatcher that has begun but not sent can lose its record to a
      recovered order: its client ID is not at the venue yet. */
  predicate NotBegun(s: State, id: nat, revision: nat, k: nat) {
    Live(s, k) && s.tasks[k].phase.Begun? ==> s.tasks[k].id != id || s.tasks[k].snap.revision != revision
  }

  lemma RecoverBeside(s: State, s': State, k0: nat, order: nat, k: nat)
    requires RestOk(s) && k in s.tasks && k != k0 && k0 in s.tasks && Finds(s, s.tasks[k0]) && s.plan.None?
    requires Leaves(s, s', k0, AcceptSlot(s.queue[s.tasks[k0].id], order))
    requires TaskOk(s, k) && NotBegun(s, s.tasks[k0].id, s.tasks[k0].snap.revision, k)
    ensures Marked(s', k) && Planned(s', k)
  {
  }

  lemma RecoverCore(s: State, s': State, k0: nat, order: nat)
    requires Core(s) && WorkerRecover(s, s', k0, order)
    requires forall k: nat :: NotBegun(s, s.tasks[k0].id, s.tasks[k0].snap.revision, k)
    requires Finds(s, s.tasks[k0]) ==> !s.queue[s.tasks[k0].id].lifecycle.AwaitingCancel?
    ensures Core(s')
  {
    FinishCases(s, s', k0, slot => Some(AcceptSlot(slot, order)));
    if Quiet(s, s') {
      QuietCore(s, s');
    } else {
      forall k | k in s'.tasks ensures Marked(s', k) && Planned(s', k) {
        assert TaskOk(s, k) && NotBegun(s, s.tasks[k0].id, s.tasks[k0].snap.revision, k);
        RecoverBeside(s, s', k0, order, k);
      }
      assert SlotOk(s, s.tasks[k0].id);
      LeavesCore(s, s', k0, AcceptSlot(s.queue[s.tasks[k0].id], order));
    }
  }

  /** The flag is set or the order recorded, nothing else. */
  predicate Verdict(slot: Slot, after: Slot) {
    || after == FlagSlot(slot, after.submission)
    || (after.orderId.Some? && after == AcceptSlot(slot, after.orderId.value))
  }

  /** All the finishing steps of a task that speaks for its revision. */
  lemma SpeakerFinishCore(s: State, s': State, k0: nat, f: Slot -> Option<Slot>)
    requires Core(s) && Speaks(s, k0) && s' == Finish(s, k0, f)
    requires forall slot :: f(slot).Some? ==> Verdict(slot, f(slot).value)
    ensures Core(s')
  {
    FinishCases(s, s', k0, f);
    if Quiet(s, s') {
      QuietCore(s, s');
    } else {
      var t := s.tasks[k0];
      var slot := f(s.queue[t.id]).value;
      assert SlotOk(s, t.id) && TaskOk(s, k0);
      assert s.queue[t.id] == t.snap && t.snap.lifecycle.SubmitPending?;
      SpeakerCore(s, s', k0, slot);
    }
  }

  lemma GiveUpCore(s: State, s': State, k0: nat, remove: bool)
    requires Core(s) && MonitorGiveUp(s, s', k0, remove)
    ensures Core(s')
  {
    FinishCases(s, s', k0, slot => if remove then None else Some(ReleaseSlot(slot)));
    if Quiet(s, s') {
      QuietCore(s, s');
    } else {
      ReleaseCore(s, s', k0);
    }
  }

  lemma WorkerReleaseCore(s: State, s': State, k0: nat)
    requires Core(s) && WorkerRelease(s, s', k0)
    ensures Core(s')
  {
    FinishCases(s, s', k0, slot => Some(ReleaseSlot(slot)));
    if Quiet(s, s') {
      QuietCore(s, s');
    } else {
      ReleaseCore(s, s', k0);
    }
  }
}
