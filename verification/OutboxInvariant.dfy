/** Who may dispatch what: the part of the outbox invariant that speaks about
    leases, owners and revisions.  It is split into what holds of one stored
    slot, of one task and of two tasks, so that a step is checked pointwise. */
module OutboxInvariant {
  import opened Options
  import opened OutboxRecord
  import opened OutboxProtocol

  /** Phases in which a task owns a lease token. */
  predicate Holding(t: Task) {
    t.phase.Claimed? || t.phase.Armed? || t.phase.Begun? || t.phase.Sent?
  }

  predicate Dispatching(t: Task) {
    t.phase.Begun? || t.phase.Sent?
  }

  /** A monitor task that has not dispatched anything yet. */
  predicate Probing(t: Task) {
    t.role.Monitor? && (t.phase.Target? || t.phase.Claimed?)
  }

  /** A task that may go on to begin. */
  predicate MayBegin(t: Task) {
    t.phase.Armed? || (t.phase.Claimed? && t.role.Worker? && t.snap.lifecycle.SubmitPending?)
  }

  /** The stored record still carries the task's token. */
  predicate Holds(s: State, t: Task) {
    t.id in s.queue && t.snap.lease.Some? && Token(s.queue[t.id]) == Token(t.snap)
  }

  predicate ValidSlot(slot: Slot, next: nat) {
    && slot.qty > 0.0 && slot.delivered >= 0.0 && slot.delivered + slot.qty == slot.total
    && (slot.lifecycle.Accepted? <==> slot.orderId.Some?)
    && (slot.lifecycle.AwaitingCancel? ==> slot.revision == 0 && slot.delivered == 0.0 && slot.standsFor.Some?)
    && (slot.lease.Some? ==> slot.lease.value.token < next)
    && (slot.owner.Some? ==> slot.owner.value < next)
  }

  /** Replacement records are known as such for good. */
  predicate KnownReplacement(s: State, id: nat, slot: Slot) {
    slot.standsFor.Some? ==> id in s.replacing && s.replacing[id] == slot.standsFor.value.order
  }

  /** The token of the worker's pass is on no record that it has yet to claim. */
  predicate Unclaimed(s: State, id: nat, slot: Slot) {
    s.plan.Some? && id in s.plan.value.ids && slot.lease.Some? ==> slot.lease.value.token != s.plan.value.token
  }

  predicate SlotOk(s: State, id: nat)
    requires id in s.queue
  {
    id < s.next && ValidSlot(s.queue[id], s.next) && KnownReplacement(s, id, s.queue[id]) && Unclaimed(s, id, s.queue[id])
  }

  /** Between begin and completion by a live process, the record has moved to a
      later revision, is accepted, or is marked as dispatched by that process. */
  predicate MarkedFor(t: Task, slot: Slot) {
    || (slot.revision > t.snap.revision && t.phase.Sent?)
    || (slot.revision == t.snap.revision && t.phase.Sent? && slot.lifecycle.Accepted?)
    || (Pending(t, slot) && slot.submission.ProducerClaimed? && slot.owner == Some(t.process) && slot.qty == t.snap.qty)
  }

  predicate Pending(t: Task, slot: Slot) {
    slot.revision == t.snap.revision && slot.lifecycle.SubmitPending?
  }

  /** While its token is stored, a task's snapshot is the stored record, and a
      record that a live process is dispatching is marked as such. */
  predicate Marked(s: State, k: nat)
    requires k in s.tasks
  {
    var t := s.tasks[k];
    && (Holding(t) && Holds(s, t) ==> s.queue[t.id] == t.snap)
    && (Live(s, k) && Dispatching(t) && t.id in s.queue ==> MarkedFor(t, s.queue[t.id]))
  }

  /** While the worker plans a pass from an old clock reading, a record that some
      other live process is dispatching is under a younger lease. */
  predicate Planned(s: State, k: nat)
    requires k in s.tasks
  {
    var t := s.tasks[k];
    Live(s, k) && s.plan.Some? ==>
      && (t.role.Worker? ==> !t.phase.Armed? && !t.phase.Begun?)
      && (Dispatching(t) && t.id in s.plan.value.ids && t.id in s.queue && Pending(t, s.queue[t.id]) ==>
            !t.role.Worker? && SlotLeased(s.queue[t.id], s.plan.value.start))
  }

  predicate TaskOk(s: State, k: nat)
    requires k in s.tasks
  {
    var t := s.tasks[k];
    && k < s.next && t.process < s.next && t.id < s.next && ValidSlot(t.snap, s.next) && KnownReplacement(s, t.id, t.snap)
    && Unclaimed(s, t.id, t.snap)
    && (Holding(t) ==> t.snap.lease.Some?)
    && (t.role.Producer? ==> t.id !in s.replacing && !t.phase.Claimed?)
    && (t.role.Monitor? ==> t.id in s.replacing)
    && (t.phase.Target? ==> t.role.Monitor?)
    && (t.phase.Watching? ==> t.role.Worker?)
    && (t.phase.Armed? || Dispatching(t) ==> t.snap.lifecycle.SubmitPending?)
    && Marked(s, k) && Planned(s, k)
  }

  predicate PairOk(s: State, k: nat, m: nat)
    requires k in s.tasks && m in s.tasks
  {
    var t, u := s.tasks[k], s.tasks[m];
    && (Holding(t) && Holding(u) && t.id == u.id ==> Token(t.snap) != Token(u.snap))
    && (Live(s, k) && Live(s, m) ==>
          // One dispatcher per revision, and whoever has not sent yet is the latest.
          && (Dispatching(t) && Dispatching(u) && t.id == u.id ==> t.snap.revision != u.snap.revision)
          && (t.phase.Begun? && Dispatching(u) && t.id == u.id ==> u.snap.revision < t.snap.revision)
          // One monitor, which never looks at a record it is dispatching.
          && (t.role.Monitor? && u.role.Monitor? ==> t.phase.Sent? || u.phase.Sent?)
          && (Probing(t) && u.role.Monitor? && u.phase.Sent? ==> t.id != u.id)
          // Whoever may begin has no rival as long as its token is stored.
          && (MayBegin(t) && Holds(s, t) && Dispatching(u) && u.id == t.id ==> u.snap.revision < t.snap.revision))
  }

  predicate RestOk(s: State) {
    && (forall p :: p in s.alive ==> p < s.next)
    && (forall id :: id in s.replacing ==> id < s.next)
    && (s.plan.Some? ==> s.plan.value.process in s.alive && s.plan.value.start <= s.now && s.plan.value.token < s.next)
  }

  ghost predicate Core(s: State) {
    && RestOk(s)
    && (forall id {:trigger SlotOk(s, id)} :: id in s.queue ==> SlotOk(s, id))
    && (forall k {:trigger TaskOk(s, k)} :: k in s.tasks ==> TaskOk(s, k))
    && (forall k, m {:trigger PairOk(s, k, m)} :: k in s.tasks && m in s.tasks && k != m ==> PairOk(s, k, m))
  }

  // ------------------------------------------------------------------
  // Assembling the invariant after a step from what holds pointwise.
  // ------------------------------------------------------------------

  /** The step touches at most the task k0, and nobody dies or is born. */
  ghost predicate Local(s: State, s': State, k0: nat) {
    && s'.alive == s.alive && s'.next >= s.next && RestOk(s')
    && (forall k :: k in s'.tasks && k != k0 ==> k in s.tasks && s'.tasks[k] == s.tasks[k])
  }

  /** What has to be shown of every other task. */
  predicate Beside(s: State, s': State, k0: nat, k: nat)
    requires k in s'.tasks
  {
    && TaskOk(s', k)
    && (Holds(s', s'.tasks[k]) ==> Holds(s, s'.tasks[k]))
    && (k0 in s'.tasks ==> PairOk(s', k0, k) && PairOk(s', k, k0))
  }

  lemma LocalPair(s: State, s': State, k0: nat, k: nat, m: nat)
    requires Local(s, s', k0) && k in s'.tasks && m in s'.tasks && k != k0 && m != k0
    requires PairOk(s, k, m) && (Holds(s', s'.tasks[k]) ==> Holds(s, s'.tasks[k]))
    ensures PairOk(s', k, m)
  {
  }

  lemma LocalCore(s: State, s': State, k0: nat)
    requires Core(s) && Local(s, s', k0)
    requires forall id {:trigger SlotOk(s', id)} :: id in s'.queue ==> SlotOk(s', id)
    requires k0 in s'.tasks ==> TaskOk(s', k0)
    requires forall k {:trigger Beside(s, s', k0, k)} :: k in s'.tasks && k != k0 ==> Beside(s, s', k0, k)
    ensures Core(s')
  {
    forall k | k in s'.tasks ensures TaskOk(s', k) {
      if k != k0 {
        assert Beside(s, s', k0, k);
      }
    }
    forall k, m | k in s'.tasks && m in s'.tasks && k != m ensures PairOk(s', k, m) {
      if k == k0 {
        assert Beside(s, s', k0, m);
      } else if m == k0 {
        assert Beside(s, s', k0, k);
      } else {
        assert Beside(s, s', k0, k) && PairOk(s, k, m);
        LocalPair(s, s', k0, k, m);
      }
    }
  }

  // ------------------------------------------------------------------
  // Steps that only take away.
  // ------------------------------------------------------------------

  /** Tasks and records may disappear, nothing else about them changes. */
  ghost predicate Quiet(s: State, s': State) {
    && (forall k :: k in s'.tasks ==> k in s.tasks && s'.tasks[k] == s.tasks[k])
    && (forall id :: id in s'.queue ==> id in s.queue && s'.queue[id] == s.queue[id])
    && s'.alive <= s.alive + {s.next} && s'.next >= s.next && s'.replacing == s.replacing
    && (s'.plan == s.plan || s'.plan.None?) && RestOk(s')
  }

  lemma QuietTask(s: State, s': State, k: nat)
    requires Quiet(s, s') && k in s'.tasks && TaskOk(s, k)
    ensures TaskOk(s', k)
  {
  }

  lemma QuietPair(s: State, s': State, k: nat, m: nat)
    requires Quiet(s, s') && k in s'.tasks && m in s'.tasks && TaskOk(s, k) && TaskOk(s, m) && PairOk(s, k, m)
    ensures PairOk(s', k, m)
  {
  }

  lemma QuietCore(s: State, s': State)
    requires Core(s) && Quiet(s, s')
    ensures Core(s')
  {
    forall id | id in s'.queue ensures SlotOk(s', id) {
      assert SlotOk(s, id);
    }
    forall k | k in s'.tasks ensures TaskOk(s', k) {
      assert TaskOk(s, k);
      QuietTask(s, s', k);
    }
    forall k, m | k in s'.tasks && m in s'.tasks && k != m ensures PairOk(s', k, m) {
      assert TaskOk(s, k) && TaskOk(s, m) && PairOk(s, k, m);
      QuietPair(s, s', k, m);
    }
  }
}
