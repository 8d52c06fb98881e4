/** What the outbox promises, for every state of every run. */
module OutboxTheorems {
  import opened Options
  import opened OutboxRecord
  import opened OutboxProtocol
  import opened OutboxInvariant
  import opened OutboxVenue
  import opened OutboxBooks
  import opened OutboxRuns
  import opened Sums

  // ------------------------------------------------------------------
  // Dispatch.
  // ------------------------------------------------------------------

  /** The task has begun a dispatch that its live process has not completed. */
  predicate OpenDispatch(s: State, k: nat, id: nat, revision: nat) {
    Live(s, k) && Dispatching(s.tasks[k]) && s.tasks[k].id == id && s.tasks[k].snap.revision == revision
  }

  /** After `begin_claimed_submit` succeeded for a live process and until it
      completes its claim, no other begin succeeds on that record revision.  A
      begin succeeds on the same record only when the stored record has moved on
      to a later revision, and then everything sent for it is over. */
  lemma DispatchExclusion(s: State, s': State, k: nat, m: nat, revision: nat, at: real, lease: real)
    requires Reachable(s) && Begin(s, s', m, at, lease) && m != k
    requires OpenDispatch(s, k, s.tasks[m].id, revision)
    ensures revision < s.tasks[m].snap.revision && s.tasks[k].phase.Sent?
    ensures forall i :: 0 <= i < |s.calls| && s.calls[i].id == s.tasks[m].id ==> Settled(s.calls[i])
  {
    ReachableInv(s);
    assert TaskOk(s, k) && TaskOk(s, m) && PairOk(s, m, k) && PairOk(s, k, m);
    BeginIsSafe(s, s', m, at, lease);
  }

  /** A task whose next step is `begin_claimed_submit`. */
  predicate AboutToBegin(s: State, m: nat) {
    Live(s, m) && s.tasks[m].phase.Armed? && (s.tasks[m].role.Worker? ==> s.plan.None?)
  }

  /** Exactly when a second begin on a record succeeds although a live process has
      not completed its own: the caller's exact claim is stored, and it is a claim
      on a revision later than the one being dispatched.  OutboxWitness has a run
      in which this happens. */
  lemma SecondBeginExactly(s: State, k: nat, m: nat, revision: nat)
    requires Reachable(s) && AboutToBegin(s, m) && m != k && OpenDispatch(s, k, s.tasks[m].id, revision)
    ensures (exists s', at, lease :: Begin(s, s', m, at, lease)) <==>
              Finds(s, s.tasks[m]) && revision < s.queue[s.tasks[m].id].revision
  {
    var t := s.tasks[m];
    if exists s', at, lease :: Begin(s, s', m, at, lease) {
      var s', at, lease :| Begin(s, s', m, at, lease);
      DispatchExclusion(s, s', k, m, revision, at, lease);
    }
    if Finds(s, t) && revision < s.queue[t.id].revision {
      ReachableInv(s);
      assert TaskOk(s, m);
      var slot := BeginSlot(s.queue[t.id], t.process, s.now + 1.0);
      assert Begin(s, s.(queue := s.queue[t.id := slot], tasks := s.tasks[m := t.(phase := Begun, snap := slot)]), m, s.now, 1.0);
    }
  }

  /** While its process lives, a dispatch is the only one of its record revision. */
  lemma OneDispatcher(s: State, k: nat, m: nat, id: nat, revision: nat)
    requires Reachable(s) && OpenDispatch(s, k, id, revision) && OpenDispatch(s, m, id, revision)
    ensures k == m
  {
    ReachableInv(s);
    assert k != m ==> PairOk(s, k, m);
  }

  /** When a begin succeeds, the venue holds nothing of the client ID about to be
      used and nothing of the record is still open. */
  lemma BeginIsSafe(s: State, s': State, k: nat, at: real, lease: real)
    requires Reachable(s) && Begin(s, s', k, at, lease)
    ensures Absent(s.calls, s.tasks[k].id, s.tasks[k].snap.revision)
    ensures forall i :: 0 <= i < |s.calls| && s.calls[i].id == s.tasks[k].id ==> Settled(s.calls[i])
  {
    var t := s.tasks[k];
    ReachableInv(s);
    assert TaskOk(s, k) && SlotOk(s, t.id);
    forall i | 0 <= i < |s.calls| && s.calls[i].id == t.id
      ensures Settled(s.calls[i]) && (s.calls[i].revision == t.snap.revision ==> !Solid(s.calls[i]))
    {
      assert TaskCall(s, k, i) && SlotVenue(s, t.id, i);
    }
  }

  // ------------------------------------------------------------------
  // Venue orders.
  // ------------------------------------------------------------------

  /** At most one venue order per record revision and at most one open order per
      record: of two orders of a record the earlier revision's is terminal. */
  lemma OneOrderPerRevision(s: State, i: nat, j: nat)
    requires Reachable(s) && i < |s.calls| && j < |s.calls| && i != j
    requires s.calls[i].id == s.calls[j].id && Solid(s.calls[i]) && Solid(s.calls[j])
    ensures s.calls[i].revision != s.calls[j].revision
    ensures s.calls[i].revision < s.calls[j].revision ==> s.calls[i].fate.Done?
    ensures s.calls[i].fate.Done? || s.calls[j].fate.Done?
  {
    ReachableInv(s);
    assert CallPair(s.calls, i, j) && CallPair(s.calls, j, i);
  }

  /** A record reaches a revision only when every call of its earlier ones is
      terminal or never became an order, and an order that may exist for the
      current one always shows in the stored record. */
  lemma RevisionAfterTerminal(s: State, id: nat, i: nat)
    requires Reachable(s) && id in s.queue && i < |s.calls| && s.calls[i].id == id
    ensures s.calls[i].revision <= s.queue[id].revision
    ensures s.calls[i].revision < s.queue[id].revision ==> Settled(s.calls[i])
    ensures s.calls[i].revision == s.queue[id].revision && Solid(s.calls[i]) ==> !Unexposed(s.queue[id])
  {
    ReachableInv(s);
    assert SlotVenue(s, id, i);
  }

  // ------------------------------------------------------------------
  // Quantities.
  // ------------------------------------------------------------------

  function Filled(id: nat): Call -> real {
    (c: Call) => if c.id == id && Delivered(c) then c.filled else 0.0
  }

  /** In every reachable queue the delivered and the open quantity add up to the
      requested one, and the delivered one is what the venue really executed for
      the earlier revisions. */
  lemma QueueConserves(s: State, id: nat)
    requires Reachable(s) && id in s.queue
    ensures id in s.asked
    ensures s.queue[id].delivered + s.queue[id].qty == s.queue[id].total == s.asked[id]
    ensures Sum(s.calls, Below(id, s.queue[id].revision)) == s.queue[id].delivered
  {
    ReachableInv(s);
    assert SlotOk(s, id) && SlotBooks(s, id);
  }

  lemma FilledWithin(s: State, id: nat)
    requires Inv(s)
    ensures Sum(s.calls, Filled(id)) <= Sum(s.calls, Of(id))
  {
    forall i | 0 <= i < |s.calls| ensures Filled(id)(s.calls[i]) <= Of(id)(s.calls[i]) {
      assert CallOk(s, i);
    }
    SumUpTo(s.calls, Filled(id), Of(id));
  }

  /** The fills of all orders of a record, over all revisions and also after the
      record is gone, never exceed what was asked for it. */
  lemma FillsWithinAsked(s: State, id: nat)
    requires Reachable(s) && id in s.asked
    ensures Sum(s.calls, Filled(id)) <= s.asked[id]
  {
    ReachableInv(s);
    assert AskedOk(s, id);
    FilledWithin(s, id);
  }

  // ------------------------------------------------------------------
  // Cancel, then replace.
  // ------------------------------------------------------------------

  /** A replacement is sent only after its order was canceled, and the old fills
      together with everything executed for the replacement stay within the
      original size. */
  lemma ReplacementConserves(s: State, i: nat)
    requires Reachable(s) && i < |s.calls| && s.calls[i].id in s.replacing
    ensures var order := s.replacing[s.calls[i].id];
            && order in s.originals && s.originals[order].canceled
            && s.originals[order].filled + Sum(s.calls, Filled(s.calls[i].id)) <= s.originals[order].size
  {
    ReachableInv(s);
    assert CallCleared(s, i) && AskedOk(s, s.calls[i].id);
    FilledWithin(s, s.calls[i].id);
  }

  /** At most one `awaiting_cancel` record exists per provider, symbol, side and
      replaced order. */
  lemma OneAwaitingPerOrder(s: State, id: nat, jd: nat)
    requires Reachable(s) && id in s.queue && jd in s.queue
    requires s.queue[id].lifecycle.AwaitingCancel? && s.queue[jd].lifecycle.AwaitingCancel?
    requires s.queue[id].standsFor == s.queue[jd].standsFor
    ensures id == jd
  {
    ReachableInv(s);
    assert id != jd ==> SingleReplacement(s, id, jd);
  }
}
