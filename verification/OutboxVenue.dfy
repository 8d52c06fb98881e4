/** What the venue holds, compared with the stored records and the running
    tasks.  Again pointwise: one call against one record, one task, one call. */
module OutboxVenue {
  import opened Options
  import opened OutboxRecord
  import opened OutboxProtocol
  import opened OutboxInvariant

  /** Calls of earlier revisions are over, none is of a later one, and a call of
      the current revision that may have a venue order shows in the record. */
  predicate SlotCall(slot: Slot, id: nat, c: Call) {
    c.id == id ==>
      && c.revision <= slot.revision
      && (c.revision < slot.revision ==> Settled(c))
      && (c.revision == slot.revision && Solid(c) ==>
            c.size <= slot.qty &&
            (slot.lifecycle.Accepted? ||
             (slot.lifecycle.SubmitPending? && (slot.submission.ProducerClaimed? || slot.submission.Unknown?))))
  }

  /** An accepted record names a delivered order of its own current revision. */
  predicate OrderOk(calls: seq<Call>, id: nat, slot: Slot) {
    slot.lifecycle.Accepted? && slot.orderId.Some? ==>
      && slot.orderId.value < |calls|
      && ForRevision(calls[slot.orderId.value], id, slot.revision) && Delivered(calls[slot.orderId.value])
  }

  /** The call i against a live task: before it may begin the client ID is absent,
      between begin and the call everything of the record is over, and after the
      call the only order of its revision is its own. */
  predicate TaskCall(s: State, k: nat, i: nat)
    requires k in s.tasks && i < |s.calls|
  {
    var t, c := s.tasks[k], s.calls[i];
    Live(s, k) && c.id == t.id ==>
      && (t.phase.Armed? && Holds(s, t) && c.revision == t.snap.revision ==> !Solid(c))
      && (t.phase.Begun? ==>
            c.revision <= t.snap.revision && Settled(c) && (c.revision == t.snap.revision ==> !Solid(c)))
      && (t.phase.Sent? && c.revision == t.snap.revision && Solid(c) ==> t.call == Some(i))
  }

  /** At most one order per record revision, and only the latest is open. */
  predicate CallPair(calls: seq<Call>, i: nat, j: nat)
    requires i < |calls| && j < |calls|
  {
    calls[i].id == calls[j].id && Solid(calls[i]) && Solid(calls[j]) ==>
      && calls[i].revision != calls[j].revision
      && (calls[i].revision < calls[j].revision ==> calls[i].fate.Done?)
  }

  predicate CallOk(s: State, i: nat)
    requires i < |s.calls|
  {
    s.calls[i].id < s.next && 0.0 <= s.calls[i].filled <= s.calls[i].size
  }

  predicate SlotVenue(s: State, id: nat, i: nat)
    requires id in s.queue && i < |s.calls|
  {
    SlotCall(s.queue[id], id, s.calls[i])
  }

  predicate SlotOrder(s: State, id: nat)
    requires id in s.queue
  {
    OrderOk(s.calls, id, s.queue[id])
  }

  ghost predicate Truth(s: State) {
    && (forall i {:trigger CallOk(s, i)} :: 0 <= i < |s.calls| ==> CallOk(s, i))
    && (forall i, j {:trigger CallPair(s.calls, i, j)} :: 0 <= i < |s.calls| && 0 <= j < |s.calls| && i != j ==>
          CallPair(s.calls, i, j))
    && (forall id, i {:trigger SlotVenue(s, id, i)} :: id in s.queue && 0 <= i < |s.calls| ==> SlotVenue(s, id, i))
    && (forall id {:trigger SlotOrder(s, id)} :: id in s.queue ==> SlotOrder(s, id))
    && (forall k, i {:trigger TaskCall(s, k, i)} :: k in s.tasks && 0 <= i < |s.calls| ==> TaskCall(s, k, i))
  }

  // ------------------------------------------------------------------
  // Steps that do not change the calls.
  // ------------------------------------------------------------------

  /** One record may change, its new form agreeing with every call; one task may
      change; the others keep no token they did not have. */
  ghost predicate Keeps(s: State, s': State, id0: nat, k0: nat) {
    && s'.calls == s.calls && s'.next >= s.next
    && (forall id :: id in s'.queue && id != id0 ==> id in s.queue && s'.queue[id] == s.queue[id])
    && (forall k :: k in s'.tasks && k != k0 ==>
          && k in s.tasks && s'.tasks[k] == s.tasks[k] && (Live(s', k) ==> Live(s, k))
          && (Holds(s', s.tasks[k]) ==> Holds(s, s.tasks[k])))
  }

  lemma KeepsTruth(s: State, s': State, id0: nat, k0: nat)
    requires Truth(s) && Keeps(s, s', id0, k0)
    requires id0 in s'.queue ==> SlotOrder(s', id0)
    requires forall i {:trigger SlotVenue(s', id0, i)} :: id0 in s'.queue && 0 <= i < |s.calls| ==> SlotVenue(s', id0, i)
    requires forall i {:trigger TaskCall(s', k0, i)} :: k0 in s'.tasks && 0 <= i < |s.calls| ==> TaskCall(s', k0, i)
    ensures Truth(s')
  {
    forall i | 0 <= i < |s'.calls| ensures CallOk(s', i) {
      assert CallOk(s, i);
    }
    forall id, i | id in s'.queue && 0 <= i < |s'.calls| ensures SlotVenue(s', id, i) {
      if id != id0 {
        assert SlotVenue(s, id, i);
      }
    }
    forall id | id in s'.queue ensures SlotOrder(s', id) {
      if id != id0 {
        assert SlotOrder(s, id);
      }
    }
    forall k, i | k in s'.tasks && 0 <= i < |s'.calls| ensures TaskCall(s', k, i) {
      if k != k0 {
        assert TaskCall(s, k, i);
      }
    }
  }

  /** Steps that leave no record in a new form. */
  lemma QuietTruth(s: State, s': State)
    requires Truth(s) && Core(s) && Quiet(s, s') && s'.calls == s.calls
    ensures Truth(s')
  {
    forall k | k in s'.tasks ensures k != s.next && (Live(s', k) ==> Live(s, k)) {
      assert TaskOk(s, k);
    }
    forall id | id in s'.queue ensures id != s.next {
      assert SlotOk(s, id);
    }
    KeepsTruth(s, s', s.next, s.next);
  }
}
