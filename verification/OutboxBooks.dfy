/** Quantities: what was asked for, what each venue order may still execute and
    what the order a replacement stands for has executed. */
module OutboxBooks {
  import opened Options
  import opened OutboxRecord
  import opened OutboxProtocol
  import opened OutboxInvariant
  import opened OutboxVenue
  import opened OutboxLeases
  import opened OutboxDispatch
  import opened Sums

  /** The most a call can still come to have executed. */
  function Weight(c: Call): real {
    if c.fate.Void? then 0.0 else if c.fate.Done? then c.filled else c.size
  }

  function Of(id: nat): Call -> real {
    (c: Call) => if c.id == id then Weight(c) else 0.0
  }

  function Below(id: nat, revision: nat): Call -> real {
    (c: Call) => if c.id == id && c.revision < revision then Weight(c) else 0.0
  }

  /** The delivered quantity of a record is what its earlier revisions executed. */
  ghost predicate SlotBooks(s: State, id: nat)
    requires id in s.queue
  {
    && id in s.asked && s.asked[id] == s.queue[id].total
    && Sum(s.calls, Below(id, s.queue[id].revision)) == s.queue[id].delivered
  }

  /** Everything sent for a record fits into what was asked. */
  ghost predicate AskedOk(s: State, id: nat)
    requires id in s.asked
  {
    id < s.next && Sum(s.calls, Of(id)) <= s.asked[id]
  }

  /** The replaced order is canceled for good and leaves room for what is asked. */
  predicate Cleared(s: State, id: nat) {
    id in s.replacing ==>
      && s.replacing[id] in s.originals && id in s.asked
      && s.originals[s.replacing[id]].canceled
      && s.originals[s.replacing[id]].filled + s.asked[id] <= s.originals[s.replacing[id]].size
  }

  predicate OriginalOk(s: State, order: nat)
    requires order in s.originals
  {
    0.0 <= s.originals[order].filled <= s.originals[order].size
  }

  /** A copy of a replacement record remembers the size of the replaced order. */
  predicate Remembers(s: State, id: nat, slot: Slot) {
    && (slot.standsFor.Some? <==> id in s.replacing)
    && (slot.standsFor.Some? ==>
          && slot.standsFor.value.order == s.replacing[id] && s.replacing[id] in s.originals
          && slot.originalQty == s.originals[s.replacing[id]].size)
  }

  predicate SlotCleared(s: State, id: nat)
    requires id in s.queue
  {
    Remembers(s, id, s.queue[id]) && (!s.queue[id].lifecycle.AwaitingCancel? ==> Cleared(s, id))
  }

  ghost predicate TaskBooks(s: State, k: nat)
    requires k in s.tasks
  {
    var t := s.tasks[k];
    && Remembers(s, t.id, t.snap)
    && (Live(s, k) && t.phase.Begun? ==>
          Cleared(s, t.id) && t.id in s.asked && Sum(s.calls, Of(t.id)) + t.snap.qty <= s.asked[t.id])
  }

  predicate CallCleared(s: State, i: nat)
    requires i < |s.calls|
  {
    s.calls[i].id in s.asked && Cleared(s, s.calls[i].id)
  }

  predicate SingleReplacement(s: State, id: nat, jd: nat)
    requires id in s.queue && jd in s.queue
  {
    s.queue[id].lifecycle.AwaitingCancel? && s.queue[jd].lifecycle.AwaitingCancel? ==>
      s.queue[id].standsFor != s.queue[jd].standsFor
  }

  ghost predicate Books(s: State) {
    && (forall id {:trigger SlotBooks(s, id)} :: id in s.queue ==> SlotBooks(s, id) && SlotCleared(s, id))
    && (forall id {:trigger AskedOk(s, id)} :: id in s.asked ==> AskedOk(s, id))
    && (forall o {:trigger OriginalOk(s, o)} :: o in s.originals ==> OriginalOk(s, o))
    && (forall k {:trigger TaskBooks(s, k)} :: k in s.tasks ==> TaskBooks(s, k))
    && (forall i {:trigger CallCleared(s, i)} :: 0 <= i < |s.calls| ==> CallCleared(s, i))
    && (forall id, jd {:trigger SingleReplacement(s, id, jd)} ::
          id in s.queue && jd in s.queue && id != jd ==> SingleReplacement(s, id, jd))
  }

  // ------------------------------------------------------------------
  // Steps that move no quantity.
  // ------------------------------------------------------------------

  predicate SameBooks(slot: Slot, after: Slot) {
    && after.revision == slot.revision && after.delivered == slot.delivered && after.total == slot.total
    && after.standsFor == slot.standsFor && after.originalQty == slot.originalQty
    && (slot.lifecycle.AwaitingCancel? <==> after.lifecycle.AwaitingCancel?)
  }

  predicate SameOrigin(slot: Slot, after: Slot) {
    after.standsFor == slot.standsFor && after.originalQty == slot.originalQty
  }

  /** The task is an old one that has not just begun, or a fresh look at a record. */
  predicate BookedTask(s: State, s': State, k: nat)
    requires k in s'.tasks
  {
    var t := s'.tasks[k];
    || (k in s.tasks && t.id == s.tasks[k].id && SameOrigin(s.tasks[k].snap, t.snap) && !t.phase.Begun?)
    || (k in s.tasks && t == s.tasks[k] && (Live(s', k) ==> Live(s, k)))
    || (t.id in s.queue && SameOrigin(s.queue[t.id], t.snap) && !t.phase.Begun?)
  }

  lemma SameBooksKeeps(s: State, s': State)
    requires Books(s) && s'.calls == s.calls && s'.asked == s.asked && s'.next >= s.next
    requires s'.originals == s.originals && s'.replacing == s.replacing
    requires forall id :: id in s'.queue ==> id in s.queue && SameBooks(s.queue[id], s'.queue[id])
    requires forall k {:trigger BookedTask(s, s', k)} :: k in s'.tasks ==> BookedTask(s, s', k)
    ensures Books(s')
  {
    forall id | id in s'.queue ensures SlotBooks(s', id) && SlotCleared(s', id) {
      assert SlotBooks(s, id);
    }
    forall id | id in s'.asked ensures AskedOk(s', id) {
      assert AskedOk(s, id);
    }
    forall o | o in s'.originals ensures OriginalOk(s', o) {
      assert OriginalOk(s, o);
    }
    forall k | k in s'.tasks ensures TaskBooks(s', k) {
      assert BookedTask(s, s', k);
      if k in s.tasks {
        assert TaskBooks(s, k);
      }
      if s'.tasks[k].id in s.queue {
        assert SlotBooks(s, s'.tasks[k].id);
      }
    }
    forall i | 0 <= i < |s'.calls| ensures CallCleared(s', i) {
      assert CallCleared(s, i);
    }
    forall id, jd | id in s'.queue && jd in s'.queue && id != jd ensures SingleReplacement(s', id, jd) {
      assert SingleReplacement(s, id, jd);
    }
  }

  lemma QuietBooks(s: State, s': State)
    requires Books(s) && Core(s) && Quiet(s, s') && s'.calls == s.calls && s'.asked == s.asked && s'.originals == s.originals
    ensures Books(s')
  {
    forall k | k in s'.tasks ensures BookedTask(s, s', k) {
      assert TaskOk(s, k);
    }
    SameBooksKeeps(s, s');
  }

  /** A finishing task leaves the quantities of its record alone. */
  lemma FinishBooks(s: State, s': State, k0: nat, f: Slot -> Option<Slot>)
    requires Books(s) && Core(s) && k0 in s.tasks && s' == Finish(s, k0, f)
    requires Finds(s, s.tasks[k0]) && f(s.queue[s.tasks[k0].id]).Some? ==>
               SameBooks(s.queue[s.tasks[k0].id], f(s.queue[s.tasks[k0].id]).value)
    ensures Books(s')
  {
    forall k | k in s'.tasks ensures BookedTask(s, s', k) {
    }
    SameBooksKeeps(s, s');
  }

  // ------------------------------------------------------------------
  // The venue.
  // ------------------------------------------------------------------

  lemma VenueSums(s: State, s': State, i: nat, c: Call, id: nat)
    requires Venue(s, s', i, c) && CallOk(s, i)
    ensures Sum(s'.calls, Of(id)) <= Sum(s.calls, Of(id))
    ensures id in s.queue && SlotVenue(s, id, i) ==>
              Sum(s'.calls, Below(id, s.queue[id].revision)) == Sum(s.calls, Below(id, s.queue[id].revision))
  {
    SumUpdate(s.calls, i, c, Of(id));
    if id in s.queue {
      SumUpdate(s.calls, i, c, Below(id, s.queue[id].revision));
    }
  }

  lemma VenueBooks(s: State, s': State, i: nat, c: Call)
    requires Books(s) && Truth(s) && Venue(s, s', i, c)
    ensures Books(s')
  {
    assert CallOk(s, i);
    forall id | id in s'.queue ensures SlotBooks(s', id) && SlotCleared(s', id) {
      assert SlotBooks(s, id) && SlotVenue(s, id, i);
      VenueSums(s, s', i, c, id);
    }
    forall id | id in s'.asked ensures AskedOk(s', id) {
      assert AskedOk(s, id);
      VenueSums(s, s', i, c, id);
    }
    forall o | o in s'.originals ensures OriginalOk(s', o) {
      assert OriginalOk(s, o);
    }
    forall k | k in s'.tasks ensures TaskBooks(s', k) {
      assert TaskBooks(s, k);
      VenueSums(s, s', i, c, s.tasks[k].id);
    }
    forall j | 0 <= j < |s'.calls| ensures CallCleared(s', j) {
      assert CallCleared(s, j);
    }
    forall id, jd | id in s'.queue && jd in s'.queue && id != jd ensures SingleReplacement(s', id, jd) {
      assert SingleReplacement(s, id, jd);
    }
  }

  lemma SendTaskBooks(s: State, s': State, k0: nat, size: real, k: nat)
    requires Send(s, s', k0, size) && k in s.tasks && TaskBooks(s, k)
    requires k != k0 ==> PairOk(s, k, k0) && PairOk(s, k0, k)
    ensures TaskBooks(s', k)
  {
    SumAppend(s.calls, s'.calls[|s.calls|], Of(s.tasks[k].id));
  }

  lemma SendBooks(s: State, s': State, k0: nat, size: real)
    requires Books(s) && Core(s) && Truth(s) && Send(s, s', k0, size)
    ensures Books(s')
  {
    var c := s'.calls[|s.calls|];
    assert TaskOk(s, k0) && TaskBooks(s, k0);
    forall id | id in s'.queue ensures SlotBooks(s', id) && SlotCleared(s', id) {
      assert SlotBooks(s, id);
      SumAppend(s.calls, c, Below(id, s.queue[id].revision));
    }
    forall id | id in s'.asked ensures AskedOk(s', id) {
      assert AskedOk(s, id);
      SumAppend(s.calls, c, Of(id));
    }
    forall o | o in s'.originals ensures OriginalOk(s', o) {
      assert OriginalOk(s, o);
    }
    forall k | k in s'.tasks ensures TaskBooks(s', k) {
      assert TaskBooks(s, k) && (k != k0 ==> PairOk(s, k, k0) && PairOk(s, k0, k));
      SendTaskBooks(s, s', k0, size, k);
    }
    forall j | 0 <= j < |s'.calls| ensures CallCleared(s', j) {
      if j < |s.calls| {
        assert CallCleared(s, j);
      }
    }
    forall id, jd | id in s'.queue && jd in s'.queue && id != jd ensures SingleReplacement(s', id, jd) {
      assert SingleReplacement(s, id, jd);
    }
  }

  /** Everything sent for a record whose current client ID is absent was
      delivered under earlier revisions. */
  lemma AbsentSum(s: State, id: nat)
    requires Books(s) && Truth(s) && id in s.queue && Absent(s.calls, id, s.queue[id].revision)
    ensures Sum(s.calls, Of(id)) == s.queue[id].delivered
    ensures Sum(s.calls, Below(id, s.queue[id].revision + 1)) == s.queue[id].delivered
  {
    var r := s.queue[id].revision;
    assert SlotBooks(s, id);
    forall i | 0 <= i < |s.calls|
      ensures Of(id)(s.calls[i]) == Below(id, r)(s.calls[i]) && Below(id, r + 1)(s.calls[i]) == Below(id, r)(s.calls[i])
    {
      assert SlotVenue(s, id, i);
    }
    SumSame(s.calls, Of(id), Below(id, r));
    SumSame(s.calls, Below(id, r + 1), Below(id, r));
  }

  lemma BeginBooks(s: State, s': State, k0: nat, at: real, lease: real)
    requires Books(s) && Core(s) && Truth(s) && Begin(s, s', k0, at, lease)
    ensures Books(s')
  {
    var t := s.tasks[k0];
    assert TaskOk(s, k0) && SlotOk(s, t.id) && SlotBooks(s, t.id) && TaskBooks(s, k0);
    forall i | 0 <= i < |s.calls| && ForRevision(s.calls[i], t.id, t.snap.revision) ensures !Solid(s.calls[i]) {
      assert TaskCall(s, k0, i);
    }
    AbsentSum(s, t.id);
    forall id | id in s'.queue ensures SlotBooks(s', id) && SlotCleared(s', id) {
      assert SlotBooks(s, id);
    }
    forall id | id in s'.asked ensures AskedOk(s', id) {
      assert AskedOk(s, id);
    }
    forall o | o in s'.originals ensures OriginalOk(s', o) {
      assert OriginalOk(s, o);
    }
    forall k | k in s'.tasks ensures TaskBooks(s', k) {
      assert TaskBooks(s, k);
    }
    forall i | 0 <= i < |s'.calls| ensures CallCleared(s', i) {
      assert CallCleared(s, i);
    }
    forall id, jd | id in s'.queue && jd in s'.queue && id != jd ensures SingleReplacement(s', id, jd) {
      assert SingleReplacement(s, id, jd);
    }
  }
}
