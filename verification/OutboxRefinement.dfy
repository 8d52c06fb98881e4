/** The protocol of OutboxProtocol is what the list operations of the queue file
    do: a stored record represents a slot, and every locked operation acts on the
    represented slots as the protocol step of the same name does. */
module OutboxRefinement {
  import opened Options
  import opened OutboxRecord
  import opened OutboxEdits
  import opened OutboxList
  import opened OutboxEnqueue
  import Passes
  import Evictions
  import P = OutboxProtocol

  function KeyOfReplacement(rec: Record): Option<P.ReplacementKey> {
    if rec.replacesOrder.None? then None
    else Some(P.ReplacementKey(rec.provider, rec.symbol, rec.side, rec.replacesOrder.value))
  }

  function View(rec: Record): P.Slot {
    P.Slot(rec.revision, rec.lifecycle, rec.submission, rec.owner,
           if rec.claim.Some? then Some(P.SlotLease(rec.claim.value.token, rec.claim.value.until)) else None,
           rec.qty, rec.delivered, rec.requestedTotal, rec.orderId,
           KeyOfReplacement(rec),
           if rec.replacesOriginalQty.Some? then rec.replacesOriginalQty.value else 0.0)
  }

  /** The record is the slot, except that an accepted replacement may have been
      given the name of the provider that took it. */
  predicate Represents(rec: Record, slot: P.Slot) {
    && slot == View(rec).(standsFor := slot.standsFor)
    && (slot.standsFor.Some? <==> rec.replacesOrder.Some?)
    && (slot.standsFor.Some? ==> slot.standsFor.value.order == rec.replacesOrder.value)
    && (rec.lifecycle.AwaitingCancel? ==> slot.standsFor == KeyOfReplacement(rec))
  }

  // ------------------------------------------------------------------
  // One record.
  // ------------------------------------------------------------------

  lemma ClaimActs(rec: Record, slot: P.Slot, now: real, lease: real, token: nat)
    requires Represents(rec, slot)
    ensures Represents(ClaimRecord(rec, now, lease, token), P.ClaimSlot(slot, token, now + lease))
    ensures Leased(rec, now) <==> P.SlotLeased(slot, now)
  {
  }

  /** The exact-claim tests of begin, complete and activate are the token and
      revision test of the protocol. */
  lemma TestsAgree(rec: Record, slot: P.Slot, snap: Record, copy: P.Slot)
    requires Represents(rec, slot) && Represents(snap, copy) && ValidRecord(rec) && ValidRecord(snap) && rec.id == snap.id
    ensures snap.claim.Some? ==> (BeginMatches(rec, snap) <==> P.Matches(slot, copy))
    ensures snap.claim.Some? ==> (CompleteMatches(rec, snap) <==> P.Matches(slot, copy))
    ensures snap.claim.Some? ==> (ActivateMatches(rec, snap) <==> P.Matches(slot, copy))
    ensures snap.claim.None? ==> !BeginMatches(rec, snap) && !ActivateMatches(rec, snap)
    ensures snap.claim.None? ==> (CompleteMatches(rec, snap) <==> P.Matches(slot, copy) && snap.revision == 0)
  {
  }

  lemma BeginActs(rec: Record, slot: P.Slot, snap: Record, now: real, lease: real, process: nat)
    requires Represents(rec, slot) && BeginMatches(rec, snap)
    ensures Represents(BeginRecord(rec, now, lease, process), P.BeginSlot(slot, process, now + lease))
  {
  }

  /** What each outcome of `complete_claim` is for the protocol. */
  function OutcomeSlot(slot: P.Slot, outcome: Outcome, state: Option<SubmissionState>): Option<P.Slot> {
    var after :=
      match outcome
      case Success => None
      case AcceptedAs(order, _) => Some(if order.Some? then P.AcceptSlot(slot, order.value) else P.ReleaseSlot(slot))
      case RetryTerminal(filled, _) => P.RemainderSlot(slot, filled)
      case _ => Some(P.ReleaseSlot(slot));
    if after.Some? && state.Some? then Some(P.FlagSlot(after.value, state.value)) else after
  }

  lemma RemainderActs(rec: Record, slot: P.Slot, filled: real, status: string, now: real)
    requires Represents(rec, slot)
    ensures RemainderRecord(rec, filled, status, now).Some? <==> P.RemainderSlot(slot, filled).Some?
    ensures RemainderRecord(rec, filled, status, now).Some? ==>
              Represents(RemainderRecord(rec, filled, status, now).value.(claim := None), P.RemainderSlot(slot, filled).value)
  {
  }

  /** Failures, deferrals, releases and observations leave the slot alone. */
  lemma PlainOutcomeView(rec: Record, snap: Record, outcome: Outcome, now: real)
    requires !outcome.Success? && !outcome.AcceptedAs? && !outcome.RetryTerminal?
    ensures OutcomeRecord(rec, snap, outcome, now).Some?
    ensures View(OutcomeRecord(rec, snap, outcome, now).value) == View(rec)
    ensures OutcomeRecord(rec, snap, outcome, now).value.replacesOrder == rec.replacesOrder
  {
  }

  lemma SameView(rec: Record, after: Record, slot: P.Slot)
    requires Represents(rec, slot) && View(after) == View(rec) && after.replacesOrder == rec.replacesOrder
    ensures Represents(after.(claim := None), P.ReleaseSlot(slot))
  {
  }

  lemma AcceptActs(rec: Record, slot: P.Slot, snap: Record, order: Option<nat>, provider: Option<string>, now: real)
    requires Represents(rec, slot)
    ensures Represents(OutcomeRecord(rec, snap, AcceptedAs(order, provider), now).value.(claim := None),
                       OutcomeSlot(slot, AcceptedAs(order, provider), None).value)
  {
  }

  /** The outcome itself, the lease dropped. */
  lemma OutcomeActs(rec: Record, slot: P.Slot, snap: Record, outcome: Outcome, now: real)
    requires Represents(rec, slot)
    ensures OutcomeRecord(rec, snap, outcome, now).Some? <==> OutcomeSlot(slot, outcome, None).Some?
    ensures OutcomeRecord(rec, snap, outcome, now).Some? ==>
              Represents(OutcomeRecord(rec, snap, outcome, now).value.(claim := None), OutcomeSlot(slot, outcome, None).value)
  {
    if outcome.RetryTerminal? {
      RemainderActs(rec, slot, outcome.filled, outcome.status, now);
    } else if outcome.AcceptedAs? {
      AcceptActs(rec, slot, snap, outcome.order, outcome.provider, now);
    } else if !outcome.Success? {
      PlainOutcomeView(rec, snap, outcome, now);
      SameView(rec, OutcomeRecord(rec, snap, outcome, now).value, slot);
    }
  }

  /** Setting the flag and dropping the lease; the discard flag is not part of a slot. */
  lemma FlagActs(rec: Record, slot: P.Slot, state: Option<SubmissionState>, terminal: bool)
    requires Represents(rec.(claim := None), slot)
    ensures Represents(Flagged(rec, state, terminal).(claim := None), if state.Some? then P.FlagSlot(slot, state.value) else slot)
  {
  }

  lemma CompleteActs(rec: Record, slot: P.Slot, snap: Record, outcome: Outcome, state: Option<SubmissionState>, now: real)
    requires Represents(rec, slot)
    ensures CompleteRecord(rec, snap, outcome, state, now).Some? <==> OutcomeSlot(slot, outcome, state).Some?
    ensures CompleteRecord(rec, snap, outcome, state, now).Some? ==>
              Represents(CompleteRecord(rec, snap, outcome, state, now).value, OutcomeSlot(slot, outcome, state).value)
  {
    OutcomeActs(rec, slot, snap, outcome, now);
    var after := OutcomeRecord(rec, snap, outcome, now);
    if after.Some? {
      FlagActs(after.value, OutcomeSlot(slot, outcome, None).value, state, outcome.RetryTerminal?);
    }
  }

  lemma ActivateActs(rec: Record, slot: P.Slot, qty: real, now: real)
    requires Represents(rec, slot)
    ensures ActivateVerdict(rec, qty) != NotActivated <==> P.MayActivate(slot, qty)
    ensures P.MayActivate(slot, qty) ==> (ActivateVerdict(rec, qty) == Resolved <==> qty <= Tolerance(slot.qty))
    ensures ActivateVerdict(rec, qty) == Activated ==> Represents(ActivateRecord(rec, qty, now), P.ActivateSlot(slot, qty))
  {
  }

  /** What the queue may drop: eviction and consolidation drop evictable slots,
      expiry drops slots that cannot be at a venue. */
  lemma RemovalsAgree(cfg: Config, rec: Record, slot: P.Slot, now: real)
    requires Represents(rec, slot) && ValidRecord(rec)
    ensures SafeToEvict(rec) ==> P.Evictable(slot)
    ensures IsExpired(cfg, rec, now) ==> P.Unexposed(slot)
  {
  }

  /** A pending record that needs no reconciliation cannot be at a venue, and one
      that needs it is exactly what may be: the flag or its reason says so. */
  lemma ReconciliationDecides(rec: Record, slot: P.Slot)
    requires Represents(rec, slot) && rec.lifecycle.SubmitPending?
    ensures !RequiresReconciliation(rec) ==> P.Unexposed(slot)
    ensures !P.Unexposed(slot) ==> RequiresReconciliation(rec) && PossiblySubmitted(rec)
    ensures RequiresReconciliation(rec) <==> !P.Unexposed(slot) || (!rec.submission.Refused? && AmbiguousReason(rec.reason))
  {
  }

  // ------------------------------------------------------------------
  // The whole queue.
  // ------------------------------------------------------------------

  ghost predicate RepresentsQueue(q: seq<Record>, m: P.Queue) {
    && ValidList(q)
    && (forall id :: id in m <==> Lookup(q, id).Some?)
    && (forall id :: id in m ==> Represents(Lookup(q, id).value, m[id]))
  }

  /** What a pass does to the record of one ID. */
  lemma PassAt(q: seq<Record>, edit: Edit, id: nat)
    requires ValidList(q)
    ensures Lookup(Rewrite(q, edit), id) ==
              var before := Lookup(q, id);
              if before.None? then None
              else if !Selects(edit, before.value) then before
              else Edited(edit, before.value)
  {
    PassKeepsKey(edit);
    Passes.RewriteLookup(q, Pass(edit), ID, id);
  }

  lemma ClaimAt(q: seq<Record>, m: P.Queue, ids: set<nat>, now: real, lease: real, token: nat, id: nat)
    requires RepresentsQueue(q, m)
    ensures var after := Lookup(Rewrite(q, ClaimEdit(ids, now, lease, token)), id);
            (after.Some? <==> id in m) &&
            (id in m ==>
               Represents(after.value,
                          if id in ids && !P.SlotLeased(m[id], now) then P.ClaimSlot(m[id], token, now + lease) else m[id]))
  {
    PassAt(q, ClaimEdit(ids, now, lease, token), id);
    if id in m {
      ClaimActs(Lookup(q, id).value, m[id], now, lease, token);
    }
  }

  /** The slots after `claim`. */
  function ClaimedSlots(m: P.Queue, ids: set<nat>, now: real, token: nat, until: real): P.Queue {
    map id | id in m :: if id in ids && !P.SlotLeased(m[id], now) then P.ClaimSlot(m[id], token, until) else m[id]
  }

  /** `claim` leases exactly the listed unleased records. */
  lemma ClaimRefines(q: seq<Record>, m: P.Queue, ids: set<nat>, now: real, lease: real, token: nat)
    requires RepresentsQueue(q, m) && lease > 0.0
    ensures RepresentsQueue(Rewrite(q, ClaimEdit(ids, now, lease, token)), ClaimedSlots(m, ids, now, token, now + lease))
  {
    RewriteKeepsValid(q, ClaimEdit(ids, now, lease, token));
    forall id {:trigger Lookup(Rewrite(q, ClaimEdit(ids, now, lease, token)), id)}
      ensures Lookup(Rewrite(q, ClaimEdit(ids, now, lease, token)), id).Some? <==> id in m
      ensures id in m ==>
                Represents(Lookup(Rewrite(q, ClaimEdit(ids, now, lease, token)), id).value,
                           if id in ids && !P.SlotLeased(m[id], now) then P.ClaimSlot(m[id], token, now + lease) else m[id])
    {
      ClaimAt(q, m, ids, now, lease, token, id);
    }
  }

  /** An edit addressed to one ID changes at most the slot of that ID. */
  lemma AddressedRefines(q: seq<Record>, m: P.Queue, edit: Edit, id: nat, after: Option<P.Slot>)
    requires RepresentsQueue(q, m) && Admissible(edit) && Addressed(edit, id)
    requires id in m && Selects(edit, Lookup(q, id).value)
    requires Edited(edit, Lookup(q, id).value).Some? <==> after.Some?
    requires after.Some? ==> Represents(Edited(edit, Lookup(q, id).value).value, after.value)
    ensures RepresentsQueue(Rewrite(q, edit), P.Put(m, id, after))
  {
    RewriteKeepsValid(q, edit);
    forall i {:trigger Lookup(q, i)}
      ensures i != id ==> Lookup(Rewrite(q, edit), i) == Lookup(q, i)
      ensures i == id ==> Lookup(Rewrite(q, edit), i) == Edited(edit, Lookup(q, id).value)
    {
      PassAt(q, edit, i);
    }
  }

  /** A snapshot that no longer matches its record changes nothing. */
  lemma StaleSnapshot(q: seq<Record>, edit: Edit, id: nat)
    requires ValidList(q) && Addressed(edit, id)
    requires Lookup(q, id).Some? ==> !Selects(edit, Lookup(q, id).value)
    ensures Rewrite(q, edit) == q
  {
    forall i | 0 <= i < |q| ensures !Selects(edit, q[i]) {
      if q[i].id == id {
        Passes.LookupAt(q, ID, i);
      } else {
        AddressedSelects(edit, id, q[i]);
      }
    }
    RewriteNoTarget(q, edit);
  }

  lemma BeginRefines(q: seq<Record>, m: P.Queue, snap: Record, copy: P.Slot, now: real, lease: real, process: nat)
    requires RepresentsQueue(q, m) && Represents(snap, copy) && ValidRecord(snap) && now > 0.0 && lease > 0.0
    requires snap.claim.Some?
    ensures RepresentsQueue(
              Rewrite(q, BeginEdit(snap, now, lease, process)),
              if snap.id in m && P.Matches(m[snap.id], copy) then m[snap.id := P.BeginSlot(m[snap.id], process, now + lease)] else m)
  {
    var edit := BeginEdit(snap, now, lease, process);
    var id := snap.id;
    if id in m {
      var rec := Lookup(q, id).value;
      TestsAgree(rec, m[id], snap, copy);
      if BeginMatches(rec, snap) {
        BeginActs(rec, m[id], snap, now, lease, process);
        AddressedRefines(q, m, edit, id, Some(P.BeginSlot(m[id], process, now + lease)));
      } else {
        StaleSnapshot(q, edit, id);
      }
    } else {
      StaleSnapshot(q, edit, id);
    }
  }

  lemma CompleteRefines(q: seq<Record>, m: P.Queue, snap: Record, copy: P.Slot, outcome: Outcome,
                        state: Option<SubmissionState>, now: real)
    requires RepresentsQueue(q, m) && Represents(snap, copy) && ValidRecord(snap)
    requires Admissible(CompleteEdit(snap, outcome, state, now))
    ensures RepresentsQueue(
              Rewrite(q, CompleteEdit(snap, outcome, state, now)),
              if snap.id in m && P.Matches(m[snap.id], copy) && (snap.claim.Some? || snap.revision == 0)
              then P.Put(m, snap.id, OutcomeSlot(m[snap.id], outcome, state))
              else m)
  {
    var edit := CompleteEdit(snap, outcome, state, now);
    var id := snap.id;
    if id in m {
      var rec := Lookup(q, id).value;
      TestsAgree(rec, m[id], snap, copy);
      if CompleteMatches(rec, snap) {
        assert rec in q;
        CompleteActs(rec, m[id], snap, outcome, state, now);
        AddressedRefines(q, m, edit, id, OutcomeSlot(m[id], outcome, state));
      } else {
        StaleSnapshot(q, edit, id);
      }
    } else {
      StaleSnapshot(q, edit, id);
    }
  }

  lemma ActivateRefines(q: seq<Record>, m: P.Queue, snap: Record, copy: P.Slot, qty: real, now: real)
    requires RepresentsQueue(q, m) && Represents(snap, copy) && ValidRecord(snap) && now > 0.0 && snap.claim.Some?
    ensures RepresentsQueue(
              Rewrite(q, ActivateEdit(snap, qty, now)),
              if snap.id in m && P.Matches(m[snap.id], copy) && P.MayActivate(m[snap.id], qty)
              then P.Put(m, snap.id,
                         if qty <= Tolerance(m[snap.id].qty) then None else Some(P.ActivateSlot(m[snap.id], qty)))
              else m)
  {
    var edit := ActivateEdit(snap, qty, now);
    var id := snap.id;
    if id in m {
      var rec := Lookup(q, id).value;
      TestsAgree(rec, m[id], snap, copy);
      ActivateActs(rec, m[id], qty, now);
      if Selects(edit, rec) {
        AddressedRefines(q, m, edit, id,
                         if qty <= Tolerance(m[id].qty) then None else Some(P.ActivateSlot(m[id], qty)));
      } else {
        StaleSnapshot(q, edit, id);
      }
    } else {
      StaleSnapshot(q, edit, id);
    }
  }

  /** Expiry and consolidation drop records and touch no other. */
  lemma DroppingRefines(q: seq<Record>, m: P.Queue, edit: Edit)
    requires RepresentsQueue(q, m) && (edit.DiscardEdit? || edit.SupersedeEdit?)
    ensures exists kept: P.Queue :: RepresentsQueue(Rewrite(q, edit), kept) && kept.Keys <= m.Keys &&
              (forall id :: id in kept ==> kept[id] == m[id]) &&
              (forall id :: id in m && id !in kept ==>
                 if edit.DiscardEdit? then P.Unexposed(m[id]) else P.Evictable(m[id]))
  {
    RewriteKeepsValid(q, edit);
    var kept := map id | id in m && !Selects(edit, Lookup(q, id).value) :: m[id];
    forall id {:trigger Lookup(q, id)}
      ensures Lookup(Rewrite(q, edit), id).Some? <==> id in kept
      ensures id in kept ==> Lookup(Rewrite(q, edit), id) == Lookup(q, id)
    {
      PassAt(q, edit, id);
    }
    forall id | id in m && id !in kept
      ensures if edit.DiscardEdit? then P.Unexposed(m[id]) else P.Evictable(m[id])
    {
      var rec := Lookup(q, id).value;
      assert rec in q;
      if edit.DiscardEdit? {
        RemovalsAgree(edit.cfg, rec, m[id], edit.now);
      } else {
        RemovalsAgree(Config(true, 1.0, 1.0, 0, false, 0, 1.0, 1.0), rec, m[id], 1.0);
      }
    }
    assert RepresentsQueue(Rewrite(q, edit), kept);
  }

  // ------------------------------------------------------------------
  // Admission.
  // ------------------------------------------------------------------

  /** A new record is a new slot, leased to its producer if it has one. */
  lemma NewRecordActs(req: Request, id: nat, token: nat)
    requires WellFormed(req)
    ensures Represents(NewRecord(req, id, token), View(NewRecord(req, id, token)))
    ensures var plain := View(NewRecord(req.(producer := None), id, token));
            && P.NewSlot(plain) && plain.lifecycle == req.lifecycle && plain.qty == req.qty
            && (req.lifecycle.AwaitingCancel? ==> plain.originalQty == req.replacesOriginalQty.value)
            && (req.producer.None? ==> View(NewRecord(req, id, token)) == plain)
            && (req.producer.Some? ==>
                  View(NewRecord(req, id, token)) ==
                    plain.(lease := Some(P.SlotLease(token, req.now + req.producer.value.0)), submission := ProducerClaimed,
                           owner := Some(req.producer.value.1)))
  {
  }

  lemma RefreshActs(rec: Record, slot: P.Slot, req: Request)
    requires Represents(rec, slot) && ValidRecord(rec) && SafeToEvict(rec) && WellFormed(req)
    ensures P.Evictable(slot)
    ensures Represents(Refresh(rec, req), P.RefreshSlot(slot, req.qty))
  {
  }

  /** The records that survive an eviction, as slots. */
  function Survivors(q: seq<Record>, m: P.Queue): P.Queue {
    map id | id in m && Lookup(q, id).Some? :: m[id]
  }

  lemma EvictionRefines(q: seq<Record>, m: P.Queue, after: seq<Record>)
    requires RepresentsQueue(q, m) && OnlyEvicts(q, after)
    ensures RepresentsQueue(after, Survivors(after, m)) && P.SafeRemoval(m, Survivors(after, m))
  {
    OnlyEvictsValid(q, after);
    Evictions.Members(q, after, SAFE);
    forall id {:trigger Lookup(after, id)}
      ensures Lookup(after, id).Some? ==> Lookup(after, id) == Lookup(q, id)
      ensures id in m && Lookup(after, id).None? ==> P.Evictable(m[id])
    {
      if Lookup(after, id).Some? {
        var rec := Lookup(after, id).value;
        var i :| 0 <= i < |q| && q[i] == rec;
        Passes.LookupAt(q, ID, i);
      } else if id in m {
        RemovalsAgree(Config(true, 1.0, 1.0, 0, false, 0, 1.0, 1.0), Lookup(q, id).value, m[id], 1.0);
      }
    }
  }

  /** Replacing the record at one position replaces its slot. */
  lemma StoreRefines(q: seq<Record>, m: P.Queue, i: nat, rec: Record, slot: P.Slot)
    requires RepresentsQueue(q, m) && i < |q| && rec.id == q[i].id && ValidRecord(rec) && Represents(rec, slot)
    ensures RepresentsQueue(q[i := rec], m[rec.id := slot])
  {
    var after := q[i := rec];
    assert Passes.UniqueKeys(after, ID);
    forall id {:trigger Lookup(after, id)} ensures Lookup(after, id) == if id == rec.id then Some(rec) else Lookup(q, id) {
      if id == rec.id {
        Passes.LookupAt(after, ID, i);
      } else {
        OtherLookup(q, i, rec, id);
      }
    }
    Passes.LookupAt(q, ID, i);
  }

  lemma OtherLookup(q: seq<Record>, i: nat, rec: Record, id: nat)
    requires ValidList(q) && i < |q| && rec.id == q[i].id && id != rec.id && Passes.UniqueKeys(q[i := rec], ID)
    ensures Lookup(q[i := rec], id) == Lookup(q, id)
  {
    var after := q[i := rec];
    if Lookup(q, id).Some? {
      var j :| 0 <= j < |q| && q[j] == Lookup(q, id).value;
      assert after[j] == q[j];
      Passes.LookupAt(after, ID, j);
    } else {
      forall x | x in after ensures x.id != id {
        assert x == rec || x in q;
      }
    }
  }

  lemma AppendRefines(q: seq<Record>, m: P.Queue, rec: Record)
    requires RepresentsQueue(q, m) && rec.id !in m && ValidRecord(rec)
    ensures RepresentsQueue(q + [rec], m[rec.id := View(rec)])
  {
    var after := q + [rec];
    assert after[..|q|] == q;
    forall j | 0 <= j < |q| ensures q[j].id != rec.id {
      Passes.LookupAt(q, ID, j);
    }
    assert Passes.UniqueKeys(after, ID);
    forall id {:trigger Lookup(after, id)} ensures Lookup(after, id) == if id == rec.id then Some(rec) else Lookup(q, id) {
    }
  }

  lemma RefreshedRefines(q: seq<Record>, m: P.Queue, req: Request, i: nat)
    requires RepresentsQueue(q, m) && i < |q| && SafeToEvict(q[i]) && WellFormed(req)
    ensures q[i].id in m && P.Evictable(m[q[i].id])
    ensures RepresentsQueue(q[i := Refresh(q[i], req)],
                            m[q[i].id := P.RefreshSlot(m[q[i].id], req.qty)])
  {
    Passes.LookupAt(q, ID, i);
    var slot := m[q[i].id];
    RefreshActs(q[i], slot, req);
    RefreshValid(q[i], req);
    StoreRefines(q, m, i, Refresh(q[i], req), P.RefreshSlot(slot, req.qty));
  }

  /** Every admission is one of the protocol's: it evicts only evictable slots and
      then stores the new slot, ... */
  lemma AddedRefines(cfg: Config, q: seq<Record>, m: P.Queue, req: Request, id: nat, token: nat)
    requires RepresentsQueue(q, m) && id !in m && Admit(cfg, q, req, id, token).1.Added?
    ensures exists kept: P.Queue ::
              P.SafeRemoval(m, kept) &&
              RepresentsQueue(Admit(cfg, q, req, id, token).0, kept[id := View(NewRecord(req, id, token))])
  {
    AdmitProtects(cfg, q, req, id, token);
    var after := Admit(cfg, q, req, id, token).0;
    var rec, room := NewRecord(req, id, token), after[..|after| - 1];
    EvictionRefines(q, m, room);
    NewRecordValid(req, id, token);
    AppendRefines(room, Survivors(room, m), rec);
    assert after == room + [rec];
  }

  /** ... refreshes an evictable one, ... */
  lemma RefreshedAdmissionRefines(cfg: Config, q: seq<Record>, m: P.Queue, req: Request, id: nat, token: nat)
    requires RepresentsQueue(q, m) && Admit(cfg, q, req, id, token).1.Refreshed?
    ensures exists kept: P.Queue, former ::
              P.SafeRemoval(m, kept) && former in kept && P.Evictable(kept[former]) &&
              RepresentsQueue(Admit(cfg, q, req, id, token).0, kept[former := P.RefreshSlot(kept[former], req.qty)])
  {
    AdmitProtects(cfg, q, req, id, token);
    var after := Admit(cfg, q, req, id, token).0;
    var kept: seq<Record>, i :| OnlyEvicts(q, kept) && 0 <= i < |kept| && SameTarget(kept[i], req) && after == kept[i := Refresh(kept[i], req)];
    EvictionRefines(q, m, kept);
    RefreshedRefines(kept, Survivors(kept, m), req, i);
  }

  /** ... finds the one pre-cancel replacement of the same order, or changes nothing. */
  lemma OtherAdmissionRefines(cfg: Config, q: seq<Record>, m: P.Queue, req: Request, id: nat, token: nat)
    requires RepresentsQueue(q, m)
    ensures var (after, verdict) := Admit(cfg, q, req, id, token);
            && (verdict.Rejected? ==> after == q)
            && (verdict.Existing? ==>
                  && after == q && verdict.id in m && m[verdict.id].lifecycle.AwaitingCancel?
                  && m[verdict.id].standsFor == KeyOfReplacement(NewRecord(req, id, token)))
  {
    AdmitProtects(cfg, q, req, id, token);
    if Admit(cfg, q, req, id, token).1.Existing? {
      var i := FirstReplacement(q, req).value;
      Passes.LookupAt(q, ID, i);
    }
  }

  /** Two pre-cancel replacements of one order cannot both be admitted. */
  lemma ReplacementIsNew(cfg: Config, q: seq<Record>, m: P.Queue, req: Request, id: nat, token: nat)
    requires RepresentsQueue(q, m) && req.lifecycle.AwaitingCancel? && Admit(cfg, q, req, id, token).1.Added?
    ensures forall i :: !P.SameReplacement(m, i, KeyOfReplacement(NewRecord(req, id, token)).value)
  {
    forall i ensures !P.SameReplacement(m, i, KeyOfReplacement(NewRecord(req, id, token)).value) {
      if i in m {
        var rec := Lookup(q, i).value;
        var j :| 0 <= j < |q| && q[j] == rec;
        assert !SameReplacement(q[j], req);
      }
    }
  }
}
