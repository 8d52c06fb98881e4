/** Client IDs across the campaigns of one history.  An ID is a hash of the
    extremum's timestamp, the tier and the attempt number, and attempt numbers
    start again with every campaign. */
module CampaignIds {
  import opened Options
  import opened TrackedLifecycle
  import opened Campaigns
  import opened CampaignHistory
  import opened CampaignBudget
  import opened CampaignLimit

  // ------------------------------------------------------------------
  // Where every intent comes from.
  // ------------------------------------------------------------------

  /** What identifies an intent, pending or recorded, and the order it became. */
  datatype Origin = Origin(clientId: ClientId, threshold: real, attempt: nat, order: Option<nat>)

  function OfPending(p: Pending): Origin {
    Origin(p.clientId, p.threshold, p.attempt, p.orderId)
  }

  function OfEntry(e: Entry): Origin {
    Origin(e.clientId, e.threshold, e.attempt, e.order)
  }

  ghost predicate SaveOk(save: Option<Campaign>, ok: Origin -> bool) {
    save.Some? && save.value.pending.Some? ==> ok(OfPending(save.value.pending.value))
  }

  ghost predicate JournalOk(j: Journal, ok: Origin -> bool) {
    SaveOk(j.saved, ok) && forall i :: 0 <= i < |j.ledger| ==> ok(OfEntry(j.ledger[i]))
  }

  /** A terminal row is recorded under its own identity. */
  lemma WriteOk(kind: Kind, j: Journal, save: Option<Campaign>, ok: Origin -> bool)
    requires JournalOk(j, ok) && SaveOk(save, ok)
    ensures JournalOk(Write(kind, j, save), ok)
  {
  }

  lemma {:induction false} WriteAllOk(kind: Kind, j: Journal, saves: seq<Option<Campaign>>, ok: Origin -> bool)
    requires JournalOk(j, ok) && forall i :: 0 <= i < |saves| ==> SaveOk(saves[i], ok)
    ensures JournalOk(WriteAll(kind, j, saves), ok)
  {
    if saves != [] {
      WriteAllOk(kind, j, saves[..|saves| - 1], ok);
      WriteOk(kind, WriteAll(kind, j, saves[..|saves| - 1]), saves[|saves| - 1], ok);
    }
  }

  /** The orders that one reconciliation may name. */
  predicate NamedBy(p: Pending, a: Answers, order: Option<nat>) {
    order == p.orderId || (p.orderId.None? && a.lookup.FoundOrder? && order == Some(a.lookup.order))
  }

  lemma StatusRowsNamed(policy: Policy, p: Pending, now: real, a: Answers)
    ensures forall i :: 0 <= i < |StatusTrace(policy, p, now, a).saves| ==>
              var row := StatusTrace(policy, p, now, a).saves[i];
              row.Some? && SameIntent(p, row.value) && row.value.orderId == p.orderId
  {
  }

  /** Rows of a reconciliation keep the intent and name no other order. */
  lemma RowsNamed(policy: Policy, p: Pending, now: real, a: Answers, i: nat)
    requires i < |ReconcileTrace(policy, p, now, a).saves| && ReconcileTrace(policy, p, now, a).saves[i].Some?
    ensures var row := ReconcileTrace(policy, p, now, a).saves[i].value;
            SameIntent(p, row) && NamedBy(p, a, row.orderId)
  {
    if p.orderId.Some? {
      StatusRowsNamed(policy, p, now, a);
    } else if a.lookup.FoundOrder? {
      var known := p.(orderId := Some(a.lookup.order), misses := 0, lookupError := false);
      StatusRowsNamed(policy, known, now, a);
      var rest := StatusTrace(policy, known, now, a);
      assert i > 0 ==> ([Some(known)] + rest.saves)[i] == rest.saves[i - 1];
    }
  }

  /** Every save of an event holds the intent that was pending before it, perhaps
      with the order it now names, or the intent that the event submits. */
  ghost predicate Carries(s: Settings, j: Journal, e: Event, o: Origin) {
    || (j.saved.Some? && j.saved.value.pending.Some? && o == OfPending(j.saved.value.pending.value))
    || (e.Reconcile? && j.saved.Some? && j.saved.value.pending.Some? &&
        var p := j.saved.value.pending.value; o == OfPending(p).(order := o.order) && NamedBy(p, e.answers, o.order))
    || (e.SubmitTier? && j.saved.Some? && e.tier < |s.tiers| && Submits(s, j.saved.value, e, o))
  }

  /** The intent that a submission saves, before and after the venue was called. */
  predicate Submits(s: Settings, c: Campaign, e: Event, o: Origin)
    requires e.SubmitTier? && e.tier < |s.tiers|
  {
    && o == OfPending(NewIntent(s, c, e.tier, e.now)).(order := o.order)
    && (o.order.None? || (e.said.AcceptedOutcome? && o.order == e.order))
  }

  lemma ReconcileCarries(s: Settings, j: Journal, e: Event, i: nat)
    requires Admissible(s, j, e) && e.Reconcile? && i < |SavesOf(s, j, e)|
    requires SavesOf(s, j, e)[i].Some? && SavesOf(s, j, e)[i].value.pending.Some?
    ensures Carries(s, j, e, OfPending(SavesOf(s, j, e)[i].value.pending.value))
  {
    var c := j.saved.value;
    var p := c.pending.value;
    var t := ReconcileTrace(s.policy, p, e.now, e.answers);
    if i < |t.saves| {
      assert SavesOf(s, j, e)[i] == Some(c.(pending := t.saves[i]));
      RowsNamed(s.policy, p, e.now, e.answers, i);
    } else {
      ClosingDrops(s, j, e, i);
    }
  }

  /** The closing save has no pending row. */
  lemma ClosingDrops(s: Settings, j: Journal, e: Event, i: nat)
    requires Admissible(s, j, e) && e.Reconcile? && i < |SavesOf(s, j, e)|
    requires i >= |ReconcileTrace(s.policy, j.saved.value.pending.value, e.now, e.answers).saves|
    ensures SavesOf(s, j, e)[i].Some? && SavesOf(s, j, e)[i].value.pending.None?
  {
    var c := j.saved.value;
    var p := c.pending.value;
    var t := ReconcileTrace(s.policy, p, e.now, e.answers);
    if t.outcome.Absent? || t.outcome.Retryable? {
      LastRowGone(s.policy, p, e.now, e.answers);
    }
  }

  lemma LastRowGone(policy: Policy, p: Pending, now: real, a: Answers)
    requires var t := ReconcileTrace(policy, p, now, a); t.outcome.Absent? || t.outcome.Retryable?
    ensures var t := ReconcileTrace(policy, p, now, a); |t.saves| > 0 && t.saves[|t.saves| - 1].None?
  {
  }

  lemma SavesCarry(s: Settings, j: Journal, e: Event, i: nat)
    requires Admissible(s, j, e) && i < |SavesOf(s, j, e)|
    requires SavesOf(s, j, e)[i].Some? && SavesOf(s, j, e)[i].value.pending.Some?
    ensures Carries(s, j, e, OfPending(SavesOf(s, j, e)[i].value.pending.value))
  {
    if e.Reconcile? {
      ReconcileCarries(s, j, e, i);
    }
  }

  // ------------------------------------------------------------------
  // Histories.
  // ------------------------------------------------------------------

  /** How many campaigns were cleared before. */
  function Cleared(js: seq<Journal>, n: nat): nat
    requires n < |js|
  {
    if n == 0 then 0 else Cleared(js, n - 1) + if js[n].saved.None? && js[n - 1].saved.Some? then 1 else 0
  }

  /** The origin was submitted by step k of the history. */
  ghost predicate SubmittedAt(s: Settings, js: seq<Journal>, steps: seq<Step>, k: nat, o: Origin) {
    && k < |steps| && k < |js| && steps[k].event.SubmitTier? && js[k].saved.Some? && steps[k].event.tier < |s.tiers|
    && o == OfPending(NewIntent(s, js[k].saved.value, steps[k].event.tier, steps[k].event.now)).(order := o.order)
  }

  /** ... in the campaign that is open in state n, by a venue that answers truly:
      an order is named only for the client ID it was placed under. */
  ghost predicate Sourced(s: Settings, js: seq<Journal>, steps: seq<Step>, idOf: nat -> ClientId, n: nat, o: Origin)
    requires n < |js|
  {
    && (o.order.Some? ==> idOf(o.order.value) == o.clientId)
    && exists k: nat :: k < n && Cleared(js, k) == Cleared(js, n) && SubmittedAt(s, js, steps, k, o)
  }

  /** Accepted submissions and lookups name orders of their own client ID. */
  ghost predicate TruthfulStep(s: Settings, j: Journal, e: Event, idOf: nat -> ClientId) {
    && (e.SubmitTier? && e.said.AcceptedOutcome? && e.order.Some? && j.saved.Some? && e.tier < |s.tiers| ==>
          idOf(e.order.value) == NewIntent(s, j.saved.value, e.tier, e.now).clientId)
    && (e.Reconcile? && e.answers.lookup.FoundOrder? && j.saved.Some? && j.saved.value.pending.Some? ==>
          idOf(e.answers.lookup.order) == j.saved.value.pending.value.clientId)
  }

  ghost predicate Truthful(s: Settings, js: seq<Journal>, steps: seq<Step>, idOf: nat -> ClientId) {
    forall i {:trigger steps[i]} :: 0 <= i < |steps| && i < |js| ==> TruthfulStep(s, js[i], steps[i].event, idOf)
  }

  ghost function Source(s: Settings, js: seq<Journal>, steps: seq<Step>, idOf: nat -> ClientId, n: nat): Origin -> bool
    requires n < |js|
  {
    o => Sourced(s, js, steps, idOf, n, o)
  }

  /** The step that submitted it. */
  lemma SourceOf(s: Settings, js: seq<Journal>, steps: seq<Step>, idOf: nat -> ClientId, n: nat, o: Origin) returns (k: nat)
    requires n < |js| && Sourced(s, js, steps, idOf, n, o)
    ensures k < n && Cleared(js, k) == Cleared(js, n) && SubmittedAt(s, js, steps, k, o)
  {
    k :| k < n && Cleared(js, k) == Cleared(js, n) && SubmittedAt(s, js, steps, k, o);
  }

  /** A row that carries on an older intent, perhaps with the order found for it. */
  lemma CarriedOn(s: Settings, js: seq<Journal>, steps: seq<Step>, idOf: nat -> ClientId, n: nat, p: Origin, o: Origin)
    requires 0 < n < |js| && Cleared(js, n) == Cleared(js, n - 1) && Sourced(s, js, steps, idOf, n - 1, p)
    requires o == p.(order := o.order) && (o.order.Some? ==> idOf(o.order.value) == o.clientId)
    ensures Sourced(s, js, steps, idOf, n, o)
  {
    var k := SourceOf(s, js, steps, idOf, n - 1, p);
    assert SubmittedAt(s, js, steps, k, o);
  }

  lemma NewlySubmitted(s: Settings, js: seq<Journal>, steps: seq<Step>, idOf: nat -> ClientId, n: nat, o: Origin)
    requires 0 < n < |js| && n <= |steps| && Cleared(js, n) == Cleared(js, n - 1)
    requires TruthfulStep(s, js[n - 1], steps[n - 1].event, idOf)
    requires steps[n - 1].event.SubmitTier? && js[n - 1].saved.Some? && steps[n - 1].event.tier < |s.tiers|
    requires Submits(s, js[n - 1].saved.value, steps[n - 1].event, o)
    ensures Sourced(s, js, steps, idOf, n, o)
  {
    assert SubmittedAt(s, js, steps, n - 1, o);
  }

  lemma CarriedIsSourced(s: Settings, js: seq<Journal>, steps: seq<Step>, idOf: nat -> ClientId, n: nat, o: Origin)
    requires 0 < n < |js| && n <= |steps| && TruthfulStep(s, js[n - 1], steps[n - 1].event, idOf)
    requires Cleared(js, n) == Cleared(js, n - 1) && JournalOk(js[n - 1], Source(s, js, steps, idOf, n - 1))
    requires Carries(s, js[n - 1], steps[n - 1].event, o)
    ensures Sourced(s, js, steps, idOf, n, o)
  {
    var j, e := js[n - 1], steps[n - 1].event;
    if e.SubmitTier? && e.tier < |s.tiers| && j.saved.Some? && Submits(s, j.saved.value, e, o) {
      NewlySubmitted(s, js, steps, idOf, n, o);
    } else {
      var p := OfPending(j.saved.value.pending.value);
      assert Source(s, js, steps, idOf, n - 1)(p);
      CarriedOn(s, js, steps, idOf, n, p, o);
    }
  }

  lemma OlderIsSourced(s: Settings, js: seq<Journal>, steps: seq<Step>, idOf: nat -> ClientId, n: nat, o: Origin)
    requires 0 < n < |js| && Cleared(js, n) == Cleared(js, n - 1) && Sourced(s, js, steps, idOf, n - 1, o)
    ensures Sourced(s, js, steps, idOf, n, o)
  {
    CarriedOn(s, js, steps, idOf, n, o, o);
  }

  lemma StepSourced(s: Settings, js: seq<Journal>, steps: seq<Step>, idOf: nat -> ClientId, n: nat)
    requires 0 < n < |js| && IsHistory(s, js, steps) && Truthful(s, js, steps, idOf)
    requires Cleared(js, n) == Cleared(js, n - 1) && JournalOk(js[n - 1], Source(s, js, steps, idOf, n - 1))
    ensures JournalOk(js[n], Source(s, js, steps, idOf, n))
  {
    var j, step := js[n - 1], steps[n - 1];
    var ok := Source(s, js, steps, idOf, n);
    assert LeadsTo(s, j, step, js[n]) && TruthfulStep(s, j, step.event, idOf);
    var saves := SavesOf(s, j, step.event);
    forall i | 0 <= i < step.n ensures SaveOk(saves[..step.n][i], ok) {
      if saves[i].Some? && saves[i].value.pending.Some? {
        SavesCarry(s, j, step.event, i);
        CarriedIsSourced(s, js, steps, idOf, n, OfPending(saves[i].value.pending.value));
      }
    }
    assert JournalOk(j, ok) by {
      if j.saved.Some? && j.saved.value.pending.Some? {
        OlderIsSourced(s, js, steps, idOf, n, OfPending(j.saved.value.pending.value));
      }
      forall i | 0 <= i < |j.ledger| ensures ok(OfEntry(j.ledger[i])) {
        assert Source(s, js, steps, idOf, n - 1)(OfEntry(j.ledger[i]));
        OlderIsSourced(s, js, steps, idOf, n, OfEntry(j.ledger[i]));
      }
    }
    WriteAllOk(s.kind, j, saves[..step.n], ok);
  }

  /** Every pending and every recorded intent was submitted in its own campaign. */
  lemma {:induction false} AllSourced(s: Settings, js: seq<Journal>, steps: seq<Step>, idOf: nat -> ClientId, n: nat)
    requires IsHistory(s, js, steps) && Truthful(s, js, steps, idOf) && n < |js|
    ensures JournalOk(js[n], Source(s, js, steps, idOf, n))
    ensures js[n].saved.None? ==> js[n].ledger == []
  {
    if n > 0 {
      AllSourced(s, js, steps, idOf, n - 1);
      assert LeadsTo(s, js[n - 1], steps[n - 1], js[n]);
      EmptyWhenCleared(s, js[n - 1], steps[n - 1], js[n]);
      if js[n].saved.Some? || js[n - 1].saved.None? {
        StepSourced(s, js, steps, idOf, n);
      }
    }
  }

  lemma EmptyWhenCleared(s: Settings, j: Journal, step: Step, after: Journal)
    requires LeadsTo(s, j, step, after) && (j.saved.None? ==> j.ledger == [])
    ensures after.saved.None? ==> after.ledger == []
  {
    var saves := SavesOf(s, j, step.event);
    if step.n == 0 {
      assert saves[..0] == [];
    } else {
      WriteAllStep(s.kind, j, saves, step.n - 1);
    }
  }

  // ------------------------------------------------------------------
  // When an ID repeats.
  // ------------------------------------------------------------------

  ghost predicate IsSubmission(s: Settings, js: seq<Journal>, steps: seq<Step>, k: nat) {
    k < |steps| && k < |js| && steps[k].event.SubmitTier? && js[k].saved.Some? && steps[k].event.tier < |s.tiers|
  }

  /** The same extremum, tier and number of attempts before: a caller can compare
      these before it submits. */
  predicate SameCircumstances(s: Settings, js: seq<Journal>, steps: seq<Step>, k: nat, m: nat)
    requires k < |steps| && k < |js| && steps[k].event.SubmitTier? && js[k].saved.Some? && steps[k].event.tier < |s.tiers|
    requires m < |steps| && m < |js| && steps[m].event.SubmitTier? && js[m].saved.Some? && steps[m].event.tier < |s.tiers|
  {
    && js[k].saved.value.referenceTs == js[m].saved.value.referenceTs
    && steps[k].event.tier == steps[m].event.tier
    && Attempts(js[k].saved.value, s.tiers[steps[k].event.tier].0) == Attempts(js[m].saved.value, s.tiers[steps[m].event.tier].0)
  }

  /** The IDs of two submissions are equal exactly in the same circumstances. */
  lemma SameIdExactly(s: Settings, js: seq<Journal>, steps: seq<Step>, k: nat, l: nat, o: Origin, p: Origin)
    requires ValidSettings(s) && SubmittedAt(s, js, steps, k, o) && SubmittedAt(s, js, steps, l, p)
    ensures IsSubmission(s, js, steps, k) && IsSubmission(s, js, steps, l)
    ensures o.clientId == p.clientId <==> SameCircumstances(s, js, steps, k, l)
  {
    var i, j := steps[k].event.tier, steps[l].event.tier;
    assert i != j ==> s.tiers[i].0 != s.tiers[j].0;
  }

  /** Exactly when an intent of a later campaign repeats the client ID of an entry
      recorded in an earlier one: their submissions, each found in its own
      campaign, were made from the same extremum timestamp, for the same tier and
      after equally many attempts. */
  lemma ClientIdRepeatsExactly(s: Settings, js: seq<Journal>, steps: seq<Step>, idOf: nat -> ClientId, m: nat, i: nat, n: nat)
    returns (k: nat, l: nat)
    requires ValidSettings(s) && IsHistory(s, js, steps) && Truthful(s, js, steps, idOf)
    requires m < |js| && n < |js| && i < |js[m].ledger| && Cleared(js, m) < Cleared(js, n)
    requires js[n].saved.Some? && js[n].saved.value.pending.Some?
    ensures IsSubmission(s, js, steps, k) && Cleared(js, k) == Cleared(js, m)
    ensures IsSubmission(s, js, steps, l) && Cleared(js, l) == Cleared(js, n)
    ensures js[m].ledger[i].clientId == js[n].saved.value.pending.value.clientId <==> SameCircumstances(s, js, steps, k, l)
  {
    var e, p := OfEntry(js[m].ledger[i]), OfPending(js[n].saved.value.pending.value);
    EntrySourced(s, js, steps, idOf, m, i);
    PendingSourced(s, js, steps, idOf, n);
    k := SourceOf(s, js, steps, idOf, m, e);
    l := SourceOf(s, js, steps, idOf, n, p);
    SameIdExactly(s, js, steps, k, l, e, p);
  }

  lemma EntrySourced(s: Settings, js: seq<Journal>, steps: seq<Step>, idOf: nat -> ClientId, n: nat, i: nat)
    requires IsHistory(s, js, steps) && Truthful(s, js, steps, idOf) && n < |js| && i < |js[n].ledger|
    ensures Sourced(s, js, steps, idOf, n, OfEntry(js[n].ledger[i]))
  {
    AllSourced(s, js, steps, idOf, n);
    assert Source(s, js, steps, idOf, n)(OfEntry(js[n].ledger[i]));
  }

  lemma PendingSourced(s: Settings, js: seq<Journal>, steps: seq<Step>, idOf: nat -> ClientId, n: nat)
    requires IsHistory(s, js, steps) && Truthful(s, js, steps, idOf) && n < |js|
    requires js[n].saved.Some? && js[n].saved.value.pending.Some?
    ensures Sourced(s, js, steps, idOf, n, OfPending(js[n].saved.value.pending.value))
  {
    AllSourced(s, js, steps, idOf, n);
    assert Source(s, js, steps, idOf, n)(OfPending(js[n].saved.value.pending.value));
  }

  // ------------------------------------------------------------------
  // What follows for exactly-once.
  // ------------------------------------------------------------------

  /** Within a campaign no order is recorded twice ... */
  lemma RecordedOnceInside(s: Settings, js: seq<Journal>, steps: seq<Step>, idOf: nat -> ClientId, n: nat, i: nat, j: nat)
    requires ValidSettings(s) && IsHistory(s, js, steps) && Truthful(s, js, steps, idOf)
    requires n < |js| && i < j < |js[n].ledger| && js[n].ledger[i].order.Some?
    ensures js[n].ledger[i].order != js[n].ledger[j].order
  {
    EntrySourced(s, js, steps, idOf, n, i);
    EntrySourced(s, js, steps, idOf, n, j);
    AllSourced(s, js, steps, idOf, n);
    OwnClientAttempt(s, js, steps, n, i, j);
    var k := SourceOf(s, js, steps, idOf, n, OfEntry(js[n].ledger[i]));
    var l := SourceOf(s, js, steps, idOf, n, OfEntry(js[n].ledger[j]));
  }

  /** ... and an order recorded in two was submitted in both under the same
      circumstances.  So where no two campaigns start from the same extremum, every
      order is recorded at most once in the whole history. */
  lemma RecordedTwiceOnlyIf(s: Settings, js: seq<Journal>, steps: seq<Step>, idOf: nat -> ClientId, m: nat, i: nat, n: nat, j: nat)
    returns (k: nat, l: nat)
    requires ValidSettings(s) && IsHistory(s, js, steps) && Truthful(s, js, steps, idOf)
    requires m < |js| && n < |js| && i < |js[m].ledger| && j < |js[n].ledger| && Cleared(js, m) < Cleared(js, n)
    requires js[m].ledger[i].order.Some? && js[m].ledger[i].order == js[n].ledger[j].order
    ensures IsSubmission(s, js, steps, k) && Cleared(js, k) == Cleared(js, m)
    ensures IsSubmission(s, js, steps, l) && Cleared(js, l) == Cleared(js, n)
    ensures SameCircumstances(s, js, steps, k, l)
  {
    EntrySourced(s, js, steps, idOf, m, i);
    EntrySourced(s, js, steps, idOf, n, j);
    k := SourceOf(s, js, steps, idOf, m, OfEntry(js[m].ledger[i]));
    l := SourceOf(s, js, steps, idOf, n, OfEntry(js[n].ledger[j]));
    SameIdExactly(s, js, steps, k, l, OfEntry(js[m].ledger[i]), OfEntry(js[n].ledger[j]));
  }

  // ------------------------------------------------------------------
  // A history in which it happens.
  // ------------------------------------------------------------------

  lemma Extend(s: Settings, js0: seq<Journal>, steps0: seq<Step>, e: Event, n: nat, after: Journal, idOf: nat -> ClientId)
    returns (js: seq<Journal>, steps: seq<Step>)
    requires IsHistory(s, js0, steps0) && Truthful(s, js0, steps0, idOf) && LeadsTo(s, js0[|js0| - 1], Step(e, n), after)
    requires TruthfulStep(s, js0[|js0| - 1], e, idOf)
    ensures IsHistory(s, js, steps) && Truthful(s, js, steps, idOf) && js == js0 + [after] && steps == steps0 + [Step(e, n)]
  {
    js, steps := js0 + [after], steps0 + [Step(e, n)];
    forall i, k | 0 <= i < |steps| && k == i + 1 ensures LeadsTo(s, js[i], steps[i], js[k]) {
      assert js[i] == js0[i];
      if i < |steps0| {
        assert steps[i] == steps0[i] && js[k] == js0[k];
      }
    }
    forall i | 0 <= i < |steps| ensures TruthfulStep(s, js[i], steps[i].event, idOf) {
      assert js[i] == js0[i];
      if i < |steps0| {
        assert steps[i] == steps0[i];
      }
    }
  }

  /** A campaign with one order, closed and recorded. */
  ghost predicate RecordedOne(j: Journal, id: ClientId, requested: real) {
    && j.saved.Some? && j.saved.value.pending.None? && |j.ledger| == 1
    && j.ledger[0].clientId == id && j.ledger[0].order == Some(0) && j.ledger[0].amount == requested
    && j.saved.value.total == requested
  }

  function Opened(): Journal {
    Journal(Some(Fresh(1.0, 1.0, 1.0)), [])
  }

  function FirstIntent(s: Settings): Pending
    requires |s.tiers| > 0
  {
    NewIntent(s, Fresh(1.0, 1.0, 1.0), 0, 0.0)
  }

  lemma Starts(s: Settings)
    requires ValidSettings(s)
    ensures LeadsTo(s, Journal(None, []), Step(Start(1.0, 1.0, 1.0), 1), Opened())
  {
    var none, e := Journal(None, []), Start(1.0, 1.0, 1.0);
    assert SavesOf(s, none, e)[..1] == SavesOf(s, none, e);
    WriteAllStep(s.kind, none, SavesOf(s, none, e), 0);
  }

  lemma Clears(s: Settings, j: Journal)
    requires j.saved.Some? && j.saved.value.pending.None?
    ensures LeadsTo(s, j, Step(Clear, 1), Journal(None, []))
  {
    assert SavesOf(s, j, Clear)[..1] == SavesOf(s, j, Clear);
    WriteAllStep(s.kind, j, SavesOf(s, j, Clear), 0);
  }

  /** The pending intent after the venue was called, its order known or not. */
  function Sent(s: Settings, known: bool): Journal
    requires |s.tiers| > 0
  {
    var c := Counted(s, Fresh(1.0, 1.0, 1.0), 0);
    var row := FirstIntent(s);
    Journal(Some(c.(pending := Some(if known then row.(submission := AcceptedOutcome, orderId := Some(0))
                                    else row.(submission := UnknownOutcome)))), [])
  }

  function SendEvent(known: bool): Event {
    if known then SubmitTier(0, 0.0, AcceptedOutcome, Some(0)) else SubmitTier(0, 0.0, UnknownOutcome, None)
  }

  lemma Sends(s: Settings, known: bool)
    requires ValidSettings(s) && |s.tiers| > 0
    ensures LeadsTo(s, Opened(), Step(SendEvent(known), 2), Sent(s, known))
    ensures FirstIntent(s).requested == Target(s, 1.0, 0) > 0.0
  {
    var saves := SavesOf(s, Opened(), SendEvent(known));
    TargetPositive(s, 1.0, 0);
    assert Remaining(s, Fresh(1.0, 1.0, 1.0), 0) == Target(s, 1.0, 0);
    assert saves[..2] == saves && saves[..1][..0] == [];
    WriteAllStep(s.kind, Opened(), saves, 0);
    WriteAllStep(s.kind, Opened(), saves, 1);
  }

  function Answered(requested: real, known: bool): Event {
    Reconcile(0.0, Answers(if known then LookupFails else FoundOrder(0), Got(FullFill(requested, 0.0)), false, StatusFails))
  }

  /** The order is found closed, and recorded. */
  lemma Records(s: Settings, known: bool, requested: real) returns (after: Journal)
    requires ValidSettings(s) && |s.tiers| > 0 && requested == FirstIntent(s).requested > 0.0
    ensures LeadsTo(s, Sent(s, known), Step(Answered(requested, known), if known then 2 else 3), after)
    ensures RecordedOne(after, FirstIntent(s).clientId, requested)
  {
    var j, e := Sent(s, known), Answered(requested, known);
    var p := j.saved.value.pending.value;
    var saves := SavesOf(s, j, e);
    var found := p.(orderId := Some(0), misses := 0, lookupError := false);
    var final := EndedRow((if known then p else found).(statusError := false), FullFill(requested, 0.0));
    assert ReconcileTrace(s.policy, p, 0.0, e.answers) ==
           Trace(if known then [Some(final)] else [Some(found)] + [Some(final)], Ended(FullFill(requested, 0.0)));
    assert Amount(s.kind, FullFill(requested, 0.0)) == requested;
    var n := if known then 2 else 3;
    assert |saves| == n && saves[..n] == saves;
    assert saves[n - 2] == Some(j.saved.value.(pending := Some(final)));
    if !known {
      assert saves[0] == Some(j.saved.value.(pending := Some(found)));
      assert saves[..0] == [];
      WriteAllStep(s.kind, j, saves, 0);
    }
    assert saves[..0] == [];
    WriteAllStep(s.kind, j, saves, n - 2);
    WriteAllStep(s.kind, j, saves, n - 1);
    after := WriteAll(s.kind, j, saves);
  }

  ghost predicate OneClientId(s: Settings, js: seq<Journal>, steps: seq<Step>)
    requires |s.tiers| > 0
  {
    IsHistory(s, js, steps) && Truthful(s, js, steps, (order: nat) => FirstIntent(s).clientId)
  }

  /** A campaign with one closed order, opened on a cleared record. */
  lemma OneCampaign(s: Settings, js0: seq<Journal>, steps0: seq<Step>, known: bool) returns (js: seq<Journal>, steps: seq<Step>, after: Journal)
    requires ValidSettings(s) && |s.tiers| > 0 && OneClientId(s, js0, steps0) && js0[|js0| - 1] == Journal(None, [])
    ensures OneClientId(s, js, steps) && js == js0 + [Opened(), Sent(s, known), after]
    ensures RecordedOne(after, FirstIntent(s).clientId, FirstIntent(s).requested)
  {
    var idOf := (order: nat) => FirstIntent(s).clientId;
    var requested := FirstIntent(s).requested;
    Starts(s);
    Sends(s, known);
    after := Records(s, known, requested);
    js, steps := Extend(s, js0, steps0, Start(1.0, 1.0, 1.0), 1, Opened(), idOf);
    js, steps := Extend(s, js, steps, SendEvent(known), 2, Sent(s, known), idOf);
    js, steps := Extend(s, js, steps, Answered(requested, known), if known then 2 else 3, after, idOf);
    assert js == js0 + [Opened(), Sent(s, known), after];
  }

  /** One order, recorded in two campaigns: the second campaign starts from the same
      extremum, its submission has an unknown outcome, and the lookup by the
      repeated client ID returns the first campaign's order. */
  lemma OneOrderInTwoCampaigns(s: Settings) returns (js: seq<Journal>, steps: seq<Step>)
    requires ValidSettings(s) && |s.tiers| > 0
    ensures OneClientId(s, js, steps) && |js| == 8 && Cleared(js, 3) < Cleared(js, 7)
    ensures RecordedOne(js[3], FirstIntent(s).clientId, FirstIntent(s).requested)
    ensures RecordedOne(js[7], FirstIntent(s).clientId, FirstIntent(s).requested)
  {
    var none := Journal(None, []);
    assert OneClientId(s, [none], []);
    var first, second;
    js, steps, first := OneCampaign(s, [none], [], true);
    Clears(s, first);
    js, steps := Extend(s, js, steps, Clear, 1, none, (order: nat) => FirstIntent(s).clientId);
    js, steps, second := OneCampaign(s, js, steps, false);
    assert js == [none, Opened(), Sent(s, true), first, none, Opened(), Sent(s, false), second];
    ClearedOnce(js, none, Opened(), Sent(s, true), first, Sent(s, false), second);
  }

  lemma ClearedOnce(js: seq<Journal>, none: Journal, a: Journal, b: Journal, c: Journal, d: Journal, e: Journal)
    requires js == [none, a, b, c, none, a, d, e] && none.saved.None? && a.saved.Some? && b.saved.Some?
    requires c.saved.Some? && d.saved.Some? && e.saved.Some?
    ensures Cleared(js, 3) == 0 && Cleared(js, 7) == 1
  {
    assert Cleared(js, 0) == 0 && Cleared(js, 1) == 0 && Cleared(js, 2) == 0 && Cleared(js, 3) == 0;
    assert Cleared(js, 4) == 1 && Cleared(js, 5) == 1 && Cleared(js, 6) == 1;
  }

  // ------------------------------------------------------------------
  // Exactly when an order can be recorded again.
  // ------------------------------------------------------------------

  /** One more step of a truthful history accounts for the order. */
  ghost predicate RecordsNext(s: Settings, js: seq<Journal>, steps: seq<Step>, idOf: nat -> ClientId, order: nat, step: Step, after: Journal)
    requires |js| > 0
  {
    var ledger := js[|js| - 1].ledger;
    && IsHistory(s, js + [after], steps + [step]) && Truthful(s, js + [after], steps + [step], idOf)
    && |after.ledger| == |ledger| + 1 && after.ledger[|ledger|].order == Some(order)
    && after.saved.Some? && after.saved.value.pending.None?
  }

  ghost predicate CanRecord(s: Settings, js: seq<Journal>, steps: seq<Step>, idOf: nat -> ClientId, order: nat)
    requires |js| > 0
  {
    exists step, after :: RecordsNext(s, js, steps, idOf, order, step, after)
  }

  /** The ledger grows by entries of one client ID only. */
  ghost predicate GrowsBy(before: seq<Entry>, after: seq<Entry>, id: ClientId) {
    before <= after && forall i :: |before| <= i < |after| ==> after[i].clientId == id
  }

  lemma {:induction false} WritesGrow(kind: Kind, j: Journal, saves: seq<Option<Campaign>>, id: ClientId)
    requires forall i :: 0 <= i < |saves| ==>
               saves[i].Some? && (saves[i].value.pending.Some? ==> saves[i].value.pending.value.clientId == id)
    ensures GrowsBy(j.ledger, WriteAll(kind, j, saves).ledger, id)
  {
    if saves != [] {
      WritesGrow(kind, j, saves[..|saves| - 1], id);
    }
  }

  /** While an intent is pending, only its own order can be recorded. */
  lemma PendingGrows(s: Settings, j: Journal, step: Step, after: Journal)
    requires LeadsTo(s, j, step, after) && j.saved.Some? && j.saved.value.pending.Some?
    ensures GrowsBy(j.ledger, after.ledger, j.saved.value.pending.value.clientId)
  {
    var saves, id := SavesOf(s, j, step.event), j.saved.value.pending.value.clientId;
    forall i | 0 <= i < |saves[..step.n]|
      ensures saves[i].Some? && (saves[i].value.pending.Some? ==> saves[i].value.pending.value.clientId == id)
    {
      if saves[i].Some? && saves[i].value.pending.Some? {
        SavesCarry(s, j, step.event, i);
      }
    }
    WritesGrow(s.kind, j, saves[..step.n], id);
  }

  /** The lookup finds the order, closed with this status. */
  function Rediscovery(order: nat, status: Status): Event {
    Reconcile(0.0, Answers(FoundOrder(order), Got(status), false, StatusFails))
  }

  /** The three saves of a rediscovery: the order, its end, and the account. */
  lemma Rediscovers(s: Settings, j: Journal, order: nat, status: Status) returns (after: Journal)
    requires j.saved.Some? && j.saved.value.pending.Some? && Terminal(status)
    requires j.saved.value.pending.value.orderId.None? && j.saved.value.pending.value.terminal.None?
    ensures LeadsTo(s, j, Step(Rediscovery(order, status), 3), after)
    ensures |after.ledger| == |j.ledger| + 1 && after.ledger[|j.ledger|].order == Some(order)
    ensures after.saved.Some? && after.saved.value.pending.None?
    ensures after.saved.value.total == j.saved.value.total + Amount(s.kind, status)
  {
    var p, e := j.saved.value.pending.value, Rediscovery(order, status);
    var known := p.(orderId := Some(order), misses := 0, lookupError := false);
    var final := EndedRow(known.(statusError := false), status);
    var saves := SavesOf(s, j, e);
    assert ReconcileTrace(s.policy, p, 0.0, e.answers) == Trace([Some(known)] + [Some(final)], Ended(status));
    assert |saves| == 3 && saves[..3] == saves && saves[..0] == [];
    assert saves[0] == Some(j.saved.value.(pending := Some(known))) && saves[1] == Some(j.saved.value.(pending := Some(final)));
    WriteAllStep(s.kind, j, saves, 0);
    WriteAllStep(s.kind, j, saves, 1);
    WriteAllStep(s.kind, j, saves, 2);
    after := WriteAll(s.kind, j, saves);
  }

  lemma TruthfulRecords(s: Settings, js: seq<Journal>, steps: seq<Step>, idOf: nat -> ClientId, order: nat)
    requires IsHistory(s, js, steps) && Truthful(s, js, steps, idOf)
    requires js[|js| - 1].saved.Some? && js[|js| - 1].saved.value.pending.Some?
    requires var p := js[|js| - 1].saved.value.pending.value; p.orderId.None? && p.terminal.None? && idOf(order) == p.clientId
    ensures CanRecord(s, js, steps, idOf, order)
  {
    var status := Status(Closed, 1.0, 1.0, 0.0);
    var after := Rediscovers(s, js[|js| - 1], order, status);
    var js1, steps1 := Extend(s, js, steps, Rediscovery(order, status), 3, after, idOf);
    assert RecordsNext(s, js, steps, idOf, order, Step(Rediscovery(order, status), 3), after);
  }

  lemma RecordedIsOwn(s: Settings, js: seq<Journal>, steps: seq<Step>, idOf: nat -> ClientId, order: nat, step: Step, after: Journal)
    requires IsHistory(s, js, steps) && RecordsNext(s, js, steps, idOf, order, step, after)
    requires js[|js| - 1].saved.Some? && js[|js| - 1].saved.value.pending.Some?
    ensures idOf(order) == js[|js| - 1].saved.value.pending.value.clientId
  {
    var n := |js|;
    var more, longer := js + [after], steps + [step];
    assert more[n] == after && more[n - 1] == js[n - 1] && longer[n - 1] == step;
    assert LeadsTo(s, more[n - 1], longer[n - 1], more[n]);
    PendingGrows(s, js[n - 1], step, after);
    EntrySourced(s, more, longer, idOf, n, |js[n - 1].ledger|);
  }

  /** An order recorded in an earlier campaign can be recorded again, by a truthful
      lookup for an intent whose fate is unknown, exactly when the two submissions
      were made from the same extremum timestamp, for the same tier and after
      equally many attempts. */
  lemma RecordedAgainExactly(s: Settings, js: seq<Journal>, steps: seq<Step>, idOf: nat -> ClientId, m: nat, i: nat, order: nat)
    returns (k: nat, l: nat)
    requires ValidSettings(s) && IsHistory(s, js, steps) && Truthful(s, js, steps, idOf)
    requires m < |js| && i < |js[m].ledger| && js[m].ledger[i].order == Some(order) && Cleared(js, m) < Cleared(js, |js| - 1)
    requires js[|js| - 1].saved.Some? && js[|js| - 1].saved.value.pending.Some?
    requires js[|js| - 1].saved.value.pending.value.orderId.None? && js[|js| - 1].saved.value.pending.value.terminal.None?
    ensures IsSubmission(s, js, steps, k) && Cleared(js, k) == Cleared(js, m)
    ensures IsSubmission(s, js, steps, l) && Cleared(js, l) == Cleared(js, |js| - 1)
    ensures CanRecord(s, js, steps, idOf, order) <==> SameCircumstances(s, js, steps, k, l)
  {
    k, l := ClientIdRepeatsExactly(s, js, steps, idOf, m, i, |js| - 1);
    EntrySourced(s, js, steps, idOf, m, i);
    if idOf(order) == js[|js| - 1].saved.value.pending.value.clientId {
      TruthfulRecords(s, js, steps, idOf, order);
    }
    if CanRecord(s, js, steps, idOf, order) {
      var step, after :| RecordsNext(s, js, steps, idOf, order, step, after);
      RecordedIsOwn(s, js, steps, idOf, order, step, after);
    }
  }
}
