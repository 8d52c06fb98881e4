/** Whole histories of a campaign, crashes included. */
module CampaignHistory {
  import opened Options
  import opened TrackedLifecycle
  import opened Campaigns

  lemma WriteAllStep(kind: Kind, j: Journal, saves: seq<Option<Campaign>>, n: nat)
    requires n < |saves|
    ensures WriteAll(kind, j, saves[..n + 1]) == Write(kind, WriteAll(kind, j, saves[..n]), saves[n])
  {
    assert saves[..n + 1][..n] == saves[..n];
  }

  /** After k rows of a trace the record holds the k-th one and nothing else moved. */
  ghost predicate AtRow(s: Settings, j: Journal, p: Pending, rows: seq<Option<Pending>>, k: nat, now: Journal)
    requires j.saved.Some? && k <= |rows|
  {
    && Sound(s, now) && now.saved == Some(LastRow(j.saved.value, rows[..k]))
    && (!TerminalRow(now.saved.value) ==> now.ledger == j.ledger)
    && (k < |rows| ==> now.saved.value.pending.Some? && SameIntent(p, now.saved.value.pending.value) && !TerminalRow(now.saved.value))
  }

  predicate FinalRows(rows: seq<Option<Pending>>) {
    forall i :: 0 <= i < |rows| && rows[i].Some? && rows[i].value.terminal.Some? ==> Terminal(rows[i].value.terminal.value)
  }

  lemma NoRow(s: Settings, j: Journal, p: Pending, rows: seq<Option<Pending>>)
    requires Sound(s, j) && j.saved.Some? && j.saved.value.pending == Some(p) && !TerminalRow(j.saved.value)
    ensures AtRow(s, j, p, rows, 0, j)
  {
    assert rows[..0] == [];
  }

  /** A property of the journal that each save carries on holds after any prefix. */
  lemma {:induction false} EverySave(kind: Kind, j: Journal, saves: seq<Option<Campaign>>, holds: (nat, Journal) -> bool, n: nat)
    requires n <= |saves| && holds(0, j)
    requires forall k: nat, before: Journal :: k < |saves| && holds(k, before) ==> holds(k + 1, Write(kind, before, saves[k]))
    ensures holds(n, WriteAll(kind, j, saves[..n]))
  {
    if n == 0 {
      assert saves[..0] == [];
    } else {
      EverySave(kind, j, saves, holds, n - 1);
      WriteAllStep(kind, j, saves, n - 1);
    }
  }

  lemma RowsSound(s: Settings, j: Journal, p: Pending, t: Trace, n: nat)
    requires Sound(s, j) && j.saved.Some? && j.saved.value.pending == Some(p) && !TerminalRow(j.saved.value)
    requires WellTraced(p, t) && FinalRows(t.saves) && n <= |t.saves|
    ensures AtRow(s, j, p, t.saves, n, WriteAll(s.kind, j, WithPending(j.saved.value, t.saves)[..n]))
  {
    var saves := WithPending(j.saved.value, t.saves);
    var holds := (k: nat, now: Journal) => k <= |t.saves| && AtRow(s, j, p, t.saves, k, now);
    NoRow(s, j, p, t.saves);
    forall k: nat, before: Journal | k < |saves| && holds(k, before) ensures holds(k + 1, Write(s.kind, before, saves[k])) {
      RowSound(s, j, p, t, k + 1, before);
    }
    EverySave(s.kind, j, saves, holds, n);
  }

  lemma RowSound(s: Settings, j: Journal, p: Pending, t: Trace, k: nat, before: Journal)
    requires j.saved.Some? && 0 < k <= |t.saves| && AtRow(s, j, p, t.saves, k - 1, before)
    requires WellTraced(p, t) && FinalRows(t.saves)
    ensures AtRow(s, j, p, t.saves, k, Write(s.kind, before, Some(j.saved.value.(pending := t.saves[k - 1]))))
  {
    var rows := t.saves;
    var c := j.saved.value.(pending := rows[k - 1]);
    assert LastRow(j.saved.value, rows[..k]) == c;
    if rows[k - 1].Some? {
      RowSaveSound(s, before, c);
    } else {
      RemovalSound(s, before);
    }
  }

  /** A final row carries the status that the reconciliation ended with. */
  lemma FinalRow(policy: Policy, p: Pending, now: real, a: Answers)
    requires p.terminal.None?
    ensures var t := ReconcileTrace(policy, p, now, a);
            && FinalRows(t.saves)
            && forall i :: 0 <= i < |t.saves| && t.saves[i].Some? && t.saves[i].value.terminal.Some? ==>
                 i == |t.saves| - 1 && t.outcome.Ended? && t.saves[i].value.terminal == Some(t.outcome.status)
  {
    ReconcileWellTraced(policy, p, now, a);
  }

  /** The last save of a reconciliation: the account or the attempt number. */
  lemma ClosingSound(s: Settings, j: Journal, p: Pending, now: real, a: Answers, at: Journal)
    requires ValidSettings(s) && Sound(s, at) && at.saved.Some? && j.saved.Some?
    requires Unused(j.ledger, p)
    requires var t := ReconcileTrace(s.policy, p, now, a);
             && at.saved == Some(LastRow(j.saved.value, t.saves)) && (!TerminalRow(at.saved.value) ==> at.ledger == j.ledger)
             && (t.outcome.Ended? ==> TerminalRow(at.saved.value) && SameIntent(p, at.saved.value.pending.value) &&
                                      at.saved.value.pending.value.terminal == Some(t.outcome.status))
             && (t.outcome.Absent? || t.outcome.Retryable? ==> at.saved.value.pending.None?)
    ensures var t := ReconcileTrace(s.policy, p, now, a);
            && (t.outcome.Ended? ==> Sound(s, Write(s.kind, at, Some(Recorded(s.kind, at.saved.value, p.threshold, t.outcome.status)))))
            && (t.outcome.Absent? || t.outcome.Retryable? ==> Sound(s, Write(s.kind, at, Some(Reused(at.saved.value, p)))))
  {
    var t := ReconcileTrace(s.policy, p, now, a);
    if t.outcome.Ended? {
      RecordSound(s, at);
    } else if !t.outcome.Active? {
      ReuseSound(s, at, p);
    }
  }

  /** A reconciliation interrupted among its rows, ... */
  lemma RowsPartSound(s: Settings, j: Journal, p: Pending, now: real, a: Answers, n: nat)
    requires Sound(s, j) && j.saved.Some? && j.saved.value.pending == Some(p) && p.terminal.None?
    requires n <= |ReconcileTrace(s.policy, p, now, a).saves|
    ensures var t := ReconcileTrace(s.policy, p, now, a);
            && WellTraced(p, t)
            && ReconcileSaves(s, j.saved.value, p, now, a)[..n] == WithPending(j.saved.value, t.saves)[..n]
            && AtRow(s, j, p, t.saves, n, WriteAll(s.kind, j, ReconcileSaves(s, j.saved.value, p, now, a)[..n]))
  {
    ReconcileWellTraced(s.policy, p, now, a);
    FinalRow(s.policy, p, now, a);
    RowsSound(s, j, p, ReconcileTrace(s.policy, p, now, a), n);
  }

  /** ... completed with its closing save, ... */
  lemma ClosedSound(s: Settings, j: Journal, p: Pending, now: real, a: Answers)
    requires ValidSettings(s) && Sound(s, j) && j.saved.Some? && j.saved.value.pending == Some(p) && p.terminal.None?
    requires !ReconcileTrace(s.policy, p, now, a).outcome.Active?
    ensures Sound(s, WriteAll(s.kind, j, ReconcileSaves(s, j.saved.value, p, now, a)))
  {
    var t := ReconcileTrace(s.policy, p, now, a);
    var saves, k := ReconcileSaves(s, j.saved.value, p, now, a), |t.saves|;
    RowsPartSound(s, j, p, now, a, k);
    assert t.saves[..k] == t.saves && saves[..k + 1] == saves;
    ClosingSound(s, j, p, now, a, WriteAll(s.kind, j, saves[..k]));
    WriteAllStep(s.kind, j, saves, k);
  }

  /** ... or anywhere at all. */
  lemma ReconcileSound(s: Settings, j: Journal, p: Pending, now: real, a: Answers, n: nat)
    requires ValidSettings(s) && Sound(s, j) && j.saved.Some? && j.saved.value.pending == Some(p)
    requires n <= |ReconcileSaves(s, j.saved.value, p, now, a)|
    ensures Sound(s, WriteAll(s.kind, j, ReconcileSaves(s, j.saved.value, p, now, a)[..n]))
  {
    var saves := ReconcileSaves(s, j.saved.value, p, now, a);
    if p.terminal.Some? {
      CachedSound(s, j, p, now, a, n);
    } else if n <= |ReconcileTrace(s.policy, p, now, a).saves| {
      RowsPartSound(s, j, p, now, a, n);
    } else {
      assert saves[..n] == saves;
      ClosedSound(s, j, p, now, a);
    }
  }

  /** When the terminal status was persisted before, only the account is left. */
  lemma CachedSound(s: Settings, j: Journal, p: Pending, now: real, a: Answers, n: nat)
    requires ValidSettings(s) && Sound(s, j) && j.saved.Some? && j.saved.value.pending == Some(p) && p.terminal.Some?
    requires n <= |ReconcileSaves(s, j.saved.value, p, now, a)|
    ensures Sound(s, WriteAll(s.kind, j, ReconcileSaves(s, j.saved.value, p, now, a)[..n]))
  {
    var saves := ReconcileSaves(s, j.saved.value, p, now, a);
    ReconcileWellTraced(s.policy, p, now, a);
    assert saves == [Some(Recorded(s.kind, j.saved.value, p.threshold, p.terminal.value))];
    RecordSound(s, j);
    assert saves[..0] == [] && saves[..1] == saves;
    assert n == 1 ==> WriteAll(s.kind, j, saves[..n]) == Write(s.kind, WriteAll(s.kind, j, saves[..0]), saves[0]);
  }

  /** The two saves of a submission, one by one. */
  lemma SubmitSaves(s: Settings, j: Journal, i: nat, now: real, said: Submission, order: Option<nat>)
    requires Admissible(s, j, SubmitTier(i, now, said, order))
    ensures var saves := SavesOf(s, j, SubmitTier(i, now, said, order));
            var c := Counted(s, j.saved.value, i);
            var first := Write(s.kind, j, Some(c.(pending := Some(NewIntent(s, j.saved.value, i, now)))));
            && |saves| == 2 && WriteAll(s.kind, j, saves[..0]) == j && WriteAll(s.kind, j, saves[..1]) == first
            && WriteAll(s.kind, j, saves[..2]) ==
                 Write(s.kind, first, Some(c.(pending := SubmitTrace(NewIntent(s, j.saved.value, i, now), said, order)[1])))
  {
    var saves := SavesOf(s, j, SubmitTier(i, now, said, order));
    assert saves[..0] == [];
    WriteAllStep(s.kind, j, saves, 0);
    WriteAllStep(s.kind, j, saves, 1);
  }

  lemma SubmitSound(s: Settings, j: Journal, i: nat, now: real, said: Submission, order: Option<nat>, n: nat)
    requires ValidSettings(s) && Sound(s, j) && Admissible(s, j, SubmitTier(i, now, said, order)) && n <= 2
    ensures Sound(s, WriteAll(s.kind, j, SavesOf(s, j, SubmitTier(i, now, said, order))[..n]))
  {
    var c, intent := Counted(s, j.saved.value, i), NewIntent(s, j.saved.value, i, now);
    SubmitSaves(s, j, i, now, said, order);
    IntentSound(s, j, i, now);
    RowSaveSound(s, Write(s.kind, j, Some(c.(pending := Some(intent)))), c.(pending := SubmitTrace(intent, said, order)[1]));
  }

  lemma OneSave(s: Settings, j: Journal, save: Option<Campaign>, n: nat)
    requires Sound(s, j) && Sound(s, Write(s.kind, j, save)) && n <= 1
    ensures Sound(s, WriteAll(s.kind, j, [save][..n]))
  {
    assert [save][..0] == [] && [save][..1] == [save];
  }

  /** Every event, done completely or in part, keeps the campaign sound. */
  lemma EventSound(s: Settings, j: Journal, e: Event, n: nat)
    requires ValidSettings(s) && Sound(s, j) && Admissible(s, j, e) && n <= |SavesOf(s, j, e)|
    ensures Sound(s, WriteAll(s.kind, j, SavesOf(s, j, e)[..n]))
  {
    match e
    case Start(price, ts, initial) =>
      FreshSound(s, price, ts, initial);
      OneSave(s, j, Some(Fresh(price, ts, initial)), n);
    case Raise(price, ts) =>
      PlainSaveSound(s, j, j.saved.value.(referencePrice := price, referenceTs := ts));
      OneSave(s, j, Some(j.saved.value.(referencePrice := price, referenceTs := ts)), n);
    case SubmitTier(tier, now, said, order) => SubmitSound(s, j, tier, now, said, order, n);
    case Reconcile(now, a) => ReconcileSound(s, j, j.saved.value.pending.value, now, a, n);
    case Complete(tier) =>
      var c := j.saved.value.(completed := j.saved.value.completed + {s.tiers[tier].0});
      PlainSaveSound(s, j, c);
      OneSave(s, j, Some(c), n);
    case Clear => OneSave(s, j, None, n);
  }

  lemma {:induction false} HistorySound(s: Settings, js: seq<Journal>, steps: seq<Step>, n: nat)
    requires ValidSettings(s) && IsHistory(s, js, steps) && n < |js|
    ensures Sound(s, js[n])
  {
    if n > 0 {
      HistorySound(s, js, steps, n - 1);
      assert LeadsTo(s, js[n - 1], steps[n - 1], js[n]);
      EventSound(s, js[n - 1], steps[n - 1].event, steps[n - 1].n);
    }
  }

  // ------------------------------------------------------------------
  // Theorems.
  // ------------------------------------------------------------------

  /** Exactly once: wherever the process died, every order whose terminal status
      was persisted is in its tier and in the total exactly once, or it is the one
      still pending, and the total is the sum of the tiers. */
  lemma ExactlyOnce(s: Settings, js: seq<Journal>, steps: seq<Step>, n: nat, threshold: real)
    requires ValidSettings(s) && IsHistory(s, js, steps) && n < |js| && js[n].saved.Some?
    ensures var c, ledger := js[n].saved.value, js[n].ledger;
            && c.total == TierSum(s.tiers, c.byTier)
            && LedgerTotal(ledger) == c.total + Unrecorded(s.kind, c)
            && LedgerSum(ledger, threshold) == Get(c.byTier, threshold) + UnrecordedAt(s.kind, c, threshold)
            && (!TerminalRow(c) ==> LedgerTotal(ledger) == c.total && LedgerSum(ledger, threshold) == Get(c.byTier, threshold))
  {
    HistorySound(s, js, steps, n);
  }

  /** Completed tiers only grow, and only a clearing ends the campaign, ... */
  lemma CompletedGrows(s: Settings, j: Journal, e: Event, n: nat)
    requires Admissible(s, j, e) && n <= |SavesOf(s, j, e)| && j.saved.Some?
    ensures var after := WriteAll(s.kind, j, SavesOf(s, j, e)[..n]);
            after.saved.Some? ==> j.saved.value.completed <= after.saved.value.completed
    ensures var after := WriteAll(s.kind, j, SavesOf(s, j, e)[..n]);
            after.saved.None? ==> e.Clear?
  {
    var saves := SavesOf(s, j, e);
    SavesKeepCompleted(s, j, e);
    if n > 0 {
      WriteAllStep(s.kind, j, saves, n - 1);
      assert WriteAll(s.kind, j, saves[..n]).saved == saves[n - 1];
    } else {
      assert saves[..0] == [];
    }
  }

  /** ... over any history between two clearings. */
  lemma {:induction false} CompletedKept(s: Settings, js: seq<Journal>, steps: seq<Step>, i: nat, k: nat)
    requires IsHistory(s, js, steps) && i <= k < |js| && forall m :: i <= m <= k ==> js[m].saved.Some?
    ensures js[i].saved.value.completed <= js[k].saved.value.completed
    decreases k - i
  {
    if i < k {
      CompletedKept(s, js, steps, i, k - 1);
      assert LeadsTo(s, js[k - 1], steps[k - 1], js[k]);
      CompletedGrows(s, js[k - 1], steps[k - 1].event, steps[k - 1].n);
    }
  }

  lemma SavesKeepCompleted(s: Settings, j: Journal, e: Event)
    requires Admissible(s, j, e) && j.saved.Some?
    ensures forall i :: 0 <= i < |SavesOf(s, j, e)| ==>
              if SavesOf(s, j, e)[i].None? then e.Clear?
              else j.saved.value.completed <= SavesOf(s, j, e)[i].value.completed
  {
  }

  /** Within a campaign no two recorded orders share a client ID, whatever attempts
      were given back in between. */
  lemma OwnClientAttempt(s: Settings, js: seq<Journal>, steps: seq<Step>, n: nat, i: nat, k: nat)
    requires ValidSettings(s) && IsHistory(s, js, steps) && n < |js| && js[n].saved.Some? && i < k < |js[n].ledger|
    ensures (js[n].ledger[i].threshold, js[n].ledger[i].attempt) != (js[n].ledger[k].threshold, js[n].ledger[k].attempt)
  {
    HistorySound(s, js, steps, n);
  }
}
