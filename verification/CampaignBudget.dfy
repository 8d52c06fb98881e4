/** What a campaign may spend when the venue executes no more than was asked for.
    A BUY turns the whole cash it asks for into a quantity and its fee is booked on
    top, so the fee rate belongs to the bound. */
module CampaignBudget {
  import opened Options
  import opened TrackedLifecycle
  import opened Campaigns
  import opened CampaignHistory

  // ------------------------------------------------------------------
  // What the venue is trusted for.
  // ------------------------------------------------------------------

  /** A BUY costs at most the cash asked for, and its fee is at most a share of the
      cost; a SELL executes at most its quantity. */
  function Charged(kind: Kind, rate: real): (Status, real) -> bool {
    (status: Status, requested: real) =>
      if kind.Buy? then 0.0 <= status.cost <= requested && status.fee <= rate * status.cost
      else status.filled <= requested
  }

  /** No fee of a SELL is booked. */
  function Factor(kind: Kind, rate: real): (f: real) {
    if kind.Buy? then 1.0 + rate else 1.0
  }

  /** A history in which every final answer is charged like that. */
  ghost predicate IsCharged(s: Settings, rate: real, js: seq<Journal>, steps: seq<Step>) {
    && IsHistory(s, js, steps)
    && forall i {:trigger steps[i]} :: 0 <= i < |steps| ==> ChargedStep(s, rate, js[i], steps[i].event)
  }

  ghost predicate ChargedStep(s: Settings, rate: real, j: Journal, e: Event) {
    e.Reconcile? && j.saved.Some? && j.saved.value.pending.Some? ==>
      Honest(j.saved.value.pending.value, e.answers, Charged(s.kind, rate))
  }

  // ------------------------------------------------------------------
  // No tier takes more than its share and the fee on it.
  // ------------------------------------------------------------------

  predicate UnderCap(s: Settings, rate: real, c: Campaign, i: nat)
    requires i < |s.tiers|
  {
    Get(c.byTier, s.tiers[i].0) <= Factor(s.kind, rate) * Target(s, c.initial, i)
  }

  /** The fees make each tier exceed its share by their rate at most, because a tier
      is asked for only what its share has left. */
  ghost predicate Capped(s: Settings, rate: real, c: Campaign) {
    && (forall i :: 0 <= i < |s.tiers| ==> UnderCap(s, rate, c, i))
    && (c.pending.Some? ==> FitsShare(s, c, c.pending.value))
    && (TerminalRow(c) ==>
          Amount(s.kind, c.pending.value.terminal.value) <= Factor(s.kind, rate) * c.pending.value.requested)
  }

  /** A pending order asks for no more than its tier has left. */
  ghost predicate FitsShare(s: Settings, c: Campaign, p: Pending) {
    && p.requested >= 0.0
    && forall i :: 0 <= i < |s.tiers| && s.tiers[i].0 == p.threshold ==> Get(c.byTier, s.tiers[i].0) + p.requested <= Target(s, c.initial, i)
  }

  ghost predicate CappedAt(s: Settings, rate: real, j: Journal) {
    j.saved.Some? ==> Capped(s, rate, j.saved.value)
  }

  lemma ScaleUp(rate: real, cost: real, requested: real)
    requires rate >= 0.0 && 0.0 <= cost <= requested
    ensures cost + rate * cost <= (1.0 + rate) * requested && 0.0 <= (1.0 + rate) * requested
  {
    assert rate * (requested - cost) >= 0.0;
    assert rate * (requested - cost) == rate * requested - rate * cost;
    assert (1.0 + rate) * requested == requested + rate * requested;
    assert rate * requested >= 0.0;
  }

  /** What a final status charged like that adds to its tier. */
  lemma ChargedAmount(kind: Kind, rate: real, status: Status, requested: real)
    requires rate >= 0.0 && requested >= 0.0 && Charged(kind, rate)(status, requested)
    ensures Amount(kind, status) <= Factor(kind, rate) * requested
  {
    if kind.Buy? {
      ScaleUp(rate, status.cost, requested);
    }
  }

  /** Spent and asked for within the share, then spent and charged within its
      factor. */
  lemma ShareArithmetic(factor: real, spent: real, requested: real, amount: real, target: real)
    requires factor >= 1.0 && spent >= 0.0 && spent + requested <= target && amount <= factor * requested
    ensures spent + amount <= factor * target
  {
    assert factor * (target - spent - requested) >= 0.0 && (factor - 1.0) * spent >= 0.0;
    assert factor * (target - spent - requested) == factor * target - factor * spent - factor * requested;
    assert (factor - 1.0) * spent == factor * spent - spent;
  }

  lemma TargetPositive(s: Settings, initial: real, i: nat)
    requires ValidSettings(s) && initial > 0.0 && i < |s.tiers|
    ensures Target(s, initial, i) > 0.0
  {
    Positive(initial, s.ratio, initial * s.ratio);
    Positive(initial * s.ratio, s.tiers[i].1, Target(s, initial, i));
  }

  lemma Positive(x: real, y: real, product: real)
    requires x > 0.0 && y > 0.0 && product == x * y
    ensures product > 0.0
  {
  }

  // ------------------------------------------------------------------
  // Event by event.
  // ------------------------------------------------------------------

  lemma FreshCapped(s: Settings, rate: real, price: real, ts: real, initial: real)
    requires ValidSettings(s) && rate >= 0.0 && initial > 0.0
    ensures Capped(s, rate, Fresh(price, ts, initial))
  {
    forall i | 0 <= i < |s.tiers| ensures UnderCap(s, rate, Fresh(price, ts, initial), i) {
      TargetPositive(s, initial, i);
      Positive(Factor(s.kind, rate), Target(s, initial, i), Factor(s.kind, rate) * Target(s, initial, i));
    }
  }

  /** A submission asks for exactly what is left of the tier. */
  lemma IntentCapped(s: Settings, rate: real, c: Campaign, i: nat, p: Pending)
    requires ValidSettings(s) && Capped(s, rate, c) && c.pending.None? && i < |s.tiers|
    requires Remaining(s, c, i) > 0.0 && p.threshold == s.tiers[i].0 && p.requested == Remaining(s, c, i) && p.terminal.None?
    ensures Capped(s, rate, Counted(s, c, i).(pending := Some(p)))
  {
    SameMoney(s, rate, c, Counted(s, c, i).(pending := Some(p)));
    assert forall k :: 0 <= k < |s.tiers| && s.tiers[k].0 == p.threshold ==> k == i;
  }

  /** What a tier took depends on the amounts alone. */
  lemma SameMoney(s: Settings, rate: real, was: Campaign, c: Campaign)
    requires Capped(s, rate, was) && c.initial == was.initial && c.byTier == was.byTier
    ensures forall i :: 0 <= i < |s.tiers| ==> UnderCap(s, rate, c, i)
    ensures c.pending == was.pending ==> Capped(s, rate, c)
  {
    forall i | 0 <= i < |s.tiers| ensures UnderCap(s, rate, c, i) {
      assert UnderCap(s, rate, was, i);
    }
  }

  /** A row of the same intent, charged if it is final. */
  lemma RowCapped(s: Settings, rate: real, c: Campaign, p: Pending, row: Option<Pending>)
    requires Capped(s, rate, c) && c.pending == Some(p)
    requires row.Some? ==> SameIntent(p, row.value)
    requires row.Some? && row.value.terminal.Some? ==> Amount(s.kind, row.value.terminal.value) <= Factor(s.kind, rate) * p.requested
    ensures Capped(s, rate, c.(pending := row))
  {
    SameMoney(s, rate, c, c.(pending := row));
  }

  lemma RecordTier(s: Settings, rate: real, c: Campaign, amount: real, i: nat)
    requires Capped(s, rate, c) && WellPlaced(s, c) && c.pending.Some? && rate >= 0.0 && i < |s.tiers|
    requires s.tiers[i].0 == c.pending.value.threshold && amount <= Factor(s.kind, rate) * c.pending.value.requested
    ensures Get(c.byTier, s.tiers[i].0) + amount <= Factor(s.kind, rate) * Target(s, c.initial, i)
  {
    assert FitsShare(s, c, c.pending.value);
    ShareArithmetic(Factor(s.kind, rate), Get(c.byTier, s.tiers[i].0), c.pending.value.requested, amount, Target(s, c.initial, i));
  }

  lemma RecordCapped(s: Settings, rate: real, c: Campaign)
    requires Capped(s, rate, c) && WellPlaced(s, c) && TerminalRow(c) && rate >= 0.0
    ensures Capped(s, rate, Recorded(s.kind, c, c.pending.value.threshold, c.pending.value.terminal.value))
  {
    var p := c.pending.value;
    var amount := Amount(s.kind, p.terminal.value);
    var after := Recorded(s.kind, c, p.threshold, p.terminal.value);
    forall i | 0 <= i < |s.tiers| ensures UnderCap(s, rate, after, i) {
      if s.tiers[i].0 == p.threshold {
        RecordTier(s, rate, c, amount, i);
      } else {
        assert UnderCap(s, rate, c, i);
      }
    }
  }

  /** What a reconciliation ends with is charged, or was persisted before. */
  lemma EndedCharged(s: Settings, rate: real, p: Pending, now: real, a: Answers)
    requires rate >= 0.0 && p.requested >= 0.0 && Honest(p, a, Charged(s.kind, rate))
    requires p.terminal.Some? ==> Amount(s.kind, p.terminal.value) <= Factor(s.kind, rate) * p.requested
    requires ReconcileTrace(s.policy, p, now, a).outcome.Ended?
    ensures Amount(s.kind, ReconcileTrace(s.policy, p, now, a).outcome.status) <= Factor(s.kind, rate) * p.requested
  {
    var status := ReconcileTrace(s.policy, p, now, a).outcome.status;
    EndedIsHonest(s.policy, p, now, a, Charged(s.kind, rate));
    if p.terminal != Some(status) {
      ChargedAmount(s.kind, rate, status, p.requested);
    }
  }

  /** Every row of a reconciliation ... */
  lemma TraceCapped(s: Settings, rate: real, c: Campaign, p: Pending, now: real, a: Answers, i: nat)
    requires Capped(s, rate, c) && WellPlaced(s, c) && c.pending == Some(p) && rate >= 0.0
    requires Honest(p, a, Charged(s.kind, rate)) && i < |ReconcileTrace(s.policy, p, now, a).saves|
    ensures Capped(s, rate, c.(pending := ReconcileTrace(s.policy, p, now, a).saves[i]))
  {
    var t := ReconcileTrace(s.policy, p, now, a);
    ReconcileWellTraced(s.policy, p, now, a);
    FinalRow(s.policy, p, now, a);
    if t.outcome.Ended? {
      EndedCharged(s, rate, p, now, a);
    }
    RowCapped(s, rate, c, p, t.saves[i]);
  }

  lemma LastCapped(s: Settings, rate: real, c: Campaign, p: Pending, now: real, a: Answers)
    requires Capped(s, rate, c) && WellPlaced(s, c) && c.pending == Some(p) && rate >= 0.0
    requires Honest(p, a, Charged(s.kind, rate))
    ensures var last := LastRow(c, ReconcileTrace(s.policy, p, now, a).saves);
            Capped(s, rate, last) && WellPlaced(s, last)
  {
    var t := ReconcileTrace(s.policy, p, now, a);
    ReconcileWellTraced(s.policy, p, now, a);
    if t.saves != [] {
      FinalRow(s.policy, p, now, a);
      TraceCapped(s, rate, c, p, now, a, |t.saves| - 1);
    }
  }

  /** The last row is the ended one, or none. */
  lemma LastIs(policy: Policy, c: Campaign, p: Pending, now: real, a: Answers)
    requires c.pending == Some(p) && (p.terminal.Some? ==> Terminal(p.terminal.value))
    ensures var t := ReconcileTrace(policy, p, now, a);
            var last := LastRow(c, t.saves);
            && (t.outcome.Ended? ==> TerminalRow(last) && SameIntent(p, last.pending.value) && last.pending.value.terminal == Some(t.outcome.status))
            && (t.outcome.Absent? || t.outcome.Retryable? ==> last.pending.None?)
  {
    ReconcileWellTraced(policy, p, now, a);
  }

  /** Giving an attempt back moves no money. */
  lemma ReusedCapped(s: Settings, rate: real, c: Campaign, p: Pending)
    requires Capped(s, rate, c) && c.pending.None?
    ensures Capped(s, rate, Reused(c, p))
  {
    SameMoney(s, rate, c, Reused(c, p));
  }

  /** ... and its closing save. */
  lemma ClosingCapped(s: Settings, rate: real, c: Campaign, p: Pending, now: real, a: Answers)
    requires Capped(s, rate, c) && WellPlaced(s, c) && c.pending == Some(p) && rate >= 0.0
    requires Honest(p, a, Charged(s.kind, rate))
    ensures var t := ReconcileTrace(s.policy, p, now, a);
            var last := LastRow(c, t.saves);
            && (t.outcome.Ended? ==> Capped(s, rate, Recorded(s.kind, last, p.threshold, t.outcome.status)))
            && (t.outcome.Absent? || t.outcome.Retryable? ==> Capped(s, rate, Reused(last, p)))
  {
    var t := ReconcileTrace(s.policy, p, now, a);
    var last := LastRow(c, t.saves);
    LastCapped(s, rate, c, p, now, a);
    LastIs(s.policy, c, p, now, a);
    if t.outcome.Ended? {
      RecordCapped(s, rate, last);
    } else if !t.outcome.Active? {
      ReusedCapped(s, rate, last, p);
    }
  }

  lemma ReconcileCapped(s: Settings, rate: real, c: Campaign, p: Pending, now: real, a: Answers, i: nat)
    requires Capped(s, rate, c) && WellPlaced(s, c) && c.pending == Some(p) && rate >= 0.0
    requires Honest(p, a, Charged(s.kind, rate)) && i < |ReconcileSaves(s, c, p, now, a)|
    ensures ReconcileSaves(s, c, p, now, a)[i].Some? && Capped(s, rate, ReconcileSaves(s, c, p, now, a)[i].value)
  {
    var t := ReconcileTrace(s.policy, p, now, a);
    if i < |t.saves| {
      TraceCapped(s, rate, c, p, now, a, i);
    } else {
      ClosingCapped(s, rate, c, p, now, a);
    }
  }

  lemma SaveCapped(s: Settings, rate: real, j: Journal, e: Event, i: nat)
    requires ValidSettings(s) && rate >= 0.0 && Sound(s, j) && CappedAt(s, rate, j)
    requires Admissible(s, j, e) && ChargedStep(s, rate, j, e) && i < |SavesOf(s, j, e)|
    ensures SavesOf(s, j, e)[i].Some? ==> Capped(s, rate, SavesOf(s, j, e)[i].value)
  {
    match e
    case Start(price, ts, initial) => FreshCapped(s, rate, price, ts, initial);
    case Raise(_, _) => SameMoney(s, rate, j.saved.value, SavesOf(s, j, e)[i].value);
    case SubmitTier(tier, now, said, order) =>
      var c := j.saved.value;
      IntentCapped(s, rate, c, tier, SubmitTrace(NewIntent(s, c, tier, now), said, order)[i].value);
    case Reconcile(now, a) => ReconcileCapped(s, rate, j.saved.value, j.saved.value.pending.value, now, a, i);
    case Complete(_) => SameMoney(s, rate, j.saved.value, SavesOf(s, j, e)[i].value);
    case Clear =>
  }

  lemma StepCapped(s: Settings, rate: real, j: Journal, step: Step, after: Journal)
    requires ValidSettings(s) && rate >= 0.0 && Sound(s, j) && CappedAt(s, rate, j)
    requires LeadsTo(s, j, step, after) && ChargedStep(s, rate, j, step.event)
    ensures CappedAt(s, rate, after)
  {
    var saves := SavesOf(s, j, step.event);
    if step.n == 0 {
      assert saves[..0] == [];
    } else {
      WriteAllStep(s.kind, j, saves, step.n - 1);
      SaveCapped(s, rate, j, step.event, step.n - 1);
    }
  }

  lemma {:induction false} HistoryCapped(s: Settings, rate: real, js: seq<Journal>, steps: seq<Step>, n: nat)
    requires ValidSettings(s) && rate >= 0.0 && IsCharged(s, rate, js, steps) && n < |js|
    ensures CappedAt(s, rate, js[n])
  {
    if n > 0 {
      HistoryCapped(s, rate, js, steps, n - 1);
      HistorySound(s, js, steps, n - 1);
      assert ChargedStep(s, rate, js[n - 1], steps[n - 1].event);
      assert LeadsTo(s, js[n - 1], steps[n - 1], js[n]);
      StepCapped(s, rate, js[n - 1], steps[n - 1], js[n]);
    }
  }

  // ------------------------------------------------------------------
  // Theorems.
  // ------------------------------------------------------------------

  predicate PendingAt(c: Campaign, threshold: real) {
    c.pending.Some? && c.pending.value.threshold == threshold
  }

  /** No tier exceeds its share by more than the fee rate; and no order is pending
      for more than the share still has. */
  lemma TierBudgetHolds(s: Settings, rate: real, js: seq<Journal>, steps: seq<Step>, n: nat, c: Campaign, i: nat)
    requires ValidSettings(s) && rate >= 0.0 && IsCharged(s, rate, js, steps) && n < |js| && js[n].saved == Some(c) && i < |s.tiers|
    ensures Get(c.byTier, s.tiers[i].0) <= Factor(s.kind, rate) * Target(s, c.initial, i)
    ensures PendingAt(c, s.tiers[i].0) ==> Get(c.byTier, s.tiers[i].0) + c.pending.value.requested <= Target(s, c.initial, i)
  {
    HistoryCapped(s, rate, js, steps, n);
    assert UnderCap(s, rate, c, i);
  }

  ghost predicate TiersWithin(tiers: seq<(real, real)>, byTier: map<real, real>, cap: real) {
    forall i :: 0 <= i < |tiers| ==> Get(byTier, tiers[i].0) <= cap * tiers[i].1
  }

  lemma {:induction false} SumWithin(tiers: seq<(real, real)>, byTier: map<real, real>, cap: real)
    requires TiersWithin(tiers, byTier, cap)
    ensures TierSum(tiers, byTier) <= cap * AllocationSum(tiers)
  {
    if tiers != [] {
      var n := |tiers| - 1;
      forall i | 0 <= i < n ensures Get(byTier, tiers[..n][i].0) <= cap * tiers[..n][i].1 {
        assert tiers[..n][i] == tiers[i];
      }
      SumWithin(tiers[..n], byTier, cap);
      Distribute(cap, AllocationSum(tiers[..n]), tiers[n].1);
    }
  }

  lemma Distribute(cap: real, x: real, y: real)
    ensures cap * (x + y) == cap * x + cap * y
  {
  }

  lemma Associate(factor: real, initial: real, ratio: real, share: real, cap: real)
    requires cap == initial * ratio * factor
    ensures factor * (initial * ratio * share) == cap * share
  {
    assert cap * share == factor * (initial * ratio) * share;
  }

  /** Budget: recorded spending never exceeds initial cash times cash ratio times
      the sum of the allocations, plus the fees on that (for a SELL, initial
      quantity times that sum). */
  lemma BudgetHolds(s: Settings, rate: real, js: seq<Journal>, steps: seq<Step>, n: nat, c: Campaign)
    requires ValidSettings(s) && rate >= 0.0 && IsCharged(s, rate, js, steps) && n < |js| && js[n].saved == Some(c)
    ensures c.total <= c.initial * s.ratio * Factor(s.kind, rate) * AllocationSum(s.tiers)
  {
    var cap := c.initial * s.ratio * Factor(s.kind, rate);
    TiersUnder(s, rate, js, steps, n, c, cap);
    SumWithin(s.tiers, c.byTier, cap);
    TotalIsSum(s, js, steps, n, c);
  }

  lemma TotalIsSum(s: Settings, js: seq<Journal>, steps: seq<Step>, n: nat, c: Campaign)
    requires ValidSettings(s) && IsHistory(s, js, steps) && n < |js| && js[n].saved == Some(c)
    ensures c.total == TierSum(s.tiers, c.byTier)
  {
    HistorySound(s, js, steps, n);
  }

  lemma TiersUnder(s: Settings, rate: real, js: seq<Journal>, steps: seq<Step>, n: nat, c: Campaign, cap: real)
    requires ValidSettings(s) && rate >= 0.0 && IsCharged(s, rate, js, steps) && n < |js| && js[n].saved == Some(c)
    requires cap == c.initial * s.ratio * Factor(s.kind, rate)
    ensures TiersWithin(s.tiers, c.byTier, cap)
  {
    forall i | 0 <= i < |s.tiers| ensures Get(c.byTier, s.tiers[i].0) <= cap * s.tiers[i].1 {
      TierBudgetHolds(s, rate, js, steps, n, c, i);
      Associate(Factor(s.kind, rate), c.initial, s.ratio, s.tiers[i].1, cap);
    }
  }
}
