/** How sharp the campaign budget is: the history in which every tier is sold or
    bought in full, and the exact condition under which no history overspends. */
module CampaignLimit {
  import opened Options
  import opened TrackedLifecycle
  import opened Campaigns
  import opened CampaignHistory
  import opened CampaignBudget

  // ------------------------------------------------------------------
  // Filling one tier.
  // ------------------------------------------------------------------

  /** A closed order that executed exactly what it asked for, and its fee. */
  function FullFill(requested: real, fee: real): Status {
    Status(Closed, requested, requested, fee)
  }

  function FullAnswers(requested: real, fee: real): Answers {
    Answers(LookupFails, Got(FullFill(requested, fee)), false, StatusFails)
  }

  /** The fee that a full BUY is charged, none that a SELL is booked. */
  function FeeOf(kind: Kind, rate: real, requested: real): real {
    if kind.Buy? then rate * requested else 0.0
  }

  lemma FullAmount(kind: Kind, rate: real, requested: real)
    requires requested >= 0.0 && rate >= 0.0
    ensures Amount(kind, FullFill(requested, FeeOf(kind, rate, requested))) == Factor(kind, rate) * requested
    ensures Charged(kind, rate)(FullFill(requested, FeeOf(kind, rate, requested)), requested)
  {
    ScaleUp(rate, 0.0, requested);
    assert (1.0 + rate) * requested == requested + rate * requested;
  }

  function SubmitEvent(k: nat): Event {
    SubmitTier(k, 0.0, AcceptedOutcome, Some(0))
  }

  /** The journal after an accepted submission of tier k. */
  function Submitted(s: Settings, j: Journal, k: nat): Journal
    requires j.saved.Some? && k < |s.tiers|
  {
    var c := j.saved.value;
    var row := NewIntent(s, c, k, 0.0).(submission := AcceptedOutcome, orderId := Some(0));
    Journal(Some(Counted(s, c, k).(pending := Some(row))), j.ledger)
  }

  lemma SubmissionDone(s: Settings, j: Journal, k: nat)
    requires j.saved.Some? && j.saved.value.pending.None? && k < |s.tiers|
    ensures var saves := SavesOf(s, j, SubmitEvent(k));
            |saves| == 2 && WriteAll(s.kind, j, saves[..2]) == Submitted(s, j, k)
  {
    var saves := SavesOf(s, j, SubmitEvent(k));
    assert saves[..2] == saves && saves[..1][..0] == [];
    WriteAllStep(s.kind, j, saves, 0);
    WriteAllStep(s.kind, j, saves, 1);
  }

  /** The one save that closes the order and the one that accounts for it. */
  lemma FillDone(s: Settings, j: Journal, p: Pending, requested: real, fee: real, amount: real)
    requires j.saved.Some? && j.saved.value.pending == Some(p) && p.orderId.Some? && p.terminal.None?
    requires amount == Amount(s.kind, FullFill(requested, fee))
    ensures var saves := SavesOf(s, j, Reconcile(0.0, FullAnswers(requested, fee)));
            && |saves| == 2
            && WriteAll(s.kind, j, saves[..2]).saved.Some?
            && var c := WriteAll(s.kind, j, saves[..2]).saved.value;
            && c.pending.None? && c.initial == j.saved.value.initial
            && c.byTier == j.saved.value.byTier[p.threshold := Get(j.saved.value.byTier, p.threshold) + amount]
            && c.total == j.saved.value.total + amount
            && c.completed <= j.saved.value.completed + {p.threshold}
  {
    var saves := SavesOf(s, j, Reconcile(0.0, FullAnswers(requested, fee)));
    var t := ReconcileTrace(s.policy, p, 0.0, FullAnswers(requested, fee));
    assert t == Trace([Some(EndedRow(p.(statusError := false), FullFill(requested, fee)))], Ended(FullFill(requested, fee)));
    assert saves[..2] == saves;
    WriteAllStep(s.kind, j, saves, 1);
  }

  // ------------------------------------------------------------------
  // Filling all tiers.
  // ------------------------------------------------------------------

  /** The first k tiers took their whole share and the fee on it, the others nothing. */
  ghost predicate Filled(s: Settings, rate: real, initial: real, c: Campaign, k: nat) {
    && k <= |s.tiers| && c.pending.None? && c.initial == initial
    && c.total == initial * s.ratio * Factor(s.kind, rate) * AllocationSum(s.tiers[..k])
    && (forall i :: k <= i < |s.tiers| ==> Get(c.byTier, s.tiers[i].0) == 0.0 && s.tiers[i].0 !in c.completed)
  }

  lemma Share(s: Settings, rate: real, initial: real, k: nat, cap: real)
    requires ValidSettings(s) && initial > 0.0 && k < |s.tiers| && cap == initial * s.ratio * Factor(s.kind, rate)
    ensures Target(s, initial, k) > 0.0
    ensures cap * AllocationSum(s.tiers[..k + 1]) == cap * AllocationSum(s.tiers[..k]) + Factor(s.kind, rate) * Target(s, initial, k)
  {
    TargetPositive(s, initial, k);
    assert s.tiers[..k + 1][..k] == s.tiers[..k];
    Distribute(cap, AllocationSum(s.tiers[..k]), s.tiers[k].1);
    Associate(Factor(s.kind, rate), initial, s.ratio, s.tiers[k].1, cap);
  }

  ghost predicate EndsFilled(s: Settings, rate: real, initial: real, js: seq<Journal>, steps: seq<Step>, k: nat) {
    IsCharged(s, rate, js, steps) && js[|js| - 1].saved.Some? && Filled(s, rate, initial, js[|js| - 1].saved.value, k)
  }

  lemma OneMoreStep(s: Settings, rate: real, js: seq<Journal>, steps: seq<Step>, e: Event, n: nat)
    returns (more: seq<Journal>, longer: seq<Step>)
    requires IsCharged(s, rate, js, steps) && ChargedStep(s, rate, js[|js| - 1], e)
    requires Admissible(s, js[|js| - 1], e) && n <= |SavesOf(s, js[|js| - 1], e)|
    ensures IsCharged(s, rate, more, longer)
    ensures more[|more| - 1] == WriteAll(s.kind, js[|js| - 1], SavesOf(s, js[|js| - 1], e)[..n])
  {
    more, longer := js + [WriteAll(s.kind, js[|js| - 1], SavesOf(s, js[|js| - 1], e)[..n])], steps + [Step(e, n)];
    forall i, k | 0 <= i < |longer| && k == i + 1
      ensures LeadsTo(s, more[i], longer[i], more[k]) && ChargedStep(s, rate, more[i], longer[i].event)
    {
      assert more[i] == js[i];
      if i < |steps| {
        assert longer[i] == steps[i] && more[k] == js[k];
      }
    }
    forall i | 0 <= i < |longer| ensures ChargedStep(s, rate, more[i], longer[i].event) {
      assert i + 1 == i + 1 && LeadsTo(s, more[i], longer[i], more[i + 1]);
    }
  }

  /** Filling tier k leaves the later ones untouched. */
  lemma NowFilled(s: Settings, rate: real, initial: real, was: Campaign, c: Campaign, k: nat, amount: real)
    requires ValidSettings(s) && initial > 0.0 && Filled(s, rate, initial, was, k) && k < |s.tiers|
    requires amount == Factor(s.kind, rate) * Target(s, initial, k)
    requires c.pending.None? && c.initial == was.initial && c.total == was.total + amount
    requires c.byTier == was.byTier[s.tiers[k].0 := Get(was.byTier, s.tiers[k].0) + amount]
    requires c.completed <= was.completed + {s.tiers[k].0}
    ensures Filled(s, rate, initial, c, k + 1)
  {
    Share(s, rate, initial, k, initial * s.ratio * Factor(s.kind, rate));
    forall i | k + 1 <= i < |s.tiers| ensures Get(c.byTier, s.tiers[i].0) == 0.0 && s.tiers[i].0 !in c.completed {
      assert s.tiers[i].0 != s.tiers[k].0;
    }
  }

  lemma StartFilled(s: Settings, rate: real, initial: real) returns (js: seq<Journal>, steps: seq<Step>)
    requires ValidSettings(s) && initial > 0.0
    ensures EndsFilled(s, rate, initial, js, steps, 0)
  {
    var none := Journal(None, []);
    var e := Start(1.0, 1.0, initial);
    js, steps := OneMoreStep(s, rate, [none], [], e, 1);
    assert SavesOf(s, none, e)[..1] == SavesOf(s, none, e);
    WriteAllStep(s.kind, none, SavesOf(s, none, e), 0);
    assert s.tiers[..0] == [];
  }

  lemma FillNext(s: Settings, rate: real, initial: real, js0: seq<Journal>, steps0: seq<Step>, k: nat)
    returns (js: seq<Journal>, steps: seq<Step>)
    requires ValidSettings(s) && rate >= 0.0 && initial > 0.0 && EndsFilled(s, rate, initial, js0, steps0, k) && k < |s.tiers|
    ensures EndsFilled(s, rate, initial, js, steps, k + 1)
  {
    var requested := Target(s, initial, k);
    TargetPositive(s, initial, k);
    var fee := FeeOf(s.kind, rate, requested);
    FullAmount(s.kind, rate, requested);
    js, steps := FillTier(s, rate, initial, js0, steps0, k, requested, fee);
    NowFilled(s, rate, initial, js0[|js0| - 1].saved.value, js[|js| - 1].saved.value, k, Amount(s.kind, FullFill(requested, fee)));
  }

  /** Two steps: the order is accepted, and then found filled. */
  lemma FillTier(s: Settings, rate: real, initial: real, js0: seq<Journal>, steps0: seq<Step>, k: nat, requested: real, fee: real)
    returns (js: seq<Journal>, steps: seq<Step>)
    requires EndsFilled(s, rate, initial, js0, steps0, k) && k < |s.tiers|
    requires requested == Target(s, initial, k) > 0.0 && Charged(s.kind, rate)(FullFill(requested, fee), requested)
    ensures IsCharged(s, rate, js, steps) && js[|js| - 1].saved.Some?
    ensures var was, c, amount := js0[|js0| - 1].saved.value, js[|js| - 1].saved.value, Amount(s.kind, FullFill(requested, fee));
            && c.pending.None? && c.initial == was.initial && c.total == was.total + amount
            && c.byTier == was.byTier[s.tiers[k].0 := Get(was.byTier, s.tiers[k].0) + amount]
            && c.completed <= was.completed + {s.tiers[k].0}
  {
    var j := js0[|js0| - 1];
    SubmissionDone(s, j, k);
    var js1, steps1 := OneMoreStep(s, rate, js0, steps0, SubmitEvent(k), 2);
    var mid := Submitted(s, j, k);
    FillDone(s, mid, mid.saved.value.pending.value, requested, fee, Amount(s.kind, FullFill(requested, fee)));
    js, steps := OneMoreStep(s, rate, js1, steps1, Reconcile(0.0, FullAnswers(requested, fee)), 2);
  }

  /** The campaign that is sold or bought in full. */
  lemma {:induction false} FillAll(s: Settings, rate: real, initial: real, k: nat) returns (js: seq<Journal>, steps: seq<Step>)
    requires ValidSettings(s) && rate >= 0.0 && initial > 0.0 && k <= |s.tiers|
    ensures EndsFilled(s, rate, initial, js, steps, k)
  {
    if k == 0 {
      js, steps := StartFilled(s, rate, initial);
    } else {
      var js0, steps0 := FillAll(s, rate, initial, k - 1);
      js, steps := FillNext(s, rate, initial, js0, steps0, k - 1);
    }
  }

  // ------------------------------------------------------------------
  // The exact condition.
  // ------------------------------------------------------------------

  predicate Budgeted(s: Settings, j: Journal) {
    j.saved.Some? ==> j.saved.value.total <= j.saved.value.initial * s.ratio
  }

  ghost predicate NeverOverspends(s: Settings, rate: real) {
    forall js: seq<Journal>, steps: seq<Step>, n: nat :: IsCharged(s, rate, js, steps) && n < |js| ==> Budgeted(s, js[n])
  }

  /** No history spends more than initial cash times cash ratio (sells more than
      the initial quantity) exactly when the allocations, with the fees on them,
      sum to at most one.  The configuration reserves nothing for fees and accepts
      sums up to 1e-12 above one. */
  lemma BudgetExactly(s: Settings, rate: real)
    requires ValidSettings(s) && rate >= 0.0
    ensures NeverOverspends(s, rate) <==> Factor(s.kind, rate) * AllocationSum(s.tiers) <= 1.0
  {
    var asked := Factor(s.kind, rate) * AllocationSum(s.tiers);
    if asked <= 1.0 {
      forall js: seq<Journal>, steps: seq<Step>, n: nat | IsCharged(s, rate, js, steps) && n < |js| ensures Budgeted(s, js[n]) {
        KeepsBudget(s, rate, js, steps, n);
      }
    } else {
      var js, steps := Overspends(s, rate, asked);
      assert !Budgeted(s, js[|js| - 1]);
    }
  }

  lemma Overspends(s: Settings, rate: real, asked: real) returns (js: seq<Journal>, steps: seq<Step>)
    requires ValidSettings(s) && rate >= 0.0 && asked == Factor(s.kind, rate) * AllocationSum(s.tiers) > 1.0
    ensures IsCharged(s, rate, js, steps) && !Budgeted(s, js[|js| - 1])
  {
    js, steps := FillAll(s, rate, 1.0, |s.tiers|);
    assert s.tiers[..|s.tiers|] == s.tiers;
    var c := js[|js| - 1].saved.value;
    AboveOne(s.ratio, Factor(s.kind, rate), AllocationSum(s.tiers), asked, c.total);
    assert c.initial * s.ratio == s.ratio;
  }

  lemma KeepsBudget(s: Settings, rate: real, js: seq<Journal>, steps: seq<Step>, n: nat)
    requires ValidSettings(s) && rate >= 0.0 && IsCharged(s, rate, js, steps) && n < |js|
    requires Factor(s.kind, rate) * AllocationSum(s.tiers) <= 1.0
    ensures Budgeted(s, js[n])
  {
    if js[n].saved.Some? {
      var c := js[n].saved.value;
      BudgetHolds(s, rate, js, steps, n, c);
      HistorySound(s, js, steps, n);
      Positive(c.initial, s.ratio, c.initial * s.ratio);
      BelowOne(c.initial * s.ratio, Factor(s.kind, rate), AllocationSum(s.tiers));
    }
  }

  lemma BelowOne(cap: real, factor: real, sum: real)
    requires cap > 0.0 && factor * sum <= 1.0
    ensures cap * factor * sum <= cap
  {
    assert cap * (1.0 - factor * sum) >= 0.0;
    assert cap * (1.0 - factor * sum) == cap - cap * factor * sum;
  }

  lemma AboveOne(ratio: real, factor: real, sum: real, asked: real, total: real)
    requires ratio > 0.0 && asked == factor * sum && asked > 1.0 && total == 1.0 * ratio * factor * sum
    ensures total > ratio
  {
    Positive(ratio, asked - 1.0, ratio * (asked - 1.0));
    assert ratio * (asked - 1.0) == ratio * asked - ratio && ratio * asked == ratio * factor * sum;
  }

  // ------------------------------------------------------------------
  // The fill that overspends.
  // ------------------------------------------------------------------

  const PLAIN := Policy(3, false, None)
  const WHOLE := Settings(Buy, [(5.0, 1.0)], 0.995, PLAIN)

  /** One tier of everything, 1000 in cash, a cash ratio of 0.995: the BUY of 995 is
      filled at its cost with a fee of 1, and 996 are spent of 995. */
  lemma FeeOverspends() returns (js: seq<Journal>, steps: seq<Step>)
    ensures ValidSettings(WHOLE) && AllocationSum(WHOLE.tiers) == 1.0 && IsCharged(WHOLE, 1.0 / 995.0, js, steps)
    ensures js[|js| - 1].saved.Some?
    ensures var c := js[|js| - 1].saved.value; c.initial * WHOLE.ratio == 995.0 && c.total == 996.0
  {
    js, steps := OneTier(WHOLE, 1.0 / 995.0, 1000.0);
  }

  lemma OneTier(s: Settings, rate: real, initial: real) returns (js: seq<Journal>, steps: seq<Step>)
    requires s.kind.Buy? && |s.tiers| == 1 && s.tiers[0].1 == 1.0 && s.ratio > 0.0 && rate >= 0.0 && initial > 0.0
    ensures AllocationSum(s.tiers) == 1.0 && IsCharged(s, rate, js, steps) && js[|js| - 1].saved.Some?
    ensures var c := js[|js| - 1].saved.value; c.initial == initial && c.total == initial * s.ratio * (1.0 + rate)
  {
    js, steps := FillAll(s, rate, initial, 1);
    assert s.tiers[..1] == s.tiers && s.tiers[..0] == [] && AllocationSum(s.tiers) == AllocationSum(s.tiers[..0]) + 1.0;
  }
}
