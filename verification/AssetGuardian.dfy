/** assetguardian.py and TrackedOrderLifecycle as they run: a campaign record copied,
    changed and saved step by step, by a process that may die before any save. */
module AssetGuardianFile {
  import opened Options
  import opened TrackedLifecycle
  import opened Campaigns
  import opened CampaignHistory

  /** The saves a process got done before it died, in order. */
  predicate Saved(kind: Kind, before: Journal, after: Journal, saves: seq<Option<Campaign>>, fuel: nat, left: nat, alive: bool) {
    && alive == (fuel >= |saves|)
    && after == WriteAll(kind, before, saves[..if alive then |saves| else fuel])
    && left == if alive then fuel - |saves| else 0
  }

  lemma {:induction false} WriteAllConcat(kind: Kind, j: Journal, a: seq<Option<Campaign>>, b: seq<Option<Campaign>>)
    ensures WriteAll(kind, j, a + b) == WriteAll(kind, WriteAll(kind, j, a), b)
  {
    if b == [] {
      assert a + b == a;
    } else {
      var n := |b| - 1;
      assert (a + b)[..|a + b| - 1] == a + b[..n];
      WriteAllConcat(kind, j, a, b[..n]);
    }
  }

  lemma SavedThen(kind: Kind, a: Journal, b: Journal, c: Journal, first: seq<Option<Campaign>>, second: seq<Option<Campaign>>,
                  f0: nat, f1: nat, f2: nat, alive: bool)
    requires Saved(kind, a, b, first, f0, f1, true) && Saved(kind, b, c, second, f1, f2, alive)
    ensures Saved(kind, a, c, first + second, f0, f2, alive)
  {
    var n := if alive then |second| else f1;
    assert first[..|first|] == first;
    assert (first + second)[..|first| + n] == first + second[..n];
    WriteAllConcat(kind, a, first, second[..n]);
  }

  lemma SavedDied(kind: Kind, a: Journal, b: Journal, first: seq<Option<Campaign>>, second: seq<Option<Campaign>>, f0: nat, f1: nat)
    requires Saved(kind, a, b, first, f0, f1, false)
    ensures Saved(kind, a, b, first + second, f0, f1, false)
  {
    assert (first + second)[..f0] == first[..f0];
  }

  class Guardian {
    const settings: Settings
    var saved: Option<Campaign>
    var fuel: nat
    ghost var ledger: seq<Entry>

    ghost function State(): Journal
      reads this
    {
      Journal(saved, ledger)
    }

    /** The accounting is right in the durable record, now. */
    ghost predicate Valid()
      reads this
    {
      ValidSettings(settings) && Sound(settings, State())
    }

    constructor (settings: Settings, fuel: nat)
      requires ValidSettings(settings)
      ensures Valid() && saved.None? && this.settings == settings
    {
      this.settings := settings;
      saved, this.fuel, ledger := None, fuel, [];
    }

    /** `_save_symbol_campaign`: one atomic replacement of the record. */
    method Save(c: Option<Campaign>) returns (alive: bool)
      modifies this
      ensures Saved(settings.kind, old(State()), State(), [c], old(fuel), fuel, alive)
    {
      assert [c][..0] == [] && [c][..1] == [c];
      alive := fuel > 0;
      if alive {
        ghost var next := Write(settings.kind, State(), c);
        assert WriteAll(settings.kind, State(), [c]) == next;
        saved, fuel, ledger := c, fuel - 1, next.ledger;
      }
    }

    /** The persist callback of `_campaign_pending_persistor`. */
    method Persist(box: Campaign, row: Option<Pending>) returns (alive: bool, after: Campaign)
      modifies this
      ensures after == box.(pending := row)
      ensures Saved(settings.kind, old(State()), State(), [Some(after)], old(fuel), fuel, alive)
    {
      after := box.(pending := row);
      alive := Save(Some(after));
    }

    /** Persists rows one after the other. */
    method PersistAll(box: Campaign, rows: seq<Option<Pending>>) returns (alive: bool, after: Campaign)
      modifies this
      ensures Saved(settings.kind, old(State()), State(), WithPending(box, rows), old(fuel), fuel, alive)
      ensures alive ==> after == LastRow(box, rows)
    {
      alive, after := true, box;
      assert WithPending(box, rows[..0]) == [];
      var k := 0;
      while k < |rows|
        invariant 0 <= k <= |rows| && alive && after == LastRow(box, rows[..k])
        invariant Saved(settings.kind, old(State()), State(), WithPending(box, rows[..k]), old(fuel), fuel, true)
      {
        label Before:
        alive, after := Persist(after, rows[k]);
        assert after == box.(pending := rows[k]);
        SavedThen(settings.kind, old(State()), old@Before(State()), State(), WithPending(box, rows[..k]), [Some(after)],
                  old(fuel), old@Before(fuel), fuel, alive);
        assert WithPending(box, rows[..k + 1]) == WithPending(box, rows[..k]) + [Some(after)];
        if !alive {
          assert WithPending(box, rows) == WithPending(box, rows[..k + 1]) + WithPending(box, rows[k + 1..]);
          SavedDied(settings.kind, old(State()), State(), WithPending(box, rows[..k + 1]), WithPending(box, rows[k + 1..]), old(fuel), fuel);
          return;
        }
        k := k + 1;
      }
      assert rows[..k] == rows;
    }

    /** `TrackedOrderLifecycle.reconcile` after the order ID is known. */
    method ReconcileStatus(box: Campaign, known: Pending, now: real, a: Answers)
      returns (alive: bool, outcome: Outcome, after: Campaign)
      modifies this
      ensures Saved(settings.kind, old(State()), State(),
                    WithPending(box, StatusTrace(settings.policy, known, now, a).saves), old(fuel), fuel, alive)
      ensures alive ==> outcome == StatusTrace(settings.policy, known, now, a).outcome
      ensures alive ==> after == LastRow(box, StatusTrace(settings.policy, known, now, a).saves)
    {
      ghost var rows := StatusTrace(settings.policy, known, now, a).saves;
      var pending := known;
      outcome := Active;
      if a.first.StatusFails? {
        alive, after := PersistAll(box, [Some(pending.(statusError := true))]);
        return;
      }
      pending := pending.(statusError := false);
      var status := a.first.status;
      if Terminal(status) {
        alive, after := PersistAll(box, [Some(EndedRow(pending, status))]);
        outcome := Ended(status);
        return;
      }
      pending := pending.(last := Some(status));
      if !MayCancel(settings.policy, pending, now) {
        alive, after := PersistAll(box, [Some(pending)]);
        return;
      }
      var asking := pending.(cancelAt := Some(now));
      var trace := AfterCancel(asking, a);
      alive, after := PersistAll(box, [Some(pending), Some(asking)] + trace.saves);
      outcome := trace.outcome;
    }

    /** `TrackedOrderLifecycle.reconcile`. */
    method Reconcile(box: Campaign, intent: Pending, now: real, a: Answers) returns (alive: bool, outcome: Outcome, after: Campaign)
      modifies this
      ensures Saved(settings.kind, old(State()), State(),
                    WithPending(box, ReconcileTrace(settings.policy, intent, now, a).saves), old(fuel), fuel, alive)
      ensures alive ==> outcome == ReconcileTrace(settings.policy, intent, now, a).outcome
      ensures alive ==> after == LastRow(box, ReconcileTrace(settings.policy, intent, now, a).saves)
    {
      var pending := intent;
      outcome := Active;
      if pending.terminal.Some? && Terminal(pending.terminal.value) {
        alive, after := PersistAll(box, []);
        outcome := Ended(pending.terminal.value);
        return;
      }
      if pending.orderId.Some? {
        alive, outcome, after := ReconcileStatus(box, pending, now, a);
        return;
      }
      match a.lookup {
        case LookupFails =>
          pending := pending.(lookupError := true);
          if settings.policy.retryOnLookupError {
            alive, after := PersistAll(box, [Some(pending), None]);
            outcome := Retryable;
          } else {
            alive, after := PersistAll(box, [Some(pending)]);
          }
        case NotFound =>
          pending := pending.(misses := pending.misses + 1);
          if pending.misses < settings.policy.missing {
            alive, after := PersistAll(box, [Some(pending)]);
          } else {
            alive, after := PersistAll(box, [Some(pending), None]);
            outcome := Absent;
          }
        case FoundOrder(order) =>
          pending := pending.(orderId := Some(order), misses := 0, lookupError := false);
          alive, outcome, after := ReconcileKnown(box, pending, now, a);
      }
    }

    /** The recovered order ID is persisted before its status is asked for. */
    method ReconcileKnown(box: Campaign, known: Pending, now: real, a: Answers) returns (alive: bool, outcome: Outcome, after: Campaign)
      modifies this
      ensures Saved(settings.kind, old(State()), State(),
                    WithPending(box, Then([Some(known)], StatusTrace(settings.policy, known, now, a)).saves), old(fuel), fuel, alive)
      ensures alive ==> outcome == StatusTrace(settings.policy, known, now, a).outcome
      ensures alive ==> after == LastRow(box, Then([Some(known)], StatusTrace(settings.policy, known, now, a)).saves)
    {
      outcome := Active;
      ghost var rest := StatusTrace(settings.policy, known, now, a).saves;
      alive, after := PersistAll(box, [Some(known)]);
      assert WithPending(box, [Some(known)] + rest) == WithPending(box, [Some(known)]) + WithPending(box, rest);
      if !alive {
        SavedDied(settings.kind, old(State()), State(), WithPending(box, [Some(known)]), WithPending(box, rest), old(fuel), fuel);
        return;
      }
      ghost var j1, f1 := State(), fuel;
      alive, outcome, after := ReconcileStatus(after, known, now, a);
      assert WithPending(box.(pending := Some(known)), rest) == WithPending(box, rest);
      SavedThen(settings.kind, old(State()), j1, State(), WithPending(box, [Some(known)]), WithPending(box, rest),
                old(fuel), f1, fuel, alive);
    }

    /** `_reconcile_pending_buy` and `_reconcile_pending_sell`. */
    method ReconcilePending(now: real, a: Answers) returns (alive: bool, outcome: Outcome)
      requires Valid() && saved.Some? && saved.value.pending.Some?
      modifies this
      ensures Valid()
      ensures Saved(settings.kind, old(State()), State(),
                    ReconcileSaves(settings, old(saved).value, old(saved).value.pending.value, now, a), old(fuel), fuel, alive)
    {
      ghost var j := State();
      var box, intent := saved.value, saved.value.pending.value;
      ghost var rows := WithPending(box, ReconcileTrace(settings.policy, intent, now, a).saves);
      ghost var all := ReconcileSaves(settings, box, intent, now, a);
      ReconcileSound(settings, j, intent, now, a, if old(fuel) >= |all| then |all| else old(fuel));
      var after;
      alive, outcome, after := Reconcile(box, intent, now, a);
      if !alive {
        SavedDied(settings.kind, j, State(), rows, all[|rows|..], old(fuel), fuel);
        assert all == rows + all[|rows|..];
        return;
      }
      ghost var j1, f1 := State(), fuel;
      match outcome {
        case Active =>
          assert all == rows;
        case Ended(status) =>
          alive := Save(Some(Recorded(settings.kind, after, intent.threshold, status)));
          SavedThen(settings.kind, j, j1, State(), rows,
                    [Some(Recorded(settings.kind, after, intent.threshold, status))], old(fuel), f1, fuel, alive);
        case _ =>
          alive := Save(Some(Reused(after, intent)));
          SavedThen(settings.kind, j, j1, State(), rows, [Some(Reused(after, intent))],
                    old(fuel), f1, fuel, alive);
      }
    }

    /** `_submit_buy_tier` and `_submit_sell_tier` around `TrackedOrderLifecycle.submit`. */
    method Submit(tier: nat, now: real, said: Submission, order: Option<nat>) returns (alive: bool)
      requires Valid() && Admissible(settings, State(), SubmitTier(tier, now, said, order))
      modifies this
      ensures Valid()
      ensures Saved(settings.kind, old(State()), State(), SavesOf(settings, old(State()), SubmitTier(tier, now, said, order)),
                    old(fuel), fuel, alive)
    {
      ghost var j := State();
      SubmitSound(settings, j, tier, now, said, order, if fuel >= 2 then 2 else fuel);
      var state := Counted(settings, saved.value, tier);
      var intent := NewIntent(settings, saved.value, tier, now);
      assert SavesOf(settings, j, SubmitTier(tier, now, said, order)) == WithPending(state, SubmitTrace(intent, said, order));
      var after;
      alive, after := PersistAll(state, [Some(intent), Some(intent.(submission := said, orderId := if said.AcceptedOutcome? then order else None))]);
    }

    /** `_campaign_tier`: clears a recovered campaign, opens one or follows a higher
        peak, and picks the first crossed tier that is not complete.  None is an
        observation that is not a finite number. */
    method SelectBuyTier(drawdown: real, recovery: real, peak: Option<real>, peakTs: Option<real>, freeCash: Option<real>)
      returns (alive: bool, tier: Option<nat>)
      requires Valid() && settings.kind.Buy? && (saved.Some? ==> saved.value.pending.None?)
      modifies this
      ensures Valid() && (!alive ==> State() == old(State()) && tier.None?)
      ensures drawdown < recovery && alive ==> saved.None? && tier.None?
      ensures drawdown >= recovery && !(Usable(peak) && Usable(peakTs) && Usable(freeCash)) ==>
                alive && tier.None? && State() == old(State())
      ensures drawdown >= recovery && Usable(peak) && Usable(peakTs) && Usable(freeCash) && alive ==>
                var c := Followed(old(saved), peak.value, peakTs.value, freeCash.value);
                saved == Some(c) && tier == Crossed(settings, c, drawdown, 0)
    {
      alive, tier := true, None;
      ghost var j := State();
      if drawdown < recovery {
        if saved.Some? {
          EventSound(settings, j, Clear, if fuel >= 1 then 1 else 0);
          OneSave(settings, j, None, if fuel >= 1 then 1 else 0);
          alive := Save(None);
        }
        return;
      }
      if !(Usable(peak) && Usable(peakTs) && Usable(freeCash)) {
        return;
      }
      if saved.None? {
        var c := Fresh(peak.value, peakTs.value, freeCash.value);
        EventSound(settings, j, Start(peak.value, peakTs.value, freeCash.value), if fuel >= 1 then 1 else 0);
        alive := Save(Some(c));
      } else if peak.value > saved.value.referencePrice {
        EventSound(settings, j, Raise(peak.value, peakTs.value), if fuel >= 1 then 1 else 0);
        alive := Save(Some(saved.value.(referencePrice := peak.value, referenceTs := peakTs.value)));
      }
      if !alive {
        return;
      }
      tier := FirstCrossed(drawdown);
    }

    /** The loop over the tiers. */
    method FirstCrossed(move: real) returns (tier: Option<nat>)
      requires saved.Some?
      ensures tier == Crossed(settings, saved.value, move, 0)
    {
      var i := 0;
      while i < |settings.tiers|
        invariant 0 <= i <= |settings.tiers|
        invariant Crossed(settings, saved.value, move, i) == Crossed(settings, saved.value, move, 0)
      {
        if Crosses(settings, saved.value, move, i) {
          return Some(i);
        }
        i := i + 1;
      }
      return None;
    }

    /** The end of `_sell_campaign_tier` and of the BUY branch of `evaluate_symbol`:
        a tier already covered by partial fills is completed, not submitted. */
    method ChargeTier(tier: nat) returns (alive: bool, amount: real)
      requires Valid() && saved.Some? && saved.value.pending.None? && tier < |settings.tiers|
      modifies this
      ensures Valid()
      ensures saved.Some? && amount == Remaining(settings, old(saved).value, tier)
      ensures amount > 0.0 || !alive ==> State() == old(State())
      ensures amount <= 0.0 && alive ==>
                saved == Some(old(saved).value.(completed := old(saved).value.completed + {settings.tiers[tier].0}))
    {
      alive := true;
      amount := Remaining(settings, saved.value, tier);
      if amount <= 0.0 {
        var done := saved.value.(completed := saved.value.completed + {settings.tiers[tier].0});
        EventSound(settings, State(), Complete(tier), if fuel >= 1 then 1 else 0);
        alive := Save(Some(done));
      }
    }

    /** `_sell_campaign_tier`: frozen trough, re-arming, a grown position, open SELL
        orders, and the first crossed tier with something left to sell. */
    method SelectSellTier(price: Option<real>, trough: Option<real>, troughTs: Option<real>, free: Option<real>, rearm: real, openSells: Option<bool>)
      returns (alive: bool, tier: Option<nat>)
      requires Valid() && settings.kind.Sell? && |settings.tiers| > 0
      requires saved.Some? ==> saved.value.pending.None?
      modifies this
      ensures Valid() && (!alive ==> tier.None?)
      ensures SellClears(old(saved), price, free, rearm, openSells) ==>
                tier.None? && if alive then saved.None? else State() == old(State())
      ensures !SellClears(old(saved), price, free, rearm, openSells) && !MaySell(settings, old(saved), price, trough, troughTs, free, openSells) ==>
                alive && tier.None? && State() == old(State())
      ensures !SellClears(old(saved), price, free, rearm, openSells) && MaySell(settings, old(saved), price, trough, troughTs, free, openSells) ==>
                var c := if old(saved).Some? then old(saved).value else Fresh(trough.value, troughTs.value, free.value);
                var (sold, left) := Sold(settings, c, Growth(price.value, c.referencePrice));
                if alive then tier == sold && saved == Some(left) else saved == old(saved) || saved == Some(c)
    {
      alive, tier := true, None;
      ghost var j, lived := State(), if fuel >= 1 then 1 else 0;
      if !Usable(price) || free.None? || free.value < 0.0 {
        return;
      }
      if SellClears(saved, price, free, rearm, openSells) {
        EventSound(settings, j, Clear, lived);
        alive := Save(None);
        return;
      }
      if free.value == 0.0 {
        return;
      }
      if saved.None? && !(Usable(trough) && Usable(troughTs) && Growth(price.value, trough.value) >= settings.tiers[0].0) {
        return;
      }
      if openSells != Some(false) {
        return;
      }
      if saved.None? {
        EventSound(settings, j, Start(trough.value, troughTs.value, free.value), lived);
        alive := Save(Some(Fresh(trough.value, troughTs.value, free.value)));
        if !alive {
          return;
        }
      }
      alive, tier := FirstToSell(Growth(price.value, saved.value.referencePrice));
    }

    /** The loop over the SELL tiers; a crossed tier with nothing left is completed
        and ends the evaluation. */
    method FirstToSell(growth: real) returns (alive: bool, tier: Option<nat>)
      requires Valid() && saved.Some? && saved.value.pending.None?
      modifies this
      ensures Valid() && (!alive ==> tier.None? && State() == old(State()))
      ensures alive ==> (tier, saved) == (Sold(settings, old(saved).value, growth).0, Some(Sold(settings, old(saved).value, growth).1))
    {
      alive := true;
      tier := FirstCrossed(growth);
      if tier.Some? && Remaining(settings, saved.value, tier.value) <= 0.0 {
        var amount;
        alive, amount := ChargeTier(tier.value);
        tier := None;
      }
    }
  }

  /** A finite positive number. */
  predicate Usable(x: Option<real>) {
    x.Some? && x.value > 0.0
  }

  /** The BUY campaign after an observation: opened, or moved to a higher peak. */
  function Followed(saved: Option<Campaign>, peak: real, peakTs: real, freeCash: real): Campaign {
    if saved.None? then Fresh(peak, peakTs, freeCash)
    else if peak > saved.value.referencePrice then saved.value.(referencePrice := peak, referenceTs := peakTs)
    else saved.value
  }

  function Growth(price: real, reference: real): real {
    if reference > 0.0 then (price - reference) / reference * 100.0 else 0.0
  }

  /** The free balance exceeds what the campaign should have left. */
  predicate Grown(c: Campaign, free: real) {
    free > Max(0.0, c.initial - c.total) + Max(0.000000000001, c.initial * 0.000001)
  }

  /** A SELL campaign ends when the position is gone, the record is unusable, the
      price fell back, or the balance grew. */
  predicate SellClears(saved: Option<Campaign>, price: Option<real>, free: Option<real>, rearm: real, openSells: Option<bool>) {
    && Usable(price) && free.Some? && free.value >= 0.0 && saved.Some?
    && if free.value == 0.0 then openSells == Some(false)
       else
         || saved.value.referencePrice <= 0.0 || saved.value.referenceTs <= 0.0 || saved.value.initial <= 0.0
         || Growth(price.value, saved.value.referencePrice) <= rearm || Grown(saved.value, free.value)
  }

  /** A tier is looked for under a stored campaign, or under a new one that the
      lowest tier justifies, and only when no SELL order is known to be open. */
  predicate MaySell(s: Settings, saved: Option<Campaign>, price: Option<real>, trough: Option<real>, troughTs: Option<real>, free: Option<real>, openSells: Option<bool>)
    requires |s.tiers| > 0
  {
    && Usable(price) && Usable(free) && openSells == Some(false)
    && (saved.Some? ||
        (Usable(trough) && Usable(troughTs) && Growth(price.value, trough.value) >= s.tiers[0].0))
  }

  predicate Crosses(s: Settings, c: Campaign, move: real, i: nat) {
    i < |s.tiers| && move >= s.tiers[i].0 && s.tiers[i].0 !in c.completed
  }

  /** The first tier from i on that is crossed and not complete. */
  function Crossed(s: Settings, c: Campaign, move: real, i: nat): (tier: Option<nat>)
    ensures tier.Some? ==> i <= tier.value && Crosses(s, c, move, tier.value)
    ensures forall k :: i <= k < (if tier.Some? then tier.value else |s.tiers|) ==> !Crosses(s, c, move, k)
    decreases |s.tiers| - i
  {
    if i >= |s.tiers| then None
    else if Crosses(s, c, move, i) then Some(i)
    else Crossed(s, c, move, i + 1)
  }

  /** The tier to sell and the campaign left behind: when the first crossed tier has
      nothing left, it is completed and nothing is sold. */
  function Sold(s: Settings, c: Campaign, growth: real): (result: (Option<nat>, Campaign))
    ensures result.0.Some? ==> Crosses(s, c, growth, result.0.value) && Remaining(s, c, result.0.value) > 0.0 && result.1 == c
  {
    var first := Crossed(s, c, growth, 0);
    if first.Some? && Remaining(s, c, first.value) <= 0.0 then
      (None, c.(completed := c.completed + {s.tiers[first.value].0}))
    else (first, c)
  }
}
