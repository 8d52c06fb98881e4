/** AssetGuardian's tiered campaigns: accounting and budgets over every history of
    submissions, reconciliations and crashes.  A campaign is one durable record;
    every save replaces it whole, and a process may die between two saves. */
module Campaigns {
  import opened Options
  import opened TrackedLifecycle

  /** Tiers are pairs of threshold and allocation; `ratio` is the cash ratio of a
      BUY and 1 for a SELL. */
  datatype Settings = Settings(kind: Kind, tiers: seq<(real, real)>, ratio: real, policy: Policy)

  ghost predicate ValidSettings(s: Settings) {
    && s.ratio > 0.0
    && (forall i :: 0 <= i < |s.tiers| ==> s.tiers[i].1 > 0.0)
    && (forall i, j :: 0 <= i < j < |s.tiers| ==> s.tiers[i].0 != s.tiers[j].0)
  }

  datatype Campaign = Campaign(
    referencePrice: real, referenceTs: real, initial: real, completed: set<real>,
    byTier: map<real, real>, total: real, attempts: map<real, nat>, pending: Option<Pending>)

  /** One order whose terminal status was persisted. */
  datatype Entry = Entry(clientId: ClientId, threshold: real, attempt: nat, order: Option<nat>, amount: real)

  /** The durable record and, for the argument only, every terminal status that was
      ever persisted in it. */
  datatype Journal = Journal(saved: Option<Campaign>, ledger: seq<Entry>)

  function Get(m: map<real, real>, key: real): real {
    if key in m then m[key] else 0.0
  }

  function Attempts(c: Campaign, key: real): nat {
    if key in c.attempts then c.attempts[key] else 0
  }

  /** What an order adds to its campaign: cost and fee of a BUY, quantity of a SELL. */
  function Amount(kind: Kind, status: Status): real {
    if kind.Buy? then Max(0.0, status.cost + status.fee) else Max(0.0, status.filled)
  }

  function Target(s: Settings, initial: real, i: nat): real
    requires i < |s.tiers|
  {
    initial * s.ratio * s.tiers[i].1
  }

  /** `_buy_remaining_cash` and the SELL tier's remaining quantity. */
  function Remaining(s: Settings, c: Campaign, i: nat): real
    requires i < |s.tiers|
  {
    Max(0.0, Target(s, c.initial, i) - Get(c.byTier, s.tiers[i].0))
  }

  // ------------------------------------------------------------------
  // Saves.
  // ------------------------------------------------------------------

  predicate TerminalRow(c: Campaign) {
    c.pending.Some? && c.pending.value.terminal.Some?
  }

  function EntryOf(kind: Kind, p: Pending): Entry
    requires p.terminal.Some?
  {
    Entry(p.clientId, p.threshold, p.attempt, p.orderId, Amount(kind, p.terminal.value))
  }

  /** One save.  It enters the ledger when it is the first to hold a terminal
      status; clearing the campaign closes the ledger. */
  function Write(kind: Kind, j: Journal, c: Option<Campaign>): Journal {
    Journal(c,
            if c.None? then []
            else if TerminalRow(c.value) && !(j.saved.Some? && TerminalRow(j.saved.value))
            then j.ledger + [EntryOf(kind, c.value.pending.value)]
            else j.ledger)
  }

  function WriteAll(kind: Kind, j: Journal, saves: seq<Option<Campaign>>): Journal {
    if saves == [] then j else Write(kind, WriteAll(kind, j, saves[..|saves| - 1]), saves[|saves| - 1])
  }

  function Fresh(price: real, ts: real, initial: real): Campaign {
    Campaign(price, ts, initial, {}, map[], 0.0, map[], None)
  }

  /** `_record_terminal_buy` and `_record_terminal_sell`: the amount goes to the tier
      and the total and the pending row goes away, in one save. */
  function Recorded(kind: Kind, c: Campaign, threshold: real, status: Status): Campaign {
    var amount := Amount(kind, status);
    c.(byTier := c.byTier[threshold := Get(c.byTier, threshold) + amount],
       total := c.total + amount,
       completed := if status.kind.Closed? && status.filled > 0.0 then c.completed + {threshold} else c.completed,
       pending := None)
  }

  /** `_reuse_unaccepted_attempt`: the attempt number is given back. */
  function Reused(c: Campaign, p: Pending): Campaign {
    c.(attempts := c.attempts[p.threshold := if p.attempt > 0 then p.attempt - 1 else 0])
  }

  function WithPending(c: Campaign, rows: seq<Option<Pending>>): seq<Option<Campaign>> {
    seq(|rows|, (i: nat) requires i < |rows| => Some(c.(pending := rows[i])))
  }

  function LastRow(c: Campaign, rows: seq<Option<Pending>>): Campaign {
    if rows == [] then c else c.(pending := rows[|rows| - 1])
  }

  datatype Event =
    | Start(price: real, ts: real, initial: real)
    | Raise(price: real, ts: real)
    | SubmitTier(tier: nat, now: real, said: Submission, order: Option<nat>)
    | Reconcile(now: real, answers: Answers)
    | Complete(tier: nat)
    | Clear

  function ClientIdFor(s: Settings, c: Campaign, threshold: real): ClientId {
    ClientId(s.kind, c.referenceTs, threshold, Attempts(c, threshold) + 1)
  }

  function NewIntent(s: Settings, c: Campaign, i: nat, now: real): Pending
    requires i < |s.tiers|
  {
    var t := s.tiers[i].0;
    Pending(ClientIdFor(s, c, t), t, Attempts(c, t) + 1, Remaining(s, c, i), now, NotSent, None, 0,
            false, false, false, None, None, None)
  }

  function Counted(s: Settings, c: Campaign, i: nat): Campaign
    requires i < |s.tiers|
  {
    c.(attempts := c.attempts[s.tiers[i].0 := Attempts(c, s.tiers[i].0) + 1])
  }

  function ReconcileSaves(s: Settings, c: Campaign, p: Pending, now: real, a: Answers): seq<Option<Campaign>> {
    var t := ReconcileTrace(s.policy, p, now, a);
    var last := LastRow(c, t.saves);
    WithPending(c, t.saves) +
    match t.outcome
      case Active => []
      case Ended(status) => [Some(Recorded(s.kind, last, p.threshold, status))]
      case Absent => [Some(Reused(last, p))]
      case Retryable => [Some(Reused(last, p))]
  }

  /** When the evaluation takes the step.  Whatever the venue answers is possible. */
  ghost predicate Admissible(s: Settings, j: Journal, e: Event) {
    match e
    case Start(_, _, initial) => j.saved.None? && initial > 0.0
    case Raise(price, _) => s.kind.Buy? && j.saved.Some? && price > j.saved.value.referencePrice
    case SubmitTier(tier, _, _, _) =>
      && j.saved.Some? && j.saved.value.pending.None? && tier < |s.tiers|
      && s.tiers[tier].0 !in j.saved.value.completed && Remaining(s, j.saved.value, tier) > 0.0
    case Reconcile(_, _) => j.saved.Some? && j.saved.value.pending.Some?
    case Complete(tier) =>
      && j.saved.Some? && j.saved.value.pending.None? && tier < |s.tiers| && Remaining(s, j.saved.value, tier) <= 0.0
    case Clear => j.saved.Some? && j.saved.value.pending.None?
  }

  function SavesOf(s: Settings, j: Journal, e: Event): seq<Option<Campaign>> {
    match e
    case Start(price, ts, initial) => [Some(Fresh(price, ts, initial))]
    case Raise(price, ts) =>
      if j.saved.None? then [] else [Some(j.saved.value.(referencePrice := price, referenceTs := ts))]
    case SubmitTier(tier, now, said, order) =>
      if j.saved.None? || tier >= |s.tiers| then []
      else WithPending(Counted(s, j.saved.value, tier), SubmitTrace(NewIntent(s, j.saved.value, tier, now), said, order))
    case Reconcile(now, a) =>
      if j.saved.None? || j.saved.value.pending.None? then []
      else ReconcileSaves(s, j.saved.value, j.saved.value.pending.value, now, a)
    case Complete(tier) =>
      if j.saved.None? || tier >= |s.tiers| then []
      else [Some(j.saved.value.(completed := j.saved.value.completed + {s.tiers[tier].0}))]
    case Clear => [None]
  }

  /** A history: each step is an event of which the process got n saves done. */
  datatype Step = Step(event: Event, n: nat)

  ghost predicate LeadsTo(s: Settings, j: Journal, step: Step, after: Journal) {
    && Admissible(s, j, step.event) && step.n <= |SavesOf(s, j, step.event)|
    && after == WriteAll(s.kind, j, SavesOf(s, j, step.event)[..step.n])
  }

  ghost predicate IsHistory(s: Settings, js: seq<Journal>, steps: seq<Step>) {
    && |js| == |steps| + 1 && js[0] == Journal(None, [])
    && forall i, k :: 0 <= i < |steps| && k == i + 1 ==> LeadsTo(s, js[i], steps[i], js[k])
  }

  // ------------------------------------------------------------------
  // The invariant.
  // ------------------------------------------------------------------

  function LedgerSum(ledger: seq<Entry>, threshold: real): real {
    if ledger == [] then 0.0
    else
      LedgerSum(ledger[..|ledger| - 1], threshold) +
      (if ledger[|ledger| - 1].threshold == threshold then ledger[|ledger| - 1].amount else 0.0)
  }

  function LedgerTotal(ledger: seq<Entry>): real {
    if ledger == [] then 0.0 else LedgerTotal(ledger[..|ledger| - 1]) + ledger[|ledger| - 1].amount
  }

  function TierSum(tiers: seq<(real, real)>, byTier: map<real, real>): real {
    if tiers == [] then 0.0 else TierSum(tiers[..|tiers| - 1], byTier) + Get(byTier, tiers[|tiers| - 1].0)
  }

  function AllocationSum(tiers: seq<(real, real)>): real {
    if tiers == [] then 0.0 else AllocationSum(tiers[..|tiers| - 1]) + tiers[|tiers| - 1].1
  }

  /** The persisted terminal amount not yet added to the campaign. */
  function Unrecorded(kind: Kind, c: Campaign): real {
    if TerminalRow(c) then Amount(kind, c.pending.value.terminal.value) else 0.0
  }

  function UnrecordedAt(kind: Kind, c: Campaign, threshold: real): real {
    if TerminalRow(c) && c.pending.value.threshold == threshold then Amount(kind, c.pending.value.terminal.value) else 0.0
  }

  /** Every persisted terminal order counts once, in its tier and in the total. */
  ghost predicate CountedOnce(s: Settings, c: Campaign, ledger: seq<Entry>) {
    && LedgerTotal(ledger) == c.total + Unrecorded(s.kind, c)
    && c.total == TierSum(s.tiers, c.byTier)
    && (forall t :: LedgerSum(ledger, t) == Get(c.byTier, t) + UnrecordedAt(s.kind, c, t))
  }

  ghost predicate Known(s: Settings, threshold: real) {
    exists i :: 0 <= i < |s.tiers| && s.tiers[i].0 == threshold
  }

  /** No tier has taken less than nothing, and a pending order is for a tier. */
  ghost predicate WellPlaced(s: Settings, c: Campaign) {
    && c.initial > 0.0
    && (forall i :: 0 <= i < |s.tiers| ==> 0.0 <= Get(c.byTier, s.tiers[i].0))
    && (c.pending.Some? ==> Known(s, c.pending.value.threshold))
    && (TerminalRow(c) ==> Terminal(c.pending.value.terminal.value))
  }

  /** Recorded orders of a tier have distinct attempt numbers, all of them used up,
      and the pending one is the next. */
  ghost predicate OwnAttempts(c: Campaign, ledger: seq<Entry>) {
    && (forall i :: 0 <= i < |ledger| ==> 0 < ledger[i].attempt <= Attempts(c, ledger[i].threshold))
    && (forall i, k :: 0 <= i < k < |ledger| && ledger[i].threshold == ledger[k].threshold ==> ledger[i].attempt < ledger[k].attempt)
    && (c.pending.Some? ==>
          && c.pending.value.attempt > 0 && c.pending.value.attempt == Attempts(c, c.pending.value.threshold)
          && (!TerminalRow(c) ==>
                forall i :: 0 <= i < |ledger| && ledger[i].threshold == c.pending.value.threshold ==>
                  ledger[i].attempt < c.pending.value.attempt))
  }

  ghost predicate Sound(s: Settings, j: Journal) {
    if j.saved.None? then j.ledger == []
    else CountedOnce(s, j.saved.value, j.ledger) && WellPlaced(s, j.saved.value) && OwnAttempts(j.saved.value, j.ledger)
  }

  // ------------------------------------------------------------------
  // One save at a time.
  // ------------------------------------------------------------------

  /** A pending row is replaced by a later row of the same intent. */
  ghost predicate NextRow(s: Settings, before: Campaign, c: Campaign) {
    && before.pending.Some? && !TerminalRow(before) && c.pending.Some? && c == before.(pending := c.pending)
    && SameIntent(before.pending.value, c.pending.value)
    && (TerminalRow(c) ==> Terminal(c.pending.value.terminal.value))
  }

  lemma RowCounted(s: Settings, j: Journal, c: Campaign)
    requires j.saved.Some? && CountedOnce(s, j.saved.value, j.ledger) && NextRow(s, j.saved.value, c)
    ensures CountedOnce(s, c, Write(s.kind, j, Some(c)).ledger)
  {
    var ledger := Write(s.kind, j, Some(c)).ledger;
    if TerminalRow(c) {
      assert ledger[..|j.ledger|] == j.ledger;
    }
    forall t ensures LedgerSum(ledger, t) == Get(c.byTier, t) + UnrecordedAt(s.kind, c, t) {
      assert LedgerSum(j.ledger, t) == Get(j.saved.value.byTier, t) + UnrecordedAt(s.kind, j.saved.value, t);
    }
  }

  lemma RowPlaced(s: Settings, before: Campaign, c: Campaign)
    requires WellPlaced(s, before) && NextRow(s, before, c)
    ensures WellPlaced(s, c)
  {
  }

  lemma RowAttempts(s: Settings, j: Journal, c: Campaign)
    requires j.saved.Some? && OwnAttempts(j.saved.value, j.ledger) && NextRow(s, j.saved.value, c)
    ensures OwnAttempts(c, Write(s.kind, j, Some(c)).ledger)
  {
  }

  lemma RowSaveSound(s: Settings, j: Journal, c: Campaign)
    requires Sound(s, j) && j.saved.Some? && NextRow(s, j.saved.value, c)
    ensures Sound(s, Write(s.kind, j, Some(c)))
  {
    RowCounted(s, j, c);
    RowPlaced(s, j.saved.value, c);
    RowAttempts(s, j, c);
  }

  /** The row goes away without having ended. */
  lemma RemovalSound(s: Settings, j: Journal)
    requires Sound(s, j) && j.saved.Some? && !TerminalRow(j.saved.value)
    ensures Sound(s, Write(s.kind, j, Some(j.saved.value.(pending := None))))
  {
    var c := j.saved.value.(pending := None);
    forall t ensures LedgerSum(j.ledger, t) == Get(c.byTier, t) + UnrecordedAt(s.kind, c, t) {
      assert LedgerSum(j.ledger, t) == Get(j.saved.value.byTier, t) + UnrecordedAt(s.kind, j.saved.value, t);
    }
  }

  lemma {:induction false} TierSumUpdate(tiers: seq<(real, real)>, byTier: map<real, real>, key: real, amount: real)
    requires forall i, j :: 0 <= i < j < |tiers| ==> tiers[i].0 != tiers[j].0
    ensures TierSum(tiers, byTier[key := Get(byTier, key) + amount]) ==
              TierSum(tiers, byTier) + if exists i :: 0 <= i < |tiers| && tiers[i].0 == key then amount else 0.0
  {
    if tiers != [] {
      var n := |tiers| - 1;
      TierSumUpdate(tiers[..n], byTier, key, amount);
      if tiers[n].0 == key {
        assert forall i :: 0 <= i < n ==> tiers[..n][i].0 != key;
      } else {
        assert (exists i :: 0 <= i < |tiers| && tiers[i].0 == key) <==> exists i :: 0 <= i < n && tiers[..n][i].0 == key by {
          if i :| 0 <= i < |tiers| && tiers[i].0 == key {
            assert tiers[..n][i].0 == key;
          }
        }
      }
    }
  }

  /** The terminal amount moves from the row to its tier and the total. */
  lemma RecordCounted(s: Settings, c: Campaign, ledger: seq<Entry>)
    requires ValidSettings(s) && CountedOnce(s, c, ledger) && WellPlaced(s, c) && TerminalRow(c)
    ensures CountedOnce(s, Recorded(s.kind, c, c.pending.value.threshold, c.pending.value.terminal.value), ledger)
  {
    var key, status := c.pending.value.threshold, c.pending.value.terminal.value;
    var after := Recorded(s.kind, c, key, status);
    TierSumUpdate(s.tiers, c.byTier, key, Amount(s.kind, status));
    forall t ensures LedgerSum(ledger, t) == Get(after.byTier, t) + UnrecordedAt(s.kind, after, t) {
      assert LedgerSum(ledger, t) == Get(c.byTier, t) + UnrecordedAt(s.kind, c, t);
    }
  }

  lemma RecordPlaced(s: Settings, c: Campaign)
    requires WellPlaced(s, c) && TerminalRow(c)
    ensures WellPlaced(s, Recorded(s.kind, c, c.pending.value.threshold, c.pending.value.terminal.value))
  {
  }

  lemma RecordSound(s: Settings, j: Journal)
    requires ValidSettings(s) && Sound(s, j) && j.saved.Some? && TerminalRow(j.saved.value)
    ensures var p := j.saved.value.pending.value;
            Sound(s, Write(s.kind, j, Some(Recorded(s.kind, j.saved.value, p.threshold, p.terminal.value))))
  {
    RecordCounted(s, j.saved.value, j.ledger);
    RecordPlaced(s, j.saved.value);
  }

  /** The attempt number given back was never recorded. */
  ghost predicate Unused(ledger: seq<Entry>, p: Pending) {
    forall i :: 0 <= i < |ledger| && ledger[i].threshold == p.threshold ==> ledger[i].attempt < p.attempt
  }

  lemma ReuseSound(s: Settings, j: Journal, p: Pending)
    requires Sound(s, j) && j.saved.Some? && j.saved.value.pending.None? && Unused(j.ledger, p)
    ensures Sound(s, Write(s.kind, j, Some(Reused(j.saved.value, p))))
  {
    var c, after := j.saved.value, Reused(j.saved.value, p);
    forall t ensures LedgerSum(j.ledger, t) == Get(after.byTier, t) + UnrecordedAt(s.kind, after, t) {
      assert LedgerSum(j.ledger, t) == Get(c.byTier, t) + UnrecordedAt(s.kind, c, t);
    }
  }

  lemma IntentSound(s: Settings, j: Journal, i: nat, now: real)
    requires ValidSettings(s) && Sound(s, j) && j.saved.Some? && j.saved.value.pending.None? && i < |s.tiers|
    requires Remaining(s, j.saved.value, i) > 0.0
    ensures Sound(s, Write(s.kind, j, Some(Counted(s, j.saved.value, i).(pending := Some(NewIntent(s, j.saved.value, i, now))))))
  {
    var c := j.saved.value;
    var after := Counted(s, c, i).(pending := Some(NewIntent(s, c, i, now)));
    forall t ensures LedgerSum(j.ledger, t) == Get(after.byTier, t) + UnrecordedAt(s.kind, after, t) {
      assert LedgerSum(j.ledger, t) == Get(c.byTier, t) + UnrecordedAt(s.kind, c, t);
    }
    assert WellPlaced(s, after);
  }

  lemma PlainPlaced(s: Settings, was: Campaign, c: Campaign)
    requires WellPlaced(s, was) && c.initial == was.initial && c.byTier == was.byTier && c.pending == was.pending
    ensures WellPlaced(s, c)
  {
  }

  lemma PlainCounted(s: Settings, was: Campaign, c: Campaign, ledger: seq<Entry>)
    requires CountedOnce(s, was, ledger) && c.total == was.total && c.byTier == was.byTier && c.pending == was.pending
    ensures CountedOnce(s, c, ledger)
  {
    forall t ensures LedgerSum(ledger, t) == Get(c.byTier, t) + UnrecordedAt(s.kind, c, t) {
      assert LedgerSum(ledger, t) == Get(was.byTier, t) + UnrecordedAt(s.kind, was, t);
    }
  }

  /** Changing the reference or the completed tiers moves no money. */
  lemma PlainSaveSound(s: Settings, j: Journal, c: Campaign)
    requires Sound(s, j) && j.saved.Some?
    requires c == j.saved.value.(referencePrice := c.referencePrice, referenceTs := c.referenceTs, completed := c.completed)
    ensures Sound(s, Write(s.kind, j, Some(c)))
  {
    PlainPlaced(s, j.saved.value, c);
    PlainCounted(s, j.saved.value, c, j.ledger);
  }

  lemma {:induction false} FreshSum(tiers: seq<(real, real)>)
    ensures TierSum(tiers, map[]) == 0.0
  {
    if tiers != [] {
      FreshSum(tiers[..|tiers| - 1]);
    }
  }

  lemma FreshSound(s: Settings, price: real, ts: real, initial: real)
    requires ValidSettings(s) && initial > 0.0
    ensures Sound(s, Journal(Some(Fresh(price, ts, initial)), []))
  {
    FreshSum(s.tiers);
  }
}
