/** Rate-limited incident aggregation (notification_digest.py). */
module IncidentDigestFile {
  import opened Options

  type Labels = map<string, string>

  datatype Event = Event(labels: Labels, quantity: real, sample: string)

  datatype Group = Group(
    labels: Labels, nextAt: real, reported: bool, count: nat, quantity: real, firstTs: real, lastTs: real, sample: string)

  // ------------------------------------------------------------------
  // One incident.
  // ------------------------------------------------------------------

  /** Idle groups are forgotten once their interval is over. */
  function Pruned(g: Option<Group>, now: real): Option<Group> {
    if g.Some? && g.value.count == 0 && g.value.nextAt <= now then None else g
  }

  function WithEvent(g: Option<Group>, e: Event, now: real): Group {
    var base := if g.Some? then g.value else Group(e.labels, now, false, 0, 0.0, now, now, e.sample);
    var started := if base.count == 0 then base.(firstTs := now, sample := e.sample) else base;
    started.(lastTs := now, count := started.count + 1, quantity := started.quantity + e.quantity)
  }

  function WithEvents(g: Option<Group>, events: seq<Event>, labels: Labels, now: real): Option<Group> {
    if events == [] then g
    else
      var before := WithEvents(g, events[..|events| - 1], labels, now);
      if events[|events| - 1].labels == labels then Some(WithEvent(before, events[|events| - 1], now)) else before
  }

  predicate Due(g: Option<Group>, now: real) {
    g.Some? && g.value.count > 0 && g.value.nextAt <= now
  }

  function Reported(g: Group, now: real, interval: real): Group {
    g.(nextAt := now + interval, reported := true, count := 0, quantity := 0.0)
  }

  /** One `collect` as one incident sees it: its group before reporting, the report
      if one is due, and what is stored. */
  function Gathered(g: Option<Group>, events: seq<Event>, labels: Labels, now: real): Option<Group> {
    WithEvents(Pruned(g, now), events, labels, now)
  }

  function Report(g: Option<Group>, events: seq<Event>, labels: Labels, now: real): Option<Group> {
    if Due(Gathered(g, events, labels, now), now) then Gathered(g, events, labels, now) else None
  }

  function Stored(g: Option<Group>, events: seq<Event>, labels: Labels, now: real, interval: real): Option<Group> {
    var all := Gathered(g, events, labels, now);
    if Due(all, now) then Some(Reported(all.value, now, interval)) else all
  }

  // ------------------------------------------------------------------
  // Any sequence of calls.
  // ------------------------------------------------------------------

  datatype Call = Call(events: seq<Event>, now: real)

  function After(calls: seq<Call>, labels: Labels, interval: real): Option<Group> {
    if calls == [] then None
    else
      var n := |calls| - 1;
      Stored(After(calls[..n], labels, interval), calls[n].events, labels, calls[n].now, interval)
  }

  /** The report of the last call of a sequence. */
  function LastReport(calls: seq<Call>, labels: Labels, interval: real): Option<Group>
    requires calls != []
  {
    var n := |calls| - 1;
    Report(After(calls[..n], labels, interval), calls[n].events, labels, calls[n].now)
  }

  function Received(events: seq<Event>, labels: Labels): nat {
    if events == [] then 0
    else Received(events[..|events| - 1], labels) + if events[|events| - 1].labels == labels then 1 else 0
  }

  function ReceivedQuantity(events: seq<Event>, labels: Labels): real {
    if events == [] then 0.0
    else ReceivedQuantity(events[..|events| - 1], labels) +
         if events[|events| - 1].labels == labels then events[|events| - 1].quantity else 0.0
  }

  function PendingCount(g: Option<Group>): nat {
    if g.Some? then g.value.count else 0
  }

  function PendingQuantity(g: Option<Group>): real {
    if g.Some? then g.value.quantity else 0.0
  }

  function TotalReceived(calls: seq<Call>, labels: Labels): nat {
    if calls == [] then 0 else TotalReceived(calls[..|calls| - 1], labels) + Received(calls[|calls| - 1].events, labels)
  }

  function TotalReceivedQuantity(calls: seq<Call>, labels: Labels): real {
    if calls == [] then 0.0
    else TotalReceivedQuantity(calls[..|calls| - 1], labels) + ReceivedQuantity(calls[|calls| - 1].events, labels)
  }

  function TotalReported(calls: seq<Call>, labels: Labels, interval: real): nat {
    if calls == [] then 0
    else TotalReported(calls[..|calls| - 1], labels, interval) + PendingCount(LastReport(calls, labels, interval))
  }

  function TotalReportedQuantity(calls: seq<Call>, labels: Labels, interval: real): real {
    if calls == [] then 0.0
    else TotalReportedQuantity(calls[..|calls| - 1], labels, interval) + PendingQuantity(LastReport(calls, labels, interval))
  }

  /** An idle group holds no quantity either. */
  predicate Sane(g: Option<Group>, labels: Labels) {
    g.Some? ==> g.value.labels == labels && (g.value.count == 0 ==> g.value.quantity == 0.0)
  }

  lemma {:induction false} WithEventsCounts(g: Option<Group>, events: seq<Event>, labels: Labels, now: real)
    requires Sane(g, labels)
    ensures Sane(WithEvents(g, events, labels, now), labels)
    ensures PendingCount(WithEvents(g, events, labels, now)) == PendingCount(g) + Received(events, labels)
    ensures PendingQuantity(WithEvents(g, events, labels, now)) == PendingQuantity(g) + ReceivedQuantity(events, labels)
    ensures g.Some? ==> WithEvents(g, events, labels, now).Some? && WithEvents(g, events, labels, now).value.nextAt == g.value.nextAt
    ensures g.None? && WithEvents(g, events, labels, now).Some? ==> WithEvents(g, events, labels, now).value.nextAt == now
  {
    if events != [] {
      WithEventsCounts(g, events[..|events| - 1], labels, now);
    }
  }

  /** Conservation: per label set, what was reported and what is pending is exactly
      what was received, so forgetting an idle group loses nothing. */
  lemma {:induction false} NothingIsLost(calls: seq<Call>, labels: Labels, interval: real)
    ensures Sane(After(calls, labels, interval), labels)
    ensures TotalReported(calls, labels, interval) + PendingCount(After(calls, labels, interval)) == TotalReceived(calls, labels)
    ensures TotalReportedQuantity(calls, labels, interval) + PendingQuantity(After(calls, labels, interval))
              == TotalReceivedQuantity(calls, labels)
  {
    if calls != [] {
      var n := |calls| - 1;
      NothingIsLost(calls[..n], labels, interval);
      var g := After(calls[..n], labels, interval);
      WithEventsCounts(Pruned(g, calls[n].now), calls[n].events, labels, calls[n].now);
    }
  }

  ghost predicate InOrder(calls: seq<Call>) {
    forall i, j :: 0 <= i < j < |calls| ==> calls[i].now <= calls[j].now
  }

  /** Call i reported the incident. */
  predicate ReportedAt(calls: seq<Call>, i: nat, labels: Labels, interval: real)
    requires i < |calls|
  {
    LastReport(calls[..i + 1], labels, interval).Some?
  }

  lemma TakeOne(calls: seq<Call>, n: nat)
    requires 0 < n <= |calls|
    ensures calls[..n] == calls[..n - 1] + [calls[n - 1]]
  {
  }

  /** The last call of a list, and what it stores when it reports. */
  lemma LastCall(calls: seq<Call>, front: seq<Call>, last: Call, labels: Labels, interval: real)
    requires calls == front + [last]
    ensures After(calls, labels, interval) == Stored(After(front, labels, interval), last.events, labels, last.now, interval)
    ensures LastReport(calls, labels, interval).Some? ==>
              After(calls, labels, interval).Some? && After(calls, labels, interval).value.nextAt == last.now + interval
  {
    assert calls[..|calls| - 1] == front;
  }

  /** What holds an incident back until a bound goes on doing so. */
  lemma StillHeld(before: Option<Group>, call: Call, labels: Labels, interval: real, former: real, bound: real)
    requires interval > 0.0 && Sane(before, labels) && call.now >= former
    requires if before.None? then former >= bound else before.value.nextAt >= bound
    ensures var g := Stored(before, call.events, labels, call.now, interval);
            if g.None? then call.now >= bound else g.value.nextAt >= bound
  {
    WithEventsCounts(Pruned(before, call.now), call.events, labels, call.now);
  }

  /** The last report still holds the incident back, or its interval is over. */
  lemma {:induction false} HeldBack(calls: seq<Call>, i: nat, n: nat, labels: Labels, interval: real)
    requires interval > 0.0 && InOrder(calls) && i < n <= |calls| && ReportedAt(calls, i, labels, interval)
    ensures var g := After(calls[..n], labels, interval);
            if g.None? then calls[n - 1].now >= calls[i].now + interval else g.value.nextAt >= calls[i].now + interval
    decreases n
  {
    TakeOne(calls, n);
    LastCall(calls[..n], calls[..n - 1], calls[n - 1], labels, interval);
    if n > i + 1 {
      HeldBack(calls, i, n - 1, labels, interval);
      NothingIsLost(calls[..n - 1], labels, interval);
      StillHeld(After(calls[..n - 1], labels, interval), calls[n - 1], labels, interval, calls[n - 2].now, calls[i].now + interval);
    }
  }

  /** Spacing: two reports of one incident are at least one interval apart. */
  lemma ReportsAreSpaced(calls: seq<Call>, i: nat, j: nat, labels: Labels, interval: real)
    requires interval > 0.0 && InOrder(calls) && i < j < |calls|
    requires ReportedAt(calls, i, labels, interval) && ReportedAt(calls, j, labels, interval)
    ensures calls[j].now >= calls[i].now + interval
  {
    HeldBack(calls, i, j, labels, interval);
    assert calls[..j + 1][..j] == calls[..j];
    NothingIsLost(calls[..j], labels, interval);
    WithEventsCounts(Pruned(After(calls[..j], labels, interval), calls[j].now), calls[j].events, labels, calls[j].now);
  }

  // ------------------------------------------------------------------
  // The class.
  // ------------------------------------------------------------------

  predicate ValidEvent(e: Event) {
    e.labels != map[] && e.quantity >= 0.0
  }

  ghost predicate OnePerLabels(groups: seq<Group>) {
    forall i, j :: 0 <= i < j < |groups| ==> groups[i].labels != groups[j].labels
  }

  function Find(groups: seq<Group>, labels: Labels): (i: Option<nat>)
    ensures i.Some? ==> i.value < |groups| && groups[i.value].labels == labels
    ensures i.None? ==> forall k :: 0 <= k < |groups| ==> groups[k].labels != labels
  {
    if groups == [] then None
    else if groups[|groups| - 1].labels == labels then Some(|groups| - 1)
    else Find(groups[..|groups| - 1], labels)
  }

  function GroupOf(groups: seq<Group>, labels: Labels): Option<Group> {
    if Find(groups, labels).None? then None else Some(groups[Find(groups, labels).value])
  }

  lemma GroupAt(groups: seq<Group>, i: nat)
    requires OnePerLabels(groups) && i < |groups|
    ensures Find(groups, groups[i].labels) == Some(i)
  {
    var found := Find(groups, groups[i].labels);
  }

  /** One more group at the end of a list. */
  lemma GroupAppended(groups: seq<Group>, g: Group, labels: Labels)
    ensures GroupOf(groups + [g], labels) == if g.labels == labels then Some(g) else GroupOf(groups, labels)
  {
    assert (groups + [g])[..|groups|] == groups;
  }

  class IncidentDigest {
    const interval: real
    var groups: seq<Group>

    ghost predicate Valid()
      reads this
    {
      interval > 0.0 && OnePerLabels(groups)
    }

    constructor (interval: real)
      requires interval > 0.0
      ensures Valid() && this.interval == interval && groups == []
    {
      this.interval := interval;
      groups := [];
    }

    /** `collect`; None is the error on an invalid time or event, which saves nothing. */
    method Collect(events: seq<Event>, now: real) returns (due: Option<seq<Group>>)
      requires Valid()
      modifies this`groups
      ensures Valid()
      ensures due.None? <==> now <= 0.0 || exists k :: 0 <= k < |events| && !ValidEvent(events[k])
      ensures due.None? ==> groups == old(groups)
      ensures due.Some? ==>
                forall labels :: GroupOf(groups, labels) == Stored(GroupOf(old(groups), labels), events, labels, now, interval)
      ensures due.Some? ==>
                OnePerLabels(due.value) &&
                forall labels :: GroupOf(due.value, labels) == Report(GroupOf(old(groups), labels), events, labels, now)
    {
      if now <= 0.0 {
        return None;
      }
      var kept := Prune(groups, now);
      var k := 0;
      while k < |events|
        invariant 0 <= k <= |events| && OnePerLabels(kept) && groups == old(groups)
        invariant forall j :: 0 <= j < k ==> ValidEvent(events[j])
        invariant forall labels :: GroupOf(kept, labels) == Gathered(GroupOf(groups, labels), events[..k], labels, now)
      {
        if !ValidEvent(events[k]) {
          return None;
        }
        ghost var before := kept;
        kept := AddEvent(kept, events[k], now);
        forall labels ensures GroupOf(kept, labels) == Gathered(GroupOf(groups, labels), events[..k + 1], labels, now) {
          assert events[..k + 1][..k] == events[..k];
          assert GroupOf(before, labels) == Gathered(GroupOf(groups, labels), events[..k], labels, now);
        }
        k := k + 1;
      }
      assert events[..k] == events;
      var reports;
      reports, kept := Flush(kept, now);
      forall labels
        ensures GroupOf(kept, labels) == Stored(GroupOf(groups, labels), events, labels, now, interval)
        ensures GroupOf(reports, labels) == Report(GroupOf(groups, labels), events, labels, now)
      {
      }
      groups := kept;
      return Some(reports);
    }

    /** Reports every group that is due and starts its next interval. */
    method Flush(all: seq<Group>, now: real) returns (due: seq<Group>, kept: seq<Group>)
      requires Valid() && OnePerLabels(all)
      ensures OnePerLabels(kept) && OnePerLabels(due)
      ensures forall labels :: GroupOf(due, labels) == if Due(GroupOf(all, labels), now) then GroupOf(all, labels) else None
      ensures forall labels ::
                GroupOf(kept, labels) ==
                  if Due(GroupOf(all, labels), now) then Some(Reported(GroupOf(all, labels).value, now, interval)) else GroupOf(all, labels)
    {
      due, kept := [], [];
      var k := 0;
      while k < |all|
        invariant 0 <= k <= |all| && Flushed(all[..k], due, kept, now, interval)
      {
        var g := all[k];
        FlushStep(all, k, due, kept, now, interval);
        if g.count > 0 && g.nextAt <= now {
          due := due + [g];
          kept := kept + [Reported(g, now, interval)];
        } else {
          kept := kept + [g];
        }
        k := k + 1;
      }
      assert all[..k] == all;
    }
  }

  ghost predicate Flushed(all: seq<Group>, due: seq<Group>, kept: seq<Group>, now: real, interval: real) {
    && OnePerLabels(kept) && OnePerLabels(due)
    && (forall labels :: GroupOf(due, labels) == if Due(GroupOf(all, labels), now) then GroupOf(all, labels) else None)
    && (forall labels ::
          GroupOf(kept, labels) ==
            if Due(GroupOf(all, labels), now) then Some(Reported(GroupOf(all, labels).value, now, interval)) else GroupOf(all, labels))
  }

  lemma FlushStep(all: seq<Group>, k: nat, due: seq<Group>, kept: seq<Group>, now: real, interval: real)
    requires OnePerLabels(all) && k < |all| && Flushed(all[..k], due, kept, now, interval)
    ensures Due(Some(all[k]), now) ==> Flushed(all[..k + 1], due + [all[k]], kept + [Reported(all[k], now, interval)], now, interval)
    ensures !Due(Some(all[k]), now) ==> Flushed(all[..k + 1], due, kept + [all[k]], now, interval)
  {
    var g := all[k];
    assert all[..k + 1] == all[..k] + [g];
    NewLabels(all[..k], g, due);
    NewLabels(all[..k], g, kept);
    forall labels
      ensures GroupOf(all[..k + 1], labels) == if g.labels == labels then Some(g) else GroupOf(all[..k], labels)
      ensures GroupOf(due + [g], labels) == if g.labels == labels then Some(g) else GroupOf(due, labels)
      ensures GroupOf(kept + [g], labels) == if g.labels == labels then Some(g) else GroupOf(kept, labels)
      ensures GroupOf(kept + [Reported(g, now, interval)], labels) ==
                if g.labels == labels then Some(Reported(g, now, interval)) else GroupOf(kept, labels)
    {
      GroupAppended(all[..k], g, labels);
      GroupAppended(due, g, labels);
      GroupAppended(kept, g, labels);
      GroupAppended(kept, Reported(g, now, interval), labels);
    }
  }

  /** Labels not among the processed groups are not in what was made of them. */
  lemma NewLabels(done: seq<Group>, g: Group, made: seq<Group>)
    requires forall k :: 0 <= k < |done| ==> done[k].labels != g.labels
    requires forall labels :: GroupOf(done, labels).None? ==> GroupOf(made, labels).None?
    ensures GroupOf(done, g.labels).None? && forall k :: 0 <= k < |made| ==> made[k].labels != g.labels
  {
    assert GroupOf(made, g.labels).None?;
  }

  method Prune(groups: seq<Group>, now: real) returns (kept: seq<Group>)
    requires OnePerLabels(groups)
    ensures OnePerLabels(kept) && forall labels :: GroupOf(kept, labels) == Pruned(GroupOf(groups, labels), now)
  {
    kept := [];
    var k := 0;
    while k < |groups|
      invariant 0 <= k <= |groups| && OnePerLabels(kept)
      invariant forall labels :: GroupOf(kept, labels) == Pruned(GroupOf(groups[..k], labels), now)
    {
      var g := groups[k];
      ghost var before := kept;
      assert groups[..k + 1] == groups[..k] + [g];
      NewLabels(groups[..k], g, kept);
      if g.count != 0 || g.nextAt > now {
        kept := kept + [g];
      }
      forall labels ensures GroupOf(kept, labels) == Pruned(GroupOf(groups[..k + 1], labels), now) {
        GroupAppended(groups[..k], g, labels);
        GroupAppended(before, g, labels);
      }
      k := k + 1;
    }
    assert groups[..k] == groups;
  }

  method AddEvent(groups: seq<Group>, e: Event, now: real) returns (after: seq<Group>)
    requires OnePerLabels(groups)
    ensures OnePerLabels(after)
    ensures forall labels ::
              GroupOf(after, labels) ==
                if e.labels == labels then Some(WithEvent(GroupOf(groups, labels), e, now)) else GroupOf(groups, labels)
  {
    var at := Find(groups, e.labels);
    var g := WithEvent(GroupOf(groups, e.labels), e, now);
    assert g.labels == e.labels;
    if at.None? {
      after := groups + [g];
      forall labels ensures GroupOf(after, labels) == if e.labels == labels then Some(g) else GroupOf(groups, labels) {
        GroupAppended(groups, g, labels);
      }
    } else {
      after := groups[at.value := g];
      forall labels ensures GroupOf(after, labels) == if e.labels == labels then Some(g) else GroupOf(groups, labels) {
        ReplacedGroup(groups, at.value, g, labels);
      }
    }
  }

  lemma ReplacedGroup(groups: seq<Group>, i: nat, g: Group, labels: Labels)
    requires OnePerLabels(groups) && i < |groups| && g.labels == groups[i].labels
    ensures OnePerLabels(groups[i := g])
    ensures GroupOf(groups[i := g], labels) == if g.labels == labels then Some(g) else GroupOf(groups, labels)
  {
    var after := groups[i := g];
    assert OnePerLabels(after);
    GroupAt(after, i);
    if g.labels != labels {
      if Find(groups, labels).Some? {
        var k := Find(groups, labels).value;
        assert after[k] == groups[k];
        GroupAt(after, k);
      } else {
        assert forall k :: 0 <= k < |after| ==> after[k].labels == groups[k].labels;
        var found := Find(after, labels);
      }
    }
  }
}
