/** The Order cache's fill aggregate: overlapping REST and WebSocket deliveries of
    immutable fills merged into one row per order.  Prices and quantities are
    whole numbers of 1e-8, the precision the source rounds to. */
module OrderFills {
  import opened Options

  datatype Side = Buy | Sell

  datatype Fill = Fill(order: nat, id: Option<nat>, price: nat, qty: nat, ts: nat, side: Side)

  datatype Aggregate = Aggregate(
    order: nat, price: nat, qty: nat, ts: nat, side: Side, fillIds: Option<seq<nat>>, cutoff: Option<nat>)

  predicate ValidFill(f: Fill) {
    f.qty > 0 && f.price > 0
  }

  /** Nearest whole number, ties to the even one, as Python's `round`. */
  function RoundDiv(a: nat, b: nat): nat
    requires b > 0
  {
    var down, rest := a / b, a % b;
    if 2 * rest < b then down
    else if 2 * rest > b then down + 1
    else if down % 2 == 0 then down else down + 1
  }

  function Known(agg: Aggregate): seq<nat> {
    if agg.fillIds.Some? then agg.fillIds.value else []
  }

  /** An aggregate without fill IDs covers everything up to its own timestamp, and
      keeps that cutoff once identified fills arrive. */
  function Cutoff(agg: Aggregate): Option<nat> {
    if agg.cutoff.Some? then agg.cutoff
    else if agg.fillIds.None? then Some(agg.ts)
    else None
  }

  function First(f: Fill): Aggregate {
    Aggregate(f.order, f.price, f.qty, f.ts, f.side, if f.id.Some? then Some([f.id.value]) else None, None)
  }

  predicate Covered(agg: Aggregate, f: Fill) {
    || (f.id.Some? && f.id.value in Known(agg))
    || (Cutoff(agg).Some? && f.ts <= Cutoff(agg).value)
  }

  function MaxNat(x: nat, y: nat): nat {
    if x >= y then x else y
  }

  function Added(agg: Aggregate, f: Fill): Aggregate
    requires agg.qty + f.qty > 0
  {
    agg.(price := RoundDiv(agg.price * agg.qty + f.price * f.qty, agg.qty + f.qty),
         qty := agg.qty + f.qty,
         ts := MaxNat(agg.ts, f.ts),
         fillIds := if f.id.Some? then Some(Known(agg) + [f.id.value]) else agg.fillIds,
         cutoff := Cutoff(agg))
  }

  /** One fill merged into an existing aggregate; None is the side conflict. */
  function Merge(agg: Aggregate, f: Fill): Option<Aggregate>
    requires f.qty > 0
  {
    if Covered(agg, f) then Some(agg)
    else if agg.side != f.side then None
    else Some(Added(agg, f))
  }

  // ------------------------------------------------------------------
  // One order, any delivery.
  // ------------------------------------------------------------------

  predicate ValidFills(fills: seq<Fill>) {
    forall i :: 0 <= i < |fills| ==> ValidFill(fills[i])
  }

  function MergeAll(agg: Aggregate, fills: seq<Fill>): Option<Aggregate>
    requires ValidFills(fills)
  {
    if fills == [] then Some(agg)
    else
      var before := MergeAll(agg, fills[..|fills| - 1]);
      if before.None? then None else Merge(before.value, fills[|fills| - 1])
  }

  /** Identified, of one side, and immutable: an ID always names the same fill. */
  ghost predicate SameOrderFills(agg: Aggregate, fills: seq<Fill>) {
    && (forall i :: 0 <= i < |fills| ==> ValidFill(fills[i]) && fills[i].id.Some? && fills[i].side == agg.side)
    && (forall i, j :: 0 <= i < |fills| && 0 <= j < |fills| && fills[i].id == fills[j].id ==> fills[i] == fills[j])
  }

  /** The distinct fills that the aggregate does not already represent. */
  ghost function New(agg: Aggregate, fills: seq<Fill>): set<Fill> {
    set f | f in fills && !Covered(agg, f)
  }

  ghost function Total(fills: set<Fill>): nat {
    if fills == {} then 0
    else
      var f :| f in fills;
      f.qty + Total(fills - {f})
  }

  ghost function Value(fills: set<Fill>): nat {
    if fills == {} then 0
    else
      var f :| f in fills;
      f.price * f.qty + Value(fills - {f})
  }

  lemma {:induction false} TotalAdd(fills: set<Fill>, f: Fill)
    requires f !in fills
    ensures Total(fills + {f}) == Total(fills) + f.qty && Value(fills + {f}) == Value(fills) + f.price * f.qty
    decreases |fills|
  {
    var all := fills + {f};
    TotalRemove(all, f);
    assert all - {f} == fills;
  }

  lemma {:induction false} TotalRemove(fills: set<Fill>, f: Fill)
    requires f in fills
    ensures Total(fills) == Total(fills - {f}) + f.qty && Value(fills) == Value(fills - {f}) + f.price * f.qty
    decreases |fills|
  {
    TotalPick(fills, f);
    ValuePick(fills, f);
  }

  lemma {:induction false} TotalPick(fills: set<Fill>, f: Fill)
    requires f in fills
    ensures Total(fills) == Total(fills - {f}) + f.qty
    decreases |fills|
  {
    var g :| g in fills && Total(fills) == g.qty + Total(fills - {g});
    if g != f {
      TotalPick(fills - {g}, f);
      TotalPick(fills - {f}, g);
      assert fills - {g} - {f} == fills - {f} - {g};
    }
  }

  lemma {:induction false} ValuePick(fills: set<Fill>, f: Fill)
    requires f in fills
    ensures Value(fills) == Value(fills - {f}) + f.price * f.qty
    decreases |fills|
  {
    var g :| g in fills && Value(fills) == g.price * g.qty + Value(fills - {g});
    if g != f {
      ValuePick(fills - {g}, f);
      ValuePick(fills - {f}, g);
      assert fills - {g} - {f} == fills - {f} - {g};
    }
  }

  /** The largest timestamp of the aggregate and the fills. */
  ghost predicate LatestOf(ts: nat, agg: Aggregate, fills: set<Fill>) {
    && ts >= agg.ts && (forall f :: f in fills ==> ts >= f.ts)
    && (ts == agg.ts || exists f :: f in fills && f.ts == ts)
  }

  ghost predicate IdsOf(result: Aggregate, agg: Aggregate, fills: set<Fill>) {
    forall id :: id in Known(result) <==> id in Known(agg) || exists f :: f in fills && f.id == Some(id)
  }

  /** The result of a merge in terms of the set of fills alone. */
  ghost predicate Aggregates(agg: Aggregate, fills: seq<Fill>, result: Aggregate) {
    && result.qty == agg.qty + Total(New(agg, fills))
    && LatestOf(result.ts, agg, New(agg, fills))
    && IdsOf(result, agg, New(agg, fills))
    && Cutoff(result) == Cutoff(agg) && result.side == agg.side && result.order == agg.order
  }

  /** Whether a fill is counted depends on the base aggregate and on whether it was
      counted before. */
  lemma CoveredLater(agg: Aggregate, fills: seq<Fill>, result: Aggregate, f: Fill)
    requires Aggregates(agg, fills, result) && f.id.Some?
    requires forall g :: g in fills && g.id == f.id ==> g == f
    ensures Covered(result, f) <==> Covered(agg, f) || f in New(agg, fills)
  {
    if f.id.value in Known(result) && f.id.value !in Known(agg) {
      var g :| g in New(agg, fills) && g.id == Some(f.id.value);
      assert g in fills;
    }
    if f in New(agg, fills) {
      assert f.id == Some(f.id.value);
    }
  }

  /** Exactly-once aggregation: for every sequence of identified fills, with
      duplicates and in any order, quantity, timestamp and fill IDs are those of
      the distinct fills that the base does not cover. */
  lemma {:induction false} MergeAggregates(agg: Aggregate, fills: seq<Fill>)
    requires SameOrderFills(agg, fills)
    ensures MergeAll(agg, fills).Some? && Aggregates(agg, fills, MergeAll(agg, fills).value)
  {
    if fills == [] {
      assert New(agg, fills) == {};
    } else {
      var n := |fills| - 1;
      FewerFills(agg, fills);
      MergeAggregates(agg, fills[..n]);
      var before := MergeAll(agg, fills[..n]).value;
      NextFill(agg, fills, before);
      if !Covered(before, fills[n]) {
        TotalAdd(New(agg, fills[..n]), fills[n]);
        AddedAggregates(agg, fills[..n], before, fills[n]);
      }
    }
  }

  lemma FewerFills(agg: Aggregate, fills: seq<Fill>)
    requires SameOrderFills(agg, fills) && fills != []
    ensures SameOrderFills(agg, fills[..|fills| - 1])
  {
  }

  /** The last fill of a delivery is covered already or new. */
  lemma NextFill(agg: Aggregate, fills: seq<Fill>, before: Aggregate)
    requires SameOrderFills(agg, fills) && fills != [] && Aggregates(agg, fills[..|fills| - 1], before)
    ensures var f, former := fills[|fills| - 1], New(agg, fills[..|fills| - 1]);
            if Covered(before, f) then New(agg, fills) == former else f !in former && New(agg, fills) == former + {f}
  {
    var n := |fills| - 1;
    assert fills == fills[..n] + [fills[n]];
    CoveredLater(agg, fills[..n], before, fills[n]);
  }

  lemma AddedAggregates(agg: Aggregate, fills: seq<Fill>, before: Aggregate, f: Fill)
    requires Aggregates(agg, fills, before) && f.id.Some? && f.qty > 0
    ensures LatestOf(Added(before, f).ts, agg, New(agg, fills) + {f})
    ensures IdsOf(Added(before, f), agg, New(agg, fills) + {f})
    ensures Cutoff(Added(before, f)) == Cutoff(agg)
  {
    var all := New(agg, fills) + {f};
    assert f in all;
    forall id ensures id in Known(Added(before, f)) <==> id in Known(agg) || exists g :: g in all && g.id == Some(id) {
      assert id in Known(Added(before, f)) <==> id in Known(before) || Some(id) == f.id;
    }
  }

  /** Two deliveries of the same fills give the same quantity, timestamp and IDs. */
  lemma DeliveryDoesNotMatter(agg: Aggregate, left: seq<Fill>, right: seq<Fill>)
    requires SameOrderFills(agg, left) && SameOrderFills(agg, right)
    requires forall f :: f in left <==> f in right
    ensures MergeAll(agg, left).Some? && MergeAll(agg, right).Some?
    ensures MergeAll(agg, left).value.qty == MergeAll(agg, right).value.qty
    ensures MergeAll(agg, left).value.ts == MergeAll(agg, right).value.ts
    ensures forall id :: id in Known(MergeAll(agg, left).value) <==> id in Known(MergeAll(agg, right).value)
  {
    MergeAggregates(agg, left);
    MergeAggregates(agg, right);
    assert New(agg, left) == New(agg, right);
  }

  // ------------------------------------------------------------------
  // The average price.
  // ------------------------------------------------------------------

  lemma RoundDivNear(a: nat, b: nat)
    requires b > 0
    ensures 2 * (RoundDiv(a, b) * b - a) <= b && 2 * (a - RoundDiv(a, b) * b) <= b
  {
    assert a == a / b * b + a % b;
  }

  lemma MulUp(x: nat, y: nat, z: nat)
    requires x <= y
    ensures x * z <= y * z
  {
  }

  lemma MulGap(x: nat, y: nat, z: nat)
    ensures x < y ==> (x + 1) * z <= y * z
  {
    if x < y {
      MulUp(x + 1, y, z);
    }
  }

  /** Rounding never leaves whole-number bounds. */
  lemma RoundDivWithin(a: nat, b: nat, low: nat, high: nat)
    requires b > 0 && low * b <= a <= high * b
    ensures low <= RoundDiv(a, b) <= high
  {
    var down := a / b;
    assert a == down * b + a % b;
    MulGap(down, low, b);
    MulGap(high, down, b);
    assert (down + 1) * b == down * b + b && (high + 1) * b == high * b + b;
    assert low <= down <= high;
    assert down == high ==> a % b == 0;
  }

  /** Twice the distance of the stored price from the exact volume-weighted one,
      times the quantity. */
  predicate Near(price: nat, qty: nat, value: nat, halves: int) {
    2 * (price * qty - value) <= halves * qty && 2 * (value - price * qty) <= halves * qty
  }

  lemma NearStep(price: nat, qty: nat, value: nat, halves: nat, p: nat, q: nat)
    requires Near(price, qty, value, halves) && qty + q > 0
    ensures Near(RoundDiv(price * qty + p * q, qty + q), qty + q, value + p * q, halves + 1)
  {
    var total := price * qty + p * q;
    RoundDivNear(total, qty + q);
    assert (halves + 1) * (qty + q) == halves * qty + halves * q + qty + q;
    assert halves * q >= 0;
  }

  lemma WeightedWithin(low: nat, high: nat, price: nat, qty: nat, p: nat, q: nat)
    requires low <= price <= high && low <= p <= high && qty + q > 0
    ensures low <= RoundDiv(price * qty + p * q, qty + q) <= high
  {
    MulUp(low, price, qty);
    MulUp(low, p, q);
    MulUp(price, high, qty);
    MulUp(p, high, q);
    assert low * (qty + q) == low * qty + low * q && high * (qty + q) == high * qty + high * q;
    RoundDivWithin(price * qty + p * q, qty + q, low, high);
  }

  /** The last fill of a delivery changes nothing or counts once. */
  lemma NewStep(agg: Aggregate, fills: seq<Fill>, before: Aggregate)
    requires SameOrderFills(agg, fills) && fills != [] && MergeAll(agg, fills[..|fills| - 1]) == Some(before)
    ensures before.qty >= agg.qty
    ensures var f, former := fills[|fills| - 1], New(agg, fills[..|fills| - 1]);
            if Covered(before, f) then MergeAll(agg, fills) == Some(before) && New(agg, fills) == former
            else MergeAll(agg, fills) == Some(Added(before, f)) && f !in former && New(agg, fills) == former + {f}
  {
    FewerFills(agg, fills);
    MergeAggregates(agg, fills[..|fills| - 1]);
    NextFill(agg, fills, before);
  }

  /** The exact value that an aggregate and some fills stand for. */
  ghost function Exact(agg: Aggregate, fills: set<Fill>): nat {
    agg.price * agg.qty + Value(fills)
  }

  ghost predicate PriceNear(agg: Aggregate, fills: set<Fill>, result: Aggregate) {
    Near(result.price, result.qty, Exact(agg, fills), |fills|)
  }

  lemma PriceStep(agg: Aggregate, former: set<Fill>, before: Aggregate, f: Fill)
    requires PriceNear(agg, former, before) && f !in former && before.qty > 0
    ensures PriceNear(agg, former + {f}, Added(before, f))
  {
    TotalAdd(former, f);
    assert Exact(agg, former + {f}) == Exact(agg, former) + f.price * f.qty;
    assert |former + {f}| == |former| + 1;
    NearStep(before.price, before.qty, Exact(agg, former), |former|, f.price, f.qty);
  }

  lemma PriceBase(agg: Aggregate)
    ensures PriceNear(agg, {}, agg)
  {
  }

  /** Merging k distinct fills one at a time, each rounded to 1e-8, moves the
      stored price at most k half units from the exact volume-weighted average. */
  lemma {:induction false} PriceNearAverage(agg: Aggregate, fills: seq<Fill>)
    requires SameOrderFills(agg, fills) && agg.qty > 0
    ensures MergeAll(agg, fills).Some? && PriceNear(agg, New(agg, fills), MergeAll(agg, fills).value)
  {
    if fills == [] {
      assert New(agg, fills) == {};
      PriceBase(agg);
    } else {
      var n := |fills| - 1;
      PriceNearAverage(agg, fills[..n]);
      var before := MergeAll(agg, fills[..n]).value;
      NewStep(agg, fills, before);
      if !Covered(before, fills[n]) {
        PriceStep(agg, New(agg, fills[..n]), before, fills[n]);
      }
    }
  }

  predicate PricedWithin(agg: Aggregate, low: nat, high: nat) {
    agg.qty > 0 && low <= agg.price <= high
  }

  lemma AddedWithin(before: Aggregate, f: Fill, low: nat, high: nat)
    requires PricedWithin(before, low, high) && low <= f.price <= high
    ensures PricedWithin(Added(before, f), low, high)
  {
    WeightedWithin(low, high, before.price, before.qty, f.price, f.qty);
  }

  /** The stored price stays between the smallest and the largest price merged. */
  lemma {:induction false} PriceWithinFills(agg: Aggregate, fills: seq<Fill>, low: nat, high: nat)
    requires SameOrderFills(agg, fills) && PricedWithin(agg, low, high)
    requires forall i :: 0 <= i < |fills| ==> low <= fills[i].price <= high
    ensures MergeAll(agg, fills).Some? && PricedWithin(MergeAll(agg, fills).value, low, high)
  {
    MergeAggregates(agg, fills);
    if fills != [] {
      var n := |fills| - 1;
      FewerFills(agg, fills);
      PriceWithinFills(agg, fills[..n], low, high);
      var before := MergeAll(agg, fills[..n]).value;
      NewStep(agg, fills, before);
      if !Covered(before, fills[n]) {
        AddedWithin(before, fills[n], low, high);
      }
    }
  }

  lemma RestOfOrder(first: Fill, rest: seq<Fill>)
    requires first.id.Some? && SameOrderFills(First(first), rest)
    requires forall i :: 0 <= i < |rest| && rest[i].id == first.id ==> rest[i] == first
    ensures (set f | f in rest) + {first} == New(First(first), rest) + {first} && first !in New(First(first), rest)
  {
    forall f | f in rest ensures Covered(First(first), f) <==> f == first {
      var i :| 0 <= i < |rest| && rest[i] == f;
    }
  }

  /** A new order, built from fills alone: k distinct fills cost k - 1 roundings. */
  lemma NewOrderPrice(first: Fill, rest: seq<Fill>)
    requires first.id.Some? && ValidFill(first) && SameOrderFills(First(first), rest)
    requires forall i :: 0 <= i < |rest| && rest[i].id == first.id ==> rest[i] == first
    ensures MergeAll(First(first), rest).Some?
    ensures var distinct := (set f | f in rest) + {first};
            var result := MergeAll(First(first), rest).value;
            result.qty == Total(distinct) && Near(result.price, result.qty, Value(distinct), |distinct| - 1)
  {
    RestOfOrder(first, rest);
    MergeAggregates(First(first), rest);
    PriceNearAverage(First(first), rest);
    FirstCounts(first, New(First(first), rest), MergeAll(First(first), rest).value);
  }

  lemma FirstCounts(first: Fill, others: set<Fill>, result: Aggregate)
    requires first !in others && PriceNear(First(first), others, result) && result.qty == first.qty + Total(others)
    ensures result.qty == Total(others + {first})
    ensures Near(result.price, result.qty, Value(others + {first}), |others + {first}| - 1)
  {
    TotalAdd(others, first);
    assert |others + {first}| - 1 == |others|;
    assert Exact(First(first), others) == Value(others + {first});
  }

  // ------------------------------------------------------------------
  // The cache of one symbol.
  // ------------------------------------------------------------------

  function Position(bucket: seq<Aggregate>, order: nat): (i: Option<nat>)
    ensures i.Some? ==> i.value < |bucket| && bucket[i.value].order == order
    ensures i.None? ==> forall j :: 0 <= j < |bucket| ==> bucket[j].order != order
  {
    if bucket == [] then None
    else if bucket[|bucket| - 1].order == order then Some(|bucket| - 1)
    else Position(bucket[..|bucket| - 1], order)
  }

  ghost predicate OneRowPerOrder(bucket: seq<Aggregate>) {
    forall i, j :: 0 <= i < j < |bucket| ==> bucket[i].order != bucket[j].order
  }

  /** One delivery step on the whole bucket. */
  function Deliver(bucket: seq<Aggregate>, f: Fill): Option<seq<Aggregate>>
    requires f.qty > 0
  {
    var at := Position(bucket, f.order);
    if at.None? then Some(bucket + [First(f)])
    else
      var merged := Merge(bucket[at.value], f);
      if merged.None? then None else Some(bucket[at.value := merged.value])
  }

  function DeliverAll(bucket: seq<Aggregate>, fills: seq<Fill>): Option<seq<Aggregate>>
    requires ValidFills(fills)
  {
    if fills == [] then Some(bucket)
    else
      var before := DeliverAll(bucket, fills[..|fills| - 1]);
      if before.None? then None else Deliver(before.value, fills[|fills| - 1])
  }

  /** The fills of one order, in delivery order. */
  function OfOrder(fills: seq<Fill>, order: nat): seq<Fill> {
    if fills == [] then []
    else
      var before := OfOrder(fills[..|fills| - 1], order);
      if fills[|fills| - 1].order == order then before + [fills[|fills| - 1]] else before
  }

  function Row(bucket: seq<Aggregate>, order: nat): Option<Aggregate> {
    if Position(bucket, order).None? then None else Some(bucket[Position(bucket, order).value])
  }

  /** What one order's fills make of its row. */
  function RowAfter(row: Option<Aggregate>, fills: seq<Fill>): Option<Aggregate>
    requires ValidFills(fills)
  {
    if row.Some? then MergeAll(row.value, fills)
    else if fills == [] then None
    else MergeAll(First(fills[0]), fills[1..])
  }

  lemma {:induction false} OfOrderValid(fills: seq<Fill>, order: nat)
    requires ValidFills(fills)
    ensures ValidFills(OfOrder(fills, order))
  {
    if fills != [] {
      OfOrderValid(fills[..|fills| - 1], order);
    }
  }

  lemma RowAt(bucket: seq<Aggregate>, i: nat)
    requires OneRowPerOrder(bucket) && i < |bucket|
    ensures Row(bucket, bucket[i].order) == Some(bucket[i])
  {
    var at := Position(bucket, bucket[i].order);
  }

  lemma DeliverRow(bucket: seq<Aggregate>, f: Fill, order: nat)
    requires OneRowPerOrder(bucket) && f.qty > 0 && Deliver(bucket, f).Some?
    ensures OneRowPerOrder(Deliver(bucket, f).value)
    ensures order != f.order ==> Row(Deliver(bucket, f).value, order) == Row(bucket, order)
    ensures order == f.order ==>
              Row(Deliver(bucket, f).value, order) ==
                if Row(bucket, order).None? then Some(First(f)) else Merge(Row(bucket, order).value, f)
  {
    var after := Deliver(bucket, f).value;
    var at := Position(bucket, f.order);
    assert OneRowPerOrder(after);
    if at.None? {
      assert after[..|bucket|] == bucket;
    } else {
      RowAt(after, at.value);
      if order != f.order && Position(bucket, order).Some? {
        var i := Position(bucket, order).value;
        assert after[i] == bucket[i];
        RowAt(after, i);
      } else if order != f.order {
        var again := Position(after, order);
        assert forall j :: 0 <= j < |bucket| ==> after[j].order == bucket[j].order;
      }
    }
  }

  lemma RowAfterOne(row: Option<Aggregate>, own: seq<Fill>, f: Fill)
    requires ValidFills(own + [f]) && ValidFills(own) && f.qty > 0
    ensures RowAfter(row, own + [f]) ==
              if row.None? && own == [] then Some(First(f))
              else if RowAfter(row, own).None? then None
              else Merge(RowAfter(row, own).value, f)
  {
    assert (own + [f])[..|own|] == own;
    if own != [] {
      assert (own + [f])[1..] == own[1..] + [f] && (own[1..] + [f])[..|own| - 1] == own[1..];
      assert (own + [f])[0] == own[0];
    }
  }

  /** Orders do not disturb each other: a batch leaves in every row what that
      order's own fills make of it. */
  lemma {:induction false} DeliverByOrder(bucket: seq<Aggregate>, fills: seq<Fill>, order: nat)
    requires OneRowPerOrder(bucket) && ValidFills(fills) && DeliverAll(bucket, fills).Some?
    ensures OneRowPerOrder(DeliverAll(bucket, fills).value) && ValidFills(OfOrder(fills, order))
    ensures Row(DeliverAll(bucket, fills).value, order) == RowAfter(Row(bucket, order), OfOrder(fills, order))
    ensures Row(bucket, order).Some? || OfOrder(fills, order) != [] ==> Row(DeliverAll(bucket, fills).value, order).Some?
  {
    if fills != [] {
      var n := |fills| - 1;
      DeliverByOrder(bucket, fills[..n], order);
      DeliverRow(DeliverAll(bucket, fills[..n]).value, fills[n], order);
      OfOrderValid(fills, order);
      if fills[n].order == order {
        assert OfOrder(fills, order) == OfOrder(fills[..n], order) + [fills[n]];
        RowAfterOne(Row(bucket, order), OfOrder(fills[..n], order), fills[n]);
      }
    }
  }

  // ------------------------------------------------------------------
  // Any two deliveries of the same fills.
  // ------------------------------------------------------------------

  /** The distinct fills of an order not stored before. */
  ghost function Distinct(fills: seq<Fill>): set<Fill> {
    set f | f in fills
  }

  /** Rows that differ at most in the price's rounding and the order of the IDs. */
  ghost predicate SameButPrice(a: Aggregate, b: Aggregate) {
    && a.order == b.order && a.side == b.side && a.qty == b.qty && a.ts == b.ts && Cutoff(a) == Cutoff(b)
    && forall id :: id in Known(a) <==> id in Known(b)
  }

  /** Identified fills of one order and side, in which an ID names one fill. */
  ghost predicate OneOrder(fills: seq<Fill>, order: nat, side: Side) {
    && (forall i :: 0 <= i < |fills| ==>
          ValidFill(fills[i]) && fills[i].id.Some? && fills[i].side == side && fills[i].order == order)
    && (forall i, j :: 0 <= i < |fills| && 0 <= j < |fills| && fills[i].id == fills[j].id ==> fills[i] == fills[j])
  }

  /** What a row made of fills alone must be. */
  ghost predicate BuiltFrom(row: Aggregate, order: nat, side: Side, fills: set<Fill>) {
    && row.order == order && row.side == side && Cutoff(row) == None && row.qty == Total(fills)
    && (forall f :: f in fills ==> f.ts <= row.ts) && (exists f :: f in fills && f.ts == row.ts)
    && (forall id :: id in Known(row) <==> exists f :: f in fills && f.id == Some(id))
  }

  /** Whichever fill comes first and opens the row, the row is built from the set
      of the fills delivered. */
  lemma NewOrderAggregates(fills: seq<Fill>, order: nat, side: Side)
    requires OneOrder(fills, order, side) && fills != []
    ensures RowAfter(None, fills).Some? && BuiltFrom(RowAfter(None, fills).value, order, side, Distinct(fills))
  {
    var first, rest := fills[0], fills[1..];
    assert fills == [first] + rest;
    OpenedBy(first, rest, order, side);
    var others := New(First(first), rest);
    RestOfOrder(first, rest);
    MergeAggregates(First(first), rest);
    assert Distinct(fills) == (set f | f in rest) + {first};
    TotalAdd(others, first);
    BuiltFromRest(first, rest, RowAfter(None, fills).value, Distinct(fills));
  }

  lemma OpenedBy(first: Fill, rest: seq<Fill>, order: nat, side: Side)
    requires OneOrder([first] + rest, order, side)
    ensures first.id.Some? && first.order == order && first.side == side && SameOrderFills(First(first), rest)
    ensures forall i :: 0 <= i < |rest| && rest[i].id == first.id ==> rest[i] == first
  {
    var fills := [first] + rest;
    assert fills[0] == first;
    assert forall i :: 0 <= i < |rest| ==> fills[i + 1] == rest[i];
  }

  lemma BuiltFromRest(first: Fill, rest: seq<Fill>, row: Aggregate, distinct: set<Fill>)
    requires first.id.Some? && Aggregates(First(first), rest, row) && row.qty == Total(distinct)
    requires distinct == New(First(first), rest) + {first}
    ensures BuiltFrom(row, first.order, first.side, distinct)
  {
    assert first in distinct && first.ts <= row.ts;
    forall f | f in distinct ensures f.ts <= row.ts {
      assert f == first || f in New(First(first), rest);
    }
    if row.ts != first.ts {
      var f :| f in New(First(first), rest) && f.ts == row.ts;
      assert f in distinct;
    }
    forall id ensures id in Known(row) <==> exists f :: f in distinct && f.id == Some(id) {
      BuiltIds(first, New(First(first), rest), row, distinct, id);
    }
  }

  lemma BuiltIds(first: Fill, others: set<Fill>, row: Aggregate, distinct: set<Fill>, id: nat)
    requires first.id.Some? && IdsOf(row, First(first), others) && distinct == others + {first}
    ensures id in Known(row) <==> exists f :: f in distinct && f.id == Some(id)
  {
    assert Known(First(first)) == [first.id.value];
    if id in Known(row) {
      if first.id == Some(id) {
        assert first in distinct;
      } else {
        var f :| f in others && f.id == Some(id);
        assert f in distinct;
      }
    }
    if f :| f in distinct && f.id == Some(id) {
      assert f == first || f in others;
    }
  }

  lemma BuiltAlike(a: Aggregate, b: Aggregate, order: nat, side: Side, fills: set<Fill>)
    requires BuiltFrom(a, order, side, fills) && BuiltFrom(b, order, side, fills)
    ensures SameButPrice(a, b)
  {
    var f :| f in fills && f.ts == a.ts;
    var g :| g in fills && g.ts == b.ts;
    assert f.ts <= b.ts && g.ts <= a.ts;
  }

  lemma MergesOrder(agg: Aggregate, fills: seq<Fill>, order: nat)
    requires OneOrder(fills, order, agg.side)
    ensures SameOrderFills(agg, fills)
  {
  }

  /** The row of an order, stored before or not, depends on which of its fills
      were delivered and not on how: duplicates, order and overlap are irrelevant. */
  lemma RowDoesNotMatter(row: Option<Aggregate>, left: seq<Fill>, right: seq<Fill>, order: nat, side: Side)
    requires OneOrder(left, order, side) && OneOrder(right, order, side) && Distinct(left) == Distinct(right)
    requires row.Some? ==> row.value.side == side
    ensures RowAfter(row, left).Some? <==> RowAfter(row, right).Some?
    ensures RowAfter(row, left).Some? <==> row.Some? || left != []
    ensures RowAfter(row, left).Some? ==> SameButPrice(RowAfter(row, left).value, RowAfter(row, right).value)
    ensures RowAfter(row, left).Some? ==> RowAfter(row, left).value.side == side
  {
    forall f ensures f in left <==> f in right {
      assert f in left <==> f in Distinct(left);
      assert f in right <==> f in Distinct(right);
    }
    assert right != [] ==> right[0] in left;
    if row.Some? {
      MergesOrder(row.value, left, order);
      MergesOrder(row.value, right, order);
      DeliveryDoesNotMatter(row.value, left, right);
      MergeAggregates(row.value, left);
      MergeAggregates(row.value, right);
    } else if left != [] {
      assert left[0] in right;
      NewOrderAggregates(left, order, side);
      NewOrderAggregates(right, order, side);
      BuiltAlike(RowAfter(row, left).value, RowAfter(row, right).value, order, side, Distinct(left));
    }
  }

  /** A batch over any orders: identified and immutable fills, one side per order,
      the side of the stored row where there is one. */
  ghost predicate Coherent(bucket: seq<Aggregate>, fills: seq<Fill>) {
    && (forall f :: f in fills ==> ValidFill(f) && f.id.Some?)
    && (forall f, g :: f in fills && g in fills && f.order == g.order ==> f.side == g.side && (f.id == g.id ==> f == g))
    && (forall f :: f in fills && Row(bucket, f.order).Some? ==> Row(bucket, f.order).value.side == f.side)
  }

  lemma {:induction false} OfOrderMembers(fills: seq<Fill>, order: nat, f: Fill)
    ensures f in OfOrder(fills, order) <==> f in fills && f.order == order
  {
    if fills != [] {
      var n := |fills| - 1;
      OfOrderMembers(fills[..n], order, f);
      assert fills == fills[..n] + [fills[n]];
    }
  }

  function SideOf(bucket: seq<Aggregate>, fills: seq<Fill>, order: nat): Side {
    if Row(bucket, order).Some? then Row(bucket, order).value.side
    else if OfOrder(fills, order) == [] then Buy
    else OfOrder(fills, order)[0].side
  }

  lemma OwnFills(bucket: seq<Aggregate>, fills: seq<Fill>, order: nat)
    requires Coherent(bucket, fills)
    ensures OneOrder(OfOrder(fills, order), order, SideOf(bucket, fills, order))
  {
    var own := OfOrder(fills, order);
    forall f | f in own ensures f in fills && f.order == order && f.side == SideOf(bucket, fills, order) {
      OfOrderMembers(fills, order, f);
      OfOrderMembers(fills, order, own[0]);
    }
  }

  lemma CoherentValid(bucket: seq<Aggregate>, fills: seq<Fill>)
    requires Coherent(bucket, fills)
    ensures ValidFills(fills)
  {
  }

  /** A coherent batch has no conflict of sides. */
  lemma {:induction false} CoherentDelivers(bucket: seq<Aggregate>, fills: seq<Fill>)
    requires OneRowPerOrder(bucket) && Coherent(bucket, fills)
    ensures ValidFills(fills) && DeliverAll(bucket, fills).Some?
  {
    CoherentValid(bucket, fills);
    if fills != [] {
      var n := |fills| - 1;
      var order := fills[n].order;
      CoherentDelivers(bucket, fills[..n]);
      DeliverByOrder(bucket, fills[..n], order);
      OwnFills(bucket, fills[..n], order);
      var own, side := OfOrder(fills[..n], order), SideOf(bucket, fills[..n], order);
      RowDoesNotMatter(Row(bucket, order), own, own, order, side);
      if own != [] {
        OfOrderMembers(fills[..n], order, own[0]);
      }
    }
  }

  /** Any two deliveries of the same fills to the cache succeed and leave the same
      orders, each with the same quantity, timestamp and fill IDs. */
  lemma CacheDoesNotMatter(bucket: seq<Aggregate>, left: seq<Fill>, right: seq<Fill>, order: nat)
    requires OneRowPerOrder(bucket) && Coherent(bucket, left) && Distinct(left) == Distinct(right)
    ensures ValidFills(left) && ValidFills(right)
    ensures DeliverAll(bucket, left).Some? && DeliverAll(bucket, right).Some?
    ensures var a, b := Row(DeliverAll(bucket, left).value, order), Row(DeliverAll(bucket, right).value, order);
            a.Some? == b.Some? && (a.Some? ==> SameButPrice(a.value, b.value))
  {
    forall f ensures f in left <==> f in right {
      assert f in left <==> f in Distinct(left);
      assert f in right <==> f in Distinct(right);
    }
    assert Coherent(bucket, right);
    CoherentDelivers(bucket, left);
    CoherentDelivers(bucket, right);
    DeliverByOrder(bucket, left, order);
    DeliverByOrder(bucket, right, order);
    OwnAlike(bucket, left, right, order);
    RowDoesNotMatter(Row(bucket, order), OfOrder(left, order), OfOrder(right, order), order, SideOf(bucket, left, order));
  }

  lemma OwnAlike(bucket: seq<Aggregate>, left: seq<Fill>, right: seq<Fill>, order: nat)
    requires Coherent(bucket, left) && Coherent(bucket, right) && forall f :: f in left <==> f in right
    ensures Distinct(OfOrder(left, order)) == Distinct(OfOrder(right, order))
    ensures OneOrder(OfOrder(left, order), order, SideOf(bucket, left, order))
    ensures OneOrder(OfOrder(right, order), order, SideOf(bucket, left, order))
  {
    forall f ensures f in OfOrder(left, order) <==> f in OfOrder(right, order) {
      OfOrderMembers(left, order, f);
      OfOrderMembers(right, order, f);
    }
    OwnFills(bucket, left, order);
    OwnFills(bucket, right, order);
    assert OfOrder(left, order) != [] ==> OfOrder(left, order)[0] in OfOrder(right, order);
    assert OfOrder(right, order) != [] ==> OfOrder(right, order)[0] in OfOrder(left, order);
  }

  /** Nor does it matter how the fills are cut into batches. */
  lemma {:induction false} DeliverBatches(bucket: seq<Aggregate>, first: seq<Fill>, second: seq<Fill>)
    requires ValidFills(first + second) && ValidFills(first) && ValidFills(second)
    ensures DeliverAll(bucket, first + second) ==
              if DeliverAll(bucket, first).None? then None else DeliverAll(DeliverAll(bucket, first).value, second)
  {
    if second == [] {
      assert first + second == first;
    } else {
      var n := |second| - 1;
      assert (first + second)[..|first| + n] == first + second[..n];
      DeliverBatches(bucket, first, second[..n]);
    }
  }

  class OrderCache {
    var bucket: seq<Aggregate>

    ghost predicate Valid()
      reads this
    {
      OneRowPerOrder(bucket)
    }

    constructor ()
      ensures Valid() && bucket == []
    {
      bucket := [];
    }

    /** `_persist_items`: the whole batch is merged into a copy, and a conflict of
        sides leaves the cache as it was. */
    method PersistItems(fills: seq<Fill>) returns (ok: bool)
      requires Valid() && ValidFills(fills)
      modifies this
      ensures Valid()
      ensures ok <==> DeliverAll(old(bucket), fills).Some?
      ensures Coherent(old(bucket), fills) ==> ok
      ensures bucket == if ok then DeliverAll(old(bucket), fills).value else old(bucket)
    {
      ghost var coherent := Coherent(bucket, fills);
      if coherent {
        CoherentDelivers(bucket, fills);
      }
      var candidate := bucket;
      var index := Positions(bucket);
      var k := 0;
      while k < |fills|
        invariant 0 <= k <= |fills| && bucket == old(bucket)
        invariant DeliverAll(bucket, fills[..k]) == Some(candidate) && Indexes(index, candidate)
      {
        assert fills[..k + 1][..k] == fills[..k];
        DeliverPrefix(bucket, fills, k);
        var next;
        next, index := MergeInto(candidate, index, fills[k]);
        if next.None? {
          return false;
        }
        candidate := next.value;
        k := k + 1;
      }
      assert fills[..k] == fills;
      bucket := candidate;
      return true;
    }
  }

  /** `by_id`: where the row of each order is. */
  ghost predicate Indexes(index: map<nat, nat>, candidate: seq<Aggregate>) {
    && OneRowPerOrder(candidate)
    && (forall order :: order in index ==> index[order] < |candidate| && candidate[index[order]].order == order)
    && (forall i :: 0 <= i < |candidate| ==> candidate[i].order in index)
  }

  method Positions(bucket: seq<Aggregate>) returns (index: map<nat, nat>)
    requires OneRowPerOrder(bucket)
    ensures Indexes(index, bucket)
  {
    index := map[];
    var i := 0;
    while i < |bucket|
      invariant 0 <= i <= |bucket|
      invariant forall order :: order in index ==> index[order] < i && bucket[index[order]].order == order
      invariant forall j :: 0 <= j < i ==> bucket[j].order in index
    {
      index := index[bucket[i].order := i];
      i := i + 1;
    }
  }

  method MergeInto(candidate: seq<Aggregate>, index: map<nat, nat>, f: Fill)
    returns (next: Option<seq<Aggregate>>, positions: map<nat, nat>)
    requires Indexes(index, candidate) && f.qty > 0
    ensures next == Deliver(candidate, f)
    ensures next.Some? ==> Indexes(positions, next.value)
  {
    positions := index;
    if f.order !in index {
      positions := index[f.order := |candidate|];
      return Some(candidate + [First(f)]), positions;
    }
    var i := index[f.order];
    RowAt(candidate, i);
    assert Position(candidate, f.order) == Some(i);
    var existing := candidate[i];
    if Covered(existing, f) {
      assert candidate[i := existing] == candidate;
      return Some(candidate), positions;
    }
    if existing.side != f.side {
      return None, positions;
    }
    return Some(candidate[i := Added(existing, f)]), positions;
  }

  /** A conflict in the middle fails the whole batch. */
  lemma {:induction false} DeliverPrefix(bucket: seq<Aggregate>, fills: seq<Fill>, k: nat)
    requires ValidFills(fills) && k < |fills|
    ensures DeliverAll(bucket, fills[..k + 1]).None? ==> DeliverAll(bucket, fills).None?
    decreases |fills| - k
  {
    if k + 1 == |fills| {
      assert fills[..k + 1] == fills;
    } else {
      DeliverPrefix(bucket, fills, k + 1);
      assert fills[..k + 2][..k + 1] == fills[..k + 1];
    }
  }
}
