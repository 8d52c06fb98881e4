/** The sliding price window of pricewindow.py: a bounded deque and a sorted mirror
    of it, both updated in place. */
module PriceWindowFile {
  import opened Options

  ghost predicate Sorted(s: seq<real>) {
    forall i, j :: 0 <= i < j < |s| ==> s[i] <= s[j]
  }

  ghost predicate SuffixOf(s: seq<real>, stream: seq<real>) {
    |s| <= |stream| && forall k :: 0 <= k < |s| ==> s[k] == stream[|stream| - |s| + k]
  }

  function Last(s: seq<real>, n: nat): (r: seq<real>)
    ensures |r| == if |s| <= n then |s| else n
  {
    if |s| <= n then s else s[|s| - n..]
  }

  lemma LastIsSuffix(s: seq<real>, stream: seq<real>, n: nat)
    requires SuffixOf(s, stream)
    ensures SuffixOf(Last(s, n), stream)
  {
    var r := Last(s, n);
    assert forall k :: 0 <= k < |r| ==> r[k] == s[|s| - |r| + k];
  }

  lemma PushIsSuffix(s: seq<real>, stream: seq<real>, x: real, n: nat)
    requires SuffixOf(s, stream)
    ensures SuffixOf(Last(s + [x], n), stream + [x])
  {
    assert SuffixOf(s + [x], stream + [x]);
    LastIsSuffix(s + [x], stream + [x], n);
  }

  /** `bisect_left`. */
  method BisectLeft(s: seq<real>, x: real) returns (i: nat)
    requires Sorted(s)
    ensures i <= |s| && (forall k :: 0 <= k < i ==> s[k] < x) && (forall k :: i <= k < |s| ==> x <= s[k])
  {
    var lo, hi := 0, |s|;
    while lo < hi
      invariant 0 <= lo <= hi <= |s|
      invariant forall k :: 0 <= k < lo ==> s[k] < x
      invariant forall k :: hi <= k < |s| ==> x <= s[k]
    {
      var mid := (lo + hi) / 2;
      if s[mid] < x {
        lo := mid + 1;
      } else {
        hi := mid;
      }
    }
    return lo;
  }

  /** `bisect_right`: behind equal prices. */
  method BisectRight(s: seq<real>, x: real) returns (i: nat)
    requires Sorted(s)
    ensures i <= |s| && (forall k :: 0 <= k < i ==> s[k] <= x) && (forall k :: i <= k < |s| ==> x < s[k])
  {
    var lo, hi := 0, |s|;
    while lo < hi
      invariant 0 <= lo <= hi <= |s|
      invariant forall k :: 0 <= k < lo ==> s[k] <= x
      invariant forall k :: hi <= k < |s| ==> x < s[k]
    {
      var mid := (lo + hi) / 2;
      if x < s[mid] {
        hi := mid;
      } else {
        lo := mid + 1;
      }
    }
    return lo;
  }

  /** `insort`, which inserts to the right of equal prices. */
  method Insort(s: seq<real>, x: real) returns (r: seq<real>)
    requires Sorted(s)
    ensures Sorted(r) && multiset(r) == multiset(s) + multiset{x}
  {
    var i := BisectRight(s, x);
    r := s[..i] + [x] + s[i..];
    InsertSorted(s, i, x, r);
    InsertOne(s, i, x, r);
  }

  lemma InsertOne(s: seq<real>, i: nat, x: real, r: seq<real>)
    requires i <= |s| && r == s[..i] + [x] + s[i..]
    ensures multiset(r) == multiset(s) + multiset{x}
  {
    assert s == s[..i] + s[i..];
  }

  lemma InsertSorted(s: seq<real>, i: nat, x: real, r: seq<real>)
    requires Sorted(s) && i <= |s| && r == s[..i] + [x] + s[i..]
    requires (forall k :: 0 <= k < i ==> s[k] <= x) && (forall k :: i <= k < |s| ==> x < s[k])
    ensures Sorted(r)
  {
    forall a, b | 0 <= a < b < |r| ensures r[a] <= r[b] {
      assert r[a] == if a < i then s[a] else if a == i then x else s[a - 1];
      assert r[b] == if b < i then s[b] else if b == i then x else s[b - 1];
    }
  }

  lemma DropSorted(s: seq<real>, i: nat, r: seq<real>)
    requires i < |s| && Sorted(s) && r == s[..i] + s[i + 1..]
    ensures Sorted(r)
  {
    forall a, b | 0 <= a < b < |r| ensures r[a] <= r[b] {
      assert r[a] == s[if a < i then a else a + 1] && r[b] == s[if b < i then b else b + 1];
    }
  }

  lemma DropOne(s: seq<real>, i: nat, r: seq<real>)
    requires i < |s| && r == s[..i] + s[i + 1..]
    ensures multiset(r) == multiset(s) - multiset{s[i]}
  {
    assert s == s[..i] + [s[i]] + s[i + 1..];
  }

  class PriceWindow {
    var windowSize: nat
    var windowSeconds: Option<real>
    var sampleRate: real
    var prices: seq<real>
    var sorted: seq<real>
    ghost var stream: seq<real>

    /** The window is the end of everything processed, and the mirror is its sorted
        permutation. */
    ghost predicate Valid()
      reads this
    {
      && windowSize >= 1 && |prices| <= windowSize
      && SuffixOf(prices, stream) && Sorted(sorted) && multiset(sorted) == multiset(prices)
    }

    constructor (size: nat, rate: Option<real>, seconds: Option<real>, initial: seq<real>)
      requires size >= 1
      ensures Valid() && stream == Last(initial, size) && prices == stream && windowSize == size && windowSeconds == seconds
      ensures sampleRate == if rate.Some? then rate.value else DEFAULT_RATE
    {
      windowSize, sampleRate, windowSeconds := size, if rate.Some? then rate.value else DEFAULT_RATE, seconds;
      prices, sorted, stream := [], [], [];
      new;
      Feed(Last(initial, size));
    }

    /** The loop over the initial prices, which fit into the window. */
    method Feed(initial: seq<real>)
      requires Valid() && prices == stream == [] && |initial| <= windowSize
      modifies this`prices, this`sorted, this`stream
      ensures Valid() && prices == stream == initial
    {
      var k := 0;
      while k < |initial|
        invariant 0 <= k <= |initial| && Valid() && prices == initial[..k] && stream == initial[..k]
      {
        ghost var longer := prices + [initial[k]];
        assert initial[..k + 1] == longer && Last(longer, windowSize) == longer;
        ProcessPrice(initial[k]);
        k := k + 1;
      }
      assert initial[..k] == initial;
    }

    /** `process_price`: the oldest price leaves a full window and the mirror, and
        both lists stay of one length. */
    method ProcessPrice(price: real)
      requires Valid()
      modifies this`prices, this`sorted, this`stream
      ensures Valid() && stream == old(stream) + [price]
      ensures prices == Last(old(prices) + [price], windowSize)
    {
      PushIsSuffix(prices, stream, price, windowSize);
      ghost var pushed := Last(prices + [price], windowSize);
      if |prices| == windowSize {
        assert pushed == prices[1..] + [price];
        DropOldest();
      } else {
        assert pushed == prices + [price];
      }
      prices := prices + [price];
      sorted := Insort(sorted, price);
      stream := stream + [price];
      assert |multiset(sorted)| == |multiset(prices)|;
      // The source's check for two lengths that differ cannot fire.
      assert |sorted| == |prices|;
    }

    method DropOldest()
      requires Sorted(sorted) && multiset(sorted) == multiset(prices) && |prices| > 0
      modifies this`prices, this`sorted
      ensures prices == old(prices)[1..] && Sorted(sorted) && multiset(sorted) == multiset(prices)
    {
      var oldest := prices[0];
      assert prices == [oldest] + prices[1..];
      var index := BisectLeft(sorted, oldest);
      assert oldest in multiset(prices) && oldest in multiset(sorted);
      // The source's branch for a price missing from the mirror cannot be taken.
      assert index < |sorted| && sorted[index] == oldest;
      var rest := sorted[..index] + sorted[index + 1..];
      DropOne(sorted, index, rest);
      DropSorted(sorted, index, rest);
      prices := prices[1..];
      sorted := rest;
    }

    /** `set_sample_rate`: a window of fixed duration is resized and keeps its newest prices. */
    method SetSampleRate(rate: Option<real>)
      requires Valid()
      modifies this`windowSize, this`sampleRate, this`prices, this`sorted
      ensures Valid()
      ensures rate.None? || rate.value <= 0.0 ==> sampleRate == old(sampleRate)
      ensures rate.Some? && rate.value > 0.0 ==> sampleRate == rate.value
      ensures rate.None? || rate.value <= 0.0 || windowSeconds.None? ==>
                windowSize == old(windowSize) && prices == old(prices) && sorted == old(sorted)
      ensures rate.Some? && rate.value > 0.0 && windowSeconds.Some? ==>
                windowSize == Samples(windowSeconds.value, rate.value) &&
                prices == (if windowSize == old(windowSize) then old(prices) else Last(old(prices), windowSize))
    {
      if rate.None? || rate.value <= 0.0 {
        return;
      }
      sampleRate := rate.value;
      if windowSeconds.None? {
        return;
      }
      var size := Samples(windowSeconds.value, rate.value);
      if size != windowSize {
        windowSize := size;
        LastIsSuffix(prices, stream, size);
        prices := Last(prices, size);
        sorted := SortedCopy(prices);
      }
    }

    /** `get_min`: the average of the prices close to the smallest one.  It is no
        smaller than that one, and itself close to it. */
    method GetMin() returns (low: Option<real>)
      requires Valid()
      ensures low.None? <==> prices == []
      ensures low.Some? ==>
                (exists least :: IsLeast(prices, least) && least <= low.value && Close(low.value, least) && IsMean(low.value, Near(sorted, least)))
    {
      SameMembers(sorted, prices);
      if sorted == [] {
        return None;
      }
      var least := sorted[0];
      NearMembers(sorted, least);
      var near := Near(sorted, least);
      low := Some(Sum(near) / (|near| as real));
      MeanAbove(near, least, low.value);
      assert IsLeast(prices, least);
    }

    /** `get_max`: the same at the other end. */
    method GetMax() returns (high: Option<real>)
      requires Valid()
      ensures high.None? <==> prices == []
      ensures high.Some? ==>
                (exists most :: IsMost(prices, most) && high.value <= most && Close(high.value, most) && IsMean(high.value, Near(sorted, most)))
    {
      SameMembers(sorted, prices);
      if sorted == [] {
        return None;
      }
      var most := sorted[|sorted| - 1];
      NearMembers(sorted, most);
      var near := Near(sorted, most);
      high := Some(Sum(near) / (|near| as real));
      MeanBelow(near, most, high.value);
      assert IsMost(prices, most);
    }
  }

  // ------------------------------------------------------------------
  // Averages of close prices.
  // ------------------------------------------------------------------

  function Abs(x: real): real {
    if x < 0.0 then -x else x
  }

  /** `are_close` at 0.01 percent: the difference relative to the mean magnitude. */
  predicate Close(x: real, y: real) {
    20000.0 * Abs(x - y) <= Abs(x) + Abs(y)
  }

  /** The prices close to one, in order. */
  function Near(s: seq<real>, x: real): seq<real> {
    if s == [] then []
    else if Close(s[0], x) then [s[0]] + Near(s[1..], x)
    else Near(s[1..], x)
  }

  function Sum(s: seq<real>): real {
    if s == [] then 0.0 else s[0] + Sum(s[1..])
  }

  ghost predicate IsLeast(s: seq<real>, x: real) {
    x in s && forall p :: p in s ==> x <= p
  }

  ghost predicate IsMost(s: seq<real>, x: real) {
    x in s && forall p :: p in s ==> p <= x
  }

  predicate IsMean(m: real, s: seq<real>) {
    s != [] && m * (|s| as real) == Sum(s)
  }

  lemma SameMembers(a: seq<real>, b: seq<real>)
    requires multiset(a) == multiset(b)
    ensures a == [] <==> b == []
    ensures forall x :: x in a <==> x in b
  {
    assert |multiset(a)| == |multiset(b)|;
    assert forall x :: x in a <==> x in multiset(a);
    assert forall x :: x in b <==> x in multiset(b);
  }

  lemma {:induction false} NearMember(s: seq<real>, x: real, p: real)
    ensures p in Near(s, x) <==> p in s && Close(p, x)
  {
    if s != [] {
      NearMember(s[1..], x, p);
      assert s == [s[0]] + s[1..];
    }
  }

  lemma NearMembers(s: seq<real>, x: real)
    requires x in s
    ensures Near(s, x) != [] && forall p :: p in Near(s, x) <==> p in s && Close(p, x)
  {
    NearMember(s, x, x);
    forall p ensures p in Near(s, x) <==> p in s && Close(p, x) {
      NearMember(s, x, p);
    }
  }

  lemma {:induction false} SumWithin(s: seq<real>, low: real, high: real)
    requires forall p :: p in s ==> low <= p <= high
    ensures low * (|s| as real) <= Sum(s) <= high * (|s| as real)
  {
    if s != [] {
      var n := |s[1..]| as real;
      assert forall p :: p in s[1..] ==> p in s;
      SumWithin(s[1..], low, high);
      assert s[0] in s && |s| as real == n + 1.0;
      assert low * (n + 1.0) == low * n + low && high * (n + 1.0) == high * n + high;
    }
  }

  lemma {:induction false} Largest(s: seq<real>) returns (most: real)
    requires s != []
    ensures most in s && forall p :: p in s ==> p <= most
  {
    most := s[0];
    if |s| > 1 {
      var rest := Largest(s[1..]);
      most := if s[0] <= rest then rest else s[0];
      assert s == [s[0]] + s[1..];
    }
  }

  lemma {:induction false} Smallest(s: seq<real>) returns (least: real)
    requires s != []
    ensures least in s && forall p :: p in s ==> least <= p
  {
    least := s[0];
    if |s| > 1 {
      var rest := Smallest(s[1..]);
      least := if rest <= s[0] then rest else s[0];
      assert s == [s[0]] + s[1..];
    }
  }

  lemma Quotient(total: real, n: real, low: real, high: real)
    requires n > 0.0 && low * n <= total <= high * n
    ensures low <= total / n <= high && total / n * n == total
  {
    var m := total / n;
    assert m * n == total;
    assert m < low ==> m * n < low * n;
    assert m > high ==> m * n > high * n;
  }

  lemma MeanAbove(s: seq<real>, least: real, m: real)
    requires s != [] && m == Sum(s) / (|s| as real) && forall p :: p in s ==> least <= p && Close(p, least)
    ensures least <= m && Close(m, least) && IsMean(m, s)
  {
    var most := Largest(s);
    SumWithin(s, least, most);
    Quotient(Sum(s), |s| as real, least, most);
  }

  lemma MeanBelow(s: seq<real>, most: real, m: real)
    requires s != [] && m == Sum(s) / (|s| as real) && forall p :: p in s ==> p <= most && Close(p, most)
    ensures m <= most && Close(m, most) && IsMean(m, s)
  {
    var least := Smallest(s);
    SumWithin(s, least, most);
    Quotient(Sum(s), |s| as real, least, most);
  }

  const DEFAULT_RATE := 0.8

  /** How many samples a duration holds; `int` cuts towards zero, which the lower
      bound hides for a negative duration. */
  function Samples(seconds: real, rate: real): (size: nat)
    requires rate > 0.0
    ensures size >= 10 && (size > 10 ==> (size as real) * rate <= seconds < ((size + 1) as real) * rate)
  {
    var whole := (seconds / rate).Floor;
    SamplesFit(seconds, rate, whole);
    if whole >= 10 then whole else 10
  }

  lemma SamplesFit(seconds: real, rate: real, whole: int)
    requires rate > 0.0 && whole == (seconds / rate).Floor
    ensures (whole as real) * rate <= seconds < ((whole + 1) as real) * rate
  {
    var q := seconds / rate;
    assert q * rate == seconds;
    assert whole as real <= q < (whole + 1) as real;
    assert (whole as real) * rate <= q * rate < ((whole + 1) as real) * rate;
  }

  method SortedCopy(s: seq<real>) returns (r: seq<real>)
    ensures Sorted(r) && multiset(r) == multiset(s)
  {
    r := [];
    var k := 0;
    while k < |s|
      invariant 0 <= k <= |s| && Sorted(r) && multiset(r) == multiset(s[..k])
    {
      r := Insort(r, s[k]);
      assert s[..k + 1] == s[..k] + [s[k]];
      k := k + 1;
    }
    assert s[..k] == s;
  }

  /** What a fixed window holds after a stream, as a fold over it. */
  function Window(stream: seq<real>, size: nat): seq<real> {
    if stream == [] then [] else Last(Window(stream[..|stream| - 1], size) + [stream[|stream| - 1]], size)
  }

  /** Processing one price at a time keeps exactly the newest `size` of all prices. */
  lemma {:induction false} WindowIsNewest(stream: seq<real>, size: nat)
    requires size >= 1
    ensures Window(stream, size) == Last(stream, size)
  {
    if stream != [] {
      var n := |stream| - 1;
      WindowIsNewest(stream[..n], size);
      LastPush(stream[..n], stream[n], size);
      assert stream == stream[..n] + [stream[n]];
    }
  }

  lemma LastPush(front: seq<real>, x: real, size: nat)
    requires size >= 1
    ensures Last(Last(front, size) + [x], size) == Last(front + [x], size)
  {
    if |front| >= size {
      var kept := front[|front| - size..];
      assert Last(front, size) == kept;
      assert Last(kept + [x], size) == kept[1..] + [x];
      assert Last(front + [x], size) == front[|front| - size + 1..] + [x];
      assert kept[1..] == front[|front| - size + 1..];
    }
  }

  datatype Call = Process(price: real) | Resize(size: nat)

  /** Any interleaving of prices and resizes, as one step on the window. */
  function After(window: seq<real>, size: nat, call: Call): (seq<real>, nat) {
    match call
    case Process(price) => (Last(window + [price], size), size)
    case Resize(resized) => if resized == size then (window, size) else (Last(window, resized), resized)
  }

  function Run(size: nat, calls: seq<Call>): (seq<real>, nat) {
    if calls == [] then ([], size)
    else
      var (window, now) := Run(size, calls[..|calls| - 1]);
      After(window, now, calls[|calls| - 1])
  }

  function Prices(calls: seq<Call>): seq<real> {
    if calls == [] then []
    else
      var before := Prices(calls[..|calls| - 1]);
      if calls[|calls| - 1].Process? then before + [calls[|calls| - 1].price] else before
  }

  ghost predicate Follows(window: seq<real>, size: nat, stream: seq<real>) {
    size >= 1 && SuffixOf(window, stream) && |window| <= size && (|stream| > 0 ==> |window| > 0)
  }

  lemma ProcessFollows(window: seq<real>, size: nat, stream: seq<real>, price: real)
    requires Follows(window, size, stream)
    ensures Follows(Last(window + [price], size), size, stream + [price])
  {
    PushIsSuffix(window, stream, price, size);
    assert |Last(window + [price], size)| >= 1;
  }

  lemma ResizeFollows(window: seq<real>, size: nat, stream: seq<real>, resized: nat)
    requires Follows(window, size, stream) && resized >= 1
    ensures Follows(Last(window, resized), resized, stream)
  {
    LastIsSuffix(window, stream, resized);
    assert |stream| > 0 ==> |Last(window, resized)| >= 1;
  }

  lemma AfterFollows(before: (seq<real>, nat), stream: seq<real>, call: Call, after: (seq<real>, nat), longer: seq<real>)
    requires Follows(before.0, before.1, stream) && after == After(before.0, before.1, call) && (call.Resize? ==> call.size >= 1)
    requires longer == if call.Process? then stream + [call.price] else stream
    ensures Follows(after.0, after.1, longer)
  {
    if call.Process? {
      ProcessFollows(before.0, before.1, stream, call.price);
    } else if call.size != before.1 {
      ResizeFollows(before.0, before.1, stream, call.size);
    }
  }

  ghost predicate PositiveSizes(calls: seq<Call>) {
    forall i :: 0 <= i < |calls| && calls[i].Resize? ==> calls[i].size >= 1
  }

  /** For every sequence of calls the window is the end of the processed stream,
      within its current size, and holds the newest price unless there is none. */
  lemma {:induction false} RunFollows(size: nat, calls: seq<Call>) returns (result: (seq<real>, nat), stream: seq<real>)
    requires size >= 1 && PositiveSizes(calls)
    ensures result == Run(size, calls) && stream == Prices(calls) && Follows(result.0, result.1, stream)
  {
    result, stream := ([], size), [];
    if calls != [] {
      var n := |calls| - 1;
      var before, shorter := RunFollows(size, calls[..n]);
      result := After(before.0, before.1, calls[n]);
      stream := if calls[n].Process? then shorter + [calls[n].price] else shorter;
      AfterFollows(before, shorter, calls[n], result, stream);
    }
  }
}
