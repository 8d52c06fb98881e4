/** Removing elements from a list: which ones, in what order and what survives.
    Stated for any element type, candidate test and age. */
module Evictions {

  function Without<T>(q: seq<T>, i: nat): seq<T>
    requires i < |q|
  {
    q[..i] + q[i + 1..]
  }

  function Count<T>(q: seq<T>, candidate: T -> bool): (n: nat)
    ensures n <= |q|
    ensures n > 0 <==> exists i :: 0 <= i < |q| && candidate(q[i])
  {
    if q == [] then 0
    else
      assert q == q[..|q| - 1] + [q[|q| - 1]];
      Count(q[..|q| - 1], candidate) + (if candidate(q[|q| - 1]) then 1 else 0)
  }

  lemma {:induction false} CountWithout<T>(q: seq<T>, candidate: T -> bool, i: nat)
    requires i < |q| && candidate(q[i])
    ensures Count(Without(q, i), candidate) == Count(q, candidate) - 1
  {
    var n := |q| - 1;
    if i == n {
      assert Without(q, i) == q[..n];
    } else {
      CountWithout(q[..n], candidate, i);
      var rest := Without(q, i);
      assert rest[..|rest| - 1] == Without(q[..n], i);
      assert rest[|rest| - 1] == q[n];
    }
  }

  /** The candidate of least age value, the earlier stored one among equals. */
  ghost predicate IsOldest<T>(q: seq<T>, candidate: T -> bool, age: T -> real, i: nat) {
    && i < |q| && candidate(q[i])
    && (forall j :: 0 <= j < |q| && candidate(q[j]) ==> age(q[i]) <= age(q[j]))
    && (forall j :: 0 <= j < i && candidate(q[j]) ==> age(q[i]) < age(q[j]))
  }

  function Oldest<T>(q: seq<T>, candidate: T -> bool, age: T -> real): (i: nat)
    requires Count(q, candidate) > 0
    ensures IsOldest(q, candidate, age, i)
  {
    var n := |q| - 1;
    var front := q[..n];
    assert forall j :: 0 <= j < n ==> front[j] == q[j];
    if Count(front, candidate) > 0 then
      var best := Oldest(front, candidate, age);
      if candidate(q[n]) && age(q[n]) < age(q[best]) then n else best
    else n
  }

  /** The list after the `count` oldest candidates are removed. */
  function Evict<T>(q: seq<T>, candidate: T -> bool, age: T -> real, count: nat): seq<T>
    requires count <= Count(q, candidate)
    decreases count
  {
    if count == 0 then q
    else
      var i := Oldest(q, candidate, age);
      CountWithout(q, candidate, i);
      Evict(Without(q, i), candidate, age, count - 1)
  }

  /** `after` keeps the order and the content of `before`, and whatever is
      missing from it was removable. */
  ghost predicate OnlyRemoves<T>(before: seq<T>, after: seq<T>, removable: T -> bool)
    decreases |before|
  {
    if before == [] then after == []
    else
      var front, last := before[..|before| - 1], before[|before| - 1];
      || (after != [] && after[|after| - 1] == last && OnlyRemoves(front, after[..|after| - 1], removable))
      || (removable(last) && OnlyRemoves(front, after, removable))
  }

  lemma {:induction false} Reflexive<T>(q: seq<T>, removable: T -> bool)
    ensures OnlyRemoves(q, q, removable)
  {
    if q != [] {
      Reflexive(q[..|q| - 1], removable);
    }
  }

  lemma {:induction false} Transitive<T>(p: seq<T>, q: seq<T>, r: seq<T>, removable: T -> bool)
    requires OnlyRemoves(p, q, removable) && OnlyRemoves(q, r, removable)
    ensures OnlyRemoves(p, r, removable)
    decreases |p| + |q|
  {
    if p != [] {
      var front := p[..|p| - 1];
      if q != [] && q[|q| - 1] == p[|p| - 1] && OnlyRemoves(front, q[..|q| - 1], removable) {
        if r != [] && r[|r| - 1] == q[|q| - 1] && OnlyRemoves(q[..|q| - 1], r[..|r| - 1], removable) {
          Transitive(front, q[..|q| - 1], r[..|r| - 1], removable);
        } else {
          Transitive(front, q[..|q| - 1], r, removable);
        }
      } else {
        Transitive(front, q, r, removable);
      }
    }
  }

  lemma {:induction false} Weaken<T>(p: seq<T>, q: seq<T>, narrow: T -> bool, wide: T -> bool)
    requires OnlyRemoves(p, q, narrow) && forall x :: x in p && narrow(x) ==> wide(x)
    ensures OnlyRemoves(p, q, wide)
    decreases |p|
  {
    if p != [] {
      var front, last := p[..|p| - 1], p[|p| - 1];
      assert p == front + [last];
      if q != [] && q[|q| - 1] == last && OnlyRemoves(front, q[..|q| - 1], narrow) {
        Weaken(front, q[..|q| - 1], narrow, wide);
      } else {
        Weaken(front, q, narrow, wide);
      }
    }
  }

  lemma {:induction false} RemoveOne<T>(q: seq<T>, i: nat, removable: T -> bool)
    requires i < |q| && removable(q[i])
    ensures OnlyRemoves(q, Without(q, i), removable)
  {
    var n := |q| - 1;
    if i == n {
      assert Without(q, i) == q[..n];
      Reflexive(q[..n], removable);
    } else {
      RemoveOne(q[..n], i, removable);
      var after := Without(q, i);
      assert after[|after| - 1] == q[n] && after[..|after| - 1] == Without(q[..n], i);
    }
  }

  lemma {:induction false} Members<T>(before: seq<T>, after: seq<T>, removable: T -> bool)
    requires OnlyRemoves(before, after, removable)
    ensures forall x :: x in after ==> x in before
    ensures forall x :: x in before && !removable(x) ==> x in after
    ensures |after| <= |before|
    decreases |before|
  {
    if before != [] {
      var front, last := before[..|before| - 1], before[|before| - 1];
      assert before == front + [last];
      if after != [] && after[|after| - 1] == last && OnlyRemoves(front, after[..|after| - 1], removable) {
        assert after == after[..|after| - 1] + [last];
        Members(front, after[..|after| - 1], removable);
      } else {
        Members(front, after, removable);
      }
    }
  }

  /** No more can be missing than was removable. */
  lemma {:induction false} RemovesAtMost<T>(before: seq<T>, after: seq<T>, removable: T -> bool)
    requires OnlyRemoves(before, after, removable)
    ensures |before| - |after| <= Count(before, removable)
    decreases |before|
  {
    if before != [] {
      var front, last := before[..|before| - 1], before[|before| - 1];
      if after != [] && after[|after| - 1] == last && OnlyRemoves(front, after[..|after| - 1], removable) {
        RemovesAtMost(front, after[..|after| - 1], removable);
      } else {
        RemovesAtMost(front, after, removable);
      }
    }
  }

  lemma CountTwo<T>(a: T, b: T, candidate: T -> bool)
    ensures Count([a, b], candidate) == (if candidate(a) then 1 else 0) + (if candidate(b) then 1 else 0)
  {
    assert [a, b][..1] == [a] && [a][..0] == [];
    assert Count([a], candidate) == if candidate(a) then 1 else 0;
  }

  lemma {:induction false} CountSame<T>(q: seq<T>, one: T -> bool, other: T -> bool)
    requires forall x :: one(x) == other(x)
    ensures Count(q, one) == Count(q, other)
  {
    if q != [] {
      CountSame(q[..|q| - 1], one, other);
    }
  }

  /** Eviction removes exactly `count` candidates and keeps everything else in order. */
  lemma {:induction false} EvictFrame<T>(q: seq<T>, candidate: T -> bool, age: T -> real, count: nat)
    requires count <= Count(q, candidate)
    ensures OnlyRemoves(q, Evict(q, candidate, age, count), candidate)
    ensures |Evict(q, candidate, age, count)| == |q| - count
    decreases count
  {
    if count == 0 {
      Reflexive(q, candidate);
    } else {
      var i := Oldest(q, candidate, age);
      CountWithout(q, candidate, i);
      RemoveOne(q, i, candidate);
      var rest := Without(q, i);
      EvictFrame(rest, candidate, age, count - 1);
      Transitive(q, rest, Evict(rest, candidate, age, count - 1), candidate);
    }
  }

  lemma WithoutMembers<T>(q: seq<T>, i: nat, x: T)
    requires i < |q| && x in q
    ensures x == q[i] || x in Without(q, i)
  {
    assert q == q[..i] + [q[i]] + q[i + 1..];
  }

  /** Eviction never keeps a candidate older than one it removed. */
  lemma {:induction false} EvictsOldestFirst<T>(q: seq<T>, candidate: T -> bool, age: T -> real, count: nat, gone: T, left: T)
    requires count <= Count(q, candidate)
    requires gone in q && gone !in Evict(q, candidate, age, count)
    requires left in Evict(q, candidate, age, count) && candidate(left)
    ensures age(gone) <= age(left)
    decreases count
  {
    if count > 0 {
      var i := Oldest(q, candidate, age);
      CountWithout(q, candidate, i);
      var rest := Without(q, i);
      WithoutMembers(q, i, gone);
      if gone in rest {
        EvictsOldestFirst(rest, candidate, age, count - 1, gone, left);
      } else {
        EvictFrame(rest, candidate, age, count - 1);
        Members(rest, Evict(rest, candidate, age, count - 1), candidate);
        assert left in q;
      }
    }
  }

  // The loops that compute these functions.

  method CountLoop<T>(q: seq<T>, candidate: T -> bool) returns (n: nat)
    ensures n == Count(q, candidate)
  {
    n := 0;
    var i := 0;
    while i < |q|
      invariant 0 <= i <= |q|
      invariant n == Count(q[..i], candidate)
    {
      assert q[..i + 1][..i] == q[..i];
      if candidate(q[i]) {
        n := n + 1;
      }
      i := i + 1;
    }
    assert q[..i] == q;
  }

  method OldestLoop<T>(q: seq<T>, candidate: T -> bool, age: T -> real) returns (best: nat)
    requires Count(q, candidate) > 0
    ensures best == Oldest(q, candidate, age)
  {
    var found := false;
    best := 0;
    var i := 0;
    while i < |q|
      invariant 0 <= i <= |q|
      invariant found <==> Count(q[..i], candidate) > 0
      invariant found ==> best == Oldest(q[..i], candidate, age)
    {
      assert q[..i + 1][..i] == q[..i];
      if candidate(q[i]) && (!found || age(q[i]) < age(q[best])) {
        best := i;
        found := true;
      }
      i := i + 1;
    }
    assert q[..i] == q;
  }

  method EvictLoop<T>(q: seq<T>, candidate: T -> bool, age: T -> real, count: nat) returns (left: seq<T>)
    requires count <= Count(q, candidate)
    ensures left == Evict(q, candidate, age, count)
  {
    left := q;
    var todo := count;
    while todo > 0
      invariant 0 <= todo <= Count(left, candidate)
      invariant Evict(left, candidate, age, todo) == Evict(q, candidate, age, count)
    {
      var i := OldestLoop(left, candidate, age);
      CountWithout(left, candidate, i);
      left := Without(left, i);
      todo := todo - 1;
    }
  }
}
