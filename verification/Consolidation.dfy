/** The greedy cover behind `consolidate_deferred_streams`: going from newest to
    oldest, a disposable element is dropped when a disposable element already
    kept belongs to the same stream.  `same` is symmetric but need not be
    transitive, so there are no classes to fall back on. */
module Consolidation {

  /** Processing order: newest first, stored order among equals. */
  ghost predicate Before<T>(q: seq<T>, age: T -> real, j: nat, i: nat) {
    j < |q| && i < |q| && (age(q[j]) > age(q[i]) || (age(q[j]) == age(q[i]) && j < i))
  }

  /** `j` is a kept disposable element that absorbs `i`. */
  ghost predicate Absorbs<T>(q: seq<T>, disposable: T -> bool, same: (T, T) -> bool, age: T -> real, keep: set<nat>, j: nat, i: nat) {
    Before(q, age, j, i) && j in keep && disposable(q[j]) && same(q[i], q[j])
  }

  ghost predicate Greedy<T>(q: seq<T>, disposable: T -> bool, same: (T, T) -> bool, age: T -> real, keep: set<nat>) {
    && (forall i :: i in keep ==> i < |q|)
    && (forall i :: 0 <= i < |q| ==>
          (i !in keep <==> disposable(q[i]) && exists j :: Absorbs(q, disposable, same, age, keep, j, i)))
  }

  /** The elements at the kept positions, in stored order. */
  function Keep<T>(q: seq<T>, keep: set<nat>): seq<T> {
    if q == [] then []
    else Keep(q[..|q| - 1], keep) + (if |q| - 1 in keep then [q[|q| - 1]] else [])
  }

  // ------------------------------------------------------------------
  // What the cover guarantees.
  // ------------------------------------------------------------------

  ghost predicate Symmetric<T(!new)>(same: (T, T) -> bool) {
    forall x, y :: same(x, y) ==> same(y, x)
  }

  /** Survivors are pairwise in different streams, and whatever was dropped has a
      surviving element of its stream that is no older. */
  lemma CoverIsCorrect<T(!new)>(q: seq<T>, disposable: T -> bool, same: (T, T) -> bool, age: T -> real, keep: set<nat>)
    requires Greedy(q, disposable, same, age, keep) && Symmetric(same)
    ensures forall i, j :: i in keep && j in keep && i != j && disposable(q[i]) && disposable(q[j]) ==> !same(q[i], q[j])
    ensures forall i :: 0 <= i < |q| && i !in keep ==>
              disposable(q[i]) && exists j :: j in keep && disposable(q[j]) && same(q[i], q[j]) && age(q[j]) >= age(q[i])
  {
    forall i: nat, j: nat | i in keep && j in keep && i != j && disposable(q[i]) && disposable(q[j])
      ensures !same(q[i], q[j])
    {
      assert Before(q, age, j, i) || Before(q, age, i, j);
      assert Before(q, age, j, i) && same(q[i], q[j]) ==> Absorbs(q, disposable, same, age, keep, j, i);
      assert Before(q, age, i, j) && same(q[j], q[i]) ==> Absorbs(q, disposable, same, age, keep, i, j);
    }
    forall i | 0 <= i < |q| && i !in keep
      ensures disposable(q[i]) && exists j :: j in keep && disposable(q[j]) && same(q[i], q[j]) && age(q[j]) >= age(q[i])
    {
      var j :| Absorbs(q, disposable, same, age, keep, j, i);
    }
  }

  function Earlier<T>(q: seq<T>, age: T -> real, i: nat): set<nat>
    requires i < |q|
  {
    set j | 0 <= j < |q| && (age(q[j]) > age(q[i]) || (age(q[j]) == age(q[i]) && j < i))
  }

  lemma EarlierShrinks<T>(q: seq<T>, age: T -> real, j: nat, i: nat)
    requires Before(q, age, j, i)
    ensures Earlier(q, age, j) < Earlier(q, age, i)
  {
    assert j in Earlier(q, age, i) && j !in Earlier(q, age, j);
  }

  /** The cover is unique: the description leaves no choice. */
  lemma {:induction false} GreedyUnique<T>(q: seq<T>, disposable: T -> bool, same: (T, T) -> bool, age: T -> real,
                                           k1: set<nat>, k2: set<nat>, i: nat)
    requires Greedy(q, disposable, same, age, k1) && Greedy(q, disposable, same, age, k2) && i < |q|
    ensures i in k1 <==> i in k2
    decreases |Earlier(q, age, i)|
  {
    forall j | Before(q, age, j, i) ensures j in k1 <==> j in k2 {
      EarlierShrinks(q, age, j, i);
      SubsetSize(Earlier(q, age, j), Earlier(q, age, i));
      GreedyUnique(q, disposable, same, age, k1, k2, j);
    }
    forall j ensures Absorbs(q, disposable, same, age, k1, j, i) <==> Absorbs(q, disposable, same, age, k2, j, i) {
    }
  }

  lemma {:induction false} SubsetSize(a: set<nat>, b: set<nat>)
    requires a < b
    ensures |a| < |b|
  {
    var x :| x in b && x !in a;
    if a == {} {
      assert x in b;
    } else {
      var y :| y in a;
      SubsetSize(a - {y}, b - {y});
    }
  }

  /** Where the element at position `a` of the kept list was stored. */
  lemma {:induction false} KeepOrigin<T>(q: seq<T>, keep: set<nat>, a: nat) returns (i: nat)
    requires a < |Keep(q, keep)|
    ensures i < |q| && i in keep && Keep(q, keep)[a] == q[i] && |Keep(q[..i], keep)| == a
  {
    var n := |q| - 1;
    if a < |Keep(q[..n], keep)| {
      i := KeepOrigin(q[..n], keep, a);
      assert q[..n][..i] == q[..i];
    } else {
      i := n;
    }
  }

  lemma KeptPairwise<T(!new)>(q: seq<T>, disposable: T -> bool, same: (T, T) -> bool, age: T -> real, keep: set<nat>, a: nat, b: nat)
    requires Greedy(q, disposable, same, age, keep) && Symmetric(same)
    requires a < |Keep(q, keep)| && b < |Keep(q, keep)| && a != b
    requires disposable(Keep(q, keep)[a]) && disposable(Keep(q, keep)[b])
    ensures !same(Keep(q, keep)[a], Keep(q, keep)[b])
  {
    CoverIsCorrect(q, disposable, same, age, keep);
    var i := KeepOrigin(q, keep, a);
    var j := KeepOrigin(q, keep, b);
  }

  /** A second call drops nothing. */
  lemma SecondCallDropsNothing<T(!new)>(q: seq<T>, disposable: T -> bool, same: (T, T) -> bool, age: T -> real, keep: set<nat>, again: set<nat>)
    requires Greedy(q, disposable, same, age, keep) && Symmetric(same)
    requires Greedy(Keep(q, keep), disposable, same, age, again)
    ensures forall a :: 0 <= a < |Keep(q, keep)| ==> a in again
    ensures Keep(Keep(q, keep), again) == Keep(q, keep)
  {
    var rest := Keep(q, keep);
    forall a, b | 0 <= a < |rest| && 0 <= b < |rest| && a != b && disposable(rest[a]) && disposable(rest[b])
      ensures !same(rest[a], rest[b])
    {
      KeptPairwise(q, disposable, same, age, keep, a, b);
    }
    KeepAll(rest, again);
  }

  lemma {:induction false} KeepAll<T>(q: seq<T>, keep: set<nat>)
    requires forall a :: 0 <= a < |q| ==> a in keep
    ensures Keep(q, keep) == q
  {
    if q != [] {
      KeepAll(q[..|q| - 1], keep);
      assert q == q[..|q| - 1] + [q[|q| - 1]];
    }
  }

  // ------------------------------------------------------------------
  // The computation: sort the positions, then sweep.
  // ------------------------------------------------------------------

  ghost predicate Sorted<T>(q: seq<T>, age: T -> real, order: seq<nat>) {
    && (forall a :: 0 <= a < |order| ==> order[a] < |q|)
    && (forall a, b :: 0 <= a < b < |order| ==> Before(q, age, order[a], order[b]))
  }

  lemma InsertSorted<T>(q: seq<T>, age: T -> real, order: seq<nat>, at: nat, i: nat)
    requires Sorted(q, age, order) && i < |q| && at <= |order|
    requires forall a :: 0 <= a < |order| ==> order[a] < i
    requires forall a :: at <= a < |order| ==> age(q[order[a]]) < age(q[i])
    requires at > 0 ==> age(q[order[at - 1]]) >= age(q[i])
    ensures Sorted(q, age, order[..at] + [i] + order[at..])
  {
    var longer := order[..at] + [i] + order[at..];
    forall a | 0 <= a < at ensures Before(q, age, order[a], i) {
      assert a < at - 1 ==> Before(q, age, order[a], order[at - 1]);
    }
    forall a | at <= a < |order| ensures Before(q, age, i, order[a]) {
    }
    forall a, b | 0 <= a < b < |longer| ensures Before(q, age, longer[a], longer[b]) {
      var a' := if a < at then a else a - 1;
      var b' := if b < at then b else b - 1;
      assert a != at ==> longer[a] == order[a'];
      assert b != at ==> longer[b] == order[b'];
    }
  }

  method Insert<T>(q: seq<T>, age: T -> real, order: seq<nat>, i: nat) returns (longer: seq<nat>)
    requires Sorted(q, age, order) && i < |q|
    requires forall a :: 0 <= a < |order| ==> order[a] < i
    ensures Sorted(q, age, longer)
    ensures forall x :: x in longer <==> x in order || x == i
  {
    var at := |order|;
    while at > 0 && age(q[order[at - 1]]) < age(q[i])
      invariant 0 <= at <= |order|
      invariant forall a :: at <= a < |order| ==> age(q[order[a]]) < age(q[i])
    {
      at := at - 1;
    }
    InsertSorted(q, age, order, at, i);
    longer := order[..at] + [i] + order[at..];
    forall x ensures x in longer <==> x in order || x == i {
      InsertMembers(order, at, i, x);
    }
  }

  lemma InsertMembers(order: seq<nat>, at: nat, i: nat, x: nat)
    requires at <= |order|
    ensures x in order[..at] + [i] + order[at..] <==> x in order || x == i
  {
    assert order == order[..at] + order[at..];
  }

  /** `sorted(enumerate(existing), key=created, reverse=True)`, which is stable. */
  method NewestFirst<T>(q: seq<T>, age: T -> real) returns (order: seq<nat>)
    ensures Sorted(q, age, order)
    ensures forall x :: x in order <==> 0 <= x < |q|
  {
    order := [];
    var i := 0;
    while i < |q|
      invariant 0 <= i <= |q| && Sorted(q, age, order)
      invariant forall x :: x in order <==> 0 <= x < i
    {
      assert forall a :: 0 <= a < |order| ==> order[a] in order;
      order := Insert(q, age, order, i);
      i := i + 1;
    }
  }

  /** Is the element in the stream of one already kept? */
  method SeenIn<T>(q: seq<T>, same: (T, T) -> bool, kept: seq<nat>, i: nat) returns (seen: bool)
    requires i < |q| && forall k :: 0 <= k < |kept| ==> kept[k] < |q|
    ensures seen <==> SeenBy(q, same, kept, i)
  {
    var k := 0;
    while k < |kept|
      invariant 0 <= k <= |kept| && forall m :: 0 <= m < k ==> !same(q[i], q[kept[m]])
    {
      if same(q[i], q[kept[k]]) {
        return true;
      }
      k := k + 1;
    }
    return false;
  }

  ghost predicate Absorbed<T>(q: seq<T>, disposable: T -> bool, same: (T, T) -> bool, age: T -> real, keep: set<nat>, i: nat) {
    exists j :: Absorbs(q, disposable, same, age, keep, j, i)
  }

  ghost predicate Decided<T>(q: seq<T>, disposable: T -> bool, same: (T, T) -> bool, age: T -> real, keep: set<nat>, i: nat) {
    i < |q| ==> (i !in keep <==> disposable(q[i]) && Absorbed(q, disposable, same, age, keep, i))
  }

  /** The list of kept deferrals is the disposable part of what is kept. */
  ghost predicate Listed<T>(q: seq<T>, disposable: T -> bool, keep: set<nat>, kept: seq<nat>) {
    && (forall k :: 0 <= k < |kept| ==> kept[k] in keep && kept[k] < |q| && disposable(q[kept[k]]))
    && (forall i :: i in keep && i < |q| && disposable(q[i]) ==> i in kept)
  }

  ghost predicate SeenBy<T>(q: seq<T>, same: (T, T) -> bool, kept: seq<nat>, i: nat)
    requires i < |q|
  {
    exists k :: 0 <= k < |kept| && kept[k] < |q| && same(q[i], q[kept[k]])
  }

  /** What the sweep knows after the first `n` positions of the order. */
  ghost predicate Swept<T>(q: seq<T>, disposable: T -> bool, same: (T, T) -> bool, age: T -> real,
                           order: seq<nat>, n: nat, keep: set<nat>, kept: seq<nat>, removed: seq<nat>)
  {
    && n <= |order|
    && (forall i :: i in keep ==> i in order[..n])
    && Listed(q, disposable, keep, kept)
    && (forall i :: i in order[..n] ==> Decided(q, disposable, same, age, keep, i))
    && (forall i :: i in removed <==> i in order[..n] && i !in keep)
  }

  /** The next position comes after all the earlier ones. */
  lemma NextIsLater<T>(q: seq<T>, age: T -> real, order: seq<nat>, n: nat, i: nat)
    requires Sorted(q, age, order) && n < |order|
    ensures order[n] < |q| && order[n] !in order[..n]
    ensures i in order[..n] ==> Before(q, age, i, order[n]) && !Before(q, age, order[n], i)
    ensures i in order[..n + 1] <==> i in order[..n] || i == order[n]
  {
    assert order[..n + 1] == order[..n] + [order[n]];
    forall a | 0 <= a < n ensures Before(q, age, order[a], order[n]) && order[a] != order[n] {
    }
  }

  /** The sweep's test on the next position is exactly absorption by what is kept so far. */
  lemma SeenIsAbsorbed<T>(q: seq<T>, disposable: T -> bool, same: (T, T) -> bool, age: T -> real,
                          order: seq<nat>, n: nat, keep: set<nat>, kept: seq<nat>)
    requires Sorted(q, age, order) && n < |order| && order[n] < |q|
    requires Listed(q, disposable, keep, kept) && forall i :: i in keep ==> i in order[..n]
    ensures SeenBy(q, same, kept, order[n]) <==> Absorbed(q, disposable, same, age, keep, order[n])
  {
    if SeenBy(q, same, kept, order[n]) {
      var k :| 0 <= k < |kept| && kept[k] < |q| && same(q[order[n]], q[kept[k]]);
      NextIsLater(q, age, order, n, kept[k]);
      assert Absorbs(q, disposable, same, age, keep, kept[k], order[n]);
    }
    if Absorbed(q, disposable, same, age, keep, order[n]) {
      var j :| Absorbs(q, disposable, same, age, keep, j, order[n]);
      assert j in kept;
      var k :| 0 <= k < |kept| && kept[k] == j;
    }
  }

  /** Keeping the next position changes no verdict on an earlier one or on itself. */
  lemma LaterDoesNotAbsorb<T>(q: seq<T>, disposable: T -> bool, same: (T, T) -> bool, age: T -> real,
                              order: seq<nat>, n: nat, keep: set<nat>, i: nat)
    requires Sorted(q, age, order) && n < |order| && i in order[..n + 1]
    ensures Absorbed(q, disposable, same, age, keep, i) <==> Absorbed(q, disposable, same, age, keep + {order[n]}, i)
  {
    NextIsLater(q, age, order, n, i);
    assert !Before(q, age, order[n], i);
    if Absorbed(q, disposable, same, age, keep, i) {
      var j :| Absorbs(q, disposable, same, age, keep, j, i);
      assert Absorbs(q, disposable, same, age, keep + {order[n]}, j, i);
    }
    if Absorbed(q, disposable, same, age, keep + {order[n]}, i) {
      var j :| Absorbs(q, disposable, same, age, keep + {order[n]}, j, i);
      assert Absorbs(q, disposable, same, age, keep, j, i);
    }
  }

  lemma SweepKeeps<T>(q: seq<T>, disposable: T -> bool, same: (T, T) -> bool, age: T -> real,
                      order: seq<nat>, n: nat, keep: set<nat>, kept: seq<nat>, removed: seq<nat>)
    requires Swept(q, disposable, same, age, order, n, keep, kept, removed)
    requires Sorted(q, age, order) && n < |order| && order[n] < |q|
    requires !(disposable(q[order[n]]) && SeenBy(q, same, kept, order[n]))
    ensures Swept(q, disposable, same, age, order, n + 1, keep + {order[n]},
                  if disposable(q[order[n]]) then kept + [order[n]] else kept, removed)
  {
    SeenIsAbsorbed(q, disposable, same, age, order, n, keep, kept);
    KeepsListed(q, disposable, keep, kept, order[n]);
    forall i: nat
      ensures i in order[..n + 1] <==> i in order[..n] || i == order[n]
      ensures i in order[..n + 1] ==> Decided(q, disposable, same, age, keep + {order[n]}, i)
    {
      NextIsLater(q, age, order, n, i);
      if i in order[..n + 1] {
        LaterDoesNotAbsorb(q, disposable, same, age, order, n, keep, i);
      }
    }
    NextIsLater(q, age, order, n, order[n]);
  }

  lemma KeepsListed<T>(q: seq<T>, disposable: T -> bool, keep: set<nat>, kept: seq<nat>, next: nat)
    requires Listed(q, disposable, keep, kept) && next < |q|
    ensures Listed(q, disposable, keep + {next}, if disposable(q[next]) then kept + [next] else kept)
  {
    var after := if disposable(q[next]) then kept + [next] else kept;
    forall i | i in keep + {next} && i < |q| && disposable(q[i]) ensures i in after {
      if i == next {
        assert after[|kept|] == next;
      }
    }
  }

  lemma SweepDrops<T>(q: seq<T>, disposable: T -> bool, same: (T, T) -> bool, age: T -> real,
                      order: seq<nat>, n: nat, keep: set<nat>, kept: seq<nat>, removed: seq<nat>)
    requires Swept(q, disposable, same, age, order, n, keep, kept, removed)
    requires Sorted(q, age, order) && n < |order| && order[n] < |q|
    requires disposable(q[order[n]]) && SeenBy(q, same, kept, order[n])
    ensures Swept(q, disposable, same, age, order, n + 1, keep, kept, removed + [order[n]])
  {
    SeenIsAbsorbed(q, disposable, same, age, order, n, keep, kept);
    forall i: nat ensures i in order[..n + 1] <==> i in order[..n] || i == order[n] {
      NextIsLater(q, age, order, n, i);
    }
    NextIsLater(q, age, order, n, order[n]);
  }

  method Sweep<T>(q: seq<T>, disposable: T -> bool, same: (T, T) -> bool, age: T -> real)
    returns (keep: set<nat>, removed: seq<nat>)
    ensures Greedy(q, disposable, same, age, keep)
    ensures forall i :: i in removed <==> 0 <= i < |q| && i !in keep
    ensures forall n :: 0 <= n < |removed| ==> removed[n] < |q|
  {
    var order := NewestFirst(q, age);
    var kept: seq<nat> := [];
    keep, removed := {}, [];
    var n := 0;
    while n < |order|
      invariant Swept(q, disposable, same, age, order, n, keep, kept, removed)
    {
      var i := order[n];
      var seen := SeenIn(q, same, kept, i);
      if disposable(q[i]) && seen {
        SweepDrops(q, disposable, same, age, order, n, keep, kept, removed);
        removed := removed + [i];
      } else {
        SweepKeeps(q, disposable, same, age, order, n, keep, kept, removed);
        keep := keep + {i};
        if disposable(q[i]) {
          kept := kept + [i];
        }
      }
      n := n + 1;
    }
    assert order[..n] == order;
    assert forall i :: i in keep ==> i in order;
    assert forall n :: 0 <= n < |removed| ==> removed[n] in removed;
  }

  /** The kept list, rebuilt in stored order. */
  method Rebuild<T>(q: seq<T>, keep: set<nat>) returns (rest: seq<T>)
    ensures rest == Keep(q, keep)
  {
    rest := [];
    var i := 0;
    while i < |q|
      invariant 0 <= i <= |q| && rest == Keep(q[..i], keep)
    {
      assert q[..i + 1][..i] == q[..i];
      if i in keep {
        rest := rest + [q[i]];
      }
      i := i + 1;
    }
    assert q[..i] == q;
  }

  /** The elements at the given positions. */
  ghost predicate DroppedFrom<T>(q: seq<T>, keep: set<nat>, x: T) {
    exists i :: 0 <= i < |q| && i !in keep && x == q[i]
  }

  lemma PickedAreDropped<T>(q: seq<T>, keep: set<nat>, positions: seq<nat>, picked: seq<T>, x: T)
    requires forall i :: i in positions <==> 0 <= i < |q| && i !in keep
    requires |picked| == |positions| && forall n :: 0 <= n < |positions| ==> positions[n] < |q| && picked[n] == q[positions[n]]
    ensures x in picked <==> DroppedFrom(q, keep, x)
  {
    if x in picked {
      var n :| 0 <= n < |picked| && picked[n] == x;
      assert positions[n] in positions;
    }
    if DroppedFrom(q, keep, x) {
      var i :| 0 <= i < |q| && i !in keep && x == q[i];
      assert i in positions;
      var n :| 0 <= n < |positions| && positions[n] == i;
      assert picked[n] == x;
    }
  }

  method Pick<T>(q: seq<T>, positions: seq<nat>) returns (picked: seq<T>)
    requires forall n :: 0 <= n < |positions| ==> positions[n] < |q|
    ensures |picked| == |positions| && forall n :: 0 <= n < |positions| ==> picked[n] == q[positions[n]]
  {
    picked := [];
    var n := 0;
    while n < |positions|
      invariant 0 <= n <= |positions| && |picked| == n
      invariant forall m :: 0 <= m < n ==> picked[m] == q[positions[m]]
    {
      picked := picked + [q[positions[n]]];
      n := n + 1;
    }
  }
}
