/** One pass over a keyed list: every element is kept, replaced or dropped.
    Stated for any element type, key and per-element function. */
module Passes {
  import opened Options

  ghost predicate UniqueKeys<T>(q: seq<T>, key: T -> nat) {
    forall i, j :: 0 <= i < j < |q| ==> key(q[i]) != key(q[j])
  }

  /** The function yields at most one element and never changes a key. */
  ghost predicate KeepsKey<T(!new)>(f: T -> seq<T>, key: T -> nat) {
    forall x :: f(x) == [] || (|f(x)| == 1 && key(f(x)[0]) == key(x))
  }

  function Lookup<T>(q: seq<T>, key: T -> nat, id: nat): (found: Option<T>)
    ensures found.Some? ==> found.value in q && key(found.value) == id
    ensures found.None? ==> forall x :: x in q ==> key(x) != id
  {
    if q == [] then None
    else if key(q[|q| - 1]) == id then Some(q[|q| - 1])
    else
      assert q == q[..|q| - 1] + [q[|q| - 1]];
      Lookup(q[..|q| - 1], key, id)
  }

  lemma LookupAt<T>(q: seq<T>, key: T -> nat, i: nat)
    requires UniqueKeys(q, key) && i < |q|
    ensures Lookup(q, key, key(q[i])) == Some(q[i])
  {
    var found := Lookup(q, key, key(q[i]));
    assert q[i] in q;
  }

  function Rewrite<T>(q: seq<T>, f: T -> seq<T>): seq<T> {
    if q == [] then [] else Rewrite(q[..|q| - 1], f) + f(q[|q| - 1])
  }

  /** One more element of the list processed by a loop. */
  lemma RewriteStep<T>(q: seq<T>, i: nat, f: T -> seq<T>)
    requires i < |q|
    ensures Rewrite(q[..i + 1], f) == Rewrite(q[..i], f) + f(q[i])
  {
    assert q[..i + 1][..i] == q[..i];
  }

  lemma {:induction false} RewriteConcat<T>(p: seq<T>, q: seq<T>, f: T -> seq<T>)
    ensures Rewrite(p + q, f) == Rewrite(p, f) + Rewrite(q, f)
  {
    if q == [] {
      assert p + q == p;
    } else {
      var n := |q| - 1;
      assert (p + q)[..|p + q| - 1] == p + q[..n];
      RewriteConcat(p, q[..n], f);
    }
  }

  lemma {:induction false} RewriteIdle<T>(q: seq<T>, f: T -> seq<T>)
    requires forall i :: 0 <= i < |q| ==> f(q[i]) == [q[i]]
    ensures Rewrite(q, f) == q
  {
    if q != [] {
      var front, last := q[..|q| - 1], q[|q| - 1];
      forall i | 0 <= i < |front| ensures f(front[i]) == [front[i]] {
        assert front[i] == q[i];
      }
      RewriteIdle(front, f);
      assert Rewrite(q, f) == front + [last];
    }
  }

  /** A pass that yields at most one element each time never lengthens the list,
      and shortens it when it drops one. */
  lemma {:induction false} RewriteLength<T(!new)>(q: seq<T>, f: T -> seq<T>)
    requires forall x :: |f(x)| <= 1
    ensures |Rewrite(q, f)| <= |q|
    ensures (exists i :: 0 <= i < |q| && f(q[i]) == []) ==> |Rewrite(q, f)| < |q|
  {
    if q != [] {
      RewriteLength(q[..|q| - 1], f);
      if exists i :: 0 <= i < |q| && f(q[i]) == [] {
        var i :| 0 <= i < |q| && f(q[i]) == [];
        assert i < |q| - 1 ==> q[..|q| - 1][i] == q[i];
      }
    }
  }

  /** Every element of the result comes from one element of the list. */
  lemma {:induction false} RewriteOrigin<T>(q: seq<T>, f: T -> seq<T>, x: T) returns (i: nat)
    requires x in Rewrite(q, f)
    ensures i < |q| && x in f(q[i])
  {
    var n := |q| - 1;
    if x in f(q[n]) {
      i := n;
    } else {
      i := RewriteOrigin(q[..n], f, x);
    }
  }

  lemma LookupLast<T>(front: seq<T>, last: T, key: T -> nat, id: nat)
    ensures Lookup(front + [last], key, id) == if key(last) == id then Some(last) else Lookup(front, key, id)
  {
    assert (front + [last])[..|front|] == front;
  }

  lemma UniqueLast<T>(front: seq<T>, last: T, key: T -> nat)
    requires UniqueKeys(front, key) && forall x :: x in front ==> key(x) != key(last)
    ensures UniqueKeys(front + [last], key)
  {
    var q := front + [last];
    forall i, j | 0 <= i < j < |q| ensures key(q[i]) != key(q[j]) {
      assert q[i] == front[i] && (j < |front| ==> q[j] == front[j]);
    }
  }

  /** The rewritten front keeps away from the key of the last element. */
  lemma FrontKeys<T(!new)>(q: seq<T>, f: T -> seq<T>, key: T -> nat)
    requires UniqueKeys(q, key) && KeepsKey(f, key) && q != []
    ensures forall x :: x in Rewrite(q[..|q| - 1], f) ==> key(x) != key(q[|q| - 1])
  {
    var n := |q| - 1;
    forall x | x in Rewrite(q[..n], f) ensures key(x) != key(q[n]) {
      var i := RewriteOrigin(q[..n], f, x);
      assert q[..n][i] == q[i] && (f(q[i]) == [] || f(q[i]) == [f(q[i])[0]]);
    }
  }

  /** A pass acts on each key separately: what a key maps to afterwards depends
      only on what it mapped to before. */
  lemma {:induction false} RewriteLookup<T(!new)>(q: seq<T>, f: T -> seq<T>, key: T -> nat, id: nat)
    requires UniqueKeys(q, key) && KeepsKey(f, key)
    ensures UniqueKeys(Rewrite(q, f), key)
    ensures Lookup(Rewrite(q, f), key, id) ==
              var before := Lookup(q, key, id);
              if before.None? || f(before.value) == [] then None else Some(f(before.value)[0])
  {
    if q != [] {
      var n := |q| - 1;
      var front, last := q[..n], q[n];
      RewriteLookup(front, f, key, id);
      FrontKeys(q, f, key);
      var done := Rewrite(front, f);
      assert q == front + [last];
      LookupLast(front, last, key, id);
      if f(last) == [] {
        assert Rewrite(q, f) == done;
        assert key(last) == id ==> Lookup(done, key, id).None?;
      } else {
        var next := f(last)[0];
        assert f(last) == [next] && Rewrite(q, f) == done + [next];
        LookupLast(done, next, key, id);
        UniqueLast(done, next, key);
      }
    }
  }

  lemma RewriteAmid<T>(before: seq<T>, x: T, after: seq<T>, whole: seq<T>, f: T -> seq<T>)
    requires Rewrite(before, f) == before && Rewrite(after, f) == after && whole == before + [x] + after
    ensures Rewrite(whole, f) == before + f(x) + after
  {
    assert (before + [x])[..|before|] == before;
    RewriteConcat(before + [x], after, f);
  }

  lemma IdleSides<T>(q: seq<T>, f: T -> seq<T>, i: nat)
    requires i < |q| && forall j :: 0 <= j < |q| && j != i ==> f(q[j]) == [q[j]]
    ensures Rewrite(q[..i], f) == q[..i] && Rewrite(q[i + 1..], f) == q[i + 1..]
  {
    RewriteIdle(q[..i], f);
    var after := q[i + 1..];
    forall j | 0 <= j < |after| ensures f(after[j]) == [after[j]] {
      assert after[j] == q[i + 1 + j];
    }
    RewriteIdle(after, f);
  }

  lemma SplitAt<T>(q: seq<T>, i: nat)
    requires i < |q|
    ensures q == q[..i] + [q[i]] + q[i + 1..]
  {
  }

  /** When at most one element is touched, the pass is an edit in place. */
  lemma RewriteAt<T>(q: seq<T>, f: T -> seq<T>, i: nat)
    requires i < |q|
    requires forall j :: 0 <= j < |q| && j != i ==> f(q[j]) == [q[j]]
    ensures Rewrite(q, f) == q[..i] + f(q[i]) + q[i + 1..]
  {
    IdleSides(q, f, i);
    SplitAt(q, i);
    RewriteAmid(q[..i], q[i], q[i + 1..], q, f);
  }
}
