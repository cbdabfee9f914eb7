/**
 The indirect heap of the `capacity` greatest values: `val` never moves, `idx` is the heap of
 positions, its root the least value kept. A phase of pushes from empty keeps the greatest
 values, and a drain yields them in order. A push after a partial drain writes to the
 position `size`, which may be live; exactly when is stated below.
 */
module TopNHeap {

  // ---------------------------------------------------------------- the order

  /** A strict weak order, in terms of `not less`. */
  ghost predicate Order<T(!new)>(less: (T, T) -> bool) {
    && (forall a, b :: OneWay(less, a, b))
    && (forall a, b, c :: NotLess(less, b, a) && NotLess(less, c, b) ==> NotLess(less, c, a))
  }

  predicate OneWay<T(!new)>(less: (T, T) -> bool, a: T, b: T) {
    !(less(a, b) && less(b, a))
  }

  /** b is not less than a. */
  predicate NotLess<T(!new)>(less: (T, T) -> bool, b: T, a: T) {
    !less(b, a)
  }

  // ---------------------------------------------------------------- multisets of kept values

  ghost predicate Least<T(!new)>(less: (T, T) -> bool, bag: multiset<T>, m: T) {
    m in bag && forall x :: x in bag ==> NotLess(less, x, m)
  }

  /** What a push makes of the kept values: below capacity one more, else the least gives way to a greater one. */
  ghost predicate PushedTo<T(!new)>(less: (T, T) -> bool, cap: nat, a: multiset<T>, v: T, b: multiset<T>) {
    if |a| < cap then b == a + multiset{v}
    else exists m :: Least(less, a, m) && b == if less(m, v) then a - multiset{m} + multiset{v} else a
  }

  lemma OneMore<T(!new)>(less: (T, T) -> bool, cap: nat, a: multiset<T>, v: T, b: multiset<T>)
    requires |a| < cap && b == a + multiset{v}
    ensures PushedTo(less, cap, a, v, b)
  {
  }

  lemma LeastGivesWay<T(!new)>(less: (T, T) -> bool, cap: nat, a: multiset<T>, m: T, v: T, b: multiset<T>)
    requires |a| >= cap && Least(less, a, m) && b == if less(m, v) then a - multiset{m} + multiset{v} else a
    ensures PushedTo(less, cap, a, v, b)
  {
  }

  /** `kept` holds the greatest of `all`: as many as fit, and none left out is greater than one kept. */
  ghost predicate Greatest<T(!new)>(less: (T, T) -> bool, cap: nat, kept: multiset<T>, all: multiset<T>) {
    && kept <= all
    && |kept| == (if |all| < cap then |all| else cap)
    && forall k, d :: k in kept && d in all - kept ==> NotLess(less, k, d)
  }

  lemma PushKeepsGreatest<T(!new)>(less: (T, T) -> bool, cap: nat, a: multiset<T>, v: T, b: multiset<T>,
                            all: multiset<T>)
    requires Order(less) && cap > 0 && Greatest(less, cap, a, all) && PushedTo(less, cap, a, v, b)
    ensures Greatest(less, cap, b, all + multiset{v})
  {
    if |a| < cap {
      assert a == all by {
        SubsetOfSameSize(a, all);
      }
      assert all + multiset{v} - b == multiset{};
    } else {
      var m :| Least(less, a, m) && b == if less(m, v) then a - multiset{m} + multiset{v} else a;
      if less(m, v) {
        SwappedIn(less, a, m, v, all);
      } else {
        LeftOut(less, a, m, v, all);
      }
    }
  }

  lemma SubsetOfSameSize<T>(a: multiset<T>, b: multiset<T>)
    requires a <= b && |a| >= |b|
    ensures a == b
  {
    assert b == a + (b - a);
    assert |b - a| == 0;
  }

  lemma SwappedIn<T(!new)>(less: (T, T) -> bool, a: multiset<T>, m: T, v: T, all: multiset<T>)
    requires Order(less) && a <= all && Least(less, a, m) && less(m, v)
    requires forall k, d :: k in a && d in all - a ==> NotLess(less, k, d)
    ensures var b := a - multiset{m} + multiset{v};
      b <= all + multiset{v} && |b| == |a| && forall k, d :: k in b && d in all + multiset{v} - b ==> NotLess(less, k, d)
  {
    var b := a - multiset{m} + multiset{v};
    assert all + multiset{v} - b == all - a + multiset{m};
    forall k, d | k in b && d in all + multiset{v} - b ensures NotLess(less, k, d) {
      assert k == v || k in a;
      assert d == m || d in all - a;
      assert OneWay(less, m, v);
      assert NotLess(less, v, m) && (d in all - a ==> NotLess(less, m, d));
      assert OneWay(less, m, m) && NotLess(less, m, m);
    }
  }

  lemma LeftOut<T(!new)>(less: (T, T) -> bool, a: multiset<T>, m: T, v: T, all: multiset<T>)
    requires Order(less) && a <= all && Least(less, a, m) && !less(m, v)
    requires forall k, d :: k in a && d in all - a ==> NotLess(less, k, d)
    ensures forall k, d :: k in a && d in all + multiset{v} - a ==> NotLess(less, k, d)
  {
    assert all + multiset{v} - a == all - a + multiset{v};
    forall k, d | k in a && d in all + multiset{v} - a ensures NotLess(less, k, d) {
      assert NotLess(less, k, m) && NotLess(less, m, v);
    }
  }

  /** A run of pushes from empty: the values, and what is kept after each. */
  ghost predicate Pushes<T(!new)>(less: (T, T) -> bool, cap: nat, values: seq<T>, bags: seq<multiset<T>>) {
    && |bags| == |values| + 1 && bags[0] == multiset{}
    && forall i :: 0 <= i < |values| ==> PushedTo(less, cap, bags[i], values[i], bags[i + 1])
  }

  lemma OnePush<T(!new)>(less: (T, T) -> bool, cap: nat, values: seq<T>, bags: seq<multiset<T>>, v: T, b: multiset<T>)
    requires Pushes(less, cap, values, bags) && PushedTo(less, cap, bags[|values|], v, b)
    ensures Pushes(less, cap, values + [v], bags + [b])
  {
    hide PushedTo;
    var values', bags' := values + [v], bags + [b];
    forall i | 0 <= i < |values'| ensures PushedTo(less, cap, bags'[i], values'[i], bags'[i + 1]) {
      if i < |values| {
        assert PushedTo(less, cap, bags[i], values[i], bags[i + 1]);
      }
    }
  }

  /** After any number of pushes from empty, the heap holds the `cap` greatest pushed values. */
  lemma {:induction false} PushPhase<T(!new)>(less: (T, T) -> bool, cap: nat, values: seq<T>, bags: seq<multiset<T>>)
    requires Order(less) && cap > 0 && Pushes(less, cap, values, bags)
    ensures Greatest(less, cap, bags[|values|], multiset(values))
  {
    if values != [] {
      var n := |values| - 1;
      PushPhase(less, cap, values[..n], bags[..n + 1]);
      assert values == values[..n] + [values[n]];
      PushKeepsGreatest(less, cap, bags[n], values[n], bags[n + 1], multiset(values[..n]));
    }
  }

  /** A run of pops: the values on top, and what is kept before each and at last. */
  ghost predicate Pops<T(!new)>(less: (T, T) -> bool, tops: seq<T>, bags: seq<multiset<T>>) {
    && |bags| == |tops| + 1
    && forall i :: 0 <= i < |tops| ==> Least(less, bags[i], tops[i]) && bags[i + 1] == bags[i] - multiset{tops[i]}
  }

  lemma OnePop<T(!new)>(less: (T, T) -> bool, tops: seq<T>, bags: seq<multiset<T>>, v: T, b: multiset<T>)
    requires Pops(less, tops, bags) && Least(less, bags[|tops|], v) && b == bags[|tops|] - multiset{v}
    ensures Pops(less, tops + [v], bags + [b])
  {
    hide Least;
  }

  predicate InOrder<T(!new)>(less: (T, T) -> bool, xs: seq<T>) {
    forall i, j :: 0 <= i < j < |xs| ==> NotLess(less, xs[j], xs[i])
  }

  /** Draining yields every value once, each not less than the ones before. */
  lemma {:induction false} Drain<T(!new)>(less: (T, T) -> bool, tops: seq<T>, bags: seq<multiset<T>>)
    requires Pops(less, tops, bags) && bags[|tops|] == multiset{}
    ensures multiset(tops) == bags[0] && InOrder(less, tops)
  {
    if tops != [] {
      var t, rest := tops[0], tops[1..];
      assert Least(less, bags[0], t) && bags[1] == bags[0] - multiset{t};
      assert Pops(less, rest, bags[1..]);
      hide Least, Pops, InOrder;
      Drain(less, rest, bags[1..]);
      assert tops == [t] + rest;
      NoneBefore(less, bags[0], t, rest);
    }
  }

  lemma NoneBefore<T(!new)>(less: (T, T) -> bool, bag: multiset<T>, m: T, rest: seq<T>)
    requires Least(less, bag, m) && multiset(rest) == bag - multiset{m} && InOrder(less, rest)
    ensures multiset([m] + rest) == bag && InOrder(less, [m] + rest)
  {
    forall j | 0 <= j < |rest| ensures NotLess(less, rest[j], m) {
      assert rest[j] in multiset(rest);
    }
  }

  // ---------------------------------------------------------------- the heap order

  function Parent(i: nat): nat
    requires i > 0
  {
    (i - 1) / 2
  }

  /** Slot k is not less than its parent. */
  predicate Above<T(!new)>(less: (T, T) -> bool, w: seq<T>, k: nat)
    requires 0 < k < |w|
  {
    NotLess(less, w[k], w[Parent(k)])
  }

  predicate Heap<T(!new)>(less: (T, T) -> bool, w: seq<T>) {
    forall k: nat :: 0 < k < |w| ==> Above(less, w, k)
  }

  /** Slot k is not less than its grandparent, the parent of `pos`. */
  predicate Skips<T(!new)>(less: (T, T) -> bool, w: seq<T>, pos: nat, k: nat)
    requires 0 < pos < |w| && k < |w|
  {
    NotLess(less, w[k], w[Parent(pos)])
  }

  /** A heap but for `pos` against its parent. */
  predicate HeapBelow<T(!new)>(less: (T, T) -> bool, w: seq<T>, pos: nat)
    requires pos < |w|
  {
    && (forall k: nat :: 0 < k < |w| && k != pos ==> Above(less, w, k))
    && (pos > 0 ==> forall k: nat :: 0 < k < |w| && Parent(k) == pos ==> Skips(less, w, pos, k))
  }

  /** A heap but for `pos` against its children. */
  predicate HeapAbove<T(!new)>(less: (T, T) -> bool, w: seq<T>, pos: nat)
    requires pos < |w|
  {
    && (forall k: nat :: 0 < k < |w| && Parent(k) != pos ==> Above(less, w, k))
    && (pos > 0 ==> forall k: nat :: 0 < k < |w| && Parent(k) == pos ==> Skips(less, w, pos, k))
  }

  function Swapped<T>(w: seq<T>, i: nat, j: nat): seq<T>
    requires i < |w| && j < |w|
  {
    w[i := w[j]][j := w[i]]
  }

  lemma SwapKeepsBag<T>(w: seq<T>, i: nat, j: nat)
    requires i < |w| && j < |w|
    ensures multiset(Swapped(w, i, j)) == multiset(w)
  {
    assert multiset(w[i := w[j]]) == multiset(w) - multiset{w[i]} + multiset{w[j]};
  }

  lemma UpStep<T(!new)>(less: (T, T) -> bool, w: seq<T>, pos: nat)
    requires Order(less) && 0 < pos < |w| && HeapBelow(less, w, pos) && less(w[pos], w[Parent(pos)])
    ensures HeapBelow(less, Swapped(w, pos, Parent(pos)), Parent(pos))
  {
    var p := Parent(pos);
    var w' := Swapped(w, pos, p);
    assert OneWay(less, w[pos], w[p]) && NotLess(less, w[p], w[pos]);
    forall k: nat | 0 < k < |w'| && k != p ensures Above(less, w', k) {
      if k != pos {
        assert Above(less, w, k);
        assert Parent(k) == pos ==> Skips(less, w, pos, k);
      }
    }
    if p > 0 {
      assert Above(less, w, p);
      forall k: nat | 0 < k < |w'| && Parent(k) == p ensures Skips(less, w', p, k) {
        assert k != pos ==> Above(less, w, k);
      }
    }
  }

  lemma DownStep<T(!new)>(less: (T, T) -> bool, w: seq<T>, pos: nat, best: nat)
    requires Order(less) && pos < |w| && HeapAbove(less, w, pos)
    requires 0 < best < |w| && Parent(best) == pos && less(w[best], w[pos])
    requires forall k: nat :: 0 < k < |w| && Parent(k) == pos ==> NotLess(less, w[k], w[best])
    ensures HeapAbove(less, Swapped(w, pos, best), best)
  {
    var w' := Swapped(w, pos, best);
    assert OneWay(less, w[best], w[pos]) && NotLess(less, w[pos], w[best]);
    forall k: nat | 0 < k < |w'| && Parent(k) != best ensures Above(less, w', k) {
      if k == pos {
        assert Skips(less, w, pos, best);
      } else if Parent(k) != pos {
        assert Above(less, w, k);
      }
    }
    forall k: nat | 0 < k < |w'| && Parent(k) == best ensures Skips(less, w', best, k) {
      assert Above(less, w, k);
    }
  }

  /** The root of a heap is its least value. */
  lemma {:induction false} RootIsLeast<T(!new)>(less: (T, T) -> bool, w: seq<T>, k: nat)
    requires Order(less) && Heap(less, w) && k < |w|
    ensures NotLess(less, w[k], w[0])
  {
    if k > 0 {
      RootIsLeast(less, w, Parent(k));
      assert Above(less, w, k);
    } else {
      assert OneWay(less, w[0], w[0]);
    }
  }

  // ---------------------------------------------------------------- values behind positions

  predicate InRange(idx: seq<nat>, n: nat, cap: nat) {
    n <= |idx| && forall i :: 0 <= i < n ==> idx[i] < cap
  }

  predicate Apart(idx: seq<nat>, n: nat) {
    n <= |idx| && forall i, j :: 0 <= i < j < n ==> idx[i] != idx[j]
  }

  /** The values of the first n heap slots. */
  function Values<T>(val: seq<T>, idx: seq<nat>, n: nat): (w: seq<T>)
    requires InRange(idx, n, |val|)
    ensures |w| == n
  {
    seq(n, i requires 0 <= i < n => val[idx[i]])
  }

  /** No live heap slot points to position p. */
  predicate Free(idx: seq<nat>, n: nat, p: nat)
    requires n <= |idx|
  {
    forall i :: 0 <= i < n ==> idx[i] != p
  }

  /** The push phase: the live positions are those below n. */
  predicate Dense(idx: seq<nat>, n: nat) {
    InRange(idx, n, n)
  }

  /** The same values are live, whatever the positions. */
  ghost predicate Shuffled<T>(val: seq<T>, was: seq<nat>, idx: seq<nat>, n: nat) {
    && InRange(was, n, |val|) && InRange(idx, n, |val|) && |was| == |idx|
    && multiset(Values(val, idx, n)) == multiset(Values(val, was, n))
  }

  /** Sifting only rearranges: the same positions, and so the same values, are live. */
  ghost predicate Rearranged<T>(val: seq<T>, was: seq<nat>, idx: seq<nat>, n: nat) {
    Shuffled(val, was, idx, n) && Apart(idx, n) && forall p: nat :: Free(idx, n, p) <==> Free(was, n, p)
  }

  lemma SwapShuffles<T>(val: seq<T>, was: seq<nat>, idx: seq<nat>, n: nat, i: nat, j: nat)
    requires Shuffled(val, was, idx, n) && i < n && j < n
    ensures Shuffled(val, was, Swapped(idx, i, j), n)
    ensures Values(val, Swapped(idx, i, j), n) == Swapped(Values(val, idx, n), i, j)
  {
    SwapKeepsBag(Values(val, idx, n), i, j);
    assert Values(val, Swapped(idx, i, j), n) == Swapped(Values(val, idx, n), i, j);
  }

  lemma SwapRearranges<T>(val: seq<T>, was: seq<nat>, idx: seq<nat>, n: nat, i: nat, j: nat)
    requires Rearranged(val, was, idx, n) && i < n && j < n
    ensures Rearranged(val, was, Swapped(idx, i, j), n)
    ensures Values(val, Swapped(idx, i, j), n) == Swapped(Values(val, idx, n), i, j)
  {
    var idx' := Swapped(idx, i, j);
    SwapShuffles(val, was, idx, n, i, j);
    assert idx'[i] == idx[j] && idx'[j] == idx[i];
    forall p: nat ensures Free(idx', n, p) <==> Free(idx, n, p) {
      assert forall k :: 0 <= k < n && k != i && k != j ==> idx'[k] == idx[k];
    }
  }

  /** A write below capacity, before sifting: over a live position it puts the new value in place of the one there. */
  lemma WriteValues<T>(val: seq<T>, idx: seq<nat>, n: nat, v: T)
    requires n < |val| && n < |idx| && InRange(idx, n, |val|) && Apart(idx, n)
    ensures InRange(idx[n := n], n + 1, |val|)
    ensures multiset(Values(val[n := v], idx[n := n], n + 1)) ==
      if Free(idx, n, n) then multiset(Values(val, idx, n)) + multiset{v}
      else multiset(Values(val, idx, n)) - multiset{val[n]} + multiset{v, v}
    ensures !Free(idx, n, n) ==> val[n] in multiset(Values(val, idx, n))
  {
    var w, w' := Values(val, idx, n), Values(val[n := v], idx[n := n], n + 1);
    if Free(idx, n, n) {
      assert w' == w + [v];
    } else {
      var i :| 0 <= i < n && idx[i] == n;
      assert w[i] == val[n];
      assert w' == w[i := v] + [v];
    }
  }

  /** So it loses nothing exactly when the position is free, or holds an equal value. */
  lemma WriteExact<T>(val: seq<T>, idx: seq<nat>, n: nat, v: T)
    requires n < |val| && n < |idx| && InRange(idx, n, |val|) && Apart(idx, n)
    ensures InRange(idx[n := n], n + 1, |val|)
    ensures multiset(Values(val[n := v], idx[n := n], n + 1)) == multiset(Values(val, idx, n)) + multiset{v}
            <==> Free(idx, n, n) || val[n] == v
  {
    WriteValues(val, idx, n, v);
    var a, b := multiset(Values(val, idx, n)), multiset(Values(val[n := v], idx[n := n], n + 1));
    if !Free(idx, n, n) {
      if val[n] == v {
        assert b == a + multiset{v};
      } else {
        assert b[val[n]] == a[val[n]] - 1 && (a + multiset{v})[val[n]] == a[val[n]];
      }
    }
  }

  /** After a `Pop` in the push phase the next push is safe exactly when the popped value lay last. */
  lemma SafeAfterPop(idx: seq<nat>, n: nat)
    requires 0 < n <= |idx| && Dense(idx, n) && Apart(idx, n)
    ensures Free(idx[0 := idx[n - 1]], n - 1, n - 1) <==> idx[0] == n - 1
  {
    var idx' := idx[0 := idx[n - 1]];
    if idx[0] != n - 1 {
      var i := Pigeon(idx, n);
      assert idx'[if i == n - 1 then 0 else i] == n - 1;
    } else {
      assert forall i :: 0 < i < n ==> idx[0] != idx[i];
    }
  }

  /** n different positions below n: the last one is among them. */
  lemma Pigeon(idx: seq<nat>, n: nat) returns (i: nat)
    requires 0 < n <= |idx| && Dense(idx, n) && Apart(idx, n)
    ensures i < n && idx[i] == n - 1
  {
    if !exists i :: 0 <= i < n && idx[i] == n - 1 {
      Crowded(idx, n, n - 1);
      assert false;
    }
    i :| 0 <= i < n && idx[i] == n - 1;
  }

  lemma {:induction false} Crowded(idx: seq<nat>, n: nat, m: nat)
    requires n <= |idx| && Apart(idx, n) && InRange(idx, n, m)
    ensures n <= m
    decreases m
  {
    if n > 0 {
      assert idx[0] < m;
      if i :| 0 <= i < n && idx[i] == m - 1 {
        var idx' := Swapped(idx, i, n - 1);
        assert forall k :: 0 <= k < n && k != i && k != n - 1 ==> idx'[k] == idx[k];
        Crowded(idx', n - 1, m - 1);
      } else {
        Crowded(idx, n, m - 1);
      }
    }
  }

  // ---------------------------------------------------------------- sifting, on the sequences

  /** The loop of `SiftUp` at `pos`. */
  ghost predicate Rising<T(!new)>(less: (T, T) -> bool, val: seq<T>, was: seq<nat>, idx: seq<nat>, n: nat, pos: nat) {
    pos < n && Rearranged(val, was, idx, n) && HeapBelow(less, Values(val, idx, n), pos)
  }

  /** The loop of `SiftDown` at `pos`. */
  ghost predicate Sinking<T(!new)>(less: (T, T) -> bool, val: seq<T>, was: seq<nat>, idx: seq<nat>, n: nat, pos: nat) {
    pos < n && Rearranged(val, was, idx, n) && HeapAbove(less, Values(val, idx, n), pos)
  }

  /** Sifting is over. */
  ghost predicate Sifted<T(!new)>(less: (T, T) -> bool, val: seq<T>, was: seq<nat>, idx: seq<nat>, n: nat) {
    Rearranged(val, was, idx, n) && Heap(less, Values(val, idx, n))
  }

  lemma RiseStep<T(!new)>(less: (T, T) -> bool, val: seq<T>, was: seq<nat>, idx: seq<nat>, n: nat, pos: nat)
    requires Order(less) && Rising(less, val, was, idx, n, pos)
    ensures n <= |idx| && forall i :: 0 <= i < n ==> idx[i] < |val|
    ensures pos == 0 || !less(val[idx[pos]], val[idx[Parent(pos)]]) ==> Sifted(less, val, was, idx, n)
    ensures pos > 0 && less(val[idx[pos]], val[idx[Parent(pos)]]) ==>
              Rising(less, val, was, Swapped(idx, pos, Parent(pos)), n, Parent(pos))
  {
    var w := Values(val, idx, n);
    if pos > 0 {
      if less(val[idx[pos]], val[idx[Parent(pos)]]) {
        UpStep(less, w, pos);
        SwapRearranges(val, was, idx, n, pos, Parent(pos));
      } else {
        assert Above(less, w, pos);
      }
    }
  }

  /** The slot `SiftDown` picks: `pos` or its lesser child. */
  function Best<T(!new)>(less: (T, T) -> bool, w: seq<T>, pos: nat): (best: nat)
    requires pos < |w|
    ensures best < |w|
  {
    var l, r := 2 * pos + 1, 2 * pos + 2;
    var b := if l < |w| && less(w[l], w[pos]) then l else pos;
    if r < |w| && less(w[r], w[b]) then r else b
  }

  lemma SinkStep<T(!new)>(less: (T, T) -> bool, val: seq<T>, was: seq<nat>, idx: seq<nat>, n: nat, pos: nat)
    requires Order(less) && Sinking(less, val, was, idx, n, pos)
    ensures n <= |idx| && InRange(idx, n, |val|)
    ensures var best := Best(less, Values(val, idx, n), pos);
      if best == pos then Sifted(less, val, was, idx, n)
      else best > pos && Sinking(less, val, was, Swapped(idx, pos, best), n, best)
  {
    var w := Values(val, idx, n);
    var best := Best(less, w, pos);
    BestChild(less, w, pos);
    if best != pos {
      DownStep(less, w, pos, best);
      SwapRearranges(val, was, idx, n, pos, best);
    }
  }

  /** The loop of `SiftUp`, whatever it started from: the values stay, and a heap but for its last slot is on its way. */
  ghost predicate RisingOn<T(!new)>(less: (T, T) -> bool, val: seq<T>, was: seq<nat>, idx: seq<nat>, n: nat, pos: nat) {
    pos < n && Shuffled(val, was, idx, n) && (Rising(less, val, was, was, n, n - 1) ==> Rising(less, val, was, idx, n, pos))
  }

  ghost predicate Rose<T(!new)>(less: (T, T) -> bool, val: seq<T>, was: seq<nat>, idx: seq<nat>, n: nat) {
    n > 0 && Shuffled(val, was, idx, n) && (Rising(less, val, was, was, n, n - 1) ==> Sifted(less, val, was, idx, n))
  }

  lemma RiseStarts<T(!new)>(less: (T, T) -> bool, val: seq<T>, idx: seq<nat>, n: nat)
    requires n > 0 && InRange(idx, n, |val|)
    ensures RisingOn(less, val, idx, idx, n, n - 1)
  {
  }

  lemma RiseGoesOn<T(!new)>(less: (T, T) -> bool, val: seq<T>, was: seq<nat>, idx: seq<nat>, n: nat, pos: nat)
    requires Order(less) && RisingOn(less, val, was, idx, n, pos)
    ensures pos < n <= |idx| == |was| && (forall i :: 0 <= i < n ==> idx[i] < |val|) && (pos > 0 ==> Parent(pos) < pos)
    ensures pos == 0 || !less(val[idx[pos]], val[idx[Parent(pos)]]) ==> Rose(less, val, was, idx, n)
    ensures pos > 0 && less(val[idx[pos]], val[idx[Parent(pos)]]) ==>
      RisingOn(less, val, was, Swapped(idx, pos, Parent(pos)), n, Parent(pos))
  {
    if pos > 0 {
      SwapShuffles(val, was, idx, n, pos, Parent(pos));
    }
    hide Rising, Sifted, Order;
    if Rising(less, val, was, was, n, n - 1) {
      RiseStep(less, val, was, idx, n, pos);
    }
  }

  /** The loop of `SiftDown` from slot `start`, likewise. */
  ghost predicate SinkingOn<T(!new)>(less: (T, T) -> bool, val: seq<T>, was: seq<nat>, idx: seq<nat>, n: nat,
                                     start: nat, pos: nat) {
    && pos < n && Shuffled(val, was, idx, n)
    && (Sinking(less, val, was, was, n, start) ==> Sinking(less, val, was, idx, n, pos))
  }

  ghost predicate Sank<T(!new)>(less: (T, T) -> bool, val: seq<T>, was: seq<nat>, idx: seq<nat>, n: nat, start: nat) {
    Shuffled(val, was, idx, n) && (Sinking(less, val, was, was, n, start) ==> Sifted(less, val, was, idx, n))
  }

  lemma SinkStarts<T(!new)>(less: (T, T) -> bool, val: seq<T>, idx: seq<nat>, n: nat, start: nat)
    requires start < n && InRange(idx, n, |val|)
    ensures SinkingOn(less, val, idx, idx, n, start, start)
  {
  }

  lemma SinkGoesOn<T(!new)>(less: (T, T) -> bool, val: seq<T>, was: seq<nat>, idx: seq<nat>, n: nat, start: nat, pos: nat)
    requires Order(less) && SinkingOn(less, val, was, idx, n, start, pos)
    ensures n <= |idx| == |was| && InRange(idx, n, |val|)
    ensures var best := Best(less, Values(val, idx, n), pos);
      && (best == pos ==> Sank(less, val, was, idx, n, start))
      && (best != pos ==> best > pos && SinkingOn(less, val, was, Swapped(idx, pos, best), n, start, best))
  {
    SwapShuffles(val, was, idx, n, pos, Best(less, Values(val, idx, n), pos));
    hide Sinking, Sifted, Order;
    if Sinking(less, val, was, was, n, start) {
      SinkStep(less, val, was, idx, n, pos);
    }
  }

  /** The choice of `SiftDown`: no child is less than the chosen slot. */
  lemma BestChild<T(!new)>(less: (T, T) -> bool, w: seq<T>, pos: nat)
    requires Order(less) && pos < |w| && HeapAbove(less, w, pos)
    ensures var best := Best(less, w, pos);
      && (best == pos ==> Heap(less, w))
      && (best != pos ==> 0 < best < |w| && Parent(best) == pos && less(w[best], w[pos]))
      && (forall k: nat :: 0 < k < |w| && Parent(k) == pos ==> NotLess(less, w[k], w[best]))
  {
    var l, r, best := 2 * pos + 1, 2 * pos + 2, Best(less, w, pos);
    if best == r && less(w[l], w[pos]) {
      assert OneWay(less, w[l], w[pos]) && NotLess(less, w[pos], w[l]) && !NotLess(less, w[r], w[l]);
      assert !NotLess(less, w[r], w[pos]);
    }
    forall k: nat | 0 < k < |w| && Parent(k) == pos ensures NotLess(less, w[k], w[best]) {
      assert k == l || k == r;
      assert OneWay(less, w[k], w[best]) && OneWay(less, w[k], w[k]);
      if k == l && best == r && !less(w[l], w[pos]) {
        assert OneWay(less, w[r], w[pos]) && NotLess(less, w[pos], w[r]) && NotLess(less, w[l], w[pos]);
      }
    }
    if best == pos {
      forall k: nat | 0 < k < |w| ensures Above(less, w, k) {
        assert Parent(k) != pos ==> Above(less, w, k);
      }
    }
  }

  /** What `Push` leaves to sift below capacity. */
  lemma PushWrites<T(!new)>(less: (T, T) -> bool, val: seq<T>, idx: seq<nat>, n: nat, v: T)
    requires n < |val| && n < |idx| && InRange(idx, n, |val|) && Apart(idx, n) && Free(idx, n, n)
    requires Heap(less, Values(val, idx, n))
    ensures var val', idx' := val[n := v], idx[n := n];
      && Rising(less, val', idx', idx', n + 1, n)
      && multiset(Values(val', idx', n + 1)) == multiset(Values(val, idx, n)) + multiset{v}
  {
    var val', idx' := val[n := v], idx[n := n];
    var w := Values(val, idx, n);
    assert Values(val', idx', n + 1) == w + [v];
    forall k: nat | 0 < k < n ensures Above(less, w + [v], k) {
      assert Above(less, w, k);
    }
  }

  /** What `Push` leaves to sift at capacity. */
  lemma RootWritten<T(!new)>(less: (T, T) -> bool, val: seq<T>, idx: seq<nat>, n: nat, v: T)
    requires 0 < n <= |idx| && InRange(idx, n, |val|) && Apart(idx, n) && Heap(less, Values(val, idx, n))
    ensures var val' := val[idx[0] := v];
      && Sinking(less, val', idx, idx, n, 0)
      && multiset(Values(val', idx, n)) == multiset(Values(val, idx, n)) - multiset{val[idx[0]]} + multiset{v}
  {
    var val', w := val[idx[0] := v], Values(val, idx, n);
    assert Values(val', idx, n) == w[0 := v];
    forall k: nat | 0 < k < n && Parent(k) != 0 ensures Above(less, w[0 := v], k) {
      assert Above(less, w, k);
    }
  }

  /** What `Pop` leaves to sift. */
  lemma RootPopped<T(!new)>(less: (T, T) -> bool, val: seq<T>, idx: seq<nat>, n: nat)
    requires 0 < n <= |idx| && InRange(idx, n, |val|) && Apart(idx, n) && Heap(less, Values(val, idx, n))
    ensures var idx' := idx[0 := idx[n - 1]];
      && InRange(idx', n - 1, |val|) && Apart(idx', n - 1)
      && (n > 1 ==> Sinking(less, val, idx', idx', n - 1, 0))
      && multiset(Values(val, idx', n - 1)) == multiset(Values(val, idx, n)) - multiset{val[idx[0]]}
  {
    var idx', w := idx[0 := idx[n - 1]], Values(val, idx, n);
    var w' := Values(val, idx', n - 1);
    assert w[0 := w[n - 1]] == w' + [w[n - 1]];
    assert multiset(w[0 := w[n - 1]]) == multiset(w) - multiset{w[0]} + multiset{w[n - 1]};
    assert multiset(w' + [w[n - 1]]) == multiset(w') + multiset{w[n - 1]};
    assert multiset(w') == multiset(w) - multiset{w[0]} by {
      SameRest(multiset(w'), multiset(w) - multiset{w[0]}, w[n - 1]);
    }
    if n > 1 {
      forall k: nat | 0 < k < n - 1 && Parent(k) != 0 ensures Above(less, w', k) {
        assert Above(less, w, k);
      }
    }
  }

  lemma SameRest<T>(a: multiset<T>, b: multiset<T>, x: T)
    requires a + multiset{x} == b + multiset{x}
    ensures a == b
  {
    assert a == a + multiset{x} - multiset{x};
    assert b == b + multiset{x} - multiset{x};
  }

  // ---------------------------------------------------------------- the class

  class TopNHeap<T(0,!new)> {
    const less: (T, T) -> bool
    const val: array<T>
    const idx: array<nat>
    var size: nat

    /** The two arrays are different ones, whatever T is. */
    predicate Separate() {
      val as object != idx && val.Length == idx.Length > 0
    }

    /** What every operation keeps: the live heap slots point into the values. */
    ghost predicate Loose()
      reads this, val, idx
    {
      Separate() && size <= idx.Length && InRange(idx[..], size, val.Length) && Order(less)
    }

    ghost predicate Valid()
      reads this, val, idx
    {
      Loose() && Apart(idx[..], size) && Heap(less, Values(val[..], idx[..], size))
    }

    /** The next push below capacity writes to no live position. */
    ghost predicate Safe()
      reads this, val, idx
      requires Loose()
    {
      size < idx.Length ==> Free(idx[..], size, size)
    }

    /** The predicates of this class, spelled out. */
    lemma Parts()
      ensures Loose() <==> (
        && val as object != idx && val.Length == idx.Length > 0 && size <= idx.Length
        && InRange(idx[..], size, val.Length) && Order(less))
      ensures Loose() ==> Separate() && Bag() == multiset(Values(val[..], idx[..], size))
      ensures Valid() <==> Loose() && Apart(idx[..], size) && Heap(less, Values(val[..], idx[..], size))
      ensures Loose() ==> (Safe() <==> (size < idx.Length ==> Free(idx[..], size, size)))
    {
    }

    ghost function Bag(): multiset<T>
      reads this, val, idx
      requires Loose()
    {
      multiset(Values(val[..], idx[..], size))
    }

    constructor (capacity: nat, cmp: (T, T) -> bool)
      requires capacity > 0 && Order(cmp)
      ensures Valid() && Loose() && size == 0 && val.Length == idx.Length == capacity && less == cmp
      ensures fresh(val) && fresh(idx)
      ensures Bag() == multiset{} && Dense(idx[..], size) && Safe()
    {
      less := cmp;
      val := new T[capacity];
      idx := new nat[capacity];
      size := 0;
    }

    method SiftUp(i: nat)
      requires Separate() && Order(less) && i < idx.Length && InRange(idx[..], i + 1, val.Length)
      modifies idx
      ensures Rose(less, val[..], old(idx[..]), idx[..], i + 1)
    {
      assert val as object != idx && val.Length == idx.Length;
      hide *;
      var pos: nat := i;
      RiseStarts(less, val[..], idx[..], i + 1);
      while pos > 0
        invariant pos <= i && RisingOn(less, val[..], old(idx[..]), idx[..], i + 1, pos)
      {
        var p := Parent(pos);
        ghost var was := idx[..];
        RiseGoesOn(less, val[..], old(idx[..]), was, i + 1, pos);
        if !less(val[idx[pos]], val[idx[p]]) {
          return;
        }
        idx[pos], idx[p] := idx[p], idx[pos];
        assert idx[..] == Swapped(was, pos, p);
        pos := p;
      }
      RiseGoesOn(less, val[..], old(idx[..]), idx[..], i + 1, 0);
    }

    method SiftDown(i: nat)
      requires Separate() && Order(less) && i < size <= idx.Length && InRange(idx[..], size, val.Length)
      modifies idx
      ensures Sank(less, val[..], old(idx[..]), idx[..], size, i)
    {
      var pos: nat := i;
      SinkStarts(less, val[..], idx[..], size, i);
      hide SinkingOn, Sank, Order;
      while true
        invariant pos < size && SinkingOn(less, val[..], old(idx[..]), idx[..], size, i, pos)
        decreases size - pos
      {
        ghost var was := idx[..];
        SinkGoesOn(less, val[..], old(idx[..]), was, size, i, pos);
        ghost var w := Values(val[..], was, size);
        var l, r := 2 * pos + 1, 2 * pos + 2;
        var best: nat := pos;
        if l < size && less(val[idx[l]], val[idx[best]]) {
          best := l;
        }
        if r < size && less(val[idx[r]], val[idx[best]]) {
          best := r;
        }
        assert best == Best(less, w, pos);
        if best == pos {
          break;
        }
        idx[pos], idx[best] := idx[best], idx[pos];
        assert idx[..] == Swapped(was, pos, best);
        pos := best;
      }
    }

    /**
     A safe push is one into the set of the greatest. One that is not puts the new value in the place
     of a live one as well as in its own.
     */
    method Push(value: T)
      requires Loose()
      modifies this, val, idx
      ensures Loose() && size == if old(size) < idx.Length then old(size) + 1 else old(size)
      ensures old(size) < idx.Length ==> val[..] == old(val[..])[old(size) := value]
      ensures old(Valid() && Safe()) ==> Valid() && PushedTo(less, idx.Length, old(Bag()), value, Bag())
      ensures old(Valid() && Dense(idx[..], size)) ==> Dense(idx[..], size)
      ensures old(Valid() && !Safe()) ==> Bag() == old(Bag() - multiset{val[size]}) + multiset{value, value}
    {
      if size < idx.Length {
        Append(value);
      } else {
        ReplaceLeast(value);
      }
    }

    /** `Push` below capacity. */
    method Append(value: T)
      requires Loose() && size < idx.Length
      modifies this, val, idx
      ensures Loose() && size == old(size) + 1 && val[..] == old(val[..])[old(size) := value]
      ensures old(Valid() && Safe()) ==> Valid() && PushedTo(less, idx.Length, old(Bag()), value, Bag())
      ensures old(Valid() && Dense(idx[..], size)) ==> Dense(idx[..], size)
      ensures old(Valid() && !Safe()) ==> Bag() == old(Bag() - multiset{val[size]}) + multiset{value, value}
    {
      hide *;
      Parts();
      ghost var v0, i0 := val[..], idx[..];
      ghost var valid, safe := Valid(), Safe();
      AppendStarts(less, v0, i0, size, value);
      val[size] := value;
      idx[size] := size;
      assert val[..] == v0[size := value] && idx[..] == i0[size := size];
      SiftUp(size);
      RoseMeans(less, val[..], i0[size := size], idx[..], size + 1);
      if valid && safe {
        Appended(less, v0, i0, size, value, idx[..]);
      }
      size := size + 1;
      Parts();
    }

    /** `Push` at capacity. */
    method ReplaceLeast(value: T)
      requires Loose() && size == idx.Length
      modifies val, idx
      ensures Loose()
      ensures old(Valid()) ==> Valid() && PushedTo(less, idx.Length, old(Bag()), value, Bag())
      ensures old(Valid() && Dense(idx[..], size)) ==> Dense(idx[..], size)
    {
      ghost var v0, i0, b0 := val[..], idx[..], Bag();
      ghost var valid := Valid();
      BagSize(v0, i0, size);
      if valid {
        RootIsLeastOfAll(less, Values(v0, i0, size));
        RootWritten(less, v0, i0, size, value);
      }
      hide Sank, Sinking, Sifted, Dense, Order, Heap, Values, Least, Apart, Free, PushedTo, Shuffled;
      if less(val[idx[0]], value) {
        val[idx[0]] := value;
        assert val[..] == v0[i0[0] := value] && idx[..] == i0;
        SiftDown(0);
        SankMeans(less, val[..], i0, idx[..], size);
        if valid {
          SiftedMeans(less, val[..], i0, idx[..], size);
        }
      }
      if valid {
        LeastGivesWay(less, idx.Length, b0, v0[i0[0]], value, Bag());
      }
    }

    function Top(): (v: T)
      reads this, val, idx
      requires Loose() && size > 0
      ensures v == val[idx[0]] && (Valid() ==> Least(less, Bag(), v))
    {
      assert Valid() ==> Least(less, Bag(), val[idx[0]]) by {
        if Valid() {
          RootIsLeastOfAll(less, Values(val[..], idx[..], size));
        }
      }
      val[idx[0]]
    }

    /** In a push phase the next push is safe exactly if the least value lay in the last position. */
    method Pop()
      requires Loose() && size > 0
      modifies this, idx
      ensures Loose() && size == old(size) - 1
      ensures old(Valid()) ==>
        Valid() && Least(less, old(Bag()), old(Top())) && Bag() == old(Bag()) - multiset{old(Top())}
      ensures old(Valid() && Dense(idx[..], size)) ==> (Safe() <==> old(idx[0]) == size)
    {
      ghost var i0, n := idx[..], size;
      ghost var valid, dense := Valid(), Dense(idx[..], size);
      if valid {
        RootPopped(less, val[..], i0, n);
      }
      size := size - 1;
      idx[0] := idx[size];
      assert idx[..] == i0[0 := i0[n - 1]];
      if valid && dense {
        SafeAfterPop(i0, n);
      }
      if size > 0 {
        SiftDown(0);
      }
    }

    lemma EmptyBag()
      requires Loose() && size == 0
      ensures Bag() == multiset{}
    {
    }

    /** All along a push phase the next push is safe. */
    lemma SafeInPushPhase()
      requires Loose() && Dense(idx[..], size)
      ensures Safe()
    {
    }

    method Clear()
      requires Loose()
      modifies this
      ensures Valid() && Bag() == multiset{} && Dense(idx[..], size) && Safe()
    {
      size := 0;
    }
  }

  /** What is so once the new value is written, before it is sifted. */
  lemma AppendStarts<T(!new)>(less: (T, T) -> bool, val: seq<T>, idx: seq<nat>, n: nat, v: T)
    requires n < |val| && n < |idx| && InRange(idx, n, |val|)
    ensures InRange(idx[n := n], n + 1, |val|)
    ensures Apart(idx, n) && Heap(less, Values(val, idx, n)) && Free(idx, n, n) ==>
      Rising(less, val[n := v], idx[n := n], idx[n := n], n + 1, n)
    ensures Apart(idx, n) && !Free(idx, n, n) ==>
      multiset(Values(val[n := v], idx[n := n], n + 1)) ==
        multiset(Values(val, idx, n)) - multiset{val[n]} + multiset{v, v}
    ensures Dense(idx, n) ==> Free(idx, n, n)
  {
    if Apart(idx, n) {
      WriteValues(val, idx, n, v);
      if Heap(less, Values(val, idx, n)) && Free(idx, n, n) {
        PushWrites(less, val, idx, n, v);
      }
    }
  }

  lemma RoseMeans<T(!new)>(less: (T, T) -> bool, val: seq<T>, was: seq<nat>, idx: seq<nat>, n: nat)
    requires Rose(less, val, was, idx, n)
    ensures InRange(was, n, |val|) && InRange(idx, n, |val|) && |was| == |idx|
    ensures multiset(Values(val, idx, n)) == multiset(Values(val, was, n))
    ensures Rising(less, val, was, was, n, n - 1) ==> Sifted(less, val, was, idx, n)
  {
  }

  lemma SankMeans<T(!new)>(less: (T, T) -> bool, val: seq<T>, was: seq<nat>, idx: seq<nat>, n: nat)
    requires Sank(less, val, was, idx, n, 0)
    ensures InRange(was, n, |val|) && InRange(idx, n, |val|) && |was| == |idx|
    ensures multiset(Values(val, idx, n)) == multiset(Values(val, was, n))
    ensures Sinking(less, val, was, was, n, 0) ==> Sifted(less, val, was, idx, n)
  {
  }

  lemma RootIsLeastOfAll<T(!new)>(less: (T, T) -> bool, w: seq<T>)
    requires Order(less) && Heap(less, w)
    ensures w != [] ==> Least(less, multiset(w), w[0])
  {
    if w != [] {
      forall x | x in multiset(w) ensures NotLess(less, x, w[0]) {
        var k :| 0 <= k < |w| && w[k] == x;
        RootIsLeast(less, w, k);
      }
    }
  }

  /** What is so once the appended value is sifted. */
  lemma Appended<T(!new)>(less: (T, T) -> bool, val: seq<T>, idx: seq<nat>, n: nat, v: T, sifted: seq<nat>)
    requires n < |val| == |idx| && InRange(idx, n, |val|) && Apart(idx, n) && Free(idx, n, n)
    requires Heap(less, Values(val, idx, n)) && Sifted(less, val[n := v], idx[n := n], sifted, n + 1)
    ensures InRange(sifted, n + 1, |val|) && Apart(sifted, n + 1) && Heap(less, Values(val[n := v], sifted, n + 1))
    ensures PushedTo(less, |val|, multiset(Values(val, idx, n)), v, multiset(Values(val[n := v], sifted, n + 1)))
    ensures Dense(idx, n) ==> Dense(sifted, n + 1)
  {
    BagSize(val, idx, n);
    PushWrites(less, val, idx, n, v);
    PushStaysDense(idx, n);
    hide Rising, Sifted, Dense, Heap, Values, Apart, Free, PushedTo;
    SiftedMeans(less, val[n := v], idx[n := n], sifted, n + 1);
    OneMore(less, |val|, multiset(Values(val, idx, n)), v, multiset(Values(val[n := v], sifted, n + 1)));
  }

  lemma BagSize<T>(val: seq<T>, idx: seq<nat>, n: nat)
    requires InRange(idx, n, |val|)
    ensures |multiset(Values(val, idx, n))| == n
    ensures n > 0 ==> Values(val, idx, n)[0] == val[idx[0]]
  {
  }

  lemma SiftedMeans<T(!new)>(less: (T, T) -> bool, val: seq<T>, was: seq<nat>, idx: seq<nat>, n: nat)
    requires Sifted(less, val, was, idx, n)
    ensures InRange(idx, n, |val|) && Apart(idx, n) && Heap(less, Values(val, idx, n)) && |was| == |idx|
    ensures InRange(was, n, |val|) && multiset(Values(val, idx, n)) == multiset(Values(val, was, n))
    ensures Dense(was, n) ==> Dense(idx, n)
  {
    if Dense(was, n) {
      forall i | 0 <= i < n ensures idx[i] < n {
        assert !Free(idx, n, idx[i]);
      }
    }
  }

  /** In the push phase the next position is free, and stays in the pattern once used. */
  lemma PushStaysDense(idx: seq<nat>, n: nat)
    requires n < |idx|
    ensures Dense(idx, n) ==> Free(idx, n, n) && Dense(idx[n := n], n + 1)
  {
  }

  // ---------------------------------------------------------------- a value lost

  predicate Lower(a: int, b: int) {
    a < b
  }

  lemma LowerIsOrder()
    ensures Order(Lower)
  {
    assert forall a, b :: OneWay(Lower, a, b);
    forall a, b, c | NotLess(Lower, b, a) && NotLess(Lower, c, b) ensures NotLess(Lower, c, a) {
    }
  }

  lemma PushedBelow<T(!new)>(less: (T, T) -> bool, cap: nat, a: multiset<T>, v: T, b: multiset<T>)
    requires PushedTo(less, cap, a, v, b) && |a| < cap
    ensures b == a + multiset{v}
  {
  }

  lemma LeastOfTwo(m: int)
    requires Least(Lower, multiset{1, 2}, m)
    ensures m == 1
  {
    assert 1 in multiset{1, 2};
    assert NotLess(Lower, 1, m);
  }

  method TwoPushes() returns (h: TopNHeap<int>)
    ensures fresh(h) && fresh(h.val) && fresh(h.idx)
    ensures h.Loose() && h.Valid() && Dense(h.idx[..], h.size)
    ensures h.size == h.val.Length == h.idx.Length == 2 && h.less == Lower && h.Bag() == multiset{1, 2} && h.val[1] == 2
  {
    hide *;
    LowerIsOrder();
    h := new TopNHeap(2, Lower);
    h.Push(1);
    PushedBelow(Lower, 2, multiset{}, 1, h.Bag());
    h.SafeInPushPhase();
    h.Push(2);
    PushedBelow(Lower, 2, multiset{1}, 2, h.Bag());
    assert h.Bag() == multiset{1, 2} && h.val[..][1] == 2;
  }

  /** Two pushes, a pop and a push: the value 2, still kept after the pop, gives way to a second copy of 3. */
  method LostValue() returns (h: TopNHeap<int>)
    ensures h.Loose() && h.Bag() == multiset{3, 3}
  {
    hide *;
    h := TwoPushes();
    LeastOfTwo(h.Top());
    h.Pop();
    assert h.Bag() == multiset{2} && h.val[1] == 2;
    h.Push(3);
    assert multiset{2} - multiset{2} + multiset{3, 3} == multiset{3, 3};
  }
}
