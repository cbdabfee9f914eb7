/**
 The switch from full to sparse blocks after the last prefill chunk: `get_mv_map` assigns the selected
 logical blocks to the physical blocks that stay, the cache moves them in place, and the
 scheduler gives the other blocks back.
 */
module GsaMove {
  import opened Wrappers
  import opened Arithmetic
  import opened Sequences

  // ---------------------------------------------------------------- the indices that stay

  /** The indices lo..hi-1. */
  function Indices(lo: nat, hi: nat): (s: seq<nat>)
    ensures |s| == (if lo < hi then hi - lo else 0)
    ensures forall i :: 0 <= i < |s| ==> s[i] == lo + i
    ensures forall x :: x in s <==> lo <= x < hi
    decreases hi
  {
    if lo >= hi then [] else Indices(lo, hi - 1) + [hi - 1]
  }

  /** `list(range(n))[start:]`; a negative start counts from the end. */
  function From(n: nat, start: int): seq<nat> {
    Indices(if start >= 0 then start else if n + start < 0 then 0 else n + start, n)
  }

  /** `list(range(n))[:w]`. */
  function Upto(n: nat, w: nat): seq<nat> {
    Indices(0, if w <= n then w else n)
  }

  /** `remain_idx` of the last chunk: the initial window, and the tail; `k` blocks in all. */
  function RemainIdx(n: nat, w: nat, k: nat): seq<nat> {
    Upto(n, w) + From(n, w - k)
  }

  /** It lists `k` different indices exactly when the window is smaller than the number that stays. */
  lemma RemainExact(n: nat, w: nat, k: nat)
    requires 0 < k <= n && w <= n
    ensures |RemainIdx(n, w, k)| == k && Distinct(RemainIdx(n, w, k)) <==> w < k
    ensures w < k ==> forall x: nat :: x in RemainIdx(n, w, k) <==> x < n && (x < w || x >= n - k + w)
  {
    var a, b := Upto(n, w), From(n, w - k);
    assert RemainIdx(n, w, k) == a + b;
    if w < k {
      assert b == Indices(n - k + w, n) && |a| == w && |b| == k - w;
      assert forall i :: 0 <= i < k ==> (a + b)[i] == if i < w then i else n - k + i;
      forall x: nat ensures x in RemainIdx(n, w, k) <==> x < n && (x < w || x >= n - k + w) {
        assert x in a + b <==> x in a || x in b;
      }
    } else {
      assert |a| == w && |b| == n + k - w;
    }
  }

  // ---------------------------------------------------------------- the move map

  /** What `get_mv_map` needs: one physical block per logical one, and as many selected as stay. */
  ghost predicate ValidInput(blocks: seq<nat>, remain: seq<nat>, topk: seq<nat>) {
    && Distinct(blocks) && Distinct(remain) && Distinct(topk) && |topk| == |remain|
    && (forall i :: 0 <= i < |remain| ==> remain[i] < |blocks|)
    && (forall i :: 0 <= i < |topk| ==> topk[i] < |blocks|)
  }

  /** The logical blocks among `s` that are not in `t`, in order. */
  function Minus(s: seq<nat>, t: seq<nat>): (r: seq<nat>)
    ensures forall x :: x in r <==> x in s && x !in t
  {
    if s == [] then []
    else
      var last := s[|s| - 1];
      Minus(s[..|s| - 1], t) + (if last in t then [] else [last])
  }

  lemma {:induction false} MinusDistinct(s: seq<nat>, t: seq<nat>)
    requires Distinct(s)
    ensures Distinct(Minus(s, t))
  {
    if s != [] {
      var rest := s[..|s| - 1];
      MinusDistinct(rest, t);
      assert s[|s| - 1] !in rest;
    }
  }

  /** Between sets of equal size the two differences are equally long. */
  lemma MinusSizes(s: seq<nat>, t: seq<nat>)
    requires Distinct(s) && Distinct(t) && |s| == |t|
    ensures |Minus(s, t)| == |Minus(t, s)|
  {
    var a, b := Elements(s), Elements(t);
    DistinctSize(s);
    DistinctSize(t);
    MinusDistinct(s, t);
    MinusDistinct(t, s);
    DistinctSize(Minus(s, t));
    DistinctSize(Minus(t, s));
    assert Elements(Minus(s, t)) == a - b;
    assert Elements(Minus(t, s)) == b - a;
    assert |a - b| == |a| - |a * b| && |b - a| == |b| - |b * a|;
    assert a * b == b * a;
  }

  /** How many of the first n selected blocks do not stay. */
  function Misses(topk: seq<nat>, remain: seq<nat>, n: nat): nat
    requires n <= |topk|
  {
    if n == 0 then 0 else Misses(topk, remain, n - 1) + (if topk[n - 1] in remain then 0 else 1)
  }

  lemma {:induction false} MissesCount(topk: seq<nat>, remain: seq<nat>, n: nat)
    requires n <= |topk|
    ensures Misses(topk, remain, n) == |Minus(topk[..n], remain)|
  {
    if n > 0 {
      MissesCount(topk, remain, n - 1);
      assert topk[..n][..n - 1] == topk[..n - 1];
    }
  }

  /** The physical block given to the n-th selected block: its own, or the next free one. */
  function Assigned(blocks: seq<nat>, remain: seq<nat>, topk: seq<nat>, n: nat): nat
    requires ValidInput(blocks, remain, topk) && n < |topk|
  {
    if topk[n] in remain then blocks[topk[n]]
    else
      FreeIsLeft(blocks, remain, topk, n);
      blocks[Minus(remain, topk)[Misses(topk, remain, n)]]
  }

  lemma FreeIsLeft(blocks: seq<nat>, remain: seq<nat>, topk: seq<nat>, n: nat)
    requires ValidInput(blocks, remain, topk) && n < |topk| && topk[n] !in remain
    ensures Misses(topk, remain, n) < |Minus(remain, topk)|
    ensures Minus(remain, topk)[Misses(topk, remain, n)] in Minus(remain, topk)
  {
    MinusSizes(topk, remain);
    MissesGrow(topk, remain, n + 1, |topk|);
    MissesCount(topk, remain, |topk|);
    assert topk[..|topk|] == topk;
  }

  lemma {:induction false} MissesGrow(topk: seq<nat>, remain: seq<nat>, n: nat, m: nat)
    requires n <= m <= |topk|
    ensures Misses(topk, remain, n) <= Misses(topk, remain, m)
    decreases m
  {
    if n < m {
      MissesGrow(topk, remain, n, m - 1);
    }
  }

  /** Physical blocks that stay. */
  predicate Stays(blocks: seq<nat>, remain: seq<nat>, b: nat) {
    exists x :: x in remain && x < |blocks| && blocks[x] == b
  }

  lemma AssignedStays(blocks: seq<nat>, remain: seq<nat>, topk: seq<nat>, n: nat)
    requires ValidInput(blocks, remain, topk) && n < |topk|
    ensures Stays(blocks, remain, Assigned(blocks, remain, topk, n)) && Assigned(blocks, remain, topk, n) in blocks
  {
    if topk[n] !in remain {
      FreeIsLeft(blocks, remain, topk, n);
      assert Minus(remain, topk)[Misses(topk, remain, n)] in remain;
    }
  }

  /** No physical block is given to two selected blocks. */
  lemma AssignedDistinct(blocks: seq<nat>, remain: seq<nat>, topk: seq<nat>, n: nat, m: nat)
    requires ValidInput(blocks, remain, topk) && n < m < |topk|
    ensures Assigned(blocks, remain, topk, n) != Assigned(blocks, remain, topk, m)
  {
    MissesGrow(topk, remain, n + 1, m);
    MinusDistinct(remain, topk);
    AssignedIs(blocks, remain, topk, n);
    AssignedIs(blocks, remain, topk, m);
    assert Misses(topk, remain, n + 1) == Misses(topk, remain, n) + (if topk[n] in remain then 0 else 1);
    hide Assigned, Misses;
  }

  lemma AssignedDiffer(blocks: seq<nat>, remain: seq<nat>, topk: seq<nat>, i: nat, j: nat)
    requires ValidInput(blocks, remain, topk) && i < |topk| && j < |topk| && i != j
    ensures Assigned(blocks, remain, topk, i) != Assigned(blocks, remain, topk, j)
  {
    hide Assigned;
    if i < j {
      AssignedDistinct(blocks, remain, topk, i, j);
    } else {
      AssignedDistinct(blocks, remain, topk, j, i);
    }
  }

  function AllAssigned(blocks: seq<nat>, remain: seq<nat>, topk: seq<nat>): seq<nat>
    requires ValidInput(blocks, remain, topk)
  {
    seq(|topk|, i requires 0 <= i < |topk| => Assigned(blocks, remain, topk, i))
  }

  function StayingBlocks(blocks: seq<nat>, remain: seq<nat>): seq<nat>
    requires forall i :: 0 <= i < |remain| ==> remain[i] < |blocks|
  {
    seq(|remain|, i requires 0 <= i < |remain| => blocks[remain[i]])
  }

  /** The blocks given out are exactly those that stay. */
  lemma AssignedAreTheStaying(blocks: seq<nat>, remain: seq<nat>, topk: seq<nat>)
    requires ValidInput(blocks, remain, topk)
    ensures Elements(AllAssigned(blocks, remain, topk)) == Elements(StayingBlocks(blocks, remain))
  {
    var a, b := AllAssigned(blocks, remain, topk), StayingBlocks(blocks, remain);
    hide Assigned;
    assert Distinct(a) by {
      forall n, m | 0 <= n < m < |a| ensures a[n] != a[m] {
        AssignedDistinct(blocks, remain, topk, n, m);
      }
    }
    forall x | x in a ensures x in b {
      var n :| 0 <= n < |a| && a[n] == x;
      AssignedStays(blocks, remain, topk, n);
      var r :| r in remain && r < |blocks| && blocks[r] == x;
      var i :| 0 <= i < |remain| && remain[i] == r;
      assert b[i] == x;
    }
    DistinctSize(a);
    DistinctSize(b);
    SameSizeSubset(Elements(a), Elements(b));
  }

  // ---------------------------------------------------------------- the program

  /** The moves: from the block of each selected logical block that does not stay, to the one given to it. */
  ghost predicate IsMoveMap(mv: map<nat, nat>, blocks: seq<nat>, remain: seq<nat>, topk: seq<nat>, n: nat)
    requires ValidInput(blocks, remain, topk) && n <= |topk|
  {
    && (forall i: nat :: i < n && topk[i] !in remain ==> MovesTo(mv, blocks[topk[i]], Assigned(blocks, remain, topk, i)))
    && (forall b :: b in mv ==> MovedFor(blocks, remain, topk, n, b))
  }

  predicate MovesTo(mv: map<nat, nat>, src: nat, dst: nat) {
    src in mv && mv[src] == dst
  }

  predicate MovedFor(blocks: seq<nat>, remain: seq<nat>, topk: seq<nat>, n: nat, b: nat)
    requires ValidInput(blocks, remain, topk) && n <= |topk|
  {
    exists i: nat :: i < n && topk[i] !in remain && blocks[topk[i]] == b
  }

  /** `get_mv_map`: the moves, and the assignment split into the selected and the prefetched blocks. */
  method GetMvMap(blocks: seq<nat>, remain: seq<nat>, topk: seq<nat>, remainLen: nat)
    returns (mv: map<nat, nat>, remainMap: map<nat, nat>, prefetchMap: map<nat, nat>)
    requires ValidInput(blocks, remain, topk)
    ensures IsMoveMap(mv, blocks, remain, topk, |topk|)
    ensures forall i: nat :: i < |topk| ==>
      MovesTo(if i < remainLen then remainMap else prefetchMap, topk[i], Assigned(blocks, remain, topk, i))
    ensures remainMap.Keys + prefetchMap.Keys == Elements(topk) && remainMap.Keys !! prefetchMap.Keys
  {
    var hits: seq<Option<nat>> := [];
    for i := 0 to |topk|
      invariant |hits| == i
      invariant forall m: nat :: m < i ==> hits[m] == HitOf(blocks, remain, topk, m)
    {
      hits := hits + [if topk[i] in remain then Some(blocks[topk[i]]) else None];
    }
    var free := FreeBlocks(remain, topk);
    var newBlock: seq<nat>;
    mv, newBlock := AssignFree(blocks, remain, topk, hits, free);
    remainMap, prefetchMap := SplitMap(topk, newBlock, remainLen);
  }

  function HitOf(blocks: seq<nat>, remain: seq<nat>, topk: seq<nat>, m: nat): Option<nat>
    requires ValidInput(blocks, remain, topk) && m < |topk|
  {
    if topk[m] in remain then Some(blocks[topk[m]]) else None
  }

  /** The second loop. A staying block is free when no selected block is in place there. */
  method FreeBlocks(remain: seq<nat>, topk: seq<nat>) returns (free: seq<nat>)
    ensures free == Minus(remain, topk)
  {
    free := [];
    for i := 0 to |remain|
      invariant free == Minus(remain[..i], topk)
    {
      assert remain[..i + 1][..i] == remain[..i];
      if remain[i] !in topk {
        free := free + [remain[i]];
      }
    }
    assert remain[..|remain|] == remain;
  }

  /** The third loop: each selected block that does not stay takes the next free block. */
  method AssignFree(blocks: seq<nat>, remain: seq<nat>, topk: seq<nat>, hits: seq<Option<nat>>, free0: seq<nat>)
    returns (mv: map<nat, nat>, newBlock: seq<nat>)
    requires ValidInput(blocks, remain, topk) && |hits| == |topk| && free0 == Minus(remain, topk)
    requires forall m: nat :: m < |topk| ==> hits[m] == HitOf(blocks, remain, topk, m)
    ensures IsMoveMap(mv, blocks, remain, topk, |topk|) && |newBlock| == |topk|
    ensures forall m: nat :: m < |topk| ==> newBlock[m] == Assigned(blocks, remain, topk, m)
  {
    hide *;
    mv, newBlock := map[], [];
    var free := free0;
    NothingAssigned(blocks, remain, topk);
    for i := 0 to |topk|
      invariant |newBlock| == i && FreeAfter(remain, topk, i, free)
      invariant forall m: nat :: m < i ==> newBlock[m] == Assigned(blocks, remain, topk, m)
      invariant IsMoveMap(mv, blocks, remain, topk, i)
    {
      var b;
      assert hits[i] == HitOf(blocks, remain, topk, i);
      mv, b, free := AssignOne(blocks, remain, topk, i, hits[i], mv, free);
      newBlock := newBlock + [b];
    }
  }

  /** The free blocks that are left when the first i selected blocks have theirs. */
  predicate FreeAfter(remain: seq<nat>, topk: seq<nat>, i: nat, free: seq<nat>) {
    i <= |topk| && Misses(topk, remain, i) <= |Minus(remain, topk)| && free == Minus(remain, topk)[Misses(topk, remain, i)..]
  }

  lemma NothingAssigned(blocks: seq<nat>, remain: seq<nat>, topk: seq<nat>)
    requires ValidInput(blocks, remain, topk)
    ensures FreeAfter(remain, topk, 0, Minus(remain, topk)) && IsMoveMap(map[], blocks, remain, topk, 0)
  {
  }

  method AssignOne(blocks: seq<nat>, remain: seq<nat>, topk: seq<nat>, i: nat, hit: Option<nat>,
                   mv: map<nat, nat>, free: seq<nat>)
    returns (mv': map<nat, nat>, b: nat, free': seq<nat>)
    requires ValidInput(blocks, remain, topk) && i < |topk| && hit == HitOf(blocks, remain, topk, i)
    requires FreeAfter(remain, topk, i, free) && IsMoveMap(mv, blocks, remain, topk, i)
    ensures b == Assigned(blocks, remain, topk, i) && FreeAfter(remain, topk, i + 1, free')
    ensures IsMoveMap(mv', blocks, remain, topk, i + 1)
  {
    AssignedIs(blocks, remain, topk, i);
    assert Misses(topk, remain, i + 1) == Misses(topk, remain, i) + (if topk[i] in remain then 0 else 1);
    hide Assigned, ValidInput, Minus, Misses, IsMoveMap;
    mv' := mv;
    if hit.None? {
      b, free' := blocks[free[0]], free[1..];
      mv' := mv[blocks[topk[i]] := b];
    } else {
      b, free' := hit.value, free;
    }
    MoveMapGrows(mv, mv', blocks, remain, topk, i);
  }

  lemma AssignedIs(blocks: seq<nat>, remain: seq<nat>, topk: seq<nat>, n: nat)
    requires ValidInput(blocks, remain, topk) && n < |topk|
    ensures topk[n] < |blocks|
    ensures topk[n] in remain ==> Assigned(blocks, remain, topk, n) == blocks[topk[n]]
    ensures topk[n] !in remain ==>
      var m, free := Misses(topk, remain, n), Minus(remain, topk);
      m < |free| && free[m] < |blocks| && Assigned(blocks, remain, topk, n) == blocks[free[m]]
  {
    if topk[n] !in remain {
      FreeIsLeft(blocks, remain, topk, n);
      assert Minus(remain, topk)[Misses(topk, remain, n)] in remain;
    }
  }

  /** The last loop. */
  method SplitMap(topk: seq<nat>, newBlock: seq<nat>, remainLen: nat)
    returns (remainMap: map<nat, nat>, prefetchMap: map<nat, nat>)
    requires Distinct(topk) && |newBlock| == |topk|
    ensures forall i: nat :: i < |topk| ==> MovesTo(if i < remainLen then remainMap else prefetchMap, topk[i], newBlock[i])
    ensures remainMap.Keys + prefetchMap.Keys == Elements(topk) && remainMap.Keys !! prefetchMap.Keys
  {
    remainMap, prefetchMap := map[], map[];
    for i := 0 to |topk|
      invariant forall m: nat :: m < i ==> MovesTo(if m < remainLen then remainMap else prefetchMap, topk[m], newBlock[m])
      invariant forall x :: x in remainMap ==> ListedIn(topk, 0, if i < remainLen then i else remainLen, x)
      invariant forall x :: x in prefetchMap ==> ListedIn(topk, remainLen, i, x)
    {
      assert topk[i] in topk;
      if i < remainLen {
        remainMap := remainMap[topk[i] := newBlock[i]];
      } else {
        prefetchMap := prefetchMap[topk[i] := newBlock[i]];
      }
      forall x | x in remainMap ensures ListedIn(topk, 0, if i + 1 < remainLen then i + 1 else remainLen, x) {
        assert x != topk[i] || i >= remainLen ==> ListedIn(topk, 0, if i < remainLen then i else remainLen, x);
      }
      forall x | x in prefetchMap ensures ListedIn(topk, remainLen, i + 1, x) {
        assert x != topk[i] || i < remainLen ==> ListedIn(topk, remainLen, i, x);
      }
    }
    forall x ensures x in remainMap || x in prefetchMap <==> x in topk {
      if x in topk {
        var i: nat :| i < |topk| && topk[i] == x;
        assert MovesTo(if i < remainLen then remainMap else prefetchMap, topk[i], newBlock[i]);
      }
    }
    assert remainMap.Keys + prefetchMap.Keys == Elements(topk);
  }

  predicate ListedIn(topk: seq<nat>, lo: nat, hi: nat, x: nat) {
    exists i: nat :: lo <= i < hi && i < |topk| && topk[i] == x
  }

  lemma MoveMapGrows(mv: map<nat, nat>, mv': map<nat, nat>, blocks: seq<nat>, remain: seq<nat>, topk: seq<nat>, i: nat)
    requires ValidInput(blocks, remain, topk) && i < |topk| && IsMoveMap(mv, blocks, remain, topk, i)
    requires mv' == if topk[i] in remain then mv else mv[blocks[topk[i]] := Assigned(blocks, remain, topk, i)]
    ensures IsMoveMap(mv', blocks, remain, topk, i + 1)
  {
    hide Assigned;
    forall m: nat | m < i && topk[m] !in remain ensures MovesTo(mv', blocks[topk[m]], Assigned(blocks, remain, topk, m)) {
      assert MovesTo(mv, blocks[topk[m]], Assigned(blocks, remain, topk, m));
      assert topk[m] != topk[i];
    }
    forall b | b in mv' ensures MovedFor(blocks, remain, topk, i + 1, b) {
      assert b in mv ==> MovedFor(blocks, remain, topk, i, b);
    }
  }

  /** The selected block a move is for. */
  lemma MoveOf(mv: map<nat, nat>, blocks: seq<nat>, remain: seq<nat>, topk: seq<nat>, b: nat) returns (i: nat)
    requires ValidInput(blocks, remain, topk) && IsMoveMap(mv, blocks, remain, topk, |topk|) && b in mv
    ensures i < |topk| && topk[i] !in remain && blocks[topk[i]] == b && mv[b] == Assigned(blocks, remain, topk, i)
    ensures Stays(blocks, remain, mv[b]) && !Stays(blocks, remain, b) && b in blocks && mv[b] in blocks
  {
    hide Assigned;
    assert MovedFor(blocks, remain, topk, |topk|, b);
    i :| i < |topk| && topk[i] !in remain && blocks[topk[i]] == b;
    assert MovesTo(mv, blocks[topk[i]], Assigned(blocks, remain, topk, i));
    AssignedStays(blocks, remain, topk, i);
  }

  // ---------------------------------------------------------------- moving the cache

  /** The copies, one by one, in the given order. */
  function Apply<D>(cache: seq<D>, mv: map<nat, nat>, order: seq<nat>): (r: seq<D>)
    requires InCache(|cache|, mv, order)
    ensures |r| == |cache|
  {
    if order == [] then cache
    else
      var src := order[|order| - 1];
      var r := Apply(cache, mv, order[..|order| - 1]);
      r[mv[src] := r[src]]
  }

  ghost predicate InCache(size: nat, mv: map<nat, nat>, order: seq<nat>) {
    forall b :: b in order ==> b in mv && b < size && mv[b] < size
  }

  /** The moves do not interfere: no block is both read and written, and none is written twice. */
  ghost predicate Apart(mv: map<nat, nat>) {
    && (forall b, c :: b in mv && c in mv ==> mv[b] != c)
    && (forall b, c :: b in mv && c in mv && b != c ==> mv[b] != mv[c])
  }

  /** So in any order each lands, and nothing else changes. */
  lemma {:induction false} AnyOrder<D>(cache: seq<D>, mv: map<nat, nat>, order: seq<nat>)
    requires InCache(|cache|, mv, order) && Apart(mv)
    ensures forall b :: b in order ==> Apply(cache, mv, order)[mv[b]] == cache[b]
    ensures forall x :: 0 <= x < |cache| && (forall b :: b in order ==> mv[b] != x) ==> Apply(cache, mv, order)[x] == cache[x]
  {
    if order != [] {
      AnyOrder(cache, mv, order[..|order| - 1]);
    }
  }

  lemma MovesAreApart(mv: map<nat, nat>, blocks: seq<nat>, remain: seq<nat>, topk: seq<nat>)
    requires ValidInput(blocks, remain, topk) && IsMoveMap(mv, blocks, remain, topk, |topk|)
    ensures Apart(mv)
  {
    hide IsMoveMap, Assigned, Stays, ValidInput;
    forall b, c | b in mv && c in mv ensures mv[b] != c && (b != c ==> mv[b] != mv[c]) {
      var i := MoveOf(mv, blocks, remain, topk, b);
      var j := MoveOf(mv, blocks, remain, topk, c);
      if i != j {
        AssignedDiffer(blocks, remain, topk, i, j);
      }
    }
  }

  /** The loop over the move map, in whatever order it yields its keys. */
  method MoveCache<D>(cache: array<D>, mv: map<nat, nat>, order: seq<nat>)
    requires InCache(cache.Length, mv, order)
    modifies cache
    ensures cache[..] == Apply(old(cache[..]), mv, order)
  {
    for i := 0 to |order|
      invariant InCache(cache.Length, mv, order[..i])
      invariant cache[..] == Apply(old(cache[..]), mv, order[..i])
    {
      assert order[..i + 1][..i] == order[..i];
      var src := order[i];
      cache[mv[src]] := cache[src];
    }
    assert order[..|order|] == order;
  }

  /**
   Whatever the order of the copies, every selected logical block ends up with its own data in the physical
   block recorded for it, and that block stays. Blocks that no move writes are as before.
   */
  lemma SelectedKeepTheirData<D>(cache: seq<D>, mv: map<nat, nat>, order: seq<nat>,
                                 blocks: seq<nat>, remain: seq<nat>, topk: seq<nat>, i: nat)
    requires ValidInput(blocks, remain, topk) && IsMoveMap(mv, blocks, remain, topk, |topk|) && i < |topk|
    requires (forall b :: b in blocks ==> b < |cache|) && (forall b :: b in order <==> b in mv)
    ensures InCache(|cache|, mv, order) && Assigned(blocks, remain, topk, i) < |cache|
    ensures Apply(cache, mv, order)[Assigned(blocks, remain, topk, i)] == cache[blocks[topk[i]]]
    ensures Stays(blocks, remain, Assigned(blocks, remain, topk, i))
  {
    MovesAreApart(mv, blocks, remain, topk);
    MovesInCache(|cache|, mv, order, blocks, remain, topk);
    AnyOrder(cache, mv, order);
    AssignedStays(blocks, remain, topk, i);
    AssignedIs(blocks, remain, topk, i);
    assert topk[i] !in remain ==> MovesTo(mv, blocks[topk[i]], Assigned(blocks, remain, topk, i));
    hide IsMoveMap, Assigned, Stays, ValidInput, Apply, Minus, Misses, Apart, InCache;
    if topk[i] in remain {
      NoMoveOnto(mv, blocks, remain, topk, i);
    }
  }

  /** A selected block that stays in place is not written. */
  lemma NoMoveOnto(mv: map<nat, nat>, blocks: seq<nat>, remain: seq<nat>, topk: seq<nat>, i: nat)
    requires ValidInput(blocks, remain, topk) && IsMoveMap(mv, blocks, remain, topk, |topk|)
    requires i < |topk| && topk[i] in remain
    ensures forall b :: b in mv ==> mv[b] != blocks[topk[i]]
  {
    AssignedIs(blocks, remain, topk, i);
    hide IsMoveMap, Assigned, Stays, ValidInput, Minus, Misses;
    var own := Assigned(blocks, remain, topk, i);
    forall b | b in mv ensures mv[b] != own {
      var j := MoveOf(mv, blocks, remain, topk, b);
      AssignedDiffer(blocks, remain, topk, i, j);
    }
  }

  lemma MovesInCache(size: nat, mv: map<nat, nat>, order: seq<nat>, blocks: seq<nat>, remain: seq<nat>, topk: seq<nat>)
    requires ValidInput(blocks, remain, topk) && IsMoveMap(mv, blocks, remain, topk, |topk|)
    requires (forall b :: b in blocks ==> b < size) && (forall b :: b in order ==> b in mv)
    ensures InCache(size, mv, order)
  {
    hide IsMoveMap, Assigned;
    forall b | b in order ensures b in mv && b < size && mv[b] < size {
      var i := MoveOf(mv, blocks, remain, topk, b);
    }
  }

  // ---------------------------------------------------------------- what the scheduler keeps

  /** `estimate_num_slots_sparsed`, for a request with output and a long enough prompt. */
  function SlotsSparsed(prompt: nat, tokens: nat, blockSize: nat, topkLen: nat, prefetch: nat): int
    requires blockSize > 0
  {
    var promptBlocks, allBlocks := CeilDiv(prompt, blockSize), CeilDiv(tokens, blockSize);
    var prefetchLen := if prefetch < promptBlocks - topkLen then prefetch else promptBlocks - topkLen;
    var sparse := allBlocks - promptBlocks + topkLen + prefetchLen;
    sparse * blockSize - Flaw(tokens, blockSize)
  }

  /** `allocate_slots`: how many of the allocated blocks it wants to keep. */
  function BlocksNeeded(prompt: nat, tokens: nat, blockSize: nat, slots: nat): int
    requires blockSize > 0
  {
    if prompt + 1 == tokens && tokens % blockSize == 1 then CeilDiv(slots, blockSize) - 1 else CeilDiv(slots, blockSize)
  }

  /** The blocks it keeps: the initial window and the tail. */
  predicate Kept(n: nat, w: nat, need: int, i: nat) {
    i < n && (i >= n - need + w || i < w)
  }

  function Flaw(tokens: nat, blockSize: nat): nat
    requires blockSize > 0
  {
    if tokens % blockSize != 0 then blockSize - tokens % blockSize else 0
  }

  /** With the first output token: k blocks are needed, or k + 1 when a block holds one token. */
  lemma FirstDecodeBlocks(prompt: nat, blockSize: nat, k: nat)
    requires blockSize > 0 && k > 0
    ensures var slots := (CeilDiv(prompt + 1, blockSize) - CeilDiv(prompt, blockSize) + k) * blockSize - Flaw(prompt + 1, blockSize);
      slots >= 0 && BlocksNeeded(prompt, prompt + 1, blockSize, slots) == (if blockSize >= 2 then k else k + 1)
  {
    var q, r := prompt / blockSize, prompt % blockSize;
    assert prompt == q * blockSize + r;
    if r == 0 {
      WholePrompt(prompt, q, blockSize, k);
    } else {
      BrokenPrompt(prompt, q, r, blockSize, k);
    }
  }

  lemma WholePrompt(prompt: nat, q: nat, b: nat, k: nat)
    requires b > 0 && k > 0 && prompt == q * b
    ensures CeilDiv(prompt, b) == q && CeilDiv(prompt + 1, b) == q + 1
    ensures (prompt + 1) % b == (if b >= 2 then 1 else 0)
    ensures (k + 1) * b - Flaw(prompt + 1, b) >= 0 && CeilDiv((k + 1) * b - Flaw(prompt + 1, b), b) == k + 1
  {
    CeilDivIs(prompt, b, q, 0);
    assert (q + 1) * b == q * b + b;
    CeilDivIs(prompt + 1, b, q + 1, b - 1);
    QuotientUnique(prompt + 1, b, if b >= 2 then q else q + 1, if b >= 2 then 1 else 0);
    Scaled(k + 1, b, Flaw(prompt + 1, b));
  }

  lemma Scaled(k: nat, b: nat, flaw: nat)
    requires k > 0 && flaw < b
    ensures k * b - flaw >= 0 && CeilDiv(k * b - flaw, b) == k
  {
    assert k * b == (k - 1) * b + b && (k - 1) * b >= 0;
    CeilDivIs(k * b - flaw, b, k, flaw);
  }

  lemma BrokenPrompt(prompt: nat, q: nat, r: nat, b: nat, k: nat)
    requires 0 < r < b && k > 0 && prompt == q * b + r
    ensures CeilDiv(prompt, b) == q + 1 && CeilDiv(prompt + 1, b) == q + 1
    ensures (prompt + 1) % b != 1
    ensures k * b - Flaw(prompt + 1, b) >= 0 && CeilDiv(k * b - Flaw(prompt + 1, b), b) == k
  {
    assert (q + 1) * b == q * b + b;
    CeilDivIs(prompt, b, q + 1, b - r);
    CeilDivIs(prompt + 1, b, q + 1, b - r - 1);
    if r + 1 < b {
      QuotientUnique(prompt + 1, b, q, r + 1);
    } else {
      QuotientUnique(prompt + 1, b, q + 1, 0);
    }
    Scaled(k, b, Flaw(prompt + 1, b));
  }

  /** The number of blocks kept for decoding: the selected ones and the prefetched ones. */
  function KeptLen(n: nat, topkLen: nat, prefetch: nat): nat
    requires topkLen <= n
  {
    topkLen + (if prefetch < n - topkLen then prefetch else n - topkLen)
  }

  /** The blocks that a request is to have at a decode step: those kept, and one for each block that decoding has begun. */
  function DecodeBlocks(prompt: nat, tokens: nat, blockSize: nat, topkLen: nat, prefetch: nat): nat
    requires blockSize > 0 && topkLen <= CeilDiv(prompt, blockSize) && prompt <= tokens
  {
    CeilsAscend(prompt, tokens, blockSize);
    CeilDiv(tokens, blockSize) - CeilDiv(prompt, blockSize) + KeptLen(CeilDiv(prompt, blockSize), topkLen, prefetch)
  }

  lemma CeilsAscend(a: nat, b: nat, d: nat)
    requires d > 0 && a <= b
    ensures CeilDiv(a, d) <= CeilDiv(b, d)
  {
    QuotientsAscend(a + d - 1, b + d - 1, d);
  }

  /** The tokens in the last block. */
  function LastFill(tokens: nat, blockSize: nat): int
    requires blockSize > 0
  {
    tokens - (CeilDiv(tokens, blockSize) - 1) * blockSize
  }

  lemma FlawIsRoom(tokens: nat, blockSize: nat)
    requires blockSize > 0 && tokens > 0
    ensures Flaw(tokens, blockSize) < blockSize && CeilDiv(tokens, blockSize) > 0
    ensures tokens + Flaw(tokens, blockSize) == CeilDiv(tokens, blockSize) * blockSize
    ensures 1 <= LastFill(tokens, blockSize) == blockSize - Flaw(tokens, blockSize) <= blockSize
  {
    var q, r := tokens / blockSize, tokens % blockSize;
    Division(tokens, blockSize);
    Difference(q + 1, q, blockSize);
    CeilDivIs(tokens, blockSize, if r == 0 then q else q + 1, if r == 0 then 0 else blockSize - r);
    var n := CeilDiv(tokens, blockSize);
    hide CeilDiv;
    assert n > 0;
    Difference(n, n - 1, blockSize);
  }

  lemma Distribute(a: int, c: int, d: int)
    ensures (a + c) * d == a * d + c * d
  {
  }

  /** The slots are the tokens less those of the prompt's blocks that are not kept. */
  lemma SlotsAre(prompt: nat, tokens: nat, blockSize: nat, topkLen: nat, prefetch: nat)
    requires blockSize > 0 && prompt < tokens && topkLen <= CeilDiv(prompt, blockSize)
    ensures var n := CeilDiv(prompt, blockSize);
      SlotsSparsed(prompt, tokens, blockSize, topkLen, prefetch) == tokens - (n - KeptLen(n, topkLen, prefetch)) * blockSize
  {
    FlawIsRoom(tokens, blockSize);
    var a, n := CeilDiv(tokens, blockSize), CeilDiv(prompt, blockSize);
    var dropped: int := n - KeptLen(n, topkLen, prefetch);
    hide CeilDiv, Flaw;
    Distribute(a, -dropped, blockSize);
    Distribute(dropped, -dropped, blockSize);
  }

  /**
   At every decode step the slots are those blocks, the last one filled as far as the last block of the
   tokens; so many blocks are needed, but for one less on the first token of a block right after the prompt.
   */
  lemma EveryDecodeStep(prompt: nat, tokens: nat, blockSize: nat, topkLen: nat, prefetch: nat)
    requires blockSize > 0 && prompt < tokens && topkLen <= CeilDiv(prompt, blockSize)
    ensures var n := DecodeBlocks(prompt, tokens, blockSize, topkLen, prefetch);
      var slots := SlotsSparsed(prompt, tokens, blockSize, topkLen, prefetch);
      && (slots >= 0 <==> n > 0 || tokens % blockSize == 0)
      && (n > 0 ==>
            && slots == (n - 1) * blockSize + LastFill(tokens, blockSize) && CeilDiv(slots, blockSize) == n
            && BlocksNeeded(prompt, tokens, blockSize, slots) ==
                 if tokens == prompt + 1 && tokens % blockSize == 1 then n - 1 else n)
  {
    var n := DecodeBlocks(prompt, tokens, blockSize, topkLen, prefetch);
    FlawIsRoom(tokens, blockSize);
    var flaw := Flaw(tokens, blockSize);
    if n > 0 {
      Scaled(n, blockSize, flaw);
      Difference(n, n - 1, blockSize);
    }
    assert SlotsSparsed(prompt, tokens, blockSize, topkLen, prefetch) == n * blockSize - flaw;
  }

  /** From one decode step to the next there is one slot more. */
  lemma OneSlotMore(prompt: nat, tokens: nat, blockSize: nat, topkLen: nat, prefetch: nat)
    requires blockSize > 0 && prompt < tokens && topkLen <= CeilDiv(prompt, blockSize)
    ensures SlotsSparsed(prompt, tokens + 1, blockSize, topkLen, prefetch) ==
      SlotsSparsed(prompt, tokens, blockSize, topkLen, prefetch) + 1
  {
    SlotsAre(prompt, tokens, blockSize, topkLen, prefetch);
    SlotsAre(prompt, tokens + 1, blockSize, topkLen, prefetch);
    hide SlotsSparsed, KeptLen;
  }

  /**
   At the first decode step, the blocks the scheduler keeps are exactly those the worker compacts into,
   except with blocks of a single token, where it keeps one more.
   */
  lemma SchedulerKeepsRemaining(prompt: nat, blockSize: nat, topkLen: nat, prefetch: nat, w: nat, i: nat)
    requires blockSize > 0 && topkLen <= CeilDiv(prompt, blockSize)
    requires w < KeptLen(CeilDiv(prompt, blockSize), topkLen, prefetch)
    ensures var n := CeilDiv(prompt, blockSize);
      var k := KeptLen(n, topkLen, prefetch);
      var slots := SlotsSparsed(prompt, prompt + 1, blockSize, topkLen, prefetch);
      slots >= 0 &&
      var need := BlocksNeeded(prompt, prompt + 1, blockSize, slots);
      && (blockSize >= 2 || k == n ==> (Kept(n, w, need, i) <==> i in RemainIdx(n, w, k)))
      && (blockSize == 1 && k < n ==> Kept(n, w, need, n - k + w - 1) && n - k + w - 1 !in RemainIdx(n, w, k))
  {
    var n := CeilDiv(prompt, blockSize);
    var k := KeptLen(n, topkLen, prefetch);
    FirstDecodeBlocks(prompt, blockSize, k);
    RemainExact(n, w, k);
  }
}
