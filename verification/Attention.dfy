/**
 The streaming attention kernels, one output row and one head dimension at a time, over the
 reals. `kernel_unified_attention_2d` walks all key blocks with a running maximum, a running sum
 of exponentials and a running weighted sum; the 3d kernel does so for segments of the key
 blocks, and `reduce_segments` joins them. Both are compared with softmax attention written
 down directly. The exponential is any positive function that turns sums into products.
 */
module Attention {
  import opened Wrappers
  import opened Arithmetic

  datatype Ext = NegInf | Fin(v: real)

  function Max(a: Ext, b: Ext): Ext {
    if a.NegInf? then b else if b.NegInf? then a else if a.v >= b.v then a else b
  }

  predicate AtMost(a: Ext, b: Ext) {
    a.NegInf? || (b.Fin? && a.v <= b.v)
  }

  predicate Adds(e: real -> real, x: real, y: real) {
    e(x + y) == e(x) * e(y)
  }

  predicate Positive(e: real -> real, x: real) {
    e(x) > 0.0
  }

  ghost predicate Exponential(e: real -> real) {
    && (forall x, y :: Adds(e, x, y))
    && (forall x :: Positive(e, x))
  }

  /** exp(s - m), where s may be minus infinity. */
  function ExpDiff(e: real -> real, s: Ext, m: real): real {
    if s.NegInf? then 0.0 else e(s.v - m)
  }

  lemma ExpDiffTimes(e: real -> real, s: Ext, m: real)
    requires Exponential(e)
    ensures ExpDiff(e, s, m) * e(m) == ExpDiff(e, s, 0.0) * e(0.0)
    ensures s.Fin? ==> ExpDiff(e, s, m) * e(m) == e(s.v)
    ensures s.NegInf? ==> ExpDiff(e, s, m) * e(m) == 0.0
  {
    if s.Fin? {
      assert Adds(e, s.v - m, m) && Adds(e, s.v - 0.0, 0.0);
      assert s.v - m + m == s.v;
    }
  }

  /**
   A row: one query position of one sequence. `near` and `far` hold the scaled products of the two query and
   key pairs, with soft cap and slopes; `value` is the cached value. `reach` is the distance from which on the
   second pair counts. `headOk` is false for the padding heads of a block; `window` is 0 for no sliding window.
   */
  datatype Row = Row(near: int -> real, far: int -> real, reach: nat, value: int -> real,
                     seqLen: nat, queryLen: nat, queryPos: nat, headOk: bool, window: nat)

  /** What the caller's arrays satisfy: a sequence holds at least the tokens being queried. */
  predicate ValidRow(r: Row) {
    0 < r.queryLen <= r.seqLen
  }

  function ContextLen(r: Row): int {
    r.seqLen - r.queryLen
  }

  /** The row is stored: both query masks hold. */
  predicate Stored(r: Row) {
    r.queryPos < r.queryLen && r.headOk
  }

  predicate Unmasked(r: Row, k: int) {
    && Stored(r) && k < ContextLen(r) + r.queryPos + 1
    && (r.window > 0 ==> ContextLen(r) + r.queryPos - k < r.window)
  }

  /** The kernel's distance counts the query one position further on. */
  predicate IsNear(r: Row, k: int) {
    var diff := ContextLen(r) + r.queryPos + 1 - k;
    (if diff < 0 then -diff else diff) < r.reach && r.queryPos < r.queryLen
  }

  function Score(r: Row, k: int): real {
    if IsNear(r, k) then (r.near)(k) else (r.far)(k)
  }

  function S(r: Row, k: int): Ext {
    if Unmasked(r, k) then Fin(Score(r, k)) else NegInf
  }

  /** The query's own position in the sequence. */
  function Pos(r: Row): int {
    ContextLen(r) + r.queryPos
  }

  /**
   What a stored row sees, and how: its own key and those before it, of which a window keeps the latest; of
   these the `reach - 1` latest, its own among them, through the first pair, and all others through the second.
   */
  lemma RowSees(r: Row, k: int)
    requires ValidRow(r) && Stored(r) && 0 <= k < r.seqLen
    ensures 0 <= Pos(r) < r.seqLen
    ensures Unmasked(r, k) <==> k <= Pos(r) && (r.window == 0 || Pos(r) - k <= r.window - 1)
    ensures Unmasked(r, Pos(r))
    ensures Unmasked(r, k) ==> S(r, k) == Fin(if Pos(r) - k < r.reach - 1 then (r.near)(k) else (r.far)(k))
  {
  }

  /** How many of the keys lo..hi-1 a row sees. */
  function Seen(r: Row, lo: int, hi: int): nat
    decreases hi - lo
  {
    if hi <= lo then 0 else Seen(r, lo, hi - 1) + (if Unmasked(r, hi - 1) then 1 else 0)
  }

  lemma {:induction false} SeenBefore(r: Row, hi: int)
    requires ValidRow(r) && Stored(r) && 0 <= hi <= r.seqLen
    ensures var first := if r.window == 0 || Pos(r) < r.window then 0 else Pos(r) - r.window + 1;
      Seen(r, 0, hi) == if hi <= first then 0 else if hi <= Pos(r) + 1 then hi - first else Pos(r) + 1 - first
    decreases hi
  {
    if hi > 0 {
      SeenBefore(r, hi - 1);
      RowSees(r, hi - 1);
    } else {
      RowSees(r, 0);
    }
  }

  /** So it sees as many keys as there are up to its own, or as the window holds. */
  lemma SeenInAll(r: Row)
    requires ValidRow(r) && Stored(r)
    ensures Seen(r, 0, r.seqLen) == if r.window == 0 || Pos(r) < r.window then Pos(r) + 1 else r.window
  {
    SeenBefore(r, r.seqLen);
    RowSees(r, 0);
  }

  // ---------------------------------------------------------------- direct softmax attention

  function ExpOf(e: real -> real, r: Row, k: int): real {
    if Unmasked(r, k) then e(Score(r, k)) else 0.0
  }

  /** Sum of exp(S) over the keys lo..hi-1. */
  function Mass(e: real -> real, r: Row, lo: int, hi: int): real
    decreases hi - lo
  {
    if hi <= lo then 0.0 else Mass(e, r, lo, hi - 1) + ExpOf(e, r, hi - 1)
  }

  /** Sum of exp(S) * V over the keys lo..hi-1. */
  function Weight(e: real -> real, r: Row, lo: int, hi: int): real
    decreases hi - lo
  {
    if hi <= lo then 0.0 else Weight(e, r, lo, hi - 1) + ExpOf(e, r, hi - 1) * (r.value)(hi - 1)
  }

  /** Softmax attention over the sequence's keys; no value where no key is visible. */
  function Direct(e: real -> real, r: Row): Option<real> {
    var mass := Mass(e, r, 0, r.seqLen);
    if mass == 0.0 then None else Some(Weight(e, r, 0, r.seqLen) / mass)
  }

  lemma {:induction false} SumsJoin(e: real -> real, r: Row, lo: int, mid: int, hi: int)
    requires lo <= mid <= hi
    ensures Mass(e, r, lo, hi) == Mass(e, r, lo, mid) + Mass(e, r, mid, hi)
    ensures Weight(e, r, lo, hi) == Weight(e, r, lo, mid) + Weight(e, r, mid, hi)
    decreases hi - mid
  {
    if mid < hi {
      SumsJoin(e, r, lo, mid, hi - 1);
    }
  }

  lemma {:induction false} MaskedSums(e: real -> real, r: Row, lo: int, hi: int)
    requires forall k :: lo <= k < hi ==> !Unmasked(r, k)
    ensures Mass(e, r, lo, hi) == 0.0 && Weight(e, r, lo, hi) == 0.0
    decreases hi - lo
  {
    if lo < hi {
      MaskedSums(e, r, lo, hi - 1);
    }
  }

  lemma {:induction false} MassPositive(e: real -> real, r: Row, lo: int, hi: int)
    requires Exponential(e)
    ensures Mass(e, r, lo, hi) >= 0.0
    ensures Mass(e, r, lo, hi) > 0.0 <==> exists k :: lo <= k < hi && Unmasked(r, k)
    decreases hi - lo
  {
    if lo < hi {
      MassPositive(e, r, lo, hi - 1);
      if Unmasked(r, hi - 1) {
        assert Positive(e, Score(r, hi - 1));
      }
    }
  }

  /** A stored row always sees at least its own position, so its softmax is defined. */
  lemma StoredRowsAreDefined(e: real -> real, r: Row)
    requires Exponential(e) && ValidRow(r)
    ensures Direct(e, r).Some? <==> Stored(r)
  {
    MassPositive(e, r, 0, r.seqLen);
    if Stored(r) {
      assert Unmasked(r, ContextLen(r) + r.queryPos);
    } else {
      MaskedSums(e, r, 0, r.seqLen);
    }
  }

  /** The last block reaches past the sequence; what lies there is masked. */
  lemma PaddingIsMasked(e: real -> real, r: Row, end: int)
    requires ValidRow(r) && end >= r.seqLen
    ensures Mass(e, r, 0, end) == Mass(e, r, 0, r.seqLen) && Weight(e, r, 0, end) == Weight(e, r, 0, r.seqLen)
  {
    SumsJoin(e, r, 0, r.seqLen, end);
    MaskedSums(e, r, r.seqLen, end);
  }

  // ---------------------------------------------------------------- one tile

  function TileMax(r: Row, lo: int, hi: int): (m: Ext)
    ensures forall k :: lo <= k < hi ==> AtMost(S(r, k), m)
    ensures m.Fin? ==> exists k :: lo <= k < hi && S(r, k) == m
    decreases hi - lo
  {
    if hi <= lo then NegInf else Max(TileMax(r, lo, hi - 1), S(r, hi - 1))
  }

  /** Sum of P = exp(S - m) over the keys lo..hi-1. */
  function SumAt(e: real -> real, r: Row, m: real, lo: int, hi: int): real
    decreases hi - lo
  {
    if hi <= lo then 0.0 else SumAt(e, r, m, lo, hi - 1) + ExpDiff(e, S(r, hi - 1), m)
  }

  /** Sum of P * V over the keys lo..hi-1. */
  function DotAt(e: real -> real, r: Row, m: real, lo: int, hi: int): real
    decreases hi - lo
  {
    if hi <= lo then 0.0 else DotAt(e, r, m, lo, hi - 1) + ExpDiff(e, S(r, hi - 1), m) * (r.value)(hi - 1)
  }

  /** One exp(S - m) moved to another reference: exp(S - m) exp(m - n) = exp(S - n). */
  lemma ExpMoves(e: real -> real, s: Ext, m: real, n: real)
    requires Exponential(e)
    ensures ExpDiff(e, s, n) == ExpDiff(e, s, m) * ExpDiff(e, Fin(m), n)
  {
    if s.Fin? {
      assert Adds(e, s.v - m, m - n);
      assert s.v - m + (m - n) == s.v - n;
    }
  }

  /** Rescaling by exp(m - n) moves both sums from the reference m to n. */
  lemma {:induction false} SumsMove(e: real -> real, r: Row, m: real, n: real, lo: int, hi: int)
    requires Exponential(e)
    ensures SumAt(e, r, n, lo, hi) == SumAt(e, r, m, lo, hi) * ExpDiff(e, Fin(m), n)
    ensures DotAt(e, r, n, lo, hi) == DotAt(e, r, m, lo, hi) * ExpDiff(e, Fin(m), n)
    decreases hi - lo
  {
    if lo < hi {
      SumsMove(e, r, m, n, lo, hi - 1);
      var a, p, v := ExpDiff(e, Fin(m), n), ExpDiff(e, S(r, hi - 1), m), (r.value)(hi - 1);
      ExpMoves(e, S(r, hi - 1), m, n);
      TermMoves(SumAt(e, r, m, lo, hi - 1), DotAt(e, r, m, lo, hi - 1), p, v, a, ExpDiff(e, S(r, hi - 1), n));
    }
  }

  /** One more term on both sums, rescaled. */
  lemma TermMoves(sum: real, dot: real, p: real, v: real, a: real, q: real)
    requires q == p * a
    ensures (sum + p) * a == sum * a + q
    ensures (dot + p * v) * a == dot * a + q * v
  {
    Spread(sum, p, a);
    Spread(dot, p * v, a);
    Swap(p, v, a);
  }

  /** The sums at a reference m are the plain sums over exp(m): `L exp(M) = sum exp(S)` and `acc exp(M) = sum exp(S) V`. */
  lemma {:induction false} SumsScaled(e: real -> real, r: Row, m: real, lo: int, hi: int)
    requires Exponential(e)
    ensures SumAt(e, r, m, lo, hi) * e(m) == Mass(e, r, lo, hi)
    ensures DotAt(e, r, m, lo, hi) * e(m) == Weight(e, r, lo, hi)
    decreases hi - lo
  {
    if lo < hi {
      SumsScaled(e, r, m, lo, hi - 1);
      var p, v := ExpDiff(e, S(r, hi - 1), m), (r.value)(hi - 1);
      ExpDiffTimes(e, S(r, hi - 1), m);
      TermMoves(SumAt(e, r, m, lo, hi - 1), DotAt(e, r, m, lo, hi - 1), p, v, e(m), ExpOf(e, r, hi - 1));
    }
  }

  lemma {:induction false} SumsAtJoin(e: real -> real, r: Row, m: real, lo: int, mid: int, hi: int)
    requires lo <= mid <= hi
    ensures SumAt(e, r, m, lo, hi) == SumAt(e, r, m, lo, mid) + SumAt(e, r, m, mid, hi)
    ensures DotAt(e, r, m, lo, hi) == DotAt(e, r, m, lo, mid) + DotAt(e, r, m, mid, hi)
    decreases hi - mid
  {
    if mid < hi {
      SumsAtJoin(e, r, m, lo, mid, hi - 1);
    }
  }

  lemma Spread(a: real, b: real, c: real)
    ensures (a + b) * c == a * c + b * c
  {
  }

  lemma Swap(p: real, v: real, c: real)
    ensures (p * v) * c == (p * c) * v
  {
  }

  // ---------------------------------------------------------------- the streaming loop

  /** What M, L and acc are after the keys lo..hi-1: the sums at reference M; and M bounds the scores, and is one or zero. */
  ghost predicate Summary(e: real -> real, r: Row, lo: int, hi: int, m: Ext, l: real, acc: real) {
    && m.Fin?
    && l == SumAt(e, r, m.v, lo, hi)
    && acc == DotAt(e, r, m.v, lo, hi)
    && (forall k :: lo <= k < hi ==> AtMost(S(r, k), m))
    && (m == Fin(0.0) || IsScore(r, lo, hi, m))
  }

  predicate IsScore(r: Row, lo: int, hi: int, m: Ext) {
    exists k :: lo <= k < hi && S(r, k) == m
  }

  /** The sums over both parts at `top`, the first part being known at m. */
  lemma SumsExtend(e: real -> real, r: Row, lo: int, mid: int, hi: int, m: real, l: real, acc: real, top: real)
    requires Exponential(e) && lo <= mid <= hi
    requires l == SumAt(e, r, m, lo, mid) && acc == DotAt(e, r, m, lo, mid)
    ensures SumAt(e, r, top, lo, hi) == l * ExpDiff(e, Fin(m), top) + SumAt(e, r, top, mid, hi)
    ensures DotAt(e, r, top, lo, hi) == acc * ExpDiff(e, Fin(m), top) + DotAt(e, r, top, mid, hi)
  {
    hide SumAt, DotAt, ExpDiff;
    SumsAtJoin(e, r, top, lo, mid, hi);
    SumsMove(e, r, m, top, lo, mid);
  }

  /** One more tile: the old sums move to the new maximum `top` and the tile's are added. */
  lemma TileAbsorbed(e: real -> real, r: Row, lo: int, mid: int, hi: int, m: real, l: real, acc: real, top: real)
    requires Exponential(e) && lo <= mid <= hi
    requires Summary(e, r, lo, mid, Fin(m), l, acc)
    requires m <= top && AtMost(TileMax(r, mid, hi), Fin(top))
    requires Fin(top) == Fin(m) || Fin(top) == TileMax(r, mid, hi)
    ensures var a := ExpDiff(e, Fin(m), top);
      Summary(e, r, lo, hi, Fin(top), l * a + SumAt(e, r, top, mid, hi), acc * a + DotAt(e, r, top, mid, hi))
  {
    hide SumAt, DotAt, ExpDiff;
    SumsExtend(e, r, lo, mid, hi, m, l, acc, top);
    BoundKept(r, lo, mid, hi, Fin(m), top);
    assert top != m ==> IsScore(r, mid, hi, Fin(top));
  }

  /** The first tile: what L and acc were before counts for nothing. */
  lemma FirstTile(e: real -> real, r: Row, mid: int, hi: int, l: real, acc: real, top: real)
    ensures l * ExpDiff(e, NegInf, top) + SumAt(e, r, top, mid, hi) == SumAt(e, r, top, mid, hi)
    ensures acc * ExpDiff(e, NegInf, top) + DotAt(e, r, top, mid, hi) == DotAt(e, r, top, mid, hi)
  {
  }

  lemma BoundKept(r: Row, lo: int, mid: int, hi: int, m: Ext, top: real)
    requires lo < mid ==> forall k :: lo <= k < mid ==> AtMost(S(r, k), m)
    requires AtMost(m, Fin(top)) && AtMost(TileMax(r, mid, hi), Fin(top))
    ensures forall k :: lo <= k < hi ==> AtMost(S(r, k), Fin(top))
  {
    forall k | lo <= k < hi ensures AtMost(S(r, k), Fin(top)) {
      assert k < mid ==> AtMost(S(r, k), m);
    }
  }

  /** The loop body: one tile of keys mid..hi-1. Every exponent it takes is at most 0. */
  method Tile(e: real -> real, r: Row, ghost lo: int, mid: int, hi: int, m: Ext, l: real, acc: real)
    returns (m': Ext, l': real, acc': real)
    requires Exponential(e) && lo <= mid <= hi
    requires Summary(e, r, lo, mid, m, l, acc) || (m.NegInf? && lo == mid)
    ensures Summary(e, r, lo, hi, m', l', acc') && AtMost(m, m')
  {
    var mj := Max(m, TileMax(r, mid, hi));
    var top := if mj.Fin? then mj.v else 0.0;
    var alpha := ExpDiff(e, m, top);
    acc' := acc * alpha;
    l' := l * alpha + SumAt(e, r, top, mid, hi);
    m' := Fin(top);
    acc' := acc' + DotAt(e, r, top, mid, hi);
    hide SumAt, DotAt;
    if m.Fin? {
      TileAbsorbed(e, r, lo, mid, hi, m.v, l, acc, top);
    } else {
      FirstTile(e, r, mid, hi, l, acc, top);
      BoundKept(r, lo, mid, hi, m, top);
    }
  }

  /** The loop of both kernels over the key blocks first..last-1. */
  method Stream(e: real -> real, r: Row, blockSize: nat, first: nat, last: nat) returns (m: Ext, l: real, acc: real)
    requires Exponential(e) && blockSize > 0 && first <= last
    ensures first < last ==> Summary(e, r, first * blockSize, last * blockSize, m, l, acc)
    ensures first == last ==> m == NegInf && l == 1.0 && acc == 0.0
  {
    m, l, acc := NegInf, 1.0, 0.0;
    var j := first;
    while j < last
      invariant first <= j <= last
      invariant j == first ==> m == NegInf && l == 1.0 && acc == 0.0
      invariant j > first ==> Summary(e, r, first * blockSize, j * blockSize, m, l, acc)
    {
      TilesAscend(blockSize, first, j);
      m, l, acc := Tile(e, r, first * blockSize, j * blockSize, (j + 1) * blockSize, m, l, acc);
      j := j + 1;
    }
  }

  lemma TilesAscend(blockSize: nat, first: nat, j: nat)
    requires first <= j
    ensures first * blockSize <= j * blockSize <= (j + 1) * blockSize
  {
  }

  /** 0/0 has no value. */
  function Quotient(acc: real, l: real): Option<real> {
    if l == 0.0 then None else Some(acc / l)
  }

  lemma QuotientScales(acc: real, l: real, c: real, acc': real, l': real)
    requires c > 0.0 && acc * c == acc' && l * c == l'
    ensures Quotient(acc', l') == Quotient(acc, l)
  {
    if l != 0.0 {
      assert (acc / l) * (l * c) == acc * c;
      assert l * c != 0.0;
      assert (acc * c) / (l * c) == acc / l;
    }
  }

  /** At any reference the quotient of the two sums over all key blocks is the direct result. */
  lemma RatioIsDirect(e: real -> real, r: Row, m: real, end: int)
    requires Exponential(e) && ValidRow(r) && end >= r.seqLen
    ensures Quotient(DotAt(e, r, m, 0, end), SumAt(e, r, m, 0, end)) == Direct(e, r)
  {
    PaddingIsMasked(e, r, end);
    SumsScaled(e, r, m, 0, end);
    assert Positive(e, m);
    QuotientScales(DotAt(e, r, m, 0, end), SumAt(e, r, m, 0, end), e(m), Weight(e, r, 0, end), Mass(e, r, 0, end));
  }

  /** The two-dimensional kernel's row: all key blocks, then one division. */
  method Attend2d(e: real -> real, r: Row, blockSize: nat) returns (out: Option<real>)
    requires Exponential(e) && ValidRow(r) && blockSize > 0
    ensures out == Direct(e, r)
    ensures Stored(r) ==> out.Some?
  {
    var blocks := CeilDiv(r.seqLen, blockSize);
    var m, l, acc := Stream(e, r, blockSize, 0, blocks);
    out := Quotient(acc, l);
    PaddingIsMasked(e, r, blocks * blockSize);
    assert blocks > 0 && 0 * blockSize == 0;
    RatioIsDirect(e, r, m.v, blocks * blockSize);
    StoredRowsAreDefined(e, r);
  }

  // ---------------------------------------------------------------- segments

  /** What one segment stores for a row. */
  datatype Part = Part(m: Ext, l: real, acc: real)

  /** Key blocks per segment: the segments split the sequence evenly, rounded up to whole blocks. */
  function PerSegment(r: Row, blockSize: nat, segments: nat): (n: nat)
    requires ValidRow(r) && blockSize > 0 && segments > 0
    ensures n > 0
  {
    assert segments * blockSize > 0;
    CeilDiv(r.seqLen, segments * blockSize)
  }

  /** The number of segments `reduce_segments` reads. */
  function ActSegments(r: Row, blockSize: nat, segments: nat): (n: nat)
    requires ValidRow(r) && blockSize > 0 && segments > 0
  {
    assert PerSegment(r, blockSize, segments) * blockSize > 0;
    CeilDiv(r.seqLen, PerSegment(r, blockSize, segments) * blockSize)
  }

  /** The 3d kernel's early exit, turned around. */
  predicate Written(r: Row, blockSize: nat, segments: nat, s: nat)
    requires ValidRow(r) && blockSize > 0 && segments > 0
  {
    s * PerSegment(r, blockSize, segments) * blockSize < r.seqLen
  }

  function SegmentStart(r: Row, blockSize: nat, segments: nat, s: nat): nat
    requires ValidRow(r) && blockSize > 0 && segments > 0
  {
    s * PerSegment(r, blockSize, segments)
  }

  function SegmentEnd(r: Row, blockSize: nat, segments: nat, s: nat): nat
    requires ValidRow(r) && blockSize > 0 && segments > 0
  {
    Min((s + 1) * PerSegment(r, blockSize, segments), CeilDiv(r.seqLen, blockSize))
  }

  lemma Grouped(s: nat, n: nat, b: nat)
    ensures s * n * b == s * (n * b) == (s * n) * b
  {
  }

  /** The segments that are read are exactly those that were written, and there are no more than were launched. */
  lemma ReadIsWritten(r: Row, blockSize: nat, segments: nat, s: nat)
    requires ValidRow(r) && blockSize > 0 && segments > 0
    ensures s < ActSegments(r, blockSize, segments) <==> Written(r, blockSize, segments, s)
    ensures 0 < ActSegments(r, blockSize, segments) <= segments
  {
    var n := PerSegment(r, blockSize, segments);
    assert n * blockSize > 0;
    Grouped(s, n, blockSize);
    BelowCeil(s, r.seqLen, n * blockSize);
    BelowCeil(segments, r.seqLen, n * blockSize);
    BelowCeil(0, r.seqLen, n * blockSize);
    assert segments * (n * blockSize) == n * (segments * blockSize) >= r.seqLen;
  }

  /** A written segment has at least one key block, and takes up where the one before stopped. */
  lemma SegmentsAbut(r: Row, blockSize: nat, segments: nat, s: nat)
    requires ValidRow(r) && blockSize > 0 && segments > 0 && s < ActSegments(r, blockSize, segments)
    ensures SegmentStart(r, blockSize, segments, s) < SegmentEnd(r, blockSize, segments, s)
    ensures s > 0 ==> SegmentEnd(r, blockSize, segments, s - 1) == SegmentStart(r, blockSize, segments, s)
    ensures s + 1 == ActSegments(r, blockSize, segments) ==>
              SegmentEnd(r, blockSize, segments, s) == CeilDiv(r.seqLen, blockSize)
  {
    var n := PerSegment(r, blockSize, segments);
    ReadIsWritten(r, blockSize, segments, s);
    ReadIsWritten(r, blockSize, segments, s + 1);
    BelowCeil(s * n, r.seqLen, blockSize);
    BelowCeil((s + 1) * n, r.seqLen, blockSize);
    assert (s + 1) * n == s * n + n;
  }

  /** Every key block lies in exactly one of the segments that are read. */
  lemma EachBlockOnce(r: Row, blockSize: nat, segments: nat, j: nat) returns (s: nat)
    requires ValidRow(r) && blockSize > 0 && segments > 0 && j < CeilDiv(r.seqLen, blockSize)
    ensures s < ActSegments(r, blockSize, segments)
    ensures forall i: nat :: i < ActSegments(r, blockSize, segments) ==>
      (InSegment(r, blockSize, segments, i, j) <==> i == s)
  {
    var n := PerSegment(r, blockSize, segments);
    s := j / n;
    InGroup(j, n);
    GroupIsRead(r, blockSize, segments, j, s);
    forall i: nat ensures InSegment(r, blockSize, segments, i, j) <==> i == s {
      OnlyThatGroup(j, n, s, i);
    }
  }

  lemma InGroup(j: nat, n: nat)
    requires n > 0
    ensures j / n * n <= j < (j / n + 1) * n
  {
  }

  lemma GroupIsRead(r: Row, blockSize: nat, segments: nat, j: nat, s: nat)
    requires ValidRow(r) && blockSize > 0 && segments > 0 && j < CeilDiv(r.seqLen, blockSize)
    requires s * PerSegment(r, blockSize, segments) <= j
    ensures s < ActSegments(r, blockSize, segments)
  {
    BelowCeil(j, r.seqLen, blockSize);
    Multiples(s * PerSegment(r, blockSize, segments), j, blockSize);
    ReadIsWritten(r, blockSize, segments, s);
  }

  lemma OnlyThatGroup(j: nat, n: nat, s: nat, i: nat)
    requires s * n <= j < (s + 1) * n
    ensures i * n <= j < (i + 1) * n <==> i == s
  {
    if i < s {
      Multiples(i + 1, s, n);
    } else if i > s {
      Multiples(s + 1, i, n);
    }
  }

  predicate InSegment(r: Row, blockSize: nat, segments: nat, i: nat, j: nat)
    requires ValidRow(r) && blockSize > 0 && segments > 0
  {
    SegmentStart(r, blockSize, segments, i) <= j < SegmentEnd(r, blockSize, segments, i)
  }

  // ---------------------------------------------------------------- reducing the segments

  /** The buffer's entry of segment i summarises that segment's keys. */
  ghost predicate PartOk(e: real -> real, r: Row, blockSize: nat, segments: nat, i: nat, p: Part)
    requires ValidRow(r) && blockSize > 0 && segments > 0
  {
    Summary(e, r, SegmentStart(r, blockSize, segments, i) * blockSize,
            SegmentEnd(r, blockSize, segments, i) * blockSize, p.m, p.l, p.acc)
  }

  /** One program of the 3d kernel: it leaves early, or stores its segment's three results. */
  method Segment(e: real -> real, r: Row, blockSize: nat, segments: nat, s: nat, buf: array<Part>)
    requires Exponential(e) && ValidRow(r) && blockSize > 0 && s < segments == buf.Length
    modifies buf
    ensures forall i :: 0 <= i < buf.Length && i != s ==> buf[i] == old(buf[i])
    ensures Stored(r) && s < ActSegments(r, blockSize, segments) ==> PartOk(e, r, blockSize, segments, s, buf[s])
    ensures !(Stored(r) && s < ActSegments(r, blockSize, segments)) ==> buf[s] == old(buf[s])
  {
    var perSegment := PerSegment(r, blockSize, segments);
    ReadIsWritten(r, blockSize, segments, s);
    if s * perSegment * blockSize >= r.seqLen {
      return;
    }
    SegmentsAbut(r, blockSize, segments, s);
    var first, last := s * perSegment, Min((s + 1) * perSegment, CeilDiv(r.seqLen, blockSize));
    var m, l, acc := Stream(e, r, blockSize, first, last);
    if Stored(r) {
      buf[s] := Part(m, l, acc);
    }
  }

  /** A masked load of one entry. */
  function LoadPart(buf: seq<Part>, act: nat, i: nat): Part
    requires i < |buf|
  {
    if i < act then buf[i] else Part(NegInf, 0.0, 0.0)
  }

  function OverallMax(buf: seq<Part>, act: nat, n: nat): Ext
    requires n <= |buf|
  {
    if n == 0 then NegInf else Max(OverallMax(buf, act, n - 1), LoadPart(buf, act, n - 1).m)
  }

  function OverallSum(e: real -> real, buf: seq<Part>, act: nat, top: real, n: nat): real
    requires n <= |buf|
  {
    if n == 0 then 0.0
    else
      var p := LoadPart(buf, act, n - 1);
      OverallSum(e, buf, act, top, n - 1) + p.l * ExpDiff(e, p.m, top)
  }

  function OverallAcc(e: real -> real, buf: seq<Part>, act: nat, top: real, n: nat): real
    requires n <= |buf|
  {
    if n == 0 then 0.0
    else
      var p := LoadPart(buf, act, n - 1);
      OverallAcc(e, buf, act, top, n - 1) + p.acc * ExpDiff(e, p.m, top)
  }

  ghost predicate PartsOk(e: real -> real, r: Row, blockSize: nat, buf: seq<Part>)
    requires ValidRow(r) && blockSize > 0 && |buf| > 0
  {
    forall i: nat :: i < ActSegments(r, blockSize, |buf|) && i < |buf| ==> PartOk(e, r, blockSize, |buf|, i, buf[i])
  }

  /** The first n segments, moved to one reference, add up to the keys before the n-th segment's end. */
  lemma {:induction false} PartsAddUp(e: real -> real, r: Row, blockSize: nat, buf: seq<Part>, top: real, n: nat)
    requires Exponential(e) && ValidRow(r) && blockSize > 0 && |buf| > 0 && PartsOk(e, r, blockSize, buf)
    requires 0 < n <= ActSegments(r, blockSize, |buf|) && n <= |buf|
    ensures var end, act := SegmentEnd(r, blockSize, |buf|, n - 1) * blockSize, ActSegments(r, blockSize, |buf|);
      OverallSum(e, buf, act, top, n) == SumAt(e, r, top, 0, end) &&
      OverallAcc(e, buf, act, top, n) == DotAt(e, r, top, 0, end)
  {
    var act, i := ActSegments(r, blockSize, |buf|), n - 1;
    SegmentsAbut(r, blockSize, |buf|, i);
    var lo, hi := SegmentStart(r, blockSize, |buf|, i) * blockSize, SegmentEnd(r, blockSize, |buf|, i) * blockSize;
    assert PartOk(e, r, blockSize, |buf|, i, buf[i]);
    Multiples(SegmentStart(r, blockSize, |buf|, i), SegmentEnd(r, blockSize, |buf|, i), blockSize);
    if i > 0 {
      PartsAddUp(e, r, blockSize, buf, top, i);
    } else {
      NoPartsYet(e, buf, act, top);
      assert lo == 0;
    }
    NextPart(e, r, buf, act, top, i, lo, hi);
  }

  lemma NextPart(e: real -> real, r: Row, buf: seq<Part>, act: nat, top: real, i: nat, lo: nat, hi: nat)
    requires Exponential(e) && i < act && i < |buf| && lo <= hi
    requires Summary(e, r, lo, hi, buf[i].m, buf[i].l, buf[i].acc)
    requires OverallSum(e, buf, act, top, i) == SumAt(e, r, top, 0, lo)
    requires OverallAcc(e, buf, act, top, i) == DotAt(e, r, top, 0, lo)
    ensures OverallSum(e, buf, act, top, i + 1) == SumAt(e, r, top, 0, hi)
    ensures OverallAcc(e, buf, act, top, i + 1) == DotAt(e, r, top, 0, hi)
  {
    hide SumAt, DotAt, ExpDiff;
    PartMoves(e, r, lo, hi, buf[i], top);
    SumsAtJoin(e, r, top, 0, lo, hi);
  }

  lemma NoPartsYet(e: real -> real, buf: seq<Part>, act: nat, top: real)
    ensures OverallSum(e, buf, act, top, 0) == 0.0 && OverallAcc(e, buf, act, top, 0) == 0.0
  {
  }

  lemma PartMoves(e: real -> real, r: Row, lo: int, hi: int, p: Part, top: real)
    requires Exponential(e) && Summary(e, r, lo, hi, p.m, p.l, p.acc)
    ensures p.l * ExpDiff(e, p.m, top) == SumAt(e, r, top, lo, hi)
    ensures p.acc * ExpDiff(e, p.m, top) == DotAt(e, r, top, lo, hi)
  {
    hide SumAt, DotAt, ExpDiff;
    SumsMove(e, r, p.m.v, top, lo, hi);
  }

  /** Segments that were not written add nothing: their loads are masked. */
  lemma {:induction false} MaskedParts(e: real -> real, buf: seq<Part>, act: nat, top: real, n: nat)
    requires act <= n <= |buf|
    ensures OverallSum(e, buf, act, top, n) == OverallSum(e, buf, act, top, act)
    ensures OverallAcc(e, buf, act, top, n) == OverallAcc(e, buf, act, top, act)
  {
    if act < n {
      MaskedParts(e, buf, act, top, n - 1);
    }
  }

  lemma {:induction false} MaxIsFinite(buf: seq<Part>, act: nat, n: nat)
    requires 0 < n <= |buf| && 0 < act && buf[0].m.Fin?
    ensures OverallMax(buf, act, n).Fin?
    ensures forall i :: 0 <= i < n && i < act ==> AtMost(buf[i].m, OverallMax(buf, act, n))
  {
    if n > 1 {
      MaxIsFinite(buf, act, n - 1);
    }
  }

  /** One program of `reduce_segments`: whatever the unwritten entries hold, the result is the direct one. */
  method Reduce(e: real -> real, r: Row, blockSize: nat, buf: seq<Part>) returns (out: real)
    requires Exponential(e) && ValidRow(r) && Stored(r) && blockSize > 0 && |buf| > 0
    requires PartsOk(e, r, blockSize, buf)
    ensures Some(out) == Direct(e, r)
  {
    var act := ActSegments(r, blockSize, |buf|);
    ReadIsWritten(r, blockSize, |buf|, 0);
    SegmentsAbut(r, blockSize, |buf|, act - 1);
    assert PartOk(e, r, blockSize, |buf|, 0, buf[0]);
    MaxIsFinite(buf, act, |buf|);
    var top := OverallMax(buf, act, |buf|).v;
    var expSum := OverallSum(e, buf, act, top, |buf|);
    var accSum := OverallAcc(e, buf, act, top, |buf|);
    out := if expSum == 0.0 then 0.0 else accSum / expSum;
    MaskedParts(e, buf, act, top, |buf|);
    PartsAddUp(e, r, blockSize, buf, top, act);
    RatioIsDirect(e, r, top, CeilDiv(r.seqLen, blockSize) * blockSize);
    StoredRowsAreDefined(e, r);
  }

  /** The split form: the segments run in any order over an uninitialised buffer, then they are reduced. */
  method Attend3d(e: real -> real, r: Row, blockSize: nat, order: seq<nat>, buf: array<Part>) returns (out: real)
    requires Exponential(e) && ValidRow(r) && Stored(r) && blockSize > 0 && buf.Length > 0
    requires forall s :: 0 <= s < buf.Length ==> s in order
    requires forall i :: 0 <= i < |order| ==> order[i] < buf.Length
    modifies buf
    ensures Some(out) == Direct(e, r)
  {
    var act := ActSegments(r, blockSize, buf.Length);
    var k := 0;
    while k < |order|
      invariant 0 <= k <= |order|
      invariant forall i: nat :: i < act && i in order[..k] && i < buf.Length ==> PartOk(e, r, blockSize, buf.Length, i, buf[i])
    {
      Segment(e, r, blockSize, buf.Length, order[k], buf);
      assert order[..k + 1] == order[..k] + [order[k]];
      k := k + 1;
    }
    assert order[..k] == order;
    out := Reduce(e, r, blockSize, buf[..]);
  }
}
