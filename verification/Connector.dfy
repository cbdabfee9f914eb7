/**
 The scheduler side of the connector: block hashes chained over a request's prefix, the look-up that
 decides how many blocks are loaded, and the dispatch of loads and dumps chunk by chunk. The
 hasher is any function without collisions; the store answers look-ups only with what was dumped.
 */
module Connector {
  import opened Arithmetic

  type Key = nat
  type Tokens = seq<int>
  type Hasher = (Key, Tokens) -> Key

  // ---------------------------------------------------------------- hash chain

  predicate SameInput(h: Hasher, k: Key, b: Tokens, k': Key, b': Tokens) {
    h(k, b) == h(k', b') ==> k == k' && b == b'
  }

  predicate NotSeed(h: Hasher, seed: Key, k: Key, b: Tokens) {
    h(k, b) != seed
  }

  /** Collision-free, the seed included: it is the hash of something that is not a block. */
  ghost predicate CollisionFree(h: Hasher, seed: Key) {
    && (forall k, b, k', b' :: SameInput(h, k, b, k', b'))
    && (forall k, b :: NotSeed(h, seed, k, b))
  }

  function Blocks(n: nat, size: nat): (b: nat)
    requires size > 0
    ensures b * size <= n < (b + 1) * size
  {
    n / size
  }

  lemma BlockBounds(n: nat, size: nat, i: nat)
    requires size > 0
    ensures i < n / size <==> (i + 1) * size <= n
    ensures i * size <= (i + 1) * size == i * size + size
  {
    Multiples(i, n / size, size);
    Multiples(n / size, i, size);
  }

  /** The key of block i: the hash of the key before it and its tokens. */
  function KeyAt(h: Hasher, seed: Key, size: nat, tokens: Tokens, i: nat): Key
    requires size > 0 && (i + 1) * size <= |tokens|
  {
    BlockBounds(|tokens|, size, i);
    var block := tokens[i * size..(i + 1) * size];
    if i == 0 then h(seed, block) else h(KeyAt(h, seed, size, tokens, i - 1), block)
  }

  /** `generate_hash`: the keys of the full blocks. */
  ghost predicate IsKeys(h: Hasher, seed: Key, size: nat, tokens: Tokens, ids: seq<Key>)
    requires size > 0
  {
    && |ids| == Blocks(|tokens|, size)
    && forall i: nat :: i < |ids| ==> KeyIs(h, seed, size, tokens, i, ids[i])
  }

  predicate KeyIs(h: Hasher, seed: Key, size: nat, tokens: Tokens, i: nat, k: Key)
    requires size > 0
  {
    (i + 1) * size <= |tokens| && k == KeyAt(h, seed, size, tokens, i)
  }

  method GenerateHash(h: Hasher, size: nat, tokens: Tokens, seed: Key) returns (ids: seq<Key>)
    requires size > 0
    ensures IsKeys(h, seed, size, tokens, ids)
  {
    ids := [];
    var parent := seed;
    var start: nat := 0;
    while start < |tokens|
      invariant start == |ids| * size
      invariant |ids| <= Blocks(|tokens|, size)
      invariant |ids| > 0 ==> ids[|ids| - 1] == parent
      invariant |ids| == 0 ==> parent == seed
      invariant forall i: nat :: i < |ids| ==> KeyIs(h, seed, size, tokens, i, ids[i])
      decreases |tokens| - start
    {
      BlockBounds(|tokens|, size, |ids|);
      if start + size > |tokens| {
        break;
      }
      parent := h(parent, tokens[start..start + size]);
      ids := ids + [parent];
      start := start + size;
    }
    BlockBounds(|tokens|, size, |ids|);
  }

  function Prefix(tokens: Tokens, size: nat, i: nat): Tokens
    requires (i + 1) * size <= |tokens|
  {
    tokens[..(i + 1) * size]
  }

  function KeyBefore(h: Hasher, seed: Key, size: nat, tokens: Tokens, i: nat): Key
    requires size > 0 && (i + 1) * size <= |tokens|
  {
    BlockBounds(|tokens|, size, i);
    if i == 0 then seed else KeyAt(h, seed, size, tokens, i - 1)
  }

  function BlockAt(tokens: Tokens, size: nat, i: nat): Tokens
    requires size > 0 && (i + 1) * size <= |tokens|
  {
    BlockBounds(|tokens|, size, i);
    tokens[i * size..(i + 1) * size]
  }

  /** Equal keys have equal blocks behind them and equal keys before them, or both are first. */
  lemma Peel(h: Hasher, seed: Key, size: nat, a: Tokens, i: nat, b: Tokens, j: nat)
    requires CollisionFree(h, seed) && size > 0 && (i + 1) * size <= |a| && (j + 1) * size <= |b|
    requires KeyAt(h, seed, size, a, i) == KeyAt(h, seed, size, b, j)
    ensures BlockAt(a, size, i) == BlockAt(b, size, j) && (i == 0 <==> j == 0)
    ensures KeyBefore(h, seed, size, a, i) == KeyBefore(h, seed, size, b, j)
  {
    BlockBounds(|a|, size, i);
    BlockBounds(|b|, size, j);
    assert SameInput(h, KeyBefore(h, seed, size, a, i), BlockAt(a, size, i),
                     KeyBefore(h, seed, size, b, j), BlockAt(b, size, j));
    if i > 0 {
      KeyIsNotSeed(h, seed, size, a, i - 1);
    }
    if j > 0 {
      KeyIsNotSeed(h, seed, size, b, j - 1);
    }
  }

  /** Equal keys come from equal prefixes, at the same position. */
  lemma {:induction false} SameKeySamePrefix(h: Hasher, seed: Key, size: nat, a: Tokens, i: nat, b: Tokens, j: nat)
    requires CollisionFree(h, seed) && size > 0 && (i + 1) * size <= |a| && (j + 1) * size <= |b|
    requires KeyAt(h, seed, size, a, i) == KeyAt(h, seed, size, b, j)
    ensures i == j && Prefix(a, size, i) == Prefix(b, size, j)
    decreases i
  {
    Peel(h, seed, size, a, i, b, j);
    BlockBounds(|a|, size, i);
    BlockBounds(|b|, size, j);
    hide CollisionFree, KeyAt;
    if i > 0 && j > 0 {
      SameKeySamePrefix(h, seed, size, a, i - 1, b, j - 1);
    }
    PrefixSplits(a, size, i);
    PrefixSplits(b, size, j);
  }

  /** And equal prefixes have equal keys, whatever follows them. */
  lemma {:induction false} SamePrefixSameKey(h: Hasher, seed: Key, size: nat, a: Tokens, b: Tokens, i: nat)
    requires size > 0 && SamePrefix(a, b, size, i)
    ensures KeyAt(h, seed, size, a, i) == KeyAt(h, seed, size, b, i)
    decreases i
  {
    BlockBounds(|a|, size, i);
    BlockBounds(|b|, size, i);
    PrefixSplits(a, size, i);
    PrefixSplits(b, size, i);
    SamePrefixCut(a, b, size, i);
    if i > 0 {
      SamePrefixSameKey(h, seed, size, a, b, i - 1);
    }
  }

  lemma SamePrefixCut(a: Tokens, b: Tokens, size: nat, i: nat)
    requires size > 0 && SamePrefix(a, b, size, i)
    ensures BlockAt(a, size, i) == BlockAt(b, size, i) && (i > 0 ==> SamePrefix(a, b, size, i - 1))
  {
    BlockBounds(|a|, size, i);
    var n, lo := (i + 1) * size, i * size;
    assert BlockAt(a, size, i) == Prefix(a, size, i)[lo..n];
    assert BlockAt(b, size, i) == Prefix(b, size, i)[lo..n];
    if i > 0 {
      assert Prefix(a, size, i - 1) == Prefix(a, size, i)[..lo];
      assert Prefix(b, size, i - 1) == Prefix(b, size, i)[..lo];
    }
  }

  /** Keys say exactly which position of which prefix they stand for. */
  lemma KeysExact(h: Hasher, seed: Key, size: nat, a: Tokens, i: nat, b: Tokens, j: nat)
    requires CollisionFree(h, seed) && size > 0 && (i + 1) * size <= |a| && (j + 1) * size <= |b|
    ensures KeyAt(h, seed, size, a, i) == KeyAt(h, seed, size, b, j) <==> i == j && SamePrefix(a, b, size, i)
  {
    if KeyAt(h, seed, size, a, i) == KeyAt(h, seed, size, b, j) {
      SameKeySamePrefix(h, seed, size, a, i, b, j);
    }
    if i == j && SamePrefix(a, b, size, i) {
      SamePrefixSameKey(h, seed, size, a, b, i);
    }
  }

  lemma KeyIsNotSeed(h: Hasher, seed: Key, size: nat, tokens: Tokens, i: nat)
    requires CollisionFree(h, seed) && size > 0 && (i + 1) * size <= |tokens|
    ensures KeyAt(h, seed, size, tokens, i) != seed
  {
    BlockBounds(|tokens|, size, i);
    var block := tokens[i * size..(i + 1) * size];
    assert NotSeed(h, seed, if i == 0 then seed else KeyAt(h, seed, size, tokens, i - 1), block);
  }

  lemma PrefixSplits(tokens: Tokens, size: nat, i: nat)
    requires (i + 1) * size <= |tokens| && size > 0
    ensures i * size <= (i + 1) * size
    ensures Prefix(tokens, size, i) ==
      (if i == 0 then [] else Prefix(tokens, size, i - 1)) + BlockAt(tokens, size, i)
  {
    BlockBounds(|tokens|, size, i);
  }

  // ---------------------------------------------------------------- requests

  datatype RequestMeta = RequestMeta(
    ids: seq<Key>, hbmHit: nat, totalHit: nat, numTokens: nat, vllmIds: seq<nat>, processed: nat)

  /** A record of a dump: block `pos` of a request with these tokens. */
  datatype Dump = Dump(tokens: Tokens, pos: nat)

  /** A slice that stops at the end of the list. */
  function Slice<T>(s: seq<T>, lo: nat, hi: nat): seq<T> {
    if lo >= hi || lo >= |s| then [] else s[lo..Min(hi, |s|)]
  }

  function Range(lo: nat, hi: nat): seq<nat> {
    if lo >= hi then [] else seq(hi - lo, i requires i >= 0 => lo + i)
  }

  lemma RangesJoin(lo: nat, mid: nat, hi: nat)
    requires lo <= mid <= hi
    ensures Range(lo, mid) + Range(mid, hi) == Range(lo, hi)
  {
  }

  /** Some request dumped block i of these very tokens. */
  ghost predicate WasDumped(dumps: set<Dump>, size: nat, tokens: Tokens, i: nat) {
    exists d :: d in dumps && d.pos == i && SamePrefix(d.tokens, tokens, size, i)
  }

  predicate SamePrefix(a: Tokens, b: Tokens, size: nat, i: nat) {
    (i + 1) * size <= |a| && (i + 1) * size <= |b| && Prefix(a, size, i) == Prefix(b, size, i)
  }

  /** The store has a key only because some block with that key was dumped. */
  ghost predicate Answered(dumps: set<Dump>, h: Hasher, seed: Key, size: nat, k: Key)
    requires size > 0
  {
    exists d :: d in dumps && KeyIs(h, seed, size, d.tokens, d.pos, k)
  }

  lemma HitWasDumped(dumps: set<Dump>, h: Hasher, seed: Key, size: nat, tokens: Tokens, i: nat, k: Key)
    requires CollisionFree(h, seed) && size > 0 && KeyIs(h, seed, size, tokens, i, k) && Answered(dumps, h, seed, size, k)
    ensures WasDumped(dumps, size, tokens, i)
  {
    var d :| d in dumps && KeyIs(h, seed, size, d.tokens, d.pos, k);
    SameKeySamePrefix(h, seed, size, d.tokens, d.pos, tokens, i);
    assert SamePrefix(d.tokens, tokens, size, i);
  }

  /** A block that some request dumped has a key that the store was given. */
  lemma DumpedIsGiven(stored: set<Key>, dumps: set<Dump>, h: Hasher, seed: Key, size: nat, tokens: Tokens, i: nat)
    requires size > 0 && (i + 1) * size <= |tokens| && WasDumped(dumps, size, tokens, i)
    requires GivenAll(stored, dumps, h, seed, size)
    ensures KeyAt(h, seed, size, tokens, i) in stored
  {
    var d :| d in dumps && d.pos == i && SamePrefix(d.tokens, tokens, size, i);
    assert Given(stored, d, h, seed, size);
    SamePrefixSameKey(h, seed, size, d.tokens, tokens, i);
  }

  predicate Given(stored: set<Key>, d: Dump, h: Hasher, seed: Key, size: nat)
    requires size > 0
  {
    (d.pos + 1) * size <= |d.tokens| && KeyAt(h, seed, size, d.tokens, d.pos) in stored
  }

  ghost predicate GivenAll(stored: set<Key>, dumps: set<Dump>, h: Hasher, seed: Key, size: nat)
    requires size > 0
  {
    forall d :: d in dumps ==> Given(stored, d, h, seed, size)
  }

  /** The keys the store was given are exactly those of the blocks dumped. */
  ghost predicate StoreOk(stored: set<Key>, dumps: set<Dump>, h: Hasher, seed: Key, size: nat)
    requires size > 0
  {
    GivenAll(stored, dumps, h, seed, size) && forall k :: k in stored ==> Answered(dumps, h, seed, size, k)
  }

  /** How far a request's dumps reach: to the full blocks among the processed tokens. */
  function DumpedTo(m: RequestMeta, size: nat): nat
    requires size > 0
  {
    Min(Blocks(m.processed, size), |m.ids|)
  }

  /** What is known of a tracked request; `tiled` lists the positions it dumped, in order. */
  ghost predicate MetaOk(m: RequestMeta, tokens: Tokens, tiled: seq<nat>, dumps: set<Dump>, h: Hasher,
                         seed: Key, size: nat)
    requires size > 0
  {
    && IsKeys(h, seed, size, tokens, m.ids) && m.numTokens == |tokens|
    && m.hbmHit <= m.totalHit <= DumpedTo(m, size)
    && tiled == Range(m.totalHit, DumpedTo(m, size))
    && (forall i: nat :: m.hbmHit <= i < m.totalHit ==> WasDumped(dumps, size, tokens, i))
  }

  lemma MoreDumps(m: RequestMeta, tokens: Tokens, tiled: seq<nat>, dumps: set<Dump>, more: set<Dump>,
                  h: Hasher, seed: Key, size: nat)
    requires size > 0 && MetaOk(m, tokens, tiled, dumps, h, seed, size) && dumps <= more
    ensures MetaOk(m, tokens, tiled, more, h, seed, size)
  {
    forall i: nat | m.hbmHit <= i < m.totalHit ensures WasDumped(more, size, tokens, i) {
      assert WasDumped(dumps, size, tokens, i);
    }
  }

  ghost predicate MetasOk(metas: map<nat, RequestMeta>, history: map<nat, (Tokens, seq<nat>)>, dumps: set<Dump>,
                          h: Hasher, seed: Key, size: nat)
    requires size > 0
  {
    forall id :: id in metas ==> id in history && MetaOk(metas[id], history[id].0, history[id].1, dumps, h, seed, size)
  }

  lemma MetasKept(metas: map<nat, RequestMeta>, history: map<nat, (Tokens, seq<nat>)>, dumps: set<Dump>, more: set<Dump>,
                  h: Hasher, seed: Key, size: nat)
    requires size > 0 && MetasOk(metas, history, dumps, h, seed, size) && dumps <= more
    ensures MetasOk(metas, history, more, h, seed, size)
  {
    forall id | id in metas ensures MetaOk(metas[id], history[id].0, history[id].1, more, h, seed, size) {
      MoreDumps(metas[id], history[id].0, history[id].1, dumps, more, h, seed, size);
    }
  }

  /** One dispatch moves the end of the dumped positions from the old to the new count of full blocks. */
  lemma DispatchExtends(m: RequestMeta, size: nat, more: nat)
    requires size > 0 && m.processed < m.numTokens && |m.ids| == Blocks(m.numTokens, size)
    requires m.totalHit <= DumpedTo(m, size)
    ensures var m' := m.(processed := m.processed + more);
      var lo, hi := Blocks(m.processed, size), Blocks(m.processed + more, size);
      && lo == DumpedTo(m, size) <= DumpedTo(m', size) <= hi
      && Slice(m.ids, lo, hi) == m.ids[lo..DumpedTo(m', size)]
      && Range(m.totalHit, DumpedTo(m, size)) + Range(lo, DumpedTo(m', size)) == Range(m.totalHit, DumpedTo(m', size))
      && DumpedTo(m', size) * size <= m'.processed
      && (m'.processed >= m.numTokens ==> DumpedTo(m', size) == |m.ids|)
  {
    var m' := m.(processed := m.processed + more);
    QuotientsAscend(m.processed, m'.processed, size);
    QuotientsAscend(m.processed, m.numTokens, size);
    if m'.processed >= m.numTokens {
      QuotientsAscend(m.numTokens, m'.processed, size);
    }
    Multiples(DumpedTo(m', size), Blocks(m'.processed, size), size);
    RangesJoin(m.totalHit, DumpedTo(m, size), DumpedTo(m', size));
  }

  /** What a look-up records, and returns, for a request with a full block beyond the computed ones. */
  ghost predicate LookedUp(m: RequestMeta, tokens: Tokens, numComputed: nat, hits: seq<bool>, external: int, size: nat)
    requires size > 0
  {
    && m.hbmHit == numComputed / size && m.vllmIds == [] && m.numTokens == |tokens|
    && m.processed == m.totalHit * size <= |tokens|
    && LongestPrefix(hits, m.totalHit - m.hbmHit)
    && external == (m.totalHit - m.hbmHit) * size - (if m.totalHit * size == |tokens| then 1 else 0)
    && external >= 0
  }

  /** What one dispatch loads and dumps. */
  ghost predicate Dispatched(m: RequestMeta, m': RequestMeta, newTokens: nat, vllmIds: seq<nat>, needLoad: bool,
                             load: (seq<Key>, seq<nat>), dump: (seq<Key>, seq<nat>), size: nat)
    requires size > 0 && m.hbmHit <= m.totalHit <= DumpedTo(m, size)
  {
    && m' == m.(vllmIds := m.vllmIds + vllmIds,
                processed := if m.processed < m.numTokens then m.processed + newTokens else m.processed)
    && load == (if needLoad then (m.ids[m.hbmHit..m.totalHit], Slice(vllmIds, m.hbmHit, m.totalHit)) else ([], []))
    && DumpedTo(m, size) <= DumpedTo(m', size) && DumpedTo(m', size) * size <= m'.processed
    && dump.0 == m.ids[DumpedTo(m, size)..DumpedTo(m', size)]
    && (Blocks(m'.processed, size) <= Min(|m.ids|, |m'.vllmIds|) && m.processed < m.numTokens ==>
          dump.1 == m'.vllmIds[DumpedTo(m, size)..DumpedTo(m', size)])
    && (m.processed < m.numTokens ==> Upto(dump.1, m'.vllmIds, Blocks(m.processed, size), Blocks(m'.processed, size)))
    && (m.processed >= m.numTokens ==> dump == ([], []))
    && (m'.processed >= m.numTokens ==> DumpedTo(m', size) == |m.ids|)
  }

  /** The entries of `all` at the positions from `lo` to below `hi`, as far as there are any. */
  predicate Upto(part: seq<nat>, all: seq<nat>, lo: nat, hi: nat) {
    && lo + |part| <= Max(|all|, lo) && |part| <= Max(hi, lo) - lo
    && (lo + |part| < hi ==> lo + |part| >= |all|)
    && forall k :: 0 <= k < |part| && lo + k < |all| ==> part[k] == all[lo + k]
  }

  function Max(a: nat, b: nat): nat {
    if a < b then b else a
  }

  function Dumping(m: RequestMeta, newTokens: nat, vllmIds: seq<nat>, size: nat): (dump: (seq<Key>, seq<nat>))
    requires size > 0
  {
    if m.processed < m.numTokens then
      var start, end := m.processed / size, (m.processed + newTokens) / size;
      (Slice(m.ids, start, end), Slice(m.vllmIds + vllmIds, start, end))
    else
      ([], [])
  }

  lemma DispatchOk(m: RequestMeta, newTokens: nat, vllmIds: seq<nat>, needLoad: bool, size: nat)
    requires size > 0 && |m.ids| == Blocks(m.numTokens, size) && m.hbmHit <= m.totalHit <= DumpedTo(m, size)
    ensures
      var m' := m.(vllmIds := m.vllmIds + vllmIds,
                   processed := if m.processed < m.numTokens then m.processed + newTokens else m.processed);
      var load := if needLoad then (m.ids[m.hbmHit..m.totalHit], Slice(vllmIds, m.hbmHit, m.totalHit)) else ([], []);
      && Dispatched(m, m', newTokens, vllmIds, needLoad, load, Dumping(m, newTokens, vllmIds, size), size)
      && Range(m.totalHit, DumpedTo(m, size)) + Range(DumpedTo(m, size), DumpedTo(m', size))
         == Range(m.totalHit, DumpedTo(m', size))
  {
    if m.processed < m.numTokens {
      DispatchExtends(m, size, newTokens);
    } else {
      FinishedTiling(m, size);
    }
  }

  class Scheduler {
    const h: Hasher
    const seed: Key
    const size: nat
    var metas: map<nat, RequestMeta>
    /** The tokens and the dumped positions of each tracked request, every dump so far, and the keys it gave to the store. */
    ghost var history: map<nat, (Tokens, seq<nat>)>
    ghost var dumps: set<Dump>
    ghost var stored: set<Key>

    ghost predicate Valid()
      reads this
    {
      && size > 0 && CollisionFree(h, seed) && StoreOk(stored, dumps, h, seed, size)
      && MetasOk(metas, history, dumps, h, seed, size)
    }

    constructor (hasher: Hasher, start: Key, blockSize: nat)
      requires blockSize > 0 && CollisionFree(hasher, start)
      ensures Valid() && metas == map[] && dumps == {} && stored == {}
    {
      h, seed, size := hasher, start, blockSize;
      metas, history, dumps, stored := map[], map[], {}, {};
    }

    /**
     The look-up of a new request. `hits` are the store's answers for the blocks after the computed
     ones; none at all when the look-up failed. Every block counted as hit was dumped by a
     request with the same tokens up to and including that block; and if the store answers for all
     that it was given, every such block up to the first that was never dumped is counted.
     */
    method GetNumNewMatchedTokens(id: nat, tokens: Tokens, numComputed: nat, hits: seq<bool>) returns (external: int)
      requires Valid() && numComputed % size == 0
      requires HitsAnswered(stored, h, seed, size, tokens, numComputed / size, hits)
      modifies this
      ensures Valid() && dumps == old(dumps) && stored == old(stored)
      ensures Blocks(|tokens|, size) <= numComputed / size ==> external == 0 && metas == old(metas)
      ensures Blocks(|tokens|, size) > numComputed / size ==>
          && id in metas && metas == old(metas)[id := metas[id]] && history == old(history)[id := (tokens, [])]
          && LookedUp(metas[id], tokens, numComputed, hits, external, size)
      ensures Blocks(|tokens|, size) > numComputed / size ==>
        id in metas && (HitsComplete(stored, h, seed, size, tokens, numComputed / size, hits) ==>
          CountsAll(metas[id], dumps, size, tokens))
    {
      var hbmHit := numComputed / size;
      var ids := GenerateHash(h, size, tokens, seed);
      assert |ids| == Blocks(|tokens|, size);
      hide CollisionFree, IsKeys, MetaOk, HitsAnswered;
      if hbmHit >= |ids| {
        return 0;
      }
      var hitBlocks := CountHits(hits);
      var totalHit := hbmHit + hitBlocks;
      external := hitBlocks * size;
      if totalHit * size == |tokens| {
        external := external - 1;
      }
      var m := RequestMeta(ids, hbmHit, totalHit, |tokens|, [], totalHit * size);
      hide LookedUp, LongestPrefix, Blocks, StoreOk, HitsComplete, CountsAll;
      HitsFromStore(stored, dumps, h, seed, size, tokens, hbmHit, hits);
      NewRequestOk(m, tokens, numComputed, hits, hitBlocks, dumps, h, seed, size);
      AllCounted(m, stored, dumps, h, seed, size, tokens, hits);
      metas := metas[id := m];
      history := history[id := (tokens, [])];
    }

    /**
     One scheduling step of a tracked request. What it loads was dumped for the same tokens; what it
     dumps continues where the dumps so far stopped, and holds no unfinished block.
     */
    method GenerateDispatchMeta(id: nat, newTokens: nat, vllmIds: seq<nat>, needLoad: bool)
      returns (load: (seq<Key>, seq<nat>), dump: (seq<Key>, seq<nat>))
      requires Valid() && id in metas
      modifies this
      ensures Valid() && old(dumps) <= dumps && id in metas && id in old(history)
      ensures metas == old(metas)[id := metas[id]] && stored == old(stored) + (set k | k in dump.0)
      ensures dumps == old(dumps)
        + DumpsOf(old(history)[id].0, DumpedTo(old(metas[id]), size), DumpedTo(metas[id], size))
      ensures
        var m, tokens := old(metas[id]), old(history)[id].0;
        && m.hbmHit <= m.totalHit <= DumpedTo(m, size)
        && Dispatched(m, metas[id], newTokens, vllmIds, needLoad, load, dump, size)
        && IsKeys(h, seed, size, tokens, m.ids)
        && (forall i: nat :: m.hbmHit <= i < m.totalHit ==> WasDumped(old(dumps), size, tokens, i))
      ensures history == old(history)[id := (old(history)[id].0,
          old(history)[id].1 + Range(DumpedTo(old(metas[id]), size), DumpedTo(metas[id], size)))]
      ensures metas[id].processed >= metas[id].numTokens ==>
          id in history && history[id].1 == Range(metas[id].totalHit, Blocks(metas[id].numTokens, size))
    {
      hide CollisionFree, IsKeys, WasDumped;
      var m := metas[id];
      KnownRequest(m, history[id].0, history[id].1, dumps, h, seed, size);
      DispatchOk(m, newTokens, vllmIds, needLoad, size);
      load, dump := ([], []), Dumping(m, newTokens, vllmIds, size);
      var m' := m.(vllmIds := m.vllmIds + vllmIds);
      if needLoad {
        load := (m.ids[m.hbmHit..m.totalHit], Slice(vllmIds, m.hbmHit, m.totalHit));
      }
      if m.processed < m.numTokens {
        m' := m'.(processed := m.processed + newTokens);
      }
      ghost var tokens, lo, hi := history[id].0, DumpedTo(m, size), DumpedTo(m', size);
      ghost var more := dumps + DumpsOf(tokens, lo, hi);
      StoreGrows(stored, dumps, h, seed, size, tokens, m.ids, lo, hi);
      assert dump.0 == m.ids[lo..hi];
      stored := stored + (set k | k in dump.0);
      hide StoreOk;
      MetasKept(metas, history, dumps, more, h, seed, size);
      dumps := more;
      hide MetaOk, Dispatched, Dumping, Range, DumpedTo;
      StillOk(m, m', tokens, history[id].1, more, h, seed, size);
      metas := metas[id := m'];
      history := history[id := (tokens, history[id].1 + Range(lo, hi))];
    }

    /** A finished request is forgotten. */
    method Finish(id: nat)
      requires Valid()
      modifies this
      ensures Valid() && metas == old(metas) - {id} && dumps == old(dumps) && stored == old(stored)
    {
      metas := metas - {id};
    }
  }

  /** The blocks from `lo` to below `hi` of a request. */
  ghost function DumpsOf(tokens: Tokens, lo: nat, hi: nat): set<Dump> {
    set i: nat | lo <= i < hi :: Dump(tokens, i)
  }

  lemma StoreGrows(stored: set<Key>, dumps: set<Dump>, h: Hasher, seed: Key, size: nat, tokens: Tokens, ids: seq<Key>,
                   lo: nat, hi: nat)
    requires size > 0 && StoreOk(stored, dumps, h, seed, size) && IsKeys(h, seed, size, tokens, ids) && lo <= hi <= |ids|
    ensures StoreOk(stored + (set k | k in ids[lo..hi]), dumps + DumpsOf(tokens, lo, hi), h, seed, size)
  {
    var stored', dumps' := stored + (set k | k in ids[lo..hi]), dumps + DumpsOf(tokens, lo, hi);
    forall d | d in dumps' ensures Given(stored', d, h, seed, size) {
      if d in dumps {
        assert Given(stored, d, h, seed, size);
      } else {
        assert KeyIs(h, seed, size, tokens, d.pos, ids[d.pos]);
        assert ids[lo..hi][d.pos - lo] == ids[d.pos];
      }
    }
    forall k | k in stored' ensures Answered(dumps', h, seed, size, k) {
      if k in stored {
        assert Answered(dumps, h, seed, size, k);
      } else {
        var i :| 0 <= i < |ids[lo..hi]| && ids[lo..hi][i] == k;
        assert KeyIs(h, seed, size, tokens, lo + i, ids[lo + i]);
        assert Dump(tokens, lo + i) in dumps';
      }
    }
  }

  /** A hit is a key that the store was given. */
  ghost predicate HitsAnswered(stored: set<Key>, h: Hasher, seed: Key, size: nat, tokens: Tokens, first: nat,
                               hits: seq<bool>)
    requires size > 0
  {
    forall i: nat :: i < |hits| && hits[i] ==> HitAnswered(stored, h, seed, size, tokens, first + i)
  }

  /** Every key that the store was given is a hit. */
  ghost predicate HitsComplete(stored: set<Key>, h: Hasher, seed: Key, size: nat, tokens: Tokens, first: nat,
                               hits: seq<bool>)
    requires size > 0
  {
    forall j: nat :: first <= j && HitAnswered(stored, h, seed, size, tokens, j) ==> j - first < |hits| && hits[j - first]
  }

  predicate HitAnswered(stored: set<Key>, h: Hasher, seed: Key, size: nat, tokens: Tokens, i: nat)
    requires size > 0
  {
    && i < Blocks(|tokens|, size)
    && (BlockBounds(|tokens|, size, i);
        KeyAt(h, seed, size, tokens, i) in stored)
  }

  /** Some request dumped each of the blocks from `first` to below n of these tokens. */
  ghost predicate AllDumped(dumps: set<Dump>, size: nat, tokens: Tokens, first: nat, n: nat)
    requires size > 0
  {
    first <= n <= Blocks(|tokens|, size) && forall i: nat :: first <= i < n ==> WasDumped(dumps, size, tokens, i)
  }

  /** No run of dumped blocks after the computed ones is longer than what is counted. */
  ghost predicate CountsAll(m: RequestMeta, dumps: set<Dump>, size: nat, tokens: Tokens)
    requires size > 0
  {
    forall n: nat :: AllDumped(dumps, size, tokens, m.hbmHit, n) ==> m.totalHit >= n
  }

  /** What the store answers for was dumped. */
  lemma HitsFromStore(stored: set<Key>, dumps: set<Dump>, h: Hasher, seed: Key, size: nat, tokens: Tokens, first: nat,
                      hits: seq<bool>)
    requires size > 0 && CollisionFree(h, seed) && StoreOk(stored, dumps, h, seed, size)
    requires HitsAnswered(stored, h, seed, size, tokens, first, hits)
    ensures forall i: nat :: i < |hits| && hits[i] ==>
      first + i < Blocks(|tokens|, size) && WasDumped(dumps, size, tokens, first + i)
  {
    forall i: nat | i < |hits| && hits[i]
      ensures first + i < Blocks(|tokens|, size) && WasDumped(dumps, size, tokens, first + i)
    {
      assert HitAnswered(stored, h, seed, size, tokens, first + i);
      BlockBounds(|tokens|, size, first + i);
      HitWasDumped(dumps, h, seed, size, tokens, first + i, KeyAt(h, seed, size, tokens, first + i));
    }
  }

  /** No dumped prefix is longer than what is counted, if the store answers for all it was given. */
  lemma AllCounted(m: RequestMeta, stored: set<Key>, dumps: set<Dump>, h: Hasher, seed: Key, size: nat, tokens: Tokens,
                   hits: seq<bool>)
    requires size > 0 && StoreOk(stored, dumps, h, seed, size) && m.hbmHit <= m.totalHit
    requires LongestPrefix(hits, m.totalHit - m.hbmHit)
    ensures HitsComplete(stored, h, seed, size, tokens, m.hbmHit, hits) ==> CountsAll(m, dumps, size, tokens)
  {
    if HitsComplete(stored, h, seed, size, tokens, m.hbmHit, hits) {
      forall n: nat | AllDumped(dumps, size, tokens, m.hbmHit, n) ensures m.totalHit >= n {
        var j := m.totalHit;
        if j < n {
          assert WasDumped(dumps, size, tokens, j);
          BlockBounds(|tokens|, size, j);
          DumpedIsGiven(stored, dumps, h, seed, size, tokens, j);
          assert HitAnswered(stored, h, seed, size, tokens, j);
        }
      }
    }
  }

  /** The number of leading hits. */
  method CountHits(hits: seq<bool>) returns (n: nat)
    ensures LongestPrefix(hits, n)
  {
    n := 0;
    while n < |hits| && hits[n]
      invariant n <= |hits| && forall i :: 0 <= i < n ==> hits[i]
    {
      n := n + 1;
    }
  }

  lemma NewRequestOk(m: RequestMeta, tokens: Tokens, numComputed: nat, hits: seq<bool>, hitBlocks: nat,
                     dumps: set<Dump>, h: Hasher, seed: Key, size: nat)
    requires size > 0 && CollisionFree(h, seed) && IsKeys(h, seed, size, tokens, m.ids) && m.numTokens == |tokens|
    requires m.hbmHit == numComputed / size < |m.ids| && m.vllmIds == []
    requires m.totalHit == m.hbmHit + hitBlocks && m.processed == m.totalHit * size && LongestPrefix(hits, hitBlocks)
    requires forall i: nat :: i < |hits| && hits[i] ==>
      m.hbmHit + i < Blocks(|tokens|, size) && WasDumped(dumps, size, tokens, m.hbmHit + i)
    ensures MetaOk(m, tokens, [], dumps, h, seed, size)
    ensures LookedUp(m, tokens, numComputed, hits,
                     hitBlocks * size - (if m.totalHit * size == |tokens| then 1 else 0), size)
  {
    if hitBlocks > 0 {
      assert hits[hitBlocks - 1];
    }
    ExactBlocks(m.totalHit, size);
    Multiples(m.totalHit, |m.ids|, size);
    AllHit(m.totalHit, |m.ids|, |tokens|, size, hitBlocks);
    forall i: nat | m.hbmHit <= i < m.totalHit ensures WasDumped(dumps, size, tokens, i) {
      assert hits[i - m.hbmHit];
    }
  }

  lemma KnownRequest(m: RequestMeta, tokens: Tokens, tiled: seq<nat>, dumps: set<Dump>, h: Hasher, seed: Key, size: nat)
    requires size > 0 && MetaOk(m, tokens, tiled, dumps, h, seed, size)
    ensures IsKeys(h, seed, size, tokens, m.ids) && |m.ids| == Blocks(m.numTokens, size)
    ensures m.hbmHit <= m.totalHit <= DumpedTo(m, size) && tiled == Range(m.totalHit, DumpedTo(m, size))
    ensures forall i: nat :: m.hbmHit <= i < m.totalHit ==> WasDumped(dumps, size, tokens, i)
  {
  }

  lemma StillOk(m: RequestMeta, m': RequestMeta, tokens: Tokens, tiled: seq<nat>, dumps: set<Dump>, h: Hasher,
                seed: Key, size: nat)
    requires size > 0 && MetaOk(m, tokens, tiled, dumps, h, seed, size)
    requires m' == m.(vllmIds := m'.vllmIds, processed := m'.processed)
    requires DumpedTo(m, size) <= DumpedTo(m', size)
    requires m'.processed >= m.numTokens ==> DumpedTo(m', size) == |m.ids|
    ensures MetaOk(m', tokens, tiled + Range(DumpedTo(m, size), DumpedTo(m', size)), dumps, h, seed, size)
    ensures m'.processed >= m.numTokens ==>
      tiled + Range(DumpedTo(m, size), DumpedTo(m', size)) == Range(m.totalHit, Blocks(m.numTokens, size))
  {
    RangesJoin(m.totalHit, DumpedTo(m, size), DumpedTo(m', size));
  }

  predicate LongestPrefix(hits: seq<bool>, n: int) {
    0 <= n <= |hits| && (forall i :: 0 <= i < n ==> hits[i]) && (n < |hits| ==> !hits[n])
  }

  lemma ExactBlocks(b: nat, size: nat)
    requires size > 0
    ensures Blocks(b * size, size) == b
  {
    QuotientUnique(b * size, size, b, 0);
  }

  /** With every block hit some block was hit outside, since the computed ones are fewer. */
  lemma AllHit(totalHit: nat, blocks: nat, n: nat, size: nat, hitBlocks: nat)
    requires size > 0 && blocks == Blocks(n, size) && hitBlocks <= totalHit && totalHit - hitBlocks < blocks
    ensures hitBlocks * size >= 0
    ensures totalHit * size == n ==> hitBlocks * size >= 1
  {
    if totalHit * size == n {
      ExactBlocks(totalHit, size);
      Multiples(1, hitBlocks, size);
    }
  }

  /** Past the last token everything is dumped. */
  lemma FinishedTiling(m: RequestMeta, size: nat)
    requires size > 0 && |m.ids| == Blocks(m.numTokens, size)
    ensures m.processed >= m.numTokens ==> DumpedTo(m, size) == |m.ids|
    ensures DumpedTo(m, size) * size <= m.processed
  {
    if m.processed >= m.numTokens {
      QuotientsAscend(m.numTokens, m.processed, size);
    }
    Multiples(DumpedTo(m, size), Blocks(m.processed, size), size);
  }
}
