/**
 Look-ups through the cache to the backend. Only the blocks the cache misses are asked of the backend,
 and its answer about them is turned into an answer about all.
 */
module BufferManager {
  import opened Wrappers

  type Block = int

  /** Present in the cache or in the backend. */
  function Either(cached: Block -> bool, stored: Block -> bool): Block -> bool {
    (b: Block) => cached(b) || stored(b)
  }

  /** A list of answers, one for each block. */
  predicate Pointwise(answers: seq<bool>, blocks: seq<Block>, present: Block -> bool) {
    |answers| == |blocks| && forall i :: 0 <= i < |blocks| ==> answers[i] == present(blocks[i])
  }

  /** r is the last index of the longest prefix of present blocks; -1 for an empty one. */
  predicate LastOfPrefix(r: int, blocks: seq<Block>, present: Block -> bool) {
    && -1 <= r < |blocks|
    && (forall i :: 0 <= i <= r ==> present(blocks[i]))
    && (r + 1 < |blocks| ==> !present(blocks[r + 1]))
  }

  /** The backend, by its two look-ups: either may fail, and what they answer is right. */
  datatype Backend = Backend(lookup: seq<Block> -> Result<seq<bool>>, prefix: seq<Block> -> Result<int>)

  predicate RightLookup(answer: Result<seq<bool>>, blocks: seq<Block>, stored: Block -> bool) {
    answer.Ok? ==> Pointwise(answer.value, blocks, stored)
  }

  predicate RightPrefix(answer: Result<int>, blocks: seq<Block>, stored: Block -> bool) {
    answer.Ok? ==> LastOfPrefix(answer.value, blocks, stored)
  }

  ghost predicate ValidBackend(backend: Backend, stored: Block -> bool) {
    && (forall q :: RightLookup(backend.lookup(q), q, stored))
    && (forall q :: RightPrefix(backend.prefix(q), q, stored))
  }

  /** The indices the cache misses: ascending, and exactly those. */
  ghost predicate Misses(blocks: seq<Block>, cached: Block -> bool, n: nat, missBlk: seq<Block>, missIdx: seq<nat>)
    requires n <= |blocks|
  {
    && |missBlk| == |missIdx|
    && (forall k :: 0 <= k < |missIdx| ==> missIdx[k] < n && missBlk[k] == blocks[missIdx[k]] && !cached(missBlk[k]))
    && (forall k, m :: 0 <= k < m < |missIdx| ==> missIdx[k] < missIdx[m])
    && (forall i: nat :: i < n && !cached(blocks[i]) ==> i in missIdx)
  }

  /** The loop over the cache. */
  method LookupCache(blocks: seq<Block>, cached: Block -> bool)
    returns (results: seq<bool>, missBlk: seq<Block>, missIdx: seq<nat>)
    ensures Pointwise(results, blocks, cached)
    ensures Misses(blocks, cached, |blocks|, missBlk, missIdx)
  {
    results, missBlk, missIdx := [], [], [];
    for i := 0 to |blocks|
      invariant Pointwise(results, blocks[..i], cached)
      invariant Misses(blocks, cached, i, missBlk, missIdx)
    {
      var hit := cached(blocks[i]);
      results := results + [hit];
      if !hit {
        missBlk, missIdx := missBlk + [blocks[i]], missIdx + [i];
      }
    }
    assert blocks[..|blocks|] == blocks;
  }

  /** Every block is answered by the cache or, where that misses it, by the backend. */
  method LookupFast(blocks: seq<Block>, cached: Block -> bool, backend: Backend, ghost stored: Block -> bool)
    returns (res: Result<seq<bool>>)
    requires ValidBackend(backend, stored)
    ensures res.Ok? ==> Pointwise(res.value, blocks, Either(cached, stored))
    ensures res.Err? ==> exists q :: q != [] && backend.lookup(q) == res
    ensures (forall i :: 0 <= i < |blocks| ==> cached(blocks[i])) ==> res.Ok?
  {
    var results, missBlk, missIdx := LookupCache(blocks, cached);
    if missBlk == [] {
      assert forall i: nat :: i < |blocks| ==> i !in missIdx;
      return Ok(results);
    }
    var answer := backend.lookup(missBlk);
    if answer.Err? {
      assert !cached(blocks[missIdx[0]]);
      return answer;
    }
    assert RightLookup(backend.lookup(missBlk), missBlk, stored);
    for k := 0 to |missIdx|
      invariant |results| == |blocks|
      invariant forall i: nat :: i < |blocks| ==>
        (results[i] <==> cached(blocks[i]) || (i in missIdx[..k] && stored(blocks[i])))
    {
      assert missIdx[..k + 1] == missIdx[..k] + [missIdx[k]];
      results := results[missIdx[k] := answer.value[k]];
    }
    assert missIdx[..|missIdx|] == missIdx;
    res := Ok(results);
  }

  /** Where the whole prefix ends when the backend's answer about the misses is r. */
  function PrefixEnd(missIdx: seq<nat>, n: nat, r: int): int
    requires -1 <= r < |missIdx|
  {
    if r + 1 == |missIdx| then n - 1
    else
      var first: int := missIdx[r + 1];
      first - 1
  }

  /** The first miss the backend does not have ends the prefix; without one the prefix is everything. */
  lemma MissesDecide(blocks: seq<Block>, cached: Block -> bool, stored: Block -> bool,
                     missBlk: seq<Block>, missIdx: seq<nat>, r: int)
    requires Misses(blocks, cached, |blocks|, missBlk, missIdx) && LastOfPrefix(r, missBlk, stored)
    ensures LastOfPrefix(PrefixEnd(missIdx, |blocks|, r), blocks, Either(cached, stored))
  {
    var last := PrefixEnd(missIdx, |blocks|, r);
    forall i: nat | i <= last && i < |blocks| ensures Either(cached, stored)(blocks[i]) {
      if !cached(blocks[i]) {
        var k :| 0 <= k < |missIdx| && missIdx[k] == i;
        assert k <= r;
        assert stored(missBlk[k]);
      }
    }
  }

  /** The backend is asked only about the misses, and its prefix decides the whole one. */
  method LookupOnPrefixFast(blocks: seq<Block>, cached: Block -> bool, backend: Backend, ghost stored: Block -> bool)
    returns (res: Result<int>)
    requires ValidBackend(backend, stored)
    ensures res.Ok? ==> LastOfPrefix(res.value, blocks, Either(cached, stored))
    ensures res.Err? ==> exists q :: q != [] && backend.prefix(q) == res
    ensures (forall i :: 0 <= i < |blocks| ==> cached(blocks[i])) ==> res.Ok?
  {
    var results, missBlk, missIdx := LookupCache(blocks, cached);
    if missBlk == [] {
      assert forall i: nat :: i < |blocks| ==> i !in missIdx;
      return Ok(|blocks| - 1);
    }
    var answer := backend.prefix(missBlk);
    assert RightPrefix(backend.prefix(missBlk), missBlk, stored);
    if answer.Err? {
      assert !cached(blocks[missIdx[0]]);
      return answer;
    }
    MissesDecide(blocks, cached, stored, missBlk, missIdx, answer.value);
    if answer.value + 1 == |missIdx| {
      return Ok(|blocks| - 1);
    }
    var first: int := missIdx[answer.value + 1];
    res := Ok(first - 1);
  }

  predicate AllTrue(answers: seq<bool>, n: nat)
    requires n <= |answers|
  {
    forall i :: 0 <= i < n ==> answers[i]
  }

  /** The two look-ups agree: the prefix holds n blocks exactly when the first n answers are all yes. */
  lemma LookupsAgree(blocks: seq<Block>, answers: seq<bool>, r: int, present: Block -> bool, n: nat)
    requires Pointwise(answers, blocks, present) && LastOfPrefix(r, blocks, present) && n <= |blocks|
    ensures AllTrue(answers, n) <==> n <= r + 1
  {
    if n > r + 1 {
      assert !answers[r + 1];
    }
  }
}
