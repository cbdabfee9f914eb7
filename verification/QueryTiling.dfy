/**
 How the attention kernels deal out work: a program id names a (sequence, query block) pair
 through a binary search over block-index keys, and a row of a block names a (query, head) pair.
 */
module QueryTiling {
  import opened Arithmetic

  /** `starts` holds the first token of each of the n sequences, and the end. */
  ghost predicate ValidStarts(starts: seq<nat>) {
    && |starts| >= 1 && starts[0] == 0
    && forall i, j :: 0 <= i <= j < |starts| ==> starts[i] <= starts[j]
  }

  function Key(starts: seq<nat>, i: nat, blockQ: nat, blockMode: bool): nat
    requires i < |starts| && blockQ > 0
  {
    if blockMode then starts[i] / blockQ + i else starts[i]
  }

  lemma KeysAscend(starts: seq<nat>, i: nat, j: nat, blockQ: nat, blockMode: bool)
    requires ValidStarts(starts) && i < j < |starts| && blockQ > 0
    ensures Key(starts, i, blockQ, blockMode) <= Key(starts, j, blockQ, blockMode)
    ensures blockMode ==> Key(starts, i, blockQ, true) < Key(starts, j, blockQ, true)
  {
    QuotientsAscend(starts[i], starts[j], blockQ);
  }

  /** The binary search: the last sequence whose key is at most the target, or -1. */
  method FindSeqIdx(starts: seq<nat>, target: nat, numSeqs: nat, blockQ: nat, blockMode: bool) returns (idx: int)
    requires ValidStarts(starts) && numSeqs < |starts| && blockQ > 0
    ensures -1 <= idx < numSeqs
    ensures forall i: nat :: i < numSeqs ==> (Key(starts, i, blockQ, blockMode) <= target <==> i <= idx)
  {
    var left, right := 0, numSeqs;
    while left < right
      invariant 0 <= left <= right <= numSeqs
      invariant forall i: nat :: i < left ==> Key(starts, i, blockQ, blockMode) <= target
      invariant forall i: nat :: right <= i < numSeqs ==> Key(starts, i, blockQ, blockMode) > target
    {
      var mid := (left + right) / 2;
      forall i: nat | i < numSeqs && i != mid
        ensures i < mid ==> Key(starts, i, blockQ, blockMode) <= Key(starts, mid, blockQ, blockMode)
        ensures i > mid ==> Key(starts, i, blockQ, blockMode) >= Key(starts, mid, blockQ, blockMode)
      {
        if i < mid {
          KeysAscend(starts, i, mid, blockQ, blockMode);
        } else {
          KeysAscend(starts, mid, i, blockQ, blockMode);
        }
      }
      if Key(starts, mid, blockQ, blockMode) <= target {
        left := mid + 1;
      } else {
        right := mid;
      }
    }
    idx := left - 1;
  }

  /** What the search returns, as a property. */
  ghost predicate LastAtMost(starts: seq<nat>, target: nat, numSeqs: nat, blockQ: nat, blockMode: bool, idx: int)
    requires numSeqs < |starts| && blockQ > 0
  {
    -1 <= idx < numSeqs && forall i: nat :: i < numSeqs ==> (Key(starts, i, blockQ, blockMode) <= target <==> i <= idx)
  }

  /** In token mode, which `reduce_segments` uses, the search finds the sequence that holds the token. */
  lemma TokenFound(starts: seq<nat>, token: nat, blockQ: nat, idx: int)
    requires ValidStarts(starts) && blockQ > 0 && token < starts[|starts| - 1]
    requires LastAtMost(starts, token, |starts| - 1, blockQ, false, idx)
    ensures 0 <= idx && starts[idx] <= token < starts[idx + 1]
  {
    assert Key(starts, 0, blockQ, false) <= token;
    assert Key(starts, idx, blockQ, false) <= token;
    if idx + 1 < |starts| - 1 {
      assert !(Key(starts, idx + 1, blockQ, false) <= token);
    }
  }

  // ---------------------------------------------------------------- query blocks

  /** Sequence s has a local query block b. */
  predicate HasBlock(starts: seq<nat>, s: nat, b: nat, blockQ: nat)
    requires s + 1 < |starts|
  {
    starts[s] + b * blockQ < starts[s + 1]
  }

  /** Program p works on block b of sequence s: the search finds s, and the early return is not taken. */
  ghost predicate WorksOn(starts: seq<nat>, blockQ: nat, p: nat, s: nat, b: nat)
    requires s + 1 < |starts| && blockQ > 0
  {
    && LastAtMost(starts, p, |starts| - 1, blockQ, true, s)
    && p - Key(starts, s, blockQ, true) == b
    && HasBlock(starts, s, b, blockQ)
  }

  /** The keys leave room for every block: block b of s ends before the next sequence's key. */
  lemma BlockFits(starts: seq<nat>, s: nat, b: nat, blockQ: nat, later: nat)
    requires ValidStarts(starts) && s < later < |starts| && blockQ > 0 && HasBlock(starts, s, b, blockQ)
    ensures Key(starts, s, blockQ, true) + b < Key(starts, later, blockQ, true)
  {
    PlusMultiple(starts[s], b, blockQ);
    QuotientsAscend(starts[s] + b * blockQ, starts[later], blockQ);
  }

  /** Every query block of every sequence is worked on by exactly one program, and that one is launched. */
  lemma EachBlockByOneProgram(starts: seq<nat>, blockQ: nat, s: nat, b: nat, rows: nat) returns (p: nat)
    requires ValidStarts(starts) && blockQ > 0 && s + 1 < |starts| && HasBlock(starts, s, b, blockQ)
    requires starts[|starts| - 1] <= rows
    ensures p < rows / blockQ + (|starts| - 1)
    ensures forall q: nat :: WorksOn(starts, blockQ, q, s, b) <==> q == p
  {
    var n := |starts| - 1;
    p := Key(starts, s, blockQ, true) + b;
    BlockFits(starts, s, b, blockQ, n);
    QuotientsAscend(starts[n], rows, blockQ);
    forall i: nat | i < n ensures Key(starts, i, blockQ, true) <= p <==> i <= s {
      if i > s {
        BlockFits(starts, s, b, blockQ, i);
      } else if i < s {
        KeysAscend(starts, i, s, blockQ, true);
      }
    }
  }

  /** And a launched program works on one block at most: the search has one answer, never -1. */
  lemma ProgramHasOneSequence(starts: seq<nat>, blockQ: nat, p: nat, s: int, s': int)
    requires ValidStarts(starts) && blockQ > 0 && |starts| > 1
    requires LastAtMost(starts, p, |starts| - 1, blockQ, true, s) && LastAtMost(starts, p, |starts| - 1, blockQ, true, s')
    ensures s == s' && s >= 0
  {
    assert Key(starts, 0, blockQ, true) <= p;
    var key, key' := Key(starts, s, blockQ, true), Key(starts, s', blockQ, true);
  }

  // ---------------------------------------------------------------- rows of a block

  /** Row m of block b computes head h of the group at query position pos. */
  predicate Computes(blockQ: nat, group: nat, b: nat, m: nat, pos: nat, h: nat)
    requires group > 0
  {
    b * blockQ + m / group == pos && m % group == h
  }

  /** Block b has a row for query position pos and head h. */
  predicate HasRow(blockM: nat, group: nat, b: nat, pos: nat, h: nat)
    requires 0 < group <= blockM
  {
    exists m: nat :: m < blockM && Computes(blockM / group, group, b, m, pos, h)
  }

  lemma RowMeans(blockQ: nat, group: nat, b: nat, m: nat, pos: nat, h: nat)
    requires group > 0 && h < group
    ensures Computes(blockQ, group, b, m, pos, h) <==> b * blockQ <= pos && m == (pos - b * blockQ) * group + h
  {
    var first := b * blockQ;
    if first <= pos {
      QuotientIs(m, group, pos - first, h);
    }
  }

  /** It is row (pos - b * blockQ) * group + h, if the block has that many. */
  lemma RowIsPair(blockM: nat, group: nat, b: nat, pos: nat, h: nat)
    requires 0 < group <= blockM && h < group
    ensures HasRow(blockM, group, b, pos, h) <==>
      b * (blockM / group) <= pos && (pos - b * (blockM / group)) * group + h < blockM
  {
    var blockQ: nat := blockM / group;
    var first: nat := b * blockQ;
    if first <= pos {
      RowMeans(blockQ, group, b, (pos - first) * group + h, pos, h);
    }
    if HasRow(blockM, group, b, pos, h) {
      var m: nat :| m < blockM && Computes(blockQ, group, b, m, pos, h);
      hide Computes, HasRow;
      RowMeans(blockQ, group, b, m, pos, h);
    }
  }

  /**
   Each (query position, head) has a row in its own block, and a second one in the block before exactly
   when the group does not divide the rows of a block and the spare rows reach it.
   */
  lemma RowsOfAPosition(blockM: nat, group: nat, b: nat, pos: nat, h: nat)
    requires 0 < group <= blockM && h < group
    ensures var blockQ := blockM / group;
      blockQ > 0 &&
      (HasRow(blockM, group, b, pos, h) <==>
        b == pos / blockQ || (b + 1 == pos / blockQ && pos % blockQ == 0 && h < blockM % group))
  {
    var blockQ := blockM / group;
    QuotientsAscend(group, blockM, group);
    QuotientUnique(group, group, 1, 0);
    RowIsPair(blockM, group, b, pos, h);
    hide HasRow;
    BlockOf(blockM, group, blockQ, b, pos, h);
  }

  lemma BlockOf(blockM: nat, group: nat, blockQ: nat, b: nat, pos: nat, h: nat)
    requires 0 < group <= blockM && blockQ == blockM / group > 0 && h < group
    ensures b * blockQ <= pos && (pos - b * blockQ) * group + h < blockM <==>
      b == pos / blockQ || (b + 1 == pos / blockQ && pos % blockQ == 0 && h < blockM % group)
  {
    var k, o := pos / blockQ, pos % blockQ;
    Division(pos, blockQ);
    if b > k {
      Multiples(k, b, blockQ);
    } else {
      Multiples(b, k, blockQ);
      Difference(k, b, blockQ);
      RowsBefore(blockM, group, blockQ, k - b, o, h);
    }
  }

  lemma RowsBefore(blockM: nat, group: nat, blockQ: nat, d: nat, o: nat, h: nat)
    requires 0 < group <= blockM && blockQ == blockM / group > 0 && o < blockQ && h < group
    ensures (d * blockQ + o) * group + h < blockM <==> d == 0 || (d == 1 && o == 0 && h < blockM % group)
  {
    assert blockM == blockQ * group + blockM % group;
    assert (d * blockQ + o) * group == d * blockQ * group + o * group;
    Multiples(o, blockQ, group);
    Multiples(0, o, group);
    if d >= 1 {
      assert d * blockQ * group == d * (blockQ * group);
      Multiples(1, d, blockQ * group);
      Multiples(0, blockQ, group);
    }
  }

  /** So every position has exactly one row when the group divides the rows of a block. */
  lemma OneRowEach(blockM: nat, group: nat, b: nat, pos: nat, h: nat)
    requires 0 < group <= blockM && h < group && blockM % group == 0
    ensures blockM / group > 0 && (HasRow(blockM, group, b, pos, h) <==> b == pos / (blockM / group))
  {
    RowsOfAPosition(blockM, group, b, pos, h);
  }
}
