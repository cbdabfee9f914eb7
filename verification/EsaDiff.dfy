/**
 Minimal reload of selected blocks: `diff_two_map` keeps every (block, hash) pair it can and pairs the
 rest anew; over the decode steps each block holds the hash recorded for it once the
 loads are waited for. And the pool of representation slots.
 */
module EsaDiff {
  import opened Sequences

  type Hash = nat

  predicate Injective(m: map<nat, Hash>) {
    forall a, b :: a in m && b in m && m[a] == m[b] ==> a == b
  }

  /** A pairing of the target's blocks with the target's hashes, one to one. */
  ghost predicate Pairs(m: map<nat, Hash>, target: map<nat, Hash>) {
    m.Keys == target.Keys && m.Values == target.Values && Injective(m)
  }

  /** The blocks that must be loaded for m when `have` is in place. */
  function Loads(m: map<nat, Hash>, have: map<nat, Hash>): set<nat> {
    set b | b in m && !(b in have && have[b] == m[b])
  }

  /** The blocks whose old hash is still wanted, somewhere. */
  function Kept(have: map<nat, Hash>, target: map<nat, Hash>): set<nat> {
    set b | b in have && b in target && have[b] in target.Values
  }

  /** No pairing can do without the loads of the blocks that are not kept. */
  lemma LoadsAtLeast(m: map<nat, Hash>, have: map<nat, Hash>, target: map<nat, Hash>)
    requires Pairs(m, target)
    ensures target.Keys - Kept(have, target) <= Loads(m, have)
  {
    forall b | b in target.Keys - Kept(have, target) ensures b in Loads(m, have) {
      assert b in m && m[b] in m.Values;
    }
  }

  lemma {:induction false} ValuesCount(m: map<nat, Hash>)
    requires Injective(m)
    ensures |m.Values| == |m.Keys|
    decreases |m|
  {
    if m.Keys != {} {
      var k :| k in m;
      var rest := m - {k};
      ValuesCount(rest);
      assert m.Keys == rest.Keys + {k};
      assert m.Values == rest.Values + {m[k]} && m[k] !in rest.Values by {
        forall v | v in m.Values ensures v in rest.Values || v == m[k] {
          var b :| b in m && m[b] == v;
          assert b == k || rest[b] == v;
        }
        forall v | v in rest.Values ensures v in m.Values && v != m[k] {
          var b :| b in rest && rest[b] == v;
        }
      }
    } else {
      assert m.Values == {};
    }
  }

  /** The kept pairs, and what they leave of the target's blocks and hashes. */
  ghost predicate KeptSoFar(updated: map<nat, Hash>, keys: set<nat>, values: set<Hash>,
                            have: map<nat, Hash>, target: map<nat, Hash>, seen: set<nat>) {
    && updated.Keys == seen * Kept(have, target)
    && (forall b :: b in updated ==> updated[b] == have[b])
    && keys == target.Keys - updated.Keys && values == target.Values - updated.Values
    && updated.Keys <= target.Keys && updated.Values <= target.Values
  }

  lemma MapPlus(m: map<nat, Hash>, k: nat, v: Hash)
    requires k !in m
    ensures m[k := v].Values == m.Values + {v} && m[k := v].Keys == m.Keys + {k}
  {
    var m' := m[k := v];
    forall x | x in m.Values ensures x in m'.Values {
      var b :| b in m && m[b] == x;
      assert m'[b] == x;
    }
    assert m'[k] == v;
    forall x | x in m'.Values ensures x in m.Values + {v} {
      var b :| b in m' && m'[b] == x;
      assert b == k || m[b] == x;
    }
  }

  lemma KeepOne(updated: map<nat, Hash>, keys: set<nat>, values: set<Hash>,
                have: map<nat, Hash>, target: map<nat, Hash>, seen: set<nat>, k: nat)
    requires Injective(have) && k in have && k !in seen && KeptSoFar(updated, keys, values, have, target, seen)
    ensures if k in target && have[k] in target.Values
      then KeptSoFar(updated[k := have[k]], keys - {k}, values - {have[k]}, have, target, seen + {k})
           && k in keys && have[k] in values
      else KeptSoFar(updated, keys, values, have, target, seen + {k})
  {
    if k in target && have[k] in target.Values {
      MapPlus(updated, k, have[k]);
      NotYetTaken(updated, have, k);
      assert (seen + {k}) * Kept(have, target) == seen * Kept(have, target) + {k};
    } else {
      assert (seen + {k}) * Kept(have, target) == seen * Kept(have, target);
    }
  }

  /** The first loop, over the old pairs in any order: those still wanted stay. */
  method KeepPairs(have: map<nat, Hash>, target: map<nat, Hash>)
    returns (updated: map<nat, Hash>, keys: set<nat>, values: set<Hash>)
    requires Injective(have)
    ensures KeptSoFar(updated, keys, values, have, target, have.Keys)
  {
    updated, keys, values := map[], target.Keys, target.Values;
    var rest := have.Keys;
    NoneKept(have, target);
    assert have.Keys - rest == {};
    hide *;
    while rest != {}
      invariant rest <= have.Keys && KeptSoFar(updated, keys, values, have, target, have.Keys - rest)
      decreases |rest|
    {
      var k :| k in rest;
      KeepOne(updated, keys, values, have, target, have.Keys - rest, k);
      assert have.Keys - (rest - {k}) == (have.Keys - rest) + {k};
      if k in target && have[k] in target.Values {
        updated, keys, values := updated[k := have[k]], keys - {k}, values - {have[k]};
      }
      rest := rest - {k};
    }
    assert have.Keys - {} == have.Keys;
  }

  lemma NoneKept(have: map<nat, Hash>, target: map<nat, Hash>)
    ensures KeptSoFar(map[], target.Keys, target.Values, have, target, {})
  {
  }

  /** The second loop: the left-over blocks and hashes, paired in whatever order their sets yield them. */
  method PairRest(kept: map<nat, Hash>, keys0: set<nat>, values0: set<Hash>, ghost target: map<nat, Hash>)
    returns (updated: map<nat, Hash>, diff: map<nat, Hash>)
    requires |keys0| == |values0| && PairedSoFar(kept, keys0, values0, kept, target)
    ensures PairedSoFar(updated, {}, {}, kept, target)
    ensures diff.Keys == keys0 && forall b :: b in diff ==> b in updated && diff[b] == updated[b]
  {
    hide *;
    var keys, values := keys0, values0;
    updated, diff := kept, map[];
    while keys != {} && values != {}
      invariant |keys| == |values| && keys <= keys0 && diff.Keys == keys0 - keys
      invariant PairedSoFar(updated, keys, values, kept, target)
      invariant forall b :: b in diff ==> b in updated && diff[b] == updated[b]
      decreases |keys|
    {
      var k :| k in keys;
      var v :| v in values;
      PairOne(updated, keys, values, kept, target, k, v);
      updated, diff := updated[k := v], diff[k := v];
      keys, values := keys - {k}, values - {v};
    }
  }

  /** `diff_two_map`: as many old pairs as possible, and new ones for the rest. */
  method DiffTwoMap(have: map<nat, Hash>, target: map<nat, Hash>)
    returns (updated: map<nat, Hash>, diff: map<nat, Hash>)
    requires Injective(have) && Injective(target)
    ensures Pairs(updated, target)
    ensures diff.Keys == Loads(updated, have) && forall b :: b in diff ==> diff[b] == updated[b]
    ensures forall b :: b in updated && b !in diff ==> b in have && have[b] == updated[b]
    ensures forall m: map<nat, Hash> :: Pairs(m, target) ==> |Loads(m, have)| >= |diff|
  {
    var kept, keys, values := KeepPairs(have, target);
    AsManyLeft(kept, have, target);
    PairsStart(kept, have, target);
    updated, diff := PairRest(kept, keys, values, target);
    Paired(updated, diff, kept, have, target);
  }

  lemma NotYetTaken(updated: map<nat, Hash>, have: map<nat, Hash>, k: nat)
    requires Injective(have) && k in have && k !in updated
    requires forall b :: b in updated ==> b in have && updated[b] == have[b]
    ensures have[k] !in updated.Values
  {
  }

  lemma AsManyLeft(kept: map<nat, Hash>, have: map<nat, Hash>, target: map<nat, Hash>)
    requires Injective(have) && Injective(target)
    requires KeptSoFar(kept, target.Keys - kept.Keys, target.Values - kept.Values, have, target, have.Keys)
    ensures |target.Keys - kept.Keys| == |target.Values - kept.Values| && Injective(kept)
    ensures kept.Keys == Kept(have, target)
  {
    assert have.Keys * Kept(have, target) == Kept(have, target);
    ValuesCount(kept);
    ValuesCount(target);
    assert |target.Keys - kept.Keys| == |target.Keys| - |kept.Keys|;
    assert |target.Values - kept.Values| == |target.Values| - |kept.Values|;
  }

  /** Old and new pairs so far: one to one, and the rest is still to be paired. */
  ghost predicate PairedSoFar(updated: map<nat, Hash>, keys: set<nat>, values: set<Hash>, kept: map<nat, Hash>,
                              target: map<nat, Hash>) {
    && Injective(updated) && keys <= target.Keys && values <= target.Values
    && updated.Keys == target.Keys - keys && updated.Values == target.Values - values
    && kept.Keys !! keys
    && (forall b :: b in kept ==> b in updated && updated[b] == kept[b])
  }

  lemma PairsStart(kept: map<nat, Hash>, have: map<nat, Hash>, target: map<nat, Hash>)
    requires KeptSoFar(kept, target.Keys - kept.Keys, target.Values - kept.Values, have, target, have.Keys) && Injective(kept)
    ensures PairedSoFar(kept, target.Keys - kept.Keys, target.Values - kept.Values, kept, target)
  {
    assert target.Keys - (target.Keys - kept.Keys) == kept.Keys;
    assert target.Values - (target.Values - kept.Values) == kept.Values;
  }

  lemma PairOne(updated: map<nat, Hash>, keys: set<nat>, values: set<Hash>, kept: map<nat, Hash>,
                target: map<nat, Hash>, k: nat, v: Hash)
    requires PairedSoFar(updated, keys, values, kept, target) && k in keys && v in values
    ensures PairedSoFar(updated[k := v], keys - {k}, values - {v}, kept, target)
  {
    MapPlus(updated, k, v);
    assert forall b :: b in updated ==> updated[b] in updated.Values;
    assert target.Keys - (keys - {k}) == (target.Keys - keys) + {k};
    assert target.Values - (values - {v}) == (target.Values - values) + {v};
  }

  lemma Paired(updated: map<nat, Hash>, diff: map<nat, Hash>, kept: map<nat, Hash>, have: map<nat, Hash>,
               target: map<nat, Hash>)
    requires PairedSoFar(updated, {}, {}, kept, target) && diff.Keys == target.Keys - kept.Keys
    requires kept.Keys == Kept(have, target) && forall b :: b in kept ==> kept[b] == have[b]
    ensures Pairs(updated, target) && diff.Keys == Loads(updated, have)
    ensures forall b :: b in updated && b !in diff ==> b in have && have[b] == updated[b]
    ensures forall m: map<nat, Hash> :: Pairs(m, target) ==> |Loads(m, have)| >= |diff|
  {
    assert updated.Keys == target.Keys && updated.Values == target.Values;
    LoadsAtLeast(updated, have, target);
    assert diff.Keys == Loads(updated, have);
    forall m: map<nat, Hash> | Pairs(m, target) ensures |Loads(m, have)| >= |diff| {
      LoadsAtLeast(m, have, target);
      Smaller(diff.Keys, Loads(m, have));
      assert |diff| == |diff.Keys|;
    }
  }

  lemma Smaller(a: set<nat>, b: set<nat>)
    requires a <= b
    ensures |a| <= |b|
  {
    assert |b - a| == |b| - |a|;
  }

  // ---------------------------------------------------------------- decode steps

  /** `zip` of the block ids and the hashes. */
  function Zip(blocks: seq<nat>, hashes: seq<Hash>, n: nat): map<nat, Hash>
    requires n <= |blocks| && n <= |hashes|
  {
    if n == 0 then map[] else Zip(blocks, hashes, n - 1)[blocks[n - 1] := hashes[n - 1]]
  }

  lemma {:induction false} ZipPairs(blocks: seq<nat>, hashes: seq<Hash>, n: nat)
    requires n <= |blocks| && n <= |hashes| && Distinct(blocks) && Distinct(hashes)
    ensures forall b :: b in Zip(blocks, hashes, n) ==> Zipped(blocks, hashes, n, b, Zip(blocks, hashes, n)[b])
    ensures forall i :: 0 <= i < n ==> blocks[i] in Zip(blocks, hashes, n) && Zip(blocks, hashes, n)[blocks[i]] == hashes[i]
    ensures Injective(Zip(blocks, hashes, n))
  {
    if n > 0 {
      ZipPairs(blocks, hashes, n - 1);
      var before, z := Zip(blocks, hashes, n - 1), Zip(blocks, hashes, n);
      forall b | b in z ensures Zipped(blocks, hashes, n, b, z[b]) {
        if b in before && b != blocks[n - 1] {
          assert Zipped(blocks, hashes, n - 1, b, before[b]);
        }
      }
    }
  }

  predicate Zipped(blocks: seq<nat>, hashes: seq<Hash>, n: nat, b: nat, h: Hash)
    requires n <= |blocks| && n <= |hashes|
  {
    exists i :: 0 <= i < n && blocks[i] == b && hashes[i] == h
  }

  /** What a layer remembers of its selected blocks, what the cache holds, and what is on its way. */
  class ReqState {
    var recorded: map<nat, Hash>
    var loading: map<nat, Hash>
    var cache: map<nat, Hash>

    /** Every recorded block holds its hash, or is being loaded with it. */
    ghost predicate Valid()
      reads this
    {
      && Injective(recorded)
      && (forall b :: b in loading ==> b in recorded && loading[b] == recorded[b])
      && (forall b :: b in recorded && b !in loading ==> b in cache && cache[b] == recorded[b])
    }

    constructor ()
      ensures Valid() && recorded == map[] && loading == map[]
    {
      recorded, loading, cache := map[], map[], map[];
    }

    /** A retrieval step: the new target is paired with as few loads as any pairing needs, and they start. */
    method StartLoad(blocks: seq<nat>, hashes: seq<Hash>)
      requires Valid() && loading == map[] && Distinct(blocks) && Distinct(hashes)
      modifies this
      ensures Valid() && cache == old(cache)
      ensures var n := if |blocks| <= |hashes| then |blocks| else |hashes|;
        Pairs(recorded, Zip(blocks, hashes, n)) && loading.Keys == Loads(recorded, old(recorded))
    {
      var n := if |blocks| <= |hashes| then |blocks| else |hashes|;
      ZipPairs(blocks, hashes, n);
      var target := Zip(blocks, hashes, n);
      recorded, loading := DiffTwoMap(recorded, target);
    }

    /** Waiting for the transfers: the loaded blocks hold their hashes. */
    method WaitTransferTaskDone()
      requires Valid()
      modifies this
      ensures Valid() && recorded == old(recorded) && loading == map[]
      ensures forall b :: b in recorded ==> b in cache && cache[b] == recorded[b]
    {
      cache := cache + loading;
      loading := map[];
    }
  }

  // ---------------------------------------------------------------- representation slots

  ghost predicate Split(spare: set<nat>, taken: set<nat>, size: nat) {
    spare !! taken && spare + taken == AllSlots(size)
  }

  lemma SplitKept(spare: set<nat>, taken: set<nat>, moved: set<nat>, size: nat)
    requires Split(spare, taken, size) && moved <= spare
    ensures Split(spare - moved, taken + moved, size)
  {
  }

  lemma OneMore(slots: seq<nat>, s: nat)
    requires s !in Elements(slots)
    ensures Elements(slots + [s]) == Elements(slots) + {s}
    ensures Distinct(slots) ==> Distinct(slots + [s])
  {
  }

  /** The first n elements of a set, in whatever order it lists them. */
  method Pick(from: set<nat>, n: nat) returns (slots: seq<nat>)
    requires n <= |from|
    ensures |slots| == n && Distinct(slots) && Elements(slots) <= from
  {
    slots := [];
    var rest := from;
    while |slots| < n
      invariant |slots| <= n && Distinct(slots) && |rest| == |from| - |slots|
      invariant rest == from - Elements(slots) && Elements(slots) <= from
    {
      hide *;
      var s :| s in rest;
      OneMore(slots, s);
      slots, rest := slots + [s], rest - {s};
    }
  }

  class ReprePool {
    var freeSlots: set<nat>
    var taken: set<nat>
    const size: nat

    /** The slots are split between free and taken. */
    ghost predicate Valid()
      reads this
    {
      Split(freeSlots, taken, size)
    }

    constructor (numSlots: nat)
      ensures Valid() && taken == {} && size == numSlots
    {
      size := numSlots;
      freeSlots := AllSlots(numSlots);
      taken := {};
    }

    /** Any `n` free slots, all different. */
    method Allocate(n: nat) returns (slots: seq<nat>)
      requires Valid() && n <= |freeSlots|
      modifies this
      ensures Valid() && |slots| == n && Distinct(slots)
      ensures Elements(slots) <= old(freeSlots)
      ensures taken == old(taken) + Elements(slots) && freeSlots == old(freeSlots) - Elements(slots)
    {
      slots := Pick(freeSlots, n);
      SplitKept(freeSlots, taken, Elements(slots), size);
      freeSlots := freeSlots - Elements(slots);
      taken := taken + Elements(slots);
    }

    /** Slots that were allocated go back. */
    method Free(slots: seq<nat>)
      requires Valid() && forall s :: s in slots ==> s < size
      modifies this
      ensures Valid()
      ensures freeSlots == old(freeSlots) + Elements(slots) && taken == old(taken) - Elements(slots)
    {
      freeSlots := freeSlots + Elements(slots);
      taken := taken - Elements(slots);
    }
  }

  function AllSlots(n: nat): (s: set<nat>)
    ensures forall x: nat :: x in s <==> x < n
  {
    if n == 0 then {} else AllSlots(n - 1) + {n - 1}
  }
}
