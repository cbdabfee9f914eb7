/**
 The sharded hash set with linear probing. Histories of inserts and look-ups behave as a set.
 A removal empties its slot and moves nothing, so it can cut the probe path of another key;
 what every history keeps is stated first, then what inserts alone keep, then exactly when a
 removal keeps it too.
 */
module HashSet {
  import opened Wrappers
  import opened Arithmetic
  import opened BitMask

  /** A shard: its slots, and the count of slots in use. */
  datatype Shard<K> = Shard(keys: seq<Option<K>>, used: nat)

  const ShardBits: nat := 10
  const Shards: nat := 1024

  // ---------------------------------------------------------------- what a shard holds

  function Held<K>(slot: Option<K>): multiset<K> {
    if slot.Some? then multiset{slot.value} else multiset{}
  }

  /** The keys in the slots, with their multiplicities. */
  function Bag<K>(keys: seq<Option<K>>): multiset<K> {
    if keys == [] then multiset{} else Bag(keys[..|keys| - 1]) + Held(keys[|keys| - 1])
  }

  lemma {:induction false} BagStep<K>(keys: seq<Option<K>>, i: nat)
    requires i < |keys|
    ensures Bag(keys[..i + 1]) == Bag(keys[..i]) + Held(keys[i])
  {
    assert keys[..i + 1][..i] == keys[..i];
  }

  lemma {:induction false} BagUpdate<K>(keys: seq<Option<K>>, i: nat, slot: Option<K>)
    requires i < |keys|
    ensures Bag(keys[i := slot]) + Held(keys[i]) == Bag(keys) + Held(slot)
  {
    var n := |keys| - 1;
    if i < n {
      BagUpdate(keys[..n], i, slot);
      assert keys[i := slot][..n] == keys[..n][i := slot];
      BothPlus(Bag(keys[..n][i := slot]), Held(keys[i]), Bag(keys[..n]), Held(slot), Held(keys[n]));
    } else {
      assert keys[i := slot][..n] == keys[..n];
    }
  }

  lemma BothPlus<K>(a: multiset<K>, x: multiset<K>, b: multiset<K>, y: multiset<K>, c: multiset<K>)
    requires a + x == b + y
    ensures (a + c) + x == (b + c) + y
  {
    assert (a + c) + x == (a + x) + c;
    assert (b + c) + y == (b + y) + c;
  }

  lemma {:induction false} InBag<K>(keys: seq<Option<K>>, k: K)
    ensures k in Bag(keys) <==> exists i :: 0 <= i < |keys| && keys[i] == Some(k)
  {
    if keys != [] {
      var rest := keys[..|keys| - 1];
      InBag(rest, k);
      assert forall i :: 0 <= i < |rest| ==> rest[i] == keys[i];
    }
  }

  predicate HasGap<K>(keys: seq<Option<K>>) {
    exists i :: 0 <= i < |keys| && keys[i].None?
  }

  /** The bag is as large as the slots exactly when no slot is empty. */
  lemma {:induction false} BagSize<K>(keys: seq<Option<K>>)
    ensures |Bag(keys)| <= |keys|
    ensures |Bag(keys)| == |keys| <==> !HasGap(keys)
  {
    hide HasGap, Held, Bag;
    if keys == [] {
      NoneIsEmpty(keys);
    } else {
      var rest, last := keys[..|keys| - 1], keys[|keys| - 1];
      BagSize(rest);
      GapStep(rest, last);
      assert keys == rest + [last];
      BagGrows(rest, last);
    }
  }

  lemma NoneIsEmpty<K>(keys: seq<Option<K>>)
    requires keys == []
    ensures Bag(keys) == multiset{} && !HasGap(keys)
  {
  }

  lemma BagGrows<K>(rest: seq<Option<K>>, last: Option<K>)
    ensures Bag(rest + [last]) == Bag(rest) + Held(last)
    ensures |Bag(rest + [last])| == |Bag(rest)| + (if last.Some? then 1 else 0)
  {
    assert (rest + [last])[..|rest|] == rest;
  }

  lemma GapStep<K>(rest: seq<Option<K>>, last: Option<K>)
    ensures HasGap(rest + [last]) <==> HasGap(rest) || last.None?
  {
    var keys := rest + [last];
    assert forall i :: 0 <= i < |rest| ==> rest[i] == keys[i];
    assert keys[|rest|] == last;
  }

  function Cleared<K>(n: nat): seq<Option<K>> {
    seq(n, i => None)
  }

  lemma {:induction false} ClearedBag<K>(n: nat)
    ensures Bag(Cleared<K>(n)) == multiset{}
  {
    if n > 0 {
      ClearedBag<K>(n - 1);
      assert Cleared<K>(n)[..n - 1] == Cleared<K>(n - 1);
    }
  }

  // ---------------------------------------------------------------- probe paths

  ghost predicate HasCapacity(cap: nat) {
    exists n: nat :: n >= 3 && cap == Pow2(n)
  }

  function Home<K>(hash: K -> nat, k: K, cap: nat): (i: nat)
    requires HasCapacity(cap)
    ensures i < cap
  {
    HomeInRange(hash(k) / Pow2(ShardBits), cap);
    And(hash(k) / Pow2(ShardBits), cap - 1)
  }

  lemma HomeInRange(n: nat, cap: nat)
    requires HasCapacity(cap)
    ensures And(n, cap - 1) < cap
  {
    var k: nat :| k >= 3 && cap == Pow2(k);
    MaskIsRemainder(n, k);
  }

  function Probe(i: nat, cap: nat): nat
    requires cap > 0
  {
    And(i + 1, cap - 1)
  }

  /** The d-th slot of the walk that starts at `home`. */
  function Spot(home: nat, d: nat, cap: nat): nat {
    if home + d < cap then home + d else home + d - cap
  }

  /** How many probes the walk from `home` takes to slot i. */
  function Dist(home: nat, i: nat, cap: nat): (d: nat)
    requires home < cap && i < cap
    ensures d < cap && Spot(home, d, cap) == i
  {
    if i >= home then i - home else i - home + cap
  }

  /** The mask makes the probe sequence a walk around the slots. */
  lemma ProbeWalks(home: nat, d: nat, cap: nat)
    requires HasCapacity(cap) && home < cap && d < cap
    ensures Probe(Spot(home, d, cap), cap) == (if d + 1 < cap then Spot(home, d + 1, cap) else home)
  {
    var k: nat :| k >= 3 && cap == Pow2(k);
    var i := Spot(home, d, cap);
    MaskIsRemainder(i + 1, k);
    hide And, Pow2;
    if i + 1 == cap {
      QuotientUnique(cap, cap, 1, 0);
    } else {
      QuotientUnique(i + 1, cap, 0, i + 1);
    }
  }

  /** The walk from `home` meets no empty slot before i. */
  predicate Path<K>(keys: seq<Option<K>>, home: nat, i: nat)
    requires home < |keys| && i < |keys|
  {
    forall d: nat :: d < Dist(home, i, |keys|) ==> keys[Spot(home, d, |keys|)].Some?
  }

  /** A look-up from `home` meets the key. */
  predicate Finds<K(==)>(keys: seq<Option<K>>, home: nat, k: K)
    requires home < |keys|
  {
    exists i: nat :: i < |keys| && keys[i] == Some(k) && Path(keys, home, i)
  }

  // ---------------------------------------------------------------- the probe loop

  /** Where the loop stops: at the key, at an empty slot, or back at its start. */
  datatype Stop = Hit(i: nat) | Gap(i: nat) | Round

  /** The loop of `Insert`, `Contains` and `Remove`. It finds the key if its walk can, and comes round only without gaps. */
  method Seek<K(==)>(keys: seq<Option<K>>, home: nat, key: K) returns (stop: Stop)
    requires HasCapacity(|keys|) && home < |keys|
    ensures stop.Hit? ==> stop.i < |keys| && keys[stop.i] == Some(key) && Path(keys, home, stop.i)
    ensures stop.Gap? ==> stop.i < |keys| && keys[stop.i].None? && Path(keys, home, stop.i)
    ensures stop.Hit? <==> Finds(keys, home, key)
    ensures HasGap(keys) ==> !stop.Round?
  {
    var idx := home;
    ghost var d: nat := 0;
    while true
      invariant d < |keys| && idx == Spot(home, d, |keys|)
      invariant forall c: nat :: c < d ==> keys[Spot(home, c, |keys|)].Some? && keys[Spot(home, c, |keys|)] != Some(key)
      decreases |keys| - d
    {
      if keys[idx] == Some(key) {
        assert Path(keys, home, idx) && Finds(keys, home, key);
        return Hit(idx);
      }
      if keys[idx].None? {
        return Gap(idx);
      }
      ProbeWalks(home, d, |keys|);
      idx := Probe(idx, |keys|);
      if idx == home {
        forall i: nat | i < |keys| ensures keys[i].Some? && keys[i] != Some(key) {
          assert Dist(home, i, |keys|) <= d;
        }
        return Round;
      }
      d := d + 1;
    }
  }

  // ---------------------------------------------------------------- invariants of a shard

  /** Kept by every operation. */
  ghost predicate Structural<K>(s: Shard<K>) {
    && s.used == |Bag(s.keys)|
    && (s.keys != [] ==> HasCapacity(|s.keys|) && s.used < |s.keys|)
  }

  /** Every key can be met from its home. */
  ghost predicate Placed<K>(keys: seq<Option<K>>, hash: K -> nat) {
    keys != [] ==> HasCapacity(|keys|) &&
                   forall i: nat :: i < |keys| && keys[i].Some? ==> Path(keys, Home(hash, keys[i].value, |keys|), i)
  }

  ghost predicate Unique<K>(keys: seq<Option<K>>) {
    forall k :: k in Bag(keys) ==> Bag(keys)[k] == 1
  }

  /** Kept by inserts. */
  ghost predicate Exact<K>(s: Shard<K>, hash: K -> nat) {
    Structural(s) && Placed(s.keys, hash) && Unique(s.keys)
  }

  /** A look-up by its definition: false for a shard without slots. */
  ghost predicate Answers<K>(s: Shard<K>, hash: K -> nat, k: K)
    requires Structural(s)
  {
    s.keys != [] && Finds(s.keys, Home(hash, k, |s.keys|), k)
  }

  /** Between rehashes an empty slot remains, so every probe loop ends at the key or at a gap. */
  lemma GapRemains<K>(s: Shard<K>)
    requires Structural(s) && s.keys != []
    ensures HasGap(s.keys)
  {
    BagSize(s.keys);
  }

  /** What can be found is there; and where every key is placed, what is there can be found. */
  lemma FindsWhatIsPlaced<K>(s: Shard<K>, hash: K -> nat, k: K)
    requires Structural(s)
    ensures Answers(s, hash, k) ==> k in Bag(s.keys)
    ensures Placed(s.keys, hash) ==> (Answers(s, hash, k) <==> k in Bag(s.keys))
  {
    InBag(s.keys, k);
  }

  // ---------------------------------------------------------------- rehash and insert

  lemma CapacityDoubles(cap: nat)
    ensures HasCapacity(8)
    ensures HasCapacity(cap) ==> HasCapacity(2 * cap) && cap >= 8
  {
    assert Pow2(3) == 8 by {
      assert Pow2(2) == 2 * Pow2(1) && Pow2(1) == 2 * Pow2(0);
    }
    if HasCapacity(cap) {
      var k: nat :| k >= 3 && cap == Pow2(k);
      assert 2 * cap == Pow2(k + 1);
      PowAtLeast8(k);
    }
  }

  lemma {:induction false} PowAtLeast8(k: nat)
    requires k >= 3
    ensures Pow2(k) >= 8
  {
    if k == 3 {
      assert Pow2(2) == 2 * Pow2(1) && Pow2(1) == 2 * Pow2(0);
    } else {
      PowAtLeast8(k - 1);
    }
  }

  /** Filling a gap at the end of a key's path keeps every other path. */
  lemma FillKeeps<K>(keys: seq<Option<K>>, hash: K -> nat, i: nat, key: K)
    requires HasCapacity(|keys|) && Placed(keys, hash) && i < |keys| && keys[i].None?
    requires Path(keys, Home(hash, key, |keys|), i)
    ensures Placed(keys[i := Some(key)], hash)
    ensures Bag(keys[i := Some(key)]) == Bag(keys) + multiset{key}
    ensures Finds(keys[i := Some(key)], Home(hash, key, |keys|), key)
  {
    BagUpdate(keys, i, Some(key));
    var keys' := keys[i := Some(key)];
    forall j: nat | j < |keys'| && keys'[j].Some? ensures Path(keys', Home(hash, keys'[j].value, |keys'|), j) {
      assert Path(keys, Home(hash, keys'[j].value, |keys|), j);
    }
    assert keys'[i] == Some(key);
  }

  /** The probe loop of a rehash: to the first gap. */
  method SeekGap<K>(keys: seq<Option<K>>, home: nat) returns (idx: nat)
    requires HasCapacity(|keys|) && home < |keys| && HasGap(keys)
    ensures idx < |keys| && keys[idx].None? && Path(keys, home, idx)
  {
    idx := home;
    ghost var gap :| 0 <= gap < |keys| && keys[gap].None?;
    ghost var d: nat := 0;
    while keys[idx].Some?
      invariant d <= Dist(home, gap, |keys|) && idx == Spot(home, d, |keys|)
      invariant forall c: nat :: c < d ==> keys[Spot(home, c, |keys|)].Some?
      decreases |keys| - d
    {
      ProbeWalks(home, d, |keys|);
      idx := Probe(idx, |keys|);
      d := d + 1;
    }
  }

  /** Emplaces a key at the first gap of its walk. */
  method Emplace<K>(keys: seq<Option<K>>, hash: K -> nat, k: K) returns (keys': seq<Option<K>>)
    requires HasCapacity(|keys|) && Placed(keys, hash) && HasGap(keys)
    ensures |keys'| == |keys| && Placed(keys', hash) && Bag(keys') == Bag(keys) + multiset{k}
  {
    var idx := SeekGap(keys, Home(hash, k, |keys|));
    FillKeeps(keys, hash, idx, k);
    keys' := keys[idx := Some(k)];
  }

  /** What a rehash has done after the first i of the old slots. */
  ghost predicate Rehoused<K>(keys: seq<Option<K>>, used: nat, src: seq<Option<K>>, i: nat, hash: K -> nat)
    requires i <= |src|
  {
    used <= i && used == |Bag(keys)| && Bag(keys) == Bag(src[..i]) && Placed(keys, hash)
  }

  lemma StartRehash<K>(src: seq<Option<K>>, hash: K -> nat, cap: nat)
    requires HasCapacity(cap)
    ensures Rehoused(Cleared<K>(cap), 0, src, 0, hash)
  {
    ClearedBag<K>(cap);
  }

  /** One old slot: its key, if any, moves. */
  method Rehouse<K>(keys: seq<Option<K>>, used: nat, src: seq<Option<K>>, i: nat, hash: K -> nat)
    returns (keys': seq<Option<K>>, used': nat)
    requires i < |src| < |keys| && HasCapacity(|keys|) && Rehoused(keys, used, src, i, hash)
    ensures |keys'| == |keys| && Rehoused(keys', used', src, i + 1, hash)
  {
    BagStep(src, i);
    keys', used' := keys, used;
    if src[i].Some? {
      BagSize(keys);
      keys' := Emplace(keys, hash, src[i].value);
      used' := used + 1;
    }
  }

  /** The slots double, or become eight. The keys stay the same, and now every one of them is placed. */
  method RehashShard<K>(s: Shard<K>, hash: K -> nat) returns (s': Shard<K>)
    requires Structural(s)
    ensures Structural(s') && Placed(s'.keys, hash)
    ensures Bag(s'.keys) == Bag(s.keys) && s'.used == s.used
    ensures |s'.keys| == if s.keys == [] then 8 else 2 * |s.keys|
  {
    hide Bag, Placed, HasCapacity;
    var src := s.keys;
    var cap := if src == [] then 8 else 2 * |src|;
    CapacityDoubles(|src|);
    StartRehash(src, hash, cap);
    var keys, used := Cleared<K>(cap), 0;
    for i := 0 to |src|
      invariant |keys| == cap && Rehoused(keys, used, src, i, hash)
    {
      keys, used := Rehouse(keys, used, src, i, hash);
    }
    assert src[..|src|] == src;
    s' := Shard(keys, used);
  }

  /** The key goes into the gap its walk met. */
  lemma FilledShard<K>(s: Shard<K>, hash: K -> nat, i: nat, key: K)
    requires Structural(s) && s.used * 4 < |s.keys| * 3 && i < |s.keys| && s.keys[i].None?
    requires Path(s.keys, Home(hash, key, |s.keys|), i)
    ensures var s' := Shard(s.keys[i := Some(key)], s.used + 1);
      Structural(s') && Answers(s', hash, key) && Bag(s'.keys) == Bag(s.keys) + multiset{key}
      && (Placed(s.keys, hash) ==> Placed(s'.keys, hash))
  {
    CapacityDoubles(|s.keys|);
    BagUpdate(s.keys, i, Some(key));
    if Placed(s.keys, hash) {
      FillKeeps(s.keys, hash, i, key);
    }
    var keys' := s.keys[i := Some(key)];
    assert Path(keys', Home(hash, key, |keys'|), i) && keys'[i] == Some(key);
  }

  /** What the probe loop of `Insert` does: the key goes into the first gap of its walk, if the walk does not meet it. */
  ghost predicate Settled<K>(s: Shard<K>, s': Shard<K>, hash: K -> nat, key: K, added: bool)
    requires HasCapacity(|s.keys|)
  {
    if added then
      exists i: nat :: i < |s.keys| && FilledAt(s, s', Home(hash, key, |s.keys|), key, i)
    else s' == s
  }

  ghost predicate FilledAt<K>(s: Shard<K>, s': Shard<K>, home: nat, key: K, i: nat)
    requires home < |s.keys| && i < |s.keys|
  {
    s.keys[i].None? && Path(s.keys, home, i) && s' == Shard(s.keys[i := Some(key)], s.used + 1)
  }

  /** The probe loop of `Insert`. The rehash after a full round is never reached. */
  method Settle<K(==)>(s: Shard<K>, hash: K -> nat, key: K) returns (s': Shard<K>, added: bool)
    requires Structural(s) && s.used * 4 < |s.keys| * 3
    ensures HasCapacity(|s.keys|) && Settled(s, s', hash, key, added)
    ensures Structural(s') && Answers(s', hash, key) && |s'.keys| == |s.keys|
    ensures Bag(s'.keys) == Bag(s.keys) + (if added then multiset{key} else multiset{})
    ensures added <==> !Answers(s, hash, key)
    ensures Placed(s.keys, hash) ==> Placed(s'.keys, hash) && (added <==> key !in Bag(s.keys))
  {
    s', added := s, false;
    var stop := Seek(s.keys, Home(hash, key, |s.keys|), key);
    GapRemains(s);
    FindsWhatIsPlaced(s, hash, key);
    match stop
    case Hit(i) =>
    case Gap(i) =>
      FilledShard(s, hash, i, key);
      s' := Shard(s.keys[i := Some(key)], s.used + 1);
      added := true;
      assert FilledAt(s, s', Home(hash, key, |s.keys|), key, i);
    case Round =>
      assert false;
  }

  /** The shard that the probe loop of `Insert` starts from: rehashed from three quarters on. */
  ghost predicate Prepared<K>(s: Shard<K>, r: Shard<K>, hash: K -> nat) {
    && HasCapacity(|r.keys|)
    && if s.used * 4 < |s.keys| * 3 then r == s
       else
         && Bag(r.keys) == Bag(s.keys) && r.used == s.used && Placed(r.keys, hash)
         && |r.keys| == if s.keys == [] then 8 else 2 * |s.keys|
  }

  /** `Insert` on the shard: above three quarters it is rehashed first, so it has slots from then on. */
  method InsertIn<K(==)>(s: Shard<K>, hash: K -> nat, key: K) returns (s': Shard<K>, added: bool)
    requires Structural(s)
    ensures exists r: Shard<K> :: Prepared(s, r, hash) && Settled(r, s', hash, key, added)
    ensures Structural(s') && Answers(s', hash, key)
    ensures Bag(s'.keys) == Bag(s.keys) + (if added then multiset{key} else multiset{})
    ensures |s'.keys| == |s.keys| ==> (added <==> !Answers(s, hash, key))
    ensures Placed(s.keys, hash) ==> Placed(s'.keys, hash) && (added <==> key !in Bag(s.keys))
  {
    s' := s;
    CapacityDoubles(|s.keys|);
    if s.used * 4 >= |s.keys| * 3 {
      s' := RehashShard(s, hash);
    }
    var r := s';
    s', added := Settle(r, hash, key);
    assert Prepared(s, r, hash) && Settled(r, s', hash, key, added);
  }

  method ContainsIn<K(==)>(s: Shard<K>, hash: K -> nat, key: K) returns (found: bool)
    requires Structural(s)
    ensures found <==> Answers(s, hash, key)
    ensures Placed(s.keys, hash) ==> (found <==> key in Bag(s.keys))
  {
    FindsWhatIsPlaced(s, hash, key);
    if |s.keys| == 0 {
      return false;
    }
    var stop := Seek(s.keys, Home(hash, key, |s.keys|), key);
    found := stop.Hit?;
  }

  // ---------------------------------------------------------------- removal

  /** `Remove` on the shard empties the slot its look-up meets, and nothing else. */
  method RemoveIn<K(==)>(s: Shard<K>, hash: K -> nat, key: K) returns (s': Shard<K>, removed: bool)
    requires Structural(s)
    ensures Structural(s') && (removed <==> Answers(s, hash, key))
    ensures !removed ==> s' == s
    ensures removed ==> s.used > 0
    ensures removed ==> exists i: nat ::
      i < |s.keys| && s.keys[i] == Some(key) && Path(s.keys, Home(hash, key, |s.keys|), i) && s' == Emptied(s, i)
    ensures removed ==> Bag(s.keys) == Bag(s'.keys) + multiset{key}
  {
    s', removed := s, false;
    if |s.keys| == 0 {
      return;
    }
    var stop := Seek(s.keys, Home(hash, key, |s.keys|), key);
    if stop.Hit? {
      EmptiedShard(s, stop.i);
      s', removed := Shard(s.keys[stop.i := None], s.used - 1), true;
    }
  }

  function Emptied<K>(s: Shard<K>, i: nat): Shard<K>
    requires i < |s.keys| && s.used > 0
  {
    Shard(s.keys[i := None], s.used - 1)
  }

  lemma EmptiedShard<K>(s: Shard<K>, i: nat)
    requires Structural(s) && i < |s.keys| && s.keys[i].Some?
    ensures s.used > 0 && Structural(Emptied(s, i))
    ensures Bag(s.keys) == Bag(Emptied(s, i).keys) + multiset{s.keys[i].value}
  {
    BagUpdate(s.keys, i, None);
    OneLess(Bag(s.keys), Bag(s.keys[i := None]), s.keys[i].value);
  }

  lemma OneLess<K>(a: multiset<K>, b: multiset<K>, k: K)
    requires b + multiset{k} == a + multiset{}
    ensures a == b + multiset{k} && |a| == |b| + 1
  {
    assert a + multiset{} == a;
  }

  /** Slot i lies on the way of the key in slot j. */
  predicate Crosses<K>(keys: seq<Option<K>>, hash: K -> nat, i: nat, j: nat)
    requires HasCapacity(|keys|) && i < |keys| && j < |keys| && keys[j].Some?
  {
    var home := Home(hash, keys[j].value, |keys|);
    Dist(home, i, |keys|) < Dist(home, j, |keys|)
  }

  /** A path survives the emptying of a slot exactly when the slot does not lie on it. */
  lemma PathSurvives<K>(keys: seq<Option<K>>, home: nat, i: nat, j: nat)
    requires home < |keys| && i < |keys| && j < |keys| && Path(keys, home, j)
    ensures Path(keys[i := None], home, j) <==> !(Dist(home, i, |keys|) < Dist(home, j, |keys|))
  {
    var keys' := keys[i := None];
    if Dist(home, i, |keys|) < Dist(home, j, |keys|) {
      assert keys'[Spot(home, Dist(home, i, |keys|), |keys|)].None?;
    }
  }

  /** Without duplicates a key sits in one slot. */
  lemma OneSlot<K>(keys: seq<Option<K>>, j: nat, m: nat)
    requires Unique(keys) && j < |keys| && m < |keys| && keys[j].Some? && keys[j] == keys[m]
    ensures j == m
  {
    if j != m {
      var k := keys[j].value;
      var keys' := keys[j := None];
      BagUpdate(keys, j, None);
      InBag(keys', k);
      assert keys'[m] == Some(k);
      TwoCopies(Bag(keys), Bag(keys'), k);
    }
  }

  lemma TwoCopies<K>(a: multiset<K>, b: multiset<K>, k: K)
    requires b + multiset{k} == a + multiset{} && k in b
    ensures k in a && a[k] > 1
  {
    assert (b + multiset{k})[k] == b[k] + 1;
  }

  /** After the removal of slot i, another key is still there, and is found exactly when i was not on its way. */
  lemma RemovalHides<K>(s: Shard<K>, hash: K -> nat, i: nat, j: nat)
    requires Exact(s, hash) && i < |s.keys| && j < |s.keys| && i != j && s.keys[i].Some? && s.keys[j].Some?
    ensures s.used > 0 && Structural(Emptied(s, i))
    ensures Answers(Emptied(s, i), hash, s.keys[j].value) <==> !Crosses(s.keys, hash, i, j)
    ensures s.keys[j].value in Bag(Emptied(s, i).keys)
  {
    EmptiedShard(s, i);
    var keys', k := s.keys[i := None], s.keys[j].value;
    var home := Home(hash, k, |s.keys|);
    InBag(keys', k);
    assert keys'[j] == Some(k);
    PathSurvives(s.keys, home, i, j);
    if Finds(keys', home, k) {
      var m: nat :| m < |keys'| && keys'[m] == Some(k) && Path(keys', home, m);
      OneSlot(s.keys, j, m);
    }
  }

  /** Slot i lies on no other key's way. */
  predicate OffPaths<K>(keys: seq<Option<K>>, hash: K -> nat, i: nat)
    requires HasCapacity(|keys|) && i < |keys|
  {
    forall j: nat :: j < |keys| && j != i && keys[j].Some? ==> !Crosses(keys, hash, i, j)
  }

  /** So a removal leaves the set exact exactly when the slot it empties lies on no other key's way. */
  lemma RemovalExact<K>(s: Shard<K>, hash: K -> nat, i: nat)
    requires Exact(s, hash) && i < |s.keys| && s.keys[i].Some?
    ensures s.used > 0 && (Exact(Emptied(s, i), hash) <==> OffPaths(s.keys, hash, i))
  {
    EmptiedShard(s, i);
    var s' := Emptied(s, i);
    StaysUnique(Bag(s.keys), Bag(s'.keys), s.keys[i].value);
    if OffPaths(s.keys, hash, i) {
      forall j: nat | j < |s'.keys| && s'.keys[j].Some? ensures Path(s'.keys, Home(hash, s'.keys[j].value, |s'.keys|), j) {
        assert !Crosses(s.keys, hash, i, j);
        PathSurvives(s.keys, Home(hash, s.keys[j].value, |s.keys|), i, j);
      }
    } else {
      var j: nat :| j < |s.keys| && j != i && s.keys[j].Some? && Crosses(s.keys, hash, i, j);
      RemovalHides(s, hash, i, j);
      FindsWhatIsPlaced(s', hash, s.keys[j].value);
    }
  }

  lemma StaysUnique<K>(a: multiset<K>, b: multiset<K>, k: K)
    requires a == b + multiset{k} && forall x :: x in a ==> a[x] == 1
    ensures forall x :: x in b ==> b[x] == 1
  {
    forall x | x in b ensures b[x] == 1 {
      assert x in a && a[x] >= b[x];
    }
  }

  /** The first key of a shard goes to its home. */
  lemma FirstAtHome<K>(r: Shard<K>, s: Shard<K>, hash: K -> nat, a: K)
    requires Prepared(Shard([], 0), r, hash) && Settled(r, s, hash, a, true) && HasCapacity(8)
    ensures |s.keys| == 8 && s.keys[Home(hash, a, 8)] == Some(a) && s.used == 1
  {
    var home := Home(hash, a, 8);
    var i: nat :| i < 8 && FilledAt(r, s, home, a, i);
    forall k: nat | k < 8 ensures r.keys[k].None? {
      if r.keys[k].Some? {
        InBag(r.keys, r.keys[k].value);
      }
    }
    assert r.keys[Spot(home, 0, 8)].None?;
  }

  /** A second key leaves the first where it is. */
  lemma SecondKeeps<K>(s: Shard<K>, r: Shard<K>, s': Shard<K>, hash: K -> nat, b: K, i: nat)
    requires |s.keys| == 8 && s.used == 1 && i < 8 && s.keys[i].Some?
    requires Prepared(s, r, hash) && Settled(r, s', hash, b, true)
    ensures |s'.keys| == 8 && s'.keys[i] == s.keys[i]
  {
    var k: nat :| k < 8 && FilledAt(r, s', Home(hash, b, 8), b, k);
  }

  /** The key at the home of another one lies on that one's way. */
  lemma HomeIsOnTheWay<K>(s: Shard<K>, hash: K -> nat, i: nat, m: nat, b: K)
    requires Exact(s, hash) && |s.keys| == 8 && HasCapacity(8) && i == Home(hash, b, 8) && b in Bag(s.keys)
    requires s.keys[i].Some? && s.keys[i] != Some(b) && m < 8 && s.keys[m] == s.keys[i]
    ensures s.used > 0 && Structural(Emptied(s, m))
    ensures b in Bag(Emptied(s, m).keys) && !Answers(Emptied(s, m), hash, b)
  {
    OneSlot(s.keys, i, m);
    InBag(s.keys, b);
    var j :| 0 <= j < 8 && s.keys[j] == Some(b);
    RemovalHides(s, hash, i, j);
    assert Crosses(s.keys, hash, i, j);
  }

  /** Two keys of one home are inserted and the first one is removed: the second is there, and is not found. */
  method RemovalCanHide<K(==)>(hash: K -> nat, a: K, b: K) returns (s: Shard<K>, found: bool)
    requires a != b && HasCapacity(8) && Home(hash, a, 8) == Home(hash, b, 8)
    ensures Structural(s) && b in Bag(s.keys) && !found
  {
    hide Home, Answers, Bag, Settled, Placed, Path, HasCapacity;
    var empty: Shard<K> := Shard([], 0);
    EmptyIsExact(hash);
    var one, addedA := InsertIn(empty, hash, a);
    ghost var r1: Shard<K> :| Prepared(empty, r1, hash) && Settled(r1, one, hash, a, addedA);
    FirstAtHome(r1, one, hash, a);
    StaysExact(empty, one, hash, a, addedA);
    var two, addedB := InsertIn(one, hash, b);
    StaysExact(one, two, hash, b, addedB);
    ghost var r2: Shard<K> :| Prepared(one, r2, hash) && Settled(r2, two, hash, b, addedB);
    SecondKeeps(one, r2, two, hash, b, Home(hash, a, 8));
    var removed;
    FindsWhatIsPlaced(two, hash, a);
    s, removed := RemoveIn(two, hash, a);
    ghost var m: nat :| m < |two.keys| && two.keys[m] == Some(a) && s == Emptied(two, m);
    HomeIsOnTheWay(two, hash, Home(hash, a, 8), m, b);
    found := ContainsIn(s, hash, b);
  }

  lemma EmptyIsExact<K>(hash: K -> nat)
    ensures Exact(Shard([], 0), hash) && Bag<K>([]) == multiset{}
  {
  }

  // ---------------------------------------------------------------- the whole set

  /** The keys of all shards. */
  function Total<K>(shards: seq<Shard<K>>): multiset<K> {
    if shards == [] then multiset{} else Total(shards[..|shards| - 1]) + Bag(shards[|shards| - 1].keys)
  }

  lemma {:induction false} TotalUpdate<K>(shards: seq<Shard<K>>, i: nat, s: Shard<K>)
    requires i < |shards|
    ensures Total(shards[i := s]) + Bag(shards[i].keys) == Total(shards) + Bag(s.keys)
  {
    var n := |shards| - 1;
    if i < n {
      TotalUpdate(shards[..n], i, s);
      assert shards[i := s][..n] == shards[..n][i := s];
      BothPlus(Total(shards[..n][i := s]), Bag(shards[i].keys), Total(shards[..n]), Bag(s.keys), Bag(shards[n].keys));
    } else {
      assert shards[i := s][..n] == shards[..n];
    }
  }

  /** A key belongs to the shard its low hash bits name. */
  function ShardIndex<K>(hash: K -> nat, k: K): nat {
    And(hash(k), Shards - 1)
  }

  lemma ShardIndexInRange<K>(hash: K -> nat, k: K)
    ensures ShardIndex(hash, k) < Shards
  {
    assert Pow2(10) == 1024 by {
      assert Pow2(5) == 32;
      assert Pow2(10) == 32 * Pow2(5);
    }
    MaskIsRemainder(hash(k), 10);
  }

  ghost predicate Sorted<K>(shards: seq<Shard<K>>, hash: K -> nat) {
    forall i :: 0 <= i < |shards| ==>
      Structural(shards[i]) && forall k :: k in Bag(shards[i].keys) ==> ShardIndex(hash, k) == i
  }

  /** A key is in the set as often as it is in its own shard. */
  lemma {:induction false} OwnShard<K>(shards: seq<Shard<K>>, hash: K -> nat, k: K)
    requires Sorted(shards, hash)
    ensures Total(shards)[k] == if ShardIndex(hash, k) < |shards| then Bag(shards[ShardIndex(hash, k)].keys)[k] else 0
  {
    if shards != [] {
      var n := |shards| - 1;
      OwnShard(shards[..n], hash, k);
      if ShardIndex(hash, k) != n {
        assert k !in Bag(shards[n].keys);
      }
    }
  }

  function Distinct<K>(bag: multiset<K>): set<K> {
    set k | k in bag
  }

  /** Without duplicates the size is the number of distinct keys. */
  lemma {:induction false} SizeOfDistinct<K>(bag: multiset<K>)
    requires forall k :: k in bag ==> bag[k] == 1
    ensures |bag| == |Distinct(bag)|
    decreases |bag|
  {
    if bag != multiset{} {
      var k :| k in bag;
      var rest := bag - multiset{k};
      assert forall x :: x in rest ==> rest[x] == 1;
      SizeOfDistinct(rest);
      assert Distinct(bag) == Distinct(rest) + {k} && k !in Distinct(rest);
      assert |bag| == |rest| + 1;
    } else {
      assert Distinct(bag) == {};
    }
  }

  ghost predicate AllExact<K>(shards: seq<Shard<K>>, hash: K -> nat) {
    forall i :: 0 <= i < |shards| ==> Exact(shards[i], hash)
  }

  /** Under inserts and look-ups the size is the number of distinct keys. */
  lemma SizeCountsKeys<K>(shards: seq<Shard<K>>, hash: K -> nat)
    requires Sorted(shards, hash) && AllExact(shards, hash)
    ensures |Total(shards)| == |Distinct(Total(shards))|
  {
    forall k | k in Total(shards) ensures Total(shards)[k] == 1 {
      OwnShard(shards, hash, k);
      assert Unique(shards[ShardIndex(hash, k)].keys);
    }
    SizeOfDistinct(Total(shards));
  }

  class HashSet<K(==)> {
    const hash: K -> nat
    var shards: seq<Shard<K>>
    var size: int

    /** Kept by every operation. */
    ghost predicate Valid()
      reads this
    {
      |shards| == Shards && Sorted(shards, hash) && size == |Total(shards)|
    }

    /** Kept by inserts: the contents are a set, and look-ups can reach them. */
    ghost predicate IsExact()
      reads this
    {
      Valid() && AllExact(shards, hash)
    }

    ghost function Contents(): multiset<K>
      reads this
    {
      Total(shards)
    }

    constructor (h: K -> nat)
      ensures IsExact() && Contents() == multiset{} && hash == h && size == 0
    {
      hash := h;
      shards := seq(Shards, i => Shard([], 0));
      size := 0;
      new;
      NothingYet(shards);
    }

    method Insert(key: K)
      requires Valid()
      modifies this
      ensures Valid() && (old(IsExact()) ==> IsExact())
      ensures key in Contents()
      ensures Contents() == old(Contents()) || Contents() == old(Contents()) + multiset{key}
      ensures old(IsExact()) ==>
        Contents() == old(Contents()) + (if key in old(Contents()) then multiset{} else multiset{key})
      ensures size == |Contents()|
    {
      hide Total, Bag, Structural, Answers, Placed, Exact, And;
      ShardIndexInRange(hash, key);
      var i := ShardIndex(hash, key);
      assert Structural(shards[i]);
      var s', added := InsertIn(shards[i], hash, key);
      Inserted(shards, hash, i, s', key, added);
      hide ShardIndex, Sorted, AllExact;
      shards := shards[i := s'];
      if added {
        size := size + 1;
      }
    }

    method Contains(key: K) returns (found: bool)
      requires Valid()
      ensures found ==> key in Contents()
      ensures IsExact() ==> (found <==> key in Contents())
    {
      ShardIndexInRange(hash, key);
      OwnShard(shards, hash, key);
      FindsWhatIsPlaced(shards[ShardIndex(hash, key)], hash, key);
      found := ContainsIn(shards[ShardIndex(hash, key)], hash, key);
    }

    method Remove(key: K)
      requires Valid()
      modifies this
      ensures Valid() && size == |Contents()|
      ensures Contents() == old(Contents()) || Contents() + multiset{key} == old(Contents())
      ensures old(IsExact()) ==> key !in Contents()
    {
      hide Total, Bag, Structural, Answers, Placed, Exact, And;
      ShardIndexInRange(hash, key);
      var i := ShardIndex(hash, key);
      assert Structural(shards[i]);
      var s', removed := RemoveIn(shards[i], hash, key);
      Removed(shards, hash, i, s', key, removed);
      hide ShardIndex, Sorted, AllExact;
      if removed {
        shards := shards[i := s'];
        size := size - 1;
      }
    }
  }

  lemma {:induction false} NothingYet<K>(shards: seq<Shard<K>>)
    requires forall i :: 0 <= i < |shards| ==> shards[i] == Shard([], 0)
    ensures Total(shards) == multiset{}
  {
    if shards != [] {
      NothingYet(shards[..|shards| - 1]);
    }
  }

  lemma ShardGrows<K>(shards: seq<Shard<K>>, hash: K -> nat, i: nat, s': Shard<K>, key: K, added: bool)
    requires i < |shards| && Sorted(shards, hash) && i == ShardIndex(hash, key) && Structural(s')
    requires Bag(s'.keys) == Bag(shards[i].keys) + (if added then multiset{key} else multiset{})
    ensures Sorted(shards[i := s'], hash)
    ensures Total(shards[i := s']) == Total(shards) + (if added then multiset{key} else multiset{})
  {
    hide Total, Bag, Structural, And;
    TotalUpdate(shards, i, s');
    Cancel(Total(shards[i := s']), Total(shards), Bag(shards[i].keys), if added then multiset{key} else multiset{});
  }

  /** An insert into a placed shard without duplicates leaves one. */
  lemma StaysExact<K>(s: Shard<K>, s': Shard<K>, hash: K -> nat, key: K, added: bool)
    requires Exact(s, hash) && Structural(s') && Placed(s'.keys, hash) && (added <==> key !in Bag(s.keys))
    requires Bag(s'.keys) == Bag(s.keys) + (if added then multiset{key} else multiset{})
    ensures Exact(s', hash)
  {
    hide Bag;
    assert forall k :: k in Bag(s'.keys) ==> k in Bag(s.keys) || k == key;
  }

  /** What an insert into its shard does to the whole. */
  lemma Inserted<K>(shards: seq<Shard<K>>, hash: K -> nat, i: nat, s': Shard<K>, key: K, added: bool)
    requires i < |shards| && Sorted(shards, hash) && i == ShardIndex(hash, key)
    requires Structural(s') && Answers(s', hash, key)
    requires Bag(s'.keys) == Bag(shards[i].keys) + (if added then multiset{key} else multiset{})
    requires Placed(shards[i].keys, hash) ==> Placed(s'.keys, hash) && (added <==> key !in Bag(shards[i].keys))
    ensures Sorted(shards[i := s'], hash) && key in Total(shards[i := s'])
    ensures Total(shards[i := s']) == Total(shards) + (if added then multiset{key} else multiset{})
    ensures AllExact(shards, hash) ==> AllExact(shards[i := s'], hash) && (added <==> key !in Total(shards))
  {
    ShardGrows(shards, hash, i, s', key, added);
    OwnShard(shards, hash, key);
    OwnShard(shards[i := s'], hash, key);
    FindsWhatIsPlaced(s', hash, key);
    if AllExact(shards, hash) {
      assert Exact(shards[i], hash);
      hide Total, Bag, Structural, Answers, Placed, Unique, ShardIndex;
      StaysExact(shards[i], s', hash, key, added);
    }
  }

  lemma ShardShrinks<K>(shards: seq<Shard<K>>, hash: K -> nat, i: nat, s': Shard<K>, key: K)
    requires i < |shards| && Sorted(shards, hash) && Structural(s')
    requires Bag(shards[i].keys) == Bag(s'.keys) + multiset{key}
    ensures Sorted(shards[i := s'], hash)
    ensures Total(shards) == Total(shards[i := s']) + multiset{key}
  {
    hide Total, Bag, Structural, ShardIndex;
    TotalUpdate(shards, i, s');
    Cancel(Total(shards), Total(shards[i := s']), Bag(s'.keys), multiset{key});
    assert forall k :: k in Bag(s'.keys) ==> k in Bag(shards[i].keys);
  }

  lemma Cancel<K>(a: multiset<K>, b: multiset<K>, c: multiset<K>, d: multiset<K>)
    requires a + c == b + (c + d)
    ensures a == b + d
  {
    forall k | k in a + b + d ensures a[k] == (b + d)[k] {
      assert (a + c)[k] == (b + (c + d))[k];
    }
  }

  /** What a removal from its shard does to the whole. */
  lemma Removed<K>(shards: seq<Shard<K>>, hash: K -> nat, i: nat, s': Shard<K>, key: K, removed: bool)
    requires i < |shards| && Sorted(shards, hash) && i == ShardIndex(hash, key)
    requires Structural(s') && (removed <==> Answers(shards[i], hash, key))
    requires if removed then Bag(shards[i].keys) == Bag(s'.keys) + multiset{key} else s' == shards[i]
    ensures Sorted(shards[i := s'], hash)
    ensures if removed then Total(shards) == Total(shards[i := s']) + multiset{key} else shards[i := s'] == shards
    ensures AllExact(shards, hash) ==> key !in Total(shards[i := s'])
  {
    if removed {
      ShardShrinks(shards, hash, i, s', key);
    } else {
      assert shards[i := s'] == shards;
    }
    if AllExact(shards, hash) {
      NoneLeft(shards, hash, i, s', key, removed);
    }
  }

  lemma NoneLeft<K>(shards: seq<Shard<K>>, hash: K -> nat, i: nat, s': Shard<K>, key: K, removed: bool)
    requires i < |shards| && Sorted(shards[i := s'], hash) && i == ShardIndex(hash, key) && Exact(shards[i], hash)
    requires removed <==> Answers(shards[i], hash, key)
    requires if removed then Bag(shards[i].keys) == Bag(s'.keys) + multiset{key} else s' == shards[i]
    ensures key !in Total(shards[i := s'])
  {
    FindsWhatIsPlaced(shards[i], hash, key);
    OwnShard(shards[i := s'], hash, key);
    hide Total, Bag, Structural, Answers, Placed, ShardIndex;
    assert key in Bag(shards[i].keys) ==> Bag(shards[i].keys)[key] == 1;
  }
}
