/**
 The transfer buffer of a single process: `TransBuffer` over `LocalBufferStrategy`, with
 its handles. The buffer refines a map from (block, shard) to a node, evicting by a clock.
 */
module LocalTransBuffer {
  import opened Sequences
  import opened BufferIndex

  /** Number of buckets of the index. */
  const BUCKETS := 16411

  // ---------------------------------------------------------------- the abstract map

  ghost predicate Linked(nodes: seq<Meta>, i: int) {
    0 <= i < |nodes| && nodes[i].hash != NIL
  }

  ghost predicate KeysExact(h: Key -> nat, nodes: seq<Meta>, stale: int) {
    && (forall i :: Linked(nodes, i) && i != stale ==> nodes[i].hash == h(nodes[i].key))
    && (forall i, j :: Linked(nodes, i) && Linked(nodes, j) && i != stale && j != stale && i != j ==>
          nodes[i].key != nodes[j].key)
  }

  ghost predicate PlacesExact(nodes: seq<Meta>, chains: seq<seq<nat>>) {
    forall i :: 0 <= i < |nodes| ==>
      (nodes[i].hash == NIL && nodes[i].prev == NIL) || (0 <= nodes[i].hash < |chains| && i in chains[nodes[i].hash])
  }

  ghost predicate ChainsExact(nodes: seq<Meta>, first: seq<int>, chains: seq<seq<nat>>) {
    |first| == |chains| && forall b :: 0 <= b < |first| ==> Chain(nodes, first[b], chains[b], b, Calm)
  }

  /** The index is exact; only node `stale` may still carry the key it had before. */
  ghost predicate IndexExact(h: Key -> nat, nodes: seq<Meta>, first: seq<int>, chains: seq<seq<nat>>, stale: int) {
    && ChainsExact(nodes, first, chains) && PlacesExact(nodes, chains) && KeysExact(h, nodes, stale)
  }

  ghost function Keys(nodes: seq<Meta>): set<Key> {
    set i | 0 <= i < |nodes| && Linked(nodes, i) :: nodes[i].key
  }

  ghost function NodeOf(nodes: seq<Meta>, key: Key): (i: nat)
    requires key in Keys(nodes)
    ensures Linked(nodes, i) && nodes[i].key == key
  {
    var i :| 0 <= i < |nodes| && Linked(nodes, i) && nodes[i].key == key;
    i
  }

  /** The abstract value of the buffer: which node stands for which (block, shard). */
  ghost function Contents(nodes: seq<Meta>): map<Key, nat> {
    map key | key in Keys(nodes) :: NodeOf(nodes, key)
  }

  lemma ContentsAt(h: Key -> nat, nodes: seq<Meta>, i: int)
    requires KeysExact(h, nodes, NIL) && Linked(nodes, i)
    ensures nodes[i].key in Contents(nodes) && Contents(nodes)[nodes[i].key] == i
  {
  }

  /** Writes that keep the keys and the set of linked nodes keep the map. */
  lemma ContentsSame(h: Key -> nat, nodes: seq<Meta>, nodes': seq<Meta>)
    requires KeysExact(h, nodes, NIL) && KeysExact(h, nodes', NIL) && |nodes'| == |nodes|
    requires forall i :: 0 <= i < |nodes| ==> (Linked(nodes, i) <==> Linked(nodes', i))
    requires forall i :: Linked(nodes, i) ==> nodes'[i].key == nodes[i].key
    ensures Contents(nodes') == Contents(nodes)
  {
    forall key | key in Keys(nodes) ensures key in Keys(nodes') && NodeOf(nodes', key) == NodeOf(nodes, key) {
      var i := NodeOf(nodes, key);
      assert Linked(nodes', i);
    }
    forall key | key in Keys(nodes') ensures key in Keys(nodes) {
      var i := NodeOf(nodes', key);
      assert Linked(nodes, i);
    }
  }

  /** Node `v` now stands for `key`: its old key is gone, everything else is as it was. */
  lemma ContentsMoved(h: Key -> nat, nodes: seq<Meta>, nodes': seq<Meta>, v: nat, key: Key)
    requires KeysExact(h, nodes, NIL) && KeysExact(h, nodes', NIL) && |nodes'| == |nodes| && v < |nodes|
    requires key !in Keys(nodes) && Linked(nodes', v) && nodes'[v].key == key
    requires forall i :: 0 <= i < |nodes| && i != v ==> (Linked(nodes, i) <==> Linked(nodes', i))
    requires forall i :: Linked(nodes, i) && i != v ==> nodes'[i].key == nodes[i].key
    ensures Contents(nodes') == Evicted(nodes, v)[key := v]
  {
    var m := Evicted(nodes, v)[key := v];
    forall k | k in m ensures k in Contents(nodes') && Contents(nodes')[k] == m[k] {
      assert Linked(nodes', m[k]) && nodes'[m[k]].key == k;
      ContentsAt(h, nodes', m[k]);
    }
    forall k | k in Contents(nodes') ensures k in m {
      var i := NodeOf(nodes', k);
      if i != v {
        assert Linked(nodes, i);
        ContentsAt(h, nodes, i);
        if Linked(nodes, v) {
          assert nodes[v].key != k;
        }
      }
    }
  }

  /** The map once node `v` has lost the key it stood for, if it stood for one. */
  ghost function Evicted(nodes: seq<Meta>, v: nat): map<Key, nat>
    requires v < |nodes|
  {
    if Linked(nodes, v) then Contents(nodes) - {nodes[v].key} else Contents(nodes)
  }

  /** How many steps the clock hand at `from` takes to reach node `i`. */
  function Distance(from: nat, i: nat, n: nat): int {
    if i >= from then i - from else i + n - from
  }

  ghost predicate IsVictim(nodes: seq<Meta>, from: nat, v: nat) {
    && v < |nodes| && nodes[v].reference == 0
    && forall i :: 0 <= i < |nodes| && Distance(from, i, |nodes|) < Distance(from, v, |nodes|) ==>
         nodes[i].reference > 0
  }

  function ClockNext(i: nat, n: nat): nat {
    if i + 1 == n then 0 else i + 1
  }

  // ---------------------------------------------------------------- effects on the whole index

  lemma IndexFrame(h: Key -> nat, nodes: seq<Meta>, first: seq<int>, chains: seq<seq<nat>>, stale: int, i: nat, m: Meta)
    requires IndexExact(h, nodes, first, chains, stale) && i < |nodes| && SameLinks(nodes[i], m)
    requires m.key == nodes[i].key
    ensures IndexExact(h, nodes[i := m], first, chains, stale)
  {
    forall b | 0 <= b < |first| ensures Chain(nodes[i := m], first[b], chains[b], b, Calm) {
      ChainFrame(nodes, first[b], chains[b], b, Calm, i, m);
    }
  }

  /** The records after `Remove`. */
  function CutNodes(nodes: seq<Meta>, i: nat): (r: seq<Meta>)
    requires i < |nodes|
    ensures |r| == |nodes|
  {
    var p, n := nodes[i].prev, nodes[i].next;
    var n1 := if 0 <= p < |nodes| then nodes[p := nodes[p].(next := n)] else nodes;
    var n2 := if 0 <= n < |nodes| then n1[n := n1[n].(prev := p)] else n1;
    n2[i := Detached(n2[i])]
  }

  lemma CutOwnChain(nodes: seq<Meta>, head: int, ch: seq<nat>, b: nat, k: nat)
    requires k < |ch| && Chain(nodes, head, ch, b, Calm)
    ensures Chain(CutNodes(nodes, ch[k]), if head == ch[k] then nodes[ch[k]].next else head, Without(ch, k), b, Calm)
    ensures nodes[ch[k]].prev == At(ch, k - 1) && nodes[ch[k]].next == At(ch, k + 1)
  {
    var i := ch[k];
    assert nodes[i].prev == At(ch, k - 1) && nodes[i].next == At(ch, k + 1);
    ChainUntouched(nodes, head, ch, b, Calm, Unlinking(k, false, false));
    ChainCutPrev(nodes, head, ch, b, k);
    var n1 := if k == 0 then nodes else nodes[ch[k - 1] := nodes[ch[k - 1]].(next := nodes[i].next)];
    assert n1[i] == nodes[i];
    ChainCutNext(n1, head, ch, b, k);
    var n2 := if k + 1 == |ch| then n1 else n1[ch[k + 1] := n1[ch[k + 1]].(prev := nodes[i].prev)];
    assert n2[i] == nodes[i];
    ChainCutLast(n2, head, ch, b, k);
    assert CutNodes(nodes, i) == n2[i := Detached(n2[i])];
  }

  /** What `Remove` writes lies in the chain of the node, apart from the node itself. */
  lemma CutWrites(nodes: seq<Meta>, head: int, ch: seq<nat>, b: nat, k: nat)
    requires k < |ch| && Chain(nodes, head, ch, b, Calm)
    ensures CutNodes(nodes, ch[k])[ch[k]] == Detached(nodes[ch[k]])
    ensures forall j :: 0 <= j < |nodes| && j != ch[k] ==>
              && CutNodes(nodes, ch[k])[j].hash == nodes[j].hash && CutNodes(nodes, ch[k])[j].key == nodes[j].key
              && CutNodes(nodes, ch[k])[j].reference == nodes[j].reference
              && CutNodes(nodes, ch[k])[j].ready == nodes[j].ready
              && (nodes[j].hash != b ==> CutNodes(nodes, ch[k])[j] == nodes[j])
  {
    assert nodes[ch[k]].prev == At(ch, k - 1) && nodes[ch[k]].next == At(ch, k + 1);
    assert k > 0 ==> nodes[ch[k - 1]].hash == b;
    assert k + 1 < |ch| ==> nodes[ch[k + 1]].hash == b;
  }

  /** Taking a node out of its chain takes it out of the index. */
  lemma IndexCut(h: Key -> nat, nodes: seq<Meta>, first: seq<int>, chains: seq<seq<nat>>, b: nat, k: nat,
                 first': seq<int>)
    requires IndexExact(h, nodes, first, chains, NIL) && b < |chains| && k < |chains[b]|
    requires Linked(nodes, chains[b][k])
    requires first' == first[b := if first[b] == chains[b][k] then nodes[chains[b][k]].next else first[b]]
    ensures IndexExact(h, CutNodes(nodes, chains[b][k]), first', chains[b := Without(chains[b], k)], NIL)
  {
    var ch := chains[b];
    var i := ch[k];
    var nodes' := CutNodes(nodes, i);
    assert Chain(nodes, first[b], ch, b, Calm);
    CutOwnChain(nodes, first[b], ch, b, k);
    CutWrites(nodes, first[b], ch, b, k);
    assert nodes[i].hash == b;
    forall c | 0 <= c < |first| && c != b ensures Chain(nodes', first[c], chains[c], c, Calm) {
      OtherChain(nodes, nodes', first[c], chains[c], c);
    }
    WithoutDistinct(ch, k);
  }

  lemma OtherChain(nodes: seq<Meta>, nodes': seq<Meta>, head: int, ch: seq<nat>, c: nat)
    requires Chain(nodes, head, ch, c, Calm) && |nodes'| == |nodes|
    requires forall j :: 0 <= j < |nodes| && nodes[j].hash == c ==> nodes'[j] == nodes[j]
    ensures Chain(nodes', head, ch, c, Calm)
  {
  }

  /** The records after `MoveTo`. */
  function LinkNodes(nodes: seq<Meta>, i: nat, b: int, head: int): (r: seq<Meta>)
    requires i < |nodes|
    ensures |r| == |nodes|
  {
    var n1 := nodes[i := nodes[i].(next := head)];
    var n2 := if 0 <= head < |nodes| then n1[head := n1[head].(prev := i)] else n1;
    n2[i := n2[i].(hash := b)]
  }

  /** Pushing a detached node in front of a bucket; it keeps its old key for now. */
  lemma IndexLink(h: Key -> nat, nodes: seq<Meta>, first: seq<int>, chains: seq<seq<nat>>, b: nat, i: nat)
    requires IndexExact(h, nodes, first, chains, NIL) && b < |first| && i < |nodes| && !Linked(nodes, i)
    ensures IndexExact(h, LinkNodes(nodes, i, b, first[b]), first[b := i], chains[b := [i] + chains[b]], i)
  {
    var head, ch := first[b], chains[b];
    var nodes' := LinkNodes(nodes, i, b, head);
    assert Chain(nodes, head, ch, b, Calm);
    var n1 := nodes[i := nodes[i].(next := head)];
    ChainFrame(nodes, head, ch, b, Calm, i, n1[i]);
    ChainLinkPrev(n1, head, ch, b, i);
    assert ch != [] ==> nodes[ch[0]].hash == b;
    var n2 := if head == NIL then n1 else n1[head := n1[head].(prev := i)];
    assert Chain(n2, head, ch, b, Disturb.Linking(i)) && n2[i] == n1[i];
    ChainLink(n2, head, ch, b, i);
    assert nodes' == n2[i := n2[i].(hash := b)];
    forall c | 0 <= c < |first| && c != b ensures Chain(nodes', first[c], chains[c], c, Calm) {
      assert Chain(nodes, first[c], chains[c], c, Calm);
      ChainFrame(nodes, first[c], chains[c], c, Calm, i, n1[i]);
      if head != NIL {
        ChainFrame(n1, first[c], chains[c], c, Calm, head, n2[head]);
      }
      ChainFrame(n2, first[c], chains[c], c, Calm, i, nodes'[i]);
    }
    LinkPlaces(nodes, nodes', chains, b, i);
  }

  lemma LinkPlaces(nodes: seq<Meta>, nodes': seq<Meta>, chains: seq<seq<nat>>, b: nat, i: nat)
    requires b < |chains| && i < |nodes| == |nodes'| && PlacesExact(nodes, chains)
    requires nodes'[i].hash == b
    requires forall j :: 0 <= j < |nodes| && j != i ==>
               nodes'[j].hash == nodes[j].hash && (nodes[j].hash == NIL ==> nodes'[j].prev == nodes[j].prev)
    ensures PlacesExact(nodes', chains[b := [i] + chains[b]])
  {
    var ch' := [i] + chains[b];
    assert ch'[0] == i && forall j :: j in chains[b] ==> j in ch';
  }

  /** Giving the claimed node its new key makes the index exact for all nodes. */
  lemma IndexClaim(h: Key -> nat, nodes: seq<Meta>, first: seq<int>, chains: seq<seq<nat>>, i: nat, m: Meta)
    requires IndexExact(h, nodes, first, chains, i) && i < |nodes| && SameLinks(nodes[i], m)
    requires nodes[i].hash == h(m.key)
    requires forall j :: Linked(nodes, j) && j != i ==> nodes[j].key != m.key
    ensures IndexExact(h, nodes[i := m], first, chains, NIL)
  {
    forall b | 0 <= b < |first| ensures Chain(nodes[i := m], first[b], chains[b], b, Calm) {
      ChainFrame(nodes, first[b], chains[b], b, Calm, i, m);
    }
  }

  /** What `MoveTo` writes to the nodes. */
  lemma LinkWrites(nodes: seq<Meta>, i: nat, b: int, head: int)
    requires i < |nodes| && head != i
    ensures LinkNodes(nodes, i, b, head)[i] == nodes[i].(next := head, hash := b)
    ensures forall j :: 0 <= j < |nodes| && j != i ==>
              LinkNodes(nodes, i, b, head)[j] == if j == head then nodes[j].(prev := i) else nodes[j]
  {
  }

  /** Nodes other than `v` keep key, count, ready mark and bucket. */
  ghost predicate OthersKept(nodes: seq<Meta>, nodes': seq<Meta>, v: nat) {
    && |nodes'| == |nodes|
    && forall i :: 0 <= i < |nodes| && i != v ==>
         && nodes'[i].key == nodes[i].key && nodes'[i].reference == nodes[i].reference
         && nodes'[i].ready == nodes[i].ready && nodes'[i].hash == nodes[i].hash
  }

  // ---------------------------------------------------------------- the buffer

  class TransBuffer {
    const meta: array<Meta>
    const buckets: array<int>
    var freeHead: nat
    const hash: Key -> nat
    ghost var chains: seq<seq<nat>>
    // the handles in existence that hold a node
    ghost var live: set<Handle>

    ghost predicate Sized()
      reads this`freeHead, this`chains
    {
      && 0 < meta.Length && freeHead < meta.Length
      && buckets.Length == |chains| == BUCKETS
      && forall key :: hash(key) < BUCKETS
    }

    ghost predicate Indexed()
      reads this`freeHead, this`chains, meta, buckets
    {
      Sized() && IndexExact(hash, meta[..], buckets[..], chains, NIL)
    }

    /** A node's reference count is the number of handles that hold it. */
    ghost predicate HandlesMatch(nodes: seq<Meta>)
      reads this`live, live
    {
      && (forall h :: h in live ==> h.buf == this && Linked(nodes, h.pos))
      && (forall i :: 0 <= i < |nodes| ==> nodes[i].reference == CountAt(live, i))
    }

    ghost predicate Valid()
      reads this, meta, buckets, live
    {
      Indexed() && HandlesMatch(meta[..])
    }

    lemma CountsByPlace()
      requires Valid()
      ensures RightCounts(Places(live)) && Indexed()
      ensures forall h :: h in live ==> h.buf == this && h.Holds()
    {
      forall i ensures HeldAt(Places(live), i) == Holders(live, i) {
      }
    }

    /** The counts are right for handles at the recorded places. */
    ghost predicate RightCounts(places: map<Handle, int>)
      reads meta
    {
      && (forall h :: h in places ==> Linked(meta[..], places[h]))
      && (forall i :: 0 <= i < meta.Length ==> meta[i].reference == |HeldAt(places, i)|)
    }

    /** Two handles that exchanged what they hold, and their places: the counts stay right. */
    lemma ExchangeKeeps(a: Handle, b: Handle, places: map<Handle, int>)
      requires a != b && Indexed() && RightCounts(places) && live == Exchanged(places.Keys, a, b)
      requires forall h :: h in places && h != a && h != b ==> h.pos == places[h] && h.buf == this
      requires a in places ==> b.pos == places[a] && b.buf == this
      requires b in places ==> a.pos == places[b] && a.buf == this
      ensures Valid()
    {
      hide IndexExact, HeldAt, CountAt;
      forall i | 0 <= i < meta.Length ensures meta[i].reference == CountAt(live, i) {
        ExchangedCount(places, live, a, b, i);
      }
    }

    lemma LiveHandlesHold()
      requires Valid()
      ensures forall h :: h in live ==> h.buf == this && h.Holds()
    {
    }

    ghost function Map(): map<Key, nat>
      reads meta
    {
      Contents(meta[..])
    }

    /** `LocalBufferStrategy::Setup`: every bucket empty, every node detached. */
    constructor (nNode: nat, h: Key -> nat)
      requires 0 < nNode && forall key :: h(key) < BUCKETS
      ensures Valid() && fresh(meta) && fresh(buckets) && meta.Length == nNode && hash == h
      ensures Map() == map[] && live == {} && freeHead == 0
    {
      var none := Key(0, 0);
      meta := new Meta[nNode](_ => Meta(none, 0, NIL, NIL, NIL, false));
      buckets := new int[BUCKETS](_ => NIL);
      freeHead := 0;
      hash := h;
      chains := seq(BUCKETS, _ => []);
      live := {};
      new;
      assert forall i :: CountAt({}, i) == 0;
      assert Keys(meta[..]) == {};
    }

    /** The clock hand. */
    method FetchNode() returns (i: nat)
      requires Sized()
      modifies `freeHead
      ensures Sized() && i == old(freeHead) && freeHead == ClockNext(i, meta.Length)
    {
      i := freeHead;
      freeHead := freeHead + 1;
      if freeHead == meta.Length {
        freeHead := 0;
      }
    }

    /** Bucket `b` as a chain of the current records. */
    ghost predicate BucketExact(b: nat)
      reads this`chains, meta, buckets
    {
      b < buckets.Length == |chains| && Chain(meta[..], buckets[b], chains[b], b, Calm)
    }

    /** No node of bucket `b` carries the key. */
    ghost predicate NotInBucket(b: nat, key: Key)
      reads this`chains, meta, buckets
      requires BucketExact(b)
    {
      forall k {:trigger meta[chains[b][k]]} :: 0 <= k < |chains[b]| ==> meta[chains[b][k]].key != key
    }

    /** Walks a chain for the node of a key and pins it. */
    method FindAt(b: nat, key: Key) returns (i: int, owner: bool)
      requires BucketExact(b)
      modifies meta
      ensures i == NIL ==> meta[..] == old(meta[..]) && BucketExact(b) && NotInBucket(b, key)
      ensures i != NIL ==>
        && i in chains[b] && i < meta.Length && old(meta[i]).key == key
        && owner == (old(meta[i]).reference == 0)
        && meta[..] == old(meta[..])[i := old(meta[i]).(reference := old(meta[i]).reference + 1)]
    {
      i, owner := buckets[b], false;
      ghost var k := 0;
      ghost var nodes, ch := meta[..], chains[b];
      while i != NIL
        invariant k <= |ch| && i == At(ch, k) && !owner && meta[..] == nodes
        invariant forall j {:trigger nodes[ch[j]]} :: 0 <= j < k ==> nodes[ch[j]].key != key
        decreases |ch| - k
      {
        assert nodes[ch[k]].next == NextAt(ch, k, Calm);
        if meta[i].key == key {
          owner := meta[i].reference == 0;
          meta[i] := meta[i].(reference := meta[i].reference + 1);
          break;
        }
        i := meta[i].next;
        k := k + 1;
      }
    }

    /** Walks a chain for the node of a key. */
    method ExistAt(b: nat, key: Key) returns (exist: bool)
      requires BucketExact(b)
      ensures exist <==> !NotInBucket(b, key)
    {
      var i := buckets[b];
      ghost var k := 0;
      ghost var nodes, ch := meta[..], chains[b];
      while i != NIL
        invariant k <= |ch| && i == At(ch, k)
        invariant forall j {:trigger nodes[ch[j]]} :: 0 <= j < k ==> nodes[ch[j]].key != key
        decreases |ch| - k
      {
        assert nodes[ch[k]].next == NextAt(ch, k, Calm);
        if meta[i].key == key {
          return true;
        }
        i := meta[i].next;
        k := k + 1;
      }
      return false;
    }

    /** A search of the key's own bucket decides whether any node stands for the key. */
    lemma SearchDecides(key: Key)
      requires Indexed()
      ensures BucketExact(hash(key))
      ensures NotInBucket(hash(key), key) <==> key !in Map()
      ensures forall i :: i in chains[hash(key)] && meta[..][i].key == key ==>
                Linked(meta[..], i) && key in Map() && Map()[key] == i
    {
      var b := hash(key);
      assert buckets[..][b] == buckets[b];
      forall i | Linked(meta[..], i) && meta[..][i].key == key ensures i in chains[b] {
      }
      forall i | i in chains[b] && meta[..][i].key == key
        ensures Linked(meta[..], i) && key in Map() && Map()[key] == i
      {
        var k :| 0 <= k < |chains[b]| && chains[b][k] == i;
        assert meta[..][chains[b][k]].hash == b;
        ContentsAt(hash, meta[..], i);
      }
    }

    /** `Exist`: whether some node stands for the key. */
    method Exist(key: Key) returns (exist: bool)
      requires Indexed()
      ensures exist <==> key in Map()
    {
      SearchDecides(key);
      exist := ExistAt(hash(key), key);
    }

    /** Unlinks node `i` from bucket `b`, where it stands at position `k`. */
    method Remove(b: nat, i: nat, ghost k: nat)
      requires i < meta.Length && b < buckets.Length == |chains| && k < |chains[b]|
      requires NIL <= meta[i].prev < meta.Length && meta[i].prev != i
      requires NIL <= meta[i].next < meta.Length && meta[i].next != i
      modifies this`chains, meta, buckets
      ensures meta[..] == CutNodes(old(meta[..]), i)
      ensures buckets[..] == old(buckets[..][b := if buckets[b] == i then meta[i].next else buckets[b]])
      ensures chains == old(chains[b := Without(chains[b], k)])
    {
      var p := meta[i].prev;
      if p != NIL {
        meta[p] := meta[p].(next := meta[i].next);
      }
      var n := meta[i].next;
      if n != NIL {
        meta[n] := meta[n].(prev := meta[i].prev);
      }
      if buckets[b] == i {
        buckets[b] := n;
      }
      meta[i] := meta[i].(prev := NIL, next := NIL);
      meta[i] := meta[i].(hash := NIL);
      chains := chains[b := Without(chains[b], k)];
    }

    /** Pushes node `i` in front of bucket `b`. */
    method MoveTo(b: nat, i: nat)
      requires i < meta.Length && b < buckets.Length == |chains|
      requires NIL <= buckets[b] < meta.Length && buckets[b] != i
      modifies this`chains, meta, buckets
      ensures meta[..] == LinkNodes(old(meta[..]), i, b, old(buckets[b]))
      ensures buckets[..] == old(buckets[..])[b := i]
      ensures chains == old(chains)[b := [i] + old(chains)[b]]
    {
      var n := buckets[b];
      meta[i] := meta[i].(next := n);
      if n != NIL {
        meta[n] := meta[n].(prev := i);
      }
      meta[i] := meta[i].(hash := b);
      buckets[b] := i;
      chains := chains[b := [i] + chains[b]];
    }

    /** What `Remove` makes of an exact index: an exact index in which node `i` is detached. */
    lemma RemoveExact(b: nat, i: nat) returns (k: nat)
      requires Indexed() && i < meta.Length && b == meta[i].hash
      ensures b < BUCKETS && k < |chains[b]| && chains[b][k] == i
      ensures NIL <= meta[i].prev < meta.Length && NIL <= meta[i].next < meta.Length
      ensures meta[i].prev != i && meta[i].next != i
      ensures CutNodes(meta[..], i)[i] == Detached(meta[i]) && OthersKept(meta[..], CutNodes(meta[..], i), i)
      ensures IndexExact(hash, CutNodes(meta[..], i),
                         buckets[..][b := if buckets[b] == i then meta[i].next else buckets[b]],
                         chains[b := Without(chains[b], k)], NIL)
    {
      var nodes, head, ch := meta[..], buckets[..][b], chains[b];
      assert Linked(nodes, i) && i in ch;
      k :| 0 <= k < |ch| && ch[k] == i;
      assert Chain(nodes, head, ch, b, Calm);
      CutOwnChain(nodes, head, ch, b, k);
      CutWrites(nodes, head, ch, b, k);
      IndexCut(hash, nodes, buckets[..], chains, b, k, buckets[..][b := if head == i then nodes[i].next else head]);
    }

    /** What `MoveTo` makes of an exact index and a detached node: only the node's key is still old. */
    lemma MoveExact(b: nat, i: nat)
      requires Indexed() && b < BUCKETS && i < meta.Length && meta[i].hash == NIL
      ensures NIL <= buckets[b] < meta.Length && buckets[b] != i
      ensures IndexExact(hash, LinkNodes(meta[..], i, b, buckets[b]), buckets[..][b := i],
                         chains[b := [i] + chains[b]], i)
      ensures LinkNodes(meta[..], i, b, buckets[b])[i] == meta[i].(next := buckets[b], hash := b)
      ensures OthersKept(meta[..], LinkNodes(meta[..], i, b, buckets[b]), i)
    {
      var nodes, head, ch := meta[..], buckets[..][b], chains[b];
      assert Chain(nodes, head, ch, b, Calm);
      assert head != NIL ==> nodes[ch[0]].hash == b;
      LinkWrites(nodes, i, b, head);
      IndexLink(hash, nodes, buckets[..], chains, b, i);
    }

    /** Brings node `v` into the chain of bucket `b`, wherever it was before. */
    method Relocate(v: nat, b: nat)
      requires Indexed() && b < BUCKETS && v < meta.Length
      modifies this`chains, meta, buckets
      ensures Sized() && IndexExact(hash, meta[..], buckets[..], chains, v)
      ensures OthersKept(old(meta[..]), meta[..], v)
      ensures meta[v].hash == b && meta[v].reference == old(meta[v].reference)
    {
      var oldBucket := meta[v].hash;
      if oldBucket != b {
        if oldBucket != NIL {
          ghost var k := RemoveExact(oldBucket, v);
          Remove(oldBucket, v, k);
        }
        MoveExact(b, v);
        MoveTo(b, v);
      }
    }

    /** The rest of `Alloc` for an unpinned node: move it to bucket `b` and give it the key. */
    method Rekey(v: nat, key: Key, b: nat)
      requires Indexed() && b == hash(key) && key !in Map() && v < meta.Length && meta[v].reference == 0
      modifies this`chains, meta, buckets
      ensures Indexed() && Map() == Evicted(old(meta[..]), v)[key := v]
      ensures meta[v].key == key && meta[v].reference == 1 && !meta[v].ready && meta[v].hash == b
      ensures OthersKept(old(meta[..]), meta[..], v)
    {
      ghost var nodes := meta[..];
      Relocate(v, b);
      ghost var moved := meta[..];
      meta[v] := meta[v].(reference := meta[v].reference + 1);
      meta[v] := meta[v].(key := key);
      meta[v] := meta[v].(ready := false);
      assert meta[..] == moved[v := moved[v].(reference := 1, key := key, ready := false)];
      RekeyExact(nodes, moved, v, key);
    }

    /** Once the node is in the right chain, claiming it makes the index exact for the new map. */
    lemma RekeyExact(nodes: seq<Meta>, moved: seq<Meta>, v: nat, key: Key)
      requires Sized() && v < |nodes| == |moved| == meta.Length && KeysExact(hash, nodes, NIL)
      requires IndexExact(hash, moved, buckets[..], chains, v)
      requires OthersKept(nodes, moved, v) && moved[v].hash == hash(key) && key !in Contents(nodes)
      requires meta[..] == moved[v := moved[v].(reference := 1, key := key, ready := false)]
      ensures Indexed() && Map() == Evicted(nodes, v)[key := v]
    {
      forall j | Linked(moved, j) && j != v ensures moved[j].key != key {
        assert Linked(nodes, j);
        ContentsAt(hash, nodes, j);
      }
      IndexClaim(hash, moved, buckets[..], chains, v, meta[v]);
      ContentsMoved(hash, nodes, meta[..], v, key);
    }

    /** So many turns of the loop of `Alloc`: they find a node exactly if the hand comes to an unpinned one. */
    method Sweep(turns: nat) returns (found: bool, v: nat)
      requires Sized()
      modifies this`freeHead
      ensures Sized()
      ensures found <==>
        exists i :: 0 <= i < meta.Length && Distance(old(freeHead), i, meta.Length) < turns && meta[i].reference == 0
      ensures found ==> IsVictim(meta[..], old(freeHead), v) && freeHead == ClockNext(v, meta.Length)
    {
      ghost var from := freeHead;
      found, v := false, 0;
      for t := 0 to turns
        invariant Sized() && (t < meta.Length ==> Distance(from, freeHead, meta.Length) == t)
        invariant forall i :: 0 <= i < meta.Length && Distance(from, i, meta.Length) < t ==> meta[i].reference > 0
      {
        v := FetchNode();
        if meta[v].reference == 0 {
          found := true;
          return;
        }
      }
    }

    /** Re-keys the first unpinned node under the clock hand. The loop ends, within one round, if there is one. */
    method Alloc(key: Key, b: nat) returns (v: nat)
      requires Indexed() && b == hash(key) && key !in Map()
      requires exists i :: 0 <= i < meta.Length && meta[i].reference == 0
      modifies this`freeHead, this`chains, meta, buckets
      ensures Indexed() && IsVictim(old(meta[..]), old(freeHead), v) && freeHead == ClockNext(v, meta.Length)
      ensures Map() == Evicted(old(meta[..]), v)[key := v]
      ensures meta[v].key == key && meta[v].reference == 1 && !meta[v].ready && meta[v].hash == b
      ensures OthersKept(old(meta[..]), meta[..], v)
    {
      assert forall i :: 0 <= i < meta.Length ==> Distance(freeHead, i, meta.Length) < meta.Length;
      var found;
      found, v := Sweep(meta.Length);
      Rekey(v, key, b);
    }

    /** `Acquire`, `Release`, `Ready` and `MarkReady`, on behalf of the handles. */
    method Acquire(pos: nat)
      requires pos < meta.Length
      modifies meta
      ensures meta[..] == old(meta[..])[pos := old(meta[pos]).(reference := old(meta[pos]).reference + 1)]
    {
      meta[pos] := meta[pos].(reference := meta[pos].reference + 1);
    }

    method Release(pos: nat)
      requires pos < meta.Length
      modifies meta
      ensures meta[..] == old(meta[..])[pos := old(meta[pos]).(reference := Dec(old(meta[pos]).reference))]
    {
      meta[pos] := meta[pos].(reference := Dec(meta[pos].reference));
    }

    method MarkReady(pos: nat)
      requires Valid() && pos < meta.Length
      modifies meta
      ensures Valid() && meta[..] == old(meta[..])[pos := old(meta[pos]).(ready := true)]
      ensures Map() == old(Map())
    {
      ghost var nodes := meta[..];
      meta[pos] := meta[pos].(ready := true);
      assert meta[..] == nodes[pos := nodes[pos].(ready := true)];
      IndexFrame(hash, nodes, buckets[..], chains, NIL, pos, meta[pos]);
      ContentsSame(hash, nodes, meta[..]);
    }

    /** Changing one count keeps the index and the map. */
    lemma CountKeepsIndex(nodes: seq<Meta>, pos: nat, n: nat)
      requires Sized() && |nodes| == meta.Length && pos < |nodes|
      requires IndexExact(hash, nodes, buckets[..], chains, NIL)
      requires meta[..] == nodes[pos := nodes[pos].(reference := n)]
      ensures Indexed() && Map() == Contents(nodes)
    {
      IndexFrame(hash, nodes, buckets[..], chains, NIL, pos, meta[pos]);
      ContentsSame(hash, nodes, meta[..]);
    }

    /** The key is present or some node is unpinned. Otherwise the loop of `Alloc` finds no node. */
    ghost predicate CanPin(key: Key)
      reads meta
    {
      key in Map() || exists i :: 0 <= i < meta.Length && meta[i].reference == 0
    }

    /** `Get` up to the making of the handle: the pinned node and whether the caller owns it. */
    method Pin(key: Key) returns (iNode: nat, owner: bool)
      requires Indexed() && CanPin(key)
      modifies this`freeHead, this`chains, meta, buckets
      ensures Indexed() && Linked(meta[..], iNode)
      ensures OthersKept(old(meta[..]), meta[..], iNode) && meta[iNode].reference == old(meta[iNode].reference) + 1
      ensures Pinned(key, old(meta[..]), old(freeHead), iNode, owner)
    {
      ghost var nodes := meta[..];
      var iBucket := hash(key);
      SearchDecides(key);
      var i, found := FindAt(iBucket, key);
      if i == NIL {
        iNode := Alloc(key, iBucket);
        owner := true;
      } else {
        iNode, owner := i, found;
        CountKeepsIndex(nodes, iNode, nodes[iNode].reference + 1);
      }
    }

    /** How pinning `key` at node `i` changed the records `nodes` and the clock hand `from`. */
    ghost predicate Pinned(key: Key, nodes: seq<Meta>, from: nat, i: nat, owner: bool)
      reads this`freeHead, meta
    {
      && i < meta.Length == |nodes|
      && if key in Contents(nodes) then
           && i == Contents(nodes)[key] && Map() == Contents(nodes) && freeHead == from
           && (owner <==> nodes[i].reference == 0)
           && meta[..] == nodes[i := nodes[i].(reference := nodes[i].reference + 1)]
         else
           && IsVictim(nodes, from, i) && freeHead == ClockNext(i, meta.Length)
           && Map() == Evicted(nodes, i)[key := i] && owner
           && meta[i].reference == 1 && !meta[i].ready && OthersKept(nodes, meta[..], i)
    }

    /**
     A handle for the node of (block, shard). A present key is pinned once more, and the
     handle is the owner exactly when nobody held the node; an absent key takes over the
     first unpinned node under the clock hand.
     */
    method Get(key: Key) returns (h: Handle)
      requires Valid() && CanPin(key)
      modifies this`freeHead, this`chains, this`live, meta, buckets
      ensures Valid() && fresh(h) && h.buf == this && live == old(live) + {h} && h.pos >= 0
      ensures Pinned(key, old(meta[..]), old(freeHead), h.pos, h.owner)
    {
      hide IndexExact, Contents, IsVictim, Evicted, Holders, Distance, ClockNext;
      ghost var nodes := meta[..];
      var iNode, owner := Pin(key);
      h := Issue(iNode, owner, nodes);
    }

    /** The handle for node `pos`, whose count has just gone up by one. */
    method Issue(pos: nat, owner: bool, ghost nodes: seq<Meta>) returns (h: Handle)
      requires HandlesMatch(nodes) && Linked(meta[..], pos)
      requires OthersKept(nodes, meta[..], pos) && meta[pos].reference == nodes[pos].reference + 1
      modifies this`live
      ensures HandlesMatch(meta[..]) && fresh(h) && live == old(live) + {h}
      ensures h.buf == this && h.pos == pos && h.owner == owner
    {
      h := new Handle(this, pos, owner);
      Enrol(h, nodes);
    }

    /** A new handle joins the live ones; the count of its node has just gone up by one. */
    ghost method Enrol(h: Handle, nodes: seq<Meta>)
      requires HandlesMatch(nodes) && h !in live && h.buf == this && Linked(meta[..], h.pos)
      requires OthersKept(nodes, meta[..], h.pos) && meta[h.pos].reference == nodes[h.pos].reference + 1
      modifies this`live
      ensures HandlesMatch(meta[..]) && live == old(live) + {h}
    {
      forall i | 0 <= i < meta.Length ensures CountAt(live + {h}, i) == meta[i].reference {
        CountAdd(live, h, i);
      }
      live := live + {h};
    }

    /** A handle takes the place of another at the same node. */
    ghost method Replace(h: Handle, g: Handle)
      requires HandlesMatch(meta[..]) && h in live && g !in live && g.buf == this && g.pos == h.pos
      modifies this`live
      ensures HandlesMatch(meta[..]) && live == old(live) - {h} + {g}
    {
      forall i | 0 <= i < meta.Length ensures CountAt(live - {h} + {g}, i) == CountAt(live, i) {
        CountDrop(live, h, i);
        CountAdd(live - {h}, g, i);
      }
      live := live - {h} + {g};
    }

    /** A handle leaves the live ones; the count of its node has just gone down by one. */
    ghost method Retire(h: Handle, nodes: seq<Meta>)
      requires HandlesMatch(nodes) && h in live && |nodes| == meta.Length
      requires meta[..] == nodes[h.pos := nodes[h.pos].(reference := Dec(nodes[h.pos].reference))]
      modifies this`live
      ensures HandlesMatch(meta[..]) && live == old(live) - {h}
      ensures nodes[h.pos].reference > 0
    {
      assert h in Holders(live, h.pos);
      forall i | 0 <= i < meta.Length ensures CountAt(live - {h}, i) == meta[i].reference {
        CountDrop(live, h, i);
      }
      live := live - {h};
    }
  }

  ghost function Holders(hs: set<Handle>, i: int): set<Handle>
    reads hs
  {
    set h | h in hs && h.pos == i
  }

  /** How many of the handles `hs` hold node `i`. */
  ghost function CountAt(hs: set<Handle>, i: int): nat
    reads hs
  {
    |Holders(hs, i)|
  }

  lemma CountAdd(hs: set<Handle>, h: Handle, i: int)
    requires h !in hs
    ensures CountAt(hs + {h}, i) == CountAt(hs, i) + if h.pos == i then 1 else 0
  {
    assert Holders(hs + {h}, i) == Holders(hs, i) + if h.pos == i then {h} else {};
  }

  lemma CountDrop(hs: set<Handle>, h: Handle, i: int)
    requires h in hs
    ensures CountAt(hs - {h}, i) == CountAt(hs, i) - if h.pos == i then 1 else 0
  {
    CountAdd(hs - {h}, h, i);
    assert hs - {h} + {h} == hs;
  }

  // ---------------------------------------------------------------- handles

  /** A counted reference to a node; the C++ object's special members are its methods. */
  class Handle {
    var buf: TransBuffer?
    var pos: int
    var owner: bool

    constructor (b: TransBuffer, p: int, o: bool)
      ensures buf == b && pos == p && owner == o
    {
      buf, pos, owner := b, p, o;
    }

    /** `Valid()` of the source: the handle holds a node. */
    predicate Holds()
      reads this
    {
      buf != null && pos != NIL
    }

    /** A handle that holds a node is one of its buffer's live handles. */
    ghost predicate Counted()
      reads this, if buf != null then {buf, buf.meta, buf.buckets} + buf.live else {}
    {
      Holds() ==> buf.Valid() && this in buf.live
    }

    /** The copy constructor: one more live handle at the same node, with the owner mark copied. */
    constructor Copy(other: Handle)
      requires other.Counted()
      modifies if other.Holds() then {other.buf, other.buf.meta} else {}
      ensures buf == other.buf && pos == other.pos && owner == other.owner && Counted()
      ensures other.Holds() ==>
        && buf.live == old(other.buf.live) + {this} && buf.Map() == old(other.buf.Map())
        && buf.meta[pos].reference == old(other.buf.meta[other.pos].reference) + 1
    {
      buf, pos, owner := other.buf, other.pos, other.owner;
      new;
      hide IndexExact, Contents, Holders, CountAt, TransBuffer.Sized;
      if Holds() {
        ghost var nodes := buf.meta[..];
        buf.Acquire(pos);
        buf.CountKeepsIndex(nodes, pos, nodes[pos].reference + 1);
        buf.Enrol(this, nodes);
      }
    }

    /** The destructor: the handle is no longer live and its node is unpinned once. */
    method Destroy()
      requires Counted()
      modifies if Holds() then {buf, buf.meta} else {}
      ensures buf == old(buf) && pos == old(pos)
      ensures Holds() ==>
        && buf.Valid() && buf.live == old(buf.live) - {this} && buf.Map() == old(buf.Map())
        && old(buf.meta[pos].reference) > 0
        && buf.meta[pos].reference == old(buf.meta[pos].reference) - 1
    {
      if Holds() {
        ghost var nodes := buf.meta[..];
        buf.Release(pos);
        buf.CountKeepsIndex(nodes, pos, Dec(nodes[pos].reference));
        buf.Retire(this, nodes);
      }
    }

    /** The move constructor: the new handle takes the other's place among the live ones. */
    constructor Move(other: Handle)
      requires other.Counted()
      modifies other, if other.Holds() then {other.buf} else {}
      ensures buf == old(other.buf) && pos == old(other.pos) && owner == old(other.owner) && Counted()
      ensures !other.Holds() && !other.owner
      ensures Holds() ==> buf.live == old(other.buf.live) - {other} + {this} && buf.meta[..] == old(other.buf.meta[..])
    {
      buf, pos, owner := other.buf, other.pos, other.owner;
      new;
      hide IndexExact, Contents, Holders, CountAt, Linked, TransBuffer.Sized;
      if Holds() {
        buf.Replace(other, this);
      }
      other.buf := null;
      other.pos := NIL;
      other.owner := false;
    }

    /** Exchanges what two handles hold, and with it their places among the live ones. */
    method Swap(g: Handle)
      requires g != this && Counted() && g.Counted()
      modifies this, g, if Holds() then {buf} else {}, if g.Holds() then {g.buf} else {}
      ensures buf == old(g.buf) && pos == old(g.pos) && owner == old(g.owner) && Counted()
      ensures g.buf == old(buf) && g.pos == old(pos) && g.owner == old(owner) && g.Counted()
      ensures Holds() ==> buf.live == Exchanged(old(g.buf.live), this, g) && buf.meta[..] == old(g.buf.meta[..])
      ensures g.Holds() ==> g.buf.live == Exchanged(old(buf.live), this, g) && g.buf.meta[..] == old(buf.meta[..])
    {
      hide IndexExact, Contents, Holders, CountAt, HeldAt, Linked, Exchanged;
      hide TransBuffer.Sized, TransBuffer.Indexed, TransBuffer.HandlesMatch, TransBuffer.RightCounts;
      ghost var a, b := buf, g.buf;
      ghost var holds, gHolds := Holds(), g.Holds();
      ghost var wasA := if holds then Places(a.live) else map[];
      ghost var wasB := if gHolds then Places(b.live) else map[];
      if holds {
        a.CountsByPlace();
        assert wasA.Keys == a.live;
      }
      if gHolds {
        b.CountsByPlace();
        assert wasB.Keys == b.live;
      }
      ExchangedMembers(if holds then a.live else {}, this, g);
      ExchangedMembers(if gHolds then b.live else {}, this, g);
      buf, g.buf := g.buf, buf;
      pos, g.pos := g.pos, pos;
      owner, g.owner := g.owner, owner;
      if holds {
        a.live := Exchanged(a.live, this, g);
        a.ExchangeKeeps(this, g, wasA);
      }
      if gHolds && !(holds && b == a) {
        b.live := Exchanged(b.live, this, g);
        b.ExchangeKeeps(this, g, wasB);
      }
    }

    /** Different buffers have different node arrays. */
    ghost predicate Apart(other: Handle)
      reads this, other
    {
      Holds() && other.Holds() && buf != other.buf ==> buf.meta != other.buf.meta
    }

    /** `operator=(const Handle&)`: this handle lets its node go and is one more at the other's. */
    method CopyAssign(other: Handle)
      requires Counted() && other.Counted() && Apart(other)
      modifies this, if Holds() then {buf, buf.meta} else {}, if other.Holds() then {other.buf, other.buf.meta} else {}
      ensures buf == other.buf && pos == other.pos && owner == other.owner && Counted() && other.Counted()
      ensures this != other && Holds() ==> buf.live == old(other.buf.live) + {this}
      ensures this != other && old(Holds()) ==>
        old(buf).Valid() && (buf != old(buf) || !Holds() ==> old(buf).live == old(buf.live) - {this})
    {
      hide IndexExact, Contents, TransBuffer.HandlesMatch, TransBuffer.Sized, TransBuffer.Indexed;
      if Holds() {
        buf.LiveHandlesHold();
      }
      if other.Holds() {
        other.buf.LiveHandlesHold();
      }
      if this != other {
        var tmp := new Handle.Copy(other);
        Swap(tmp);
        tmp.Destroy();
      }
    }

    /** `operator=(Handle&&)`: this handle lets its node go and takes the other's place. */
    method MoveAssign(other: Handle)
      requires Counted() && other.Counted() && Apart(other)
      modifies this, other, if Holds() then {buf, buf.meta} else {}, if other.Holds() then {other.buf} else {}
      ensures buf == old(other.buf) && pos == old(other.pos) && owner == old(other.owner) && Counted()
      ensures this != other ==> !other.Holds()
      ensures this != other && Holds() ==> buf.live == old(other.buf.live) - {other} + {this}
      ensures this != other && old(Holds()) ==>
        old(buf).Valid() && (buf != old(buf) || !Holds() ==> old(buf).live == old(buf.live) - {this})
    {
      hide IndexExact, Contents, TransBuffer.HandlesMatch, TransBuffer.Sized, TransBuffer.Indexed;
      if Holds() {
        buf.LiveHandlesHold();
      }
      if other.Holds() {
        other.buf.LiveHandlesHold();
      }
      var tmp := new Handle.Move(other);
      Swap(tmp);
      tmp.Destroy();
    }
  }

  /** The set with a and b in each other's place. */
  ghost function Exchanged(hs: set<Handle>, a: Handle, b: Handle): set<Handle> {
    set h | h in hs + {a, b} && (if h == a then b else if h == b then a else h) in hs
  }

  lemma ExchangedMembers(hs: set<Handle>, a: Handle, b: Handle)
    ensures a in Exchanged(hs, a, b) <==> b in hs
    ensures b in Exchanged(hs, a, b) <==> a in hs
  {
  }

  lemma ExchangedSize(hs: set<Handle>, a: Handle, b: Handle)
    requires a != b
    ensures |Exchanged(hs, a, b)| == |hs|
  {
    hide Exchanged;
    ExchangedCases(hs, a, b);
    if a in hs && b !in hs {
      ReplacedSize(hs, a, b);
    } else if b in hs && a !in hs {
      ReplacedSize(hs, b, a);
    }
  }

  lemma ExchangedCases(hs: set<Handle>, a: Handle, b: Handle)
    requires a != b
    ensures a in hs && b !in hs ==> Exchanged(hs, a, b) == hs - {a} + {b}
    ensures b in hs && a !in hs ==> Exchanged(hs, a, b) == hs - {b} + {a}
    ensures (a in hs <==> b in hs) ==> Exchanged(hs, a, b) == hs
  {
    if a in hs && b !in hs {
      SameElements(Exchanged(hs, a, b), hs - {a} + {b});
    } else if b in hs && a !in hs {
      SameElements(Exchanged(hs, a, b), hs - {b} + {a});
    } else {
      SameElements(Exchanged(hs, a, b), hs);
    }
  }

  lemma SameElements(s: set<Handle>, t: set<Handle>)
    requires forall h :: h in s <==> h in t
    ensures s == t
  {
  }

  lemma ReplacedSize(hs: set<Handle>, a: Handle, b: Handle)
    requires a in hs && b !in hs
    ensures |hs - {a} + {b}| == |hs|
  {
  }

  ghost function Places(hs: set<Handle>): map<Handle, int>
    reads hs
  {
    map h | h in hs :: h.pos
  }

  ghost function HeldAt(places: map<Handle, int>, i: int): set<Handle> {
    set h | h in places && places[h] == i
  }

  /** Counts by recorded places, before and after two handles exchanged theirs. */
  lemma ExchangedCount(places: map<Handle, int>, hs: set<Handle>, a: Handle, b: Handle, i: int)
    requires a != b && hs == Exchanged(places.Keys, a, b)
    requires forall h :: h in places && h != a && h != b ==> h.pos == places[h]
    requires (a in places ==> b.pos == places[a]) && (b in places ==> a.pos == places[b])
    ensures CountAt(hs, i) == |HeldAt(places, i)|
  {
    var was := HeldAt(places, i);
    forall h ensures h in Holders(hs, i) <==> h in Exchanged(was, a, b) {
    }
    assert Holders(hs, i) == Exchanged(was, a, b);
    ExchangedSize(was, a, b);
  }
}
