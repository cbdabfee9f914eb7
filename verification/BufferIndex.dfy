/**
 The hash index of the transfer buffer: an array of node records threaded into
 one doubly linked chain per bucket. The sequential buffer (LocalTransBuffer) and the
 locked one (SharedTransBuffer) both keep the shape stated here.
 */
module BufferIndex {
  import opened Sequences

  /** `invalidIndex`: the end of a chain, and the bucket of a node in no chain. */
  const NIL := -1

  type BlockId = nat

  datatype Key = Key(block: BlockId, shard: nat)

  /** One `BufferMetaNode`. `hash` is the bucket the node is linked into, or NIL. */
  datatype Meta = Meta(key: Key, reference: nat, hash: int, prev: int, next: int, ready: bool)

  /** Unsigned decrement of a `size_t`. */
  function Dec(n: nat): nat {
    if n == 0 then 0xFFFF_FFFF_FFFF_FFFF else n - 1
  }

  predicate SameLinks(a: Meta, b: Meta) {
    a.hash == b.hash && a.prev == b.prev && a.next == b.next
  }

  /** What a half-finished change of one chain has already done to it. */
  datatype Disturb =
    | Calm
    // the node at position `at` is being unlinked; the flags say which neighbour was redirected
    | Unlinking(at: nat, prevDone: bool, nextDone: bool)
    // node `node` is being pushed in front; the old head already points back to it
    | Linking(node: nat)

  function At(ch: seq<nat>, k: int): int {
    if 0 <= k < |ch| then ch[k] else NIL
  }

  function NextAt(ch: seq<nat>, k: int, d: Disturb): int {
    if d.Unlinking? && d.prevDone && k + 1 == d.at then At(ch, k + 2) else At(ch, k + 1)
  }

  function PrevAt(ch: seq<nat>, k: int, d: Disturb): int {
    if d.Unlinking? && d.nextDone && k == d.at + 1 then At(ch, k - 2)
    else if d.Linking? && k == 0 then d.node
    else At(ch, k - 1)
  }

  /**
   Following `next` from `head` visits exactly the nodes of `ch`, once each and in order;
   `prev` is the inverse of `next`; all of them carry bucket `b`. The two neighbours of a
   half-finished change are the only exceptions.
   */
  ghost predicate Chain(nodes: seq<Meta>, head: int, ch: seq<nat>, b: int, d: Disturb) {
    && head == At(ch, 0)
    && Distinct(ch)
    && (forall k :: 0 <= k < |ch| ==> ch[k] < |nodes|)
    && (forall k {:trigger nodes[ch[k]]} :: 0 <= k < |ch| ==>
          nodes[ch[k]].hash == b && nodes[ch[k]].next == NextAt(ch, k, d) && nodes[ch[k]].prev == PrevAt(ch, k, d))
  }

  function Without(ch: seq<nat>, k: nat): (r: seq<nat>)
    requires k < |ch|
    ensures |r| == |ch| - 1
  {
    ch[..k] + ch[k + 1..]
  }

  lemma WithoutDistinct(ch: seq<nat>, k: nat)
    requires k < |ch| && Distinct(ch)
    ensures Distinct(Without(ch, k))
    ensures forall x :: x in Without(ch, k) <==> x in ch && x != ch[k]
  {
    var ch' := Without(ch, k);
    assert forall j :: 0 <= j < |ch'| ==> ch'[j] == if j < k then ch[j] else ch[j + 1];
    forall x | x in ch && x != ch[k] ensures x in ch' {
      var j :| 0 <= j < |ch| && ch[j] == x;
      assert ch'[if j < k then j else j - 1] == x;
    }
  }

  /** A node at position `k` is at no other position. */
  /** Writes to a node that leave the links alone keep every chain. */
  lemma ChainFrame(nodes: seq<Meta>, head: int, ch: seq<nat>, b: int, d: Disturb, i: nat, m: Meta)
    requires Chain(nodes, head, ch, b, d)
    requires i < |nodes|
    requires SameLinks(nodes[i], m) || nodes[i].hash != b
    ensures Chain(nodes[i := m], head, ch, b, d)
  {
  }

  predicate Untouched(d: Disturb) {
    d.Calm? || (d.Unlinking? && !d.prevDone && !d.nextDone)
  }

  /** An unlink that has redirected no neighbour yet has not changed the chain. */
  lemma ChainUntouched(nodes: seq<Meta>, head: int, ch: seq<nat>, b: int, d: Disturb, e: Disturb)
    requires Chain(nodes, head, ch, b, d)
    requires Untouched(d) && Untouched(e)
    ensures Chain(nodes, head, ch, b, e)
  {
  }

  /** Redirecting the left neighbour of the node being unlinked. */
  lemma ChainCutPrev(nodes: seq<Meta>, head: int, ch: seq<nat>, b: int, k: nat)
    requires k < |ch| && Chain(nodes, head, ch, b, Unlinking(k, false, false))
    ensures k == 0 ==> Chain(nodes, head, ch, b, Unlinking(k, true, false))
    ensures k > 0 ==>
      Chain(nodes[ch[k - 1] := nodes[ch[k - 1]].(next := nodes[ch[k]].next)], head, ch, b, Unlinking(k, true, false))
  {
  }

  /** Redirecting the right neighbour of the node being unlinked. */
  lemma ChainCutNext(nodes: seq<Meta>, head: int, ch: seq<nat>, b: int, k: nat)
    requires k < |ch| && Chain(nodes, head, ch, b, Unlinking(k, true, false))
    ensures k + 1 == |ch| ==> Chain(nodes, head, ch, b, Unlinking(k, true, true))
    ensures k + 1 < |ch| ==>
      Chain(nodes[ch[k + 1] := nodes[ch[k + 1]].(prev := nodes[ch[k]].prev)], head, ch, b, Unlinking(k, true, true))
  {
    if k + 1 < |ch| {
      var nodes' := nodes[ch[k + 1] := nodes[ch[k + 1]].(prev := nodes[ch[k]].prev)];
      forall j | 0 <= j < |ch|
        ensures nodes'[ch[j]] == if j == k + 1 then nodes[ch[j]].(prev := At(ch, k - 1)) else nodes[ch[j]]
      {
      }
    }
  }

  function Detached(m: Meta): Meta {
    m.(prev := NIL, next := NIL, hash := NIL)
  }

  /** The last write of an unlink: the chain is exact again, without the node. */
  lemma ChainCutLast(nodes: seq<Meta>, head: int, ch: seq<nat>, b: int, k: nat)
    requires b != NIL
    requires k < |ch| && Chain(nodes, head, ch, b, Unlinking(k, true, true))
    ensures
      Chain(nodes[ch[k] := Detached(nodes[ch[k]])], if head == ch[k] then nodes[ch[k]].next else head,
            Without(ch, k), b, Calm)
  {
    var ch' := Without(ch, k);
    var nodes' := nodes[ch[k] := Detached(nodes[ch[k]])];
    var head' := if head == ch[k] then nodes[ch[k]].next else head;
    assert head' == At(ch', 0);
    forall j | 0 <= j < |ch'|
      ensures ch'[j] < |nodes'| && nodes'[ch'[j]].hash == b
      ensures nodes'[ch'[j]].next == NextAt(ch', j, Calm)
      ensures nodes'[ch'[j]].prev == PrevAt(ch', j, Calm)
    {
      var o := if j < k then j else j + 1;
      assert ch'[j] == ch[o] && nodes'[ch'[j]] == nodes[ch[o]];
    }
    WithoutDistinct(ch, k);
  }

  /** Pushing a detached node in front of a chain. */
  lemma ChainLink(nodes: seq<Meta>, head: int, ch: seq<nat>, b: int, i: nat)
    requires b != NIL && i < |nodes|
    requires Chain(nodes, head, ch, b, Linking(i))
    requires nodes[i].hash == NIL && nodes[i].prev == NIL && nodes[i].next == head
    ensures Chain(nodes[i := nodes[i].(hash := b)], i, [i] + ch, b, Calm)
  {
    var ch' := [i] + ch;
    var nodes' := nodes[i := nodes[i].(hash := b)];
    assert forall j :: 0 <= j < |ch| ==> ch[j] != i;
    forall j | 0 <= j < |ch'|
      ensures ch'[j] < |nodes'| && nodes'[ch'[j]].hash == b
      ensures nodes'[ch'[j]].next == NextAt(ch', j, Calm)
      ensures nodes'[ch'[j]].prev == PrevAt(ch', j, Calm)
    {
      if j > 0 {
        assert ch'[j] == ch[j - 1] && nodes'[ch'[j]] == nodes[ch[j - 1]];
      }
    }
    PushDistinct(ch, i);
  }

  lemma PushDistinct(ch: seq<nat>, i: nat)
    requires Distinct(ch) && i !in ch
    ensures Distinct([i] + ch)
  {
    var ch' := [i] + ch;
    assert forall j :: 0 < j < |ch'| ==> ch'[j] == ch[j - 1];
  }

  /** The back pointer of the old head. */
  lemma ChainLinkPrev(nodes: seq<Meta>, head: int, ch: seq<nat>, b: int, i: nat)
    requires Chain(nodes, head, ch, b, Calm)
    ensures ch == [] ==> Chain(nodes, head, ch, b, Linking(i))
    ensures ch != [] ==> Chain(nodes[ch[0] := nodes[ch[0]].(prev := i)], head, ch, b, Linking(i))
  {
  }
}
