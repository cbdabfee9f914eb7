/**
 The recycling of the store's space: the block files are pushed into a top-N heap by their time of
 change, the latest being the least, and what the heap keeps in the end is removed.
 */
module SpaceRecycle {
  import opened TopNHeap

  datatype BlockInfo = BlockInfo(path: string, timestamp: nat)

  /** `CmpTimestamp`. */
  predicate Later(a: BlockInfo, b: BlockInfo) {
    a.timestamp > b.timestamp
  }

  /** The files whose time could be read. */
  function Stamped(files: seq<BlockInfo>): (r: seq<BlockInfo>)
    ensures forall f :: f in r <==> f in files && f.timestamp != 0
  {
    if files == [] then []
    else
      var rest, f := Stamped(files[..|files| - 1]), files[|files| - 1];
      assert files == files[..|files| - 1] + [f];
      if f.timestamp == 0 then rest else rest + [f]
  }

  lemma LaterIsOrder()
    ensures Order(Later)
  {
    assert forall a, b :: OneWay(Later, a, b);
    forall a, b, c | NotLess(Later, b, a) && NotLess(Later, c, b) ensures NotLess(Later, c, a) {
    }
  }

  /** As many as fit, and none left is earlier than one removed; the latest of them goes first. */
  ghost predicate Earliest(removed: seq<BlockInfo>, all: seq<BlockInfo>, count: nat) {
    && multiset(removed) <= multiset(all)
    && |removed| == (if |all| < count then |all| else count)
    && (forall r, f :: r in removed && f in multiset(all) - multiset(removed) ==> r.timestamp <= f.timestamp)
    && (forall i, j :: 0 <= i < j < |removed| ==> removed[i].timestamp >= removed[j].timestamp)
  }

  lemma DrainedIsEarliest(pushed: seq<BlockInfo>, tops: seq<BlockInfo>, count: nat)
    requires Greatest(Later, count, multiset(tops), multiset(pushed)) && InOrder(Later, tops)
    ensures Earliest(tops, pushed, count)
  {
    forall r, f | r in tops && f in multiset(pushed) - multiset(tops) ensures r.timestamp <= f.timestamp {
      assert r in multiset(tops);
      assert NotLess(Later, r, f);
    }
    forall i, j | 0 <= i < j < |tops| ensures tops[i].timestamp >= tops[j].timestamp {
      assert NotLess(Later, tops[j], tops[i]);
    }
  }

  /** The first loop: every file with a time is pushed. */
  method Collect(files: seq<BlockInfo>, recycleNum: nat) returns (heap: TopNHeap<BlockInfo>)
    requires recycleNum > 0
    ensures fresh(heap) && fresh(heap.val) && fresh(heap.idx) && heap.Loose() && heap.Valid() && heap.less == Later
    ensures Greatest(Later, recycleNum, heap.Bag(), multiset(Stamped(files)))
  {
    hide *;
    LaterIsOrder();
    heap := new TopNHeap(recycleNum, Later);
    ghost var pushed, bags := [], [heap.Bag()];
    Started(recycleNum, bags);
    for n := 0 to |files|
      invariant fresh(heap) && fresh(heap.val) && fresh(heap.idx)
      invariant heap.Loose() && heap.Valid() && heap.Safe() && Dense(heap.idx[..], heap.size)
      invariant heap.less == Later && heap.idx.Length == recycleNum
      invariant pushed == Stamped(files[..n])
      invariant Pushes(Later, recycleNum, pushed, bags) && |bags| == |pushed| + 1 && bags[|pushed|] == heap.Bag()
    {
      StampedOne(files, n);
      if files[n].timestamp == 0 {
        continue;
      }
      heap.Push(files[n]);
      heap.SafeInPushPhase();
      OnePush(Later, recycleNum, pushed, bags, files[n], heap.Bag());
      pushed, bags := pushed + [files[n]], bags + [heap.Bag()];
    }
    assert files[..|files|] == files;
    PushPhase(Later, recycleNum, pushed, bags);
  }

  lemma Started(count: nat, bags: seq<multiset<BlockInfo>>)
    requires bags == [multiset{}]
    ensures Pushes(Later, count, [], bags)
    ensures Stamped([]) == []
  {
  }

  lemma StampedOne(files: seq<BlockInfo>, n: nat)
    requires n < |files|
    ensures Stamped(files[..n + 1]) ==
      if files[n].timestamp == 0 then Stamped(files[..n]) else Stamped(files[..n]) + [files[n]]
  {
    assert files[..n + 1][..n] == files[..n];
  }

  /** The files removed are the earliest ones, as many as are to be recycled. */
  method DoRecycle(files: seq<BlockInfo>, recycleNum: nat) returns (removed: seq<BlockInfo>)
    requires recycleNum > 0
    ensures Earliest(removed, Stamped(files), recycleNum)
  {
    hide *;
    var heap := Collect(files, recycleNum);
    removed := [];
    ghost var bags := [heap.Bag()];
    Undrained(bags);
    while heap.size > 0
      invariant fresh(heap) && fresh(heap.val) && fresh(heap.idx)
      invariant heap.Loose() && heap.Valid() && heap.less == Later
      invariant Pops(Later, removed, bags) && |bags| == |removed| + 1 && bags[|removed|] == heap.Bag()
      invariant Greatest(Later, recycleNum, bags[0], multiset(Stamped(files)))
      decreases heap.size
    {
      var top := heap.Top();
      heap.Pop();
      OnePop(Later, removed, bags, top, heap.Bag());
      removed, bags := removed + [top], bags + [heap.Bag()];
    }
    heap.EmptyBag();
    Drain(Later, removed, bags);
    DrainedIsEarliest(Stamped(files), removed, recycleNum);
  }

  lemma Undrained(bags: seq<multiset<BlockInfo>>)
    requires |bags| == 1
    ensures Pops(Later, [], bags)
  {
  }
}
