/**
 What holds in every run of the shared transfer buffer: exact chains, exact searches, pin
 safety and freedom from deadlock.
 */
module SharedTransBufferTheorems {
  import opened BufferIndex
  import opened SharedTransBuffer
  import opened SharedTransBufferSteps

  // ---------------------------------------------------------------- runs

  ghost predicate Next(c: Config, s: State, s': State) {
    ConfigOk(c) && Sized(c, s) && exists t, a :: Step(c, s, s', t, a)
  }

  ghost predicate Run(c: Config, run: seq<State>) {
    && |run| > 0 && ConfigOk(c) && Init(c, run[0])
    && forall n :: 0 <= n < |run| - 1 ==> Next(c, run[n], run[n + 1])
  }

  /** The invariant holds in every state of every run, whatever the interleaving. */
  lemma {:induction false} RunKeepsInv(c: Config, run: seq<State>)
    requires Run(c, run)
    ensures forall n :: 0 <= n < |run| ==> Inv(c, run[n])
  {
    var n := 0;
    InitInv(c, run[0]);
    while n < |run| - 1
      invariant 0 <= n < |run|
      invariant forall k :: 0 <= k <= n ==> Inv(c, run[k])
    {
      assert Next(c, run[n], run[n + 1]);
      var t, a :| Step(c, run[n], run[n + 1], t, a);
      StepKeepsInv(c, run[n], run[n + 1], t, a);
      n := n + 1;
    }
  }

  /** Whenever the lock of a bucket is free, its chain is exact and holds exactly the bucket's nodes. */
  lemma FreeBucketExact(c: Config, s: State, b: int)
    requires Inv(c, s) && IsBucket(c, b) && s.bucketLock[b] == NIL
    ensures Chain(s.nodes, s.first[b], s.chains[b], b, Calm)
    ensures forall i :: 0 <= i < c.nodes ==> (i in s.chains[b] <==> s.nodes[i].hash == b)
    ensures forall i :: i in s.chains[b] ==> 0 <= i < c.nodes && c.hash(s.nodes[i].key) == b
    ensures forall i, j :: i in s.chains[b] && j in s.chains[b] && i != j ==> s.nodes[i].key != s.nodes[j].key
  {
    assert Chain(s.nodes, s.first[b], s.chains[b], b, DisturbAt(c, s, b));
    forall i | i in s.chains[b] ensures Current(s, i) {
      if Stale(s, i) {
        var u := s.nodeLock[i];
        assert HoldsNode(s.threads[u], i);
        assert PCOk(c, s, u);
        assert HoldsBucket(c, s.threads[u], b);
        assert false;
      }
    }
  }

  // ---------------------------------------------------------------- searching

  /** The node that currently stands for `key`, in the abstract map from keys to nodes. */
  ghost predicate StandsFor(s: State, i: int, key: Key)
    requires |s.nodeLock| == |s.nodes|
  {
    Current(s, i) && s.nodes[i].key == key
  }

  /** A search that ends without a hit has established that no node stands for the key. */
  lemma MissMeansAbsent(c: Config, s: State, s': State, t: nat)
    requires Inv(c, s) && Step(c, s, s', t, ScanEnd)
    ensures !exists i :: StandsFor(s, i, s.threads[t].key)
  {
    assert PCOk(c, s, t);
    ReadyAt(c, s, t);
    ScanNext(c, s, t);
    var key := s.threads[t].key;
    forall i | Current(s, i) ensures s.nodes[i].key != key {
      if s.nodes[i].key == key {
        assert false;
      }
    }
  }

  /** A hit is on the one node that stands for the key. */
  lemma HitMeansPresent(c: Config, s: State, s': State, t: nat)
    requires Inv(c, s) && Step(c, s, s', t, ScanHit)
    ensures StandsFor(s, s.threads[t].i, s.threads[t].key)
    ensures forall i :: StandsFor(s, i, s.threads[t].key) ==> i == s.threads[t].i
  {
    var pc := s.threads[t];
    var b := c.hash(pc.key);
    assert PCOk(c, s, t);
    ReadyAt(c, s, t);
    assert HoldsNode(pc, pc.i) && HoldsBucket(c, pc, b);
    assert OwnShape(c, s, t, b);
    assert Current(s, pc.i);
  }

  // ---------------------------------------------------------------- pin safety

  /**
   While a handle at node `i` is alive, no step of any thread re-keys the node, moves it to
   another chain or takes its ready mark away.
   */
  lemma PinnedNodeKept(c: Config, s: State, s': State, t: nat, a: Act, i: int)
    requires Inv(c, s) && Step(c, s, s', t, a)
    requires IsNode(c, i) && s.nodes[i].reference > 0
    ensures |s'.nodes| == |s.nodes|
    ensures s'.nodes[i].key == s.nodes[i].key && s'.nodes[i].hash == s.nodes[i].hash
    ensures s.nodes[i].ready ==> s'.nodes[i].ready
  {
    assert PCOk(c, s, t);
    ReadyAt(c, s, t);
    var j, m := StepShape(c, s, s', t, a);
    StepEffect(c, s, s', t, a, j, m);
  }

  /** A handle never sees another block: its node carries the key it was obtained for. */
  lemma HandleSeesItsKey(c: Config, run: seq<State>, n: nat, h: Handle)
    requires Run(c, run) && n < |run| && h in run[n].live
    ensures Sized(c, run[n]) && IsNode(c, h.pos) && run[n].nodes[h.pos].key == h.key
    ensures run[n].nodes[h.pos].reference == |HandlesAt(run[n], h.pos)| > 0
    ensures run[n].grants[h.pos] == 1
  {
    RunKeepsInv(c, run);
    assert Inv(c, run[n]);
    assert h in HandlesAt(run[n], h.pos);
  }

  // ---------------------------------------------------------------- deadlock

  datatype Lock = BucketLock(b: int) | NodeLock(i: int) | HeaderLock | NoLock

  /** The lock a thread must take for its next step. `BucketTryLock` never waits. */
  function Wants(c: Config, s: State, t: nat): Lock
    requires t < |s.threads|
  {
    match s.threads[t]
    case WantBucket(key, _) => BucketLock(c.hash(key))
    case Scan(_, _, i, _) => if i == NIL then NoLock else NodeLock(i)
    case Fetch(_) => HeaderLock
    case Cand(_, i) => NodeLock(i)
    case CutPrev(_, i, _, _) =>
      if 0 <= i < |s.nodes| && s.nodes[i].prev != NIL then NodeLock(s.nodes[i].prev) else NoLock
    case CutNext(_, i, _, _) =>
      if 0 <= i < |s.nodes| && s.nodes[i].next != NIL then NodeLock(s.nodes[i].next) else NoLock
    case LinkHead(_, _, n) => if n == NIL then NoLock else NodeLock(n)
    case Op(_, h) => NodeLock(h.pos)
    case _ => NoLock
  }

  function OwnerOf(s: State, l: Lock): int {
    match l
    case BucketLock(b) => if 0 <= b < |s.bucketLock| then s.bucketLock[b] else NIL
    case NodeLock(i) => if 0 <= i < |s.nodeLock| then s.nodeLock[i] else NIL
    case HeaderLock => s.headerLock
    case NoLock => NIL
  }

  /** Thread `t` is blocked on a lock that thread `u` holds. */
  predicate WaitsFor(c: Config, s: State, t: nat, u: nat)
    requires t < |s.threads|
  {
    OwnerOf(s, Wants(c, s, t)) == u
  }

  function Rank(pc: PC): nat {
    if pc.WantBucket? then 3
    else if pc.Cand? || pc.Op? then 2
    else if pc.Scan? || pc.Fetch? || pc.CutPrev? || pc.CutNext? || pc.LinkHead? then 1
    else 0
  }

  /** A node wanted as a neighbour is in the chain of a bucket the thread has locked. */
  lemma NeighbourInOwnBucket(c: Config, s: State, t: nat) returns (b: int)
    requires Inv(c, s) && t < |s.threads|
    requires Rank(s.threads[t]) == 1 && Wants(c, s, t).NodeLock?
    ensures IsBucket(c, b) && HoldsBucket(c, s.threads[t], b)
    ensures IsNode(c, Wants(c, s, t).i) && s.nodes[Wants(c, s, t).i].hash == b
    ensures HasCand(s.threads[t]) ==> Wants(c, s, t).i != s.threads[t].i
  {
    var pc := s.threads[t];
    assert PCOk(c, s, t);
    ReadyAt(c, s, t);
    b := if pc.CutPrev? || pc.CutNext? then pc.src else c.hash(pc.key);
    assert HoldsBucket(c, pc, b);
    if pc.CutPrev? || pc.CutNext? {
      CutNeighbours(c, s, t);
    }
    WantedInChain(c, s, t, b);
  }

  lemma WantedInChain(c: Config, s: State, t: nat, b: int)
    requires ConfigOk(c) && Sized(c, s) && t < |s.threads| && IsBucket(c, b) && OwnShape(c, s, t, b)
    requires PCOk(c, s, t) && Wants(c, s, t).NodeLock?
    requires var pc := s.threads[t]; var ch := s.chains[b];
      || (pc.CutPrev? && b == pc.src && s.nodes[pc.i].prev == At(ch, pc.k - 1))
      || (pc.CutNext? && b == pc.src && s.nodes[pc.i].next == At(ch, pc.k + 1))
      || ((pc.Scan? || pc.LinkHead?) && b == c.hash(pc.key))
    ensures IsNode(c, Wants(c, s, t).i) && s.nodes[Wants(c, s, t).i].hash == b
    ensures HasCand(s.threads[t]) ==> Wants(c, s, t).i != s.threads[t].i
  {
    var pc := s.threads[t];
    assert Chain(s.nodes, s.first[b], s.chains[b], b, DisturbOf(c, pc, b));
  }

  /** The holder of a node some thread wants as a neighbour is not waiting for anything. */
  lemma NeighbourHolderRuns(c: Config, s: State, t: nat, u: nat)
    requires Inv(c, s) && t < |s.threads| && u < |s.threads|
    requires Rank(s.threads[t]) == 1 && Wants(c, s, t).NodeLock? && WaitsFor(c, s, t, u)
    ensures Rank(s.threads[u]) == 0
  {
    var b := NeighbourInOwnBucket(c, s, t);
    LocksOwn(c, s, u);
    if s.threads[u].CutPrev? || s.threads[u].CutNext? || s.threads[u].LinkHead? {
      WaitingCandPlace(c, s, u);
    }
    HolderRuns(c, s, t, u, Wants(c, s, t).i, b);
  }

  lemma HolderRuns(c: Config, s: State, t: nat, u: nat, n: int, b: int)
    requires Sized(c, s) && LocksOk(c, s) && t < |s.threads| && u < |s.threads| && IsBucket(c, b)
    requires HoldsBucket(c, s.threads[t], b) && IsNode(c, n) && s.nodes[n].hash == b
    requires HasCand(s.threads[t]) ==> n != s.threads[t].i
    requires HoldsNode(s.threads[u], n)
    requires var pu := s.threads[u]; pu.CutPrev? || pu.CutNext? || pu.LinkHead? ==>
      IsNode(c, pu.i) && s.nodes[pu.i].hash == if pu.LinkHead? then NIL else pu.src
    ensures Rank(s.threads[u]) == 0
  {
    var pu := s.threads[u];
    if pu.CutPrev? || pu.CutNext? {
      OneBucketHolder(c, s, t, u, b);
    }
  }

  lemma OneBucketHolder(c: Config, s: State, t: nat, u: nat, b: int)
    requires Sized(c, s) && LocksOk(c, s) && t < |s.threads| && u < |s.threads| && IsBucket(c, b)
    requires HoldsBucket(c, s.threads[t], b) && HoldsBucket(c, s.threads[u], b)
    ensures t == u
  {
    assert HoldsBucket(c, s.threads[t], b) <==> s.bucketLock[b] == t;
    assert HoldsBucket(c, s.threads[u], b) <==> s.bucketLock[b] == u;
  }

  lemma WaitingCandPlace(c: Config, s: State, u: nat)
    requires Inv(c, s) && u < |s.threads|
    requires s.threads[u].CutPrev? || s.threads[u].CutNext? || s.threads[u].LinkHead?
    ensures IsNode(c, s.threads[u].i)
    ensures s.nodes[s.threads[u].i].hash == if s.threads[u].LinkHead? then NIL else s.threads[u].src
  {
    assert PCOk(c, s, u);
    ReadyAt(c, s, u);
    if !s.threads[u].LinkHead? {
      assert HoldsBucket(c, s.threads[u], s.threads[u].src);
      assert OwnShape(c, s, u, s.threads[u].src);
    }
  }

  /** Waiting only ever leads down the lock order: bucket, candidate, neighbour, running. */
  lemma WaitsDescend(c: Config, s: State, t: nat, u: nat)
    requires Inv(c, s) && t < |s.threads| && u < |s.threads| && WaitsFor(c, s, t, u)
    ensures Rank(s.threads[u]) < Rank(s.threads[t])
  {
    var l := Wants(c, s, t);
    match l
    case BucketLock(b) =>
      assert HoldsBucket(c, s.threads[u], b);
    case NodeLock(i) =>
      assert HoldsNode(s.threads[u], i);
      if Rank(s.threads[t]) == 1 {
        NeighbourHolderRuns(c, s, t, u);
      }
    case HeaderLock =>
    case NoLock =>
  }

  /** In a cycle of threads, the one at `n` waits for the next one. */
  predicate WaitsInCycle(c: Config, s: State, cycle: seq<nat>, n: nat)
    requires n < |cycle| && forall k :: 0 <= k < |cycle| ==> cycle[k] < |s.threads|
  {
    WaitsFor(c, s, cycle[n], cycle[if n + 1 == |cycle| then 0 else n + 1])
  }

  /** No reachable state has a cycle of threads each blocked on a lock the next one holds. */
  lemma NoDeadlockCycle(c: Config, s: State, cycle: seq<nat>)
    requires Inv(c, s) && |cycle| > 0
    requires forall n :: 0 <= n < |cycle| ==> cycle[n] < |s.threads|
    ensures exists n :: 0 <= n < |cycle| && !WaitsInCycle(c, s, cycle, n)
  {
    var n := 0;
    while n < |cycle| - 1 && WaitsInCycle(c, s, cycle, n)
      invariant 0 <= n < |cycle|
      invariant Rank(s.threads[cycle[n]]) + n <= Rank(s.threads[cycle[0]])
    {
      WaitsDescend(c, s, cycle[n], cycle[n + 1]);
      n := n + 1;
    }
    if WaitsInCycle(c, s, cycle, n) {
      WaitsDescend(c, s, cycle[n], cycle[0]);
    }
  }

  predicate Blocked(c: Config, s: State, t: nat)
    requires t < |s.threads|
  {
    OwnerOf(s, Wants(c, s, t)) != NIL
  }

  /** Following the locks from any busy thread leads, in at most three hops, to one that is not blocked. */
  lemma UnblockedBehind(c: Config, s: State, t: nat) returns (u: nat)
    requires Inv(c, s) && t < |s.threads| && s.threads[t] != Idle
    ensures u < |s.threads| && s.threads[u] != Idle && !Blocked(c, s, u)
    decreases Rank(s.threads[t])
  {
    if Blocked(c, s, t) {
      var v := OwnerOf(s, Wants(c, s, t));
      WaitsDescend(c, s, t, v);
      assert s.threads[v] != Idle by {
        match Wants(c, s, t)
        case BucketLock(b) => assert HoldsBucket(c, s.threads[v], b);
        case NodeLock(i) => assert HoldsNode(s.threads[v], i);
        case HeaderLock =>
      }
      u := UnblockedBehind(c, s, v);
    } else {
      u := t;
    }
  }

  function ScanAct(s: State, pc: PC): Act
    requires pc.Scan? || pc.ScanAt?
  {
    if pc.Scan? then if pc.i == NIL then ScanEnd else ScanLock
    else if 0 <= pc.i < |s.nodes| && s.nodes[pc.i].key == pc.key then ScanHit else ScanMiss
  }

  function CandAct(c: Config, s: State, pc: PC): Act
    requires pc.Fetch? || pc.FetchAt? || pc.Cand? || pc.CandAt?
  {
    if pc.Fetch? then FetchLock else if pc.FetchAt? then FetchNode else if pc.Cand? then CandLock
    else if !(0 <= pc.i < |s.nodes|) then CandBusy
    else
      var m := s.nodes[pc.i];
      if m.reference > 0 then CandBusy
      else if m.hash == c.hash(pc.key) then CandSame
      else if m.hash == NIL then CandFree
      else if 0 <= m.hash < |s.bucketLock| && s.bucketLock[m.hash] == NIL then TryOk else TryFail
  }

  function CutAct(s: State, pc: PC): Act
    requires Cutting(pc)
  {
    if pc.CutPrev? then if 0 <= pc.i < |s.nodes| && s.nodes[pc.i].prev == NIL then CutPrevSkip else CutPrevLock
    else if pc.CutPrevAt? then CutPrevWrite
    else if pc.CutNext? then if 0 <= pc.i < |s.nodes| && s.nodes[pc.i].next == NIL then CutNextSkip else CutNextLock
    else if pc.CutNextAt? then CutNextWrite
    else if pc.CutLast? then CutFinish
    else CutUnlock
  }

  function LinkAct(pc: PC): Act {
    if pc.Link? then LinkStart
    else if pc.LinkHead? then if pc.n == NIL then LinkSkip else LinkLock
    else if pc.LinkHeadAt? then LinkWrite
    else if pc.LinkLast? then LinkFinish
    else ClaimNode
  }

  lemma EnterEnabled(c: Config, s: State, t: nat)
    requires Ready(c, s, t) && PCOk(c, s, t) && !Blocked(c, s, t)
    requires s.threads[t].WantBucket? || s.threads[t].Answer?
    ensures exists s', a :: Step(c, s, s', t, a)
  {
    var a := if s.threads[t].WantBucket? then TakeBucket else Return;
    assert Step(c, s, AfterEnter(c, s, t, a), t, a);
  }

  lemma ScanEnabled(c: Config, s: State, t: nat)
    requires Ready(c, s, t) && PCOk(c, s, t) && !Blocked(c, s, t)
    requires s.threads[t].Scan? || s.threads[t].ScanAt?
    ensures exists s', a :: Step(c, s, s', t, a)
  {
    ScanNext(c, s, t);
    var a := ScanAct(s, s.threads[t]);
    assert Step(c, s, AfterScan(c, s, t, a), t, a);
  }

  lemma CandEnabled(c: Config, s: State, t: nat)
    requires Ready(c, s, t) && PCOk(c, s, t) && PlaceOk(c, s) && !Blocked(c, s, t)
    requires forall b :: 0 <= b < c.buckets ==> NIL <= s.bucketLock[b]
    requires s.threads[t].Fetch? || s.threads[t].FetchAt? || s.threads[t].Cand? || s.threads[t].CandAt?
    ensures exists s', a :: Step(c, s, s', t, a)
  {
    var a := CandAct(c, s, s.threads[t]);
    assert CanCand(c, s, t, a);
    assert Step(c, s, AfterCand(c, s, t, a), t, a);
  }

  lemma CutEnabled(c: Config, s: State, t: nat)
    requires Ready(c, s, t) && PCOk(c, s, t) && !Blocked(c, s, t) && Cutting(s.threads[t])
    ensures exists s', a :: Step(c, s, s', t, a)
  {
    var pc := s.threads[t];
    if pc.CutPrev? || pc.CutNext? {
      CutNeighbours(c, s, t);
      assert OwnShape(c, s, t, pc.src) by { assert HoldsBucket(c, pc, pc.src); }
      assert At(s.chains[pc.src], pc.k - 1) < c.nodes && At(s.chains[pc.src], pc.k + 1) < c.nodes;
    }
    var a := CutAct(s, pc);
    assert CanCut(c, s, t, a);
    assert Step(c, s, AfterCut(c, s, t, a), t, a);
  }

  lemma LinkEnabled(c: Config, s: State, t: nat)
    requires Ready(c, s, t) && PCOk(c, s, t) && !Blocked(c, s, t)
    requires Moving(s.threads[t]) || s.threads[t].Claim?
    ensures exists s', a :: Step(c, s, s', t, a)
  {
    var pc := s.threads[t];
    assert OwnShape(c, s, t, c.hash(pc.key)) by { assert HoldsBucket(c, pc, c.hash(pc.key)); }
    assert s.first[c.hash(pc.key)] < c.nodes;
    var a := LinkAct(pc);
    assert CanLink(c, s, t, a);
    assert Step(c, s, AfterLink(c, s, t, a), t, a);
  }

  lemma OpEnabled(c: Config, s: State, t: nat)
    requires Ready(c, s, t) && PCOk(c, s, t) && PinsOk(c, s) && !Blocked(c, s, t)
    requires s.threads[t].Op? || s.threads[t].OpAt?
    ensures exists s', a :: Step(c, s, s', t, a)
  {
    var a := if s.threads[t].Op? then OpLock else OpDo;
    assert Step(c, s, AfterOp(c, s, t, a), t, a);
  }

  /** A busy thread that is not blocked always has a next step. */
  lemma UnblockedCanStep(c: Config, s: State, t: nat)
    requires Inv(c, s) && t < |s.threads| && s.threads[t] != Idle && !Blocked(c, s, t)
    ensures exists s', a :: Step(c, s, s', t, a)
  {
    assert PCOk(c, s, t);
    ReadyAt(c, s, t);
    var pc := s.threads[t];
    if pc.WantBucket? || pc.Answer? {
      EnterEnabled(c, s, t);
    } else if pc.Scan? || pc.ScanAt? {
      ScanEnabled(c, s, t);
    } else if pc.Fetch? || pc.FetchAt? || pc.Cand? || pc.CandAt? {
      CandEnabled(c, s, t);
    } else if Cutting(pc) {
      CutEnabled(c, s, t);
    } else if pc.Op? || pc.OpAt? {
      OpEnabled(c, s, t);
    } else {
      LinkEnabled(c, s, t);
    }
  }

  /** No reachable state is stuck: while some thread is busy, some busy thread can take a step. */
  lemma SomeThreadRuns(c: Config, run: seq<State>, t: nat)
    requires Run(c, run) && t < |run[|run| - 1].threads| && run[|run| - 1].threads[t] != Idle
    ensures var s := run[|run| - 1];
      Sized(c, s) && exists u: nat, s', a :: u < |s.threads| && s.threads[u] != Idle && Step(c, s, s', u, a)
  {
    RunKeepsInv(c, run);
    var s := run[|run| - 1];
    assert Inv(c, s);
    var u := UnblockedBehind(c, s, t);
    UnblockedCanStep(c, s, u);
    var s', a :| Step(c, s, s', u, a);
    assert u < |s.threads| && s.threads[u] != Idle && Step(c, s, s', u, a);
  }
}
