/**
 Every step of every thread of the shared transfer buffer keeps the invariant. The
 argument is split by what a step can break: the lock tables, the chains, the keys,
 what the threads rely on, the pins.
 */
module SharedTransBufferSteps {
  import opened Sequences
  import opened BufferIndex
  import opened SharedTransBuffer

  // ---------------------------------------------------------------- locks are kept

  /** The locks a thread holds at one time are different locks. */
  predicate Apart(c: Config, pc: PC) {
    && (HasCand(pc) ==> IsNode(c, pc.i))
    && (Cutting(pc) ==> IsBucket(c, pc.src) && pc.src != c.hash(pc.key))
    && (pc.CutPrevAt? ==> IsNode(c, pc.p) && pc.p != pc.i)
    && (pc.CutNextAt? || pc.LinkHeadAt? ==> IsNode(c, pc.n) && pc.n != pc.i)
  }

  lemma AlwaysApart(c: Config, s: State, t: nat)
    requires ConfigOk(c) && Sized(c, s) && ShapeOk(c, s) && t < |s.threads| && PCOk(c, s, t)
    ensures Apart(c, s.threads[t])
  {
    var pc := s.threads[t];
    if Cutting(pc) {
      var b := pc.src;
      assert Chain(s.nodes, s.first[b], s.chains[b], b, DisturbAt(c, s, b));
    } else if pc.LinkHeadAt? {
      var b := c.hash(pc.key);
      assert Chain(s.nodes, s.first[b], s.chains[b], b, DisturbAt(c, s, b));
    }
  }

  /** Lock tables after a step of `t`, described for `t` alone. */
  ghost predicate LocksMoved(c: Config, s: State, s': State, t: nat)
    requires Sized(c, s) && t < |s.threads|
  {
    && Sized(c, s') && |s'.threads| == |s.threads|
    && s'.threads == s.threads[t := s'.threads[t]]
    && (forall b :: 0 <= b < c.buckets ==>
          s'.bucketLock[b] == s.bucketLock[b] || (s.bucketLock[b] in {NIL, t} && s'.bucketLock[b] in {NIL, t}))
    && (forall i :: 0 <= i < c.nodes ==>
          s'.nodeLock[i] == s.nodeLock[i] || (s.nodeLock[i] in {NIL, t} && s'.nodeLock[i] in {NIL, t}))
    && (s'.headerLock == s.headerLock || (s.headerLock in {NIL, t} && s'.headerLock in {NIL, t}))
    && (forall b :: 0 <= b < c.buckets ==> (HoldsBucket(c, s'.threads[t], b) <==> s'.bucketLock[b] == t))
    && (forall i :: 0 <= i < c.nodes ==> (HoldsNode(s'.threads[t], i) <==> s'.nodeLock[i] == t))
    && (s'.threads[t].FetchAt? <==> s'.headerLock == t)
  }

  lemma LocksKeptBy(c: Config, s: State, s': State, t: nat)
    requires Sized(c, s) && LocksOk(c, s) && t < |s.threads| && LocksMoved(c, s, s', t)
    ensures LocksOk(c, s')
  {
  }

  lemma LocksKept(c: Config, s: State, s': State, t: nat, a: Act)
    requires ConfigOk(c) && Sized(c, s) && LocksOk(c, s) && Step(c, s, s', t, a)
    requires Apart(c, s.threads[t])
    ensures LocksMoved(c, s, s', t) && LocksOk(c, s')
  {
    var pc := s.threads[t];
    assert forall b :: 0 <= b < c.buckets ==> (HoldsBucket(c, pc, b) <==> s.bucketLock[b] == t);
    assert forall i :: 0 <= i < c.nodes ==> (HoldsNode(pc, i) <==> s.nodeLock[i] == t);
    assert pc.FetchAt? <==> s.headerLock == t;
    if StepEnter(c, s, s', t, a) {
      LocksEnter(c, s, s', t, a);
    } else if StepScan(c, s, s', t, a) {
      LocksScan(c, s, s', t, a);
    } else if StepCand(c, s, s', t, a) {
      LocksCand(c, s, s', t, a);
    } else if StepCut(c, s, s', t, a) {
      LocksCut(c, s, s', t, a);
    } else if StepLink(c, s, s', t, a) {
      LocksLink(c, s, s', t, a);
    } else {
      LocksOp(c, s, s', t, a);
    }
    LocksKeptBy(c, s, s', t);
  }

  ghost predicate OwnLocks(c: Config, s: State, t: nat)
    requires Sized(c, s) && t < |s.threads|
  {
    && (forall b :: 0 <= b < c.buckets ==> (HoldsBucket(c, s.threads[t], b) <==> s.bucketLock[b] == t))
    && (forall i :: 0 <= i < c.nodes ==> (HoldsNode(s.threads[t], i) <==> s.nodeLock[i] == t))
    && (s.threads[t].FetchAt? <==> s.headerLock == t)
  }

  lemma LocksEnter(c: Config, s: State, s': State, t: nat, a: Act)
    requires ConfigOk(c) && Sized(c, s) && t < |s.threads| && OwnLocks(c, s, t) && Apart(c, s.threads[t])
    requires StepEnter(c, s, s', t, a)
    ensures LocksMoved(c, s, s', t)
  {
  }

  lemma LocksScan(c: Config, s: State, s': State, t: nat, a: Act)
    requires ConfigOk(c) && Sized(c, s) && t < |s.threads| && OwnLocks(c, s, t) && Apart(c, s.threads[t])
    requires StepScan(c, s, s', t, a)
    ensures LocksMoved(c, s, s', t)
  {
  }

  lemma LocksCand(c: Config, s: State, s': State, t: nat, a: Act)
    requires ConfigOk(c) && Sized(c, s) && t < |s.threads| && OwnLocks(c, s, t) && Apart(c, s.threads[t])
    requires StepCand(c, s, s', t, a)
    ensures LocksMoved(c, s, s', t)
  {
  }

  lemma LocksCut(c: Config, s: State, s': State, t: nat, a: Act)
    requires ConfigOk(c) && Sized(c, s) && t < |s.threads| && OwnLocks(c, s, t) && Apart(c, s.threads[t])
    requires StepCut(c, s, s', t, a)
    ensures LocksMoved(c, s, s', t)
  {
  }

  lemma LocksLink(c: Config, s: State, s': State, t: nat, a: Act)
    requires ConfigOk(c) && Sized(c, s) && t < |s.threads| && OwnLocks(c, s, t) && Apart(c, s.threads[t])
    requires StepLink(c, s, s', t, a)
    ensures LocksMoved(c, s, s', t)
  {
  }

  lemma LocksOp(c: Config, s: State, s': State, t: nat, a: Act)
    requires ConfigOk(c) && Sized(c, s) && t < |s.threads| && OwnLocks(c, s, t) && Apart(c, s.threads[t])
    requires StepOp(c, s, s', t, a)
    ensures LocksMoved(c, s, s', t)
  {
    if a.OpDo? {
      assert s'.threads == s.threads[t := Idle] && s'.headerLock == s.headerLock;
      assert s'.nodeLock == s.nodeLock[s.threads[t].h.pos := NIL] && s'.bucketLock == s.bucketLock;
    }
  }

  // ---------------------------------------------------------------- chains are kept

  /** Bucket `b` as thread `t` sees it when it holds the lock, or could take it. */
  ghost predicate OwnShape(c: Config, s: State, t: nat, b: int)
    requires Sized(c, s) && t < |s.threads| && IsBucket(c, b)
  {
    Chain(s.nodes, s.first[b], s.chains[b], b, DisturbOf(c, s.threads[t], b))
  }

  ghost predicate OwnShapes(c: Config, s: State, t: nat)
    requires Sized(c, s) && t < |s.threads|
  {
    forall b :: 0 <= b < c.buckets && s.bucketLock[b] in {NIL, t} ==> OwnShape(c, s, t, b)
  }

  /** The one node a step writes, and the buckets whose chains it may touch. */
  ghost predicate Touches(c: Config, s: State, s': State, t: nat, j: int, m: Meta)
    requires Sized(c, s) && t < |s.threads|
  {
    && Sized(c, s') && IsNode(c, j) && s'.nodes == s.nodes[j := m]
    && (forall b :: 0 <= b < c.buckets && s.bucketLock[b] !in {NIL, t} ==>
          && s'.first[b] == s.first[b] && s'.chains[b] == s.chains[b]
          && (SameLinks(s.nodes[j], m) || s.nodes[j].hash != b))
  }

  lemma OwnShapesHold(c: Config, s: State, t: nat)
    requires ConfigOk(c) && Sized(c, s) && LocksOk(c, s) && ShapeOk(c, s) && t < |s.threads|
    ensures OwnShapes(c, s, t)
  {
    forall b | 0 <= b < c.buckets && s.bucketLock[b] in {NIL, t} ensures OwnShape(c, s, t, b) {
      assert HoldsBucket(c, s.threads[t], b) <==> s.bucketLock[b] == t;
      assert Chain(s.nodes, s.first[b], s.chains[b], b, DisturbAt(c, s, b));
    }
  }

  lemma ShapeKeptBy(c: Config, s: State, s': State, t: nat, j: int, m: Meta)
    requires ConfigOk(c) && Sized(c, s) && LocksOk(c, s) && ShapeOk(c, s) && t < |s.threads|
    requires Touches(c, s, s', t, j, m)
    requires LocksMoved(c, s, s', t)
    requires forall b :: 0 <= b < c.buckets && s.bucketLock[b] in {NIL, t} ==> OwnShape(c, s', t, b)
    ensures ShapeOk(c, s')
  {
    forall b | 0 <= b < c.buckets ensures Chain(s'.nodes, s'.first[b], s'.chains[b], b, DisturbAt(c, s', b)) {
      if s.bucketLock[b] in {NIL, t} {
        assert OwnShape(c, s', t, b);
        assert HoldsBucket(c, s'.threads[t], b) <==> s'.bucketLock[b] == t;
      } else {
        assert s'.bucketLock[b] == s.bucketLock[b];
        assert Chain(s.nodes, s.first[b], s.chains[b], b, DisturbAt(c, s, b));
        assert DisturbAt(c, s', b) == DisturbAt(c, s, b);
        ChainFrame(s.nodes, s.first[b], s.chains[b], b, DisturbAt(c, s, b), j, m);
      }
    }
  }

  /** A write that keeps all links, no change of heads, and no new disturbance. */
  ghost predicate Harmless(c: Config, s: State, s': State, t: nat, j: int, m: Meta)
    requires Sized(c, s) && t < |s.threads|
  {
    && Sized(c, s') && |s'.threads| == |s.threads|
    && IsNode(c, j) && s'.nodes == s.nodes[j := m] && s'.first == s.first && s'.chains == s.chains
    && (SameLinks(s.nodes[j], m) || s.nodes[j].hash == NIL)
    && (forall b :: 0 <= b < c.buckets ==> SameDisturb(c, s.threads[t], s'.threads[t], b))
  }

  predicate SameDisturb(c: Config, pc: PC, pc': PC, b: int) {
    var d, d' := DisturbOf(c, pc, b), DisturbOf(c, pc', b);
    d == d' || (Untouched(d) && Untouched(d'))
  }

  lemma OwnShapeSame(c: Config, s: State, s': State, t: nat, j: int, m: Meta)
    requires Sized(c, s) && t < |s.threads| && OwnShapes(c, s, t) && Harmless(c, s, s', t, j, m)
    ensures ShapeStep(c, s, s', t, j, m)
  {
    forall b | 0 <= b < c.buckets && s.bucketLock[b] in {NIL, t} ensures OwnShape(c, s', t, b) {
      assert OwnShape(c, s, t, b);
      assert SameDisturb(c, s.threads[t], s'.threads[t], b);
      var d, d' := DisturbOf(c, s.threads[t], b), DisturbOf(c, s'.threads[t], b);
      ChainFrame(s.nodes, s.first[b], s.chains[b], b, d, j, m);
      if d != d' {
        ChainUntouched(s'.nodes, s.first[b], s.chains[b], b, d, d');
      }
    }
  }

  /** The common facts every shape lemma below starts from. */
  ghost predicate Ready(c: Config, s: State, t: nat) {
    && ConfigOk(c) && Sized(c, s) && t < |s.threads|
    && Position(c, s, t) && Apart(c, s.threads[t]) && OwnShapes(c, s, t) && OwnLocks(c, s, t)
  }

  /** Where the nodes named by the program counter stand in the chain being changed. */
  ghost predicate Position(c: Config, s: State, t: nat)
    requires Sized(c, s) && t < |s.threads|
  {
    var pc := s.threads[t];
    && (HasCand(pc) ==> IsNode(c, pc.i))
    && (Cutting(pc) && !pc.Cut? ==>
          IsBucket(c, pc.src) && pc.k < |s.chains[pc.src]| && s.chains[pc.src][pc.k] == pc.i)
    && (pc.CutPrevAt? ==> pc.k > 0 && pc.p == s.chains[pc.src][pc.k - 1] && IsNode(c, pc.p))
    && (pc.CutNextAt? ==>
          pc.k + 1 < |s.chains[pc.src]| && pc.n == s.chains[pc.src][pc.k + 1] && IsNode(c, pc.n))
    && (Moving(pc) ==> s.nodes[pc.i].hash == NIL && s.nodes[pc.i].prev == NIL)
    && (pc.LinkHead? || pc.LinkHeadAt? || pc.LinkLast? ==>
          IsBucket(c, c.hash(pc.key)) && s.nodes[pc.i].next == s.first[c.hash(pc.key)])
    && (pc.LinkHead? || pc.LinkHeadAt? ==> pc.n == s.first[c.hash(pc.key)])
    && (pc.LinkHeadAt? ==> IsNode(c, pc.n))
  }

  ghost predicate ShapeStep(c: Config, s: State, s': State, t: nat, j: int, m: Meta)
    requires Sized(c, s) && t < |s.threads| == |s'.threads|
  {
    && Touches(c, s, s', t, j, m)
    && forall b :: 0 <= b < c.buckets && s.bucketLock[b] in {NIL, t} ==> OwnShape(c, s', t, b)
  }

  lemma HarmlessEnter(c: Config, s: State, s': State, t: nat, a: Act) returns (j: int, m: Meta)
    requires ConfigOk(c) && Sized(c, s) && t < |s.threads| && Apart(c, s.threads[t])
    requires StepEnter(c, s, s', t, a)
    ensures Harmless(c, s, s', t, j, m)
  {
    j := 0;
    m := s'.nodes[j];
  }

  lemma ShapeEnter(c: Config, s: State, s': State, t: nat, a: Act) returns (j: int, m: Meta)
    requires Ready(c, s, t) && StepEnter(c, s, s', t, a)
    ensures |s'.threads| == |s.threads| && ShapeStep(c, s, s', t, j, m)
  {
    j, m := HarmlessEnter(c, s, s', t, a);
    OwnShapeSame(c, s, s', t, j, m);
  }

  lemma HarmlessScan(c: Config, s: State, s': State, t: nat, a: Act) returns (j: int, m: Meta)
    requires ConfigOk(c) && Sized(c, s) && t < |s.threads| && Apart(c, s.threads[t])
    requires StepScan(c, s, s', t, a)
    ensures Harmless(c, s, s', t, j, m)
  {
    j := if a.ScanHit? then s.threads[t].i else 0;
    m := s'.nodes[j];
  }

  lemma ShapeScan(c: Config, s: State, s': State, t: nat, a: Act) returns (j: int, m: Meta)
    requires Ready(c, s, t) && StepScan(c, s, s', t, a)
    ensures |s'.threads| == |s.threads| && ShapeStep(c, s, s', t, j, m)
  {
    j, m := HarmlessScan(c, s, s', t, a);
    OwnShapeSame(c, s, s', t, j, m);
  }

  lemma HarmlessCand(c: Config, s: State, s': State, t: nat, a: Act) returns (j: int, m: Meta)
    requires ConfigOk(c) && Sized(c, s) && t < |s.threads| && Apart(c, s.threads[t])
    requires StepCand(c, s, s', t, a)
    ensures Harmless(c, s, s', t, j, m)
  {
    j := 0;
    m := s'.nodes[j];
  }

  lemma ShapeCand(c: Config, s: State, s': State, t: nat, a: Act) returns (j: int, m: Meta)
    requires Ready(c, s, t) && StepCand(c, s, s', t, a)
    ensures |s'.threads| == |s.threads| && ShapeStep(c, s, s', t, j, m)
  {
    j, m := HarmlessCand(c, s, s', t, a);
    OwnShapeSame(c, s, s', t, j, m);
  }

  lemma HarmlessOp(c: Config, s: State, s': State, t: nat, a: Act) returns (j: int, m: Meta)
    requires ConfigOk(c) && Sized(c, s) && t < |s.threads| && Apart(c, s.threads[t])
    requires StepOp(c, s, s', t, a)
    ensures Harmless(c, s, s', t, j, m)
  {
    j := if a.OpDo? then s.threads[t].h.pos else 0;
    m := s'.nodes[j];
  }

  lemma ShapeOp(c: Config, s: State, s': State, t: nat, a: Act) returns (j: int, m: Meta)
    requires Ready(c, s, t) && StepOp(c, s, s', t, a)
    ensures |s'.threads| == |s.threads| && ShapeStep(c, s, s', t, j, m)
  {
    j, m := HarmlessOp(c, s, s', t, a);
    OwnShapeSame(c, s, s', t, j, m);
  }

  lemma CutPrevShape(c: Config, s: State, s': State, t: nat, a: Act, b: int)
    requires ConfigOk(c) && Sized(c, s) && t < |s.threads| && Position(c, s, t)
    requires StepCut(c, s, s', t, a) && (a.CutPrevSkip? || a.CutPrevWrite?)
    requires IsBucket(c, b) && b == s.threads[t].src
    requires Chain(s.nodes, s.first[b], s.chains[b], b, Unlinking(s.threads[t].k, false, false))
    ensures Sized(c, s') && Chain(s'.nodes, s'.first[b], s'.chains[b], b, Unlinking(s.threads[t].k, true, false))
  {
    var pc := s.threads[t];
    var ch := s.chains[b];
    ChainCutPrev(s.nodes, s.first[b], ch, b, pc.k);
    if a.CutPrevWrite? {
      assert s'.nodes == s.nodes[ch[pc.k - 1] := s.nodes[ch[pc.k - 1]].(next := s.nodes[ch[pc.k]].next)];
    }
  }

  lemma CutNextShape(c: Config, s: State, s': State, t: nat, a: Act, b: int)
    requires ConfigOk(c) && Sized(c, s) && t < |s.threads| && Position(c, s, t)
    requires StepCut(c, s, s', t, a) && (a.CutNextSkip? || a.CutNextWrite?)
    requires IsBucket(c, b) && b == s.threads[t].src
    requires Chain(s.nodes, s.first[b], s.chains[b], b, Unlinking(s.threads[t].k, true, false))
    ensures Sized(c, s') && Chain(s'.nodes, s'.first[b], s'.chains[b], b, Unlinking(s.threads[t].k, true, true))
  {
    var pc := s.threads[t];
    var ch := s.chains[b];
    ChainCutNext(s.nodes, s.first[b], ch, b, pc.k);
    if a.CutNextWrite? {
      assert s'.nodes == s.nodes[ch[pc.k + 1] := s.nodes[ch[pc.k + 1]].(prev := s.nodes[ch[pc.k]].prev)];
    }
  }

  lemma CutFinishShape(c: Config, s: State, s': State, t: nat, a: Act, b: int)
    requires ConfigOk(c) && Sized(c, s) && t < |s.threads| && Position(c, s, t)
    requires StepCut(c, s, s', t, a) && (a.CutFinish?)
    requires IsBucket(c, b) && b == s.threads[t].src
    requires Chain(s.nodes, s.first[b], s.chains[b], b, Unlinking(s.threads[t].k, true, true))
    ensures Sized(c, s') && Chain(s'.nodes, s'.first[b], s'.chains[b], b, Calm)
  {
    var pc := s.threads[t];
    var ch := s.chains[b];
    ChainCutLast(s.nodes, s.first[b], ch, b, pc.k);
    assert s'.nodes == s.nodes[ch[pc.k] := Detached(s.nodes[ch[pc.k]])];
  }

  lemma LinkPrevShape(c: Config, s: State, s': State, t: nat, a: Act, b: int)
    requires ConfigOk(c) && Sized(c, s) && t < |s.threads| && Position(c, s, t) && Moving(s.threads[t])
    requires StepLink(c, s, s', t, a) && (a.LinkSkip? || a.LinkWrite?)
    requires IsBucket(c, b) && b == c.hash(s.threads[t].key)
    requires Chain(s.nodes, s.first[b], s.chains[b], b, Calm)
    ensures Sized(c, s') && Chain(s'.nodes, s'.first[b], s'.chains[b], b, Disturb.Linking(s.threads[t].i))
  {
    var pc := s.threads[t];
    var ch := s.chains[b];
    ChainLinkPrev(s.nodes, s.first[b], ch, b, pc.i);
    if a.LinkWrite? {
      assert s'.nodes == s.nodes[ch[0] := s.nodes[ch[0]].(prev := pc.i)];
    }
  }

  lemma LinkFinishShape(c: Config, s: State, s': State, t: nat, a: Act, b: int)
    requires ConfigOk(c) && Sized(c, s) && t < |s.threads| && Position(c, s, t) && Moving(s.threads[t])
    requires StepLink(c, s, s', t, a) && (a.LinkFinish?)
    requires IsBucket(c, b) && b == c.hash(s.threads[t].key)
    requires Chain(s.nodes, s.first[b], s.chains[b], b, Disturb.Linking(s.threads[t].i))
    ensures Sized(c, s') && Chain(s'.nodes, s'.first[b], s'.chains[b], b, Calm)
  {
    var pc := s.threads[t];
    var ch := s.chains[b];
    ChainLink(s.nodes, s.first[b], ch, b, pc.i);
    assert s'.nodes == s.nodes[pc.i := s.nodes[pc.i].(hash := b)];
  }

  lemma NewShapeCutPrev(c: Config, s: State, s': State, t: nat, a: Act)
    requires ConfigOk(c) && Sized(c, s) && t < |s.threads| && Position(c, s, t)
    requires StepCut(c, s, s', t, a) && (a.CutPrevSkip? || a.CutPrevWrite?)
    requires IsBucket(c, s.threads[t].src) && OwnShape(c, s, t, s.threads[t].src)
    ensures Sized(c, s') && t < |s'.threads| && OwnShape(c, s', t, s.threads[t].src)
  {
    var b := s.threads[t].src;
    CutPrevShape(c, s, s', t, a, b);
    assert DisturbOf(c, s'.threads[t], b) == Unlinking(s.threads[t].k, true, false);
  }

  lemma NewShapeCutNext(c: Config, s: State, s': State, t: nat, a: Act)
    requires ConfigOk(c) && Sized(c, s) && t < |s.threads| && Position(c, s, t)
    requires StepCut(c, s, s', t, a) && (a.CutNextSkip? || a.CutNextWrite?)
    requires IsBucket(c, s.threads[t].src) && OwnShape(c, s, t, s.threads[t].src)
    ensures Sized(c, s') && t < |s'.threads| && OwnShape(c, s', t, s.threads[t].src)
  {
    var b := s.threads[t].src;
    CutNextShape(c, s, s', t, a, b);
    assert s'.threads[t] == CutLast(s.threads[t].key, s.threads[t].i, b, s.threads[t].k);
    assert DisturbOf(c, s'.threads[t], b) == Unlinking(s.threads[t].k, true, true);
  }

  lemma NewShapeCutFinish(c: Config, s: State, s': State, t: nat, a: Act)
    requires ConfigOk(c) && Sized(c, s) && t < |s.threads| && Position(c, s, t)
    requires StepCut(c, s, s', t, a) && (a.CutFinish?)
    requires IsBucket(c, s.threads[t].src) && OwnShape(c, s, t, s.threads[t].src)
    ensures Sized(c, s') && t < |s'.threads| && OwnShape(c, s', t, s.threads[t].src)
  {
    var b := s.threads[t].src;
    CutFinishShape(c, s, s', t, a, b);
    assert DisturbOf(c, s'.threads[t], b) == Calm;
  }

  lemma NewShapeLink(c: Config, s: State, s': State, t: nat, a: Act)
    requires ConfigOk(c) && Sized(c, s) && t < |s.threads| && Position(c, s, t) && Moving(s.threads[t])
    requires StepLink(c, s, s', t, a) && (a.LinkSkip? || a.LinkWrite? || a.LinkFinish?)
    requires OwnShape(c, s, t, c.hash(s.threads[t].key))
    ensures Sized(c, s') && t < |s'.threads| && OwnShape(c, s', t, c.hash(s.threads[t].key))
  {
    var b := c.hash(s.threads[t].key);
    if a.LinkFinish? {
      LinkFinishShape(c, s, s', t, a, b);
      assert DisturbOf(c, s'.threads[t], b) == Calm;
    } else {
      LinkPrevShape(c, s, s', t, a, b);
      assert DisturbOf(c, s'.threads[t], b) == Disturb.Linking(s.threads[t].i);
    }
  }

  lemma NewShapeCut(c: Config, s: State, s': State, t: nat, a: Act)
    requires ConfigOk(c) && Sized(c, s) && t < |s.threads| && Position(c, s, t)
    requires StepCut(c, s, s', t, a) && !a.CutPrevLock? && !a.CutNextLock? && !a.CutUnlock?
    requires IsBucket(c, s.threads[t].src) && OwnShape(c, s, t, s.threads[t].src)
    ensures Sized(c, s') && t < |s'.threads| && OwnShape(c, s', t, s.threads[t].src)
  {
    if a.CutPrevSkip? || a.CutPrevWrite? {
      NewShapeCutPrev(c, s, s', t, a);
    } else if a.CutNextSkip? || a.CutNextWrite? {
      NewShapeCutNext(c, s, s', t, a);
    } else {
      NewShapeCutFinish(c, s, s', t, a);
    }
  }

  lemma ShapeCutWrite(c: Config, s: State, s': State, t: nat, a: Act, j: int)
    requires Ready(c, s, t) && StepCut(c, s, s', t, a) && !a.CutPrevLock? && !a.CutNextLock? && !a.CutUnlock?
    requires j == if a.CutPrevWrite? then s.threads[t].p else if a.CutNextWrite? then s.threads[t].n else s.threads[t].i
    ensures |s'.nodes| == |s.nodes| && |s'.threads| == |s.threads| && IsNode(c, j)
    ensures ShapeStep(c, s, s', t, j, s'.nodes[j])
  {
    var pc := s.threads[t];
    assert HoldsBucket(c, pc, pc.src) && OwnShape(c, s, t, pc.src);
    NewShapeCut(c, s, s', t, a);
    CutTouches(c, s, t, j);
    OwnShapeOne(c, s, s', t, j, s'.nodes[j], pc.src);
  }

  lemma HarmlessCut(c: Config, s: State, s': State, t: nat, a: Act) returns (j: int, m: Meta)
    requires ConfigOk(c) && Sized(c, s) && t < |s.threads| && Apart(c, s.threads[t]) && Position(c, s, t)
    requires StepCut(c, s, s', t, a) && (a.CutPrevLock? || a.CutNextLock? || a.CutUnlock?)
    ensures Harmless(c, s, s', t, j, m)
  {
    j := 0;
    m := s'.nodes[j];
  }

  lemma ShapeCut(c: Config, s: State, s': State, t: nat, a: Act) returns (j: int, m: Meta)
    requires Ready(c, s, t) && StepCut(c, s, s', t, a)
    ensures |s'.threads| == |s.threads| && ShapeStep(c, s, s', t, j, m)
  {
    if a.CutPrevLock? || a.CutNextLock? || a.CutUnlock? {
      j, m := HarmlessCut(c, s, s', t, a);
      OwnShapeSame(c, s, s', t, j, m);
    } else {
      var pc := s.threads[t];
      j := if a.CutPrevWrite? then pc.p else if a.CutNextWrite? then pc.n else pc.i;
      m := s'.nodes[j];
      ShapeCutWrite(c, s, s', t, a, j);
    }
  }

  /** The candidate and the neighbours it names are in the chain being changed. */
  lemma CutTouches(c: Config, s: State, t: nat, j: int)
    requires Sized(c, s) && t < |s.threads| && Position(c, s, t) && Cutting(s.threads[t])
    requires !s.threads[t].Cut? && OwnShape(c, s, t, s.threads[t].src)
    requires j == s.threads[t].i || (s.threads[t].CutPrevAt? && j == s.threads[t].p)
             || (s.threads[t].CutNextAt? && j == s.threads[t].n)
    ensures IsNode(c, j) && s.nodes[j].hash == s.threads[t].src
  {
  }

  lemma HarmlessLink(c: Config, s: State, s': State, t: nat, a: Act) returns (j: int, m: Meta)
    requires ConfigOk(c) && Sized(c, s) && t < |s.threads| && Apart(c, s.threads[t]) && Position(c, s, t)
    requires StepLink(c, s, s', t, a) && (a.LinkStart? || a.LinkLock? || a.ClaimNode?)
    ensures Harmless(c, s, s', t, j, m)
  {
    j := s.threads[t].i;
    m := s'.nodes[j];
  }

  lemma ShapeLinkWrite(c: Config, s: State, s': State, t: nat, a: Act, j: int)
    requires Ready(c, s, t) && StepLink(c, s, s', t, a) && (a.LinkSkip? || a.LinkWrite? || a.LinkFinish?)
    requires j == if a.LinkWrite? then s.threads[t].n else s.threads[t].i
    ensures |s'.nodes| == |s.nodes| && |s'.threads| == |s.threads| && IsNode(c, j)
    ensures ShapeStep(c, s, s', t, j, s'.nodes[j])
  {
    var b := c.hash(s.threads[t].key);
    assert HoldsBucket(c, s.threads[t], b) && OwnShape(c, s, t, b);
    NewShapeLink(c, s, s', t, a);
    LinkTouches(c, s, t, j, b);
    OwnShapeOne(c, s, s', t, j, s'.nodes[j], b);
  }

  lemma LinkTouches(c: Config, s: State, t: nat, j: int, b: int)
    requires Sized(c, s) && t < |s.threads| && Position(c, s, t) && Moving(s.threads[t])
    requires IsBucket(c, b) && b == c.hash(s.threads[t].key) && OwnShape(c, s, t, b)
    requires j == s.threads[t].i || (s.threads[t].LinkHeadAt? && j == s.threads[t].n)
    ensures IsNode(c, j) && s.nodes[j].hash in {NIL, b}
  {
  }

  lemma ShapeLink(c: Config, s: State, s': State, t: nat, a: Act) returns (j: int, m: Meta)
    requires Ready(c, s, t) && StepLink(c, s, s', t, a)
    ensures |s'.threads| == |s.threads| && ShapeStep(c, s, s', t, j, m)
  {
    if a.LinkStart? || a.LinkLock? || a.ClaimNode? {
      j, m := HarmlessLink(c, s, s', t, a);
      OwnShapeSame(c, s, s', t, j, m);
    } else {
      j := if a.LinkWrite? then s.threads[t].n else s.threads[t].i;
      m := s'.nodes[j];
      ShapeLinkWrite(c, s, s', t, a, j);
    }
  }

  /** A write to the chain of one bucket leaves the other buckets' chains alone. */
  lemma OwnShapeOne(c: Config, s: State, s': State, t: nat, j: int, m: Meta, own: int)
    requires Sized(c, s) && Sized(c, s') && t < |s.threads| == |s'.threads| && OwnShapes(c, s, t)
    requires IsNode(c, j) && s'.nodes == s.nodes[j := m]
    requires IsBucket(c, own) && s.bucketLock[own] == t && OwnShape(c, s', t, own)
    requires SameLinks(s.nodes[j], m) || s.nodes[j].hash in {NIL, own}
    requires forall b :: 0 <= b < c.buckets && b != own ==> s'.first[b] == s.first[b] && s'.chains[b] == s.chains[b]
    requires forall b :: 0 <= b < c.buckets && b != own ==>
               DisturbOf(c, s'.threads[t], b) == DisturbOf(c, s.threads[t], b)
    ensures ShapeStep(c, s, s', t, j, m)
  {
    forall b | 0 <= b < c.buckets && s.bucketLock[b] in {NIL, t} ensures OwnShape(c, s', t, b) {
      if b != own {
        assert OwnShape(c, s, t, b);
        ChainFrame(s.nodes, s.first[b], s.chains[b], b, DisturbOf(c, s.threads[t], b), j, m);
      }
    }
  }

  // ---------------------------------------------------------------- places and keys are kept

  lemma PlaceKeptBy(c: Config, s: State, s': State, j: int, m: Meta)
    requires Sized(c, s) && Sized(c, s') && PlaceOk(c, s) && IsNode(c, j)
    requires s'.nodes == s.nodes[j := m] && s'.chains == s.chains
    requires m.hash == s.nodes[j].hash && (m.hash == NIL ==> m.prev == s.nodes[j].prev)
    ensures PlaceOk(c, s')
  {
  }

  lemma PlaceCut(c: Config, s: State, s': State, j: int, b: int, k: nat)
    requires Sized(c, s) && Sized(c, s') && PlaceOk(c, s) && IsNode(c, j) && IsBucket(c, b)
    requires k < |s.chains[b]| && s.chains[b][k] == j && Distinct(s.chains[b])
    requires s'.nodes == s.nodes[j := Detached(s.nodes[j])]
    requires s'.chains == s.chains[b := Without(s.chains[b], k)]
    ensures PlaceOk(c, s')
  {
    WithoutDistinct(s.chains[b], k);
  }

  lemma PlaceLink(c: Config, s: State, s': State, j: int, b: int)
    requires Sized(c, s) && Sized(c, s') && PlaceOk(c, s) && IsNode(c, j) && IsBucket(c, b)
    requires s'.nodes == s.nodes[j := s.nodes[j].(hash := b)]
    requires s'.chains == s.chains[b := [j] + s.chains[b]]
    ensures PlaceOk(c, s')
  {
    assert s'.chains[b][0] == j;
    assert forall i :: i in s.chains[b] ==> i in s'.chains[b];
  }

  /** Only the claim of a node makes a node current; no other step re-keys or moves one that stays current. */
  lemma CurrentKept(c: Config, s: State, s': State, t: nat, claims: bool, j: int, m: Meta)
    requires Sized(c, s) && LocksOk(c, s) && Sized(c, s') && LocksOk(c, s')
    requires t < |s.threads| == |s'.threads| && s'.threads == s.threads[t := s'.threads[t]]
    requires IsNode(c, j) && s'.nodes == s.nodes[j := m]
    requires s.threads[t].Claim? ==> claims && j == s.threads[t].i
    requires m.key == s.nodes[j].key || claims
    requires m.hash == s.nodes[j].hash || m.hash == NIL || (s'.threads[t].Claim? && s'.threads[t].i == j)
    ensures forall i :: Current(s', i) && !(claims && i == j) ==>
              && Current(s, i)
              && s'.nodes[i].hash == s.nodes[i].hash && s'.nodes[i].key == s.nodes[i].key
  {
    forall i | Current(s', i) && !(claims && i == j)
      ensures Current(s, i) && s'.nodes[i].hash == s.nodes[i].hash && s'.nodes[i].key == s.nodes[i].key
    {
      assert !(s'.threads[t].Claim? && s'.threads[t].i == i) by {
        assert HoldsNode(s'.threads[t], i) <==> s'.nodeLock[i] == t;
      }
      var u := s.nodeLock[i];
      if 0 <= u < |s.threads| {
        assert HoldsNode(s.threads[u], i) <==> s.nodeLock[i] == u;
        assert HoldsNode(s'.threads[u], i) <==> s'.nodeLock[i] == u;
      }
    }
  }

  lemma KeysKept(c: Config, s: State, s': State, claims: bool, j: int, m: Meta)
    requires ConfigOk(c) && Sized(c, s) && Sized(c, s')
    requires KeysOk(c, s) && PlaceOk(c, s) && IsNode(c, j)
    requires forall i :: Current(s', i) && !(claims && i == j) ==>
               && Current(s, i)
               && s'.nodes[i].hash == s.nodes[i].hash && s'.nodes[i].key == s.nodes[i].key
    requires claims ==>
               && m == s'.nodes[j] && m.hash == c.hash(m.key) && Absent(c, s, m.key, j)
    ensures KeysOk(c, s')
  {
    if claims {
      forall i | Current(s, i) && i != j ensures s.nodes[i].key != m.key {
        assert i in s.chains[s.nodes[i].hash];
      }
    }
  }

  // ---------------------------------------------------------------- what the threads rely on

  /** The step of `t` writes node `j` only if it may, seen from another thread. */
  ghost predicate Polite(c: Config, s: State, s': State, t: nat, j: int, m: Meta)
    requires Sized(c, s) && t < |s.threads|
  {
    && Touches(c, s, s', t, j, m)
    && (m == s.nodes[j] || s.nodeLock[j] == t)
    && (m.key == s.nodes[j].key || (IsBucket(c, s.nodes[j].hash) && s.bucketLock[s.nodes[j].hash] == t))
    && (forall h :: h in s.live && h.holder != t ==> h in s'.live)
  }

  /** Everything thread `u` relies on lies under its own locks. */
  lemma PCFrame(c: Config, s: State, s': State, u: nat)
    requires ConfigOk(c) && Sized(c, s) && Sized(c, s')
    requires u < |s.threads| == |s'.threads| && s'.threads[u] == s.threads[u] && PCOk(c, s, u)
    requires var pc := s.threads[u];
      && (InBucket(pc) ==> UnderLock(s, s', c.hash(pc.key)))
      && (Cutting(pc) && IsBucket(c, pc.src) ==> UnderLock(s, s', pc.src))
      && ((pc.ScanAt? || HasCand(pc)) && IsNode(c, pc.i) ==> s'.nodes[pc.i] == s.nodes[pc.i])
      && (forall h :: h in s.live && h.holder == u ==> h in s'.live)
    ensures PCOk(c, s', u)
  {
  }

  ghost predicate UnderLock(s: State, s': State, b: int)
    requires 0 <= b < |s.first| == |s.chains| && |s'.first| == |s'.chains| == |s.first| && |s.nodes| == |s'.nodes|
  {
    && s'.first[b] == s.first[b] && s'.chains[b] == s.chains[b]
    && (forall k :: 0 <= k < |s.chains[b]| ==> s.chains[b][k] < |s.nodes|)
    && (forall k {:trigger s'.nodes[s.chains[b][k]]} {:trigger s.nodes[s.chains[b][k]]} :: 0 <= k < |s.chains[b]| ==>
          s'.nodes[s.chains[b][k]].key == s.nodes[s.chains[b][k]].key)
  }

  lemma OthersKept(c: Config, s: State, s': State, t: nat, j: int, m: Meta, u: nat)
    requires ConfigOk(c) && Sized(c, s) && LocksOk(c, s) && ShapeOk(c, s)
    requires t < |s.threads| == |s'.threads| && u < |s.threads| && u != t && s'.threads[u] == s.threads[u]
    requires Polite(c, s, s', t, j, m) && PCOk(c, s, u)
    ensures PCOk(c, s', u)
  {
    var pc := s.threads[u];
    if InBucket(pc) {
      BucketKept(c, s, s', t, j, m, u, c.hash(pc.key));
    }
    if Cutting(pc) && IsBucket(c, pc.src) {
      BucketKept(c, s, s', t, j, m, u, pc.src);
    }
    if (pc.ScanAt? || HasCand(pc)) && IsNode(c, pc.i) {
      assert HoldsNode(pc, pc.i) <==> s.nodeLock[pc.i] == u;
    }
    PCFrame(c, s, s', u);
  }

  lemma BucketKept(c: Config, s: State, s': State, t: nat, j: int, m: Meta, u: nat, b: int)
    requires ConfigOk(c) && Sized(c, s) && LocksOk(c, s) && ShapeOk(c, s) && IsBucket(c, b)
    requires t < |s.threads| && u < |s.threads| && u != t && HoldsBucket(c, s.threads[u], b)
    requires Polite(c, s, s', t, j, m)
    ensures UnderLock(s, s', b)
  {
    assert s.bucketLock[b] == u;
    assert Chain(s.nodes, s.first[b], s.chains[b], b, DisturbAt(c, s, b));
  }

  lemma OwnEnter(c: Config, s: State, s': State, t: nat, a: Act)
    requires Ready(c, s, t) && PCOk(c, s, t) && StepEnter(c, s, s', t, a)
    ensures Sized(c, s') && |s'.threads| == |s.threads| && PCOk(c, s', t)
  {
    var pc := s.threads[t];
    if a.TakeBucket? {
      assert OwnShape(c, s, t, c.hash(pc.key));
    }
  }

  lemma ScanNext(c: Config, s: State, t: nat)
    requires Ready(c, s, t) && PCOk(c, s, t) && (s.threads[t].Scan? || s.threads[t].ScanAt?)
    ensures var ch := s.chains[c.hash(s.threads[t].key)];
      && (s.threads[t].Scan? && s.threads[t].i == NIL ==> s.threads[t].k == |ch|)
      && (s.threads[t].ScanAt? ==> s.nodes[s.threads[t].i].next == At(ch, s.threads[t].k + 1))
      && s.threads[t].i < c.nodes
  {
    var pc := s.threads[t];
    var b := c.hash(pc.key);
    assert HoldsBucket(c, pc, b);
    assert OwnShape(c, s, t, b);
    assert Chain(s.nodes, s.first[b], s.chains[b], b, Calm);
    if pc.ScanAt? {
      assert s.nodes[s.chains[b][pc.k]].next == NextAt(s.chains[b], pc.k, Calm);
    }
  }

  lemma OwnScan(c: Config, s: State, s': State, t: nat, a: Act)
    requires Ready(c, s, t) && PCOk(c, s, t) && StepScan(c, s, s', t, a)
    ensures Sized(c, s') && |s'.threads| == |s.threads| && PCOk(c, s', t)
  {
    ScanNext(c, s, t);
    var pc := s.threads[t];
    if a.ScanEnd? && pc.get {
      assert Absent(c, s', pc.key, NIL);
    } else if a.ScanMiss? {
      assert ScanClear(s', s.chains[c.hash(pc.key)], pc.k + 1, pc.key);
    }
  }

  lemma OwnTryOk(c: Config, s: State, s': State, t: nat)
    requires Ready(c, s, t) && PCOk(c, s, t) && PlaceOk(c, s) && StepCand(c, s, s', t, TryOk)
    ensures Sized(c, s') && |s'.threads| == |s.threads| && PCOk(c, s', t)
  {
    var i := s.threads[t].i;
    var ch := s.chains[s.nodes[i].hash];
    assert i in ch;
    assert IndexOf(ch, i) < |ch|;
    assert Absent(c, s', s.threads[t].key, NIL);
  }

  lemma OwnCand(c: Config, s: State, s': State, t: nat, a: Act)
    requires Ready(c, s, t) && PCOk(c, s, t) && PlaceOk(c, s) && StepCand(c, s, s', t, a)
    ensures Sized(c, s') && |s'.threads| == |s.threads| && PCOk(c, s', t)
  {
    if a.TryOk? {
      OwnTryOk(c, s, s', t);
    } else {
      var key := s.threads[t].key;
      assert s'.chains == s.chains && s'.nodes == s.nodes;
      assert Absent(c, s', key, NIL);
    }
  }

  lemma CutNeighbours(c: Config, s: State, t: nat)
    requires Ready(c, s, t) && PCOk(c, s, t) && (s.threads[t].CutPrev? || s.threads[t].CutNext?)
    ensures var pc := s.threads[t]; var ch := s.chains[pc.src];
      && (pc.CutPrev? ==> s.nodes[pc.i].prev == At(ch, pc.k - 1))
      && (pc.CutNext? ==> s.nodes[pc.i].next == At(ch, pc.k + 1))
  {
    var pc := s.threads[t];
    assert HoldsBucket(c, pc, pc.src);
    assert OwnShape(c, s, t, pc.src);
    assert Chain(s.nodes, s.first[pc.src], s.chains[pc.src], pc.src, DisturbOf(c, pc, pc.src));
  }

  lemma OwnCut(c: Config, s: State, s': State, t: nat, a: Act)
    requires Ready(c, s, t) && PCOk(c, s, t) && StepCut(c, s, s', t, a)
    ensures Sized(c, s') && |s'.threads| == |s.threads| && PCOk(c, s', t)
  {
    var pc := s.threads[t];
    if pc.CutPrev? || pc.CutNext? {
      CutNeighbours(c, s, t);
    }
    OwnCutBy(c, s, s', t, a);
  }

  lemma OwnCutBy(c: Config, s: State, s': State, t: nat, a: Act)
    requires ConfigOk(c) && Sized(c, s) && t < |s.threads| && Apart(c, s.threads[t])
    requires PCOk(c, s, t) && StepCut(c, s, s', t, a)
    requires var pc := s.threads[t];
      && (pc.CutPrev? ==> s.nodes[pc.i].prev == At(s.chains[pc.src], pc.k - 1))
      && (pc.CutNext? ==> s.nodes[pc.i].next == At(s.chains[pc.src], pc.k + 1))
    ensures Sized(c, s') && |s'.threads| == |s.threads| && PCOk(c, s', t)
  {
    var pc := s.threads[t];
    assert s'.chains[c.hash(pc.key)] == s.chains[c.hash(pc.key)];
    assert forall i :: 0 <= i < c.nodes ==> s'.nodes[i].key == s.nodes[i].key;
    assert Absent(c, s', pc.key, NIL);
  }

  lemma OwnLink(c: Config, s: State, s': State, t: nat, a: Act)
    requires Ready(c, s, t) && PCOk(c, s, t) && StepLink(c, s, s', t, a)
    ensures Sized(c, s') && |s'.threads| == |s.threads| && PCOk(c, s', t)
  {
    var pc := s.threads[t];
  }

  lemma OwnOp(c: Config, s: State, s': State, t: nat, a: Act)
    requires Ready(c, s, t) && PCOk(c, s, t) && StepOp(c, s, s', t, a)
    ensures Sized(c, s') && |s'.threads| == |s.threads| && PCOk(c, s', t)
  {
    var pc := s.threads[t];
  }

  // ---------------------------------------------------------------- pins are kept

  lemma NoHandles(c: Config, s: State, j: int)
    requires Sized(c, s) && PinsOk(c, s) && IsNode(c, j) && s.nodes[j].reference == 0
    ensures forall h :: h in s.live ==> h.pos != j
  {
    forall h | h in s.live ensures h.pos != j {
      assert h in HandlesAt(s, j) <==> h.pos == j;
    }
  }

  lemma PinsNeutral(c: Config, s: State, s': State, j: int, m: Meta)
    requires Sized(c, s) && Sized(c, s') && PinsOk(c, s) && IsNode(c, j)
    requires s'.nodes == s.nodes[j := m] && s'.live == s.live && s'.nextId == s.nextId && s'.grants == s.grants
    requires m.reference == s.nodes[j].reference
    requires m.reference == 0 || (m.key == s.nodes[j].key && (m.hash == NIL <==> s.nodes[j].hash == NIL))
    ensures PinsOk(c, s')
  {
    if m.reference == 0 {
      NoHandles(c, s, j);
    }
    assert forall i :: HandlesAt(s', i) == HandlesAt(s, i);
  }

  /** A new handle at `j`, and the count of `j` one higher. */
  lemma PinsAdd(c: Config, s: State, s': State, j: int, m: Meta, h: Handle)
    requires Sized(c, s) && Sized(c, s') && PinsOk(c, s) && IsNode(c, j)
    requires h.pos == j && h.id == s.nextId && h.key == m.key && m.hash != NIL
    requires s'.nodes == s.nodes[j := m] && s'.live == s.live + {h} && s'.nextId == s.nextId + 1
    requires m.reference == s.nodes[j].reference + 1
    requires m.reference == 1 || m.key == s.nodes[j].key
    requires s'.grants == s.grants[j := s.grants[j] + if s.nodes[j].reference == 0 then 1 else 0]
    ensures PinsOk(c, s')
  {
    if s.nodes[j].reference == 0 {
      NoHandles(c, s, j);
    }
    assert h !in s.live;
    forall i | 0 <= i < c.nodes ensures |HandlesAt(s', i)| == |HandlesAt(s, i)| + if i == j then 1 else 0 {
      CountAdd(s, s', h, i);
    }
  }

  lemma CountAdd(s: State, s': State, h: Handle, i: int)
    requires h !in s.live && s'.live == s.live + {h}
    ensures |HandlesAt(s', i)| == |HandlesAt(s, i)| + if i == h.pos then 1 else 0
  {
    assert HandlesAt(s', i) == HandlesAt(s, i) + if i == h.pos then {h} else {};
  }

  lemma CountGive(s: State, s': State, h: Handle, g: Handle, i: int)
    requires h in s.live && g.pos == h.pos && (g == h || g !in s.live) && s'.live == s.live - {h} + {g}
    ensures |HandlesAt(s', i)| == |HandlesAt(s, i)|
  {
    if i == h.pos {
      assert h in HandlesAt(s, i);
      assert HandlesAt(s', i) == HandlesAt(s, i) - {h} + {g};
    } else {
      assert HandlesAt(s', i) == HandlesAt(s, i);
    }
  }

  /** A handle at `j` goes, and the count of `j` is one lower. */
  lemma PinsDrop(c: Config, s: State, s': State, j: int, m: Meta, h: Handle)
    requires Sized(c, s) && Sized(c, s') && PinsOk(c, s) && IsNode(c, j)
    requires h.pos == j && h in s.live
    requires s'.nodes == s.nodes[j := m] && s'.live == s.live - {h} && s'.nextId == s.nextId
    requires m == s.nodes[j].(reference := Dec(s.nodes[j].reference))
    requires s'.grants == if m.reference == 0 then s.grants[j := 0] else s.grants
    ensures s.nodes[j].reference > 0 && PinsOk(c, s')
  {
    assert h in HandlesAt(s, j);
    forall i | 0 <= i < c.nodes ensures |HandlesAt(s', i)| == |HandlesAt(s, i)| - if i == j then 1 else 0 {
      CountDrop(s, s', h, i);
    }
  }

  lemma CountDrop(s: State, s': State, h: Handle, i: int)
    requires h in s.live && s'.live == s.live - {h}
    ensures |HandlesAt(s', i)| == |HandlesAt(s, i)| - if i == h.pos then 1 else 0
  {
    assert h in HandlesAt(s, h.pos);
    assert HandlesAt(s', i) == HandlesAt(s, i) - if i == h.pos then {h} else {};
  }

  /** A handle changes hands. */
  lemma PinsGive(c: Config, s: State, s': State, h: Handle, u: nat)
    requires Sized(c, s) && Sized(c, s') && PinsOk(c, s) && h in s.live
    requires s' == s.(live := s.live - {h} + {h.(holder := u)})
    ensures PinsOk(c, s')
  {
    var g := h.(holder := u);
    forall i | 0 <= i < c.nodes ensures |HandlesAt(s', i)| == |HandlesAt(s, i)| {
      CountGive(s, s', h, g, i);
    }
  }

  lemma PinsScan(c: Config, s: State, s': State, t: nat, a: Act)
    requires Ready(c, s, t) && PCOk(c, s, t) && PinsOk(c, s) && StepScan(c, s, s', t, a)
    ensures Sized(c, s') && PinsOk(c, s')
  {
    var pc := s.threads[t];
    if a.ScanHit? && pc.get {
      var b := c.hash(pc.key);
      assert s.nodes[pc.i].hash == b by { assert HoldsBucket(c, pc, b); assert OwnShape(c, s, t, b); }
      var m := s.nodes[pc.i];
      PinsAdd(c, s, s', pc.i, m.(reference := m.reference + 1), Handle(s.nextId, pc.i, m.reference == 0, pc.key, t, s.nextId));
    } else {
      PinsNeutral(c, s, s', 0, s.nodes[0]);
    }
  }

  lemma PinsLink(c: Config, s: State, s': State, t: nat, a: Act)
    requires ConfigOk(c) && Sized(c, s) && t < |s.threads| && Apart(c, s.threads[t])
    requires PCOk(c, s, t) && PinsOk(c, s) && StepLink(c, s, s', t, a)
    ensures Sized(c, s') && PinsOk(c, s')
  {
    var pc := s.threads[t];
    if a.ClaimNode? {
      var m := s.nodes[pc.i];
      PinsAdd(c, s, s', pc.i, m.(reference := m.reference + 1, key := pc.key, ready := false),
              Handle(s.nextId, pc.i, true, pc.key, t, s.nextId));
    } else {
      var j := if a.LinkWrite? then pc.n else pc.i;
      PinsNeutral(c, s, s', j, s'.nodes[j]);
    }
  }

  lemma PinsCut(c: Config, s: State, s': State, t: nat, a: Act)
    requires ConfigOk(c) && Sized(c, s) && t < |s.threads| && Apart(c, s.threads[t])
    requires PCOk(c, s, t) && PinsOk(c, s) && StepCut(c, s, s', t, a)
    ensures Sized(c, s') && PinsOk(c, s')
  {
    var pc := s.threads[t];
    var j := if a.CutPrevWrite? then pc.p else if a.CutNextWrite? then pc.n else pc.i;
    PinsNeutral(c, s, s', j, s'.nodes[j]);
  }

  lemma PinsOp(c: Config, s: State, s': State, t: nat, a: Act)
    requires ConfigOk(c) && Sized(c, s) && t < |s.threads|
    requires PCOk(c, s, t) && PinsOk(c, s) && StepOp(c, s, s', t, a)
    ensures Sized(c, s') && PinsOk(c, s')
  {
    var pc := s.threads[t];
    if a.OpDo? {
      var i := pc.h.pos;
      match pc.op
      case Copy =>
        assert pc.h in HandlesAt(s, i);
        PinsAdd(c, s, s', i, s'.nodes[i], pc.h.(id := s.nextId));
      case Drop => PinsDrop(c, s, s', i, s'.nodes[i], pc.h);
      case MarkReady => PinsNeutral(c, s, s', i, s'.nodes[i]);
      case Peek => PinsNeutral(c, s, s', i, s.nodes[i]);
    } else if a.Give? {
      PinsGive(c, s, s', a.h, a.u);
    } else {
      PinsNeutral(c, s, s', 0, s.nodes[0]);
    }
  }

  // ---------------------------------------------------------------- every step keeps the invariant

  lemma PCPosition(c: Config, s: State, t: nat)
    requires ConfigOk(c) && Sized(c, s) && t < |s.threads| && PCOk(c, s, t)
    ensures Position(c, s, t)
  {
  }

  lemma LocksOwn(c: Config, s: State, t: nat)
    requires Sized(c, s) && LocksOk(c, s) && t < |s.threads|
    ensures OwnLocks(c, s, t)
  {
  }

  lemma ReadyAt(c: Config, s: State, t: nat)
    requires ConfigOk(c) && Sized(c, s) && LocksOk(c, s) && ShapeOk(c, s) && t < |s.threads| && PCOk(c, s, t)
    ensures Ready(c, s, t)
  {
    AlwaysApart(c, s, t);
    OwnShapesHold(c, s, t);
    PCPosition(c, s, t);
    LocksOwn(c, s, t);
  }

  lemma StepShape(c: Config, s: State, s': State, t: nat, a: Act) returns (j: int, m: Meta)
    requires Ready(c, s, t) && Step(c, s, s', t, a)
    ensures Sized(c, s') && |s'.threads| == |s.threads| && ShapeStep(c, s, s', t, j, m)
  {
    if StepEnter(c, s, s', t, a) {
      j, m := ShapeEnter(c, s, s', t, a);
    } else if StepScan(c, s, s', t, a) {
      j, m := ShapeScan(c, s, s', t, a);
    } else if StepCand(c, s, s', t, a) {
      j, m := ShapeCand(c, s, s', t, a);
    } else if StepCut(c, s, s', t, a) {
      j, m := ShapeCut(c, s, s', t, a);
    } else if StepLink(c, s, s', t, a) {
      j, m := ShapeLink(c, s, s', t, a);
    } else {
      j, m := ShapeOp(c, s, s', t, a);
    }
  }

  lemma StepOwn(c: Config, s: State, s': State, t: nat, a: Act)
    requires Ready(c, s, t) && PCOk(c, s, t) && PlaceOk(c, s) && Step(c, s, s', t, a)
    ensures Sized(c, s') && |s'.threads| == |s.threads| && PCOk(c, s', t)
  {
    if StepEnter(c, s, s', t, a) {
      OwnEnter(c, s, s', t, a);
    } else if StepScan(c, s, s', t, a) {
      OwnScan(c, s, s', t, a);
    } else if StepCand(c, s, s', t, a) {
      OwnCand(c, s, s', t, a);
    } else if StepCut(c, s, s', t, a) {
      OwnCut(c, s, s', t, a);
    } else if StepLink(c, s, s', t, a) {
      OwnLink(c, s, s', t, a);
    } else {
      OwnOp(c, s, s', t, a);
    }
  }

  lemma StepPins(c: Config, s: State, s': State, t: nat, a: Act)
    requires Ready(c, s, t) && PCOk(c, s, t) && PinsOk(c, s) && Step(c, s, s', t, a)
    ensures Sized(c, s') && PinsOk(c, s')
  {
    if StepEnter(c, s, s', t, a) || StepCand(c, s, s', t, a) {
      PinsNeutral(c, s, s', 0, s.nodes[0]);
    } else if StepScan(c, s, s', t, a) {
      PinsScan(c, s, s', t, a);
    } else if StepCut(c, s, s', t, a) {
      PinsCut(c, s, s', t, a);
    } else if StepLink(c, s, s', t, a) {
      PinsLink(c, s, s', t, a);
    } else {
      PinsOp(c, s, s', t, a);
    }
  }

  /** What the step does to the one node it writes, and to the handles of other threads. */
  ghost predicate Effect(c: Config, s: State, s': State, t: nat, a: Act, j: int, m: Meta)
    requires Sized(c, s) && t < |s.threads| == |s'.threads| && IsNode(c, j)
  {
    && (m == s.nodes[j] || s.nodeLock[j] == t)
    && (m.key == s.nodes[j].key || a.ClaimNode?)
    && (a.ClaimNode? ==>
          && s.threads[t].Claim? && j == s.threads[t].i
          && m.key == s.threads[t].key && m.hash == s.nodes[j].hash)
    && (m.hash == s.nodes[j].hash || (m.hash == NIL && s'.threads[t].Cut?)
        || (s'.threads[t].Claim? && s'.threads[t].i == j))
    && (s.threads[t].Claim? ==> a.ClaimNode?)
    && (a.CutFinish? || a.LinkFinish? ||
        (s'.chains == s.chains && m.hash == s.nodes[j].hash && (m.hash == NIL ==> m.prev == s.nodes[j].prev)))
    && (s.nodes[j].reference == 0 ||
        (m.key == s.nodes[j].key && m.hash == s.nodes[j].hash && (s.nodes[j].ready ==> m.ready)))
    && (forall h :: h in s.live && h.holder != t ==> h in s'.live)
  }

  /** The candidate being moved or claimed has no handle. */
  predicate CandUnpinned(s: State, t: nat)
    requires t < |s.threads|
  {
    var pc := s.threads[t];
    (Cutting(pc) || Moving(pc) || pc.Claim?) && 0 <= pc.i < |s.nodes| ==> s.nodes[pc.i].reference == 0
  }

  /** The neighbour a thread has locked is in a chain. */
  predicate NeighbourLinked(s: State, t: nat)
    requires t < |s.threads|
  {
    var pc := s.threads[t];
    && (pc.CutPrevAt? && 0 <= pc.p < |s.nodes| ==> s.nodes[pc.p].hash != NIL)
    && ((pc.CutNextAt? || pc.LinkHeadAt?) && 0 <= pc.n < |s.nodes| ==> s.nodes[pc.n].hash != NIL)
  }

  lemma NeighbourIsLinked(c: Config, s: State, t: nat)
    requires Ready(c, s, t)
    ensures NeighbourLinked(s, t)
  {
    var pc := s.threads[t];
    if pc.CutPrevAt? || pc.CutNextAt? {
      assert HoldsBucket(c, pc, pc.src);
      assert OwnShape(c, s, t, pc.src);
    } else if pc.LinkHeadAt? {
      assert HoldsBucket(c, pc, c.hash(pc.key));
      assert OwnShape(c, s, t, c.hash(pc.key));
    }
  }

  lemma EffectEnter(c: Config, s: State, s': State, t: nat, a: Act, j: int, m: Meta)
    requires ConfigOk(c) && Sized(c, s) && t < |s.threads| && OwnLocks(c, s, t) && Apart(c, s.threads[t])
    requires StepEnter(c, s, s', t, a) && IsNode(c, j) && s'.nodes == s.nodes[j := m]
    ensures |s'.threads| == |s.threads| && Effect(c, s, s', t, a, j, m)
  {
    assert m == s'.nodes[j];
  }

  lemma EffectScan(c: Config, s: State, s': State, t: nat, a: Act, j: int, m: Meta)
    requires ConfigOk(c) && Sized(c, s) && t < |s.threads| && OwnLocks(c, s, t) && Apart(c, s.threads[t])
    requires StepScan(c, s, s', t, a) && IsNode(c, j) && s'.nodes == s.nodes[j := m]
    ensures |s'.threads| == |s.threads| && Effect(c, s, s', t, a, j, m)
  {
    assert m == s'.nodes[j];
  }

  lemma EffectCand(c: Config, s: State, s': State, t: nat, a: Act, j: int, m: Meta)
    requires ConfigOk(c) && Sized(c, s) && t < |s.threads| && OwnLocks(c, s, t) && Apart(c, s.threads[t])
    requires StepCand(c, s, s', t, a) && IsNode(c, j) && s'.nodes == s.nodes[j := m]
    ensures |s'.threads| == |s.threads| && Effect(c, s, s', t, a, j, m)
  {
    assert m == s'.nodes[j];
  }

  lemma EffectCut(c: Config, s: State, s': State, t: nat, a: Act, j: int, m: Meta)
    requires ConfigOk(c) && Sized(c, s) && t < |s.threads| && OwnLocks(c, s, t) && Apart(c, s.threads[t])
    requires NeighbourLinked(s, t) && CandUnpinned(s, t)
    requires StepCut(c, s, s', t, a) && IsNode(c, j) && s'.nodes == s.nodes[j := m]
    ensures |s'.threads| == |s.threads| && Effect(c, s, s', t, a, j, m)
  {
    assert m == s'.nodes[j];
  }

  lemma EffectLink(c: Config, s: State, s': State, t: nat, a: Act, j: int, m: Meta)
    requires ConfigOk(c) && Sized(c, s) && t < |s.threads| && OwnLocks(c, s, t) && Apart(c, s.threads[t])
    requires NeighbourLinked(s, t) && CandUnpinned(s, t)
    requires StepLink(c, s, s', t, a) && IsNode(c, j) && s'.nodes == s.nodes[j := m]
    ensures |s'.threads| == |s.threads| && Effect(c, s, s', t, a, j, m)
  {
    assert m == s'.nodes[j];
    var i := s.threads[t].i;
    if a.ClaimNode? {
      assert s'.nodes[i].reference == s.nodes[i].reference + 1;
    }
  }

  lemma EffectOp(c: Config, s: State, s': State, t: nat, a: Act, j: int, m: Meta)
    requires ConfigOk(c) && Sized(c, s) && t < |s.threads| && OwnLocks(c, s, t) && Apart(c, s.threads[t])
    requires s.threads[t].OpAt? ==> s.threads[t].h.holder == t
    requires StepOp(c, s, s', t, a) && IsNode(c, j) && s'.nodes == s.nodes[j := m]
    ensures |s'.threads| == |s.threads| && Effect(c, s, s', t, a, j, m)
  {
    assert m == s'.nodes[j];
  }

  lemma StepEffect(c: Config, s: State, s': State, t: nat, a: Act, j: int, m: Meta)
    requires Ready(c, s, t) && PCOk(c, s, t) && Step(c, s, s', t, a)
    requires IsNode(c, j) && s'.nodes == s.nodes[j := m]
    ensures |s'.threads| == |s.threads| && Effect(c, s, s', t, a, j, m)
  {
    NeighbourIsLinked(c, s, t);
    if StepEnter(c, s, s', t, a) {
      EffectEnter(c, s, s', t, a, j, m);
    } else if StepScan(c, s, s', t, a) {
      EffectScan(c, s, s', t, a, j, m);
    } else if StepCand(c, s, s', t, a) {
      EffectCand(c, s, s', t, a, j, m);
    } else if StepCut(c, s, s', t, a) {
      EffectCut(c, s, s', t, a, j, m);
    } else if StepLink(c, s, s', t, a) {
      EffectLink(c, s, s', t, a, j, m);
    } else {
      EffectOp(c, s, s', t, a, j, m);
    }
  }

  lemma PlaceKept(c: Config, s: State, s': State, t: nat, a: Act, j: int, m: Meta)
    requires Ready(c, s, t) && PlaceOk(c, s) && Step(c, s, s', t, a)
    requires IsNode(c, j) && s'.nodes == s.nodes[j := m] && Sized(c, s') && |s'.threads| == |s.threads|
    requires Effect(c, s, s', t, a, j, m)
    ensures PlaceOk(c, s')
  {
    var pc := s.threads[t];
    if a.CutFinish? {
      assert Distinct(s.chains[pc.src]) by {
        assert HoldsBucket(c, pc, pc.src);
        assert OwnShape(c, s, t, pc.src);
      }
      PlaceCut(c, s, s', pc.i, pc.src, pc.k);
    } else if a.LinkFinish? {
      PlaceLink(c, s, s', pc.i, c.hash(pc.key));
    } else {
      PlaceKeptBy(c, s, s', j, m);
    }
  }

  lemma KeysKeptByStep(c: Config, s: State, s': State, t: nat, a: Act, j: int, m: Meta)
    requires ConfigOk(c) && Sized(c, s) && Sized(c, s') && LocksOk(c, s) && LocksOk(c, s')
    requires t < |s.threads| == |s'.threads| && s'.threads == s.threads[t := s'.threads[t]]
    requires IsNode(c, j) && s'.nodes == s.nodes[j := m]
    requires PCOk(c, s, t) && KeysOk(c, s) && PlaceOk(c, s) && Effect(c, s, s', t, a, j, m)
    ensures KeysOk(c, s')
  {
    CurrentKept(c, s, s', t, a.ClaimNode?, j, m);
    KeysKept(c, s, s', a.ClaimNode?, j, m);
  }

  lemma PolitenessOf(c: Config, s: State, s': State, t: nat, a: Act, j: int, m: Meta)
    requires ConfigOk(c) && Sized(c, s) && LocksOk(c, s) && t < |s.threads| == |s'.threads| && PCOk(c, s, t)
    requires IsNode(c, j) && Touches(c, s, s', t, j, m) && Effect(c, s, s', t, a, j, m)
    ensures Polite(c, s, s', t, j, m)
  {
    if a.ClaimNode? {
      assert HoldsBucket(c, s.threads[t], s.nodes[j].hash);
    }
  }

  lemma PCsKept(c: Config, s: State, s': State, t: nat, j: int, m: Meta)
    requires ConfigOk(c) && Sized(c, s) && LocksOk(c, s) && ShapeOk(c, s) && PCsOk(c, s)
    requires t < |s.threads| == |s'.threads| && Polite(c, s, s', t, j, m) && PCOk(c, s', t)
    requires s'.threads == s.threads[t := s'.threads[t]]
    ensures PCsOk(c, s')
  {
    forall u | 0 <= u < |s'.threads| ensures PCOk(c, s', u) {
      if u != t {
        OthersKept(c, s, s', t, j, m, u);
      }
    }
  }

  /** Every step of every thread keeps the whole invariant. */
  lemma StepKeepsInv(c: Config, s: State, s': State, t: nat, a: Act)
    requires Inv(c, s) && Step(c, s, s', t, a)
    ensures Inv(c, s') && |s'.threads| == |s.threads|
  {
    assert PCOk(c, s, t);
    ReadyAt(c, s, t);
    LocksKept(c, s, s', t, a);
    var j, m := StepShape(c, s, s', t, a);
    StepEffect(c, s, s', t, a, j, m);
    StepKeepsShape(c, s, s', t, a, j, m);
    StepOwn(c, s, s', t, a);
    StepPins(c, s, s', t, a);
    PolitenessOf(c, s, s', t, a, j, m);
    PCsKept(c, s, s', t, j, m);
  }

  lemma StepKeepsShape(c: Config, s: State, s': State, t: nat, a: Act, j: int, m: Meta)
    requires Ready(c, s, t) && PCOk(c, s, t) && Step(c, s, s', t, a)
    requires LocksOk(c, s) && ShapeOk(c, s) && PlaceOk(c, s) && KeysOk(c, s)
    requires LocksMoved(c, s, s', t) && LocksOk(c, s') && ShapeStep(c, s, s', t, j, m)
    requires Effect(c, s, s', t, a, j, m)
    ensures ShapeOk(c, s') && PlaceOk(c, s') && KeysOk(c, s')
  {
    ShapeKeptBy(c, s, s', t, j, m);
    PlaceKept(c, s, s', t, a, j, m);
    KeysKeptByStep(c, s, s', t, a, j, m);
  }
}
