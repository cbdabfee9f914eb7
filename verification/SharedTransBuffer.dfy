/**
 The transfer buffer shared by several threads (or processes): every lock operation and
 every critical section of `TransBuffer` over `SharedBufferStrategy` is one atomic step of
 one thread, and the threads interleave freely.
 */
module SharedTransBuffer {
  import opened BufferIndex

  // ---------------------------------------------------------------- state

  /** Bucket count, node count and the hash of a key, already reduced to a bucket. */
  datatype Config = Config(buckets: nat, nodes: nat, hash: Key -> nat)

  ghost predicate ConfigOk(c: Config) {
    && 0 < c.nodes
    && forall key :: c.hash(key) < c.buckets
  }

  /** A live handle. History variables: `key`, what it was obtained for, and `origin`, the handle that its `Get` returned. */
  datatype Handle = Handle(id: nat, pos: nat, owner: bool, key: Key, holder: nat, origin: nat)

  /** What `Exist` and `Get` return. */
  datatype Reply = Found(yes: bool) | Got(h: Handle)

  datatype HandleOp = Copy | Drop | MarkReady | Peek

  /**
   Where a thread stands. Names ending in `At` hold the lock of the node they name last.
   The positions `k` are history variables.
   */
  datatype PC =
    | Idle
    | WantBucket(key: Key, get: bool)
    | Scan(key: Key, get: bool, i: int, k: nat)
    | ScanAt(key: Key, get: bool, i: int, k: nat)
    | Fetch(key: Key)
    | FetchAt(key: Key)
    | Cand(key: Key, i: int)
    | CandAt(key: Key, i: int)
    | CutPrev(key: Key, i: int, src: int, k: nat)
    | CutPrevAt(key: Key, i: int, src: int, k: nat, p: int)
    | CutNext(key: Key, i: int, src: int, k: nat)
    | CutNextAt(key: Key, i: int, src: int, k: nat, n: int)
    | CutLast(key: Key, i: int, src: int, k: nat)
    | Cut(key: Key, i: int, src: int)
    | Link(key: Key, i: int)
    | LinkHead(key: Key, i: int, n: int)
    | LinkHeadAt(key: Key, i: int, n: int)
    | LinkLast(key: Key, i: int)
    | Claim(key: Key, i: int)
    | Answer(key: Key, get: bool, reply: Reply)
    | Op(op: HandleOp, h: Handle)
    | OpAt(op: HandleOp, h: Handle)

  /**
   Locks hold the number of their owner, or NIL. `chains`, `live`, `nextId` and `grants`
   are history variables: the abstract chain of each bucket, the handles in existence, and
   how many owner handles `Get` gave out since a node's count last left zero.
   */
  datatype State = State(
    nodes: seq<Meta>, first: seq<int>, freeHead: nat,
    bucketLock: seq<int>, nodeLock: seq<int>, headerLock: int,
    threads: seq<PC>,
    chains: seq<seq<nat>>, live: set<Handle>, nextId: nat, grants: seq<nat>)

  ghost predicate Sized(c: Config, s: State) {
    && |s.nodes| == |s.nodeLock| == |s.grants| == c.nodes
    && |s.first| == |s.bucketLock| == |s.chains| == c.buckets
    && s.freeHead < c.nodes
  }

  predicate IsNode(c: Config, i: int) {
    0 <= i < c.nodes
  }

  predicate IsBucket(c: Config, b: int) {
    0 <= b < c.buckets
  }

  ghost predicate Init(c: Config, s: State) {
    && Sized(c, s)
    && s.freeHead == 0 && s.headerLock == NIL && s.nextId == 0 && s.live == {}
    && (forall i :: 0 <= i < c.nodes ==>
          && s.nodes[i].reference == 0 && s.nodes[i].hash == NIL && s.nodes[i].prev == NIL
          && s.nodes[i].next == NIL && !s.nodes[i].ready)
    && (forall i :: 0 <= i < c.nodes ==> s.nodeLock[i] == NIL)
    && (forall i :: 0 <= i < c.nodes ==> s.grants[i] == 0)
    && (forall b :: 0 <= b < c.buckets ==> s.first[b] == NIL)
    && (forall b :: 0 <= b < c.buckets ==> s.bucketLock[b] == NIL)
    && (forall b :: 0 <= b < c.buckets ==> s.chains[b] == [])
    && (forall t :: 0 <= t < |s.threads| ==> s.threads[t] == Idle)
  }

  // ---------------------------------------------------------------- locks

  predicate Cutting(pc: PC) {
    pc.CutPrev? || pc.CutPrevAt? || pc.CutNext? || pc.CutNextAt? || pc.CutLast? || pc.Cut?
  }

  predicate Moving(pc: PC) {
    pc.Link? || pc.LinkHead? || pc.LinkHeadAt? || pc.LinkLast?
  }

  /** The thread owns a candidate node that it is turning into the node of `key`. */
  predicate HasCand(pc: PC) {
    pc.CandAt? || Cutting(pc) || Moving(pc) || pc.Claim?
  }

  predicate InBucket(pc: PC) {
    pc.Scan? || pc.ScanAt? || pc.Fetch? || pc.FetchAt? || pc.Cand? || HasCand(pc) || pc.Answer?
  }

  predicate HoldsBucket(c: Config, pc: PC, b: int) {
    (InBucket(pc) && c.hash(pc.key) == b) || (Cutting(pc) && pc.src == b)
  }

  predicate HoldsNode(pc: PC, i: int) {
    || ((pc.ScanAt? || HasCand(pc)) && pc.i == i)
    || (pc.CutPrevAt? && pc.p == i)
    || ((pc.CutNextAt? || pc.LinkHeadAt?) && pc.n == i)
    || (pc.OpAt? && pc.h.pos == i)
  }

  // ---------------------------------------------------------------- steps

  function Go(s: State, t: nat, pc: PC): State
    requires t < |s.threads|
  {
    s.(threads := s.threads[t := pc])
  }

  datatype Act =
    | Begin(key: Key, get: bool) | TakeBucket
    | ScanEnd | ScanLock | ScanMiss | ScanHit
    | FetchLock | FetchNode
    | CandLock | CandBusy | CandSame | CandFree | TryFail | TryOk
    | CutPrevSkip | CutPrevLock | CutPrevWrite
    | CutNextSkip | CutNextLock | CutNextWrite
    | CutFinish | CutUnlock
    | LinkStart | LinkSkip | LinkLock | LinkWrite | LinkFinish
    | ClaimNode | Return
    | BeginOp(op: HandleOp, h: Handle) | OpLock | OpDo | Give(h: Handle, u: nat)

  function IndexOf(ch: seq<nat>, x: int): (k: nat)
    ensures k <= |ch|
    ensures k < |ch| ==> ch[k] == x
    ensures k == |ch| ==> forall j :: 0 <= j < |ch| ==> ch[j] != x
  {
    if ch == [] then 0 else if ch[0] == x then 0 else 1 + IndexOf(ch[1..], x)
  }

  /** `Get`, `Exist`: wait for the bucket lock with no lock held. */
  ghost predicate CanEnter(c: Config, s: State, t: nat, a: Act)
    requires ConfigOk(c) && Sized(c, s) && t < |s.threads|
  {
    var pc := s.threads[t];
    match a
    case Begin(key, get) => pc.Idle?
    case TakeBucket => pc.WantBucket? && s.bucketLock[c.hash(pc.key)] == NIL
    case Return => pc.Answer?
    case _ => false
  }

  ghost function AfterEnter(c: Config, s: State, t: nat, a: Act): State
    requires ConfigOk(c) && Sized(c, s) && t < |s.threads| && CanEnter(c, s, t, a)
  {
    var pc := s.threads[t];
    match a
    case Begin(key, get) => Go(s, t, WantBucket(key, get))
    case TakeBucket =>
      var b := c.hash(pc.key);
      Go(s, t, Scan(pc.key, pc.get, s.first[b], 0)).(bucketLock := s.bucketLock[b := t])
    case Return => Go(s, t, Idle).(bucketLock := s.bucketLock[c.hash(pc.key) := NIL])
  }

  /** `FindAt`, `ExistAt`: walk the chain, locking one node at a time. */
  ghost predicate CanScan(c: Config, s: State, t: nat, a: Act)
    requires ConfigOk(c) && Sized(c, s) && t < |s.threads|
  {
    var pc := s.threads[t];
    match a
    case ScanEnd => pc.Scan? && pc.i == NIL
    case ScanLock => pc.Scan? && IsNode(c, pc.i) && s.nodeLock[pc.i] == NIL
    case ScanMiss => pc.ScanAt? && IsNode(c, pc.i) && s.nodes[pc.i].key != pc.key
    case ScanHit => pc.ScanAt? && IsNode(c, pc.i) && s.nodes[pc.i].key == pc.key
    case _ => false
  }

  ghost function AfterScan(c: Config, s: State, t: nat, a: Act): State
    requires ConfigOk(c) && Sized(c, s) && t < |s.threads| && CanScan(c, s, t, a)
  {
    var pc := s.threads[t];
    match a
    case ScanEnd => Go(s, t, if pc.get then Fetch(pc.key) else Answer(pc.key, false, Found(false)))
    case ScanLock => Go(s, t, ScanAt(pc.key, pc.get, pc.i, pc.k)).(nodeLock := s.nodeLock[pc.i := t])
    case ScanMiss =>
      Go(s, t, Scan(pc.key, pc.get, s.nodes[pc.i].next, pc.k + 1)).(nodeLock := s.nodeLock[pc.i := NIL])
    case ScanHit =>
      var m := s.nodes[pc.i];
      var out := s.(nodeLock := s.nodeLock[pc.i := NIL]);
      if !pc.get then Go(out, t, Answer(pc.key, false, Found(true))) else
        Granted(out, pc.i, m.(reference := m.reference + 1), m.reference == 0, pc.key, t)
  }

  /** `Get` makes its handle, at node `i`, whose record becomes `m`, and returns it. */
  function Granted(s: State, i: nat, m: Meta, owner: bool, key: Key, t: nat): State
    requires i < |s.nodes| == |s.grants| && t < |s.threads|
  {
    var h := Handle(s.nextId, i, owner, key, t, s.nextId);
    Go(s, t, Answer(key, true, Got(h))).(
      nodes := s.nodes[i := m], live := s.live + {h}, nextId := s.nextId + 1,
      grants := s.grants[i := s.grants[i] + if owner then 1 else 0])
  }

  /** The loop of `Alloc`: fetch a candidate, give it up, or start moving it. */
  ghost predicate CanCand(c: Config, s: State, t: nat, a: Act)
    requires ConfigOk(c) && Sized(c, s) && t < |s.threads|
  {
    var pc := s.threads[t];
    match a
    case FetchLock => pc.Fetch? && s.headerLock == NIL
    case FetchNode => pc.FetchAt?
    case CandLock => pc.Cand? && IsNode(c, pc.i) && s.nodeLock[pc.i] == NIL
    case CandBusy => pc.CandAt? && IsNode(c, pc.i) && s.nodes[pc.i].reference > 0
    case CandSame =>
      && pc.CandAt? && IsNode(c, pc.i) && s.nodes[pc.i].reference == 0
      && s.nodes[pc.i].hash == c.hash(pc.key)
    case CandFree =>
      pc.CandAt? && IsNode(c, pc.i) && s.nodes[pc.i].reference == 0 && s.nodes[pc.i].hash == NIL
    case TryFail =>
      && pc.CandAt? && IsNode(c, pc.i) && s.nodes[pc.i].reference == 0
      && var src := s.nodes[pc.i].hash;
      src != c.hash(pc.key) && IsBucket(c, src) && s.bucketLock[src] != NIL
    case TryOk =>
      && pc.CandAt? && IsNode(c, pc.i) && s.nodes[pc.i].reference == 0
      && var src := s.nodes[pc.i].hash;
      src != c.hash(pc.key) && IsBucket(c, src) && s.bucketLock[src] == NIL
    case _ => false
  }

  ghost function AfterCand(c: Config, s: State, t: nat, a: Act): State
    requires ConfigOk(c) && Sized(c, s) && t < |s.threads| && CanCand(c, s, t, a)
  {
    var pc := s.threads[t];
    match a
    case FetchLock => Go(s, t, FetchAt(pc.key)).(headerLock := t)
    case FetchNode =>
      Go(s, t, Cand(pc.key, s.freeHead)).(
        headerLock := NIL, freeHead := if s.freeHead + 1 == c.nodes then 0 else s.freeHead + 1)
    case CandLock => Go(s, t, CandAt(pc.key, pc.i)).(nodeLock := s.nodeLock[pc.i := t])
    case CandBusy => Go(s, t, Fetch(pc.key)).(nodeLock := s.nodeLock[pc.i := NIL])
    case CandSame => Go(s, t, Claim(pc.key, pc.i))
    case CandFree => Go(s, t, Link(pc.key, pc.i))
    case TryFail => Go(s, t, Fetch(pc.key)).(nodeLock := s.nodeLock[pc.i := NIL])
    case TryOk =>
      var src := s.nodes[pc.i].hash;
      Go(s, t, CutPrev(pc.key, pc.i, src, IndexOf(s.chains[src], pc.i))).(bucketLock := s.bucketLock[src := t])
  }

  /** `Remove` on the candidate, under the lock of the bucket it leaves. */
  ghost predicate CanCut(c: Config, s: State, t: nat, a: Act)
    requires ConfigOk(c) && Sized(c, s) && t < |s.threads|
  {
    var pc := s.threads[t];
    match a
    case CutPrevSkip => pc.CutPrev? && IsNode(c, pc.i) && s.nodes[pc.i].prev == NIL
    case CutPrevLock =>
      && pc.CutPrev? && IsNode(c, pc.i)
      && IsNode(c, s.nodes[pc.i].prev) && s.nodeLock[s.nodes[pc.i].prev] == NIL
    case CutPrevWrite => pc.CutPrevAt? && IsNode(c, pc.i) && IsNode(c, pc.p)
    case CutNextSkip => pc.CutNext? && IsNode(c, pc.i) && s.nodes[pc.i].next == NIL
    case CutNextLock =>
      && pc.CutNext? && IsNode(c, pc.i)
      && IsNode(c, s.nodes[pc.i].next) && s.nodeLock[s.nodes[pc.i].next] == NIL
    case CutNextWrite => pc.CutNextAt? && IsNode(c, pc.i) && IsNode(c, pc.n)
    case CutFinish => pc.CutLast? && IsNode(c, pc.i) && IsBucket(c, pc.src) && pc.k < |s.chains[pc.src]|
    case CutUnlock => pc.Cut? && IsBucket(c, pc.src)
    case _ => false
  }

  ghost function AfterCut(c: Config, s: State, t: nat, a: Act): State
    requires ConfigOk(c) && Sized(c, s) && t < |s.threads| && CanCut(c, s, t, a)
  {
    var pc := s.threads[t];
    match a
    case CutPrevSkip => Go(s, t, CutNext(pc.key, pc.i, pc.src, pc.k))
    case CutPrevLock =>
      var p := s.nodes[pc.i].prev;
      Go(s, t, CutPrevAt(pc.key, pc.i, pc.src, pc.k, p)).(nodeLock := s.nodeLock[p := t])
    case CutPrevWrite =>
      Go(s, t, CutNext(pc.key, pc.i, pc.src, pc.k)).(
        nodes := s.nodes[pc.p := s.nodes[pc.p].(next := s.nodes[pc.i].next)],
        nodeLock := s.nodeLock[pc.p := NIL])
    case CutNextSkip => Go(s, t, CutLast(pc.key, pc.i, pc.src, pc.k))
    case CutNextLock =>
      var n := s.nodes[pc.i].next;
      Go(s, t, CutNextAt(pc.key, pc.i, pc.src, pc.k, n)).(nodeLock := s.nodeLock[n := t])
    case CutNextWrite =>
      Go(s, t, CutLast(pc.key, pc.i, pc.src, pc.k)).(
        nodes := s.nodes[pc.n := s.nodes[pc.n].(prev := s.nodes[pc.i].prev)],
        nodeLock := s.nodeLock[pc.n := NIL])
    case CutFinish =>
      var m := s.nodes[pc.i];
      Go(s, t, Cut(pc.key, pc.i, pc.src)).(
        nodes := s.nodes[pc.i := Detached(m)],
        first := s.first[pc.src := if s.first[pc.src] == pc.i then m.next else s.first[pc.src]],
        chains := s.chains[pc.src := Without(s.chains[pc.src], pc.k)])
    case CutUnlock => Go(s, t, Link(pc.key, pc.i)).(bucketLock := s.bucketLock[pc.src := NIL])
  }

  /** `MoveTo` and the end of `Alloc`, under the lock of the key's bucket. */
  ghost predicate CanLink(c: Config, s: State, t: nat, a: Act)
    requires ConfigOk(c) && Sized(c, s) && t < |s.threads|
  {
    var pc := s.threads[t];
    match a
    case LinkStart => pc.Link? && IsNode(c, pc.i)
    case LinkSkip => pc.LinkHead? && pc.n == NIL
    case LinkLock => pc.LinkHead? && IsNode(c, pc.n) && s.nodeLock[pc.n] == NIL
    case LinkWrite => pc.LinkHeadAt? && IsNode(c, pc.n)
    case LinkFinish => pc.LinkLast? && IsNode(c, pc.i)
    case ClaimNode => pc.Claim? && IsNode(c, pc.i)
    case _ => false
  }

  ghost function AfterLink(c: Config, s: State, t: nat, a: Act): State
    requires ConfigOk(c) && Sized(c, s) && t < |s.threads| && CanLink(c, s, t, a)
  {
    var pc := s.threads[t];
    match a
    case LinkStart =>
      var n := s.first[c.hash(pc.key)];
      Go(s, t, LinkHead(pc.key, pc.i, n)).(nodes := s.nodes[pc.i := s.nodes[pc.i].(next := n)])
    case LinkSkip => Go(s, t, LinkLast(pc.key, pc.i))
    case LinkLock => Go(s, t, LinkHeadAt(pc.key, pc.i, pc.n)).(nodeLock := s.nodeLock[pc.n := t])
    case LinkWrite =>
      Go(s, t, LinkLast(pc.key, pc.i)).(
        nodes := s.nodes[pc.n := s.nodes[pc.n].(prev := pc.i)],
        nodeLock := s.nodeLock[pc.n := NIL])
    case LinkFinish =>
      var b := c.hash(pc.key);
      Go(s, t, Claim(pc.key, pc.i)).(
        nodes := s.nodes[pc.i := s.nodes[pc.i].(hash := b)],
        first := s.first[b := pc.i],
        chains := s.chains[b := [pc.i] + s.chains[b]])
    case ClaimNode =>
      var m := s.nodes[pc.i];
      Granted(s.(nodeLock := s.nodeLock[pc.i := NIL]), pc.i,
              m.(reference := m.reference + 1, key := pc.key, ready := false), true, pc.key, t)
  }

  /** Handle copy, destruction, move to another thread, `MarkReady` and `Ready`. */
  ghost predicate CanOp(c: Config, s: State, t: nat, a: Act)
    requires ConfigOk(c) && Sized(c, s) && t < |s.threads|
  {
    var pc := s.threads[t];
    match a
    case BeginOp(op, h) => pc.Idle? && h in s.live && h.holder == t
    case OpLock => pc.Op? && IsNode(c, pc.h.pos) && s.nodeLock[pc.h.pos] == NIL
    case OpDo => pc.OpAt? && IsNode(c, pc.h.pos)
    case Give(h, u) => pc.Idle? && h in s.live && h.holder == t
    case _ => false
  }

  ghost function AfterOp(c: Config, s: State, t: nat, a: Act): State
    requires ConfigOk(c) && Sized(c, s) && t < |s.threads| && CanOp(c, s, t, a)
  {
    var pc := s.threads[t];
    match a
    case BeginOp(op, h) => Go(s, t, Op(op, h))
    case OpLock => Go(s, t, OpAt(pc.op, pc.h)).(nodeLock := s.nodeLock[pc.h.pos := t])
    case OpDo =>
      var i := pc.h.pos;
      var m := s.nodes[i];
      var out := Go(s, t, Idle).(nodeLock := s.nodeLock[i := NIL]);
      (match pc.op
       case Copy => out.(nodes := s.nodes[i := m.(reference := m.reference + 1)],
                         live := s.live + {pc.h.(id := s.nextId)}, nextId := s.nextId + 1)
       case Drop => out.(nodes := s.nodes[i := m.(reference := Dec(m.reference))],
                         live := s.live - {pc.h},
                         grants := if Dec(m.reference) == 0 then s.grants[i := 0] else s.grants)
       case MarkReady => out.(nodes := s.nodes[i := m.(ready := true)])
       case Peek => out)
    case Give(h, u) => s.(live := s.live - {h} + {h.(holder := u)})
  }

  ghost predicate StepEnter(c: Config, s: State, s': State, t: nat, a: Act)
    requires ConfigOk(c) && Sized(c, s) && t < |s.threads|
  {
    CanEnter(c, s, t, a) && s' == AfterEnter(c, s, t, a)
  }

  ghost predicate StepScan(c: Config, s: State, s': State, t: nat, a: Act)
    requires ConfigOk(c) && Sized(c, s) && t < |s.threads|
  {
    CanScan(c, s, t, a) && s' == AfterScan(c, s, t, a)
  }

  ghost predicate StepCand(c: Config, s: State, s': State, t: nat, a: Act)
    requires ConfigOk(c) && Sized(c, s) && t < |s.threads|
  {
    CanCand(c, s, t, a) && s' == AfterCand(c, s, t, a)
  }

  ghost predicate StepCut(c: Config, s: State, s': State, t: nat, a: Act)
    requires ConfigOk(c) && Sized(c, s) && t < |s.threads|
  {
    CanCut(c, s, t, a) && s' == AfterCut(c, s, t, a)
  }

  ghost predicate StepLink(c: Config, s: State, s': State, t: nat, a: Act)
    requires ConfigOk(c) && Sized(c, s) && t < |s.threads|
  {
    CanLink(c, s, t, a) && s' == AfterLink(c, s, t, a)
  }

  ghost predicate StepOp(c: Config, s: State, s': State, t: nat, a: Act)
    requires ConfigOk(c) && Sized(c, s) && t < |s.threads|
  {
    CanOp(c, s, t, a) && s' == AfterOp(c, s, t, a)
  }

  ghost predicate Step(c: Config, s: State, s': State, t: nat, a: Act)
    requires ConfigOk(c) && Sized(c, s)
  {
    && t < |s.threads|
    && (|| StepEnter(c, s, s', t, a) || StepScan(c, s, s', t, a) || StepCand(c, s, s', t, a)
        || StepCut(c, s, s', t, a) || StepLink(c, s, s', t, a) || StepOp(c, s, s', t, a))
  }

  // ---------------------------------------------------------------- invariant

  /** The lock tables name exactly the threads that are inside the critical sections. */
  ghost predicate LocksOk(c: Config, s: State)
    requires Sized(c, s)
  {
    && (forall b :: 0 <= b < c.buckets ==> NIL <= s.bucketLock[b] < |s.threads|)
    && (forall i :: 0 <= i < c.nodes ==> NIL <= s.nodeLock[i] < |s.threads|)
    && NIL <= s.headerLock < |s.threads|
    && (forall b, u :: 0 <= b < c.buckets && 0 <= u < |s.threads| ==>
          (HoldsBucket(c, s.threads[u], b) <==> s.bucketLock[b] == u))
    && (forall i, u :: 0 <= i < c.nodes && 0 <= u < |s.threads| ==>
          (HoldsNode(s.threads[u], i) <==> s.nodeLock[i] == u))
    && (forall u :: 0 <= u < |s.threads| ==> (s.threads[u].FetchAt? <==> s.headerLock == u))
  }

  /** How the holder of bucket `b`, standing at `pc`, has disturbed its chain. */
  function DisturbOf(c: Config, pc: PC, b: int): Disturb {
    if (pc.CutPrev? || pc.CutPrevAt?) && pc.src == b then Unlinking(pc.k, false, false)
    else if (pc.CutNext? || pc.CutNextAt?) && pc.src == b then Unlinking(pc.k, true, false)
    else if pc.CutLast? && pc.src == b then Unlinking(pc.k, true, true)
    else if pc.LinkLast? && pc.i >= 0 && c.hash(pc.key) == b then Disturb.Linking(pc.i)
    else Calm
  }

  function DisturbAt(c: Config, s: State, b: int): Disturb
    requires 0 <= b < |s.bucketLock|
  {
    var u := s.bucketLock[b];
    if 0 <= u < |s.threads| then DisturbOf(c, s.threads[u], b) else Calm
  }

  /** Every chain is exact, up to what the holder of its bucket lock is in the middle of. */
  ghost predicate ShapeOk(c: Config, s: State)
    requires Sized(c, s)
  {
    forall b :: 0 <= b < c.buckets ==> Chain(s.nodes, s.first[b], s.chains[b], b, DisturbAt(c, s, b))
  }

  /** A node is in the chain of its bucket, or in none and without a predecessor. */
  ghost predicate PlaceOk(c: Config, s: State)
    requires Sized(c, s)
  {
    forall i :: 0 <= i < c.nodes ==>
      var m := s.nodes[i];
      (m.hash == NIL && m.prev == NIL) || (0 <= m.hash < c.buckets && i in s.chains[m.hash])
  }

  /** The node is linked but still carries the key it had before it was claimed. */
  predicate Stale(s: State, i: int)
    requires |s.nodeLock| == |s.nodes|
  {
    && 0 <= i < |s.nodes|
    && 0 <= s.nodeLock[i] < |s.threads|
    && s.threads[s.nodeLock[i]].Claim?
  }

  predicate Current(s: State, i: int)
    requires |s.nodeLock| == |s.nodes|
  {
    0 <= i < |s.nodes| && s.nodes[i].hash != NIL && !Stale(s, i)
  }

  /** Linked keys hash to their bucket and no two linked nodes share a key. */
  ghost predicate KeysOk(c: Config, s: State)
    requires Sized(c, s)
  {
    && (forall i :: Current(s, i) ==> s.nodes[i].hash == c.hash(s.nodes[i].key))
    && (forall i, j :: Current(s, i) && Current(s, j) && i != j ==> s.nodes[i].key != s.nodes[j].key)
  }

  ghost predicate Absent(c: Config, s: State, key: Key, except: int)
    requires ConfigOk(c) && Sized(c, s)
  {
    var ch := s.chains[c.hash(key)];
    forall k {:trigger s.nodes[ch[k]]} :: 0 <= k < |ch| && ch[k] < |s.nodes| && ch[k] != except ==> s.nodes[ch[k]].key != key
  }

  /** What a thread may rely on at each point of its program. */
  ghost predicate PCOk(c: Config, s: State, t: nat)
    requires ConfigOk(c) && Sized(c, s) && t < |s.threads|
  {
    var pc := s.threads[t];
    && (HasCand(pc) ==> IsNode(c, pc.i))
    && (Cutting(pc) || Moving(pc) || pc.Claim? ==> s.nodes[pc.i].reference == 0)
    && match pc
       case Scan(key, get, i, k) =>
         var ch := s.chains[c.hash(key)];
         k <= |ch| && i == At(ch, k) && ScanClear(s, ch, k, key)
       case ScanAt(key, get, i, k) =>
         var ch := s.chains[c.hash(key)];
         k < |ch| && i == ch[k] && IsNode(c, i) && ScanClear(s, ch, k, key)
       case Fetch(key) => Absent(c, s, key, NIL)
       case FetchAt(key) => Absent(c, s, key, NIL)
       case Cand(key, i) => IsNode(c, i) && Absent(c, s, key, NIL)
       case CandAt(key, i) => Absent(c, s, key, NIL)
       case CutPrev(key, i, src, k) => CutOk(c, s, key, i, src, k)
       case CutPrevAt(key, i, src, k, p) =>
         CutOk(c, s, key, i, src, k) && k > 0 && p == s.chains[src][k - 1] && IsNode(c, p)
       case CutNext(key, i, src, k) => CutOk(c, s, key, i, src, k)
       case CutNextAt(key, i, src, k, n) =>
         CutOk(c, s, key, i, src, k) && k + 1 < |s.chains[src]| && n == s.chains[src][k + 1] && IsNode(c, n)
       case CutLast(key, i, src, k) => CutOk(c, s, key, i, src, k)
       case Cut(key, i, src) =>
         && Absent(c, s, key, NIL) && IsBucket(c, src) && src != c.hash(key)
         && s.nodes[i].hash == NIL && s.nodes[i].prev == NIL
       case Link(key, i) => Absent(c, s, key, NIL) && s.nodes[i].hash == NIL && s.nodes[i].prev == NIL
       case LinkHead(key, i, n) => LinkOk(c, s, key, i) && n == s.first[c.hash(key)]
       case LinkHeadAt(key, i, n) => LinkOk(c, s, key, i) && n == s.first[c.hash(key)] && IsNode(c, n)
       case LinkLast(key, i) => LinkOk(c, s, key, i)
       case Claim(key, i) => Absent(c, s, key, i) && s.nodes[i].hash == c.hash(key)
       case Op(op, h) => h in s.live && h.holder == t
       case OpAt(op, h) => h in s.live && h.holder == t
       case Answer(key, get, reply) => ReplyOk(c, s, t, key, get, reply)
       case _ => true
  }

  /** `Get` returns a live handle for its key, `Exist` whether a node of the bucket has the key. */
  ghost predicate ReplyOk(c: Config, s: State, t: nat, key: Key, get: bool, reply: Reply)
    requires ConfigOk(c) && Sized(c, s)
  {
    match reply
    case Got(h) => get && h in s.live && h.holder == t && h.key == key
    case Found(yes) => !get && (yes <==> !Absent(c, s, key, NIL))
  }

  ghost predicate ScanClear(s: State, ch: seq<nat>, k: nat, key: Key) {
    forall j {:trigger s.nodes[ch[j]]} :: 0 <= j < k <= |ch| && ch[j] < |s.nodes| ==> s.nodes[ch[j]].key != key
  }

  ghost predicate CutOk(c: Config, s: State, key: Key, i: int, src: int, k: nat)
    requires ConfigOk(c) && Sized(c, s)
  {
    && Absent(c, s, key, NIL) && IsBucket(c, src) && src != c.hash(key)
    && k < |s.chains[src]| && s.chains[src][k] == i
  }

  ghost predicate LinkOk(c: Config, s: State, key: Key, i: int)
    requires ConfigOk(c) && Sized(c, s)
  {
    && Absent(c, s, key, NIL) && IsNode(c, i)
    && s.nodes[i].hash == NIL && s.nodes[i].prev == NIL && s.nodes[i].next == s.first[c.hash(key)]
  }

  ghost predicate PCsOk(c: Config, s: State)
    requires ConfigOk(c) && Sized(c, s)
  {
    forall t :: 0 <= t < |s.threads| ==> PCOk(c, s, t)
  }

  ghost function HandlesAt(s: State, i: int): set<Handle> {
    set h | h in s.live && h.pos == i
  }

  /**
   Pin safety: a node's count is the number of handles at it, a handle's node still
   carries the key the handle was obtained for, and each pin epoch granted one owner.
   */
  ghost predicate PinsOk(c: Config, s: State)
    requires Sized(c, s)
  {
    && (forall i :: 0 <= i < c.nodes ==> s.nodes[i].reference == |HandlesAt(s, i)|)
    && (forall h :: h in s.live ==> h.id < s.nextId && IsNode(c, h.pos))
    && (forall h :: h in s.live ==> s.nodes[h.pos].hash != NIL && s.nodes[h.pos].key == h.key)
    && (forall g, h :: g in s.live && h in s.live && g.id == h.id ==> g == h)
    && (forall i :: 0 <= i < c.nodes ==> s.grants[i] == if s.nodes[i].reference > 0 then 1 else 0)
  }

  ghost predicate Inv(c: Config, s: State) {
    && ConfigOk(c) && Sized(c, s)
    && LocksOk(c, s) && ShapeOk(c, s) && PlaceOk(c, s) && KeysOk(c, s) && PCsOk(c, s) && PinsOk(c, s)
  }

  lemma InitInv(c: Config, s: State)
    requires ConfigOk(c) && Init(c, s)
    ensures Inv(c, s)
  {
    assert forall i :: HandlesAt(s, i) == {};
  }
}
