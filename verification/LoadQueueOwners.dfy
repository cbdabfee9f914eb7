/**
 The live handles of the load queue, oldest first: on hold, current, in the running queue, being
 gathered. Among the handles of one key only the oldest can be the owner, so the transfer
 thread never waits for a buffer whose owner stands behind it in its own queue.
 */
module LoadQueueOwners {
  import opened BufferIndex
  import opened LoadQueue

  function Got(d: Dispatch): seq<Shard> {
    if d.Getting? then d.got else []
  }

  function Live(s: State): seq<Shard> {
    s.held + Stream(s) + Got(s.dispatch)
  }

  // ---------------------------------------------------------------- how steps move the live handles

  /** What a step of the two threads does to the list of live handles. */
  datatype Move = Keep | Grow | DropHeld | DropNext | DropGot

  ghost function MoveOf(s: State, a: Act): Move {
    match a
    case Get(_) => Grow
    case Load(ok) => if !ok && NeedsBackend(Got(s.dispatch)) then DropGot else Keep
    case Take => if s.pend != [] && s.pend[0].id in s.failure then DropNext else Keep
    case Synchronize(_) => DropHeld
    case End => DropNext
    case _ => Keep
  }

  /** The list after a move that adds nothing; `DropNext` drops the first one not on hold. */
  function Moved<T>(xs: seq<T>, m: Move, held: nat, got: nat): seq<T>
    requires held + got <= |xs| && (m == DropNext ==> held < |xs|)
  {
    match m
    case Keep => xs
    case Grow => xs
    case DropHeld => xs[held..]
    case DropNext => xs[..held] + xs[held + 1..]
    case DropGot => xs[..|xs| - got]
  }

  /** The same handles of the same tasks; only the backend handle may have been filled in. */
  predicate SameHandle(x: Shard, y: Shard) {
    x.(bh := y.bh) == y
  }

  predicate SameHandles(xs: seq<Shard>, ys: seq<Shard>) {
    |xs| == |ys| && forall i :: 0 <= i < |xs| ==> SameHandle(xs[i], ys[i])
  }

  /** The step hands shards to the backend. */
  ghost predicate Sends(s: State, a: Act) {
    a == Load(true) && NeedsBackend(Got(s.dispatch))
  }

  ghost predicate LiveMoved(s: State, s': State, a: Act) {
    var m, held, got := MoveOf(s, a), |s.held|, |Got(s.dispatch)|;
    if m == Grow then s'.dispatch.Getting? && |s'.dispatch.got| > got && Live(s') == Live(s) + [s'.dispatch.got[got]]
    else
      && held + got <= |Live(s)| && (m == DropNext ==> held < |Live(s)|)
      && Live(s') == if Sends(s, a) then s.held + Stream(s) + WithHandle(Got(s.dispatch), s.nextBackend)
                     else Moved(Live(s), m, held, got)
  }

  /** `Done` touches latches only. */
  lemma DoneKeepsLists(s: State, id: nat)
    ensures var s' := Done(s, id);
      s'.held == s.held && s'.pend == s.pend && s'.dispatch == s.dispatch && s'.current == s.current
  {
  }

  lemma DispatchMovesLive(s: State, s': State, a: Act)
    requires QueueOk(s) && DispatchStep(s, s', a)
    ensures LiveMoved(s, s', a)
  {
    hide Done, Pinned, ReadyAfterGet, NeedsBackend, Blocks;
    match a
    case Begin =>
      DoneKeepsLists(s.(waiting := s.waiting[1..]), s.waiting[0].id);
      assert Live(s') == Live(s);
    case Get(_) => assert Stream(s') == Stream(s);
    case Load(ok) => LoadMovesLive(s, s', ok);
    case Push =>
  }

  /** The lists of a state are those of another, its gathered shards being `got`. */
  lemma LiveIs(s: State, s': State, got: seq<Shard>)
    requires s'.held == s.held && s'.current == s.current && s'.pend == s.pend + got && s'.dispatch == NoTask
    ensures Live(s') == s.held + Stream(s) + got
  {
  }

  lemma LoadMovesLive(s: State, s': State, ok: bool)
    requires DispatchStep(s, s', Load(ok))
    ensures LiveMoved(s, s', Load(ok))
  {
    hide Done, NeedsBackend, Stream;
    var got, id := s.dispatch.got, s.dispatch.task.id;
    DoneKeepsLists(s.(dispatch := NoTask, failure := s.failure + {id}), id);
    if !NeedsBackend(got) {
      LiveIs(s, s', got);
    } else if ok {
      LiveIs(s, s', WithHandle(got, s.nextBackend));
    } else {
      LiveIs(s, s', []);
      assert (s.held + Stream(s) + got)[..|s.held + Stream(s)|] == s.held + Stream(s);
    }
  }

  lemma FilledIn(xs: seq<Shard>, got: seq<Shard>, bh: nat)
    ensures SameHandles(xs + got, xs + WithHandle(got, bh))
  {
  }

  lemma TransferMovesLive(s: State, s': State, a: Act)
    requires TransferStep(s, s', a)
    ensures LiveMoved(s, s', a)
  {
    hide TakeStep, CopyStep, SyncStep, EndStep, Live;
    match a
    case Take => TakeMovesLive(s, s');
    case CopyAsync(ok) => CopyMovesLive(s, s', ok);
    case Synchronize(ok) => SyncMovesLive(s, s', ok);
    case End => EndMovesLive(s, s');
    case Inspect => StayMovesLive(s, s', a);
    case Poll => StayMovesLive(s, s', a);
    case WaitBackend => StayMovesLive(s, s', a);
  }

  lemma StayMovesLive(s: State, s': State, a: Act)
    requires TransferStep(s, s', a) && (a.Inspect? || a.Poll? || a.WaitBackend?)
    ensures LiveMoved(s, s', a)
  {
    hide InspectStep, PollStep, BackendStep, Live, LiveMoved, MoveOf, Sends;
    match a {
      case Inspect => InspectStaysLive(s, s');
      case Poll => PollStaysLive(s, s');
      case WaitBackend => BackendStaysLive(s, s');
    }
    StayIsKeep(s, a);
    KeepMovesLive(s, s', a);
  }

  lemma StayIsKeep(s: State, a: Act)
    requires a.Inspect? || a.Poll? || a.WaitBackend?
    ensures MoveOf(s, a) == Keep && !Sends(s, a)
  {
  }

  lemma InspectStaysLive(s: State, s': State)
    requires InspectStep(s, s')
    ensures Live(s') == Live(s)
  {
    hide Live;
    StaysLive(s, s');
  }

  lemma PollStaysLive(s: State, s': State)
    requires PollStep(s, s')
    ensures Live(s') == Live(s)
  {
    hide Live;
    StaysLive(s, s');
  }

  lemma BackendStaysLive(s: State, s': State)
    requires BackendStep(s, s')
    ensures Live(s') == Live(s)
  {
    hide Live;
    StaysLive(s, s');
  }

  lemma KeepMovesLive(s: State, s': State, a: Act)
    requires Live(s') == Live(s) && MoveOf(s, a) == Keep && !Sends(s, a)
    ensures LiveMoved(s, s', a)
  {
  }

  lemma EndMovesLive(s: State, s': State)
    requires EndStep(s, s')
    ensures LiveMoved(s, s', End)
  {
    hide Done;
    var x := s.current.x;
    DoneKeepsLists(s.(current := Nothing), x.id);
    DoneKeepsLists(s.(current := Nothing, failure := s.failure + {x.id}), x.id);
    assert Live(s)[..|s.held|] + Live(s)[|s.held| + 1..] == Live(s');
  }

  lemma SyncMovesLive(s: State, s': State, ok: bool)
    requires SyncStep(s, s', ok)
    ensures LiveMoved(s, s', Synchronize(ok))
  {
    assert Live(s)[|s.held|..] == Live(s');
  }

  lemma TakeMovesLive(s: State, s': State)
    requires TakeStep(s, s')
    ensures LiveMoved(s, s', Take)
  {
    hide Done;
    var held, x, rest, got := s.held, s.pend[0], s.pend[1..], Got(s.dispatch);
    DoneKeepsLists(s.(pend := rest), x.id);
    assert s.pend == [x] + rest;
    TakeLists(held, x, rest, got);
    if x.id in s.failure {
      assert s'.held == held && s'.pend == rest && s'.dispatch == s.dispatch && s'.current == Nothing;
    }
    hide Got;
  }

  lemma TakeLists(held: seq<Shard>, x: Shard, rest: seq<Shard>, got: seq<Shard>)
    ensures held + ([] + ([x] + rest)) + got == held + ([x] + rest) + got
    ensures var xs := held + ([] + ([x] + rest)) + got;
      |held| < |xs| && xs[..|held|] + xs[|held| + 1..] == held + ([] + rest) + got
  {
  }

  lemma CopyMovesLive(s: State, s': State, ok: bool)
    requires CopyStep(s, s', ok)
    ensures LiveMoved(s, s', CopyAsync(ok))
  {
    assert Live(s') == Live(s);
  }

  lemma StaysLive(s: State, s': State)
    requires s'.held == s.held && s'.pend == s.pend && s'.dispatch == s.dispatch
    requires s.current.Working? && s'.current.Working? && s'.current.x == s.current.x
    ensures Live(s') == Live(s)
  {
  }

  lemma StillLive(s: State, s': State)
    requires s'.held == s.held && s'.pend == s.pend && s'.dispatch == s.dispatch && s'.current == s.current
    ensures Live(s') == Live(s)
  {
  }

  // ---------------------------------------------------------------- only the oldest handle of a key owns it

  predicate LaterOwner(x: Shard, y: Shard) {
    x.key == y.key && y.owner
  }

  predicate OwnersFirst(xs: seq<Shard>) {
    forall i, j :: 0 <= i < j < |xs| ==> !LaterOwner(xs[i], xs[j])
  }

  ghost predicate OwnersOk(s: State) {
    OwnersFirst(Live(s))
  }

  lemma OwnersMoved(xs: seq<Shard>, ys: seq<Shard>, m: Move, held: nat, got: nat)
    requires OwnersFirst(xs) && held + got <= |xs| && (m == DropNext ==> held < |xs|)
    requires SameHandles(Moved(xs, m, held, got), ys)
    ensures OwnersFirst(ys)
  {
    var zs := Moved(xs, m, held, got);
    forall i, j | 0 <= i < j < |ys| ensures !LaterOwner(ys[i], ys[j]) {
      var i', j' := Origin(m, held, i), Origin(m, held, j);
      assert zs[i] == xs[i'] && zs[j] == xs[j'];
      assert !LaterOwner(xs[i'], xs[j']);
      assert SameHandle(zs[i], ys[i]) && SameHandle(zs[j], ys[j]);
    }
  }

  /** Where the i-th handle after a move was before it. */
  function Origin(m: Move, held: nat, i: nat): nat {
    match m
    case DropHeld => held + i
    case DropNext => if i < held then i else i + 1
    case _ => i
  }

  /** A handle for a key somebody holds is not the owner. */
  lemma LiveIsPinned(s: State, i: nat)
    requires i < |Live(s)|
    ensures Pinned(s, Live(s)[i].key)
  {
    var xs := Stream(s);
    if i < |s.held| {
      assert s.held[i] == Live(s)[i];
    } else if i < |s.held| + |xs| {
      var k := i - |s.held|;
      assert xs[k] == Live(s)[i];
      if s.current.Working? && k > 0 {
        assert s.pend[k - 1] == xs[k];
      } else if !s.current.Working? {
        assert s.pend[k] == xs[k];
      }
    } else {
      assert s.dispatch.got[i - |s.held| - |xs|] == Live(s)[i];
    }
  }

  lemma GetKeepsOwners(s: State, s': State, cached: bool)
    requires OwnersOk(s) && QueueOk(s) && DispatchStep(s, s', Act.Get(cached))
    ensures OwnersOk(s')
  {
    hide Pinned, ReadyAfterGet, Blocks;
    DispatchMovesLive(s, s', Act.Get(cached));
    var xs, x := Live(s), s'.dispatch.got[|Got(s.dispatch)|];
    forall i | 0 <= i < |xs| ensures !LaterOwner(xs[i], x) {
      LiveIsPinned(s, i);
    }
  }

  lemma MoveKeepsOwners(s: State, s': State, a: Act)
    requires OwnersOk(s) && LiveMoved(s, s', a) && !MoveOf(s, a).Grow?
    ensures OwnersOk(s')
  {
    var m, held, got := MoveOf(s, a), |s.held|, |Got(s.dispatch)|;
    if Sends(s, a) {
      FilledIn(s.held + Stream(s), Got(s.dispatch), s.nextBackend);
      assert m == Keep;
    }
    assert SameHandles(Moved(Live(s), m, held, got), Live(s'));
    hide Live, OwnersFirst, SameHandles, MoveOf, Sends;
    OwnersMoved(Live(s), Live(s'), m, held, got);
  }

  lemma StepKeepsOwners(s: State, s': State, a: Act)
    requires Inv(s) && OwnersOk(s) && Step(s, s', a)
    ensures OwnersOk(s')
  {
    hide OwnersOk, LiveMoved, HandlesOk, LatchOk, ProgressOk, ReadyOk, QueueOk;
    if a.Submit? && SubmitStep(s, s', a.task) {
      SubmitIsStill(s, s', a.task);
      StillKeepsOwners(s, s');
    } else if DispatchStep(s, s', a) {
      if a.Get? {
        GetKeepsOwners(s, s', a.cached);
      } else {
        DispatchMovesLive(s, s', a);
        MoveKeepsOwners(s, s', a);
      }
    } else if TransferStep(s, s', a) {
      TransferMovesLive(s, s', a);
      MoveKeepsOwners(s, s', a);
    } else {
      OutsideIsStill(s, s', a);
      StillKeepsOwners(s, s');
    }
  }

  lemma StillKeepsOwners(s: State, s': State)
    requires OwnersOk(s) && StillEffect(s, s')
    ensures OwnersOk(s')
  {
    StillLive(s, s');
  }

  lemma {:induction false} RunKeepsOwners(run: seq<State>)
    requires Run(run)
    ensures forall n :: 0 <= n < |run| ==> Inv(run[n]) && OwnersOk(run[n])
  {
    RunKeepsInv(run);
    var n := 0;
    while n < |run| - 1
      invariant 0 <= n < |run|
      invariant forall k :: 0 <= k <= n ==> OwnersOk(run[k])
    {
      assert Next(run[n], run[n + 1]);
      var a :| Step(run[n], run[n + 1], a);
      StepKeepsOwners(run[n], run[n + 1], a);
      n := n + 1;
    }
  }
}
