/**
 Progress of the load queue. Every step of the dispatcher and of the transfer thread uses up work,
 apart from an idle poll; and while a task is in hand one of them can take such a step, unless the
 transfer thread waits for a pending backend load or for a buffer that is not ready.
 */
module LoadQueueProgress {
  import opened BufferIndex
  import opened LoadQueue
  import opened LoadQueueOwners

  /** What is left to do for the tasks in the waiting queue. */
  function TasksWork(ts: seq<Task>): nat {
    if ts == [] then 0 else 20 * |ts[0].keys| + 3 + TasksWork(ts[1..])
  }

  function DispatchWork(d: Dispatch): int {
    if d.Getting? then 20 * |d.task.keys| - 9 * |d.got| + 2 else 0
  }

  function PhaseWork(c: Current): nat {
    match c
    case Nothing => 0
    case Working(_, Look) => 8
    case Working(_, Spin) => 7
    case Working(_, AwaitBackend) => 7
    case Working(_, CopyOut) => 6
    case Working(_, Sync) => 5
    case Working(_, Failing) => 2
    case Working(_, Finishing) => 2
  }

  /** An upper bound on the steps the two threads still take for the tasks in hand. */
  function Work(s: State): int {
    TasksWork(s.waiting) + DispatchWork(s.dispatch) + 10 * |s.pend| + s.unpushed + PhaseWork(s.current)
  }

  ghost predicate ThreadStep(s: State, s': State, a: Act) {
    DispatchStep(s, s', a) || TransferStep(s, s', a)
  }

  lemma WorkIsNat(s: State)
    requires Inv(s)
    ensures Work(s) >= 0
  {
  }

  /** `Done` touches latches only. */
  lemma DoneKeepsWork(s: State, id: nat)
    ensures Work(Done(s, id)) == Work(s)
  {
  }

  lemma DispatchUsesWork(s: State, s': State, a: Act)
    requires QueueOk(s) && DispatchStep(s, s', a)
    ensures Work(s') < Work(s)
  {
    hide Done, Pinned, ReadyAfterGet, NeedsBackend, Blocks;
    match a
    case Begin =>
      DoneKeepsWork(s.(waiting := s.waiting[1..]), s.waiting[0].id);
    case Load(ok) =>
      DoneKeepsWork(s.(dispatch := NoTask, failure := s.failure + {s.dispatch.task.id}), s.dispatch.task.id);
    case _ =>
  }

  lemma TransferUsesWork(s: State, s': State, a: Act)
    requires TransferStep(s, s', a) && s' != s
    ensures Work(s') < Work(s)
  {
    match a
    case Take => TakeUsesWork(s, s');
    case End => EndUsesWork(s, s');
    case _ =>
      PhaseUsesWork(s, s', a);
      hide TasksWork, DispatchWork, PhaseWork, TransferStep;
  }

  /** The steps on the current shard only bring its phase nearer to the end. */
  predicate Nearer(s: State, s': State) {
    && s'.waiting == s.waiting && s'.dispatch == s.dispatch && s'.pend == s.pend && s'.unpushed == s.unpushed
    && PhaseWork(s'.current) < PhaseWork(s.current)
  }

  lemma PhaseUsesWork(s: State, s': State, a: Act)
    requires TransferStep(s, s', a) && s' != s && a != Take && a != End
    ensures Nearer(s, s')
  {
    hide InspectStep, PollStep, BackendStep, CopyStep, SyncStep, TakeStep, EndStep, Nearer;
    match a
    case Inspect => InspectNearer(s, s');
    case Poll => PollNearer(s, s');
    case WaitBackend => BackendNearer(s, s');
    case CopyAsync(ok) => CopyNearer(s, s', ok);
    case Synchronize(ok) => SyncNearer(s, s', ok);
  }

  lemma InspectNearer(s: State, s': State)
    requires InspectStep(s, s')
    ensures Nearer(s, s')
  {
  }

  lemma PollNearer(s: State, s': State)
    requires PollStep(s, s') && s' != s
    ensures Nearer(s, s')
  {
  }

  lemma BackendNearer(s: State, s': State)
    requires BackendStep(s, s')
    ensures Nearer(s, s')
  {
  }

  lemma CopyNearer(s: State, s': State, ok: bool)
    requires CopyStep(s, s', ok)
    ensures Nearer(s, s')
  {
  }

  lemma SyncNearer(s: State, s': State, ok: bool)
    requires SyncStep(s, s', ok)
    ensures Nearer(s, s')
  {
  }

  lemma TakeUsesWork(s: State, s': State)
    requires TakeStep(s, s')
    ensures Work(s') < Work(s)
  {
    hide TasksWork, Done;
    DoneKeepsWork(s.(pend := s.pend[1..]), s.pend[0].id);
  }

  lemma EndUsesWork(s: State, s': State)
    requires EndStep(s, s')
    ensures Work(s') < Work(s)
  {
    hide TasksWork, Done;
    var x := s.current.x;
    DoneKeepsWork(s.(current := Nothing), x.id);
    DoneKeepsWork(s.(current := Nothing, failure := s.failure + {x.id}), x.id);
  }

  /** Nobody else adds to the work but a caller who submits. */
  lemma OutsideKeepsWork(s: State, s': State, a: Act)
    requires OutsideStep(s, s', a)
    ensures Work(s') == Work(s)
  {
    hide Pinned, ReadyAfterGet;
  }

  /** The transfer thread waits for the backend, or for another's buffer. */
  predicate Waits(s: State) {
    && s.current.Working?
    && var x := s.current.x;
    || (s.current.phase == AwaitBackend && Status(s, x.bh) == Pending)
    || (s.current.phase == Spin && x.id !in s.failure && x.key !in s.ready)
  }

  /** A step that uses up work is possible. */
  ghost predicate CanWork(s: State) {
    exists s', a :: ThreadStep(s, s', a) && s' != s
  }

  /** What the transfer thread makes of its shard when nothing keeps it waiting. */
  function Onward(s: State): State
    requires s.current.Working?
  {
    var x := s.current.x;
    match s.current.phase
    case Look =>
      if x.key in s.ready then s.(current := Working(x, CopyOut))
      else if !x.owner then s.(current := Working(x, Spin))
      else if x.bh > s.finished then s.(current := Working(x, AwaitBackend))
      else s.(current := Working(x, CopyOut), ready := s.ready + {x.key})
    case Spin => s.(current := Working(x, if x.id in s.failure then Failing else CopyOut))
    case AwaitBackend =>
      if Status(s, x.bh) == Loaded then s.(finished := x.bh, current := Working(x, CopyOut), ready := s.ready + {x.key})
      else s.(finished := x.bh, current := Working(x, Failing))
    case CopyOut => s.(current := Working(x, Failing))
    case Sync => s.(current := Working(x, Failing), held := [])
    case Failing =>
      var s1 := s.(current := Nothing, failure := s.failure + {x.id});
      if IsLast(x) then Done(s1, x.id) else s1
    case Finishing => if IsLast(x) then Done(s.(current := Nothing), x.id) else s.(current := Nothing)
  }

  function OnwardAct(s: State): Act
    requires s.current.Working?
  {
    match s.current.phase
    case Look => Inspect
    case Spin => Poll
    case AwaitBackend => WaitBackend
    case CopyOut => CopyAsync(false)
    case Sync => Synchronize(false)
    case Failing => End
    case Finishing => End
  }

  lemma TransferCanWork(s: State)
    requires Inv(s) && s.current.Working? && !Waits(s)
    ensures CanWork(s)
  {
    assert Stream(s)[0] == s.current.x;
    assert HandleOk(s, s.current.x);
    assert s.current.phase == AwaitBackend ==> s.current.x.bh in s.backend;
    hide LatchOk, ProgressOk, ReadyOk, QueueOk, HandlesOk, Done;
    OnwardIsStep(s);
    assert ThreadStep(s, Onward(s), OnwardAct(s));
    TransferMoves(s);
  }

  lemma OnwardIsStep(s: State)
    requires s.current.Working? && !Waits(s) && (s.current.phase == AwaitBackend ==> s.current.x.bh in s.backend)
    ensures TransferStep(s, Onward(s), OnwardAct(s))
  {
    hide Done;
  }

  lemma TransferMoves(s: State)
    requires s.current.Working?
    ensures Onward(s) != s
  {
    assert PhaseWork(Onward(s).current) < PhaseWork(s.current);
  }

  lemma DispatchCanWork(s: State)
    requires QueueOk(s) && s.current.Nothing? && InHand(s) != {}
    ensures CanWork(s)
  {
    if s.unpushed < |s.pend| {
      var x := s.pend[0];
      var s1 := s.(pend := s.pend[1..]);
      var s' := if x.id !in s.failure then s1.(current := Working(x, Look))
                else if IsLast(x) then Done(s1, x.id) else s1;
      Moves(s, s', Take);
    } else if s.unpushed > 0 {
      Moves(s, s.(unpushed := s.unpushed - 1), Push);
    } else if s.dispatch.Getting? {
      GettingCanWork(s);
    } else {
      assert s.waiting != [] by {
        assert Stream(s) == [];
      }
      var t, s1 := s.waiting[0], s.(waiting := s.waiting[1..]);
      Moves(s, if t.id in s.failure then Done(s1, t.id) else s1.(dispatch := Getting(t, [])), Begin);
    }
  }

  lemma GettingCanWork(s: State)
    requires QueueOk(s) && s.dispatch.Getting?
    ensures CanWork(s)
  {
    var t, got := s.dispatch.task, s.dispatch.got;
    if |got| < |t.keys| {
      var key := t.keys[|got|];
      var owner, ready := !Pinned(s, key), ReadyAfterGet(s, key, false);
      var x := Shard(t.id, |got|, |t.keys|, key, owner, owner && key !in ready, 0);
      Moves(s, s.(ready := ready, dispatch := Getting(t, got + [x])), Act.Get(false));
    } else if NeedsBackend(got) {
      Moves(s, Done(s.(dispatch := NoTask, failure := s.failure + {t.id}), t.id), Load(false));
    } else {
      Moves(s, s.(dispatch := NoTask, pend := s.pend + got, unpushed := |got|), Load(false));
    }
  }

  lemma Moves(s: State, s': State, a: Act)
    requires QueueOk(s) && ThreadStep(s, s', a) && a != Poll
    ensures CanWork(s)
  {
    if DispatchStep(s, s', a) {
      DispatchUsesWork(s, s', a);
    } else {
      TransferMovesOn(s, s', a);
    }
  }

  lemma TransferMovesOn(s: State, s': State, a: Act)
    requires TransferStep(s, s', a) && a != Poll
    ensures s' != s
  {
    if a == Take {
      TakeUsesWork(s, s');
    } else if a == End {
      EndUsesWork(s, s');
    }
  }

  /**
   While a task is in hand, one of the two threads can do a step of work, or the transfer thread waits. So
   the two kinds of waiting are the only ways for a latch to stay up.
   */
  lemma WorksUnlessWaiting(s: State)
    requires Inv(s) && InHand(s) != {}
    ensures CanWork(s) || Waits(s)
  {
    hide HandlesOk, LatchOk, ProgressOk, ReadyOk;
    if s.current.Nothing? {
      DispatchCanWork(s);
    } else if !Waits(s) {
      TransferCanWork(s);
    }
  }

  /** A step of a run in which nobody submits: of one of the two threads, of anyone else, or none. */
  ghost predicate QuietStep(s: State, s': State, work: bool) {
    if work then WorkStep(s, s') else s' == s || exists a :: OutsideStep(s, s', a)
  }

  ghost predicate WorkStep(s: State, s': State) {
    s' != s && exists a :: ThreadStep(s, s', a)
  }

  function Count(work: seq<bool>): nat {
    if work == [] then 0 else (if work[0] then 1 else 0) + Count(work[1..])
  }

  /**
   Unless more is submitted the two threads come to rest: between them they take at most as many
   steps as there was work, whatever the backend, the timeouts and the other handles do meanwhile.
   */
  lemma {:induction false} BoundedWork(run: seq<State>, work: seq<bool>)
    requires |run| == |work| + 1 && Inv(run[0])
    requires forall n :: 0 <= n < |work| ==> QuietStep(run[n], run[n + 1], work[n])
    ensures Count(work) <= Work(run[0])
  {
    if work == [] {
      WorkIsNat(run[0]);
    } else {
      assert QuietStep(run[0], run[1], work[0]);
      QuietUsesWork(run[0], run[1], work[0]);
      var rest, after := run[1..], work[1..];
      forall n | 0 <= n < |after| ensures QuietStep(rest[n], rest[n + 1], after[n]) {
        assert QuietStep(run[n + 1], run[n + 2], work[n + 1]);
      }
      BoundedWork(rest, after);
    }
  }

  lemma QuietUsesWork(s: State, s': State, work: bool)
    requires Inv(s) && QuietStep(s, s', work)
    ensures Inv(s') && Work(s') <= Work(s) - (if work then 1 else 0)
  {
    hide Inv, DispatchStep, TransferStep, OutsideStep, Work;
    if work {
      var a :| ThreadStep(s, s', a);
      StepKeepsInv(s, s', a);
      if DispatchStep(s, s', a) {
        assert QueueOk(s) by {
          InvHasQueue(s);
        }
        DispatchUsesWork(s, s', a);
      } else {
        TransferUsesWork(s, s', a);
      }
    } else if s' != s {
      var a :| OutsideStep(s, s', a);
      StepKeepsInv(s, s', a);
      OutsideKeepsWork(s, s', a);
    }
  }

  lemma InvHasQueue(s: State)
    requires Inv(s)
    ensures QueueOk(s)
  {
  }

  // ---------------------------------------------------------------- exactly what keeps a latch up

  ghost predicate AllFired(s: State) {
    forall id :: id in s.latch && id in s.sizes && s.sizes[id] > 0 ==> s.latch[id] == 0 && id in s.fires && s.fires[id] == 1
  }

  /** At rest, every submitted task with shards has fired its latch once, exactly if the transfer thread does not wait. */
  lemma AtRestExact(s: State)
    requires Inv(s) && !CanWork(s)
    ensures AllFired(s) <==> !Waits(s)
  {
    hide HandlesOk, ProgressOk, ReadyOk;
    if Waits(s) {
      var x := s.current.x;
      assert Stream(s)[0] == x;
      assert x.id in InHand(s) && SizeIs(s, x.id, x.n);
    } else if InHand(s) != {} {
      WorksUnlessWaiting(s);
    }
  }

  ghost predicate OwnedOutside(s: State, key: Key) {
    exists o :: o in s.outside && o.key == key && o.owner
  }

  /** A wait for another's buffer is stuck exactly if no handle outside the queue owns the buffer. */
  lemma StuckExact(s: State)
    requires Inv(s) && OwnersOk(s) && s.current.Working? && s.current.phase == Spin
    requires s.current.x.id !in s.failure && s.current.x.key !in s.ready
    ensures Stuck(s) <==> !OwnedOutside(s, s.current.x.key)
  {
    var x, i, xs := s.current.x, |s.held|, Live(s);
    assert xs[i] == x;
    forall j | 0 <= j < |s.pend| && s.pend[j].key == x.key ensures !s.pend[j].owner {
      assert xs[i + 1 + j] == s.pend[j];
      assert !LaterOwner(xs[i], xs[i + 1 + j]);
    }
    if s.dispatch.Getting? {
      forall j | 0 <= j < |s.dispatch.got| && s.dispatch.got[j].key == x.key ensures !s.dispatch.got[j].owner {
        var k := i + |Stream(s)| + j;
        assert xs[k] == s.dispatch.got[j];
        assert !LaterOwner(xs[i], xs[k]);
      }
    }
  }

  /** Steps that lead from s to a state in which its wait is over, without the timeout of the waiting task. */
  ghost predicate Ends(s: State, run: seq<State>)
    requires s.current.Working?
  {
    && run != [] && run[0] == s && !(Waits(run[|run| - 1]) && run[|run| - 1].current == s.current)
    && forall n :: 0 <= n < |run| - 1 ==> NextBut(run[n], run[n + 1], s.current.x.id)
  }

  ghost predicate NextBut(s: State, s': State, id: nat) {
    exists a :: Step(s, s', a) && a != TimesOut(id)
  }

  /** Every wait can come to its end without a timeout, except a stuck one. */
  lemma WaitEndsExact(s: State)
    requires Inv(s) && OwnersOk(s) && Waits(s)
    ensures (exists run :: Ends(s, run)) <==> !Stuck(s)
  {
    if Stuck(s) {
      forall run ensures !Ends(s, run) {
        if run != [] && run[0] == s && forall n :: 0 <= n < |run| - 1 ==> NextBut(run[n], run[n + 1], s.current.x.id) {
          StaysStuck(run, s.current.x.id);
        }
      }
    } else if s.current.phase == AwaitBackend {
      BackendCanEnd(s);
    } else {
      StuckExact(s);
      var o :| o in s.outside && o.key == s.current.x.key && o.owner;
      OwnerCanEnd(s, o);
    }
  }

  lemma BackendCanEnd(s: State)
    requires Inv(s) && Waits(s) && s.current.phase == AwaitBackend
    ensures exists run :: Ends(s, run)
  {
    var x := s.current.x;
    assert Stream(s)[0] == x;
    assert HandleOk(s, x);
    var s' := s.(backend := s.backend[x.bh := Loaded]);
    assert Step(s, s', BackendEnds(x.bh, true));
    assert NextBut(s, s', x.id);
    assert Ends(s, [s, s']);
  }

  lemma OwnerCanEnd(s: State, o: Outside)
    requires Waits(s) && s.current.phase == Spin && o in s.outside && o.key == s.current.x.key && o.owner
    ensures exists run :: Ends(s, run)
  {
    var s' := s.(ready := s.ready + {o.key});
    assert Step(s, s', OutsideMark(o));
    assert NextBut(s, s', s.current.x.id);
    assert Ends(s, [s, s']);
  }

  lemma {:induction false} StaysStuck(run: seq<State>, id: nat)
    requires run != [] && Inv(run[0]) && Stuck(run[0]) && run[0].current.x.id == id
    requires forall n :: 0 <= n < |run| - 1 ==> NextBut(run[n], run[n + 1], id)
    ensures Inv(run[|run| - 1]) && Stuck(run[|run| - 1]) && run[|run| - 1].current == run[0].current
  {
    if |run| > 1 {
      assert NextBut(run[0], run[1], id);
      var a :| Step(run[0], run[1], a) && a != TimesOut(id);
      StuckStays(run[0], run[1], a);
      StepKeepsInv(run[0], run[1], a);
      var rest := run[1..];
      forall n | 0 <= n < |rest| - 1 ensures NextBut(rest[n], rest[n + 1], id) {
        assert NextBut(run[n + 1], run[n + 2], id);
      }
      StaysStuck(rest, id);
    }
  }
}
