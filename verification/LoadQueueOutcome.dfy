/**
 How loads end, over whole runs of the load queue: a task is recorded as failed exactly if one of
 its own acts failed or it timed out, and both queues hand on what they were given in order.
 */
module LoadQueueOutcome {
  import opened BufferIndex
  import opened LoadQueue

  /** What can go wrong for task `id`. */
  predicate Fault(s: State, a: Act, id: nat) {
    match a
    case Submit(task) => task.id == id && |s.waiting| + 1 >= s.depth
    case Load(ok) => !ok && s.dispatch.Getting? && s.dispatch.task.id == id && NeedsBackend(s.dispatch.got)
    case WaitBackend => s.current.Working? && s.current.x.id == id && Status(s, s.current.x.bh) == Broken
    case CopyAsync(ok) => !ok && s.current.Working? && s.current.x.id == id
    case Synchronize(ok) => !ok && s.current.Working? && s.current.x.id == id
    case TimesOut(late) => late == id
    case _ => false
  }

  /** Recorded as failed, or about to be. */
  predicate Blamed(s: State, id: nat) {
    id in s.failure || (s.current.Working? && s.current.phase == Failing && s.current.x.id == id)
  }

  // ---------------------------------------------------------------- one step

  ghost predicate Blames(s: State, s': State, a: Act, id: nat) {
    Blamed(s', id) <==> (Blamed(s, id) || Fault(s, a, id)) && a != Forget(id)
  }

  lemma DoneKeepsBlame(s: State, id: nat)
    ensures Done(s, id).failure == s.failure && Done(s, id).current == s.current
  {
  }

  lemma SubmitBlames(s: State, s': State, task: Task, id: nat)
    requires SubmitStep(s, s', task)
    ensures Blames(s, s', Submit(task), id)
  {
    hide Done;
    DoneKeepsBlame(s.(latch := s.latch[task.id := 1], fires := s.fires[task.id := 0],
                      sizes := s.sizes[task.id := |task.keys|], failure := s.failure + {task.id}), task.id);
  }

  lemma DispatchBlames(s: State, s': State, a: Act, id: nat)
    requires DispatchStep(s, s', a)
    ensures Blames(s, s', a, id)
  {
    hide Done, Pinned, ReadyAfterGet, NeedsBackend;
    match a
    case Begin => DoneKeepsBlame(s.(waiting := s.waiting[1..]), s.waiting[0].id);
    case Load(ok) =>
      DoneKeepsBlame(s.(dispatch := NoTask, failure := s.failure + {s.dispatch.task.id}), s.dispatch.task.id);
    case _ =>
  }

  lemma TakeBlames(s: State, s': State, id: nat)
    requires TakeStep(s, s')
    ensures Blames(s, s', Take, id)
  {
    hide Done;
    DoneKeepsBlame(s.(pend := s.pend[1..]), s.pend[0].id);
  }

  lemma EndBlames(s: State, s': State, id: nat)
    requires EndStep(s, s')
    ensures Blames(s, s', End, id)
  {
    hide Done;
    var x := s.current.x;
    DoneKeepsBlame(s.(current := Nothing), x.id);
    DoneKeepsBlame(s.(current := Nothing, failure := s.failure + {x.id}), x.id);
  }

  lemma LookBlames(s: State, s': State, a: Act, id: nat)
    requires (a.Inspect? && InspectStep(s, s')) || (a.Poll? && PollStep(s, s')) || (a.WaitBackend? && BackendStep(s, s'))
    ensures Blames(s, s', a, id)
  {
  }

  lemma CopyBlames(s: State, s': State, a: Act, id: nat)
    requires (a.CopyAsync? && CopyStep(s, s', a.ok)) || (a.Synchronize? && SyncStep(s, s', a.ok))
    ensures Blames(s, s', a, id)
  {
    hide Refs;
  }

  lemma TransferBlames(s: State, s': State, a: Act, id: nat)
    requires TransferStep(s, s', a)
    ensures Blames(s, s', a, id)
  {
    hide TakeStep, EndStep, InspectStep, PollStep, BackendStep, CopyStep, SyncStep, Blames;
    match a
    case Take => TakeBlames(s, s', id);
    case End => EndBlames(s, s', id);
    case CopyAsync(ok) => CopyBlames(s, s', a, id);
    case Synchronize(ok) => CopyBlames(s, s', a, id);
    case _ => LookBlames(s, s', a, id);
  }

  /** A task whose latch is down is in nobody's hands. */
  lemma DownIsOut(s: State, id: nat)
    requires LatchOk(s) && id in s.latch && s.latch[id] == 0
    ensures s.current.Working? ==> s.current.x.id != id
  {
    if s.current.Working? {
      assert Stream(s)[0] == s.current.x;
      assert s.current.x.id in InHand(s);
    }
  }

  lemma OutsideBlames(s: State, s': State, a: Act, id: nat)
    requires LatchOk(s) && OutsideStep(s, s', a)
    ensures Blames(s, s', a, id)
  {
    hide LatchOk, ReadyAfterGet, Pinned;
    if a == Forget(id) {
      DownIsOut(s, id);
    }
  }

  /** An id comes to blame by a fault of its own and nothing else, and is cleared by `Forget` alone. */
  lemma StepBlames(s: State, s': State, a: Act, id: nat)
    requires Inv(s) && Step(s, s', a)
    ensures Blamed(s', id) <==> (Blamed(s, id) || Fault(s, a, id)) && a != Forget(id)
  {
    assert Blames(s, s', a, id) by {
      hide Inv, SubmitStep, DispatchStep, TransferStep, OutsideStep, Blames;
      if a.Submit? && SubmitStep(s, s', a.task) {
        SubmitBlames(s, s', a.task, id);
      } else if DispatchStep(s, s', a) {
        DispatchBlames(s, s', a, id);
      } else if TransferStep(s, s', a) {
        TransferBlames(s, s', a, id);
      } else {
        OutsideBlames(s, s', a, id);
      }
    }
  }

  // ---------------------------------------------------------------- whole runs

  /** A run and the acts between its states. */
  ghost predicate Acted(run: seq<State>, acts: seq<Act>) {
    && |run| == |acts| + 1 && Init(run[0])
    && forall n :: 0 <= n < |acts| ==> Step(run[n], run[n + 1], acts[n])
  }

  lemma ActedKeepsInv(run: seq<State>, acts: seq<Act>)
    requires Acted(run, acts)
    ensures forall n :: 0 <= n < |run| ==> Inv(run[n])
  {
    hide Inv, Init, Step;
    forall n | 0 <= n < |run| - 1 ensures Next(run[n], run[n + 1]) {
      assert Step(run[n], run[n + 1], acts[n]);
    }
    RunKeepsInv(run);
  }

  lemma ActedAt(run: seq<State>, acts: seq<Act>, n: nat)
    requires Acted(run, acts) && n < |acts|
    ensures |run| == |acts| + 1 && Inv(run[n]) && Inv(run[n + 1]) && Step(run[n], run[n + 1], acts[n])
  {
    ActedKeepsInv(run, acts);
    hide Inv, Step, Init;
  }

  ghost predicate Faulted(run: seq<State>, acts: seq<Act>, n: nat, id: nat)
    requires n <= |acts| < |run|
  {
    exists k: nat :: k < n && Fault(run[k], acts[k], id)
  }

  ghost predicate Forgotten(acts: seq<Act>, n: nat, id: nat)
    requires n <= |acts|
  {
    exists k: nat :: k < n && acts[k] == Forget(id)
  }

  /** Until its outcome has been collected, an id is to blame exactly if one of its own acts has failed or it has timed out. */
  lemma {:induction false} BlamedExact(run: seq<State>, acts: seq<Act>, n: nat, id: nat)
    requires Acted(run, acts) && n <= |acts| && !Forgotten(acts, n, id)
    ensures |run| == |acts| + 1 && (Blamed(run[n], id) <==> Faulted(run, acts, n, id))
    decreases n
  {
    if n == 0 {
      hide Step;
    } else {
      var m: nat := n - 1;
      ActedAt(run, acts, m);
      hide Acted, Inv, Step, Init, Fault, Blamed;
      assert !Forgotten(acts, m, id) && acts[m] != Forget(id);
      BlamedExact(run, acts, m, id);
      StepBlames(run[m], run[n], acts[m], id);
    }
  }

  /** A latch has fired at most once, and stays fired. */
  lemma FiresStay(s: State, s': State, a: Act, id: nat)
    requires Inv(s) && Inv(s') && Step(s, s', a) && id in s.fires && s.fires[id] == 1
    ensures id in s'.fires && s'.fires[id] == 1
  {
    FiresGrow(s, s', a, id);
    assert id in s'.latch && s'.latch[id] + s'.fires[id] == 1;
  }

  lemma DoneGrows(s: State, i: nat, id: nat)
    requires id in s.fires
    ensures id in Done(s, i).fires && Done(s, i).fires[id] >= s.fires[id]
  {
  }

  lemma FiresGrow(s: State, s': State, a: Act, id: nat)
    requires Step(s, s', a) && id in s.fires && s.latch.Keys == s.fires.Keys
    ensures id in s'.fires && s'.fires[id] >= s.fires[id]
  {
    hide Done, Pinned, ReadyAfterGet, NeedsBackend;
    if a.Submit? && SubmitStep(s, s', a.task) {
      var t := a.task;
      DoneGrows(s.(latch := s.latch[t.id := 1], fires := s.fires[t.id := 0], sizes := s.sizes[t.id := |t.keys|],
                   failure := s.failure + {t.id}), t.id, id);
    } else if DispatchStep(s, s', a) {
      DispatchFires(s, s', a, id);
    } else if TransferStep(s, s', a) {
      TransferFires(s, s', a, id);
    }
  }

  lemma DispatchFires(s: State, s': State, a: Act, id: nat)
    requires DispatchStep(s, s', a) && id in s.fires
    ensures id in s'.fires && s'.fires[id] >= s.fires[id]
  {
    hide Done, Pinned, ReadyAfterGet, NeedsBackend;
    match a
    case Begin => DoneGrows(s.(waiting := s.waiting[1..]), s.waiting[0].id, id);
    case Load(ok) =>
      DoneGrows(s.(dispatch := NoTask, failure := s.failure + {s.dispatch.task.id}), s.dispatch.task.id, id);
    case _ =>
  }

  lemma TransferFires(s: State, s': State, a: Act, id: nat)
    requires TransferStep(s, s', a) && id in s.fires
    ensures id in s'.fires && s'.fires[id] >= s.fires[id]
  {
    hide Done;
    match a
    case Take => DoneGrows(s.(pend := s.pend[1..]), s.pend[0].id, id);
    case End =>
      DoneGrows(s.(current := Nothing), s.current.x.id, id);
      DoneGrows(s.(current := Nothing, failure := s.failure + {s.current.x.id}), s.current.x.id, id);
    case _ =>
  }

  /** The outcome of a task is collected only once its latch has fired. */
  lemma {:induction false} ForgottenFired(run: seq<State>, acts: seq<Act>, n: nat, id: nat)
    requires Acted(run, acts) && n <= |acts| && Forgotten(acts, n, id)
    ensures |run| == |acts| + 1 && id in run[n].fires && run[n].fires[id] == 1
    decreases n
  {
    hide *;
    ForgottenCut(acts, n, id);
    var m: nat := n - 1;
    ActedAt(run, acts, m);
    if acts[m] == Forget(id) {
      ForgetFired(run[m], run[n], id);
    } else {
      ForgottenFired(run, acts, m, id);
      FiresStay(run[m], run[n], acts[m], id);
    }
  }

  lemma ForgottenCut(acts: seq<Act>, n: nat, id: nat)
    requires n <= |acts| && Forgotten(acts, n, id)
    ensures n > 0 && (acts[n - 1] == Forget(id) || Forgotten(acts, n - 1, id))
  {
  }

  lemma ForgetFired(s: State, s': State, id: nat)
    requires Inv(s) && Step(s, s', Forget(id))
    ensures s'.fires == s.fires && id in s.fires && s.fires[id] == 1
  {
    assert OutsideStep(s, s', Forget(id));
    assert id in s.latch && s.latch[id] + s.fires[id] == 1;
  }

  /**
   When the latch of a task fires, its id is in the failure set exactly if one of its own acts failed or
   it timed out. Otherwise every one of its shards was copied and the streams synchronised after the copy.
   */
  lemma OutcomeExact(run: seq<State>, acts: seq<Act>, n: nat, id: nat)
    requires Acted(run, acts) && n < |acts|
    requires |run| == |acts| + 1 && id in run[n + 1].fires && run[n + 1].fires[id] == 1
    requires id in run[n].fires ==> run[n].fires[id] == 0
    ensures id in run[n + 1].failure <==> Faulted(run, acts, n + 1, id)
    ensures !Faulted(run, acts, n + 1, id) ==>
      id in run[n].sizes && forall k :: 0 <= k < run[n].sizes[id] ==> (id, k) in run[n + 1].synced
  {
    var s, s' := run[n], run[n + 1];
    ActedAt(run, acts, n);
    FiringIsNotForgetting(run, acts, n, id);
    BlamedExact(run, acts, n + 1, id);
    FiredIsOut(s', id);
    hide Acted, Inv, Step, Faulted;
    if id !in s'.failure {
      FiredBefore(s, s', acts[n], id);
      FiredMeansSynced(s, s', acts[n], id);
    }
  }

  lemma FiringIsNotForgetting(run: seq<State>, acts: seq<Act>, n: nat, id: nat)
    requires Acted(run, acts) && n < |acts| && |run| == |acts| + 1
    requires id in run[n + 1].fires && run[n + 1].fires[id] == 1 && (id in run[n].fires ==> run[n].fires[id] == 0)
    ensures !Forgotten(acts, n + 1, id)
  {
    hide *;
    if Forgotten(acts, n + 1, id) {
      ForgottenCut(acts, n + 1, id);
      ActedAt(run, acts, n);
      if acts[n] == Forget(id) {
        ForgetFired(run[n], run[n + 1], id);
      } else {
        ForgottenFired(run, acts, n, id);
      }
    }
  }

  /** A fired task is in nobody's hands. */
  lemma FiredIsOut(s: State, id: nat)
    requires Inv(s) && id in s.fires && s.fires[id] == 1
    ensures s.current.Working? ==> s.current.x.id != id
  {
    assert id in s.latch && s.latch[id] + s.fires[id] == 1;
    DownIsOut(s, id);
  }

  /** A latch that fires had been raised before, unless its task is refused at once. */
  lemma FiredBefore(s: State, s': State, a: Act, id: nat)
    requires Inv(s) && Inv(s') && Step(s, s', a) && id !in s'.failure && id in s'.fires && s'.fires[id] == 1
    ensures id in s.fires
  {
    assert s.fires.Keys == s.sizes.Keys && s'.fires.Keys == s'.sizes.Keys;
    hide Inv, SubmitStep, DispatchStep, TransferStep, OutsideStep;
    if a.Submit? && SubmitStep(s, s', a.task) {
      NotRefused(s, s', a.task, id);
    } else if DispatchStep(s, s', a) {
      DispatchHasEffect(s, s', a);
    } else if TransferStep(s, s', a) {
      TransferHasEffect(s, s', a);
    } else {
      OutsideIsStill(s, s', a);
    }
  }

  lemma NotRefused(s: State, s': State, task: Task, id: nat)
    requires SubmitStep(s, s', task) && id !in s'.failure && id in s'.fires && s'.fires[id] == 1
    ensures id in s.fires
  {
  }

  // ---------------------------------------------------------------- first come, first served

  predicate Accepts(s: State, a: Act) {
    a.Submit? && |s.waiting| + 1 < s.depth
  }

  /** The tasks accepted in the first n steps, and those that the dispatcher has begun. */
  function Accepted(run: seq<State>, acts: seq<Act>, n: nat): seq<Task>
    requires n <= |acts| < |run|
  {
    if n == 0 then []
    else Accepted(run, acts, n - 1) + (if Accepts(run[n - 1], acts[n - 1]) then [acts[n - 1].task] else [])
  }

  function Begun(run: seq<State>, acts: seq<Act>, n: nat): seq<Task>
    requires n <= |acts| < |run|
  {
    if n == 0 then []
    else Begun(run, acts, n - 1) + (if acts[n - 1].Begin? then run[n - 1].waiting[..Min1(run[n - 1].waiting)] else [])
  }

  function Min1<T>(xs: seq<T>): (n: nat)
    ensures n <= |xs|
  {
    if xs == [] then 0 else 1
  }

  /** The shards that the dispatcher has handed on, and those that the transfer thread has taken. */
  ghost function HandedOn(run: seq<State>, acts: seq<Act>, n: nat): seq<Shard>
    requires n <= |acts| < |run|
  {
    if n == 0 then []
    else HandedOn(run, acts, n - 1) + (if Appends(run[n - 1], acts[n - 1]) then Block(run[n - 1]) else [])
  }

  function Taken(run: seq<State>, acts: seq<Act>, n: nat): seq<Shard>
    requires n <= |acts| < |run|
  {
    if n == 0 then []
    else Taken(run, acts, n - 1) + (if acts[n - 1].Take? then run[n - 1].pend[..Min1(run[n - 1].pend)] else [])
  }

  /** What a step does to the two queues: append at the end, take from the front, or nothing. */
  ghost predicate QueuesMove(s: State, s': State, a: Act) {
    && s.waiting + (if Accepts(s, a) then [a.task] else []) == (if a.Begin? then s.waiting[..Min1(s.waiting)] else []) + s'.waiting
    && s.pend + (if Appends(s, a) then Block(s) else []) == (if a.Take? then s.pend[..Min1(s.pend)] else []) + s'.pend
  }

  lemma DoneKeepsQueues(s: State, id: nat)
    ensures Done(s, id).waiting == s.waiting && Done(s, id).pend == s.pend && Done(s, id).depth == s.depth
  {
  }

  lemma SubmitMoves(s: State, s': State, task: Task)
    requires SubmitStep(s, s', task)
    ensures QueuesMove(s, s', Submit(task))
  {
    hide Done, Block;
    DoneKeepsQueues(s.(latch := s.latch[task.id := 1], fires := s.fires[task.id := 0],
                       sizes := s.sizes[task.id := |task.keys|], failure := s.failure + {task.id}), task.id);
  }

  lemma DispatchMoves(s: State, s': State, a: Act)
    requires DispatchStep(s, s', a)
    ensures QueuesMove(s, s', a)
  {
    DispatchHasEffect(s, s', a);
    hide Done, Block, Pinned, ReadyAfterGet, NeedsBackend;
    match a
    case Begin =>
      DoneKeepsQueues(s.(waiting := s.waiting[1..]), s.waiting[0].id);
      assert s.waiting == [s.waiting[0]] + s.waiting[1..];
    case Load(ok) =>
      DoneKeepsQueues(s.(dispatch := NoTask, failure := s.failure + {s.dispatch.task.id}), s.dispatch.task.id);
    case _ =>
  }

  lemma TransferMoves(s: State, s': State, a: Act)
    requires TransferStep(s, s', a)
    ensures QueuesMove(s, s', a)
  {
    TransferHasEffect(s, s', a);
    hide TransferStep, HeldEffect, PhaseEffect, DropsFirst, Stream, Block;
    if a.Take? {
      assert s.pend == [s.pend[0]] + s.pend[1..];
    }
  }

  lemma StepMoves(s: State, s': State, a: Act)
    requires Step(s, s', a)
    ensures QueuesMove(s, s', a)
  {
    hide SubmitStep, DispatchStep, TransferStep, QueuesMove;
    if a.Submit? && SubmitStep(s, s', a.task) {
      SubmitMoves(s, s', a.task);
    } else if DispatchStep(s, s', a) {
      DispatchMoves(s, s', a);
    } else if TransferStep(s, s', a) {
      TransferMoves(s, s', a);
    } else {
      OutsideMoves(s, s', a);
    }
  }

  lemma OutsideMoves(s: State, s': State, a: Act)
    requires OutsideStep(s, s', a)
    ensures QueuesMove(s, s', a)
  {
    hide Pinned, ReadyAfterGet, Block;
  }

  lemma Rejoined<T>(all: seq<T>, gone: seq<T>, left: seq<T>, more: seq<T>, taken: seq<T>, left': seq<T>)
    requires all == gone + left && left + more == taken + left'
    ensures all + more == (gone + taken) + left'
  {
    assert gone + (left + more) == gone + (taken + left');
    assert (gone + left) + more == gone + (left + more);
    assert gone + (taken + left') == (gone + taken) + left';
  }

  /**
   In every run tasks are begun in the order in which they were accepted, and shards taken in the order in
   which the dispatcher handed them on; what is not yet begun or taken is in the queue.
   */
  lemma {:induction false} InOrder(run: seq<State>, acts: seq<Act>, n: nat)
    requires Acted(run, acts) && n <= |acts|
    ensures |run| == |acts| + 1
    ensures Accepted(run, acts, n) == Begun(run, acts, n) + run[n].waiting
    ensures HandedOn(run, acts, n) == Taken(run, acts, n) + run[n].pend
    decreases n
  {
    hide Acted, Init, Inv, Step, QueuesMove, Accepts, Appends, Block, Min1;
    StartsEmpty(run, acts);
    if n > 0 {
      var m: nat := n - 1;
      InOrder(run, acts, m);
      ActedAt(run, acts, m);
      StepMoves(run[m], run[n], acts[m]);
      TasksMove(run[m], run[n], acts[m], Accepted(run, acts, m), Begun(run, acts, m));
      ShardsMove(run[m], run[n], acts[m], HandedOn(run, acts, m), Taken(run, acts, m));
    }
  }

  lemma StartsEmpty(run: seq<State>, acts: seq<Act>)
    requires Acted(run, acts)
    ensures |run| == |acts| + 1 && run[0].waiting == [] && run[0].pend == []
  {
    hide Step;
  }

  lemma TasksMove(s: State, s': State, a: Act, accepted: seq<Task>, begun: seq<Task>)
    requires QueuesMove(s, s', a) && accepted == begun + s.waiting
    ensures accepted + (if Accepts(s, a) then [a.task] else []) ==
      (begun + (if a.Begin? then s.waiting[..Min1(s.waiting)] else [])) + s'.waiting
  {
    Rejoined(accepted, begun, s.waiting, if Accepts(s, a) then [a.task] else [],
             if a.Begin? then s.waiting[..Min1(s.waiting)] else [], s'.waiting);
  }

  lemma ShardsMove(s: State, s': State, a: Act, handed: seq<Shard>, taken: seq<Shard>)
    requires QueuesMove(s, s', a) && handed == taken + s.pend
    ensures handed + (if Appends(s, a) then Block(s) else []) ==
      (taken + (if a.Take? then s.pend[..Min1(s.pend)] else [])) + s'.pend
  {
    hide Block;
    Rejoined(handed, taken, s.pend, if Appends(s, a) then Block(s) else [],
             if a.Take? then s.pend[..Min1(s.pend)] else [], s'.pend);
  }

  // ---------------------------------------------------------------- no work for nothing

  /** Nothing is done any more for a task that has failed: its shards are neither pinned nor copied. */
  lemma FailedIsSkipped(s: State, s': State, a: Act)
    requires Step(s, s', a)
    ensures a.Begin? ==> s.waiting != [] && (s'.dispatch.Getting? <==> s.waiting[0].id !in s.failure)
    ensures a.Take? ==> s.pend != [] && (s'.current.Working? <==> s.pend[0].id !in s.failure)
    ensures s'.current.Working? && (s.current.Nothing? || s'.current.x != s.current.x) ==>
      a.Take? && s.pend != [] && s'.current.x == s.pend[0] && s.pend[0].id !in s.failure
  {
    hide SubmitStep, DispatchStep, TransferStep, OutsideStep;
    if a.Submit? && SubmitStep(s, s', a.task) {
      SubmitIsStill(s, s', a.task);
    } else if DispatchStep(s, s', a) {
      DispatchHasEffect(s, s', a);
      BeginSkips(s, s', a);
    } else if TransferStep(s, s', a) {
      TransferHasEffect(s, s', a);
      TakeSkips(s, s', a);
    } else {
      OutsideIsStill(s, s', a);
      NotOutside(s, s', a);
    }
  }

  lemma NotOutside(s: State, s': State, a: Act)
    requires OutsideStep(s, s', a)
    ensures !a.Begin? && !a.Take?
  {
    hide Pinned, ReadyAfterGet;
  }

  lemma BeginSkips(s: State, s': State, a: Act)
    requires DispatchStep(s, s', a)
    ensures !a.Take? && (a.Begin? ==> s.waiting != [] && (s'.dispatch.Getting? <==> s.waiting[0].id !in s.failure))
  {
    hide Pinned, ReadyAfterGet, NeedsBackend;
  }

  lemma TakeSkips(s: State, s': State, a: Act)
    requires TransferStep(s, s', a)
    ensures !a.Begin? && (a.Take? ==> s.pend != [] && (s'.current.Working? <==> s.pend[0].id !in s.failure))
  {
  }

  /** A wait for the backend is for a later handle than any before. */
  predicate AwaitOk(s: State) {
    s.current.Working? && s.current.phase == AwaitBackend ==> s.current.x.bh > s.finished
  }

  lemma AwaitKept(s: State, s': State, a: Act)
    requires AwaitOk(s) && Step(s, s', a)
    ensures AwaitOk(s') && s'.finished >= s.finished
    ensures a.WaitBackend? ==> s.current.Working? && s.current.x.bh > s.finished && s'.finished == s.current.x.bh
  {
    hide SubmitStep, DispatchStep, TransferStep, OutsideStep;
    if a.Submit? && SubmitStep(s, s', a.task) {
      SubmitIsStill(s, s', a.task);
    } else if DispatchStep(s, s', a) {
      DispatchHasEffect(s, s', a);
      NoWaitIn(s, s', a);
    } else if TransferStep(s, s', a) {
      TransferHasEffect(s, s', a);
      AwaitMoves(s, s', a);
    } else {
      OutsideIsStill(s, s', a);
      NoWaitIn(s, s', a);
    }
  }

  lemma NoWaitIn(s: State, s': State, a: Act)
    requires DispatchStep(s, s', a) || OutsideStep(s, s', a)
    ensures !a.WaitBackend?
  {
    hide Pinned, ReadyAfterGet, NeedsBackend;
  }

  lemma AwaitMoves(s: State, s': State, a: Act)
    requires AwaitOk(s) && TransferEffect(s, s', a) && TransferStep(s, s', a)
    ensures AwaitOk(s') && s'.finished >= s.finished
    ensures a.WaitBackend? ==> s.current.Working? && s.current.x.bh > s.finished && s'.finished == s.current.x.bh
  {
    hide TakeStep, EndStep, CopyStep, SyncStep;
  }

  lemma {:induction false} FinishedGrows(run: seq<State>, acts: seq<Act>, m: nat, n: nat)
    requires Acted(run, acts) && m <= n <= |acts|
    ensures |run| == |acts| + 1 && AwaitOk(run[n]) && run[m].finished <= run[n].finished
    decreases n
  {
    hide Init, Inv, AwaitOk, Step;
    if n == 0 {
      StartsFree(run, acts);
    } else {
      ActedAt(run, acts, n - 1);
      FinishedGrows(run, acts, if m < n then m else n - 1, n - 1);
      AwaitKept(run[n - 1], run[n], acts[n - 1]);
    }
  }

  lemma StartsFree(run: seq<State>, acts: seq<Act>)
    requires Acted(run, acts)
    ensures |run| == |acts| + 1 && AwaitOk(run[0])
  {
    hide Step;
  }

  /** The backend is asked to wait for ever later handles, so for none twice. */
  lemma WaitedOnce(run: seq<State>, acts: seq<Act>, m: nat, n: nat)
    requires Acted(run, acts) && m < n < |acts| && acts[m] == WaitBackend && acts[n] == WaitBackend
    ensures |run| == |acts| + 1 && run[m].current.Working? && run[n].current.Working?
    ensures run[m].current.x.bh < run[n].current.x.bh
  {
    FinishedGrows(run, acts, 0, m);
    FinishedGrows(run, acts, m + 1, n);
    ActedAt(run, acts, m);
    ActedAt(run, acts, n);
    hide Acted, Inv, Step, AwaitOk;
    AwaitKept(run[m], run[m + 1], WaitBackend);
    AwaitKept(run[n], run[n + 1], WaitBackend);
  }

  lemma WaitingMoves(s: State, s': State, a: Act)
    requires Step(s, s', a) && |s.waiting| < s.depth
    ensures s'.depth == s.depth && |s'.waiting| < s'.depth
    ensures a.Submit? ==> (s'.waiting == s.waiting + [a.task] <==> |s.waiting| + 1 < s.depth)
  {
    StepMoves(s, s', a);
    DepthStays(s, s', a);
    hide Step, Appends, Block;
  }

  lemma SubmitDepth(s: State, s': State, task: Task)
    requires SubmitStep(s, s', task)
    ensures s'.depth == s.depth
  {
    hide Done;
    DoneKeepsQueues(s.(latch := s.latch[task.id := 1], fires := s.fires[task.id := 0],
                       sizes := s.sizes[task.id := |task.keys|], failure := s.failure + {task.id}), task.id);
  }

  lemma DispatchDepth(s: State, s': State, a: Act)
    requires DispatchStep(s, s', a)
    ensures s'.depth == s.depth
  {
    hide Done, Pinned, ReadyAfterGet, NeedsBackend;
    match a
    case Begin => DoneKeepsQueues(s.(waiting := s.waiting[1..]), s.waiting[0].id);
    case Load(ok) =>
      DoneKeepsQueues(s.(dispatch := NoTask, failure := s.failure + {s.dispatch.task.id}), s.dispatch.task.id);
    case _ =>
  }

  lemma LookDepth(s: State, s': State)
    requires InspectStep(s, s') || PollStep(s, s') || BackendStep(s, s')
    ensures s'.depth == s.depth
  {
  }

  lemma TakeDepth(s: State, s': State)
    requires TakeStep(s, s') || EndStep(s, s')
    ensures s'.depth == s.depth
  {
    hide Done;
    if TakeStep(s, s') {
      DoneKeepsQueues(s.(pend := s.pend[1..]), s.pend[0].id);
    } else {
      DoneKeepsQueues(s.(current := Nothing), s.current.x.id);
      DoneKeepsQueues(s.(current := Nothing, failure := s.failure + {s.current.x.id}), s.current.x.id);
    }
  }

  lemma TransferDepth(s: State, s': State, a: Act)
    requires TransferStep(s, s', a)
    ensures s'.depth == s.depth
  {
    hide TakeStep, EndStep, InspectStep, PollStep, BackendStep;
    match a
    case Take => TakeDepth(s, s');
    case End => TakeDepth(s, s');
    case CopyAsync(ok) =>
    case Synchronize(ok) =>
    case _ => LookDepth(s, s');
  }

  lemma DepthStays(s: State, s': State, a: Act)
    requires Step(s, s', a)
    ensures s'.depth == s.depth
  {
    hide SubmitStep, DispatchStep, TransferStep, OutsideStep;
    if a.Submit? && SubmitStep(s, s', a.task) {
      SubmitDepth(s, s', a.task);
    } else if DispatchStep(s, s', a) {
      DispatchDepth(s, s', a);
    } else if TransferStep(s, s', a) {
      TransferDepth(s, s', a);
    } else {
      OutsideDepth(s, s', a);
    }
  }

  lemma OutsideDepth(s: State, s': State, a: Act)
    requires OutsideStep(s, s', a)
    ensures s'.depth == s.depth
  {
    hide Pinned, ReadyAfterGet;
  }

  /** The waiting queue never holds more than its depth allows: one less, as in the ring. */
  lemma {:induction false} WaitingBounded(run: seq<State>, acts: seq<Act>, n: nat)
    requires Acted(run, acts) && n <= |acts| && run[0].depth > 0
    ensures |run| == |acts| + 1 && |run[n].waiting| < run[n].depth == run[0].depth
    decreases n
  {
    hide *;
    StartsEmpty(run, acts);
    if n > 0 {
      ActedAt(run, acts, n - 1);
      WaitingBounded(run, acts, n - 1);
      WaitingMoves(run[n - 1], run[n], acts[n - 1]);
    }
  }
}
