/**
 The load queue: submitter, dispatcher thread and transfer thread around two FIFO queues, a
 shared failure set, the backend's task handles and one latch per task. Every call that
 another thread could observe is one atomic step. The buffer is seen through its handles:
 `Get` owns a key exactly when nobody else holds it, and a held key stays cached.
 */
module LoadQueue {
  import opened BufferIndex

  // ---------------------------------------------------------------- state

  datatype Task = Task(id: nat, keys: seq<Key>)

  /** One `ShardTask`. `bh` is 0 unless the shard is part of a backend load. */
  datatype Shard = Shard(id: nat, idx: nat, n: nat, key: Key, owner: bool, needs: bool, bh: nat)

  predicate IsLast(x: Shard) {
    x.idx + 1 == x.n
  }

  datatype Dispatch = NoTask | Getting(task: Task, got: seq<Shard>)

  datatype Phase = Look | Spin | AwaitBackend | CopyOut | Sync | Failing | Finishing

  datatype Current = Nothing | Working(x: Shard, phase: Phase)

  datatype Backend = Pending | Loaded | Broken

  /** A handle held outside the load queue, by the dump queue or another process. */
  datatype Outside = Outside(serial: nat, key: Key, owner: bool)

  /**
   `pend` holds the shard tasks pushed to the running queue and not yet taken, followed by
   the `unpushed` ones the dispatcher is still pushing. `latch` counts each submitted task
   down; `fires`, `synced` and `sizes` are history variables.
   */
  datatype State = State(
    depth: nat, waiting: seq<Task>, dispatch: Dispatch,
    pend: seq<Shard>, unpushed: nat, current: Current, held: seq<Shard>,
    finished: nat, nextBackend: nat, backend: map<nat, Backend>,
    failure: set<nat>, ready: set<Key>, outside: set<Outside>,
    latch: map<nat, nat>, fires: map<nat, nat>, synced: set<(nat, nat)>, sizes: map<nat, nat>)

  ghost predicate Init(s: State) {
    && s.waiting == [] && s.dispatch == NoTask && s.pend == [] && s.unpushed == 0
    && s.current == Nothing && s.held == [] && s.finished == 0 && s.nextBackend == 1
    && s.backend == map[] && s.failure == {} && s.outside == {}
    && s.latch == map[] && s.fires == map[] && s.synced == {} && s.sizes == map[]
  }

  /** Some live handle holds the key, so its node can be neither evicted nor re-keyed. */
  ghost predicate Pinned(s: State, key: Key) {
    || (exists j :: 0 <= j < |s.pend| && s.pend[j].key == key)
    || (exists j :: 0 <= j < |s.held| && s.held[j].key == key)
    || (s.current.Working? && s.current.x.key == key)
    || (s.dispatch.Getting? && exists j :: 0 <= j < |s.dispatch.got| && s.dispatch.got[j].key == key)
    || (exists o :: o in s.outside && o.key == key)
  }

  /** `Latch::Done` for task `id`. */
  function Done(s: State, id: nat): State {
    if id in s.latch && id in s.fires && s.latch[id] > 0 then
      s.(latch := s.latch[id := s.latch[id] - 1],
         fires := if s.latch[id] == 1 then s.fires[id := s.fires[id] + 1] else s.fires)
    else s
  }

  // ---------------------------------------------------------------- steps

  datatype Act =
    | Submit(task: Task)
    | Begin | Get(cached: bool) | Load(ok: bool) | Push
    | Take | Inspect | Poll | WaitBackend | CopyAsync(ok: bool) | Synchronize(ok: bool) | End
    | BackendEnds(bh: nat, ok: bool) | TimesOut(id: nat) | Forget(id: nat)
    | OutsideGet(o: Outside, cached: bool) | OutsideDrop(o: Outside) | OutsideMark(o: Outside)

  /** `Submit`: count the latch up, then queue the task or fail it at once. */
  ghost predicate SubmitStep(s: State, s': State, task: Task) {
    && task.id !in s.latch
    && var up := s.(latch := s.latch[task.id := 1], fires := s.fires[task.id := 0],
                    sizes := s.sizes[task.id := |task.keys|]);
    s' == if |s.waiting| + 1 < s.depth then up.(waiting := s.waiting + [task])
          else Done(up.(failure := s.failure + {task.id}), task.id)
  }

  /** What `Get` does to the ready marks: only an unheld key's can be new or lost. */
  ghost function ReadyAfterGet(s: State, key: Key, cached: bool): set<Key> {
    if Pinned(s, key) then s.ready else if cached then s.ready + {key} else s.ready - {key}
  }

  /** `DispatchOneTask`. */
  ghost predicate DispatchStep(s: State, s': State, a: Act) {
    match a
    case Begin =>
      && s.dispatch == NoTask && s.unpushed == 0 && s.waiting != []
      && var t := s.waiting[0];
      && var s1 := s.(waiting := s.waiting[1..]);
      s' == if t.id in s.failure then Done(s1, t.id) else s1.(dispatch := Getting(t, []))
    case Get(cached) =>
      && s.dispatch.Getting? && |s.dispatch.got| < |s.dispatch.task.keys|
      && var t, i := s.dispatch.task, |s.dispatch.got|;
      && var owner, ready := !Pinned(s, t.keys[i]), ReadyAfterGet(s, t.keys[i], cached);
      && var x := Shard(t.id, i, |t.keys|, t.keys[i], owner, owner && t.keys[i] !in ready, 0);
      s' == s.(ready := ready, dispatch := Getting(t, s.dispatch.got + [x]))
    case Load(ok) =>
      && s.dispatch.Getting? && |s.dispatch.got| == |s.dispatch.task.keys|
      && var got := s.dispatch.got;
      if !NeedsBackend(got) then
        s' == s.(dispatch := NoTask, pend := s.pend + got, unpushed := |got|)
      else if !ok then
        s' == Done(s.(dispatch := NoTask, failure := s.failure + {s.dispatch.task.id}), s.dispatch.task.id)
      else
        s' == s.(dispatch := NoTask, pend := s.pend + WithHandle(got, s.nextBackend), unpushed := |got|,
                 backend := s.backend[s.nextBackend := Pending], nextBackend := s.nextBackend + 1)
    case Push => s.unpushed > 0 && s' == s.(unpushed := s.unpushed - 1)
    case _ => false
  }

  predicate NeedsBackend(got: seq<Shard>) {
    exists i :: 0 <= i < |got| && got[i].needs
  }

  function WithHandle(got: seq<Shard>, bh: nat): (r: seq<Shard>)
    ensures |r| == |got|
    ensures forall i :: 0 <= i < |got| ==> r[i] == if got[i].needs then got[i].(bh := bh) else got[i]
  {
    seq(|got|, i requires 0 <= i < |got| => if got[i].needs then got[i].(bh := bh) else got[i])
  }

  /** `TransferOneTask`: drop the shard of a failed task, or start on it. */
  ghost predicate TakeStep(s: State, s': State) {
    && s.current == Nothing && s.unpushed < |s.pend|
    && var x := s.pend[0];
    && var s1 := s.(pend := s.pend[1..]);
    s' == if x.id !in s.failure then s1.(current := Working(x, Look))
          else if IsLast(x) then Done(s1, x.id)
          else s1
  }

  /** `WaitBackendTaskReady`: a ready buffer is taken as it is, another task's is waited for, our own loaded. */
  ghost predicate InspectStep(s: State, s': State) {
    && s.current.Working? && s.current.phase == Look
    && var x := s.current.x;
    s' == if x.key in s.ready then s.(current := Working(x, CopyOut))
          else if !x.owner then s.(current := Working(x, Spin))
          else if x.bh > s.finished then s.(current := Working(x, AwaitBackend))
          else s.(current := Working(x, CopyOut), ready := s.ready + {x.key})
  }

  ghost predicate PollStep(s: State, s': State) {
    && s.current.Working? && s.current.phase == Spin
    && var x := s.current.x;
    s' == if x.id in s.failure then s.(current := Working(x, Failing))
          else if x.key in s.ready then s.(current := Working(x, CopyOut))
          else s
  }

  ghost predicate BackendStep(s: State, s': State) {
    && s.current.Working? && s.current.phase == AwaitBackend
    && var x := s.current.x;
    && x.bh in s.backend && s.backend[x.bh] != Pending
    && s' == if s.backend[x.bh] == Loaded
             then s.(finished := x.bh, current := Working(x, CopyOut), ready := s.ready + {x.key})
             else s.(finished := x.bh, current := Working(x, Failing))
  }

  /** The host-to-device copy; a shard that is not the last of its task is only put on hold. */
  ghost predicate CopyStep(s: State, s': State, ok: bool) {
    && s.current.Working? && s.current.phase == CopyOut
    && var x := s.current.x;
    s' == if !ok then s.(current := Working(x, Failing))
          else if IsLast(x) then s.(current := Working(x, Sync))
          else s.(current := Nothing, held := s.held + [x])
  }

  /** Synchronizing all streams lets go of everything on hold, whether or not it succeeds. */
  ghost predicate SyncStep(s: State, s': State, ok: bool) {
    && s.current.Working? && s.current.phase == Sync
    && var x := s.current.x;
    s' == if ok then s.(current := Working(x, Finishing), held := [],
                        synced := s.synced + Refs(s.held) + {(x.id, x.idx)})
          else s.(current := Working(x, Failing), held := [])
  }

  ghost predicate EndStep(s: State, s': State) {
    && s.current.Working? && s.current.phase in {Failing, Finishing}
    && var x := s.current.x;
    && var s1 := if s.current.phase == Finishing then s.(current := Nothing)
                 else s.(current := Nothing, failure := s.failure + {x.id});
    s' == if IsLast(x) then Done(s1, x.id) else s1
  }

  ghost predicate TransferStep(s: State, s': State, a: Act) {
    match a
    case Take => TakeStep(s, s')
    case CopyAsync(ok) => CopyStep(s, s', ok)
    case Synchronize(ok) => SyncStep(s, s', ok)
    case End => EndStep(s, s')
    case Inspect => InspectStep(s, s')
    case Poll => PollStep(s, s')
    case WaitBackend => BackendStep(s, s')
    case _ => false
  }

  function Refs(xs: seq<Shard>): set<(nat, nat)> {
    set i | 0 <= i < |xs| :: (xs[i].id, xs[i].idx)
  }

  /** The backend, the waiting caller, and the other users of the buffer. */
  ghost predicate OutsideStep(s: State, s': State, a: Act) {
    match a
    case BackendEnds(bh, ok) =>
      && bh in s.backend && s.backend[bh] == Pending
      && s' == s.(backend := s.backend[bh := if ok then Loaded else Broken])
    case TimesOut(id) => id in s.latch && s.latch[id] > 0 && s' == s.(failure := s.failure + {id})
    case Forget(id) => id in s.latch && s.latch[id] == 0 && s' == s.(failure := s.failure - {id})
    case OutsideGet(o, cached) =>
      && o !in s.outside && o.owner == !Pinned(s, o.key)
      && s' == s.(outside := s.outside + {o}, ready := ReadyAfterGet(s, o.key, cached))
    case OutsideDrop(o) => o in s.outside && s' == s.(outside := s.outside - {o})
    case OutsideMark(o) => o in s.outside && o.owner && s' == s.(ready := s.ready + {o.key})
    case _ => false
  }

  ghost predicate Step(s: State, s': State, a: Act) {
    || (a.Submit? && SubmitStep(s, s', a.task))
    || DispatchStep(s, s', a) || TransferStep(s, s', a) || OutsideStep(s, s', a)
  }

  // ---------------------------------------------------------------- invariant

  /** The shard tasks still to be finished, in the order the transfer thread meets them. */
  function Stream(s: State): seq<Shard> {
    (if s.current.Working? then [s.current.x] else []) + s.pend
  }

  /** Tasks follow one another whole: shard 0 to shard n - 1, then the next task's shard 0. */
  predicate Follows(x: Shard, y: Shard) {
    if IsLast(x) then y.idx == 0 else y.id == x.id && y.idx == x.idx + 1 && y.n == x.n
  }

  ghost predicate Blocks(xs: seq<Shard>) {
    && (forall j :: 0 <= j < |xs| ==> xs[j].idx < xs[j].n)
    && (forall j, k :: 0 <= j < |xs| && k == j + 1 && k < |xs| ==> Follows(xs[j], xs[k]))
    && (xs != [] ==> IsLast(xs[|xs| - 1]))
    && (forall j, k :: 0 <= j < k < |xs| && IsLast(xs[j]) ==> xs[j].id != xs[k].id)
  }

  /** The dispatcher's shards so far: in order, without a backend handle yet. */
  ghost predicate GotOk(d: Dispatch) {
    d.Getting? ==>
      && |d.got| <= |d.task.keys|
      && forall i :: 0 <= i < |d.got| ==>
           d.got[i].id == d.task.id && d.got[i].idx == i && d.got[i].n == |d.task.keys|
           && d.got[i].key == d.task.keys[i] && d.got[i].bh == 0 && (d.got[i].needs ==> d.got[i].owner)
  }

  ghost predicate QueueOk(s: State) {
    && Blocks(Stream(s)) && GotOk(s.dispatch)
    && s.unpushed <= |s.pend| && (s.unpushed > 0 ==> s.dispatch == NoTask)
    && (s.current.Working? && s.current.phase in {Sync, Finishing} ==> IsLast(s.current.x))
  }

  function Status(s: State, bh: nat): Backend {
    if bh in s.backend then s.backend[bh] else Pending
  }

  /**
   Backend handles: a shard has one exactly when it needs one; along the stream they do not
   decrease, and only shards of one task share one; none is below the last one waited for,
   and a shard that shares that one belongs to a task that has failed if the wait failed.
   */
  ghost predicate HandlesOk(s: State) {
    var xs := Stream(s);
    && s.finished < s.nextBackend
    && (forall h :: h in s.backend ==> 0 < h < s.nextBackend)
    && SortedHandles(xs)
    && (forall j :: 0 <= j < |xs| ==> HandleOk(s, xs[j]))
    && (s.current.Working? && s.current.phase == Look && s.current.x.needs && s.current.x.bh == s.finished ==>
          Status(s, s.finished) == Loaded)
    && (s.current.Working? && s.current.phase == AwaitBackend ==> s.current.x.needs)
  }

  ghost predicate SortedHandles(xs: seq<Shard>) {
    forall j, k :: 0 <= j < k < |xs| && xs[j].needs && xs[k].needs ==>
      xs[j].bh <= xs[k].bh && (xs[j].bh == xs[k].bh ==> xs[j].id == xs[k].id)
  }

  predicate HandleOk(s: State, x: Shard) {
    && (x.needs <==> x.bh > 0) && (x.needs ==> x.owner)
    && (x.needs ==> x.bh in s.backend && s.finished <= x.bh)
    && (x.needs && x.bh == s.finished ==>
          && Status(s, x.bh) != Pending
          && (Status(s, x.bh) == Broken ==>
                x.id in s.failure || (s.current.Working? && s.current.phase == Failing && s.current.x.id == x.id)))
  }

  ghost function TaskIds(ts: seq<Task>): set<nat> {
    set i | 0 <= i < |ts| :: ts[i].id
  }

  ghost function ShardIds(xs: seq<Shard>): set<nat> {
    set j | 0 <= j < |xs| :: xs[j].id
  }

  ghost function DispatchIds(d: Dispatch): set<nat> {
    if d.Getting? then {d.task.id} else {}
  }

  /** The tasks still with the submitter's queue, the dispatcher or the transfer thread. */
  ghost function InHand(s: State): set<nat> {
    TaskIds(s.waiting) + DispatchIds(s.dispatch) + ShardIds(Stream(s))
  }

  /**
   Latches: count and fires of a task add up to one; a task in hand has not fired and is in
   one place; one that is in nobody's hands has fired, unless it has no shards.
   */
  ghost predicate LatchOk(s: State) {
    && CountOk(s.latch, s.fires, s.sizes, InHand(s))
    && DistinctTasks(s.waiting)
    && TaskIds(s.waiting) !! DispatchIds(s.dispatch) !! ShardIds(Stream(s))
    && SizesOk(s)
  }

  ghost predicate CountOk(latch: map<nat, nat>, fires: map<nat, nat>, sizes: map<nat, nat>, hand: set<nat>) {
    && latch.Keys == fires.Keys == sizes.Keys
    && (forall id :: id in latch ==> latch[id] + fires[id] == 1)
    && (forall id :: id in hand ==> id in latch && latch[id] == 1)
    && (forall id :: id in latch && latch[id] == 1 && sizes[id] > 0 ==> id in hand)
  }

  ghost predicate DistinctTasks(ts: seq<Task>) {
    forall i, k :: 0 <= i < k < |ts| ==> ts[i].id != ts[k].id
  }

  ghost predicate SizesOk(s: State) {
    && (forall i :: 0 <= i < |s.waiting| ==> SizeIs(s, s.waiting[i].id, |s.waiting[i].keys|))
    && (s.dispatch.Getting? ==> SizeIs(s, s.dispatch.task.id, |s.dispatch.task.keys|))
    && (forall j :: 0 <= j < |Stream(s)| ==> SizeIs(s, Stream(s)[j].id, Stream(s)[j].n))
  }

  predicate SizeIs(s: State, id: nat, n: nat) {
    id in s.sizes && s.sizes[id] == n
  }

  predicate Armed(s: State, id: nat) {
    id in s.latch && s.latch[id] == 1 && id in s.fires && s.fires[id] == 0
  }

  /** The shards of the open task that are already behind the transfer thread. */
  ghost predicate ProgressOk(s: State) {
    var xs := Stream(s);
    && (forall k :: xs != [] && 0 <= k < xs[0].idx && !(s.current.Working? && s.current.phase == Failing) ==>
          xs[0].id in s.failure || (xs[0].id, k) in s.synced + Refs(s.held))
    && (s.current.Working? && s.current.phase == Finishing ==>
          s.held == [] && (s.current.x.id, s.current.x.idx) in s.synced)
  }

  /** An owner that asked the backend for nothing holds a ready buffer, and so does every copy. */
  ghost predicate ReadyOk(s: State) {
    && (forall j :: 0 <= j < |s.pend| && s.pend[j].owner && !s.pend[j].needs ==> s.pend[j].key in s.ready)
    && (s.dispatch.Getting? ==> forall j :: 0 <= j < |s.dispatch.got| ==>
          s.dispatch.got[j].owner && !s.dispatch.got[j].needs ==> s.dispatch.got[j].key in s.ready)
    && (s.current.Working? && s.current.x.owner && !s.current.x.needs ==> s.current.x.key in s.ready)
    && (s.current.Working? && s.current.phase in {CopyOut, Sync} ==> s.current.x.key in s.ready)
    && (forall j :: 0 <= j < |s.held| ==> s.held[j].key in s.ready)
  }

  ghost predicate Inv(s: State) {
    QueueOk(s) && HandlesOk(s) && LatchOk(s) && ProgressOk(s) && ReadyOk(s)
  }

  lemma InitInv(s: State)
    requires Init(s)
    ensures Inv(s)
  {
  }

  // ---------------------------------------------------------------- how steps move the stream

  /** What one step does to the stream: nothing, drop the first shard, or append a task's shards. */
  ghost predicate StreamKept(s: State, s': State) {
    Stream(s') == Stream(s)
  }

  ghost predicate StreamDropped(s: State, s': State) {
    Stream(s) != [] && Stream(s') == Stream(s)[1..]
  }

  ghost predicate Appends(s: State, a: Act) {
    && a.Load? && s.dispatch.Getting? && |s.dispatch.got| == |s.dispatch.task.keys|
    && (a.ok || !NeedsBackend(s.dispatch.got))
  }

  /** The shards `DispatchOneTask` pushes: those that need the backend share a fresh handle. */
  ghost function Block(s: State): seq<Shard>
    requires s.dispatch.Getting?
  {
    if NeedsBackend(s.dispatch.got) then WithHandle(s.dispatch.got, s.nextBackend) else s.dispatch.got
  }

  predicate DropsFirst(s: State, a: Act) {
    || (a.Take? && s.pend != [] && s.pend[0].id in s.failure)
    || a.End?
    || (a.CopyAsync? && a.ok && s.current.Working? && !IsLast(s.current.x))
  }

  /** What the transfer thread's steps have in common, whatever they decide. */
  ghost predicate TransferEffect(s: State, s': State, a: Act) {
    && s'.waiting == s.waiting && s'.dispatch == s.dispatch && s'.sizes == s.sizes && s'.unpushed == s.unpushed
    && s'.backend == s.backend && s'.nextBackend == s.nextBackend && s'.outside == s.outside
    && s.ready <= s'.ready && s.failure <= s'.failure && s.synced <= s'.synced
    && HeldEffect(s, s', a) && CurrentEffect(s, s', a)
  }

  ghost predicate HeldEffect(s: State, s': State, a: Act) {
    if a.Synchronize? then
      && s'.held == [] && s.current.Working? && s.current.phase == Sync && s'.current.Working?
      && s'.current.phase in {Finishing, Failing}
      && (s'.current.phase == Finishing ==>
            s'.synced == s.synced + Refs(s.held) + {(s.current.x.id, s.current.x.idx)})
    else
      && s'.synced == s.synced && (s'.current.Working? ==> s'.current.phase != Finishing)
      && if a.CopyAsync? && DropsFirst(s, a) then
           s.current.Working? && s.current.phase == CopyOut && s'.held == s.held + [s.current.x]
         else s'.held == s.held
  }

  ghost predicate CurrentEffect(s: State, s': State, a: Act) {
    if DropsFirst(s, a) then
      && (if a.Take? then s.current == Nothing && s.pend != [] else s.current.Working?)
      && s'.current == Nothing && s'.finished == s.finished
      && s'.pend == (if a.Take? then s.pend[1..] else s.pend)
      && (a.CopyAsync? || Stream(s)[0].id in s'.failure
          || (s.current.Working? && s.current.phase == Finishing && s'.failure == s.failure))
    else
      && s'.current.Working? && s'.failure == s.failure
      && if a.Take? then
           && s.current == Nothing && s.pend != [] && s'.pend == s.pend[1..] && s'.finished == s.finished
           && s'.current == Working(s.pend[0], Look) && s.pend[0].id !in s.failure
         else
           && s.current.Working? && s'.pend == s.pend && s'.current.x == s.current.x
           && PhaseEffect(s, s', a)
  }

  ghost predicate PhaseEffect(s: State, s': State, a: Act)
    requires s.current.Working? && s'.current.Working?
  {
    var x := s.current.x;
    && s'.current.phase != Look
    && (s'.current.phase == Sync ==> IsLast(x) && s.current.phase == CopyOut)
    && (s'.current.phase == Finishing ==> s.current.phase == Sync)
    && (s'.current.phase == CopyOut ==> x.key in s'.ready)
    && (s'.current.phase == AwaitBackend ==> x.owner && x.key !in s.ready && x.bh > s.finished)
    && if a.WaitBackend? then
         && s'.finished == x.bh && s.current.phase == AwaitBackend && x.bh in s.backend && s.backend[x.bh] != Pending
         && (s.backend[x.bh] == Broken ==> s'.current.phase == Failing)
       else s'.finished == s.finished && (s.current.phase == Failing ==> s'.current.phase == Failing)
  }

  lemma TakeHasEffect(s: State, s': State, a: Act)
    requires a.Take? && TakeStep(s, s')
    ensures TransferEffect(s, s', a)
  {
  }

  lemma InspectHasEffect(s: State, s': State, a: Act)
    requires a.Inspect? && InspectStep(s, s')
    ensures TransferEffect(s, s', a)
  {
  }

  lemma PollHasEffect(s: State, s': State, a: Act)
    requires a.Poll? && PollStep(s, s')
    ensures TransferEffect(s, s', a)
  {
  }

  lemma BackendHasEffect(s: State, s': State, a: Act)
    requires a.WaitBackend? && BackendStep(s, s')
    ensures TransferEffect(s, s', a)
  {
  }

  lemma CopyHasEffect(s: State, s': State, a: Act)
    requires a.CopyAsync? && CopyStep(s, s', a.ok)
    ensures TransferEffect(s, s', a)
  {
  }

  lemma SyncHasEffect(s: State, s': State, a: Act)
    requires a.Synchronize? && SyncStep(s, s', a.ok)
    ensures TransferEffect(s, s', a)
  {
  }

  lemma EndHasEffect(s: State, s': State, a: Act)
    requires a.End? && EndStep(s, s')
    ensures TransferEffect(s, s', a)
  {
  }

  lemma TransferHasEffect(s: State, s': State, a: Act)
    requires TransferStep(s, s', a)
    ensures TransferEffect(s, s', a)
  {
    match a
    case Take => TakeHasEffect(s, s', a);
    case CopyAsync(ok) => CopyHasEffect(s, s', a);
    case Synchronize(ok) => SyncHasEffect(s, s', a);
    case End => EndHasEffect(s, s', a);
    case Inspect => InspectHasEffect(s, s', a);
    case Poll => PollHasEffect(s, s', a);
    case WaitBackend => BackendHasEffect(s, s', a);
  }

  /** What a step of the transfer thread does to the stream. */
  ghost predicate Moves(s: State, s': State, a: Act) {
    if DropsFirst(s, a) then StreamDropped(s, s') else StreamKept(s, s')
  }

  lemma TakeHasPushed(s: State, s': State, a: Act)
    requires TransferStep(s, s', a)
    ensures a.Take? ==> s.unpushed < |s.pend|
  {
    hide Done;
  }

  lemma TransferStream(s: State, s': State, a: Act)
    requires TransferEffect(s, s', a)
    ensures Moves(s, s', a)
  {
    if a.Take? {
      assert s.pend == [s.pend[0]] + s.pend[1..];
    } else {
      assert Stream(s)[1..] == s.pend;
    }
  }

  lemma BlocksDrop(xs: seq<Shard>)
    requires Blocks(xs) && xs != []
    ensures Blocks(xs[1..])
  {
    var ys := xs[1..];
    assert forall j :: 0 <= j < |ys| ==> ys[j] == xs[j + 1];
  }

  lemma BlocksAppend(xs: seq<Shard>, ys: seq<Shard>, id: nat)
    requires Blocks(xs)
    requires forall i :: 0 <= i < |ys| ==> ys[i].id == id && ys[i].idx == i && ys[i].n == |ys|
    requires forall j :: 0 <= j < |xs| ==> xs[j].id != id
    ensures Blocks(xs + ys)
  {
    var zs := xs + ys;
    forall j, k | 0 <= j < |zs| && k == j + 1 && k < |zs| ensures Follows(zs[j], zs[k]) {
    }
  }

  /** Submitting and everything outside leave the dispatcher's and the transfer thread's state alone. */
  ghost predicate StillEffect(s: State, s': State) {
    && s'.dispatch == s.dispatch && s'.pend == s.pend && s'.unpushed == s.unpushed && s'.current == s.current
    && s'.held == s.held && s'.finished == s.finished && s'.nextBackend == s.nextBackend && s'.synced == s.synced
  }

  lemma SubmitIsStill(s: State, s': State, task: Task)
    requires SubmitStep(s, s', task)
    ensures StillEffect(s, s') && s'.backend == s.backend && s.failure <= s'.failure && s'.ready == s.ready
  {
  }

  /** Marks and failures that somebody in the queue relies on survive what happens outside. */
  lemma OutsideIsStill(s: State, s': State, a: Act)
    requires OutsideStep(s, s', a)
    ensures StillEffect(s, s') && s'.waiting == s.waiting
    ensures s'.latch == s.latch && s'.fires == s.fires && s'.sizes == s.sizes
    ensures forall h :: h in s.backend ==> h in s'.backend && (s.backend[h] != Pending ==> s'.backend[h] == s.backend[h])
    ensures s'.backend.Keys == s.backend.Keys
    ensures forall id :: id in s.failure && id in s.latch && s.latch[id] > 0 ==> id in s'.failure
    ensures forall k :: k in s.ready && Pinned(s, k) ==> k in s'.ready
  {
  }

  /** What the dispatcher's steps have in common. */
  ghost predicate DispatchEffect(s: State, s': State, a: Act) {
    && s'.current == s.current && s'.held == s.held && s'.finished == s.finished && s'.synced == s.synced
    && s.failure <= s'.failure
    && (forall k :: k in s.ready && Pinned(s, k) ==> k in s'.ready)
    && s'.sizes == s.sizes
    && if Appends(s, a) then
         && s'.pend == s.pend + Block(s) && s'.unpushed == |s.dispatch.got| && s'.dispatch == NoTask
         && s'.waiting == s.waiting && s'.latch == s.latch && s'.fires == s.fires && s'.ready == s.ready
         && s'.nextBackend == s.nextBackend + (if NeedsBackend(s.dispatch.got) then 1 else 0)
         && s'.backend == if NeedsBackend(s.dispatch.got) then s.backend[s.nextBackend := Pending] else s.backend
       else
         && s'.pend == s.pend && s'.unpushed <= s.unpushed && s'.backend == s.backend && s'.nextBackend == s.nextBackend
  }

  lemma BeginHasEffect(s: State, s': State, a: Act)
    requires DispatchStep(s, s', a) && (a.Begin? || a.Push?)
    ensures DispatchEffect(s, s', a)
  {
  }

  lemma GetHasEffect(s: State, s': State, a: Act)
    requires DispatchStep(s, s', a) && a.Get?
    ensures DispatchEffect(s, s', a)
  {
  }

  lemma LoadHasEffect(s: State, s': State, a: Act)
    requires DispatchStep(s, s', a) && a.Load?
    ensures DispatchEffect(s, s', a)
  {
  }

  lemma DispatchHasEffect(s: State, s': State, a: Act)
    requires DispatchStep(s, s', a)
    ensures DispatchEffect(s, s', a)
    ensures if Appends(s, a) then Stream(s') == Stream(s) + Block(s) else StreamKept(s, s')
  {
    if a.Get? {
      GetHasEffect(s, s', a);
    } else if a.Load? {
      LoadHasEffect(s, s', a);
    } else {
      BeginHasEffect(s, s', a);
    }
    if Appends(s, a) {
      assert Stream(s') == Stream(s) + Block(s);
    }
  }

  // ---------------------------------------------------------------- the queue is kept

  lemma QueueDispatch(s: State, s': State, a: Act)
    requires QueueOk(s) && DispatchStep(s, s', a) && !Appends(s, a) && StreamKept(s, s') && DispatchEffect(s, s', a)
    ensures QueueOk(s')
  {
    assert GotOk(s'.dispatch);
  }

  lemma QueueAppend(s: State, s': State, a: Act)
    requires QueueOk(s) && DispatchEffect(s, s', a) && Appends(s, a) && Stream(s') == Stream(s) + Block(s)
    requires forall j :: 0 <= j < |Stream(s)| ==> Stream(s)[j].id != s.dispatch.task.id
    ensures QueueOk(s')
  {
    BlocksAppend(Stream(s), Block(s), s.dispatch.task.id);
  }

  lemma QueueTransfer(s: State, s': State, a: Act)
    requires QueueOk(s) && TransferEffect(s, s', a)
    requires Moves(s, s', a)
    requires a.Take? ==> s.unpushed < |s.pend|
    ensures QueueOk(s')
  {
    if DropsFirst(s, a) {
      BlocksDrop(Stream(s));
    }
  }

  // ---------------------------------------------------------------- ready marks are kept

  lemma ReadyStill(s: State, s': State)
    requires ReadyOk(s) && StillEffect(s, s')
    requires forall k :: k in s.ready && Pinned(s, k) ==> k in s'.ready
    ensures ReadyOk(s')
  {
  }

  lemma ReadyDispatch(s: State, s': State, a: Act)
    requires ReadyOk(s) && DispatchStep(s, s', a) && DispatchEffect(s, s', a) && !Appends(s, a)
    ensures ReadyOk(s')
  {
  }

  lemma ReadyAppend(s: State, s': State, a: Act)
    requires ReadyOk(s) && DispatchEffect(s, s', a) && Appends(s, a)
    ensures ReadyOk(s')
  {
  }

  lemma ReadyTransfer(s: State, s': State, a: Act)
    requires QueueOk(s) && ReadyOk(s) && TransferEffect(s, s', a)
    ensures ReadyOk(s')
  {
    assert forall j :: 0 <= j < |s'.pend| ==> s'.pend[j] in s.pend;
    assert forall j :: 0 <= j < |s'.held| ==> s'.held[j] in s.held || (s.current.Working? && s'.held[j] == s.current.x);
  }

  // ---------------------------------------------------------------- progress is kept

  lemma ProgressStill(s: State, s': State)
    requires ProgressOk(s) && LatchOk(s) && StillEffect(s, s')
    requires forall id :: id in s.failure && id in s.latch && s.latch[id] > 0 ==> id in s'.failure
    ensures ProgressOk(s')
  {
    if Stream(s) != [] {
      assert Stream(s)[0].id in InHand(s);
    }
  }

  lemma ProgressDispatch(s: State, s': State, a: Act)
    requires ProgressOk(s) && GotOk(s.dispatch) && DispatchEffect(s, s', a)
    requires if Appends(s, a) then Stream(s') == Stream(s) + Block(s) else StreamKept(s, s')
    ensures ProgressOk(s')
  {
    if Stream(s) == [] && Stream(s') != [] {
      assert Stream(s')[0].idx == 0;
    }
  }

  lemma ProgressTransfer(s: State, s': State, a: Act)
    requires QueueOk(s) && ProgressOk(s) && TransferEffect(s, s', a)
    requires Moves(s, s', a)
    ensures ProgressOk(s')
  {
    if DropsFirst(s, a) {
      ProgressDrop(s, s', a);
    } else if !(s'.current.phase == Failing) {
      assert Refs(s'.held) + s'.synced >= Refs(s.held) + s.synced;
    }
  }

  lemma ProgressDrop(s: State, s': State, a: Act)
    requires QueueOk(s) && ProgressOk(s) && TransferEffect(s, s', a) && DropsFirst(s, a) && StreamDropped(s, s')
    ensures ProgressOk(s')
  {
    var xs, ys := Stream(s), Stream(s');
    assert s'.current == Nothing;
    if ys != [] {
      var x, y := xs[0], ys[0];
      assert y == xs[1] && Follows(x, y);
      if !IsLast(x) {
        if a.CopyAsync? {
          ProgressCopied(s, s', a);
        } else {
          assert y.id in s'.failure;
        }
      }
    }
  }

  /** The copied shard counts as held behind the ones before it. */
  lemma ProgressCopied(s: State, s': State, a: Act)
    requires ProgressOk(s) && TransferEffect(s, s', a) && DropsFirst(s, a) && a.CopyAsync?
    ensures Stream(s) != [] && !IsLast(Stream(s)[0])
    ensures var x := Stream(s)[0];
      forall k :: 0 <= k < x.idx + 1 ==> x.id in s'.failure || (x.id, k) in s'.synced + Refs(s'.held)
  {
    var x := Stream(s)[0];
    RefsGrow(s.held, x);
    forall k | 0 <= k < x.idx + 1 ensures x.id in s'.failure || (x.id, k) in s'.synced + Refs(s'.held) {
      if k < x.idx {
        assert x.id in s.failure || (x.id, k) in s.synced + Refs(s.held);
      }
    }
  }

  lemma RefsGrow(xs: seq<Shard>, x: Shard)
    ensures Refs(xs + [x]) == Refs(xs) + {(x.id, x.idx)}
  {
    var ys := xs + [x];
    assert ys[|xs|] == x;
    forall r | r in Refs(xs) ensures r in Refs(ys) {
      var i :| 0 <= i < |xs| && r == (xs[i].id, xs[i].idx);
      assert ys[i] == xs[i];
    }
  }

  // ---------------------------------------------------------------- backend handles are kept

  lemma HandlesStill(s: State, s': State)
    requires HandlesOk(s) && LatchOk(s) && StillEffect(s, s')
    requires s'.backend.Keys == s.backend.Keys
    requires forall h :: h in s.backend && s.backend[h] != Pending ==> s'.backend[h] == s.backend[h]
    requires forall id :: id in s.failure && id in s.latch && s.latch[id] > 0 ==> id in s'.failure
    ensures HandlesOk(s')
  {
    forall j | 0 <= j < |Stream(s)| ensures HandleOk(s', Stream(s)[j]) {
      assert HandleOk(s, Stream(s)[j]) && Stream(s)[j].id in InHand(s);
    }
  }

  lemma HandlesDispatch(s: State, s': State, a: Act)
    requires HandlesOk(s) && DispatchEffect(s, s', a) && !Appends(s, a) && StreamKept(s, s')
    ensures HandlesOk(s')
  {
  }

  lemma HandlesAppend(s: State, s': State, a: Act)
    requires HandlesOk(s) && GotOk(s.dispatch) && DispatchEffect(s, s', a) && Appends(s, a)
    requires Stream(s') == Stream(s) + Block(s)
    ensures HandlesOk(s')
  {
    var xs, ys := Stream(s), Block(s);
    forall i | 0 <= i < |ys|
      ensures ys[i].id == s.dispatch.task.id && (ys[i].needs ==> ys[i].owner)
      ensures ys[i].bh == if ys[i].needs then s.nextBackend else 0
    {
    }
    SortedAppend(xs, ys, s.nextBackend, s.dispatch.task.id, s);
    forall j | 0 <= j < |xs| ensures HandleOk(s', xs[j]) {
      assert HandleOk(s, xs[j]);
    }
    AppendedOk(s, s', a);
    assert forall j :: 0 <= j < |xs + ys| ==> (xs + ys)[j] == if j < |xs| then xs[j] else ys[j - |xs|];
    hide HandleOk, SortedHandles;
  }

  lemma AppendedOk(s: State, s': State, a: Act)
    requires HandlesOk(s) && GotOk(s.dispatch) && DispatchEffect(s, s', a) && Appends(s, a)
    ensures forall i :: 0 <= i < |Block(s)| ==> HandleOk(s', Block(s)[i])
  {
  }

  lemma SortedAppend(xs: seq<Shard>, ys: seq<Shard>, bh: nat, id: nat, s: State)
    requires SortedHandles(xs)
    requires forall j :: 0 <= j < |xs| ==> HandleOk(s, xs[j])
    requires forall h :: h in s.backend ==> h < bh
    requires forall i :: 0 <= i < |ys| ==> ys[i].id == id && (ys[i].needs ==> ys[i].bh == bh)
    ensures SortedHandles(xs + ys)
  {
    forall j | 0 <= j < |xs| && xs[j].needs ensures xs[j].bh < bh {
      assert HandleOk(s, xs[j]);
    }
  }

  lemma HandleKept(s: State, s': State, a: Act, x: Shard)
    requires HandleOk(s, x) && TransferEffect(s, s', a)
    requires !DropsFirst(s, a) && a.WaitBackend? && x.needs ==>
               s.current.x.needs && (x == s.current.x || (s.current.x.bh <= x.bh
               && (s.current.x.bh == x.bh ==> s.current.x.id == x.id)))
    ensures HandleOk(s', x)
  {
  }

  lemma SortedMoves(s: State, s': State, a: Act)
    requires SortedHandles(Stream(s)) && Moves(s, s', a)
    ensures SortedHandles(Stream(s'))
  {
    var xs, d := Stream(s), if DropsFirst(s, a) then 1 else 0;
    assert forall j :: 0 <= j < |Stream(s')| ==> Stream(s')[j] == xs[j + d];
  }

  lemma EachHandleKept(s: State, s': State, a: Act, j: nat)
    requires HandlesOk(s) && TransferEffect(s, s', a) && Moves(s, s', a) && j < |Stream(s')|
    ensures HandleOk(s', Stream(s')[j])
  {
    var xs, d := Stream(s), if DropsFirst(s, a) then 1 else 0;
    assert Stream(s')[j] == xs[j + d] && HandleOk(s, xs[j + d]);
    if d == 0 && a.WaitBackend? {
      assert xs[0] == s.current.x;
    }
    HandleKept(s, s', a, xs[j + d]);
  }

  lemma HandlesTransfer(s: State, s': State, a: Act)
    requires HandlesOk(s) && TransferEffect(s, s', a) && Moves(s, s', a)
    ensures HandlesOk(s')
  {
    SortedMoves(s, s', a);
    assert forall h :: h in s'.backend ==> 0 < h < s'.nextBackend;
    HandlesLook(s, s', a);
    hide TransferEffect, SortedHandles, HandleOk, Moves;
    forall j | 0 <= j < |Stream(s')| ensures HandleOk(s', Stream(s')[j]) {
      EachHandleKept(s, s', a, j);
    }
  }

  /** A shard taken up with the handle last waited for belongs to a wait that succeeded. */
  lemma HandlesLook(s: State, s': State, a: Act)
    requires HandlesOk(s) && TransferEffect(s, s', a)
    ensures s'.finished < s'.nextBackend
    ensures s'.current.Working? && s'.current.phase == Look && s'.current.x.needs && s'.current.x.bh == s'.finished ==>
              Status(s', s'.finished) == Loaded
    ensures s'.current.Working? && s'.current.phase == AwaitBackend ==> s'.current.x.needs
  {
    if Stream(s) != [] {
      assert HandleOk(s, Stream(s)[0]);
    }
  }

  // ---------------------------------------------------------------- latches are kept

  ghost predicate LatchSame(s: State, s': State) {
    s'.latch == s.latch && s'.fires == s.fires && s'.sizes == s.sizes
  }

  /** The latch of `id` is counted down to zero and fires. */
  ghost predicate LatchFires(s: State, s': State, id: nat) {
    s'.latch == s.latch[id := 0] && s'.fires == s.fires[id := 1] && s'.sizes == s.sizes
  }

  lemma DoneFires(s: State, id: nat)
    requires id in s.latch && s.latch[id] == 1 && id in s.fires && s.fires[id] == 0
    ensures LatchFires(s, Done(s, id), id)
  {
  }

  lemma HandIsArmed(s: State, id: nat)
    requires LatchOk(s) && id in InHand(s)
    ensures Armed(s, id)
  {
  }

  /** Only the last shard of a task counts the latch down. */
  lemma TransferLatch(s: State, s': State, a: Act)
    requires TransferStep(s, s', a) && CurrentEffect(s, s', a)
    requires Stream(s) != [] ==> Armed(s, Stream(s)[0].id)
    ensures if DropsFirst(s, a) && IsLast(Stream(s)[0]) then LatchFires(s, s', Stream(s)[0].id) else LatchSame(s, s')
  {
    match a
    case Take => DoneOfTake(s, s');
    case End => DoneOfEnd(s, s');
    case CopyAsync(ok) =>
    case Synchronize(ok) =>
    case Inspect =>
    case Poll =>
    case WaitBackend =>
  }

  lemma DoneOfTake(s: State, s': State)
    requires TakeStep(s, s') && Armed(s, s.pend[0].id)
    ensures if s.pend[0].id in s.failure && IsLast(s.pend[0]) then LatchFires(s, s', s.pend[0].id) else LatchSame(s, s')
  {
    DoneFires(s.(pend := s.pend[1..]), s.pend[0].id);
  }

  lemma DoneOfEnd(s: State, s': State)
    requires EndStep(s, s') && Armed(s, s.current.x.id)
    ensures if IsLast(s.current.x) then LatchFires(s, s', s.current.x.id) else LatchSame(s, s')
  {
    var x := s.current.x;
    DoneFires(s.(current := Nothing), x.id);
    DoneFires(s.(current := Nothing, failure := s.failure + {x.id}), x.id);
  }

  lemma CountFires(latch: map<nat, nat>, fires: map<nat, nat>, sizes: map<nat, nat>, hand: set<nat>, id: nat)
    requires CountOk(latch, fires, sizes, hand) && id in hand
    ensures CountOk(latch[id := 0], fires[id := 1], sizes, hand - {id})
  {
  }

  lemma CountStarts(latch: map<nat, nat>, fires: map<nat, nat>, sizes: map<nat, nat>, hand: set<nat>, id: nat, n: nat)
    requires CountOk(latch, fires, sizes, hand) && id !in latch
    ensures CountOk(latch[id := 1], fires[id := 0], sizes[id := n], hand + {id}) && id !in hand
  {
  }

  /** Nothing leaves or enters the queue. */
  lemma LatchStays(s: State, s': State)
    requires LatchOk(s) && LatchSame(s, s') && StreamKept(s, s') && s'.waiting == s.waiting
    requires s'.dispatch.Getting? <==> s.dispatch.Getting?
    requires s.dispatch.Getting? ==> s'.dispatch.task == s.dispatch.task
    ensures LatchOk(s')
  {
    assert InHand(s') == InHand(s);
  }

  lemma ShardIdsDrop(xs: seq<Shard>)
    requires Blocks(xs) && xs != []
    ensures ShardIds(xs[1..]) == if IsLast(xs[0]) then ShardIds(xs) - {xs[0].id} else ShardIds(xs)
  {
    var ys := xs[1..];
    forall id | id in ShardIds(xs) && (id != xs[0].id || !IsLast(xs[0])) ensures id in ShardIds(ys) {
      var j :| 0 <= j < |xs| && xs[j].id == id;
      if j == 0 {
        assert Follows(xs[0], xs[1]) && ys[0].id == id;
      } else {
        assert ys[j - 1].id == id;
      }
    }
    forall id | id in ShardIds(ys) ensures id in ShardIds(xs) && (IsLast(xs[0]) ==> id != xs[0].id) {
      var j :| 0 <= j < |ys| && ys[j].id == id;
      assert xs[j + 1].id == id;
    }
  }

  /** The first shard leaves; the rest of its task, if any, is still in the stream. */
  lemma LatchDrops(s: State, s': State)
    requires LatchOk(s) && QueueOk(s) && StreamDropped(s, s') && s'.waiting == s.waiting && s'.dispatch == s.dispatch
    requires if IsLast(Stream(s)[0]) then LatchFires(s, s', Stream(s)[0].id) else LatchSame(s, s')
    ensures LatchOk(s')
  {
    var xs := Stream(s);
    ShardIdsDrop(xs);
    assert xs[0].id in ShardIds(xs);
    if IsLast(xs[0]) {
      CountFires(s.latch, s.fires, s.sizes, InHand(s), xs[0].id);
      assert InHand(s') == InHand(s) - {xs[0].id};
    } else {
      assert InHand(s') == InHand(s);
    }
    SizesDrop(s, s');
  }

  lemma SizesDrop(s: State, s': State)
    requires SizesOk(s) && StreamDropped(s, s') && s'.sizes == s.sizes
    requires s'.waiting == s.waiting && s'.dispatch == s.dispatch
    ensures SizesOk(s')
  {
    assert forall j :: 0 <= j < |Stream(s')| ==> Stream(s')[j] == Stream(s)[j + 1];
  }

  lemma LatchTransfer(s: State, s': State, a: Act)
    requires LatchOk(s) && QueueOk(s) && TransferStep(s, s', a) && TransferEffect(s, s', a)
    requires Moves(s, s', a)
    ensures LatchOk(s')
  {
    if Stream(s) != [] {
      assert Stream(s)[0].id in ShardIds(Stream(s));
      HandIsArmed(s, Stream(s)[0].id);
    }
    TransferLatch(s, s', a);
    if DropsFirst(s, a) {
      LatchDrops(s, s');
    } else {
      LatchStays(s, s');
    }
  }

  lemma TaskIdsPush(ts: seq<Task>, t: Task)
    ensures TaskIds(ts + [t]) == TaskIds(ts) + {t.id}
  {
    var us := ts + [t];
    assert us[|ts|] == t;
    forall id | id in TaskIds(ts) ensures id in TaskIds(us) {
      var i :| 0 <= i < |ts| && ts[i].id == id;
      assert us[i].id == id;
    }
  }

  lemma TaskIdsPop(ts: seq<Task>)
    requires DistinctTasks(ts) && ts != []
    ensures TaskIds(ts[1..]) == TaskIds(ts) - {ts[0].id} && ts[0].id in TaskIds(ts) && DistinctTasks(ts[1..])
  {
    var us := ts[1..];
    assert forall i :: 0 <= i < |us| ==> us[i] == ts[i + 1];
    forall id | id in TaskIds(ts) && id != ts[0].id ensures id in TaskIds(us) {
      var i :| 0 <= i < |ts| && ts[i].id == id;
      assert us[i - 1].id == id;
    }
  }

  lemma LatchAccepted(s: State, s': State, task: Task)
    requires LatchOk(s) && SubmitStep(s, s', task) && |s.waiting| + 1 < s.depth
    ensures LatchOk(s')
  {
    CountStarts(s.latch, s.fires, s.sizes, InHand(s), task.id, |task.keys|);
    TaskIdsPush(s.waiting, task);
    assert Stream(s') == Stream(s);
    assert InHand(s') == InHand(s) + {task.id};
  }

  lemma LatchRefused(s: State, s': State, task: Task)
    requires LatchOk(s) && SubmitStep(s, s', task) && |s.waiting| + 1 >= s.depth
    ensures LatchOk(s')
  {
    SubmitIsStill(s, s', task);
    SubmitRefused(s, s', task);
    CountStarts(s.latch, s.fires, s.sizes, InHand(s), task.id, |task.keys|);
    CountFires(s.latch[task.id := 1], s.fires[task.id := 0], s.sizes[task.id := |task.keys|],
               InHand(s) + {task.id}, task.id);
    assert Stream(s') == Stream(s);
    assert InHand(s') == InHand(s) + {task.id} - {task.id};
  }

  lemma SubmitRefused(s: State, s': State, task: Task)
    requires SubmitStep(s, s', task) && |s.waiting| + 1 >= s.depth
    ensures s'.latch == s.latch[task.id := 1][task.id := 0] && s'.fires == s.fires[task.id := 0][task.id := 1]
    ensures s'.sizes == s.sizes[task.id := |task.keys|] && s'.waiting == s.waiting
  {
  }

  lemma LatchBegin(s: State, s': State)
    requires LatchOk(s) && DispatchStep(s, s', Begin) && StreamKept(s, s')
    ensures LatchOk(s')
  {
    var t := s.waiting[0];
    TaskIdsPop(s.waiting);
    HandIsArmed(s, t.id);
    DoneFires(s.(waiting := s.waiting[1..]), t.id);
    assert s'.waiting == s.waiting[1..];
    assert forall i :: 0 <= i < |s'.waiting| ==> s'.waiting[i] == s.waiting[i + 1];
  }

  lemma LatchLoadFails(s: State, s': State, a: Act)
    requires LatchOk(s) && DispatchStep(s, s', a) && a.Load? && !Appends(s, a) && StreamKept(s, s')
    ensures LatchOk(s')
  {
    var t := s.dispatch.task;
    HandIsArmed(s, t.id);
    DoneFires(s.(dispatch := NoTask, failure := s.failure + {t.id}), t.id);
  }

  lemma LatchAppend(s: State, s': State, a: Act)
    requires LatchOk(s) && GotOk(s.dispatch) && DispatchEffect(s, s', a) && Appends(s, a)
    requires Stream(s') == Stream(s) + Block(s)
    ensures LatchOk(s')
  {
    var xs, ys := Stream(s), Block(s);
    var t := s.dispatch.task;
    assert forall i :: 0 <= i < |ys| ==> ys[i].id == t.id && ys[i].n == |t.keys|;
    ShardIdsAppend(xs, ys, t.id);
    assert SizeIs(s, t.id, |t.keys|) && |ys| == |t.keys|;
    assert InHand(s') == if ys == [] then InHand(s) - {t.id} else InHand(s);
    SizesAppend(s, s', ys);
  }

  lemma SizesAppend(s: State, s': State, ys: seq<Shard>)
    requires SizesOk(s) && Stream(s') == Stream(s) + ys && s'.sizes == s.sizes
    requires s'.waiting == s.waiting && s'.dispatch == NoTask && s.dispatch.Getting?
    requires forall i :: 0 <= i < |ys| ==> ys[i].id == s.dispatch.task.id && ys[i].n == |s.dispatch.task.keys|
    ensures SizesOk(s')
  {
  }

  lemma ShardIdsAppend(xs: seq<Shard>, ys: seq<Shard>, id: nat)
    requires forall i :: 0 <= i < |ys| ==> ys[i].id == id
    ensures ShardIds(xs + ys) == ShardIds(xs) + if ys == [] then {} else {id}
  {
    var zs := xs + ys;
    forall x | x in ShardIds(xs) ensures x in ShardIds(zs) {
      var j :| 0 <= j < |xs| && xs[j].id == x;
      assert zs[j].id == x;
    }
    if ys != [] {
      assert zs[|xs|].id == id;
    }
  }

  lemma LatchDispatch(s: State, s': State, a: Act)
    requires LatchOk(s) && QueueOk(s) && DispatchStep(s, s', a) && DispatchEffect(s, s', a)
    requires if Appends(s, a) then Stream(s') == Stream(s) + Block(s) else StreamKept(s, s')
    ensures LatchOk(s')
  {
    if a.Begin? {
      LatchBegin(s, s');
    } else if Appends(s, a) {
      LatchAppend(s, s', a);
    } else if a.Load? {
      LatchLoadFails(s, s', a);
    } else {
      LatchStays(s, s');
    }
  }

  // ---------------------------------------------------------------- every step keeps the invariant

  lemma SubmitKeepsInv(s: State, s': State, task: Task)
    requires Inv(s) && SubmitStep(s, s', task)
    ensures Inv(s')
  {
    SubmitIsStill(s, s', task);
    assert Stream(s') == Stream(s);
    if |s.waiting| + 1 < s.depth {
      LatchAccepted(s, s', task);
    } else {
      LatchRefused(s, s', task);
    }
    ReadyStill(s, s');
    ProgressStill(s, s');
    HandlesStill(s, s');
  }

  lemma OutsideKeepsInv(s: State, s': State, a: Act)
    requires Inv(s) && OutsideStep(s, s', a)
    ensures Inv(s')
  {
    OutsideIsStill(s, s', a);
    assert Stream(s') == Stream(s);
    LatchStays(s, s');
    ReadyStill(s, s');
    ProgressStill(s, s');
    HandlesStill(s, s');
  }

  lemma DispatchKeepsInv(s: State, s': State, a: Act)
    requires Inv(s) && DispatchStep(s, s', a)
    ensures Inv(s')
  {
    hide DispatchStep;
    DispatchHasEffect(s, s', a);
    LatchDispatch(s, s', a);
    ProgressDispatch(s, s', a);
    if Appends(s, a) {
      assert forall j :: 0 <= j < |Stream(s)| ==> Stream(s)[j].id in ShardIds(Stream(s));
      QueueAppend(s, s', a);
      ReadyAppend(s, s', a);
      HandlesAppend(s, s', a);
    } else {
      QueueDispatch(s, s', a);
      ReadyDispatch(s, s', a);
      HandlesDispatch(s, s', a);
    }
  }

  lemma TransferKeepsInv(s: State, s': State, a: Act)
    requires Inv(s) && TransferStep(s, s', a)
    ensures Inv(s')
  {
    hide QueueOk, HandlesOk, LatchOk, ProgressOk, ReadyOk, TransferEffect, Moves, TransferStep;
    TransferHasEffect(s, s', a);
    TransferStream(s, s', a);
    TakeHasPushed(s, s', a);
    QueueTransfer(s, s', a);
    LatchTransfer(s, s', a);
    ReadyTransfer(s, s', a);
    ProgressTransfer(s, s', a);
    HandlesTransfer(s, s', a);
  }

  lemma StepKeepsInv(s: State, s': State, a: Act)
    requires Inv(s) && Step(s, s', a)
    ensures Inv(s')
  {
    if a.Submit? && SubmitStep(s, s', a.task) {
      SubmitKeepsInv(s, s', a.task);
    } else if DispatchStep(s, s', a) {
      DispatchKeepsInv(s, s', a);
    } else if TransferStep(s, s', a) {
      TransferKeepsInv(s, s', a);
    } else {
      OutsideKeepsInv(s, s', a);
    }
  }

  // ---------------------------------------------------------------- what every run keeps

  ghost predicate Next(s: State, s': State) {
    exists a :: Step(s, s', a)
  }

  ghost predicate Run(run: seq<State>) {
    |run| > 0 && Init(run[0]) && forall n :: 0 <= n < |run| - 1 ==> Next(run[n], run[n + 1])
  }

  lemma {:induction false} RunKeepsInv(run: seq<State>)
    requires Run(run)
    ensures forall n :: 0 <= n < |run| ==> Inv(run[n])
  {
    InitInv(run[0]);
    var n := 0;
    while n < |run| - 1
      invariant 0 <= n < |run|
      invariant forall k :: 0 <= k <= n ==> Inv(run[k])
    {
      assert Next(run[n], run[n + 1]);
      var a :| Step(run[n], run[n + 1], a);
      StepKeepsInv(run[n], run[n + 1], a);
      n := n + 1;
    }
  }

  /**
   No latch fires twice, and a latch that has not fired belongs to a task that is still in
   the queue - or that has no shard at all.
   */
  lemma EachLatchFiresOnce(run: seq<State>, id: nat)
    requires Run(run) && id in run[|run| - 1].latch
    ensures var s := run[|run| - 1];
      && id in s.fires && id in s.sizes
      && s.latch[id] + s.fires[id] == 1
      && (id in InHand(s) ==> s.fires[id] == 0)
      && (id !in InHand(s) && s.sizes[id] > 0 ==> s.fires[id] == 1)
  {
    RunKeepsInv(run);
    assert Inv(run[|run| - 1]);
  }

  /** A task without shards whose dispatch has ended is in nobody's hands, and its latch never fires. */
  lemma EmptyTaskNeverFires(s: State, s': State, a: Act, id: nat)
    requires Inv(s) && Step(s, s', a) && id in s.latch && s.latch[id] == 1 && id !in InHand(s)
    ensures id in s'.latch && s'.latch[id] == 1 && id !in InHand(s') && s.sizes[id] == 0
  {
    if a.Submit? && SubmitStep(s, s', a.task) {
      SubmitIsStill(s, s', a.task);
      assert Stream(s') == Stream(s);
      TaskIdsPush(s.waiting, a.task);
    } else if DispatchStep(s, s', a) {
      EmptyDispatch(s, s', a, id);
    } else if TransferStep(s, s', a) {
      EmptyTransfer(s, s', a, id);
    } else {
      OutsideIsStill(s, s', a);
      assert Stream(s') == Stream(s);
    }
  }

  lemma EmptyDispatch(s: State, s': State, a: Act, id: nat)
    requires Inv(s) && DispatchStep(s, s', a) && id in s.latch && s.latch[id] == 1 && id !in InHand(s)
    ensures id in s'.latch && s'.latch[id] == 1 && id !in InHand(s')
  {
    DispatchHasEffect(s, s', a);
    if a.Begin? {
      TaskIdsPop(s.waiting);
      assert s'.waiting == s.waiting[1..];
    } else if Appends(s, a) {
      ShardIdsAppend(Stream(s), Block(s), s.dispatch.task.id);
    }
  }

  lemma EmptyTransfer(s: State, s': State, a: Act, id: nat)
    requires Inv(s) && TransferStep(s, s', a) && id in s.latch && s.latch[id] == 1 && id !in InHand(s)
    ensures id in s'.latch && s'.latch[id] == 1 && id !in InHand(s')
  {
    TransferHasEffect(s, s', a);
    TransferStream(s, s', a);
    if Stream(s) != [] {
      assert Stream(s)[0].id in ShardIds(Stream(s));
      HandIsArmed(s, Stream(s)[0].id);
      ShardIdsDrop(Stream(s));
    }
    TransferLatch(s, s', a);
  }

  /**
   When a load's latch fires and its id is not in the failure set, every shard of it was
   copied and the streams were synchronised after the copy.
   */
  lemma FiredMeansSynced(s: State, s': State, a: Act, id: nat)
    requires Inv(s) && Step(s, s', a) && id in s.fires && id in s'.fires && s'.fires[id] > s.fires[id]
    requires id !in s'.failure
    ensures id in s.sizes && forall k :: 0 <= k < s.sizes[id] ==> (id, k) in s'.synced
  {
    if TransferStep(s, s', a) {
      SyncedTransfer(s, s', a, id);
    } else if DispatchStep(s, s', a) {
      SyncedDispatch(s, s', a, id);
    } else if a.Submit? && SubmitStep(s, s', a.task) {
      SubmitFires(s, s', a.task, id);
    } else {
      OutsideIsStill(s, s', a);
    }
  }

  lemma SubmitFires(s: State, s': State, task: Task, id: nat)
    requires SubmitStep(s, s', task) && s.latch.Keys == s.fires.Keys && id in s.fires
    ensures id in s'.fires && s'.fires[id] == s.fires[id]
  {
  }

  lemma SyncedTransfer(s: State, s': State, a: Act, id: nat)
    requires Inv(s) && TransferStep(s, s', a) && id in s.fires && id in s'.fires && s'.fires[id] > s.fires[id]
    requires id !in s'.failure
    ensures id in s.sizes && forall k :: 0 <= k < s.sizes[id] ==> (id, k) in s'.synced
  {
    TransferHasEffect(s, s', a);
    FiringShard(s, s', a, id);
    SyncedAtFinish(s, id);
  }

  /** A latch that fires without failure fires at the end of its task's last shard. */
  lemma FiringShard(s: State, s': State, a: Act, id: nat)
    requires LatchOk(s) && TransferStep(s, s', a) && CurrentEffect(s, s', a)
    requires id in s.fires && id in s'.fires && s'.fires[id] > s.fires[id] && id !in s'.failure
    ensures s.current.Working? && s.current.phase == Finishing && id !in s.failure
    ensures Stream(s)[0].id == id && IsLast(Stream(s)[0])
  {
    if Stream(s) != [] {
      assert Stream(s)[0].id in ShardIds(Stream(s));
      HandIsArmed(s, Stream(s)[0].id);
    }
    TransferLatch(s, s', a);
  }

  lemma SyncedAtFinish(s: State, id: nat)
    requires ProgressOk(s) && SizesOk(s) && s.current.Working? && s.current.phase == Finishing
    requires Stream(s)[0].id == id && IsLast(Stream(s)[0]) && id !in s.failure
    ensures id in s.sizes && forall k :: 0 <= k < s.sizes[id] ==> (id, k) in s.synced
  {
    var xs := Stream(s);
    assert xs[0] == s.current.x && SizeIs(s, xs[0].id, xs[0].n) && Refs(s.held) == {};
  }

  lemma SyncedDispatch(s: State, s': State, a: Act, id: nat)
    requires Inv(s) && DispatchStep(s, s', a) && id in s.fires && id in s'.fires && s'.fires[id] > s.fires[id]
    ensures id in s'.failure
  {
    DispatchHasEffect(s, s', a);
    if a.Begin? {
      TaskIdsPop(s.waiting);
      DoneFires(s.(waiting := s.waiting[1..]), s.waiting[0].id);
    } else if a.Load? && !Appends(s, a) {
      DoneFires(s.(dispatch := NoTask, failure := s.failure + {s.dispatch.task.id}), s.dispatch.task.id);
    }
  }

  /**
   A load marks a buffer ready only after its own backend load was waited for and succeeded:
   the shortcut for handles up to the last one waited for never passes over a load that was
   not waited for, or one that failed.
   */
  lemma MarkedMeansLoaded(s: State, s': State, a: Act, key: Key)
    requires Inv(s) && TransferStep(s, s', a) && key in s'.ready && key !in s.ready
    ensures s.current.Working? && s.current.x.key == key && s.current.x.owner && s.current.x.needs
    ensures Status(s, s.current.x.bh) == Loaded && s'.finished == s.current.x.bh
  {
    var x := s.current.x;
    assert Stream(s)[0] == x && HandleOk(s, x);
  }

  /** No buffer is let go between its copy and a later synchronisation of the streams. */
  lemma CopiesStayHeld(s: State, s': State, a: Act, x: Shard)
    requires Inv(s) && Step(s, s', a) && x in s.held
    ensures x in s'.held || (a.Synchronize? && s.current.Working? && s.current.phase == Sync)
    ensures Pinned(s, x.key) && x.key in s.ready
  {
    var j :| 0 <= j < |s.held| && s.held[j] == x;
    if TransferStep(s, s', a) {
      TransferHasEffect(s, s', a);
    } else if DispatchStep(s, s', a) {
      DispatchHasEffect(s, s', a);
    } else if a.Submit? {
      SubmitIsStill(s, s', a.task);
    } else {
      OutsideIsStill(s, s', a);
    }
  }

  // ---------------------------------------------------------------- a wait that can go on for ever

  /** The transfer thread waits for a buffer that no owner of it is left to mark ready. */
  ghost predicate Stuck(s: State) {
    && s.current.Working? && s.current.phase == Spin
    && s.current.x.id !in s.failure && s.current.x.key !in s.ready
    && var k := s.current.x.key;
    && (forall j :: 0 <= j < |s.pend| && s.pend[j].key == k ==> !s.pend[j].owner)
    && (s.dispatch.Getting? ==>
          forall j :: 0 <= j < |s.dispatch.got| && s.dispatch.got[j].key == k ==> !s.dispatch.got[j].owner)
    && (forall o :: o in s.outside && o.key == k ==> !o.owner)
  }

  /** Only the timeout of the waiting task itself ends such a wait; no other step does. */
  lemma StuckStays(s: State, s': State, a: Act)
    requires Inv(s) && Stuck(s) && Step(s, s', a) && a != TimesOut(s.current.x.id)
    ensures Stuck(s') && s'.current == s.current
  {
    assert Pinned(s, s.current.x.key);
    if a.Submit? && SubmitStep(s, s', a.task) {
      assert Stream(s)[0] == s.current.x && s.current.x.id in InHand(s);
    } else if DispatchStep(s, s', a) {
      StuckDispatch(s, s', a);
    } else if TransferStep(s, s', a) {
      StuckTransfer(s, s', a);
    } else {
      StuckOutside(s, s', a);
    }
  }

  lemma StuckTransfer(s: State, s': State, a: Act)
    requires Stuck(s) && TransferStep(s, s', a)
    ensures Stuck(s') && s'.current == s.current
  {
    assert s' == s;
  }

  lemma StuckDispatch(s: State, s': State, a: Act)
    requires LatchOk(s) && Stuck(s) && Pinned(s, s.current.x.key) && DispatchStep(s, s', a)
    ensures Stuck(s') && s'.current == s.current
  {
    assert Stream(s)[0] == s.current.x && s.current.x.id in ShardIds(Stream(s));
    if a.Load? && Appends(s, a) {
      LoadHasEffect(s, s', a);
      assert forall i :: 0 <= i < |Block(s)| ==>
        Block(s)[i].key == s.dispatch.got[i].key && Block(s)[i].owner == s.dispatch.got[i].owner;
    }
  }

  lemma StuckOutside(s: State, s': State, a: Act)
    requires Stuck(s) && Pinned(s, s.current.x.key) && OutsideStep(s, s', a) && a != TimesOut(s.current.x.id)
    ensures Stuck(s') && s'.current == s.current
  {
  }

  /** The start of a queue in which nothing has happened yet. */
  function Fresh(depth: nat): State {
    State(depth, [], NoTask, [], 0, Nothing, [], 0, 1, map[], {}, {}, {}, map[], map[], {}, map[])
  }

  /** Two loads of one shard have been dispatched; the first owns its buffer, the second waits for it. */
  function TwoLoads(k: Key): State {
    var a := Shard(1, 0, 1, k, true, true, 1);
    var b := Shard(2, 0, 1, k, false, false, 0);
    State(3, [], NoTask, [a, b], 0, Nothing, [], 0, 2, map[1 := Pending], {}, {}, {},
          map[1 := 1, 2 := 1], map[1 := 0, 2 := 0], {}, map[1 := 1, 2 := 1])
  }

  /** The first load failed in the backend; the second one's wait has begun. */
  function SecondWaits(k: Key): State {
    TwoLoads(k).(pend := [], current := Working(Shard(2, 0, 1, k, false, false, 0), Spin), finished := 1,
                 backend := map[1 := Broken], failure := {1}, latch := map[1 := 0, 2 := 1], fires := map[1 := 1, 2 := 0])
  }

  ghost predicate Reaches(run: seq<State>, s: State, s': State) {
    && |run| > 0 && run[0] == s && run[|run| - 1] == s'
    && forall n :: 0 <= n < |run| - 1 ==> Next(run[n], run[n + 1])
  }

  lemma Extend(run: seq<State>, s: State, s': State, s'': State, a: Act)
    requires Reaches(run, s, s') && Step(s', s'', a)
    ensures Reaches(run + [s''], s, s'')
  {
    var more := run + [s''];
    forall n | 0 <= n < |more| - 1 ensures Next(more[n], more[n + 1]) {
      if n < |run| - 1 {
        assert more[n] == run[n] && more[n + 1] == run[n + 1];
      }
    }
  }

  /**
   A run that ends stuck: one failed backend load, and a second load of the same shard. The
   claim that a submitted load always counts its latch down is false without the timeout.
   */
  lemma StuckIsReachable(k: Key) returns (run: seq<State>)
    ensures Run(run) && Stuck(run[|run| - 1]) && run[|run| - 1].latch == map[1 := 0, 2 := 1]
  {
    var run1 := ReachTwoLoads(k);
    var run2 := ReachSecondWaits(k);
    run := run1 + run2[1..];
    forall n | 0 <= n < |run| - 1 ensures Next(run[n], run[n + 1]) {
      if n < |run1| - 1 {
        assert run[n] == run1[n] && run[n + 1] == run1[n + 1];
      } else {
        assert run[n] == run2[n - |run1| + 1] && run[n + 1] == run2[n - |run1| + 2];
      }
    }
  }

  lemma ReachTwoLoads(k: Key) returns (run: seq<State>)
    ensures Reaches(run, Fresh(3), TwoLoads(k))
  {
    var s0 := Fresh(3);
    var ta, tb := Task(1, [k]), Task(2, [k]);
    run := [s0];
    var s1 := s0.(waiting := [ta], latch := map[1 := 1], fires := map[1 := 0], sizes := map[1 := 1]);
    Extend(run, s0, s0, s1, Submit(ta));
    run := run + [s1];
    var s2 := s1.(waiting := [ta, tb], latch := map[1 := 1, 2 := 1], fires := map[1 := 0, 2 := 0],
                  sizes := map[1 := 1, 2 := 1]);
    Extend(run, s0, s1, s2, Submit(tb));
    run := run + [s2];
    var s3 := s2.(waiting := [tb], dispatch := Getting(ta, []));
    Extend(run, s0, s2, s3, Begin);
    run := run + [s3];
    var s4 := s3.(dispatch := Getting(ta, [Shard(1, 0, 1, k, true, true, 0)]));
    assert !Pinned(s3, k) && s3.ready - {k} == {};
    assert s3.dispatch.got + s4.dispatch.got == s4.dispatch.got;
    Extend(run, s0, s3, s4, Get(false));
    run := run + [s4];
    run := DispatchSecond(k, s0, s4, run);
  }

  lemma DispatchSecond(k: Key, s0: State, s4: State, run4: seq<State>) returns (run: seq<State>)
    requires Reaches(run4, s0, s4)
    requires s4 == State(3, [Task(2, [k])], Getting(Task(1, [k]), [Shard(1, 0, 1, k, true, true, 0)]), [], 0,
                         Nothing, [], 0, 1, map[], {}, {}, {},
                         map[1 := 1, 2 := 1], map[1 := 0, 2 := 0], {}, map[1 := 1, 2 := 1])
    ensures Reaches(run, s0, TwoLoads(k))
  {
    var tb := Task(2, [k]);
    var a := Shard(1, 0, 1, k, true, true, 1);
    var b := Shard(2, 0, 1, k, false, false, 0);
    run := run4;
    var s5 := s4.(dispatch := NoTask, pend := [a], unpushed := 1, backend := map[1 := Pending], nextBackend := 2);
    assert s4.dispatch.got[0].needs;
    assert WithHandle(s4.dispatch.got, 1) == [a];
    Extend(run, s0, s4, s5, Load(true));
    run := run + [s5];
    var s6 := s5.(unpushed := 0);
    Extend(run, s0, s5, s6, Push);
    run := run + [s6];
    var s7 := s6.(waiting := [], dispatch := Getting(tb, []));
    Extend(run, s0, s6, s7, Begin);
    run := run + [s7];
    var s8 := s7.(dispatch := Getting(tb, [b]));
    assert s7.pend[0].key == k && Pinned(s7, k) && [] + [b] == [b];
    Extend(run, s0, s7, s8, Get(false));
    run := run + [s8];
    var s9 := s8.(dispatch := NoTask, pend := [a, b], unpushed := 1);
    assert !NeedsBackend(s8.dispatch.got) && [a] + s8.dispatch.got == [a, b];
    Extend(run, s0, s8, s9, Load(true));
    run := run + [s9];
    Extend(run, s0, s9, TwoLoads(k), Push);
    run := run + [TwoLoads(k)];
  }

  lemma ReachSecondWaits(k: Key) returns (run: seq<State>)
    ensures Reaches(run, TwoLoads(k), SecondWaits(k)) && |run| > 1
  {
    var s0 := TwoLoads(k);
    var a := Shard(1, 0, 1, k, true, true, 1);
    var b := Shard(2, 0, 1, k, false, false, 0);
    run := [s0];
    var s1 := s0.(backend := map[1 := Broken]);
    Extend(run, s0, s0, s1, BackendEnds(1, false));
    run := run + [s1];
    var s2 := s1.(pend := [b], current := Working(a, Look));
    Extend(run, s0, s1, s2, Take);
    run := run + [s2];
    var s3 := s2.(current := Working(a, AwaitBackend));
    Extend(run, s0, s2, s3, Inspect);
    run := run + [s3];
    run := AfterBrokenLoad(k, s0, s3, run);
  }

  lemma AfterBrokenLoad(k: Key, s0: State, s3: State, run3: seq<State>) returns (run: seq<State>)
    requires Reaches(run3, s0, s3)
    requires s3 == TwoLoads(k).(backend := map[1 := Broken], pend := [Shard(2, 0, 1, k, false, false, 0)],
                                current := Working(Shard(1, 0, 1, k, true, true, 1), AwaitBackend))
    ensures Reaches(run, s0, SecondWaits(k)) && |run| > |run3|
  {
    var a := Shard(1, 0, 1, k, true, true, 1);
    run := run3;
    var s4 := s3.(current := Working(a, Failing), finished := 1);
    Extend(run, s0, s3, s4, WaitBackend);
    run := run + [s4];
    run := BrokenLoadEnds(k, s0, s4, run);
  }

  lemma BrokenLoadEnds(k: Key, s0: State, s4: State, run4: seq<State>) returns (run: seq<State>)
    requires Reaches(run4, s0, s4)
    requires s4 == TwoLoads(k).(backend := map[1 := Broken], pend := [Shard(2, 0, 1, k, false, false, 0)], finished := 1,
                                current := Working(Shard(1, 0, 1, k, true, true, 1), Failing))
    ensures Reaches(run, s0, SecondWaits(k)) && |run| > |run4|
  {
    run := run4;
    var s5 := s4.(current := Nothing, failure := {1}, latch := map[1 := 0, 2 := 1], fires := map[1 := 1, 2 := 0]);
    assert s4.latch[1 := 0] == s5.latch && s4.fires[1 := 1] == s5.fires && s4.failure + {1} == s5.failure;
    Extend(run, s0, s4, s5, End);
    run := run + [s5];
    run := SecondStarts(k, s0, s5, run);
  }

  lemma SecondStarts(k: Key, s0: State, s5: State, run5: seq<State>) returns (run: seq<State>)
    requires Reaches(run5, s0, s5)
    requires s5 == SecondWaits(k).(pend := [Shard(2, 0, 1, k, false, false, 0)], current := Nothing)
    ensures Reaches(run, s0, SecondWaits(k)) && |run| > |run5|
  {
    var b := Shard(2, 0, 1, k, false, false, 0);
    run := run5;
    var s6 := s5.(pend := [], current := Working(b, Look));
    Extend(run, s0, s5, s6, Take);
    run := run + [s6];
    Extend(run, s0, s6, SecondWaits(k), Inspect);
    run := run + [SecondWaits(k)];
  }
}
