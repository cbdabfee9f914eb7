/**
 A run of both queues in which a load times out, its shard is skipped while the backend still
 writes, and the node, given to a dump meanwhile, ends ready with the wrong bytes.
 */
module BothQueuesRun {
  import opened Wrappers
  import opened BufferIndex
  import opened Sequences
  import opened BothQueues
  import B = LoadBytes
  import E = LoadEscapes
  import D = DumpQueue
  import L = LoadQueue
  import O = LoadQueueOwners
  import T = TransferBytes

  /** The buffers, the load queue with its handles, and where the dump queue is, before and after it has a task. */
  function At(b: T.State, q: L.State, hs: seq<nat>, pc: D.PC, kept: set<nat>, copied: set<nat>): State {
    State(B.State(b, q, hs), D.State(b, pc, kept, copied, map[], [], 1, 0, {}, [], 0, {}))
  }

  function Dumping(b: T.State, q: L.State, pc: D.PC, kept: set<nat>, copied: set<nat>, k2: Key, owned: set<nat>): State {
    State(B.State(b, q, []), D.State(b, pc, kept, copied, map[], [], 1, 0, {}, [k2], if owned == {} then 0 else 1, owned))
  }

  // ---------------------------------------------------------------- the buffers, one node

  function Unused(k1: Key): T.State {
    T.State(T.OneNode(k1, false, None), map[], 0, {}, map[], map[], {}, false)
  }

  function Pinned(k1: Key): T.State {
    Unused(k1).(hands := map[0 := T.Hand(0, true, k1)], nextHand := 1)
  }

  function LoadWrite(k1: Key): T.Write {
    T.Write(0, 0, k1, T.ByBackend(1))
  }

  function Loading(k1: Key): T.State {
    Pinned(k1).(writes := {LoadWrite(k1)}, loads := map[1 := T.Pending], via := map[0 := T.ByBackend(1)])
  }

  function Repinned(k1: Key, k2: Key): T.State {
    T.LetGo(k1).(bufs := T.OneNode(k2, false, None), hands := map[1 := T.Hand(0, true, k2)], nextHand := 2)
  }

  function Copying(k1: Key, k2: Key): T.State {
    Repinned(k1, k2).(writes := {LoadWrite(k1), T.Write(1, 0, k2, T.ByDevice)},
                      via := map[0 := T.ByBackend(1), 1 := T.ByDevice])
  }

  function Copied(k1: Key, k2: Key): T.State {
    Copying(k1, k2).(bufs := T.OneNode(k2, false, Some(k2)), writes := {LoadWrite(k1)}, flushed := {1})
  }

  function Marked(k1: Key, k2: Key): T.State {
    Copied(k1, k2).(bufs := T.OneNode(k2, true, Some(k2)))
  }

  function Overwritten(k1: Key, k2: Key): T.State {
    Marked(k1, k2).(bufs := T.OneNode(k2, true, Some(k1)), writes := {}, loads := map[1 := T.Loaded])
  }

  // ---------------------------------------------------------------- the load queue

  function Load(k1: Key): L.Task {
    L.Task(1, [k1])
  }

  function Shard(k1: Key, bh: nat): L.Shard {
    L.Shard(1, 0, 1, k1, true, true, bh)
  }

  function Submitted(k1: Key): L.State {
    L.Fresh(3).(waiting := [Load(k1)], latch := map[1 := 1], fires := map[1 := 0], sizes := map[1 := 1])
  }

  function Dispatched(k1: Key, got: seq<L.Shard>): L.State {
    Submitted(k1).(waiting := [], dispatch := L.Getting(Load(k1), got))
  }

  function Sent(k1: Key, unpushed: nat, failure: set<nat>): L.State {
    Submitted(k1).(waiting := [], pend := [Shard(k1, 1)], unpushed := unpushed, nextBackend := 2,
                   backend := map[1 := L.Pending], failure := failure)
  }

  function Skipped(k1: Key, outside: set<L.Outside>, ready: set<Key>, load: L.Backend): L.State {
    Sent(k1, 0, {1}).(pend := [], latch := map[1 := 0], fires := map[1 := 1], outside := outside, ready := ready,
                      backend := map[1 := load])
  }

  function Dumper(k2: Key): L.Outside {
    L.Outside(1, k2, true)
  }

  // ---------------------------------------------------------------- the steps

  function S(k1: Key, k2: Key, n: nat): State
    requires n <= 15
  {
    match n
    case 0 => At(Unused(k1), L.Fresh(3), [], D.Idle, {}, {})
    case 1 => At(Unused(k1), Submitted(k1), [], D.Idle, {}, {})
    case 2 => At(Unused(k1), Dispatched(k1, []), [], D.Idle, {}, {})
    case 3 => At(Pinned(k1), Dispatched(k1, [Shard(k1, 0)]), [0], D.Idle, {}, {})
    case 4 => At(Loading(k1), Sent(k1, 1, {}), [0], D.Idle, {}, {})
    case 5 => At(Loading(k1), Sent(k1, 0, {}), [0], D.Idle, {}, {})
    case 6 => At(Loading(k1), Sent(k1, 0, {1}), [0], D.Idle, {}, {})
    case 7 => At(T.LetGo(k1), Skipped(k1, {}, {}, L.Pending), [], D.Idle, {}, {})
    case 8 => Dumping(T.LetGo(k1), Skipped(k1, {}, {}, L.Pending), D.PC.Shard([k2]), {}, {}, k2, {})
    case 9 => Dumping(Repinned(k1, k2), Skipped(k1, {Dumper(k2)}, {}, L.Pending), D.Have(1, []), {}, {}, k2, {1})
    case 10 => Dumping(Repinned(k1, k2), Skipped(k1, {Dumper(k2)}, {}, L.Pending), D.Enqueue(1, []), {}, {}, k2, {1})
    case 11 => Dumping(Copying(k1, k2), Skipped(k1, {Dumper(k2)}, {}, L.Pending), D.PC.Shard([]), {1}, {1}, k2, {1})
    case 12 => Dumping(Copying(k1, k2), Skipped(k1, {Dumper(k2)}, {}, L.Pending), D.Sync, {1}, {1}, k2, {1})
    case 13 => Dumping(Copied(k1, k2), Skipped(k1, {Dumper(k2)}, {}, L.Pending), D.Mark({1}), {1}, {}, k2, {1})
    case 14 => Dumping(Marked(k1, k2), Skipped(k1, {Dumper(k2)}, {k2}, L.Pending), D.Mark({}), {1}, {}, k2, {1})
    case _ => Dumping(Overwritten(k1, k2), Skipped(k1, {Dumper(k2)}, {k2}, L.Loaded), D.Mark({}), {1}, {}, k2, {1})
  }

  function A(k1: Key, k2: Key, n: nat): Act
    requires n < 15
  {
    match n
    case 0 => LoadSide(L.Submit(Load(k1)), 0)
    case 1 => LoadSide(L.Begin, 0)
    case 2 => LoadSide(L.Get(false), 0)
    case 3 => LoadSide(L.Load(true), 0)
    case 4 => LoadSide(L.Push, 0)
    case 5 => LoadSide(L.TimesOut(1), 0)
    case 6 => LoadSide(L.Take, 0)
    case 7 => DumpSide(D.Take([k2]))
    case 8 => DumpSide(D.Fetch(0))
    case 9 => DumpSide(D.Look)
    case 10 => DumpSide(D.Copy(true))
    case 11 => DumpSide(D.Close)
    case 12 => DumpSide(D.Synchronize(true))
    case 13 => DumpSide(D.MarkOne(1))
    case _ => World(T.LoadEnds(1, true))
  }

  lemma Submits(k1: Key, k2: Key)
    ensures Step(S(k1, k2, 0), S(k1, k2, 1), A(k1, k2, 0))
  {
    assert L.SubmitStep(L.Fresh(3), Submitted(k1), Load(k1));
  }

  lemma Begins(k1: Key, k2: Key)
    ensures Step(S(k1, k2, 1), S(k1, k2, 2), A(k1, k2, 1))
  {
    assert L.DispatchStep(Submitted(k1), Dispatched(k1, []), L.Begin);
  }

  lemma Gets(k1: Key, k2: Key)
    ensures Step(S(k1, k2, 2), S(k1, k2, 3), A(k1, k2, 2))
  {
    var q, q' := Dispatched(k1, []), Dispatched(k1, [Shard(k1, 0)]);
    assert !L.Pinned(q, k1) && q.ready - {k1} == {};
    assert q.dispatch.got + q'.dispatch.got == q'.dispatch.got;
    assert L.DispatchStep(q, q', L.Get(false));
    assert !T.HeldAt(Unused(k1), 0);
    assert T.Step(Unused(k1), Pinned(k1), T.Get(k1, 0));
  }

  lemma LoadDispatches(k1: Key)
    ensures L.DispatchStep(Dispatched(k1, [Shard(k1, 0)]), Sent(k1, 1, {}), L.Load(true))
    ensures O.Sends(Dispatched(k1, [Shard(k1, 0)]), L.Load(true))
  {
    var q := Dispatched(k1, [Shard(k1, 0)]);
    assert q.dispatch.got[0].needs;
    assert L.WithHandle(q.dispatch.got, 1) == [Shard(k1, 1)];
  }

  lemma LoadWrites(k1: Key)
    ensures T.Sent(Pinned(k1), {0}, 1) == Loading(k1)
  {
    assert T.WriteOf(Pinned(k1), 0, T.ByBackend(1)) == LoadWrite(k1);
    assert (set h | h in {0} :: T.WriteOf(Pinned(k1), h, T.ByBackend(1))) == {LoadWrite(k1)};
  }

  lemma Loads(k1: Key, k2: Key)
    ensures Step(S(k1, k2, 3), S(k1, k2, 4), A(k1, k2, 3))
  {
    LoadDispatches(k1);
    LoadWrites(k1);
    hide L.DispatchStep, L.Inv, T.Sent, O.Sends, L.OutsideStep, L.TransferStep;
    var s := S(k1, k2, 3);
    assert B.Needing(s.l) == {0} by {
      assert O.Got(s.l.q.dispatch)[0].needs && s.l.hs[0] == 0;
    }
  }

  lemma Pushes(k1: Key, k2: Key)
    ensures Step(S(k1, k2, 4), S(k1, k2, 5), A(k1, k2, 4))
  {
    assert L.DispatchStep(Sent(k1, 1, {}), Sent(k1, 0, {}), L.Push);
  }

  lemma TimesOut(k1: Key, k2: Key)
    ensures Step(S(k1, k2, 5), S(k1, k2, 6), A(k1, k2, 5))
  {
    assert L.OutsideStep(Sent(k1, 0, {}), Sent(k1, 0, {1}), L.TimesOut(1));
  }

  lemma Skips(k1: Key, k2: Key)
    ensures Step(S(k1, k2, 6), S(k1, k2, 7), A(k1, k2, 6))
    ensures LetsGoEarly(S(k1, k2, 6), A(k1, k2, 6))
  {
    var q, q' := Sent(k1, 0, {1}), Skipped(k1, {}, {}, L.Pending);
    assert q.pend[1..] == [];
    assert q.latch[1 := 0] == q'.latch && q.fires[1 := 1] == q'.fires;
    assert L.TakeStep(q, q');
    assert LoadWrite(k1) in Loading(k1).writes && T.InFlight(Loading(k1), 0);
    assert Loading(k1).hands - {0} == map[];
    assert T.Dropped(Loading(k1), {0}) == T.LetGo(k1);
  }

  lemma Takes(k1: Key, k2: Key)
    ensures Step(S(k1, k2, 7), S(k1, k2, 8), A(k1, k2, 7))
  {
  }

  lemma Fetches(k1: Key, k2: Key)
    requires k1 != k2
    ensures Step(S(k1, k2, 8), S(k1, k2, 9), A(k1, k2, 8))
  {
    var b, q := T.LetGo(k1), Skipped(k1, {}, {}, L.Pending);
    assert !T.HeldAt(b, 0);
    assert T.Step(b, Repinned(k1, k2), T.Get(k2, 0));
    var keys := [k2];
    assert keys[1..] == [];
    assert !L.Pinned(q, k2) && q.ready - {k2} == {} && q.outside + {Dumper(k2)} == {Dumper(k2)};
  }

  lemma Looks(k1: Key, k2: Key)
    ensures Step(S(k1, k2, 9), S(k1, k2, 10), A(k1, k2, 9))
  {
  }

  lemma Copies(k1: Key, k2: Key)
    ensures Step(S(k1, k2, 10), S(k1, k2, 11), A(k1, k2, 10))
  {
    assert D.Enqueued(Repinned(k1, k2), 1) == Copying(k1, k2);
  }

  lemma Closes(k1: Key, k2: Key)
    ensures Step(S(k1, k2, 11), S(k1, k2, 12), A(k1, k2, 11))
  {
  }

  lemma Syncs(k1: Key, k2: Key)
    ensures Step(S(k1, k2, 12), S(k1, k2, 13), A(k1, k2, 12))
  {
    var b, b' := Copying(k1, k2), Copied(k1, k2);
    assert T.Write(1, 0, k2, T.ByDevice) in b.writes;
    assert T.Landed(b, T.ByDevice, true) == b'.bufs;
    assert T.Rest(b, T.ByDevice) == {LoadWrite(k1)} && T.HandsOf(b, T.ByDevice) == {1};
    assert T.Step(b, b', T.SyncDevice(true));
  }

  lemma Marks(k1: Key, k2: Key)
    ensures Step(S(k1, k2, 13), S(k1, k2, 14), A(k1, k2, 13))
  {
    assert T.SetReady(Copied(k1, k2), 1) == Marked(k1, k2);
    var todo: set<nat> := {1};
    assert todo - {1} == {};
    assert Skipped(k1, {Dumper(k2)}, {}, L.Pending).ready + {k2} == {k2};
  }

  lemma LateWrite(k1: Key, k2: Key)
    ensures T.Step(Marked(k1, k2), Overwritten(k1, k2), T.LoadEnds(1, true))
  {
    var b, b' := Marked(k1, k2), Overwritten(k1, k2);
    assert LoadWrite(k1) in b.writes;
    assert T.Landed(b, T.ByBackend(1), true) == b'.bufs && T.Rest(b, T.ByBackend(1)) == {};
  }

  lemma Overwrites(k1: Key, k2: Key)
    ensures Step(S(k1, k2, 14), S(k1, k2, 15), A(k1, k2, 14))
  {
    LateWrite(k1, k2);
    hide T.Step, T.Landed, T.Rest;
  }

  lemma Goes(k1: Key, k2: Key, n: nat)
    requires k1 != k2 && n < 15
    ensures Step(S(k1, k2, n), S(k1, k2, n + 1), A(k1, k2, n))
  {
    hide *;
    match n
    case 0 => Submits(k1, k2);
    case 1 => Begins(k1, k2);
    case 2 => Gets(k1, k2);
    case 3 => Loads(k1, k2);
    case 4 => Pushes(k1, k2);
    case 5 => TimesOut(k1, k2);
    case 6 => Skips(k1, k2);
    case 7 => Takes(k1, k2);
    case 8 => Fetches(k1, k2);
    case 9 => Looks(k1, k2);
    case 10 => Copies(k1, k2);
    case 11 => Closes(k1, k2);
    case 12 => Syncs(k1, k2);
    case 13 => Marks(k1, k2);
    case 14 => Overwrites(k1, k2);
  }

  lemma Starts(k1: Key, k2: Key)
    ensures Init(S(k1, k2, 0))
  {
  }

  /**
   From the start: a submitted load is dispatched, times out and is skipped under its backend
   load; the node goes to a dump, is copied, marked, and then overwritten by the late load.
   */
  lemma SkippedLoadBreaksReady(k1: Key, k2: Key) returns (run: seq<State>, acts: seq<Act>)
    requires k1 != k2
    ensures Run(run, acts) && |acts| == 15 && acts[6] == LoadSide(L.Take, 0) && LetsGoEarly(run[6], acts[6])
    ensures run[15].l.b.bufs == T.OneNode(k2, true, Some(k1)) && !ReadyIsRight(run[15].l.b)
  {
    run := seq(16, n requires 0 <= n < 16 => S(k1, k2, n));
    acts := seq(15, n requires 0 <= n < 15 => A(k1, k2, n));
    forall n | 0 <= n < 15 ensures Step(run[n], run[n + 1], acts[n]) {
      Goes(k1, k2, n);
    }
    Starts(k1, k2);
    Skips(k1, k2);
    WrongBytes(k1, k2);
    hide Step, Init, ReadyIsRight, LetsGoEarly;
  }

  lemma WrongBytes(k1: Key, k2: Key)
    requires k1 != k2
    ensures S(k1, k2, 15).l.b.bufs == T.OneNode(k2, true, Some(k1)) && !ReadyIsRight(S(k1, k2, 15).l.b)
  {
    assert S(k1, k2, 15).l.b.bufs[0].ready;
  }
}
