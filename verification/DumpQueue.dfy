/**
 The dump queue over the nodes and writes of `TransferBytes`. The dispatcher pins the node of
 each shard, enqueues a device-to-host copy for the ones it owns and finds unready,
 synchronises, marks, and hands the nodes to the backend; a second thread waits for the
 backend and lets the handles go. Between any two of its steps the rest of the process moves:
 it pins nodes, runs loads, marks and releases through handles of its own.
 */
module DumpQueue {
  import opened Wrappers
  import opened BufferIndex
  import T = TransferBytes

  datatype PC =
    | Idle
    | Shard(rest: seq<Key>)
    | Have(h: nat, rest: seq<Key>)
    | Enqueue(h: nat, rest: seq<Key>)
    | Sync
    | Mark(todo: set<nat>)
    | Submit
    | Abort

  /**
   `kept` is the task's context, `copied` the part of it with a copy enqueued and not yet
   synchronised, `handed` maps each handle given away to its backend job, `jobs` is the
   running queue. History variables: `waited`, the jobs waited for; `keys`, the shards of the task
   in hand; `seen`, how many of them were pinned; and `owned`, the handles that own their node.
   */
  datatype State = State(
    b: T.State, pc: PC, kept: set<nat>, copied: set<nat>,
    handed: map<nat, nat>, jobs: seq<nat>, nextJob: nat, finished: nat, waited: set<nat>,
    keys: seq<Key>, seen: nat, owned: set<nat>)

  ghost predicate Init(s: State) {
    && T.Init(s.b) && s.pc == Idle && s.kept == {} && s.copied == {}
    && s.handed == map[] && s.jobs == [] && s.nextJob == 1 && s.finished == 0 && s.waited == {}
    && s.keys == [] && s.seen == 0 && s.owned == {}
  }

  function Holding(pc: PC): set<nat> {
    if pc.Have? || pc.Enqueue? then {pc.h} else {}
  }

  function Mine(s: State): set<nat> {
    s.kept + s.handed.Keys + Holding(s.pc)
  }

  datatype Act =
    | Other(a: T.Act)
    | Take(keys: seq<Key>) | Fetch(pos: nat) | Look | Copy(ok: bool) | Close
    | Synchronize(ok: bool) | MarkOne(h: nat) | Marked | Hand(ok: bool) | Drop(h: nat) | Dropped
    | WaitJob | LetGo(h: nat)

  /** What the rest of the process may do: it does not touch this queue's handles or stream. */
  ghost predicate OtherStep(s: State, s': State, a: T.Act) {
    && T.Step(s.b, s'.b, a) && s' == s.(b := s'.b)
    && match a
       case Get(key, pos) => true
       case Load(hs, bh) => hs !! Mine(s)
       case Garble(w) => true
       case LoadEnds(bh, ok) => true
       case MarkLoaded(h, bh) => h !in Mine(s)
       case Release(hs) => hs !! Mine(s)
       case CopyIn(h) => false
       case SyncDevice(ok) => false
       case MarkDumped(h) => false
  }

  /** An unconditional enqueue of a copy into the node. */
  ghost function Enqueued(b: T.State, h: nat): T.State
    requires h in b.hands
  {
    b.(writes := b.writes + {T.WriteOf(b, h, T.ByDevice)}, via := b.via[h := T.ByDevice])
  }

  ghost predicate FetchStep(s: State, s': State, pos: nat) {
    && s.pc.Shard? && |s.pc.rest| > 0
    && T.Step(s.b, s'.b, T.Get(s.pc.rest[0], pos))
    && s' == s.(b := s'.b, pc := Have(s.b.nextHand, s.pc.rest[1..]), seen := s.seen + 1,
                owned := if Owns(s'.b, s.b.nextHand) then s.owned + {s.b.nextHand} else s.owned)
  }

  predicate Owns(b: T.State, h: nat) {
    h in b.hands && b.hands[h].owner
  }

  ghost predicate LookStep(s: State, s': State) {
    && s.pc.Have? && s.pc.h in s.b.hands
    && if !s.b.hands[s.pc.h].owner then
         T.Step(s.b, s'.b, T.Release({s.pc.h})) && s' == s.(b := s'.b, pc := Shard(s.pc.rest))
       else if T.Ready(s.b, s.pc.h) then
         s' == s.(pc := Shard(s.pc.rest), kept := s.kept + {s.pc.h})
       else
         s' == s.(pc := Enqueue(s.pc.h, s.pc.rest))
  }

  ghost predicate CopyStep(s: State, s': State, ok: bool) {
    && s.pc.Enqueue? && s.pc.h in s.b.hands
    && if ok then
         s' == s.(b := Enqueued(s.b, s.pc.h), pc := Shard(s.pc.rest),
                  kept := s.kept + {s.pc.h}, copied := s.copied + {s.pc.h})
       else
         s' == s.(pc := Abort, kept := s.kept + {s.pc.h})
  }

  ghost predicate SyncStep(s: State, s': State, ok: bool) {
    && s.pc == Sync && T.Step(s.b, s'.b, T.SyncDevice(ok))
    && s' == s.(b := s'.b, copied := {}, pc := if ok then Mark(s.kept) else Abort)
  }

  ghost predicate MarkStep(s: State, s': State, h: nat) {
    && s.pc.Mark? && h in s.pc.todo && h in s.b.hands && s.b.hands[h].pos < |s.b.bufs|
    && s' == s.(b := T.SetReady(s.b, h), pc := Mark(s.pc.todo - {h}))
  }

  ghost predicate HandStep(s: State, s': State, ok: bool) {
    && s.pc == Submit
    && if ok then
         s' == s.(pc := Idle, kept := {}, handed := s.handed + (map h | h in s.kept :: s.nextJob),
                  jobs := s.jobs + [s.nextJob], nextJob := s.nextJob + 1)
       else
         s' == s.(pc := Abort)
  }

  /** The second thread waits unless the job's number is one it has passed already. */
  ghost predicate WaitStep(s: State, s': State) {
    && s.jobs != []
    && var job := s.jobs[0];
    && s' == if job > s.finished
             then s.(jobs := s.jobs[1..], finished := job, waited := s.waited + {job})
             else s.(jobs := s.jobs[1..])
  }

  ghost predicate LetGoStep(s: State, s': State, h: nat) {
    && h in s.handed && s.handed[h] !in s.jobs
    && T.Step(s.b, s'.b, T.Release({h}))
    && s' == s.(b := s'.b, handed := s.handed - {h})
  }

  ghost predicate Step(s: State, s': State, a: Act) {
    match a
    case Other(ta) => OtherStep(s, s', ta)
    case Take(keys) => s.pc == Idle && s' == s.(pc := Shard(keys), keys := keys, seen := 0, owned := {})
    case Fetch(pos) => FetchStep(s, s', pos)
    case Look => LookStep(s, s')
    case Copy(ok) => CopyStep(s, s', ok)
    case Close => s.pc == Shard([]) && s' == s.(pc := if s.kept == {} then Idle else Sync)
    case Synchronize(ok) => SyncStep(s, s', ok)
    case MarkOne(h) => MarkStep(s, s', h)
    case Marked => s.pc == Mark({}) && s' == s.(pc := Submit)
    case Hand(ok) => HandStep(s, s', ok)
    case Drop(h) =>
      && s.pc == Abort && h in s.kept
      && T.Step(s.b, s'.b, T.Release({h})) && s' == s.(b := s'.b, kept := s.kept - {h}, copied := s.copied - {h})
    case Dropped => s.pc == Abort && s.kept == {} && s' == s.(pc := Idle)
    case WaitJob => WaitStep(s, s')
    case LetGo(h) => LetGoStep(s, s', h)
  }

  // ---------------------------------------------------------------- invariant

  predicate MineOk(s: State) {
    && Mine(s) <= s.b.hands.Keys
    && s.kept !! s.handed.Keys
    && Holding(s.pc) !! s.kept + s.handed.Keys
    && (s.pc == Idle ==> s.kept == {})
  }

  /** Copies in flight are those of `copied`; nothing else writes through a handle of this queue. */
  ghost predicate CopiesOk(s: State) {
    && s.copied <= s.kept
    && (s.pc.Mark? || s.pc == Submit ==> s.copied == {})
    && (forall w :: w in s.b.writes && w.source == T.ByDevice ==> w.hand in s.copied)
    && (forall w :: w in s.b.writes && w.hand in Mine(s) ==> w.hand in s.copied)
    && (forall h :: h in s.copied ==> CopyInFlight(s.b, h))
  }

  ghost predicate CopyInFlight(b: T.State, h: nat) {
    exists w :: w in b.writes && w.hand == h && w.source == T.ByDevice
  }

  /** A handle fit to be marked: its copy is done, or its owner found it ready. */
  predicate Fit(b: T.State, h: nat) {
    h in b.flushed || (h in b.hands && b.hands[h].owner && T.Ready(b, h))
  }

  predicate PcOk(s: State) {
    && (s.pc.Have? || s.pc.Enqueue? ==> s.pc.h in s.b.hands && s.pc.h !in s.b.via)
    && (s.pc.Enqueue? ==> s.b.hands[s.pc.h].owner && !T.Ready(s.b, s.pc.h))
    && (s.pc.Mark? ==> s.pc.todo <= s.kept)
    && (s.pc != Abort ==> forall h :: h in s.kept ==> h in s.copied || Fit(s.b, h))
  }

  predicate JobOk(s: State, h: nat) {
    h in s.handed ==> s.handed[h] in s.jobs || s.handed[h] in s.waited
  }

  predicate JobsOk(s: State) {
    && s.finished < s.nextJob
    && (forall i :: 0 <= i < |s.jobs| ==> s.finished < s.jobs[i] < s.nextJob)
    && (forall i, j :: 0 <= i < j < |s.jobs| ==> s.jobs[i] < s.jobs[j])
    && (forall h :: h in s.handed ==> JobOk(s, h))
  }

  /** While marks are set, what is not yet marked is still to be; what goes to the backend, and what went, is ready. */
  predicate MarksOk(s: State) {
    && (s.pc.Mark? ==> forall h :: h in s.kept ==> h in s.pc.todo || T.Ready(s.b, h))
    && (s.pc == Submit ==> forall h :: h in s.kept ==> T.Ready(s.b, h))
    && (forall h :: h in s.handed ==> T.Ready(s.b, h))
  }

  /** The shards are pinned in order, and the handles that own their node are kept, each of them. */
  predicate TaskOk(s: State) {
    && (s.pc.Shard? || s.pc.Have? || s.pc.Enqueue? ==> s.seen <= |s.keys| && s.pc.rest == s.keys[s.seen..])
    && (s.pc == Sync || s.pc.Mark? || s.pc == Submit ==> s.seen == |s.keys|)
    && (s.pc.Shard? || s.pc == Sync || s.pc.Mark? || s.pc == Submit ==> s.kept == s.owned)
    && (s.pc.Have? || s.pc.Enqueue? ==>
          s.kept == s.owned - {s.pc.h} && (s.pc.h in s.owned <==> Owns(s.b, s.pc.h)))
  }

  ghost predicate Good(s: State) {
    T.Good(s.b) && MineOk(s) && CopiesOk(s) && PcOk(s) && MarksOk(s) && TaskOk(s)
  }

  ghost predicate Inv(s: State) {
    JobsOk(s) && (!s.b.escaped ==> Good(s))
  }

  lemma InitInv(s: State)
    requires Init(s)
    ensures Inv(s)
  {
    T.InitInv(s.b);
  }

  // ---------------------------------------------------------------- the queue's own writes follow the protocol

  /** Between the look at the ready mark and the enqueue nobody else readies or writes the node. */
  lemma CopyFollows(s: State, s': State)
    requires Good(s) && CopyStep(s, s', true)
    ensures T.Step(s.b, s'.b, T.CopyIn(s.pc.h))
  {
  }

  /** Every mark the dispatcher sets is one of a finished copy or of a node ready before. */
  lemma MarkFollows(s: State, s': State, h: nat)
    requires Good(s) && MarkStep(s, s', h)
    ensures T.Step(s.b, s'.b, T.MarkDumped(h))
  {
    assert h in s.kept && Fit(s.b, h);
  }

  /** The step of the buffers' protocol that a step stands for. */
  ghost function Deed(s: State, a: Act): Option<T.Act> {
    match a
    case Other(ta) => Some(ta)
    case Fetch(pos) => if s.pc.Shard? && s.pc.rest != [] then Some(T.Get(s.pc.rest[0], pos)) else None
    case Look =>
      if s.pc.Have? && s.pc.h in s.b.hands && !s.b.hands[s.pc.h].owner then Some(T.Release({s.pc.h})) else None
    case Copy(ok) => if ok && s.pc.Enqueue? then Some(T.CopyIn(s.pc.h)) else None
    case Synchronize(ok) => Some(T.SyncDevice(ok))
    case MarkOne(h) => Some(T.MarkDumped(h))
    case Drop(h) => Some(T.Release({h}))
    case LetGo(h) => Some(T.Release({h}))
    case _ => None
  }

  /** Every step is idle for the buffers, or a step of their protocol. */
  lemma StepFollows(s: State, s': State, a: Act)
    requires Good(s) && Step(s, s', a)
    ensures if Deed(s, a).None? then s'.b == s.b else T.Step(s.b, s'.b, Deed(s, a).value)
  {
    match a
    case Copy(ok) =>
      if ok {
        CopyFollows(s, s');
      }
    case MarkOne(h) => MarkFollows(s, s', h);
    case _ =>
  }

  lemma BuffersKept(s: State, s': State, a: Act)
    requires Good(s) && Step(s, s', a) && !s'.b.escaped
    ensures T.Good(s'.b) && !s.b.escaped
  {
    StepFollows(s, s', a);
    if s'.b != s.b {
      T.StepKeepsInv(s.b, s'.b, Deed(s, a).value);
    }
  }

  // ---------------------------------------------------------------- what the rest of the process leaves alone

  ghost predicate HandApart(b: T.State, b': T.State, h: nat) {
    && h in b.hands && h in b'.hands && b'.hands[h] == b.hands[h]
    && (h in b'.via <==> h in b.via)
    && (b.hands[h].owner ==> (T.Ready(b', h) <==> T.Ready(b, h)))
  }

  ghost predicate WritesApart(b: T.State, b': T.State, mine: set<nat>) {
    && (forall w :: w in b.writes && w.source == T.ByDevice ==> w in b'.writes)
    && (forall w :: w in b'.writes && (w.source == T.ByDevice || w.hand in mine) ==> w in b.writes)
    && b'.flushed == b.flushed
  }

  lemma GetApart(b: T.State, b': T.State, key: Key, pos: nat, h: nat)
    requires T.HandsOk(b) && T.GetStep(b, b', key, pos) && h in b.hands
    ensures HandApart(b, b', h)
  {
    assert h < b.nextHand;
    if b.hands[h].pos == pos {
      assert T.HeldAt(b, pos);
    }
  }

  lemma LoadEndsApart(b: T.State, b': T.State, bh: nat, ok: bool, h: nat)
    requires T.Good(b) && T.Step(b, b', T.LoadEnds(bh, ok)) && h in b.hands
    ensures HandApart(b, b', h)
  {
    T.LandedBytes(b, b', T.ByBackend(bh), ok);
    assert b.hands[h].pos < |b.bufs|;
  }

  lemma MarkLoadedApart(b: T.State, b': T.State, g: nat, bh: nat, h: nat)
    requires T.Good(b) && T.Step(b, b', T.MarkLoaded(g, bh)) && h in b.hands && h != g
    ensures HandApart(b, b', h)
  {
    assert !T.SameNodeOwners(b.hands[g], b.hands[h]);
  }

  lemma OtherHand(s: State, s': State, a: T.Act, h: nat)
    requires Good(s) && OtherStep(s, s', a) && h in Mine(s)
    ensures HandApart(s.b, s'.b, h)
  {
    match a
    case Get(key, pos) => GetApart(s.b, s'.b, key, pos, h);
    case Load(hs, bh) =>
    case Garble(w) =>
    case LoadEnds(bh, ok) => LoadEndsApart(s.b, s'.b, bh, ok, h);
    case MarkLoaded(g, bh) => MarkLoadedApart(s.b, s'.b, g, bh, h);
    case Release(hs) =>
  }

  lemma OtherWrites(s: State, s': State, a: T.Act)
    requires Good(s) && OtherStep(s, s', a)
    ensures WritesApart(s.b, s'.b, Mine(s))
  {
  }

  // ---------------------------------------------------------------- every step keeps the invariant

  lemma OtherKeeps(s: State, s': State, a: T.Act)
    requires Good(s) && OtherStep(s, s', a)
    ensures MineOk(s') && CopiesOk(s') && PcOk(s')
  {
    OtherWrites(s, s', a);
    forall h | h in Mine(s) ensures HandApart(s.b, s'.b, h) {
      OtherHand(s, s', a, h);
    }
    ApartKeeps(s, s');
  }

  lemma ApartKeeps(s: State, s': State)
    requires Good(s) && s' == s.(b := s'.b) && WritesApart(s.b, s'.b, Mine(s))
    requires forall h :: h in Mine(s) ==> HandApart(s.b, s'.b, h)
    ensures MineOk(s') && CopiesOk(s') && PcOk(s')
  {
    assert Mine(s') == Mine(s);
    forall h | h in s'.copied ensures CopyInFlight(s'.b, h) {
      assert CopyInFlight(s.b, h);
    }
    forall h | h in s.kept && Fit(s.b, h) ensures Fit(s'.b, h) {
      assert HandApart(s.b, s'.b, h);
    }
  }

  lemma InFlightExact(s: State, h: nat)
    requires Good(s) && h in Mine(s)
    ensures T.InFlight(s.b, h) <==> h in s.copied
  {
    if h in s.copied {
      assert CopyInFlight(s.b, h);
    }
  }

  lemma FetchKeeps(s: State, s': State, pos: nat)
    requires Good(s) && FetchStep(s, s', pos)
    ensures MineOk(s') && CopiesOk(s') && PcOk(s')
  {
    var h := s.b.nextHand;
    assert h !in s.b.hands && h !in s.b.via;
    assert Mine(s') == Mine(s) + {h};
    forall g | g in s.kept && Fit(s.b, g) ensures Fit(s'.b, g) {
      GetApart(s.b, s'.b, s.pc.rest[0], pos, g);
    }
    forall g | g in s'.copied ensures CopyInFlight(s'.b, g) {
      assert CopyInFlight(s.b, g);
    }
  }

  lemma LookKeeps(s: State, s': State)
    requires Good(s) && LookStep(s, s') && !s'.b.escaped
    ensures MineOk(s') && CopiesOk(s') && PcOk(s')
  {
    var h := s.pc.h;
    if !s.b.hands[h].owner {
      LetOneGo(s, s', h);
    } else {
      assert s'.b == s.b && Mine(s') == Mine(s);
      if T.Ready(s.b, h) {
        assert Fit(s.b, h);
      }
    }
  }

  /** A handle of this queue goes, and nothing else changes for the others. */
  ghost predicate LetsGo(s: State, s': State, h: nat) {
    && T.Step(s.b, s'.b, T.Release({h})) && !s'.b.escaped && h in Mine(s) && Mine(s') == Mine(s) - {h}
    && s'.kept == s.kept - {h} && s'.copied == s.copied - {h}
    && Holding(s'.pc) == Holding(s.pc) - {h} && s'.handed == s.handed - {h}
    && (s'.pc == s.pc || (s.pc.Have? && s'.pc.Shard?))
    && (h in s.kept ==> s.pc == Abort)
  }

  lemma LetOneGo(s: State, s': State, h: nat)
    requires Good(s) && LetsGo(s, s', h)
    ensures MineOk(s') && CopiesOk(s') && PcOk(s')
  {
    LetGoCopies(s, s', h);
    LetGoPc(s, s', h);
  }

  lemma LetGoCopies(s: State, s': State, h: nat)
    requires Good(s) && LetsGo(s, s', h)
    ensures CopiesOk(s')
  {
    InFlightExact(s, h);
    forall g | g in s'.copied ensures CopyInFlight(s'.b, g) {
      assert CopyInFlight(s.b, g);
    }
  }

  lemma LetGoPc(s: State, s': State, h: nat)
    requires Good(s) && LetsGo(s, s', h)
    ensures PcOk(s')
  {
    forall g | g in s'.kept && Fit(s.b, g) ensures Fit(s'.b, g) {
    }
  }

  lemma DropKeeps(s: State, s': State, h: nat)
    requires Good(s) && Step(s, s', Drop(h)) && !s'.b.escaped
    ensures MineOk(s') && CopiesOk(s') && PcOk(s')
  {
    LetOneGo(s, s', h);
  }

  lemma LetGoKeeps(s: State, s': State, h: nat)
    requires Good(s) && LetGoStep(s, s', h) && !s'.b.escaped
    ensures MineOk(s') && CopiesOk(s') && PcOk(s')
  {
    LetOneGo(s, s', h);
  }

  lemma CopyKeeps(s: State, s': State, ok: bool)
    requires Good(s) && CopyStep(s, s', ok)
    ensures MineOk(s') && CopiesOk(s') && PcOk(s')
  {
    var h := s.pc.h;
    assert Mine(s') == Mine(s);
    if ok {
      assert T.WriteOf(s.b, h, T.ByDevice) in s'.b.writes;
      forall g | g in s'.copied ensures CopyInFlight(s'.b, g) {
        assert g == h || CopyInFlight(s.b, g);
      }
      assert forall g :: g in s.kept && Fit(s.b, g) ==> Fit(s'.b, g);
    }
  }

  lemma SyncKeeps(s: State, s': State, ok: bool)
    requires Good(s) && SyncStep(s, s', ok)
    ensures MineOk(s') && CopiesOk(s') && PcOk(s')
  {
    assert Mine(s') == Mine(s);
    T.LandedBytes(s.b, s'.b, T.ByDevice, ok);
    if ok {
      forall h | h in s.kept ensures Fit(s'.b, h) {
        if h in s.copied {
          assert CopyInFlight(s.b, h);
          assert h in T.HandsOf(s.b, T.ByDevice);
        } else {
          assert Fit(s.b, h);
        }
      }
    }
  }

  lemma MarkOneKeeps(s: State, s': State, h: nat)
    requires Good(s) && MarkStep(s, s', h)
    ensures MineOk(s') && CopiesOk(s') && PcOk(s')
  {
    assert Mine(s') == Mine(s);
    forall g | g in s.kept && Fit(s.b, g) ensures Fit(s'.b, g) {
    }
  }

  lemma HandKeeps(s: State, s': State, ok: bool)
    requires Good(s) && HandStep(s, s', ok)
    ensures MineOk(s') && CopiesOk(s') && PcOk(s')
  {
    assert Mine(s') == Mine(s);
  }

  predicate IsQuiet(a: Act) {
    a.Take? || a.Close? || a.Marked? || a.Dropped? || a.WaitJob?
  }

  lemma QuietPc(s: State, s': State, a: Act)
    requires Good(s) && Step(s, s', a) && IsQuiet(a)
    ensures s'.b == s.b && s'.kept == s.kept && s'.copied == s.copied && s'.handed == s.handed
    ensures Holding(s'.pc) == Holding(s.pc) && PcOk(s') && (s'.pc == Idle ==> s'.kept == {})
    ensures s'.pc != s.pc && (s'.pc.Mark? || s'.pc == Submit) ==> s.pc.Mark?
  {
  }

  lemma QuietKeeps(s: State, s': State, a: Act)
    requires Good(s) && Step(s, s', a) && IsQuiet(a)
    ensures MineOk(s') && CopiesOk(s') && PcOk(s')
  {
    QuietPc(s, s', a);
    QuietMine(s, s');
  }

  lemma QuietMine(s: State, s': State)
    requires MineOk(s) && CopiesOk(s) && s'.b == s.b && s'.kept == s.kept && s'.copied == s.copied
    requires s'.handed == s.handed && Holding(s'.pc) == Holding(s.pc) && (s'.pc == Idle ==> s'.kept == {})
    requires s'.pc != s.pc && (s'.pc.Mark? || s'.pc == Submit) ==> s.pc.Mark?
    ensures MineOk(s') && CopiesOk(s')
  {
    assert Mine(s') == Mine(s);
  }

  lemma OwnKept(s: State, s': State, a: Act)
    requires Good(s) && Step(s, s', a) && !s'.b.escaped
    ensures MineOk(s') && CopiesOk(s') && PcOk(s')
  {
    match a
    case Other(ta) => OtherKeeps(s, s', ta);
    case Fetch(pos) => FetchKeeps(s, s', pos);
    case Look => LookKeeps(s, s');
    case Copy(ok) => CopyKeeps(s, s', ok);
    case Synchronize(ok) => SyncKeeps(s, s', ok);
    case MarkOne(h) => MarkOneKeeps(s, s', h);
    case Hand(ok) => HandKeeps(s, s', ok);
    case Drop(h) => DropKeeps(s, s', h);
    case LetGo(h) => LetGoKeeps(s, s', h);
    case _ => QuietKeeps(s, s', a);
  }

  /** A node that is held and ready stays ready. */
  lemma ReadyStays(b: T.State, b': T.State, ta: T.Act, h: nat)
    requires T.Good(b) && T.Step(b, b', ta) && T.Ready(b, h) && h in b'.hands
    ensures T.Ready(b', h)
  {
    match ta {
      case Get(key, pos) => GetApart(b, b', key, pos, h);
      case LoadEnds(bh, ok) => T.LandedBytes(b, b', T.ByBackend(bh), ok);
      case SyncDevice(ok) => T.LandedBytes(b, b', T.ByDevice, ok);
      case _ =>
    }
  }

  /** So every handle that stays with the queue keeps its mark. */
  lemma MarksStay(s: State, s': State, a: Act)
    requires Good(s) && Step(s, s', a) && MineOk(s')
    ensures forall h :: h in Mine(s') && T.Ready(s.b, h) ==> T.Ready(s'.b, h)
  {
    StepFollows(s, s', a);
    hide Good, Step, Deed, T.Step, T.Ready, Mine;
    forall h | h in Mine(s') && T.Ready(s.b, h) ensures T.Ready(s'.b, h) {
      if s'.b != s.b {
        GoodBuffers(s);
        ReadyStays(s.b, s'.b, Deed(s, a).value, h);
      }
    }
  }

  lemma GoodBuffers(s: State)
    requires Good(s)
    ensures T.Good(s.b)
  {
  }

  lemma MarksKept(s: State, s': State, a: Act)
    requires Good(s) && Step(s, s', a) && MineOk(s')
    ensures MarksOk(s')
  {
    MarksStay(s, s', a);
    MarksMove(s, s', a);
    assert forall h :: h in s'.kept || h in s'.handed ==> h in Mine(s');
    hide Good, Step, T.Ready;
  }

  /** Every handle that has to be ready afterwards was ready before, or has just been marked. */
  lemma MarksMove(s: State, s': State, a: Act)
    requires Good(s) && Step(s, s', a)
    ensures s'.pc.Mark? ==> forall h :: h in s'.kept ==> h in s'.pc.todo || T.Ready(s.b, h) || T.Ready(s'.b, h)
    ensures s'.pc == Submit ==> forall h :: h in s'.kept ==> T.Ready(s.b, h)
    ensures forall h :: h in s'.handed ==> T.Ready(s.b, h)
  {
    hide T.Good, MineOk, CopiesOk, PcOk, T.Step, T.Dropped, Enqueued;
    match a
    case Other(ta) => assert s'.pc == s.pc && s'.kept == s.kept && s'.handed == s.handed;
    case _ =>
  }

  /** The steps that move through the task. */
  lemma TaskMoves(s: State, s': State, a: Act)
    requires Good(s) && Step(s, s', a) && !a.Other?
    ensures TaskOk(s')
  {
    hide T.Good, CopiesOk, MarksOk, T.Dropped, T.Step, Enqueued, T.SetReady;
    match a
    case Fetch(pos) => FetchMoves(s, s', pos);
    case Look => LookMoves(s, s');
    case LetGo(h) => LetGoMoves(s, s', h);
    case _ =>
  }

  lemma LetGoMoves(s: State, s': State, h: nat)
    requires MineOk(s) && TaskOk(s) && LetGoStep(s, s', h)
    ensures TaskOk(s')
  {
  }

  lemma FetchMoves(s: State, s': State, pos: nat)
    requires Good(s) && FetchStep(s, s', pos)
    ensures TaskOk(s')
  {
    assert s.b.nextHand !in s.kept;
    hide T.Step, Good;
  }

  lemma LookMoves(s: State, s': State)
    requires MineOk(s) && PcOk(s) && TaskOk(s) && LookStep(s, s')
    ensures TaskOk(s')
  {
    hide T.Step;
  }

  lemma TaskKept(s: State, s': State, a: Act)
    requires Good(s) && Step(s, s', a)
    ensures TaskOk(s')
  {
    if a.Other? {
      if s.pc.Have? || s.pc.Enqueue? {
        OtherHand(s, s', a.a, s.pc.h);
      }
    } else {
      TaskMoves(s, s', a);
    }
  }

  lemma JobsKept(s: State, s': State, a: Act)
    requires JobsOk(s) && Step(s, s', a)
    ensures JobsOk(s')
  {
    match a
    case Hand(ok) => HandJobs(s, s', ok);
    case WaitJob => WaitJobs(s, s');
    case _ => forall h | h in s'.handed ensures JobOk(s', h) { assert JobOk(s, h); }
  }

  lemma HandJobs(s: State, s': State, ok: bool)
    requires JobsOk(s) && HandStep(s, s', ok)
    ensures JobsOk(s')
  {
    forall h | h in s'.handed ensures JobOk(s', h) {
      if ok && h in s.kept {
        assert s'.jobs[|s.jobs|] == s.nextJob;
      } else {
        assert JobOk(s, h);
        if s.handed[h] in s.jobs && ok {
          assert s.handed[h] in s'.jobs;
        }
      }
    }
  }

  lemma WaitJobs(s: State, s': State)
    requires JobsOk(s) && WaitStep(s, s')
    ensures JobsOk(s')
  {
    forall h | h in s'.handed ensures JobOk(s', h) {
      assert JobOk(s, h);
      if s.handed[h] in s.jobs && s.handed[h] != s.jobs[0] {
        var i :| 0 <= i < |s.jobs| && s.jobs[i] == s.handed[h];
        assert s'.jobs[i - 1] == s.handed[h];
      }
    }
  }

  lemma StepKeepsInv(s: State, s': State, a: Act)
    requires Inv(s) && Step(s, s', a)
    ensures Inv(s')
  {
    JobsKept(s, s', a);
    if !s'.b.escaped {
      if s.b.escaped {
        NeverUnescapes(s, s', a);
      }
      BuffersKept(s, s', a);
      OwnKept(s, s', a);
      MarksKept(s, s', a);
      TaskKept(s, s', a);
    }
  }

  lemma NeverUnescapes(s: State, s': State, a: Act)
    requires Step(s, s', a) && s.b.escaped
    ensures s'.b.escaped
  {
  }

  // ---------------------------------------------------------------- whole runs

  ghost predicate Next(s: State, s': State) {
    exists a :: Step(s, s', a)
  }

  ghost predicate Run(run: seq<State>) {
    |run| > 0 && Init(run[0]) && forall n :: 0 <= n < |run| - 1 ==> Next(run[n], run[n + 1])
  }

  lemma {:induction false} RunKeepsInv(run: seq<State>)
    requires Run(run)
    ensures Inv(run[|run| - 1])
  {
    if |run| == 1 {
      InitInv(run[0]);
    } else {
      var before := run[..|run| - 1];
      RunKeepsInv(before);
      var s, s' := before[|before| - 1], run[|run| - 1];
      assert Next(run[|run| - 2], run[|run| - 1]);
      var a :| Step(s, s', a);
      StepKeepsInv(s, s', a);
    }
  }

  /**
   Until something escapes, a ready node holds its key's bytes; what the queue hands, or has handed, to
   the backend is pinned, ready, filled with the bytes of its key, and not being written.
   */
  lemma DumpedBytesAreRight(run: seq<State>, h: nat)
    requires Run(run) && !run[|run| - 1].b.escaped
    ensures var s := run[|run| - 1];
      && (forall p :: 0 <= p < |s.b.bufs| && s.b.bufs[p].ready ==> s.b.bufs[p].bytes == Some(s.b.bufs[p].key))
      && (h in s.handed || (s.pc == Submit && h in s.kept) ==>
            T.Ready(s.b, h) && T.Filled(s.b, h) && !T.InFlight(s.b, h))
  {
    RunKeepsInv(run);
  }

  /** A handle leaves the running queue only once its own backend job was waited for. */
  lemma LetGoAfterWait(run: seq<State>, s': State, h: nat)
    requires Run(run) && LetGoStep(run[|run| - 1], s', h)
    ensures run[|run| - 1].handed[h] in run[|run| - 1].waited
  {
    RunKeepsInv(run);
    assert JobOk(run[|run| - 1], h);
  }

  /**
   What goes to the backend: by then every shard of the task has been pinned, and the handles given away
   are exactly those that own their node, every one of them ready.
   */
  lemma AllOwnedAreHanded(run: seq<State>, s': State)
    requires Run(run) && !run[|run| - 1].b.escaped && HandStep(run[|run| - 1], s', true)
    ensures var s := run[|run| - 1];
      && s.seen == |s.keys| && s'.handed.Keys == s.handed.Keys + s.owned && s.owned !! s.handed.Keys
      && forall h :: h in s.owned ==> T.Ready(s.b, h) && s'.handed[h] == s.nextJob
  {
    RunKeepsInv(run);
  }

  /**
   How a task ends: handed to the backend, with nothing of its own to hand on, or, once all its handles are
   let go, given up; and it is given up exactly if an enqueue, the synchronisation or the backend fails.
   */
  lemma TaskEnds(s: State, s': State, a: Act)
    requires Good(s) && Step(s, s', a)
    ensures s.pc != Idle && s'.pc == Idle ==>
      || (a == Hand(true) && s.kept == s.owned)
      || (a == Close && s.seen == |s.keys| && s.owned == {})
      || (a == Dropped && s.pc == Abort && s.kept == {})
    ensures s.pc != Abort ==> (s'.pc == Abort <==> a in {Copy(false), Synchronize(false), Hand(false)})
    ensures s'.pc.Sync? && !s.pc.Sync? ==> s.seen == |s.keys| && s.kept == s.owned != {}
  {
    hide T.Good, CopiesOk, MarksOk, T.Dropped, T.Step, Enqueued, T.SetReady;
    match a
    case Other(ta) => assert s'.pc == s.pc;
    case _ =>
  }

  /** The shortcut by job number never skips a wait. */
  lemma EveryJobIsWaitedFor(run: seq<State>, s': State)
    requires Run(run) && WaitStep(run[|run| - 1], s')
    ensures s'.waited == run[|run| - 1].waited + {run[|run| - 1].jobs[0]}
  {
    RunKeepsInv(run);
  }

  /**
   Exactly where `DumpOneTask` lets a handle go under a copy: on its way out of a task, for a
   handle whose copy was enqueued and never synchronised.
   */
  lemma EscapeExact(s: State, s': State, a: Act)
    requires Good(s) && !s.b.escaped && Step(s, s', a) && !a.Other?
    ensures s'.b.escaped <==> a.Drop? && a.h in s.copied
  {
    match a
    case Drop(h) => InFlightExact(s, h);
    case LetGo(h) => InFlightExact(s, h);
    case Look => LookEscapesNot(s, s');
    case _ => NoRelease(s, s', a);
  }

  lemma LookEscapesNot(s: State, s': State)
    requires Good(s) && !s.b.escaped && LookStep(s, s')
    ensures !s'.b.escaped
  {
    InFlightExact(s, s.pc.h);
  }

  lemma NoRelease(s: State, s': State, a: Act)
    requires Step(s, s', a) && !a.Other? && !a.Drop? && !a.LetGo? && !a.Look?
    ensures s'.b.escaped == s.b.escaped
  {
  }

  /** A task is left with copies unsynchronised on one branch: an enqueue fails after an earlier one went through. */
  lemma DirtyAbortExact(s: State, s': State, a: Act)
    requires Good(s) && Step(s, s', a) && s.pc != Abort
    ensures s'.pc == Abort && s'.copied != {} <==> a == Copy(false) && s.copied != {}
  {
  }

  /** Without such a failure, and if the others keep their handles too, no handle of any run escapes. */
  ghost predicate Clean(s: State, s': State) {
    exists a :: Step(s, s', a) && CleanAct(s, s', a)
  }

  ghost predicate CleanAct(s: State, s': State, a: Act) {
    && (a == Copy(false) ==> s.copied == {})
    && (a.Other? && a.a.Release? ==> !T.AnyInFlight(s.b, a.a.hs))
  }

  lemma {:induction false} CleanRunsKeepBytes(run: seq<State>)
    requires |run| > 0 && Init(run[0]) && forall n :: 0 <= n < |run| - 1 ==> Clean(run[n], run[n + 1])
    ensures var s := run[|run| - 1];
      && !s.b.escaped && Inv(s) && (s.pc == Abort ==> s.copied == {})
      && forall p :: 0 <= p < |s.b.bufs| && s.b.bufs[p].ready ==> s.b.bufs[p].bytes == Some(s.b.bufs[p].key)
  {
    if |run| == 1 {
      InitInv(run[0]);
    } else {
      var before := run[..|run| - 1];
      CleanRunsKeepBytes(before);
      var s, s' := before[|before| - 1], run[|run| - 1];
      assert Clean(run[|run| - 2], run[|run| - 1]);
      var a :| Step(s, s', a) && CleanAct(s, s', a);
      StepKeepsInv(s, s', a);
      CleanStep(s, s', a);
    }
  }

  lemma CleanStep(s: State, s': State, a: Act)
    requires Good(s) && !s.b.escaped && (s.pc == Abort ==> s.copied == {})
    requires Step(s, s', a) && CleanAct(s, s', a)
    ensures !s'.b.escaped && (s'.pc == Abort ==> s'.copied == {})
  {
    if !a.Other? {
      EscapeExact(s, s', a);
    }
    if s.pc != Abort && s'.pc == Abort {
      DirtyAbortExact(s, s', a);
    }
  }

  /** Wherever an enqueue failed after one went through, the way out drops a handle under its copy. */
  lemma DirtyAbortEscapes(s: State, h: nat) returns (s': State)
    requires Good(s) && s.pc == Abort && h in s.copied
    ensures Step(s, s', Drop(h)) && s'.b.escaped
  {
    InFlightExact(s, h);
    var b' := s.b.(hands := s.b.hands - {h}, escaped := true);
    assert T.Step(s.b, b', T.Release({h}));
    s' := s.(b := b', kept := s.kept - {h}, copied := s.copied - {h});
  }
}
