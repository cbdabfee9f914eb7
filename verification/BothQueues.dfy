/**
 The load queue and the dump queue over the same buffers, with the backend and the rest of the
 process between them. Each queue's steps are among those that the other one allows for, so
 the promise of a ready mark holds across both until one of two branches lets a handle go early.
 */
module BothQueues {
  import opened Wrappers
  import opened BufferIndex
  import opened Sequences
  import B = LoadBytes
  import BS = LoadBytesSteps
  import E = LoadEscapes
  import D = DumpQueue
  import L = LoadQueue
  import O = LoadQueueOwners
  import T = TransferBytes

  /** Both queues' states; the buffers are in both. */
  datatype State = State(l: B.State, d: D.State)

  ghost predicate Init(s: State) {
    B.Init(s.l) && D.Init(s.d) && s.l.b == s.d.b
  }

  datatype Act = LoadSide(qa: L.Act, pos: nat) | DumpSide(da: D.Act) | World(ta: T.Act)

  /** The backend, and users who pin nodes and let go of handles of their own. */
  predicate WorldDoes(s: State, ta: T.Act) {
    match ta
    case Get(_, _) => true
    case Garble(_) => true
    case LoadEnds(_, _) => true
    case Release(rs) => |rs| == 1 && rs !! B.Mine(s.l) && rs !! D.Mine(s.d)
    case _ => false
  }

  /** A queue's own step, and what the other queue sees of it. Neither is asked to keep off the other's handles. */
  ghost predicate Step(s: State, s': State, a: Act) {
    s'.l.b == s'.d.b
    && match a
       case LoadSide(qa, pos) => B.OwnStep(s.l, s'.l, qa, pos) && s'.d == s.d.(b := s'.l.b)
       case DumpSide(da) =>
         && !da.Other? && D.Step(s.d, s'.d, da)
         && if D.Deed(s.d, da).None? then s'.l == s.l.(b := s'.d.b) else B.Seen(s.l, s'.l, D.Deed(s.d, da).value)
       case World(ta) =>
         && T.Step(s.l.b, s'.l.b, ta) && WorldDoes(s, ta)
         && B.Seen(s.l, s'.l, ta) && s'.d == s.d.(b := s'.l.b)
  }

  // ---------------------------------------------------------------- invariant

  ghost predicate Apart(s: State) {
    B.Mine(s.l) !! D.Mine(s.d)
  }

  /** The backend writes through handles of the load queue only. */
  ghost predicate LoadsMine(b: T.State, mine: set<nat>) {
    forall w :: w in b.writes && w.source.ByBackend? ==> w.hand in mine
  }

  ghost predicate Good(s: State) {
    B.Good(s.l) && D.Good(s.d) && Apart(s) && LoadsMine(s.l.b, B.Mine(s.l))
  }

  ghost predicate Inv(s: State) {
    s.l.b == s.d.b && D.JobsOk(s.d) && (!s.l.b.escaped ==> Good(s))
  }

  lemma InitInv(s: State)
    requires Init(s)
    ensures Inv(s)
  {
    B.InitInv(s.l);
    D.InitInv(s.d);
  }

  // ---------------------------------------------------------------- each queue's steps are allowed for by the other

  lemma MineIsPinned(s: State)
    requires Good(s) && s.l.b == s.d.b
    ensures B.Mine(s.l) <= s.l.b.hands.Keys && D.Mine(s.d) <= s.l.b.hands.Keys && s.l.b.nextHand !in s.l.b.hands
  {
    B.GoodParts(s.l);
    BS.NextIsLater(s.l.b);
    hide B.Good, B.QueueGood, B.Agrees, T.Good;
    B.MineIsHeld(s.l);
  }

  /** To the dump queue, a step of the load queue is nothing or a step that others may take. */
  lemma LoadIsOther(s: State, s': State, qa: L.Act, pos: nat) returns (ta: T.Act)
    requires Good(s) && s.l.b == s.d.b && Step(s, s', LoadSide(qa, pos))
    ensures s'.d == s.d || D.OtherStep(s.d, s'.d, ta)
  {
    hide B.Good, D.Good, B.OwnStep, T.Step, B.Mine, D.Mine;
    ta := B.OwnFollows(s.l, s'.l, qa, pos);
  }

  /** To the load queue, a step of the dump queue is nothing or a step that others may take. */
  lemma DumpIsOther(s: State, s': State, da: D.Act)
    requires Good(s) && s.l.b == s.d.b && Step(s, s', DumpSide(da))
    ensures s'.l == s.l || (D.Deed(s.d, da).Some? && B.OtherStep(s.l, s'.l, D.Deed(s.d, da).value))
  {
    D.StepFollows(s.d, s'.d, da);
    DeedIsOwn(s.d, s'.d, da);
    hide B.Good, D.Good, D.Step, T.Step, B.Seen, B.Mine, D.Mine, D.Deed;
  }

  /** What the dump queue does to the buffers, it does through handles of its own. */
  predicate Within(d: D.State, ta: T.Act) {
    match ta
    case Get(_, _) => true
    case CopyIn(h) => h in D.Mine(d)
    case SyncDevice(_) => true
    case MarkDumped(h) => h in D.Mine(d)
    case Release(rs) => |rs| == 1 && rs <= D.Mine(d)
    case _ => false
  }

  lemma DeedIsOwn(d: D.State, d': D.State, da: D.Act)
    requires D.PcOk(d) && D.Step(d, d', da) && !da.Other?
    ensures D.Deed(d, da).Some? ==> Within(d, D.Deed(d, da).value)
  {
    hide D.Fit, T.Step, D.Enqueued, D.FetchStep, D.SyncStep, D.HandStep, D.WaitStep;
  }

  // ---------------------------------------------------------------- every step keeps the invariant

  /** A backend write is one that went on before, or goes through a handle of the load queue. */
  ghost predicate NewLoads(b: T.State, b': T.State, mine: set<nat>) {
    forall w :: w in b'.writes && w.source.ByBackend? ==> w in b.writes || w.hand in mine
  }

  lemma StepLoads(b: T.State, b': T.State, ta: T.Act, mine: set<nat>)
    requires T.Step(b, b', ta) && (ta.Load? ==> ta.hs <= mine)
    ensures NewLoads(b, b', mine)
  {
  }

  lemma WritesMine(b: T.State, b': T.State, mine: set<nat>, mine': set<nat>)
    requires T.Good(b') && LoadsMine(b, mine) && NewLoads(b, b', mine)
    requires forall h :: h in mine && h in b'.hands ==> h in mine'
    ensures LoadsMine(b', mine')
  {
    forall w | w in b'.writes && w.source.ByBackend? ensures w.hand in mine' {
      assert T.WriteOk(b', w);
    }
  }

  /** Steps of others, in the dump queue's terms. */
  lemma DumpStays(s: State, s': State, ta: T.Act)
    requires D.Good(s.d) && D.JobsOk(s.d) && (s'.d == s.d || D.OtherStep(s.d, s'.d, ta)) && !s'.d.b.escaped
    ensures D.Good(s'.d) && D.JobsOk(s'.d) && D.Mine(s'.d) == D.Mine(s.d)
  {
    if s'.d != s.d {
      assert D.Step(s.d, s'.d, D.Other(ta));
      assert D.Mine(s'.d) == D.Mine(s.d);
      hide D.Good, D.JobsOk, D.OtherStep, D.Mine;
      D.StepKeepsInv(s.d, s'.d, D.Other(ta));
    }
  }

  lemma LoadSideDump(s: State, s': State, qa: L.Act, pos: nat)
    requires Good(s) && s.l.b == s.d.b && D.JobsOk(s.d) && Step(s, s', LoadSide(qa, pos)) && !s'.l.b.escaped
    ensures D.Good(s'.d) && D.JobsOk(s'.d) && D.Mine(s'.d) == D.Mine(s.d)
  {
    hide B.Good, D.Good, D.JobsOk, D.OtherStep, B.OwnStep, D.Mine, B.Mine;
    var ta := LoadIsOther(s, s', qa, pos);
    DumpStays(s, s', ta);
  }

  lemma LoadSideLoad(l: B.State, l': B.State, qa: L.Act, pos: nat)
    requires B.Good(l) && LoadsMine(l.b, B.Mine(l)) && B.OwnStep(l, l', qa, pos) && !l'.b.escaped
    ensures B.Good(l') && LoadsMine(l'.b, B.Mine(l')) && B.Mine(l') <= B.Mine(l) + {l.b.nextHand}
  {
    hide B.Good, B.OwnStep, B.Mine, LoadsMine, NewLoads, T.Good;
    BS.OwnKeepsGood(l, l', qa, pos);
    BS.OwnMine(l, l', qa, pos);
    B.GoodParts(l');
    OwnLoads(l, l', qa, pos);
    WritesMine(l.b, l'.b, B.Mine(l), B.Mine(l'));
  }

  lemma LoadSideKeeps(s: State, s': State, qa: L.Act, pos: nat)
    requires Good(s) && s.l.b == s.d.b && D.JobsOk(s.d) && Step(s, s', LoadSide(qa, pos)) && !s'.l.b.escaped
    ensures Good(s') && D.JobsOk(s'.d)
  {
    hide B.Good, D.Good, D.JobsOk, B.OwnStep, B.Mine, D.Mine, LoadsMine;
    MineIsPinned(s);
    LoadSideDump(s, s', qa, pos);
    LoadSideLoad(s.l, s'.l, qa, pos);
  }

  lemma OwnLoads(l: B.State, l': B.State, qa: L.Act, pos: nat)
    requires B.Good(l) && B.OwnStep(l, l', qa, pos)
    ensures NewLoads(l.b, l'.b, B.Mine(l))
  {
    hide B.Good, B.OwnStep, T.Step, B.Mine;
    var ta := B.OwnFollows(l, l', qa, pos);
    if l'.b != l.b {
      StepLoads(l.b, l'.b, ta, B.Mine(l));
    }
  }

  lemma DumpSideDump(s: State, s': State, da: D.Act)
    requires Good(s) && D.JobsOk(s.d) && Step(s, s', DumpSide(da)) && !s'.l.b.escaped
    ensures D.Good(s'.d) && D.JobsOk(s'.d) && D.Mine(s'.d) <= D.Mine(s.d) + {s.d.b.nextHand}
  {
    assert D.Step(s.d, s'.d, da) && !da.Other? && s'.d.b == s'.l.b;
    hide B.Good, D.Good, D.JobsOk, D.Step, D.Mine, B.Mine, Step;
    D.StepKeepsInv(s.d, s'.d, da);
    DumpMine(s.d, s'.d, da);
  }

  lemma DumpSideLoad(s: State, s': State, da: D.Act)
    requires Good(s) && s.l.b == s.d.b && Step(s, s', DumpSide(da)) && !s'.l.b.escaped
    ensures B.Good(s'.l) && LoadsMine(s'.l.b, B.Mine(s'.l)) && B.Mine(s'.l) == B.Mine(s.l)
  {
    hide B.Good, D.Good, Step, B.OtherStep, B.Mine, LoadsMine, D.Deed;
    DumpIsOther(s, s', da);
    if s'.l != s.l {
      LoadStays(s.l, s'.l, D.Deed(s.d, da).value);
    }
  }

  lemma DumpSideKeeps(s: State, s': State, da: D.Act)
    requires Good(s) && s.l.b == s.d.b && D.JobsOk(s.d) && Step(s, s', DumpSide(da)) && !s'.l.b.escaped
    ensures Good(s') && D.JobsOk(s'.d)
  {
    hide B.Good, D.Good, D.JobsOk, Step, B.Mine, D.Mine, LoadsMine;
    MineIsPinned(s);
    DumpSideDump(s, s', da);
    DumpSideLoad(s, s', da);
  }

  lemma DumpMine(d: D.State, d': D.State, da: D.Act)
    requires D.Good(d) && D.Step(d, d', da) && !da.Other?
    ensures D.Mine(d') <= D.Mine(d) + {d.b.nextHand}
  {
    hide D.CopiesOk, T.Good, T.Step;
  }

  /** Steps of others, in the load queue's terms. */
  lemma LoadStays(l: B.State, l': B.State, ta: T.Act)
    requires B.Good(l) && LoadsMine(l.b, B.Mine(l)) && B.OtherStep(l, l', ta) && !l'.b.escaped
    ensures B.Good(l') && LoadsMine(l'.b, B.Mine(l')) && B.Mine(l') == B.Mine(l)
  {
    BS.OtherSame(l, l', ta);
    StepLoads(l.b, l'.b, ta, B.Mine(l));
    hide B.Good, B.OtherStep, B.Mine, LoadsMine, NewLoads;
    BS.OtherKeepsGood(l, l', ta);
    B.GoodParts(l');
    WritesMine(l.b, l'.b, B.Mine(l), B.Mine(l'));
  }

  lemma WorldKeeps(s: State, s': State, ta: T.Act)
    requires Good(s) && s.l.b == s.d.b && D.JobsOk(s.d) && Step(s, s', World(ta)) && !s'.l.b.escaped
    ensures Good(s') && D.JobsOk(s'.d)
  {
    assert B.OtherStep(s.l, s'.l, ta) && D.OtherStep(s.d, s'.d, ta);
    hide B.Good, D.Good, D.JobsOk, B.OtherStep, D.OtherStep, B.Mine, D.Mine, LoadsMine, T.Good, B.Seen, T.Step;
    LoadStays(s.l, s'.l, ta);
    DumpStays(s, s', ta);
  }

  lemma JobsKept(s: State, s': State, a: Act)
    requires D.JobsOk(s.d) && Step(s, s', a)
    ensures D.JobsOk(s'.d)
  {
    match a {
      case DumpSide(da) =>
        hide D.JobsOk, D.Step;
        D.JobsKept(s.d, s'.d, da);
      case _ =>
        hide B.OwnStep, T.Step, B.Seen;
        forall h | h in s'.d.handed ensures D.JobOk(s'.d, h) {
          assert D.JobOk(s.d, h);
        }
    }
  }

  lemma NeverUnescapes(s: State, s': State, a: Act)
    requires s.l.b == s.d.b && Step(s, s', a) && s.l.b.escaped
    ensures s'.l.b.escaped
  {
    match a {
      case LoadSide(qa, pos) =>
        hide B.OwnStep;
        BS.NeverUnescapes(s.l, s'.l, B.Own(qa, pos));
      case DumpSide(da) =>
        hide D.Step, B.Seen, D.Deed;
        D.NeverUnescapes(s.d, s'.d, da);
      case World(ta) =>
    }
  }

  lemma StepKeepsInv(s: State, s': State, a: Act)
    requires Inv(s) && Step(s, s', a)
    ensures Inv(s')
  {
    JobsKept(s, s', a);
    if !s'.l.b.escaped {
      if s.l.b.escaped {
        NeverUnescapes(s, s', a);
      }
      hide Good, D.JobsOk, B.OwnStep, D.Step, T.Step, B.Seen, WorldDoes, D.Deed;
      match a
      case LoadSide(qa, pos) => LoadSideKeeps(s, s', qa, pos);
      case DumpSide(da) => DumpSideKeeps(s, s', da);
      case World(ta) => WorldKeeps(s, s', ta);
    }
  }

  // ---------------------------------------------------------------- exactly two steps let a handle go early

  /**
   The load queue skips a failed task's shard whose load goes on, or the dump queue drops a
   handle of a task it gives up whose copy was enqueued and never synchronised.
   */
  predicate LetsGoEarly(s: State, a: Act) {
    match a
    case LoadSide(qa, _) => E.SkipsLoading(s.l.q, qa)
    case DumpSide(da) => da.Drop? && da.h in s.d.copied
    case World(_) => false
  }

  /** Nobody but the two queues has a write in flight. */
  lemma WorldIsQuiet(s: State, rs: set<nat>)
    requires Good(s) && s.l.b == s.d.b && rs !! B.Mine(s.l) && rs !! D.Mine(s.d)
    ensures !T.AnyInFlight(s.l.b, rs)
  {
    hide B.Good;
    forall w | w in s.l.b.writes ensures w.hand !in rs {
      assert w.source.ByBackend? ==> w.hand in B.Mine(s.l);
      assert w.source == T.ByDevice ==> w.hand in s.d.copied;
    }
  }

  lemma WorldEscapesNot(s: State, s': State, ta: T.Act)
    requires Good(s) && s.l.b == s.d.b && !s.l.b.escaped && Step(s, s', World(ta))
    ensures !s'.l.b.escaped
  {
    hide Good, T.AnyInFlight, B.Seen, B.Mine, D.Mine;
    if ta.Release? {
      WorldIsQuiet(s, ta.hs);
    }
  }

  lemma EscapeExact(s: State, s': State, a: Act)
    requires Inv(s) && !s.l.b.escaped && Step(s, s', a)
    ensures s'.l.b.escaped <==> LetsGoEarly(s, a)
  {
    hide B.Good, D.Good, D.JobsOk, B.OwnStep, D.Step, T.Step, B.Seen, WorldDoes, D.Deed, Apart, LoadsMine, E.SkipsLoading;
    match a
    case LoadSide(qa, pos) => E.EscapeExact(s.l, s'.l, qa, pos);
    case DumpSide(da) => D.EscapeExact(s.d, s'.d, da);
    case World(ta) => WorldEscapesNot(s, s', ta);
  }

  // ---------------------------------------------------------------- whole runs

  /** A run and the acts between its states. */
  ghost predicate Run(run: seq<State>, acts: seq<Act>) {
    && |run| == |acts| + 1 && Init(run[0])
    && forall n :: 0 <= n < |acts| ==> Step(run[n], run[n + 1], acts[n])
  }

  lemma {:induction false} RunKeepsInv(run: seq<State>, acts: seq<Act>)
    requires Run(run, acts)
    ensures forall n :: 0 <= n < |run| ==> Inv(run[n])
  {
    hide *;
    RunStarts(run, acts);
    var n := 0;
    while n < |acts|
      invariant 0 <= n <= |acts|
      invariant forall k :: 0 <= k <= n ==> Inv(run[k])
    {
      RunSteps(run, acts, n);
      StepKeepsInv(run[n], run[n + 1], acts[n]);
      n := n + 1;
    }
  }

  lemma EscapeStep(s: State, s': State, a: Act)
    requires Inv(s) && Step(s, s', a)
    ensures s'.l.b.escaped <==> s.l.b.escaped || LetsGoEarly(s, a)
  {
    SharedBuffers(s);
    hide Inv, Step, LetsGoEarly;
    if s.l.b.escaped {
      NeverUnescapes(s, s', a);
    } else {
      EscapeExact(s, s', a);
    }
  }

  /** A handle has gone early in a run exactly if one of its acts was one of the two. */
  lemma {:induction false} RunEscapesExact(run: seq<State>, acts: seq<Act>)
    requires Run(run, acts)
    ensures run[|acts|].l.b.escaped <==> exists n :: 0 <= n < |acts| && LetsGoEarly(run[n], acts[n])
  {
    hide *;
    RunKeepsInv(run, acts);
    RunStarts(run, acts);
    var n := 0;
    while n < |acts|
      invariant 0 <= n <= |acts|
      invariant run[n].l.b.escaped <==> exists k :: 0 <= k < n && LetsGoEarly(run[k], acts[k])
    {
      RunSteps(run, acts, n);
      EscapeStep(run[n], run[n + 1], acts[n]);
      n := n + 1;
    }
  }

  lemma RunStarts(run: seq<State>, acts: seq<Act>)
    requires Run(run, acts)
    ensures |run| == |acts| + 1 && Inv(run[0]) && !run[0].l.b.escaped && run[0].d.pc == D.Idle
  {
    hide Step, B.Init, L.Init, Inv;
    InitInv(run[0]);
    assert T.Init(run[0].d.b);
  }

  lemma RunSteps(run: seq<State>, acts: seq<Act>, n: nat)
    requires Run(run, acts) && n < |acts|
    ensures Step(run[n], run[n + 1], acts[n])
  {
    hide Step, Init;
  }

  lemma SharedBuffers(s: State)
    requires Inv(s)
    ensures s.l.b == s.d.b
  {
    hide Good, D.JobsOk;
  }

  /** Every ready node holds the bytes of its key, and every write in flight goes to a pinned node that is not ready. */
  ghost predicate ReadyIsRight(b: T.State) {
    && (forall p :: 0 <= p < |b.bufs| && b.bufs[p].ready ==> b.bufs[p].bytes == Some(b.bufs[p].key))
    && (forall w :: w in b.writes ==> w.pos < |b.bufs| && !b.bufs[w.pos].ready && T.HeldAt(b, w.pos))
  }

  lemma GoodIsRight(b: T.State)
    requires T.Good(b)
    ensures ReadyIsRight(b)
  {
    forall w | w in b.writes ensures w.pos < |b.bufs| && !b.bufs[w.pos].ready && T.HeldAt(b, w.pos) {
      assert T.WriteOk(b, w);
    }
  }

  /** With neither queue letting a handle go early, ready means bytes, in every run of both. */
  lemma ReadyMeansBytes(run: seq<State>, acts: seq<Act>)
    requires Run(run, acts) && forall n :: 0 <= n < |acts| ==> !LetsGoEarly(run[n], acts[n])
    ensures ReadyIsRight(run[|acts|].l.b) && run[|acts|].d.b == run[|acts|].l.b
  {
    RunKeepsInv(run, acts);
    RunEscapesExact(run, acts);
    assert Inv(run[|acts|]);
    hide Run, LetsGoEarly, Inv, ReadyIsRight;
    SharedBuffers(run[|acts|]);
    InvIsRight(run[|acts|]);
  }

  // ---------------------------------------------------------------- what has to go wrong first

  /** Neither is a failed task's loading shard skipped, nor does an enqueue fail after an earlier one of its task. */
  predicate Calm(s: State, a: Act) {
    match a
    case LoadSide(qa, _) => !E.SkipsLoading(s.l.q, qa)
    case DumpSide(da) => da == D.Copy(false) ==> s.d.copied == {}
    case World(_) => true
  }

  lemma CalmStep(s: State, s': State, a: Act)
    requires Inv(s) && !s.l.b.escaped && (s.d.pc == D.Abort ==> s.d.copied == {}) && Step(s, s', a) && Calm(s, a)
    ensures !s'.l.b.escaped && (s'.d.pc == D.Abort ==> s'.d.copied == {})
  {
    EscapeExact(s, s', a);
    CalmAborts(s, s', a);
    if a.DumpSide? {
      CalmDrops(s, s', a.da);
    }
  }

  lemma CalmDrops(s: State, s': State, da: D.Act)
    requires s.d.pc == D.Abort ==> s.d.copied == {}
    requires Step(s, s', DumpSide(da))
    ensures !LetsGoEarly(s, DumpSide(da))
  {
    hide B.Seen, T.Step, D.Deed;
  }

  lemma CalmAborts(s: State, s': State, a: Act)
    requires Inv(s) && !s.l.b.escaped && (s.d.pc == D.Abort ==> s.d.copied == {}) && Step(s, s', a) && Calm(s, a)
    ensures s'.d.pc == D.Abort ==> s'.d.copied == {}
  {
    hide B.Good, D.JobsOk, B.OwnStep, T.Step, B.Seen, WorldDoes, D.Deed, E.SkipsLoading;
    if a.DumpSide? && s.d.pc != D.Abort {
      hide D.Good, D.Step;
      D.DirtyAbortExact(s.d, s'.d, a.da);
    }
  }

  lemma {:induction false} CalmRunsKeepBytes(run: seq<State>, acts: seq<Act>)
    requires Run(run, acts) && forall n :: 0 <= n < |acts| ==> Calm(run[n], acts[n])
    ensures ReadyIsRight(run[|acts|].l.b)
  {
    hide *;
    RunKeepsInv(run, acts);
    RunStarts(run, acts);
    var n := 0;
    while n < |acts|
      invariant 0 <= n <= |acts|
      invariant !run[n].l.b.escaped && (run[n].d.pc == D.Abort ==> run[n].d.copied == {})
    {
      RunSteps(run, acts, n);
      CalmStep(run[n], run[n + 1], acts[n]);
      n := n + 1;
    }
    InvIsRight(run[|acts|]);
  }

  lemma InvIsRight(s: State)
    requires Inv(s) && !s.l.b.escaped
    ensures ReadyIsRight(s.l.b)
  {
    hide B.QueueGood, B.Agrees, D.Good, D.JobsOk, T.Good, ReadyIsRight;
    GoodIsRight(s.l.b);
  }

  // ---------------------------------------------------------------- no step is held back by what the other queue sees

  /** Whatever the dump queue can do, it can do beside the load queue. */
  lemma DumpStepsGo(s: State, d': D.State, da: D.Act) returns (s': State)
    requires Inv(s) && !s.l.b.escaped && !da.Other? && D.Step(s.d, d', da)
    ensures s'.d == d' && Step(s, s', DumpSide(da))
  {
    hide Inv, Good, D.Step, D.Deed, T.Step, B.Seen, D.Good, B.Good, D.PcOk;
    InvParts(s);
    D.StepFollows(s.d, d', da);
    DeedIsOwn(s.d, d', da);
    if D.Deed(s.d, da).None? {
      s' := State(s.l.(b := d'.b), d');
    } else {
      var l' := SeenGoes(s.l, d'.b, D.Deed(s.d, da).value);
      s' := State(l', d');
    }
  }

  lemma InvParts(s: State)
    requires Inv(s) && !s.l.b.escaped
    ensures B.Good(s.l) && D.Good(s.d) && D.PcOk(s.d) && s.l.b == s.d.b
  {
    hide B.Good, D.JobsOk, D.PcOk, D.CopiesOk, D.MineOk, T.Good, LoadsMine;
  }

  lemma SeenGoes(l: B.State, b': T.State, ta: T.Act) returns (l': B.State)
    requires T.Step(l.b, b', ta) && !ta.LoadEnds?
    ensures l'.b == b' && B.Seen(l, l', ta)
  {
    l' := l.(b := b');
    match ta {
      case Get(key, pos) =>
        l' := l'.(q := l.q.(outside := l.q.outside + {B.OutsideOf(b', l.b.nextHand)},
                            ready := L.ReadyAfterGet(l.q, key, b'.bufs[pos].ready)));
      case MarkDumped(h) => l' := l'.(q := l.q.(ready := l.q.ready + {l.b.hands[h].key}));
      case Release(rs) =>
        l' := l'.(q := l.q.(outside := l.q.outside - (set h | h in rs :: B.OutsideOf(l.b, h))));
      case _ =>
    }
  }

  /** Whatever the load queue does next, short of finding a node, it can do to the buffers. */
  lemma LoadStepsGo(s: State, q': L.State, qa: L.Act) returns (s': State)
    requires Inv(s) && !s.l.b.escaped && !qa.Get? && B.QueueStep(s.l.q, q', qa)
    ensures s'.l.q == q' && Step(s, s', LoadSide(qa, 0))
  {
    hide D.Good, B.QueueStep;
    var l' := OwnGoes(s.l, q', qa);
    s' := State(l', s.d.(b := l'.b));
  }

  lemma OwnGoes(l: B.State, q': L.State, qa: L.Act) returns (l': B.State)
    requires B.Good(l) && !qa.Get? && B.QueueStep(l.q, q', qa)
    ensures l'.q == q' && B.OwnStep(l, l', qa, 0)
  {
    RoomToMove(l, q', qa);
    hide B.Good, B.Effect, L.SubmitStep, L.DispatchStep, L.TransferStep, L.OutsideStep;
    l' := EffectGoes(l, q', qa);
  }

  ghost predicate Room(l: B.State, qa: L.Act) {
    && |l.q.held| + |O.Got(l.q.dispatch)| <= |l.hs| && (O.MoveOf(l.q, qa) == O.DropNext ==> |l.q.held| < |l.hs|)
    && B.Needing(l) <= l.b.hands.Keys
    && (B.Marks(l.q, qa) ==>
          |l.q.held| < |l.hs| && l.hs[|l.q.held|] in l.b.hands && l.b.hands[l.hs[|l.q.held|]].pos < |l.b.bufs|)
  }

  lemma EffectGoes(l: B.State, q': L.State, qa: L.Act) returns (l': B.State)
    requires !qa.Get? && Room(l, qa)
    ensures l'.q == q' && B.Effect(l, l', qa, 0)
  {
    var m, held, got := O.MoveOf(l.q, qa), |l.q.held|, |O.Got(l.q.dispatch)|;
    hide O.MoveOf, O.Moved, O.Sends, O.Got, B.Marks, B.Needing, B.Dropping, T.Dropped, T.Sent, T.Step;
    l' := B.State(l.b, q', O.Moved(l.hs, m, held, got));
    if O.Sends(l.q, qa) {
      l' := l'.(b := T.Sent(l.b, B.Needing(l), l.q.nextBackend));
    } else if B.Marks(l.q, qa) {
      l' := l'.(b := T.SetReady(l.b, l.hs[held]));
    } else if m != O.Keep {
      l' := l'.(b := T.Dropped(l.b, B.Dropping(l.hs, m, held, got)));
    }
  }

  /** The live shards that a step speaks of have their handles. */
  lemma RoomToMove(l: B.State, q': L.State, qa: L.Act)
    requires B.Good(l) && !qa.Get? && B.QueueStep(l.q, q', qa)
    ensures Room(l, qa)
  {
    hide B.Good, B.QueueStep, B.Needing, B.Mine, O.MoveOf, B.Agrees, B.QueueGood, T.Good, B.Paired, B.Ascending;
    B.GoodParts(l);
    B.MineIsHeld(l);
    ListedLive(l);
    B.NeedingIsMine(l);
    StreamThere(l.q, q', qa);
    if l.q.current.Working? {
      CurrentThere(l);
    }
  }

  lemma CurrentThere(l: B.State)
    requires B.Good(l) && l.q.current.Working?
    ensures |l.q.held| < |l.hs| && l.hs[|l.q.held|] in l.b.hands && l.b.hands[l.hs[|l.q.held|]].pos < |l.b.bufs|
  {
    hide B.Good, B.Agrees, B.QueueGood, T.Good, B.Paired;
    B.GoodParts(l);
    BS.NextIsLater(l.b);
    B.CurrentPair(l);
  }

  lemma ListedLive(l: B.State)
    requires B.Paired(l)
    ensures |l.hs| == |l.q.held| + |L.Stream(l.q)| + |O.Got(l.q.dispatch)|
  {
  }

  lemma StreamThere(q: L.State, q': L.State, qa: L.Act)
    requires B.QueueStep(q, q', qa)
    ensures O.MoveOf(q, qa) == O.DropNext ==> |L.Stream(q)| > 0
  {
    hide L.Done, L.Pinned;
  }
}
