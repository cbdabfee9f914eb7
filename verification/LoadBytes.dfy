/**
 The load queue over the nodes and writes of `TransferBytes`. Every shard in the queue's hands has a
 handle; the queue pins nodes, starts backend loads through its handles, marks nodes ready and
 lets handles go as `LoadQueue` says. Between its steps others pin, copy, mark and
 release through handles of their own.
 */
module LoadBytes {
  import opened BufferIndex
  import opened Sequences
  import L = LoadQueue
  import O = LoadQueueOwners
  import T = TransferBytes

  /** `hs` holds the handles of the live shards, in their order: on hold, current, queued, gathered. */
  datatype State = State(b: T.State, q: L.State, hs: seq<nat>)

  ghost predicate Init(s: State) {
    && T.Init(s.b) && L.Init(s.q) && s.hs == []
  }

  /** An act of the load queue (`pos` is the node that `Get` finds), or of the others. */
  datatype Act = Own(a: L.Act, pos: nat) | Other(ta: T.Act)

  function Mine(s: State): set<nat> {
    Elements(s.hs)
  }

  // ---------------------------------------------------------------- what the queue's steps do to the buffers

  /** The handles that a step lets go. */
  function Dropping(hs: seq<nat>, m: O.Move, held: nat, got: nat): set<nat>
    requires held + got <= |hs| && (m == O.DropNext ==> held < |hs|)
  {
    match m
    case DropHeld => Elements(hs[..held])
    case DropNext => {hs[held]}
    case DropGot => Elements(hs[|hs| - got..])
    case _ => {}
  }

  /** The handles of the gathered shards that are loaded by the backend. */
  ghost function Needing(s: State): set<nat>
    requires |O.Got(s.q.dispatch)| <= |s.hs|
  {
    var got := O.Got(s.q.dispatch);
    set i | 0 <= i < |got| && got[i].needs :: s.hs[|s.hs| - |got| + i]
  }

  /** `WaitBackendTaskReady` reaches its `MarkReady`. */
  predicate Marks(q: L.State, a: L.Act) {
    && q.current.Working?
    && var x := q.current.x;
    || (a.Inspect? && x.key !in q.ready && x.owner && x.bh <= q.finished)
    || (a.WaitBackend? && L.Status(q, x.bh) == L.Loaded)
  }

  /** The step of the buffers, without any condition that the protocol of `TransferBytes` sets. */
  ghost predicate Effect(s: State, s': State, a: L.Act, pos: nat) {
    var m, held, got := O.MoveOf(s.q, a), |s.q.held|, |O.Got(s.q.dispatch)|;
    && held + got <= |s.hs| && (m == O.DropNext ==> held < |s.hs|)
    && if a.Get? then
         && |O.Got(s'.q.dispatch)| > got
         && T.Step(s.b, s'.b, T.Get(s'.q.dispatch.got[got].key, pos))
         && pos < |s'.b.bufs| && a.cached == s'.b.bufs[pos].ready && s'.hs == s.hs + [s.b.nextHand]
       else
         && s'.hs == O.Moved(s.hs, m, held, got)
         && if O.Sends(s.q, a) then
              Needing(s) <= s.b.hands.Keys && s'.b == T.Sent(s.b, Needing(s), s.q.nextBackend)
            else if Marks(s.q, a) then
              && held < |s.hs| && s.hs[held] in s.b.hands && s.b.hands[s.hs[held]].pos < |s.b.bufs|
              && s'.b == T.SetReady(s.b, s.hs[held])
            else
              s'.b == if m == O.Keep then s.b else T.Dropped(s.b, Dropping(s.hs, m, held, got))
  }

  /** Steps of the submitter, of the two threads, and of the callers who wait. */
  ghost predicate OwnStep(s: State, s': State, a: L.Act, pos: nat) {
    && (|| (a.Submit? && L.SubmitStep(s.q, s'.q, a.task)) || L.DispatchStep(s.q, s'.q, a) || L.TransferStep(s.q, s'.q, a)
        || ((a.TimesOut? || a.Forget?) && L.OutsideStep(s.q, s'.q, a)))
    && Effect(s, s', a, pos)
  }

  // ---------------------------------------------------------------- what the others do, and how the queue sees it

  ghost function OutsideOf(b: T.State, h: nat): L.Outside
    requires h in b.hands
  {
    L.Outside(h, b.hands[h].key, b.hands[h].owner)
  }

  /** Others do not touch this queue's handles, and only this queue loads. */
  predicate Apart(s: State, ta: T.Act) {
    match ta
    case Get(_, _) => true
    case CopyIn(h) => h !in Mine(s)
    case SyncDevice(_) => true
    case Garble(_) => true
    case MarkDumped(h) => h !in Mine(s)
    case Release(rs) => |rs| == 1 && rs !! Mine(s)
    case LoadEnds(_, _) => true
    case Load(_, _) => false
    case MarkLoaded(_, _) => false
  }

  /** What the queue sees of a step of others: who holds handles, which keys are ready, which loads are over. */
  ghost predicate Seen(s: State, s': State, ta: T.Act) {
    s'.hs == s.hs
    && match ta
       case Get(key, pos) =>
         && s.b.nextHand in s'.b.hands && pos < |s'.b.bufs|
         && s'.q == s.q.(outside := s.q.outside + {OutsideOf(s'.b, s.b.nextHand)},
                         ready := L.ReadyAfterGet(s.q, key, s'.b.bufs[pos].ready))
       case MarkDumped(h) => h in s.b.hands && s'.q == s.q.(ready := s.q.ready + {s.b.hands[h].key})
       case Release(rs) =>
         && rs <= s.b.hands.Keys
         && s'.q == s.q.(outside := s.q.outside - (set h | h in rs :: OutsideOf(s.b, h)))
       case LoadEnds(bh, ok) =>
         && bh in s.q.backend && s'.q == s.q.(backend := s.q.backend[bh := if ok then L.Loaded else L.Broken])
       case _ => s'.q == s.q
  }

  ghost predicate OtherStep(s: State, s': State, ta: T.Act) {
    T.Step(s.b, s'.b, ta) && Apart(s, ta) && Seen(s, s', ta)
  }

  ghost predicate Step(s: State, s': State, a: Act) {
    match a
    case Own(qa, pos) => OwnStep(s, s', qa, pos)
    case Other(ta) => OtherStep(s, s', ta)
  }

  // ---------------------------------------------------------------- invariant

  predicate Ascending(hs: seq<nat>) {
    forall i, j :: 0 <= i < j < |hs| ==> hs[i] < hs[j]
  }

  /** A live shard's handle, and the backend load that writes through it. */
  predicate PairOk(b: T.State, h: nat, x: L.Shard) {
    && h in b.hands && b.hands[h].key == x.key && b.hands[h].owner == x.owner
    && (x.bh > 0 <==> h in b.via) && (x.bh > 0 ==> b.via[h] == T.ByBackend(x.bh))
  }

  predicate Pairs(b: T.State, hs: seq<nat>, xs: seq<L.Shard>) {
    |hs| == |xs| && Ascending(hs) && forall i :: 0 <= i < |hs| ==> PairOk(b, hs[i], xs[i])
  }

  ghost predicate Paired(s: State) {
    Pairs(s.b, s.hs, O.Live(s.q))
  }

  /** The queue's picture of ready keys is right for every key that is held. */
  predicate ReadyAgrees(b: T.State, ready: set<Key>) {
    forall h :: h in b.hands ==> (T.Ready(b, h) <==> b.hands[h].key in ready)
  }

  predicate OutcomeAgrees(o: T.Outcome, q: L.Backend) {
    (o.Pending? <==> q.Pending?) && (o.Loaded? <==> q.Loaded?)
  }

  predicate LoadsAgree(b: T.State, q: L.State) {
    && b.loads.Keys == q.backend.Keys
    && forall bh :: bh in q.backend ==> bh in b.loads && OutcomeAgrees(b.loads[bh], q.backend[bh])
  }

  predicate OutOk(b: T.State, mine: set<nat>, o: L.Outside) {
    o.serial in b.hands && o.serial !in mine && o == L.Outside(o.serial, b.hands[o.serial].key, b.hands[o.serial].owner)
  }

  /** The handles of the others are exactly those the queue counts as outside. */
  ghost predicate OutsideAgrees(b: T.State, mine: set<nat>, outside: set<L.Outside>) {
    && (forall o :: o in outside ==> OutOk(b, mine, o))
    && (forall h :: h in b.hands && h !in mine ==> OutsideOf(b, h) in outside)
  }

  predicate StillUnready(x: L.Shard, ready: set<Key>) {
    x.needs ==> x.key !in ready
  }

  /** What is to be loaded is not ready until this queue marks it. */
  predicate Unmarked(q: L.State) {
    && (forall i :: 0 <= i < |q.pend| ==> StillUnready(q.pend[i], q.ready))
    && (forall i :: 0 <= i < |O.Got(q.dispatch)| ==> StillUnready(O.Got(q.dispatch)[i], q.ready))
    && (q.current.Working? && q.current.phase in {L.Look, L.AwaitBackend} ==> StillUnready(q.current.x, q.ready))
  }

  predicate Over(q: L.State, x: L.Shard) {
    x.bh > 0 ==> L.Status(q, x.bh) != L.Pending
  }

  /** Past the wait for the backend, no load goes on through the shard's handle. */
  predicate Settled(q: L.State) {
    && (forall i :: 0 <= i < |q.held| ==> Over(q, q.held[i]))
    && (q.current.Working? && q.current.phase !in {L.Look, L.AwaitBackend} ==> Over(q, q.current.x))
  }

  ghost predicate QueueGood(q: L.State) {
    L.Inv(q) && O.OwnersOk(q) && Unmarked(q) && Settled(q)
  }

  ghost predicate Agrees(s: State) {
    && Paired(s) && ReadyAgrees(s.b, s.q.ready) && LoadsAgree(s.b, s.q)
    && OutsideAgrees(s.b, Mine(s), s.q.outside)
  }

  ghost predicate Good(s: State) {
    T.Good(s.b) && QueueGood(s.q) && Agrees(s)
  }

  ghost predicate Inv(s: State) {
    !s.b.escaped ==> Good(s)
  }

  lemma InitInv(s: State)
    requires Init(s)
    ensures Inv(s)
  {
    T.InitInv(s.b);
    L.InitInv(s.q);
  }

  // ---------------------------------------------------------------- the queue's own part of the invariant

  ghost predicate QueueStep(q: L.State, q': L.State, a: L.Act) {
    || (a.Submit? && L.SubmitStep(q, q', a.task)) || L.DispatchStep(q, q', a) || L.TransferStep(q, q', a)
    || ((a.TimesOut? || a.Forget?) && L.OutsideStep(q, q', a))
  }

  /** The lists of live shards, under their names. */
  lemma LiveParts(q: L.State)
    ensures |O.Live(q)| == |q.held| + |L.Stream(q)| + |O.Got(q.dispatch)|
    ensures forall i :: 0 <= i < |q.held| ==> O.Live(q)[i] == q.held[i]
    ensures q.current.Working? ==> L.Stream(q) != [] && O.Live(q)[|q.held|] == q.current.x
    ensures var n := |q.held| + |L.Stream(q)| - |q.pend|;
      |L.Stream(q)| == |q.pend| + (if q.current.Working? then 1 else 0) &&
      forall i :: 0 <= i < |q.pend| ==> O.Live(q)[n + i] == q.pend[i]
    ensures var n := |q.held| + |L.Stream(q)|;
      forall i :: 0 <= i < |O.Got(q.dispatch)| ==> O.Live(q)[n + i] == O.Got(q.dispatch)[i]
  {
  }

  /** Re-keying a node for a key nobody holds changes no live shard's mark. */
  lemma GetKeepsMarks(q: L.State, key: Key, cached: bool, i: nat)
    requires i < |O.Live(q)|
    ensures O.Live(q)[i].key in L.ReadyAfterGet(q, key, cached) <==> O.Live(q)[i].key in q.ready
  {
    O.LiveIsPinned(q, i);
  }

  lemma SamePartsUnmarked(q: L.State, q': L.State)
    requires Unmarked(q) && Settled(q)
    requires q'.pend == q.pend && q'.held == q.held && q'.current == q.current && q'.dispatch == q.dispatch
    requires forall i :: |q.held| <= i < |O.Live(q)| && O.Live(q)[i].needs ==>
      (O.Live(q)[i].key in q'.ready ==> O.Live(q)[i].key in q.ready)
    requires forall bh :: bh in q.backend ==> bh in q'.backend && (q.backend[bh] != L.Pending ==> q'.backend[bh] != L.Pending)
    ensures Unmarked(q') && Settled(q')
  {
    LiveParts(q);
    hide O.Live;
    forall i | 0 <= i < |q.pend| ensures StillUnready(q.pend[i], q'.ready) {
      assert StillUnready(q.pend[i], q.ready);
    }
    forall i | 0 <= i < |O.Got(q.dispatch)| ensures StillUnready(O.Got(q.dispatch)[i], q'.ready) {
      assert StillUnready(O.Got(q.dispatch)[i], q.ready);
    }
    forall i | 0 <= i < |q.held| ensures Over(q', q.held[i]) {
      assert Over(q, q.held[i]);
    }
  }

  lemma GetKeepsParts(q: L.State, q': L.State, cached: bool)
    requires Unmarked(q) && Settled(q) && L.DispatchStep(q, q', L.Act.Get(cached))
    ensures Unmarked(q') && Settled(q')
  {
    var key, got := q.dispatch.task.keys[|q.dispatch.got|], q.dispatch.got;
    var x := q'.dispatch.got[|got|];
    assert q'.dispatch.got == got + [x] && StillUnready(x, q'.ready) && q'.ready == L.ReadyAfterGet(q, key, cached);
    assert q' == q.(ready := q'.ready, dispatch := q'.dispatch);
    hide O.Live, L.ReadyAfterGet, L.DispatchStep;
    forall i | 0 <= i < |O.Live(q)| ensures O.Live(q)[i].key in q'.ready ==> O.Live(q)[i].key in q.ready {
      GetKeepsMarks(q, key, cached, i);
    }
    SamePartsUnmarked(q, q'.(dispatch := q.dispatch));
    hide Settled;
    OneMoreGathered(q'.(dispatch := q.dispatch), q', x);
  }

  lemma OneMoreGathered(q: L.State, q': L.State, x: L.Shard)
    requires Unmarked(q) && Settled(q) && q.dispatch.Getting? && q'.dispatch.Getting? && q' == q.(dispatch := q'.dispatch)
    requires q'.dispatch.got == q.dispatch.got + [x] && StillUnready(x, q.ready)
    ensures Unmarked(q') && Settled(q')
  {
    var got := O.Got(q.dispatch);
    forall i | 0 <= i < |q'.dispatch.got| ensures StillUnready(q'.dispatch.got[i], q'.ready) {
      assert i < |got| ==> StillUnready(got[i], q.ready);
    }
    forall x: L.Shard | Over(q, x) ensures Over(q', x) {
    }
  }

  lemma LoadKeepsParts(q: L.State, q': L.State, ok: bool)
    requires Unmarked(q) && Settled(q) && L.HandlesOk(q) && L.DispatchStep(q, q', L.Load(ok))
    ensures Unmarked(q') && Settled(q')
  {
    L.LoadHasEffect(q, q', L.Load(ok));
    DoneKeepsMarks(q.(dispatch := L.NoTask, failure := q.failure + {q.dispatch.task.id}), q.dispatch.task.id);
    assert q'.ready == q.ready;
    forall x: L.Shard | Over(q, x) ensures Over(q', x) {
    }
    forall i | 0 <= i < |q.held| ensures Over(q', q'.held[i]) {
      assert Over(q, q.held[i]);
    }
    if L.Appends(q, L.Load(ok)) {
      var got := O.Got(q.dispatch);
      assert q'.pend == q.pend + L.Block(q);
      forall i | 0 <= i < |q'.pend| ensures StillUnready(q'.pend[i], q'.ready) {
        if i < |q.pend| {
          assert q'.pend[i] == q.pend[i];
        } else {
          assert StillUnready(got[i - |q.pend|], q.ready);
        }
      }
    }
  }

  lemma DispatchKeepsParts(q: L.State, q': L.State, a: L.Act)
    requires Unmarked(q) && Settled(q) && L.Inv(q) && L.DispatchStep(q, q', a)
    ensures Unmarked(q') && Settled(q')
  {
    match a
    case Get(cached) => GetKeepsParts(q, q', cached);
    case Load(ok) => LoadKeepsParts(q, q', ok);
    case Begin =>
      O.DoneKeepsLists(q.(waiting := q.waiting[1..]), q.waiting[0].id);
    case Push =>
  }

  lemma TakeKeepsParts(q: L.State, q': L.State)
    requires Unmarked(q) && Settled(q) && L.TakeStep(q, q')
    ensures Unmarked(q') && Settled(q')
  {
    hide L.Done, O.Got;
    var x, q1 := q.pend[0], q.(pend := q.pend[1..]);
    assert StillUnready(x, q.ready);
    DoneKeepsMarks(q1, x.id);
    assert forall i :: 0 <= i < |q.pend[1..]| ==> q.pend[1..][i] == q.pend[i + 1];
  }

  lemma DoneKeepsMarks(q: L.State, id: nat)
    ensures var q' := L.Done(q, id);
      && q'.held == q.held && q'.pend == q.pend && q'.dispatch == q.dispatch && q'.current == q.current
      && q'.ready == q.ready && q'.backend == q.backend
  {
  }

  /** A mark of the current shard is of nobody else's: a later shard of the same key is not its owner. */
  lemma MarkKeepsUnmarked(q: L.State, q': L.State)
    requires Unmarked(q) && O.OwnersOk(q) && L.GotOk(q.dispatch) && L.HandlesOk(q) && q.current.Working?
    requires q'.pend == q.pend && q'.dispatch == q.dispatch && q'.ready == q.ready + {q.current.x.key}
    requires q'.current.Working? && q'.current.phase !in {L.Look, L.AwaitBackend}
    ensures Unmarked(q')
  {
    var key, c, xs := q.current.x.key, |q.held|, O.Live(q);
    LiveParts(q);
    hide O.Live, L.HandlesOk;
    forall i | 0 <= i < |q.pend| ensures StillUnready(q.pend[i], q'.ready) {
      assert StillUnready(q.pend[i], q.ready);
      assert xs[c + 1 + i] == q.pend[i] && !O.LaterOwner(xs[c], xs[c + 1 + i]);
      PendNeedsOwner(q, i);
    }
    forall i | 0 <= i < |O.Got(q.dispatch)| ensures StillUnready(O.Got(q.dispatch)[i], q'.ready) {
      var k := c + |L.Stream(q)| + i;
      assert StillUnready(O.Got(q.dispatch)[i], q.ready);
      assert xs[k] == O.Got(q.dispatch)[i] && !O.LaterOwner(xs[c], xs[k]);
    }
  }

  lemma PendNeedsOwner(q: L.State, i: nat)
    requires L.HandlesOk(q) && i < |q.pend|
    ensures q.pend[i].needs ==> q.pend[i].owner
  {
    var xs := L.Stream(q);
    var k := i + |xs| - |q.pend|;
    assert xs[k] == q.pend[i];
    assert L.HandleOk(q, xs[k]);
  }

  /** The phases after the look: what the backend loads for them is over. */
  lemma CurrentOver(q: L.State, q': L.State, a: L.Act)
    requires QueueGood(q) && L.TransferStep(q, q', a) && (a.Inspect? || a.Poll? || a.WaitBackend?)
    ensures q'.current.Working? && q'.current.phase !in {L.Look, L.AwaitBackend} ==> Over(q', q'.current.x)
  {
    var x := q.current.x;
    assert L.Stream(q)[0] == x;
    assert L.HandleOk(q, x);
    hide L.Inv, O.OwnersOk, Unmarked, Settled, L.InspectStep, L.PollStep, L.BackendStep;
    match a
    case Inspect =>
      assert StillUnready(x, q.ready) by {
        LookIsUnready(q, q');
      }
      InspectOver(q, q');
    case Poll =>
      assert Over(q, x) by {
        SpinIsOver(q, q');
      }
      PollOver(q, q');
    case WaitBackend => BackendOver(q, q');
  }

  lemma LookIsUnready(q: L.State, q': L.State)
    requires Unmarked(q) && L.InspectStep(q, q')
    ensures StillUnready(q.current.x, q.ready)
  {
  }

  lemma SpinIsOver(q: L.State, q': L.State)
    requires Settled(q) && L.PollStep(q, q')
    ensures Over(q, q.current.x)
  {
  }

  lemma InspectOver(q: L.State, q': L.State)
    requires L.InspectStep(q, q') && L.HandleOk(q, q.current.x) && StillUnready(q.current.x, q.ready)
    ensures q'.current.Working? && q'.current.phase !in {L.Look, L.AwaitBackend} ==> Over(q', q'.current.x)
  {
  }

  lemma PollOver(q: L.State, q': L.State)
    requires L.PollStep(q, q') && Over(q, q.current.x)
    ensures q'.current.Working? ==> Over(q', q'.current.x)
  {
  }

  lemma BackendOver(q: L.State, q': L.State)
    requires L.BackendStep(q, q')
    ensures q'.current.Working? ==> Over(q', q'.current.x)
  {
  }

  lemma LookKeepsParts(q: L.State, q': L.State, a: L.Act)
    requires QueueGood(q) && L.TransferStep(q, q', a) && (a.Inspect? || a.Poll? || a.WaitBackend?)
    ensures Unmarked(q') && Settled(q')
  {
    CurrentOver(q, q', a);
    LookChanges(q, q', a);
    assert L.GotOk(q.dispatch) && L.HandlesOk(q);
    hide L.TransferStep, L.Inv, O.OwnersOk, L.HandlesOk, L.GotOk;
    forall i | 0 <= i < |q.held| ensures Over(q', q'.held[i]) {
      assert Over(q, q.held[i]);
    }
    if q'.ready != q.ready {
      MarkKeepsUnmarked(q, q');
    }
  }

  /** Looking and waiting change the phase, and at most mark the current shard's key. */
  ghost predicate LookEffect(q: L.State, q': L.State, a: L.Act) {
    && q.current.Working? && q'.current.Working? && q'.current.x == q.current.x
    && q'.pend == q.pend && q'.held == q.held && q'.dispatch == q.dispatch && q'.backend == q.backend
    && q'.ready == (if Marks(q, a) then q.ready + {q.current.x.key} else q.ready)
    && (Marks(q, a) ==> q'.current.phase == L.CopyOut)
    && (q'.current.phase == L.AwaitBackend ==> q.current.phase == L.Look) && q'.current.phase != L.Look
  }

  lemma InspectEffect(q: L.State, q': L.State)
    requires L.InspectStep(q, q')
    ensures LookEffect(q, q', L.Inspect)
  {
  }

  lemma PollEffect(q: L.State, q': L.State)
    requires L.PollStep(q, q')
    ensures LookEffect(q, q', L.Poll)
  {
  }

  lemma BackendEffect(q: L.State, q': L.State)
    requires L.BackendStep(q, q')
    ensures LookEffect(q, q', L.WaitBackend)
  {
  }

  lemma LookChanges(q: L.State, q': L.State, a: L.Act)
    requires L.TransferStep(q, q', a) && (a.Inspect? || a.Poll? || a.WaitBackend?)
    ensures LookEffect(q, q', a)
  {
    hide L.InspectStep, L.PollStep, L.BackendStep, LookEffect;
    match a
    case Inspect => InspectEffect(q, q');
    case Poll => PollEffect(q, q');
    case WaitBackend => BackendEffect(q, q');
  }

  lemma CopyKeepsParts(q: L.State, q': L.State, ok: bool)
    requires Unmarked(q) && Settled(q) && L.CopyStep(q, q', ok)
    ensures Unmarked(q') && Settled(q')
  {
    forall i | 0 <= i < |q'.held| ensures Over(q', q'.held[i]) {
      assert i < |q.held| ==> Over(q, q.held[i]);
      assert Over(q, q.current.x);
    }
  }

  lemma SyncKeepsParts(q: L.State, q': L.State, ok: bool)
    requires Unmarked(q) && Settled(q) && L.SyncStep(q, q', ok)
    ensures Unmarked(q') && Settled(q')
  {
    assert Over(q, q.current.x);
  }

  lemma EndKeepsParts(q: L.State, q': L.State)
    requires Unmarked(q) && Settled(q) && L.EndStep(q, q')
    ensures Unmarked(q') && Settled(q')
  {
    hide L.Done;
    var x := q.current.x;
    DoneKeepsMarks(q.(current := L.Nothing), x.id);
    DoneKeepsMarks(q.(current := L.Nothing, failure := q.failure + {x.id}), x.id);
    forall i | 0 <= i < |q.held| ensures Over(q', q'.held[i]) {
      assert Over(q, q.held[i]);
    }
  }

  lemma TransferKeepsParts(q: L.State, q': L.State, a: L.Act)
    requires QueueGood(q) && L.TransferStep(q, q', a)
    ensures Unmarked(q') && Settled(q')
  {
    hide L.TakeStep, L.CopyStep, L.SyncStep, L.EndStep, L.InspectStep, L.PollStep, L.BackendStep;
    match a
    case Take => TakeKeepsParts(q, q');
    case CopyAsync(ok) => CopyKeepsParts(q, q', ok);
    case Synchronize(ok) => SyncKeepsParts(q, q', ok);
    case End => EndKeepsParts(q, q');
    case _ => LookKeepsParts(q, q', a);
  }

  /** Every step of the queue keeps its own part of the invariant. */
  lemma QueueKeeps(q: L.State, q': L.State, a: L.Act)
    requires QueueGood(q) && QueueStep(q, q', a)
    ensures QueueGood(q')
  {
    hide L.Inv, O.OwnersOk, Unmarked, Settled, L.SubmitStep, L.DispatchStep, L.TransferStep, L.OutsideStep;
    L.StepKeepsInv(q, q', a);
    O.StepKeepsOwners(q, q', a);
    if a.Submit? && L.SubmitStep(q, q', a.task) {
      StillKeepsParts(q, q', a);
    } else if L.DispatchStep(q, q', a) {
      DispatchKeepsParts(q, q', a);
    } else if L.TransferStep(q, q', a) {
      TransferKeepsParts(q, q', a);
    } else {
      StillKeepsParts(q, q', a);
    }
  }

  lemma StillKeepsParts(q: L.State, q': L.State, a: L.Act)
    requires Unmarked(q) && Settled(q)
    requires (a.Submit? && L.SubmitStep(q, q', a.task)) || ((a.TimesOut? || a.Forget?) && L.OutsideStep(q, q', a))
    ensures Unmarked(q') && Settled(q')
  {
    if a.Submit? {
      L.SubmitIsStill(q, q', a.task);
    } else {
      L.OutsideIsStill(q, q', a);
    }
    assert q'.ready == q.ready && q'.backend == q.backend;
    hide L.SubmitStep, L.OutsideStep;
    SamePartsUnmarked(q, q');
  }

  // ---------------------------------------------------------------- the queue's steps follow the protocol of the bytes

  /** An ascending list cut in two. */
  lemma Cut(hs: seq<nat>, c: nat)
    requires Ascending(hs) && c <= |hs|
    ensures Ascending(hs[..c]) && Ascending(hs[c..])
    ensures Elements(hs) == Elements(hs[..c]) + Elements(hs[c..]) && Elements(hs[..c]) !! Elements(hs[c..])
  {
    forall h ensures h in hs <==> h in hs[..c] || h in hs[c..] {
      assert hs == hs[..c] + hs[c..];
    }
    forall h | h in hs[..c] ensures h !in hs[c..] {
      var i :| 0 <= i < c && hs[i] == h;
      assert forall k :: 0 <= k < |hs[c..]| ==> hs[c..][k] == hs[c + k];
    }
  }

  lemma CutOut(hs: seq<nat>, c: nat)
    requires Ascending(hs) && c < |hs|
    ensures var rest := hs[..c] + hs[c + 1..];
      Ascending(rest) && Elements(rest) == Elements(hs) - {hs[c]}
  {
    var rest := hs[..c] + hs[c + 1..];
    assert forall i :: 0 <= i < |rest| ==> rest[i] == hs[if i < c then i else i + 1];
    forall h ensures h in rest <==> h in hs && h != hs[c] {
      if h in hs && h != hs[c] {
        var k :| 0 <= k < |hs| && hs[k] == h;
        assert rest[if k < c then k else k - 1] == h;
      }
    }
  }

  /** Which handles go and which stay. */
  lemma HandsMoved(hs: seq<nat>, m: O.Move, held: nat, got: nat)
    requires Ascending(hs) && held + got <= |hs| && (m == O.DropNext ==> held < |hs|)
    ensures var hs' := O.Moved(hs, m, held, got);
      && Ascending(hs') && Elements(hs') == Elements(hs) - Dropping(hs, m, held, got)
      && Dropping(hs, m, held, got) <= Elements(hs)
  {
    hide Ascending, Elements;
    match m
    case DropHeld => Cut(hs, held);
    case DropNext =>
      CutOut(hs, held);
      ElementIn(hs, held);
    case DropGot => Cut(hs, |hs| - got);
    case _ =>
  }

  lemma ElementIn(hs: seq<nat>, i: nat)
    requires i < |hs|
    ensures hs[i] in Elements(hs)
  {
  }

  /** The gathered shards to be loaded: live owners without a write, of nodes that are not ready. */
  lemma NeedingMayWrite(s: State, h: nat)
    requires Good(s) && |O.Got(s.q.dispatch)| <= |s.hs| && h in Needing(s)
    ensures T.MayWrite(s.b, h)
  {
    hide Good, QueueGood, Agrees, T.Good, L.Inv, O.OwnersOk, Paired;
    GoodParts(s);
    var got := O.Got(s.q.dispatch);
    var i :| 0 <= i < |got| && got[i].needs && h == s.hs[|s.hs| - |got| + i];
    GotPair(s, i);
    GatheredIsUnready(s.q, i);
    hide O.Got, Needing;
    UnreadyMayWrite(s.b, s.q.ready, h, got[i]);
  }

  lemma GotPair(s: State, i: nat)
    requires Paired(s) && i < |O.Got(s.q.dispatch)|
    ensures |O.Got(s.q.dispatch)| <= |s.hs|
    ensures PairOk(s.b, s.hs[|s.hs| - |O.Got(s.q.dispatch)| + i], O.Got(s.q.dispatch)[i])
  {
    LiveParts(s.q);
  }

  lemma GatheredIsUnready(q: L.State, i: nat)
    requires QueueGood(q) && i < |O.Got(q.dispatch)| && O.Got(q.dispatch)[i].needs
    ensures O.Got(q.dispatch)[i].owner && O.Got(q.dispatch)[i].bh == 0 && O.Got(q.dispatch)[i].key !in q.ready
  {
    assert StillUnready(O.Got(q.dispatch)[i], q.ready) && L.GotOk(q.dispatch);
  }

  lemma UnreadyMayWrite(b: T.State, ready: set<Key>, h: nat, x: L.Shard)
    requires T.Good(b) && ReadyAgrees(b, ready) && PairOk(b, h, x) && x.owner && x.bh == 0 && x.key !in ready
    ensures T.MayWrite(b, h)
  {
    assert T.LiveOk(b);
  }

  lemma SendFollows(s: State, s': State, a: L.Act, pos: nat)
    requires Good(s) && Effect(s, s', a, pos) && O.Sends(s.q, a)
    ensures T.Step(s.b, s'.b, T.Load(Needing(s), s.q.nextBackend))
  {
    assert s.q.nextBackend !in s.q.backend;
    hide L.Inv, O.Live, T.Good, O.OwnersOk, Needing, T.MayWrite;
    forall h | h in Needing(s) ensures T.MayWrite(s.b, h) {
      NeedingMayWrite(s, h);
    }
  }

  /** A mark is of a shard whose own backend load was waited for and succeeded. */
  lemma MarksLoaded(q: L.State, q': L.State, a: L.Act)
    requires QueueGood(q) && L.TransferStep(q, q', a) && Marks(q, a)
    ensures q.current.x.needs && q.current.x.bh > 0 && L.Status(q, q.current.x.bh) == L.Loaded
  {
    var x := q.current.x;
    assert L.Stream(q)[0] == x;
    assert L.HandleOk(q, x);
    assert a.WaitBackend? ==> x.needs && StillUnready(x, q.ready);
    LookChanges(q, q', a);
    hide L.TransferStep, O.OwnersOk, Unmarked, Settled;
    L.MarkedMeansLoaded(q, q', a, x.key);
  }

  /** The current shard's handle, and what writes through it. */
  lemma CurrentPair(s: State)
    requires Paired(s) && s.q.current.Working?
    ensures |s.q.held| < |s.hs| && PairOk(s.b, s.hs[|s.q.held|], s.q.current.x)
  {
    LiveParts(s.q);
  }

  lemma MarkFollows(s: State, s': State, a: L.Act, pos: nat)
    requires Good(s) && OwnStep(s, s', a, pos) && Marks(s.q, a) && (a.Inspect? || a.WaitBackend?)
    ensures T.Step(s.b, s'.b, T.MarkLoaded(s.hs[|s.q.held|], s.q.current.x.bh))
  {
    hide Good, QueueGood, Agrees, Paired, T.Good, L.TransferStep, L.DispatchStep, L.OutsideStep, L.SubmitStep;
    GoodParts(s);
    CurrentPair(s);
    LookIsTransfer(s, s', a, pos);
    MarksLoaded(s.q, s'.q, a);
    BackendLoaded(s.b, s.q, s.q.current.x.bh);
    hide PairOk, LoadsAgree, Marks, O.MoveOf, O.Sends;
    MarkIsStep(s.b, s.hs[|s.q.held|], s.q.current.x);
  }

  lemma LookIsTransfer(s: State, s': State, a: L.Act, pos: nat)
    requires OwnStep(s, s', a, pos) && (a.Inspect? || a.WaitBackend?)
    ensures L.TransferStep(s.q, s'.q, a)
  {
    hide L.TransferStep, Effect;
  }

  lemma GoodParts(s: State)
    requires Good(s)
    ensures T.Good(s.b) && QueueGood(s.q) && Agrees(s)
    ensures Paired(s) && ReadyAgrees(s.b, s.q.ready) && LoadsAgree(s.b, s.q) && OutsideAgrees(s.b, Mine(s), s.q.outside)
  {
  }

  lemma BackendLoaded(b: T.State, q: L.State, bh: nat)
    requires LoadsAgree(b, q) && L.Status(q, bh) == L.Loaded
    ensures T.LoadIs(b, bh, T.Loaded)
  {
  }

  lemma MarkIsStep(b: T.State, h: nat, x: L.Shard)
    requires PairOk(b, h, x) && x.bh > 0 && T.LoadIs(b, x.bh, T.Loaded) && b.hands[h].pos < |b.bufs|
    ensures T.Step(b, T.SetReady(b, h), T.MarkLoaded(h, x.bh))
  {
  }

  lemma DropFollows(b: T.State, hs: set<nat>)
    requires hs <= b.hands.Keys
    ensures T.Step(b, T.Dropped(b, hs), T.Release(hs))
  {
  }

  /** A step of the protocol that gets a node, or goes through the queue's own handles. */
  predicate Within(s: State, ta: T.Act) {
    match ta
    case Get(_, _) => true
    case Load(hs, _) => hs <= Mine(s)
    case MarkLoaded(h, _) => h in Mine(s)
    case Release(hs) => hs <= Mine(s)
    case _ => false
  }

  lemma ReleaseFollows(s: State, s': State, a: L.Act, pos: nat) returns (ta: T.Act)
    requires Paired(s) && Effect(s, s', a, pos)
    requires !a.Get? && !O.Sends(s.q, a) && !Marks(s.q, a) && O.MoveOf(s.q, a) != O.Keep
    ensures T.Step(s.b, s'.b, ta) && Within(s, ta)
  {
    var m, held, got := O.MoveOf(s.q, a), |s.q.held|, |O.Got(s.q.dispatch)|;
    MineIsHeld(s);
    hide Paired, O.MoveOf, Marks, O.Sends, Needing, T.Dropped, Ascending, Dropping, O.Moved;
    HandsMoved(s.hs, m, held, got);
    DropFollows(s.b, Dropping(s.hs, m, held, got));
    ta := T.Release(Dropping(s.hs, m, held, got));
  }

  lemma GetFollows(s: State, s': State, a: L.Act, pos: nat) returns (ta: T.Act)
    requires Effect(s, s', a, pos) && a.Get?
    ensures T.Step(s.b, s'.b, ta) && Within(s, ta)
  {
    hide O.MoveOf, Marks, O.Sends, Needing, T.Step, O.Moved;
    ta := T.Get(O.Got(s'.q.dispatch)[|O.Got(s.q.dispatch)|].key, pos);
  }

  lemma KeepFollows(s: State, s': State, a: L.Act, pos: nat)
    requires Effect(s, s', a, pos) && !a.Get? && !O.Sends(s.q, a) && !Marks(s.q, a) && O.MoveOf(s.q, a) == O.Keep
    ensures s'.b == s.b
  {
    hide O.MoveOf, Marks, O.Sends, Needing;
  }

  lemma LoadFollows(s: State, s': State, a: L.Act, pos: nat) returns (ta: T.Act)
    requires Good(s) && Effect(s, s', a, pos) && O.Sends(s.q, a)
    ensures T.Step(s.b, s'.b, ta) && Within(s, ta)
  {
    SendFollows(s, s', a, pos);
    assert |O.Got(s.q.dispatch)| <= |s.hs|;
    hide Good, Effect, T.Step, O.Sends, Needing, O.Got;
    NeedingIsMine(s);
    ta := T.Load(Needing(s), s.q.nextBackend);
  }

  lemma LoadedFollows(s: State, s': State, a: L.Act, pos: nat) returns (ta: T.Act)
    requires Good(s) && OwnStep(s, s', a, pos) && Marks(s.q, a) && (a.Inspect? || a.WaitBackend?)
    ensures T.Step(s.b, s'.b, ta) && Within(s, ta)
  {
    MarkFollows(s, s', a, pos);
    GoodParts(s);
    CurrentPair(s);
    hide Good, OwnStep, Effect, T.Step, Marks;
    ElementIn(s.hs, |s.q.held|);
    ta := T.MarkLoaded(s.hs[|s.q.held|], s.q.current.x.bh);
  }

  lemma OwnParts(s: State, s': State, a: L.Act, pos: nat)
    requires Good(s) && OwnStep(s, s', a, pos)
    ensures QueueStep(s.q, s'.q, a) && Effect(s, s', a, pos) && Paired(s)
    ensures Marks(s.q, a) ==> a.Inspect? || a.WaitBackend?
  {
    GoodParts(s);
    hide Good, Paired, L.SubmitStep, L.DispatchStep, L.TransferStep, L.OutsideStep, T.Step, Needing;
  }

  /** Every step of the load queue leaves the buffers alone, or is a step of their protocol. */
  lemma OwnFollows(s: State, s': State, a: L.Act, pos: nat) returns (ta: T.Act)
    requires Good(s) && OwnStep(s, s', a, pos)
    ensures s'.b == s.b || (T.Step(s.b, s'.b, ta) && Within(s, ta))
  {
    OwnParts(s, s', a, pos);
    hide Good, OwnStep, QueueStep, Effect, Paired, Marks, O.Sends, O.MoveOf, T.Step, Within;
    ta := T.SyncDevice(true);
    if a.Get? {
      ta := GetFollows(s, s', a, pos);
    } else if O.Sends(s.q, a) {
      ta := LoadFollows(s, s', a, pos);
    } else if Marks(s.q, a) {
      ta := LoadedFollows(s, s', a, pos);
    } else if O.MoveOf(s.q, a) == O.Keep {
      KeepFollows(s, s', a, pos);
    } else {
      ta := ReleaseFollows(s, s', a, pos);
    }
  }

  lemma NeedingIsMine(s: State)
    requires |O.Got(s.q.dispatch)| <= |s.hs|
    ensures Needing(s) <= Mine(s)
  {
  }

  lemma MineIsHeld(s: State)
    requires Paired(s)
    ensures Mine(s) <= s.b.hands.Keys && Ascending(s.hs)
  {
    forall h | h in Mine(s) ensures h in s.b.hands {
      var i :| 0 <= i < |s.hs| && s.hs[i] == h;
      assert PairOk(s.b, s.hs[i], O.Live(s.q)[i]);
    }
  }

  // ---------------------------------------------------------------- the queue's steps keep the agreement

  lemma OwnMovesLive(q: L.State, q': L.State, a: L.Act)
    requires L.QueueOk(q) && QueueStep(q, q', a)
    ensures O.LiveMoved(q, q', a)
  {
    hide O.LiveMoved, L.SubmitStep, L.DispatchStep, L.TransferStep, L.OutsideStep;
    if a.Submit? && L.SubmitStep(q, q', a.task) {
      StillMovesLive(q, q', a);
    } else if L.DispatchStep(q, q', a) {
      O.DispatchMovesLive(q, q', a);
    } else if L.TransferStep(q, q', a) {
      O.TransferMovesLive(q, q', a);
    } else {
      StillMovesLive(q, q', a);
    }
  }

  lemma StillMovesLive(q: L.State, q': L.State, a: L.Act)
    requires (a.Submit? && L.SubmitStep(q, q', a.task)) || ((a.TimesOut? || a.Forget?) && L.OutsideStep(q, q', a))
    ensures O.LiveMoved(q, q', a)
  {
    if a.Submit? {
      L.SubmitIsStill(q, q', a.task);
    } else {
      L.OutsideIsStill(q, q', a);
    }
    O.StillLive(q, q');
  }

  /** What a step of the queue does to the rest of what the two sides share. */
  ghost predicate Shares(q: L.State, q': L.State, a: L.Act) {
    && q'.outside == q.outside
    && q'.backend == (if O.Sends(q, a) then q.backend[q.nextBackend := L.Pending] else q.backend)
    && (!a.Get? ==> q'.ready == if Marks(q, a) then q.ready + {q.current.x.key} else q.ready)
  }

  lemma DispatchShares(q: L.State, q': L.State, a: L.Act)
    requires L.DispatchStep(q, q', a)
    ensures Shares(q, q', a)
  {
    hide L.Done;
    match a
    case Begin => DoneKeepsShares(q.(waiting := q.waiting[1..]), q.waiting[0].id);
    case Load(ok) =>
      var id := q.dispatch.task.id;
      DoneKeepsShares(q.(dispatch := L.NoTask, failure := q.failure + {id}), id);
    case _ =>
  }

  lemma DoneKeepsShares(q: L.State, id: nat)
    ensures var q' := L.Done(q, id); q'.outside == q.outside && q'.backend == q.backend && q'.ready == q.ready
  {
  }

  lemma TransferShares(q: L.State, q': L.State, a: L.Act)
    requires L.TransferStep(q, q', a)
    ensures Shares(q, q', a)
  {
    L.TransferHasEffect(q, q', a);
    if a.Inspect? || a.Poll? || a.WaitBackend? {
      LookChanges(q, q', a);
    } else {
      TransferReady(q, q', a);
    }
    hide L.TransferStep;
  }

  lemma TransferReady(q: L.State, q': L.State, a: L.Act)
    requires L.TransferStep(q, q', a) && !a.Inspect? && !a.Poll? && !a.WaitBackend?
    ensures q'.ready == q.ready
  {
    hide L.Done;
    match a
    case Take => DoneKeepsShares(q.(pend := q.pend[1..]), q.pend[0].id);
    case End =>
      DoneKeepsShares(q.(current := L.Nothing), q.current.x.id);
      DoneKeepsShares(q.(current := L.Nothing, failure := q.failure + {q.current.x.id}), q.current.x.id);
    case _ =>
  }

  lemma QueueShares(q: L.State, q': L.State, a: L.Act)
    requires QueueStep(q, q', a)
    ensures Shares(q, q', a)
  {
    hide L.SubmitStep, L.DispatchStep, L.TransferStep, L.OutsideStep, Shares;
    if a.Submit? && L.SubmitStep(q, q', a.task) {
      StillShares(q, q', a);
    } else if L.DispatchStep(q, q', a) {
      DispatchShares(q, q', a);
    } else if L.TransferStep(q, q', a) {
      TransferShares(q, q', a);
    } else {
      StillShares(q, q', a);
    }
  }

  lemma StillShares(q: L.State, q': L.State, a: L.Act)
    requires (a.Submit? && L.SubmitStep(q, q', a.task)) || ((a.TimesOut? || a.Forget?) && L.OutsideStep(q, q', a))
    ensures Shares(q, q', a)
  {
    if a.Submit? {
      DoneKeepsShares(q.(latch := q.latch[a.task.id := 1], fires := q.fires[a.task.id := 0],
                         sizes := q.sizes[a.task.id := |a.task.keys|], failure := q.failure + {a.task.id}), a.task.id);
    }
  }

  /** Handles that do not go keep their pairing, if the record of writes does. */
  lemma PairsMoved(b: T.State, b': T.State, hs: seq<nat>, xs: seq<L.Shard>, m: O.Move, held: nat, got: nat)
    requires Pairs(b, hs, xs) && held + got <= |hs| && (m == O.DropNext ==> held < |hs|)
    requires forall h :: h in Elements(O.Moved(hs, m, held, got)) ==>
      h in b.hands && h in b'.hands && b'.hands[h] == b.hands[h]
    requires b'.via == b.via
    ensures Pairs(b', O.Moved(hs, m, held, got), O.Moved(xs, m, held, got))
  {
    HandsMoved(hs, m, held, got);
    MovedSizes(hs, xs, m, held, got);
    var hs', xs' := O.Moved(hs, m, held, got), O.Moved(xs, m, held, got);
    hide Ascending, O.Moved, O.Origin, Elements, PairOk;
    forall i | 0 <= i < |hs'| ensures PairOk(b', hs'[i], xs'[i]) {
      OriginMoved(hs, m, held, got, i);
      OriginMoved(xs, m, held, got, i);
      var o := O.Origin(m, held, i);
      assert PairOk(b, hs[o], xs[o]);
      ElementIn(hs', i);
      PairStays(b, b', hs[o], xs[o]);
    }
  }

  lemma MovedSizes(hs: seq<nat>, xs: seq<L.Shard>, m: O.Move, held: nat, got: nat)
    requires |hs| == |xs| && held + got <= |hs| && (m == O.DropNext ==> held < |hs|)
    ensures |O.Moved(hs, m, held, got)| == |O.Moved(xs, m, held, got)|
  {
  }

  lemma OriginMoved<X>(xs: seq<X>, m: O.Move, held: nat, got: nat, i: nat)
    requires held + got <= |xs| && (m == O.DropNext ==> held < |xs|) && i < |O.Moved(xs, m, held, got)|
    ensures O.Origin(m, held, i) < |xs| && O.Moved(xs, m, held, got)[i] == xs[O.Origin(m, held, i)]
  {
  }

  lemma PairStays(b: T.State, b': T.State, h: nat, x: L.Shard)
    requires PairOk(b, h, x) && h in b'.hands && b'.hands[h] == b.hands[h] && b'.via == b.via
    ensures PairOk(b', h, x)
  {
  }

  lemma PairedMoved(s: State, s': State, a: L.Act)
    requires Paired(s) && O.LiveMoved(s.q, s'.q, a) && O.MoveOf(s.q, a) != O.Grow && !O.Sends(s.q, a)
    requires var m, held, got := O.MoveOf(s.q, a), |s.q.held|, |O.Got(s.q.dispatch)|;
      held + got <= |s.hs| && (m == O.DropNext ==> held < |s.hs|) && s'.hs == O.Moved(s.hs, m, held, got)
    requires forall h :: h in Mine(s') ==> h in s.b.hands && h in s'.b.hands && s'.b.hands[h] == s.b.hands[h]
    requires s'.b.via == s.b.via
    ensures Paired(s')
  {
    hide Pairs, O.Live, O.MoveOf, O.Sends, O.Moved;
    PairsMoved(s.b, s'.b, s.hs, O.Live(s.q), O.MoveOf(s.q, a), |s.q.held|, |O.Got(s.q.dispatch)|);
  }

  /** Letting handles go, or doing nothing to the buffers. */
  lemma DropKeepsAgrees(s: State, s': State, a: L.Act, pos: nat)
    requires Agrees(s) && O.LiveMoved(s.q, s'.q, a) && Shares(s.q, s'.q, a) && Effect(s, s', a, pos)
    requires !a.Get? && !O.Sends(s.q, a) && !Marks(s.q, a)
    ensures Agrees(s')
  {
    var m, held, got := O.MoveOf(s.q, a), |s.q.held|, |O.Got(s.q.dispatch)|;
    var gone := Dropping(s.hs, m, held, got);
    MineIsHeld(s);
    HandsMoved(s.hs, m, held, got);
    NotGrow(s.q, a);
    assert s'.b.hands == s.b.hands - gone by {
      KeptMap(s.b.hands);
    }
    hide Paired, O.LiveMoved, O.Live, O.MoveOf, O.Moved, Dropping, Ascending;
    PairedMoved(s, s', a);
    assert Mine(s') == Mine(s) - gone;
    hide Elements;
    HandsGo(s.b, s'.b, Mine(s), gone, s.q.ready, s.q.outside);
  }

  lemma NotGrow(q: L.State, a: L.Act)
    ensures O.MoveOf(q, a) == O.Grow <==> a.Get?
  {
  }

  lemma KeptMap(m: map<nat, T.Hand>)
    ensures m - {} == m
  {
  }

  lemma HandsGo(b: T.State, b': T.State, mine: set<nat>, gone: set<nat>, ready: set<Key>, outside: set<L.Outside>)
    requires b'.hands == b.hands - gone && b'.bufs == b.bufs && gone <= mine
    requires ReadyAgrees(b, ready) && OutsideAgrees(b, mine, outside)
    ensures ReadyAgrees(b', ready) && OutsideAgrees(b', mine - gone, outside)
  {
    forall h | h in b'.hands ensures T.Ready(b', h) <==> b'.hands[h].key in ready {
      assert T.Ready(b, h) <==> b.hands[h].key in ready;
    }
    forall o | o in outside ensures OutOk(b', mine - gone, o) {
      assert OutOk(b, mine, o);
    }
    forall h | h in b'.hands && h !in mine - gone ensures OutsideOf(b', h) in outside {
      assert OutsideOf(b, h) in outside;
    }
  }

  /** A mark of one node, and of its key in the queue's picture. */
  lemma MarkAgrees(b: T.State, h: nat, ready: set<Key>)
    requires T.LiveOk(b) && ReadyAgrees(b, ready) && h in b.hands
    ensures b.hands[h].pos < |b.bufs| && ReadyAgrees(T.SetReady(b, h), ready + {b.hands[h].key})
  {
    var b' := T.SetReady(b, h);
    forall g | g in b'.hands ensures T.Ready(b', g) <==> b'.hands[g].key in ready + {b.hands[h].key} {
      assert T.Ready(b, g) <==> b.hands[g].key in ready;
      assert T.SameKey(b.hands[g], b.hands[h]) ==> b.hands[g].pos == b.hands[h].pos;
    }
  }

  lemma MarkKeepsAgrees(s: State, s': State, a: L.Act, pos: nat)
    requires Good(s) && O.LiveMoved(s.q, s'.q, a) && Shares(s.q, s'.q, a) && Effect(s, s', a, pos)
    requires Marks(s.q, a)
    ensures Agrees(s')
  {
    hide Good, O.LiveMoved, Paired, ReadyAgrees, LoadsAgree, OutsideAgrees;
    GoodParts(s);
    assert O.MoveOf(s.q, a) == O.Keep && !O.Sends(s.q, a);
    LiveParts(s.q);
    CurrentPair(s);
    MarkAgrees(s.b, s.hs[|s.q.held|], s.q.ready);
    MineIsHeld(s);
    PairedMoved(s, s', a);
    OnlyMarks(s.b, s.hs[|s.q.held|], s.q, s'.q, Mine(s));
  }

  lemma OnlyMarks(b: T.State, h: nat, q: L.State, q': L.State, mine: set<nat>)
    requires LoadsAgree(b, q) && OutsideAgrees(b, mine, q.outside) && h in b.hands && b.hands[h].pos < |b.bufs|
    requires q'.backend == q.backend && q'.outside == q.outside
    ensures LoadsAgree(T.SetReady(b, h), q') && OutsideAgrees(T.SetReady(b, h), mine, q'.outside)
  {
    var b' := T.SetReady(b, h);
    forall o | o in q.outside ensures OutOk(b', mine, o) {
      assert OutOk(b, mine, o);
    }
    forall g | g in b'.hands && g !in mine ensures OutsideOf(b', g) in q.outside {
      assert OutsideOf(b, g) in q.outside;
    }
  }

  /** A backend load through the handles of the gathered shards that need it. */
  lemma PairsSent(b: T.State, hs: seq<nat>, pre: seq<L.Shard>, got: seq<L.Shard>, needing: set<nat>, bh: nat)
    requires Pairs(b, hs, pre + got) && bh > 0 && needing <= b.hands.Keys
    requires forall i :: 0 <= i < |got| ==> got[i].bh == 0
    requires needing == set i | 0 <= i < |got| && got[i].needs :: hs[|hs| - |got| + i]
    ensures Pairs(T.Sent(b, needing, bh), hs, pre + L.WithHandle(got, bh))
  {
    var b', xs, xs' := T.Sent(b, needing, bh), pre + got, pre + L.WithHandle(got, bh);
    forall i | 0 <= i < |hs| ensures PairOk(b', hs[i], xs'[i]) {
      assert PairOk(b, hs[i], xs[i]);
      if i < |pre| {
        BeforeGathered(hs, got, needing, i);
        assert xs'[i] == xs[i];
        SentElsewhere(b, needing, bh, hs[i], xs[i]);
      } else {
        NeedingAt(hs, got, needing, i - |pre|);
        assert xs[i] == got[i - |pre|] && xs'[i] == L.WithHandle(got, bh)[i - |pre|];
        SentHere(b, needing, bh, hs[i], xs[i]);
      }
    }
  }

  lemma SentElsewhere(b: T.State, needing: set<nat>, bh: nat, h: nat, x: L.Shard)
    requires PairOk(b, h, x) && h !in needing && needing <= b.hands.Keys
    ensures PairOk(T.Sent(b, needing, bh), h, x)
  {
  }

  lemma SentHere(b: T.State, needing: set<nat>, bh: nat, h: nat, x: L.Shard)
    requires PairOk(b, h, x) && x.bh == 0 && bh > 0 && (h in needing <==> x.needs) && needing <= b.hands.Keys
    ensures PairOk(T.Sent(b, needing, bh), h, if x.needs then x.(bh := bh) else x)
  {
  }

  lemma BeforeGathered(hs: seq<nat>, got: seq<L.Shard>, needing: set<nat>, i: nat)
    requires Ascending(hs) && |got| <= |hs| && i < |hs| - |got|
    requires needing == set i | 0 <= i < |got| && got[i].needs :: hs[|hs| - |got| + i]
    ensures hs[i] !in needing
  {
  }

  lemma NeedingAt(hs: seq<nat>, got: seq<L.Shard>, needing: set<nat>, k: nat)
    requires Ascending(hs) && k < |got| <= |hs|
    requires needing == set i | 0 <= i < |got| && got[i].needs :: hs[|hs| - |got| + i]
    ensures hs[|hs| - |got| + k] in needing <==> got[k].needs
  {
    if hs[|hs| - |got| + k] in needing {
      var i :| 0 <= i < |got| && got[i].needs && hs[|hs| - |got| + i] == hs[|hs| - |got| + k];
    }
  }

  lemma SendKeepsAgrees(s: State, s': State, a: L.Act, pos: nat)
    requires Good(s) && O.LiveMoved(s.q, s'.q, a) && Shares(s.q, s'.q, a) && Effect(s, s', a, pos)
    requires O.Sends(s.q, a)
    ensures Agrees(s')
  {
    hide Good, QueueGood, T.Good, L.Inv, O.OwnersOk, Unmarked, Settled, Pairs;
    GoodParts(s);
    SendFacts(s.q, a);
    var got, bh := O.Got(s.q.dispatch), s.q.nextBackend;
    assert O.Live(s.q) == s.q.held + L.Stream(s.q) + got;
    hide O.Live, O.MoveOf, L.Stream, Marks;
    PairsSent(s.b, s.hs, s.q.held + L.Stream(s.q), got, Needing(s), bh);
    hide L.WithHandle, L.NeedsBackend, Needing;
    OnlySends(s.b, Needing(s), s.q, s'.q, Mine(s));
  }

  lemma SendFacts(q: L.State, a: L.Act)
    requires QueueGood(q) && O.Sends(q, a)
    ensures q.nextBackend > 0 && forall i :: 0 <= i < |O.Got(q.dispatch)| ==> O.Got(q.dispatch)[i].bh == 0
    ensures !Marks(q, a) && O.MoveOf(q, a) == O.Keep
  {
    assert L.GotOk(q.dispatch) && L.HandlesOk(q);
  }

  lemma OnlySends(b: T.State, hs: set<nat>, q: L.State, q': L.State, mine: set<nat>)
    requires LoadsAgree(b, q) && OutsideAgrees(b, mine, q.outside) && ReadyAgrees(b, q.ready) && hs <= b.hands.Keys
    requires q'.backend == q.backend[q.nextBackend := L.Pending] && q'.outside == q.outside && q'.ready == q.ready
    ensures var b' := T.Sent(b, hs, q.nextBackend);
      LoadsAgree(b', q') && OutsideAgrees(b', mine, q'.outside) && ReadyAgrees(b', q'.ready)
  {
    var b' := T.Sent(b, hs, q.nextBackend);
    forall o | o in q.outside ensures OutOk(b', mine, o) {
      assert OutOk(b, mine, o);
    }
    forall g | g in b'.hands && g !in mine ensures OutsideOf(b', g) in q.outside {
      assert OutsideOf(b, g) in q.outside;
    }
    forall h | h in b'.hands ensures T.Ready(b', h) <==> b'.hands[h].key in q.ready {
      assert T.Ready(b, h) <==> b.hands[h].key in q.ready;
    }
  }

  // ---------------------------------------------------------------- pinning a node, by anyone

  predicate KeyHeld(b: T.State, key: Key) {
    exists h :: h in b.hands && b.hands[h].key == key
  }

  /** The queue's picture of who holds a key is right. */
  lemma PinnedIsHeld(s: State, key: Key)
    requires Agrees(s)
    ensures L.Pinned(s.q, key) <==> KeyHeld(s.b, key)
  {
    if L.Pinned(s.q, key) {
      PinnedMeans(s.q, key);
      if i :| 0 <= i < |O.Live(s.q)| && O.Live(s.q)[i].key == key {
        assert PairOk(s.b, s.hs[i], O.Live(s.q)[i]);
      } else {
        var o :| o in s.q.outside && o.key == key;
        assert OutOk(s.b, Mine(s), o);
      }
    }
    if KeyHeld(s.b, key) {
      var h :| h in s.b.hands && s.b.hands[h].key == key;
      if h in Mine(s) {
        var i :| 0 <= i < |s.hs| && s.hs[i] == h;
        assert PairOk(s.b, s.hs[i], O.Live(s.q)[i]);
        O.LiveIsPinned(s.q, i);
      } else {
        assert OutsideOf(s.b, h) in s.q.outside;
      }
    }
  }

  lemma PinnedMeans(q: L.State, key: Key)
    requires L.Pinned(q, key)
    ensures (exists i :: 0 <= i < |O.Live(q)| && O.Live(q)[i].key == key) || exists o :: o in q.outside && o.key == key
  {
    LiveParts(q);
    hide O.Live;
    var i := |q.held| + |L.Stream(q)|;
    if j :| 0 <= j < |q.pend| && q.pend[j].key == key {
      assert O.Live(q)[i - |q.pend| + j] == q.pend[j];
    } else if j :| 0 <= j < |q.held| && q.held[j].key == key {
      assert O.Live(q)[j] == q.held[j];
    } else if q.current.Working? && q.current.x.key == key {
      assert O.Live(q)[|q.held|] == q.current.x;
    } else if q.dispatch.Getting? {
      if j :| 0 <= j < |q.dispatch.got| && q.dispatch.got[j].key == key {
        assert O.Live(q)[i + j] == O.Got(q.dispatch)[j];
      }
    }
  }

  /** A get finds the key held exactly if it becomes no owner, and then leaves the nodes alone. */
  lemma GetOwner(b: T.State, b': T.State, key: Key, pos: nat)
    requires T.LiveOk(b) && T.Step(b, b', T.Get(key, pos))
    ensures b.nextHand !in b.hands && b'.hands == b.hands[b.nextHand := T.Hand(pos, !KeyHeld(b, key), key)]
    ensures KeyHeld(b, key) ==> b'.bufs == b.bufs
    ensures pos < |b.bufs| == |b'.bufs| && b'.via == b.via && b'.loads == b.loads
    ensures forall h :: h in b.hands && b.hands[h].pos == pos ==> b'.bufs == b.bufs && b.hands[h].key == key
    ensures forall p :: 0 <= p < |b.bufs| && p != pos ==> b'.bufs[p] == b.bufs[p]
  {
    if KeyHeld(b, key) {
      var h :| h in b.hands && b.hands[h].key == key;
      assert b.hands[h].pos == pos;
    }
    if T.HeldAt(b, pos) {
      var h :| h in b.hands && b.hands[h].pos == pos;
      assert b.bufs[pos].key == b.hands[h].key;
      assert KeyHeld(b, key);
    }
    forall h | h in b.hands && b.hands[h].pos == pos ensures T.HeldAt(b, pos) {
    }
  }

  lemma GetReady(b: T.State, b': T.State, key: Key, pos: nat, q: L.State)
    requires T.LiveOk(b) && T.Step(b, b', T.Get(key, pos)) && ReadyAgrees(b, q.ready)
    requires L.Pinned(q, key) <==> KeyHeld(b, key)
    ensures |b'.bufs| == |b.bufs| && pos < |b.bufs|
    ensures ReadyAgrees(b', L.ReadyAfterGet(q, key, b'.bufs[pos].ready))
  {
    GetOwner(b, b', key, pos);
    hide T.Step, T.GetStep, L.Pinned;
    var ready' := L.ReadyAfterGet(q, key, b'.bufs[pos].ready);
    forall h | h in b'.hands ensures T.Ready(b', h) <==> b'.hands[h].key in ready' {
      if h in b.hands {
        assert T.Ready(b, h) <==> b.hands[h].key in q.ready;
        assert b.hands[h].pos < |b.bufs|;
      } else if KeyHeld(b, key) {
        var g :| g in b.hands && b.hands[g].key == key;
        assert T.Ready(b, g) <==> key in q.ready;
        HolderIsThere(b, b', key, pos, g);
      }
    }
  }

  lemma HolderIsThere(b: T.State, b': T.State, key: Key, pos: nat, g: nat)
    requires T.GetStep(b, b', key, pos) && g in b.hands && b.hands[g].key == key
    ensures b.hands[g].pos == pos
  {
  }
}
