/**
 What callers of the shared transfer buffer get, in every run: which handle a `Get` returns and who
 owns the node, what `Exist` answers, and when a node is ready.
 */
module SharedTransBufferCalls {
  import opened Wrappers
  import opened Arithmetic
  import opened BufferIndex
  import opened SharedTransBuffer
  import opened SharedTransBufferSteps
  import opened SharedTransBufferTheorems

  // ---------------------------------------------------------------- runs and their acts

  /** One act and the thread that takes it. */
  datatype Turn = Turn(t: nat, a: Act)

  ghost predicate Turns(c: Config, run: seq<State>, turns: seq<Turn>) {
    && ConfigOk(c) && |run| == |turns| + 1 && Init(c, run[0])
    && forall n :: 0 <= n < |turns| ==> TurnOk(c, run[n], run[n + 1], turns[n])
  }

  ghost predicate TurnOk(c: Config, s: State, s': State, turn: Turn) {
    ConfigOk(c) && Sized(c, s) && Step(c, s, s', turn.t, turn.a)
  }

  lemma TurnsKeepInv(c: Config, run: seq<State>, turns: seq<Turn>)
    requires Turns(c, run, turns)
    ensures forall n :: 0 <= n < |run| ==> Inv(c, run[n])
  {
    hide Inv, Init, Step;
    forall n | 0 <= n < |run| - 1 ensures Next(c, run[n], run[n + 1]) {
      assert TurnOk(c, run[n], run[n + 1], turns[n]);
    }
    RunKeepsInv(c, run);
  }

  lemma TurnAt(c: Config, run: seq<State>, turns: seq<Turn>, n: nat)
    requires Turns(c, run, turns) && n < |turns|
    ensures Inv(c, run[n]) && Inv(c, run[n + 1]) && Step(c, run[n], run[n + 1], turns[n].t, turns[n].a)
  {
    TurnsKeepInv(c, run, turns);
    hide Inv, Step;
    assert TurnOk(c, run[n], run[n + 1], turns[n]);
  }

  // ---------------------------------------------------------------- ready marks

  /** `MarkReady` through a handle at node i. */
  predicate Marks(s: State, turn: Turn, i: nat) {
    && turn.a.OpDo? && turn.t < |s.threads|
    && s.threads[turn.t].OpAt? && s.threads[turn.t].op.MarkReady? && s.threads[turn.t].h.pos == i
  }

  /** An allocation hands out node i. */
  predicate Allocates(s: State, turn: Turn, i: nat) {
    turn.a.ClaimNode? && turn.t < |s.threads| && s.threads[turn.t].Claim? && s.threads[turn.t].i == i
  }

  /** What a turn does to the mark of node i. */
  predicate ReadyMoves(s: State, s': State, turn: Turn, i: nat)
    requires i < |s.nodes| == |s'.nodes|
  {
    var m, m' := s.nodes[i], s'.nodes[i];
    && (Marks(s, turn, i) ==> m'.ready)
    && (Allocates(s, turn, i) ==> !m'.ready && m'.reference == m.reference + 1 && m'.key == s.threads[turn.t].key)
    && (!Marks(s, turn, i) && !Allocates(s, turn, i) ==> m'.ready == m.ready)
    && (!Allocates(s, turn, i) ==> m'.key == m.key)
  }

  lemma ReadyCalm(c: Config, s: State, s': State, t: nat, a: Act, i: nat)
    requires ConfigOk(c) && Sized(c, s) && t < |s.threads| && i < c.nodes
    requires StepEnter(c, s, s', t, a) || StepScan(c, s, s', t, a) || StepCand(c, s, s', t, a)
    ensures |s.nodes| == |s'.nodes| && ReadyMoves(s, s', Turn(t, a), i)
  {
  }

  lemma ReadyCut(c: Config, s: State, s': State, t: nat, a: Act, i: nat)
    requires ConfigOk(c) && Sized(c, s) && t < |s.threads| && i < c.nodes && StepCut(c, s, s', t, a)
    ensures |s.nodes| == |s'.nodes| && ReadyMoves(s, s', Turn(t, a), i)
  {
  }

  lemma ReadyLink(c: Config, s: State, s': State, t: nat, a: Act, i: nat)
    requires ConfigOk(c) && Sized(c, s) && t < |s.threads| && i < c.nodes && StepLink(c, s, s', t, a)
    ensures |s.nodes| == |s'.nodes| && ReadyMoves(s, s', Turn(t, a), i)
  {
  }

  lemma ReadyOp(c: Config, s: State, s': State, t: nat, a: Act, i: nat)
    requires ConfigOk(c) && Sized(c, s) && t < |s.threads| && i < c.nodes && StepOp(c, s, s', t, a)
    ensures |s.nodes| == |s'.nodes| && ReadyMoves(s, s', Turn(t, a), i)
  {
  }

  lemma ReadyTurn(c: Config, s: State, s': State, t: nat, a: Act, i: nat)
    requires ConfigOk(c) && Sized(c, s) && Step(c, s, s', t, a) && i < c.nodes
    ensures |s.nodes| == |s'.nodes| && ReadyMoves(s, s', Turn(t, a), i)
  {
    hide StepEnter, StepScan, StepCand, StepCut, StepLink, StepOp, ReadyMoves;
    if StepCut(c, s, s', t, a) {
      ReadyCut(c, s, s', t, a, i);
    } else if StepLink(c, s, s', t, a) {
      ReadyLink(c, s, s', t, a, i);
    } else if StepOp(c, s, s', t, a) {
      ReadyOp(c, s, s', t, a, i);
    } else {
      ReadyCalm(c, s, s', t, a, i);
    }
  }

  lemma AllocatesUnpinned(c: Config, s: State, turn: Turn, i: nat)
    requires Inv(c, s) && Allocates(s, turn, i)
    ensures i < |s.nodes| && s.nodes[i].reference == 0
  {
    assert PCOk(c, s, turn.t);
  }

  /**
   A mark appears by `MarkReady` and nothing else. It is gone, whatever it was, once an allocation
   hands the node out, which is also the only way to a new key; and nothing else takes it away.
   */
  lemma ReadyStep(c: Config, s: State, s': State, t: nat, a: Act, i: nat)
    requires Inv(c, s) && Step(c, s, s', t, a) && i < c.nodes
    ensures i < |s.nodes| == |s'.nodes|
    ensures s'.nodes[i].ready && !s.nodes[i].ready ==> Marks(s, Turn(t, a), i)
    ensures Marks(s, Turn(t, a), i) ==> s'.nodes[i].ready
    ensures s'.nodes[i].key != s.nodes[i].key ==> Allocates(s, Turn(t, a), i)
    ensures Allocates(s, Turn(t, a), i) ==>
      !s'.nodes[i].ready && s.nodes[i].reference == 0 && s'.nodes[i].reference == 1 && s'.nodes[i].key == s.threads[t].key
    ensures s.nodes[i].ready && !s'.nodes[i].ready ==> Allocates(s, Turn(t, a), i)
  {
    ReadyTurn(c, s, s', t, a, i);
    if Allocates(s, Turn(t, a), i) {
      AllocatesUnpinned(c, s, Turn(t, a), i);
    }
    hide Inv, Step;
  }

  /** At turn k a handle for the node's present key marked node i, which no allocation has handed out since. */
  ghost predicate MarkedAt(run: seq<State>, turns: seq<Turn>, k: nat, n: nat, i: nat)
    requires |run| == |turns| + 1 && k < n < |run| && i < |run[n].nodes|
  {
    && Marks(run[k], turns[k], i)
    && run[k].threads[turns[k].t].h in run[k].live && run[k].threads[turns[k].t].h.key == run[n].nodes[i].key
    && forall l :: k < l < n ==> !Allocates(run[l], turns[l], i)
  }

  /**
   In every run a node is ready exactly if a handle for its present key has marked it since it was
   last handed out by an allocation.
   */
  lemma {:induction false} ReadyExact(c: Config, run: seq<State>, turns: seq<Turn>, n: nat, i: nat)
    requires Turns(c, run, turns) && n < |run| && i < c.nodes
    ensures i < |run[n].nodes|
    ensures run[n].nodes[i].ready <==> exists k: nat :: k < n && MarkedAt(run, turns, k, n, i)
    decreases n
  {
    hide *;
    StartsUnready(c, run, turns, i);
    if n > 0 {
      var m: nat := n - 1;
      ReadyExact(c, run, turns, m, i);
      TurnAt(c, run, turns, m);
      SameSize(c, run[m], run[n]);
      MarkedNow(c, run, turns, m, i);
      forall k: nat | k < m
        ensures MarkedAt(run, turns, k, n, i) <==> MarkedAt(run, turns, k, m, i) && !Allocates(run[m], turns[m], i)
      {
        MarkedStill(c, run, turns, k, m, i);
      }
    }
  }

  lemma StartsUnready(c: Config, run: seq<State>, turns: seq<Turn>, i: nat)
    requires Turns(c, run, turns) && i < c.nodes
    ensures |run| == |turns| + 1 && i < |run[0].nodes| && !run[0].nodes[i].ready
  {
    hide TurnOk;
  }

  lemma SameSize(c: Config, s: State, s': State)
    requires Inv(c, s) && Inv(c, s')
    ensures |s.nodes| == |s'.nodes| == c.nodes
  {
    hide LocksOk, ShapeOk, PlaceOk, KeysOk, PCsOk, PinsOk;
  }

  /** The last turn marks the node, clears it, or leaves it. */
  lemma MarkedNow(c: Config, run: seq<State>, turns: seq<Turn>, m: nat, i: nat)
    requires m < |turns| && |run| == |turns| + 1 && Inv(c, run[m]) && i < c.nodes
    requires Step(c, run[m], run[m + 1], turns[m].t, turns[m].a)
    ensures i < |run[m].nodes| == |run[m + 1].nodes|
    ensures Marks(run[m], turns[m], i) <==> MarkedAt(run, turns, m, m + 1, i)
    ensures run[m + 1].nodes[i].ready <==>
      MarkedAt(run, turns, m, m + 1, i) || (run[m].nodes[i].ready && !Allocates(run[m], turns[m], i))
  {
    ReadyTurn(c, run[m], run[m + 1], turns[m].t, turns[m].a, i);
    if Marks(run[m], turns[m], i) {
      MarkHasKey(c, run[m], turns[m], i);
    }
    hide Inv, Step;
  }

  lemma MarkedStill(c: Config, run: seq<State>, turns: seq<Turn>, k: nat, m: nat, i: nat)
    requires k < m < |turns| && |run| == |turns| + 1 && Inv(c, run[m]) && i < c.nodes
    requires Step(c, run[m], run[m + 1], turns[m].t, turns[m].a)
    ensures i < |run[m].nodes| == |run[m + 1].nodes|
    ensures MarkedAt(run, turns, k, m + 1, i) <==> MarkedAt(run, turns, k, m, i) && !Allocates(run[m], turns[m], i)
  {
    ReadyTurn(c, run[m], run[m + 1], turns[m].t, turns[m].a, i);
    hide Inv, Step, Allocates, Marks;
  }

  lemma MarkHasKey(c: Config, s: State, turn: Turn, i: nat)
    requires Inv(c, s) && Marks(s, turn, i)
    ensures i < |s.nodes| && s.threads[turn.t].h in s.live && s.threads[turn.t].h.key == s.nodes[i].key
  {
    assert PCOk(c, s, turn.t);
  }

  /** So what an allocation hands out is unready until somebody marks it through a handle for its new key. */
  lemma AllocatedIsUnready(c: Config, run: seq<State>, turns: seq<Turn>, m: nat, n: nat, i: nat)
    requires Turns(c, run, turns) && m < n < |run| && i < c.nodes && Allocates(run[m], turns[m], i)
    ensures i < |run[n].nodes|
    ensures run[n].nodes[i].ready ==> exists k: nat :: m < k < n && MarkedAt(run, turns, k, n, i)
  {
    ReadyExact(c, run, turns, n, i);
    hide Turns;
    if run[n].nodes[i].ready {
      var k: nat :| k < n && MarkedAt(run, turns, k, n, i);
      assert k != m;
    }
  }

  // ---------------------------------------------------------------- handles and owners

  /** `Get` is about to make its handle: it found the key, or has allocated a node for it. */
  predicate Gives(s: State, turn: Turn) {
    && turn.t < |s.threads|
    && var pc := s.threads[turn.t];
    (turn.a.ScanHit? && pc.ScanAt? && pc.get) || (turn.a.ClaimNode? && pc.Claim?)
  }

  predicate Copies(s: State, turn: Turn) {
    turn.t < |s.threads| && turn.a.OpDo? && s.threads[turn.t].OpAt? && s.threads[turn.t].op.Copy?
  }

  /** A copy, or the same handle with another holder. */
  predicate Alike(g: Handle, h: Handle) {
    g.pos == h.pos && g.owner == h.owner && g.key == h.key && g.origin == h.origin
  }

  /** Every handle that a turn leaves alive is like one that was, but for the one that a `Get` returns. */
  ghost predicate HandlesMove(s: State, s': State, turn: Turn) {
    if Gives(s, turn) then
      && turn.t < |s'.threads| && s'.threads[turn.t].Answer? && s'.threads[turn.t].reply.Got?
      && var h := s'.threads[turn.t].reply.h;
      && s'.threads[turn.t] == Answer(s.threads[turn.t].key, true, Got(h)) && s'.live == s.live + {h}
      && h.pos == s.threads[turn.t].i && h.key == s.threads[turn.t].key && h.holder == turn.t
      && h.id == h.origin == s.nextId && s'.nextId == s.nextId + 1
    else
      && s'.nextId == s.nextId + (if Copies(s, turn) then 1 else 0)
      && forall h :: h in s'.live ==> WasThere(s.live, h)
  }

  predicate WasThere(live: set<Handle>, h: Handle) {
    exists g :: g in live && Alike(g, h)
  }

  lemma HandlesCalm(c: Config, s: State, s': State, t: nat, a: Act)
    requires ConfigOk(c) && Sized(c, s) && t < |s.threads|
    requires StepEnter(c, s, s', t, a) || StepCand(c, s, s', t, a) || StepCut(c, s, s', t, a)
    ensures HandlesMove(s, s', Turn(t, a))
  {
    assert s'.live == s.live && s'.nextId == s.nextId;
    assert forall h :: h in s.live ==> Alike(h, h);
  }

  lemma HandlesScan(c: Config, s: State, s': State, t: nat, a: Act)
    requires ConfigOk(c) && Sized(c, s) && t < |s.threads| && StepScan(c, s, s', t, a)
    ensures HandlesMove(s, s', Turn(t, a))
  {
    assert forall h :: h in s.live ==> Alike(h, h);
  }

  lemma HandlesLink(c: Config, s: State, s': State, t: nat, a: Act)
    requires ConfigOk(c) && Sized(c, s) && t < |s.threads| && StepLink(c, s, s', t, a)
    ensures HandlesMove(s, s', Turn(t, a))
  {
    assert forall h :: h in s.live ==> Alike(h, h);
  }

  lemma HandlesOp(c: Config, s: State, s': State, t: nat, a: Act)
    requires ConfigOk(c) && Sized(c, s) && t < |s.threads| && PCOk(c, s, t) && StepOp(c, s, s', t, a)
    ensures HandlesMove(s, s', Turn(t, a))
  {
    forall h | h in s'.live ensures WasThere(s.live, h) {
      if h in s.live {
        assert Alike(h, h);
      } else if a.Give? {
        assert Alike(a.h, h);
      } else {
        assert Alike(s.threads[t].h, h);
      }
    }
  }

  lemma HandlesTurn(c: Config, s: State, s': State, t: nat, a: Act)
    requires Inv(c, s) && Step(c, s, s', t, a)
    ensures HandlesMove(s, s', Turn(t, a))
  {
    assert PCOk(c, s, t);
    hide Inv, StepEnter, StepScan, StepCand, StepCut, StepLink, StepOp, HandlesMove;
    if StepScan(c, s, s', t, a) {
      HandlesScan(c, s, s', t, a);
    } else if StepLink(c, s, s', t, a) {
      HandlesLink(c, s, s', t, a);
    } else if StepOp(c, s, s', t, a) {
      HandlesOp(c, s, s', t, a);
    } else {
      HandlesCalm(c, s, s', t, a);
    }
  }

  /** The handle of a `Get`: for its key, the owner exactly if nobody held the node, and counted so. */
  lemma GetGives(c: Config, s: State, s': State, t: nat, a: Act)
    requires Inv(c, s) && Step(c, s, s', t, a) && Gives(s, Turn(t, a))
    ensures |s'.threads| == |s.threads| && s'.threads[t].Answer? && s'.threads[t].reply.Got?
    ensures var h := s'.threads[t].reply.h;
      && h !in s.live && s'.live == s.live + {h} && h.holder == t && h.key == s.threads[t].key
      && h.pos < |s'.nodes| == |s.nodes| == |s'.grants| == |s.grants| && s'.nodes[h.pos].key == h.key
      && (h.owner <==> HandlesAt(s, h.pos) == {})
      && s'.grants == s.grants[h.pos := s.grants[h.pos] + if h.owner then 1 else 0]
      && (a.ClaimNode? ==> h.owner && !s'.nodes[h.pos].ready)
  {
    assert PCOk(c, s, t);
    HandlesTurn(c, s, s', t, a);
    var i := s.threads[t].i;
    GiverAt(c, s, s', t, a);
    FreshIsNew(c, s);
    hide Inv, Step, PCOk;
  }

  lemma FreshIsNew(c: Config, s: State)
    requires Inv(c, s)
    ensures forall h :: h in s.live ==> h.id < s.nextId
  {
    hide LocksOk, ShapeOk, PlaceOk, KeysOk, PCsOk;
  }

  lemma GiverAt(c: Config, s: State, s': State, t: nat, a: Act)
    requires Inv(c, s) && Step(c, s, s', t, a) && Gives(s, Turn(t, a))
    ensures t < |s'.threads| && s'.threads[t].Answer? && s'.threads[t].reply.Got?
    ensures var h, i := s'.threads[t].reply.h, s.threads[t].i;
      && 0 <= i < |s.nodes| == |s'.nodes| == |s.grants| && h.pos == i && s'.nodes[i].key == s.threads[t].key
      && (h.owner <==> HandlesAt(s, i) == {})
      && s'.grants == s.grants[i := s.grants[i] + if h.owner then 1 else 0]
      && (a.ClaimNode? ==> h.owner && !s'.nodes[i].ready)
  {
    assert PCOk(c, s, t);
    var i := s.threads[t].i;
    assert s.nodes[i].reference == |HandlesAt(s, i)|;
    hide LocksOk, ShapeOk, PlaceOk, KeysOk, PCsOk, PCOk;
  }

  /** Handles of one `Get` are alike, and two owners of one node are handles of one `Get`. */
  ghost predicate OwnersOk(s: State) {
    && (forall h :: h in s.live ==> h.origin < s.nextId)
    && (forall g, h :: g in s.live && h in s.live && g.origin == h.origin ==> Alike(g, h))
    && (forall g, h :: g in s.live && h in s.live && BothOwn(g, h) ==> g.origin == h.origin)
  }

  predicate BothOwn(g: Handle, h: Handle) {
    g.pos == h.pos && g.owner && h.owner
  }

  lemma OwnersCopied(s: State, s': State)
    requires OwnersOk(s) && s.nextId <= s'.nextId && forall h :: h in s'.live ==> WasThere(s.live, h)
    ensures OwnersOk(s')
  {
    forall g, h | g in s'.live && h in s'.live && (g.origin == h.origin || BothOwn(g, h))
      ensures Alike(g, h) || g.origin == h.origin
      ensures g.origin == h.origin ==> Alike(g, h)
    {
      var g0 :| g0 in s.live && Alike(g0, g);
      var h0 :| h0 in s.live && Alike(h0, h);
      assert g0.origin == h0.origin ==> Alike(g0, h0);
      assert BothOwn(g0, h0) <==> BothOwn(g, h);
    }
  }

  lemma OwnersGrow(s: State, s': State, n: Handle)
    requires OwnersOk(s) && s'.live == s.live + {n} && s'.nextId == s.nextId + 1 && n.origin == s.nextId
    requires n.owner ==> HandlesAt(s, n.pos) == {}
    ensures OwnersOk(s')
  {
    forall h | h in s.live ensures !BothOwn(n, h) && !BothOwn(h, n) {
      assert h in HandlesAt(s, h.pos);
    }
    forall g, h | g in s'.live && h in s'.live && g.origin == h.origin ensures Alike(g, h) {
    }
  }

  lemma StepKeepsOwners(c: Config, s: State, s': State, t: nat, a: Act)
    requires Inv(c, s) && Step(c, s, s', t, a) && OwnersOk(s)
    ensures OwnersOk(s')
  {
    hide Inv, Step, OwnersOk, HandlesAt;
    HandlesTurn(c, s, s', t, a);
    if Gives(s, Turn(t, a)) {
      GetGives(c, s, s', t, a);
      OwnersGrow(s, s', s'.threads[t].reply.h);
    } else {
      OwnersCopied(s, s');
    }
  }

  lemma {:induction false} RunKeepsOwners(c: Config, run: seq<State>, turns: seq<Turn>, n: nat)
    requires Turns(c, run, turns) && n < |run|
    ensures OwnersOk(run[n])
    decreases n
  {
    hide *;
    StartsUnowned(c, run, turns);
    if n > 0 {
      RunKeepsOwners(c, run, turns, n - 1);
      TurnAt(c, run, turns, n - 1);
      StepKeepsOwners(c, run[n - 1], run[n], turns[n - 1].t, turns[n - 1].a);
    }
  }

  lemma StartsUnowned(c: Config, run: seq<State>, turns: seq<Turn>)
    requires Turns(c, run, turns)
    ensures |run| == |turns| + 1 && run[0].live == {} && OwnersOk(run[0])
  {
    hide TurnOk;
  }

  /** The `Get` of turn k returned the handle that h is, or was copied from. */
  ghost predicate GivenAt(run: seq<State>, turns: seq<Turn>, k: nat, h: Handle)
    requires k < |turns| && |run| == |turns| + 1
  {
    && Gives(run[k], turns[k]) && turns[k].t < |run[k + 1].threads|
    && run[k + 1].threads[turns[k].t].Answer? && run[k + 1].threads[turns[k].t].reply.Got?
    && Alike(run[k + 1].threads[turns[k].t].reply.h, h)
    && (h.owner <==> HandlesAt(run[k], h.pos) == {})
  }

  lemma {:induction false} EveryHandleGiven(c: Config, run: seq<State>, turns: seq<Turn>, n: nat, h: Handle)
    requires Turns(c, run, turns) && n < |run| && h in run[n].live
    ensures |run| == |turns| + 1 && exists k: nat :: k < n && GivenAt(run, turns, k, h)
    decreases n
  {
    hide *;
    StartsUnowned(c, run, turns);
    var m := n - 1;
    TurnAt(c, run, turns, m);
    HandlesTurn(c, run[m], run[n], turns[m].t, turns[m].a);
    if Gives(run[m], turns[m]) {
      GetGives(c, run[m], run[n], turns[m].t, turns[m].a);
    }
    var g := HandleFrom(run[m], run[n], turns[m], h);
    if g in run[m].live && Alike(g, h) {
      EveryHandleGiven(c, run, turns, m, g);
      var k: nat :| k < m && GivenAt(run, turns, k, g);
      GivenAlike(run, turns, k, g, h);
    } else {
      NewIsGiven(run, turns, m, h);
    }
  }

  lemma GivenAlike(run: seq<State>, turns: seq<Turn>, k: nat, g: Handle, h: Handle)
    requires k < |turns| && |run| == |turns| + 1 && GivenAt(run, turns, k, g) && Alike(g, h)
    ensures GivenAt(run, turns, k, h)
  {
    hide HandlesAt, Gives;
  }

  lemma NewIsGiven(run: seq<State>, turns: seq<Turn>, m: nat, h: Handle)
    requires m < |turns| && |run| == |turns| + 1 && HandlesMove(run[m], run[m + 1], turns[m])
    requires Gives(run[m], turns[m]) && h == run[m + 1].threads[turns[m].t].reply.h
    requires h.owner <==> HandlesAt(run[m], h.pos) == {}
    ensures GivenAt(run, turns, m, h)
  {
    hide HandlesAt, Gives;
  }

  lemma HandleFrom(s: State, s': State, turn: Turn, h: Handle) returns (g: Handle)
    requires HandlesMove(s, s', turn) && h in s'.live
    ensures (g in s.live && Alike(g, h))
      || (Gives(s, turn) && turn.t < |s'.threads| && s'.threads[turn.t].Answer?
          && s'.threads[turn.t].reply.Got? && h == s'.threads[turn.t].reply.h)
  {
    g := h;
    if WasThere(s.live, h) {
      g :| g in s.live && Alike(g, h);
    } else {
      assert Alike(h, h);
    }
  }

  /**
   In every run the owners of a node are the handles of one `Get`, the one that found nobody at the
   node; every other handle comes from a `Get` that found somebody.
   */
  lemma OneOwner(c: Config, run: seq<State>, turns: seq<Turn>, n: nat, g: Handle, h: Handle)
    requires Turns(c, run, turns) && n < |run| && g in run[n].live && h in run[n].live
    ensures |run| == |turns| + 1
    ensures g.pos == h.pos && g.owner && h.owner ==> g.origin == h.origin
    ensures exists k: nat :: k < n && GivenAt(run, turns, k, h)
  {
    RunKeepsOwners(c, run, turns, n);
    EveryHandleGiven(c, run, turns, n, h);
    hide Turns, GivenAt;
    assert g.pos == h.pos && g.owner && h.owner ==> BothOwn(g, h);
  }

  // ---------------------------------------------------------------- calls

  /** The call a thread is in: its key, and whether it is `Get` or `Exist`. */
  function CallOf(pc: PC): Option<(Key, bool)> {
    match pc
    case WantBucket(key, get) => Some((key, get))
    case Scan(key, get, _, _) => Some((key, get))
    case ScanAt(key, get, _, _) => Some((key, get))
    case Answer(key, get, _) => Some((key, get))
    case Idle => None
    case Op(_, _) => None
    case OpAt(_, _) => None
    case _ => Some((pc.key, true))
  }

  predicate Enters(a: Act) {
    a.Begin? || a.Return?
  }

  lemma CallGroup(c: Config, s: State, s': State, t: nat, a: Act)
    requires ConfigOk(c) && Sized(c, s) && t < |s.threads|
    requires StepEnter(c, s, s', t, a) || StepScan(c, s, s', t, a) || StepCand(c, s, s', t, a)
    ensures CallMoves(s, s', Turn(t, a))
  {
  }

  lemma CallCut(c: Config, s: State, s': State, t: nat, a: Act)
    requires ConfigOk(c) && Sized(c, s) && t < |s.threads| && StepCut(c, s, s', t, a)
    ensures CallMoves(s, s', Turn(t, a))
  {
  }

  lemma CallLink(c: Config, s: State, s': State, t: nat, a: Act)
    requires ConfigOk(c) && Sized(c, s) && t < |s.threads| && StepLink(c, s, s', t, a)
    ensures CallMoves(s, s', Turn(t, a))
  {
  }

  lemma CallOp(c: Config, s: State, s': State, t: nat, a: Act)
    requires ConfigOk(c) && Sized(c, s) && t < |s.threads| && StepOp(c, s, s', t, a)
    ensures CallMoves(s, s', Turn(t, a))
  {
  }

  /** A turn moves its own thread only, and only the beginning and the return of a call change which call it is in. */
  predicate CallMoves(s: State, s': State, turn: Turn) {
    && turn.t < |s.threads| == |s'.threads|
    && (forall u :: 0 <= u < |s.threads| && u != turn.t ==> s'.threads[u] == s.threads[u])
    && var pc, pc' := s.threads[turn.t], s'.threads[turn.t];
    && (match turn.a
        case Begin(key, get) => pc.Idle? && CallOf(pc') == Some((key, get)) && pc'.WantBucket?
        case Return => pc.Answer? && pc'.Idle?
        case _ => CallOf(pc') == CallOf(pc))
    && (pc'.Answer? && pc'.get ==> Gives(s, turn)) && !(pc.Answer? && pc'.Answer?)
  }

  lemma CallTurn(c: Config, s: State, s': State, t: nat, a: Act)
    requires ConfigOk(c) && Sized(c, s) && Step(c, s, s', t, a)
    ensures CallMoves(s, s', Turn(t, a))
  {
    hide StepEnter, StepScan, StepCand, StepCut, StepLink, StepOp, CallMoves;
    if StepCut(c, s, s', t, a) {
      CallCut(c, s, s', t, a);
    } else if StepLink(c, s, s', t, a) {
      CallLink(c, s, s', t, a);
    } else if StepOp(c, s, s', t, a) {
      CallOp(c, s, s', t, a);
    } else {
      CallGroup(c, s, s', t, a);
    }
  }

  /** When `Exist` is about to return, its answer is right. */
  lemma ExistExact(c: Config, s: State, t: nat)
    requires Inv(c, s) && t < |s.threads| && s.threads[t].Answer? && s.threads[t].reply.Found?
    ensures !s.threads[t].get
    ensures s.threads[t].reply.yes <==> exists i :: StandsFor(s, i, s.threads[t].key)
  {
    var key := s.threads[t].key;
    var b, ch := c.hash(key), s.chains[c.hash(key)];
    assert PCOk(c, s, t);
    assert HoldsBucket(c, s.threads[t], b) <==> s.bucketLock[b] == t;
    assert Chain(s.nodes, s.first[b], ch, b, DisturbAt(c, s, b));
    if !Absent(c, s, key, NIL) {
      var k :| 0 <= k < |ch| && ch[k] < |s.nodes| && s.nodes[ch[k]].key == key;
      LinkedIsCurrent(c, s, t, b, ch[k]);
      assert StandsFor(s, ch[k], key);
    }
    forall i | StandsFor(s, i, key) ensures !Absent(c, s, key, NIL) {
      assert i in ch;
    }
  }

  /** In a bucket that a thread holds with nothing in hand every linked node is current. */
  lemma LinkedIsCurrent(c: Config, s: State, t: nat, b: int, i: nat)
    requires Inv(c, s) && t < |s.threads| && s.threads[t].Answer? && IsBucket(c, b) && s.bucketLock[b] == t
    requires i < c.nodes && s.nodes[i].hash == b
    ensures Current(s, i)
  {
    hide ShapeOk, KeysOk, PlaceOk, PinsOk;
    var u := s.nodeLock[i];
    if 0 <= u < |s.threads| {
      assert HoldsNode(s.threads[u], i) <==> s.nodeLock[i] == u;
      assert HoldsBucket(c, s.threads[u], b) <==> s.bucketLock[b] == u;
      assert PCOk(c, s, u);
    }
  }

  /** `Get` returns a live handle for its key, held by the caller, at the one node that has the key. */
  lemma GetReturns(c: Config, s: State, t: nat)
    requires Inv(c, s) && t < |s.threads| && s.threads[t].Answer? && s.threads[t].get
    ensures s.threads[t].reply.Got?
    ensures var h := s.threads[t].reply.h;
      && h in s.live && h.holder == t && h.key == s.threads[t].key && h.pos < |s.nodes|
      && s.nodes[h.pos].key == h.key && s.nodes[h.pos].reference > 0
  {
    assert PCOk(c, s, t);
    hide LocksOk, ShapeOk, PlaceOk, KeysOk, PCsOk;
    assert s.threads[t].reply.Got?;
    var h := s.threads[t].reply.h;
    assert h in HandlesAt(s, h.pos);
  }

  ghost predicate SameCall(turns: seq<Turn>, m: nat, n: nat, t: nat)
    requires n <= |turns|
  {
    forall k :: m < k < n ==> !(turns[k].t == t && Enters(turns[k].a))
  }

  lemma {:induction false} CallStays(c: Config, run: seq<State>, turns: seq<Turn>, m: nat, n: nat, t: nat)
    requires Turns(c, run, turns) && m < n <= |turns| && SameCall(turns, m, n, t)
    requires turns[m].t == t && turns[m].a.Begin?
    ensures |run| == |turns| + 1 && t < |run[n].threads|
    ensures CallOf(run[n].threads[t]) == Some((turns[m].a.key, turns[m].a.get))
    ensures run[n].threads[t].Answer? && run[n].threads[t].get ==> exists k: nat :: m < k < n && GivenTo(run, turns, k, n, t)
    decreases n
  {
    hide *;
    StartsUnowned(c, run, turns);
    TurnAt(c, run, turns, n - 1);
    InvSizes(c, run[n - 1]);
    CallTurn(c, run[n - 1], run[n], turns[n - 1].t, turns[n - 1].a);
    if n - 1 > m {
      assert SameCall(turns, m, n - 1, t) && (turns[n - 1].t == t ==> !Enters(turns[n - 1].a)) by {
        SameCallCut(turns, m, n, t);
      }
      CallStays(c, run, turns, m, n - 1, t);
      CallGoesOn(run, turns, m, n - 1, n, t);
    } else {
      CallBegins(run, turns, m, t);
    }
  }

  lemma InvSizes(c: Config, s: State)
    requires Inv(c, s)
    ensures ConfigOk(c) && Sized(c, s)
  {
    hide LocksOk, ShapeOk, PlaceOk, KeysOk, PCsOk, PinsOk;
  }

  lemma SameCallCut(turns: seq<Turn>, m: nat, n: nat, t: nat)
    requires m < n - 1 < |turns| && SameCall(turns, m, n, t)
    ensures SameCall(turns, m, n - 1, t) && (turns[n - 1].t == t ==> !Enters(turns[n - 1].a))
  {
  }

  /** The reply that thread t has at n was given at turn k, its own. */
  ghost predicate GivenTo(run: seq<State>, turns: seq<Turn>, k: nat, n: nat, t: nat)
    requires k < n < |run| && |run| == |turns| + 1
  {
    && turns[k].t == t && Gives(run[k], turns[k]) && t < |run[k + 1].threads| && t < |run[n].threads|
    && run[n].threads[t] == run[k + 1].threads[t]
  }

  lemma CallBegins(run: seq<State>, turns: seq<Turn>, m: nat, t: nat)
    requires m < |turns| && |run| == |turns| + 1 && turns[m].t == t && turns[m].a.Begin?
    requires CallMoves(run[m], run[m + 1], turns[m])
    ensures t < |run[m + 1].threads| && !run[m + 1].threads[t].Answer?
    ensures CallOf(run[m + 1].threads[t]) == Some((turns[m].a.key, turns[m].a.get))
  {
  }

  lemma CallGoesOn(run: seq<State>, turns: seq<Turn>, m: nat, n: nat, n': nat, t: nat)
    requires m < n < |turns| && n' == n + 1 && |run| == |turns| + 1 && t < |run[n].threads|
    requires CallMoves(run[n], run[n'], turns[n]) && (turns[n].t == t ==> !Enters(turns[n].a))
    requires run[n].threads[t].Answer? && run[n].threads[t].get ==> exists k: nat :: m < k < n && GivenTo(run, turns, k, n, t)
    ensures t < |run[n'].threads| && CallOf(run[n'].threads[t]) == CallOf(run[n].threads[t])
    ensures run[n'].threads[t].Answer? && run[n'].threads[t].get ==>
      exists k: nat :: m < k < n' && GivenTo(run, turns, k, n', t)
  {
    hide Gives;
    if run[n'].threads[t].Answer? && run[n'].threads[t].get {
      if turns[n].t == t {
        assert GivenTo(run, turns, n, n', t);
      } else {
        var k: nat :| m < k < n && GivenTo(run, turns, k, n, t);
        assert GivenTo(run, turns, k, n', t);
      }
    }
  }

  /**
   A call that began at turn m returns at turn n: `Exist` says whether some node stands for its key;
   `Get` has a live handle for its key, which it was given in between.
   */
  lemma CallReturns(c: Config, run: seq<State>, turns: seq<Turn>, m: nat, n: nat, t: nat)
    requires Turns(c, run, turns) && m < n < |turns| && SameCall(turns, m, n, t)
    requires turns[m].t == t && turns[m].a.Begin? && turns[n] == Turn(t, Return)
    ensures |run| == |turns| + 1 && t < |run[n].threads| && run[n].threads[t].Answer?
    ensures var pc := run[n].threads[t];
      if turns[m].a.get then
        && pc.reply.Got? && pc.reply.h in run[n].live && pc.reply.h.holder == t && pc.reply.h.key == turns[m].a.key
        && pc.reply.h.pos < |run[n].nodes| && run[n].nodes[pc.reply.h.pos].key == turns[m].a.key
        && exists k: nat :: m < k < n && GivenTo(run, turns, k, n, t)
      else
        && pc.reply.Found? && |run[n].nodes| == |run[n].nodeLock|
        && (pc.reply.yes <==> exists i :: StandsFor(run[n], i, turns[m].a.key))
  {
    CallStays(c, run, turns, m, n, t);
    TurnAt(c, run, turns, n);
    InvSizes(c, run[n]);
    CallTurn(c, run[n], run[n + 1], t, Return);
    hide Turns, Inv, Step, SameCall, GivenTo;
    assert run[n].threads[t].Answer?;
    assert (run[n].threads[t].key, run[n].threads[t].get) == (turns[m].a.key, turns[m].a.get);
    if turns[m].a.get {
      GetReturns(c, run[n], t);
    } else {
      ReplyFits(c, run[n], t);
      ExistExact(c, run[n], t);
    }
  }

  lemma ReplyFits(c: Config, s: State, t: nat)
    requires Inv(c, s) && t < |s.threads| && s.threads[t].Answer?
    ensures s.threads[t].get <==> s.threads[t].reply.Got?
  {
    assert PCOk(c, s, t);
  }

  // ---------------------------------------------------------------- the clock hand, and one way on

  function Fetches(turns: seq<Turn>): nat {
    if turns == [] then 0
    else Fetches(turns[..|turns| - 1]) + (if turns[|turns| - 1].a.FetchNode? then 1 else 0)
  }

  /** Fetching hands out the node under the hand and moves it on by one, around the end; nothing else moves it. */
  predicate HandMoves(s: State, s': State, turn: Turn, nodes: nat) {
    && s'.freeHead == (if !turn.a.FetchNode? then s.freeHead else if s.freeHead + 1 == nodes then 0 else s.freeHead + 1)
    && (turn.a.FetchNode? ==>
          turn.t < |s'.threads| && s'.threads[turn.t].Cand? && s'.threads[turn.t].i == s.freeHead)
  }

  lemma HandCalm(c: Config, s: State, s': State, t: nat, a: Act)
    requires ConfigOk(c) && Sized(c, s) && t < |s.threads|
    requires StepEnter(c, s, s', t, a) || StepScan(c, s, s', t, a) || StepOp(c, s, s', t, a)
    ensures HandMoves(s, s', Turn(t, a), c.nodes)
  {
  }

  lemma HandCut(c: Config, s: State, s': State, t: nat, a: Act)
    requires ConfigOk(c) && Sized(c, s) && t < |s.threads|
    requires StepCut(c, s, s', t, a) || StepLink(c, s, s', t, a)
    ensures HandMoves(s, s', Turn(t, a), c.nodes)
  {
  }

  lemma HandCand(c: Config, s: State, s': State, t: nat, a: Act)
    requires ConfigOk(c) && Sized(c, s) && t < |s.threads| && StepCand(c, s, s', t, a)
    ensures HandMoves(s, s', Turn(t, a), c.nodes)
  {
  }

  lemma HandTurn(c: Config, s: State, s': State, t: nat, a: Act)
    requires ConfigOk(c) && Sized(c, s) && Step(c, s, s', t, a)
    ensures HandMoves(s, s', Turn(t, a), c.nodes)
  {
    hide StepEnter, StepScan, StepCand, StepCut, StepLink, StepOp, HandMoves;
    if StepCand(c, s, s', t, a) {
      HandCand(c, s, s', t, a);
    } else if StepCut(c, s, s', t, a) || StepLink(c, s, s', t, a) {
      HandCut(c, s, s', t, a);
    } else {
      HandCalm(c, s, s', t, a);
    }
  }

  /**
   The k-th fetch of a run, by whichever thread, is of node k modulo the node count: any so many
   fetches in a row try every node once.
   */
  lemma {:induction false} HandVisits(c: Config, run: seq<State>, turns: seq<Turn>, n: nat)
    requires Turns(c, run, turns) && n <= |turns|
    ensures |run| == |turns| + 1 && c.nodes > 0 && run[n].freeHead == Fetches(turns[..n]) % c.nodes
    ensures n < |turns| && turns[n].a.FetchNode? ==>
      && turns[n].t < |run[n + 1].threads| && run[n + 1].threads[turns[n].t].Cand?
      && run[n + 1].threads[turns[n].t].i == Fetches(turns[..n]) % c.nodes
    decreases n
  {
    hide *;
    StartsUnowned(c, run, turns);
    StartsAtZero(c, run, turns);
    if n > 0 {
      var m: nat := n - 1;
      HandVisits(c, run, turns, m);
      TurnAt(c, run, turns, m);
      InvSizes(c, run[m]);
      HandTurn(c, run[m], run[n], turns[m].t, turns[m].a);
      assert turns[..n][..m] == turns[..m];
      FetchesStep(turns, m);
      HandSteps(run[m], run[n], turns[m], c.nodes, Fetches(turns[..m]));
    }
    if n < |turns| {
      TurnAt(c, run, turns, n);
      InvSizes(c, run[n]);
      if turns[n].a.FetchNode? {
        HandTurn(c, run[n], run[n + 1], turns[n].t, turns[n].a);
        HandFetches(run[n], run[n + 1], turns[n], c.nodes);
      }
    }
  }

  lemma StartsAtZero(c: Config, run: seq<State>, turns: seq<Turn>)
    requires Turns(c, run, turns)
    ensures c.nodes > 0 && run[0].freeHead == 0 && Fetches(turns[..0]) == 0
    ensures 0 % c.nodes == 0
  {
    hide TurnOk;
  }

  lemma FetchesStep(turns: seq<Turn>, m: nat)
    requires m < |turns| && turns[..m + 1][..m] == turns[..m]
    ensures Fetches(turns[..m + 1]) == Fetches(turns[..m]) + (if turns[m].a.FetchNode? then 1 else 0)
  {
  }

  lemma HandSteps(s: State, s': State, turn: Turn, nodes: nat, k: nat)
    requires nodes > 0 && HandMoves(s, s', turn, nodes) && s.freeHead == k % nodes
    ensures s'.freeHead == (k + (if turn.a.FetchNode? then 1 else 0)) % nodes
  {
    Division(k, nodes);
    if turn.a.FetchNode? {
      var q, r := k / nodes, k % nodes;
      if r + 1 == nodes {
        Difference(q + 1, q, nodes);
        QuotientUnique(k + 1, nodes, q + 1, 0);
      } else {
        QuotientUnique(k + 1, nodes, q, r + 1);
      }
    }
  }

  lemma HandFetches(s: State, s': State, turn: Turn, nodes: nat)
    requires HandMoves(s, s', turn, nodes) && turn.a.FetchNode?
    ensures turn.t < |s'.threads| && s'.threads[turn.t].Cand? && s'.threads[turn.t].i == s.freeHead
  {
  }

  /** The act of a thread that is in the middle of something. */
  function ActOf(c: Config, s: State, pc: PC): Act {
    if pc.WantBucket? then TakeBucket
    else if pc.Answer? then Return
    else if pc.Scan? || pc.ScanAt? then ScanAct(s, pc)
    else if pc.Fetch? || pc.FetchAt? || pc.Cand? || pc.CandAt? then CandAct(c, s, pc)
    else if Cutting(pc) then CutAct(s, pc)
    else if pc.Op? then OpLock
    else if pc.OpAt? then OpDo
    else LinkAct(pc)
  }

  lemma EnterAct(c: Config, s: State, s': State, t: nat, a: Act)
    requires ConfigOk(c) && Sized(c, s) && t < |s.threads| && s.threads[t] != Idle
    requires StepEnter(c, s, s', t, a) || StepOp(c, s, s', t, a) || StepScan(c, s, s', t, a)
    ensures a == ActOf(c, s, s.threads[t])
  {
    hide AfterEnter, AfterOp, AfterScan;
  }

  lemma CandActs(c: Config, s: State, s': State, t: nat, a: Act)
    requires ConfigOk(c) && Sized(c, s) && t < |s.threads| && StepCand(c, s, s', t, a)
    ensures a == ActOf(c, s, s.threads[t])
  {
    hide AfterCand;
  }

  lemma CutActs(c: Config, s: State, s': State, t: nat, a: Act)
    requires ConfigOk(c) && Sized(c, s) && t < |s.threads|
    requires StepCut(c, s, s', t, a) || StepLink(c, s, s', t, a)
    ensures a == ActOf(c, s, s.threads[t])
  {
    hide AfterCut, AfterLink;
  }

  lemma OnlyAct(c: Config, s: State, s': State, t: nat, a: Act)
    requires ConfigOk(c) && Sized(c, s) && Step(c, s, s', t, a) && s.threads[t] != Idle
    ensures a == ActOf(c, s, s.threads[t])
  {
    hide StepEnter, StepScan, StepCand, StepCut, StepLink, StepOp, ActOf;
    if StepCand(c, s, s', t, a) {
      CandActs(c, s, s', t, a);
    } else if StepCut(c, s, s', t, a) || StepLink(c, s, s', t, a) {
      CutActs(c, s, s', t, a);
    } else {
      EnterAct(c, s, s', t, a);
    }
  }

  /** Where a thread stands in the middle of something settles what it does next: no guard leaves a choice. */
  lemma OneAct(c: Config, s: State, s1: State, s2: State, t: nat, a: Act, b: Act)
    requires ConfigOk(c) && Sized(c, s) && Step(c, s, s1, t, a) && Step(c, s, s2, t, b) && s.threads[t] != Idle
    ensures a == b
  {
    OnlyAct(c, s, s1, t, a);
    OnlyAct(c, s, s2, t, b);
    hide Step, ActOf;
  }
}
