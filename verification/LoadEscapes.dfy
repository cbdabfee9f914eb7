/**
 When the load queue lets a handle go while the backend still writes through it: exactly on the
 branch of `TransferOneTask` that skips a failed task's shard, if its load is not over.
 */
module LoadEscapes {
  import opened Wrappers
  import opened BufferIndex
  import opened Sequences
  import opened LoadBytes
  import opened LoadBytesSteps
  import L = LoadQueue
  import O = LoadQueueOwners
  import T = TransferBytes

  /** The backend load of the shard goes on. */
  predicate Loading(q: L.State, x: L.Shard) {
    x.bh > 0 && L.Status(q, x.bh) == L.Pending
  }

  /** The head of the running queue is skipped, its load not being over. */
  predicate SkipsLoading(q: L.State, a: L.Act) {
    a.Take? && q.pend != [] && q.pend[0].id in q.failure && Loading(q, q.pend[0])
  }

  // ---------------------------------------------------------------- who writes through a handle

  lemma InFlightIs(b: T.State, q: L.State, h: nat, x: L.Shard)
    requires T.Good(b) && LoadsAgree(b, q) && PairOk(b, h, x)
    ensures T.InFlight(b, h) <==> Loading(q, x)
  {
    assert T.ViaOk(b);
    if T.InFlight(b, h) {
      var w :| w in b.writes && w.hand == h;
      assert T.WriteOk(b, w);
    }
    if Loading(q, x) {
      assert x.bh in b.loads && OutcomeAgrees(b.loads[x.bh], q.backend[x.bh]);
      assert T.WriteOf(b, h, b.via[h]) in b.writes;
    }
  }

  lemma LiveInFlight(s: State, i: nat)
    requires Good(s) && i < |s.hs|
    ensures |O.Live(s.q)| == |s.hs|
    ensures T.InFlight(s.b, s.hs[i]) <==> Loading(s.q, O.Live(s.q)[i])
  {
    GoodParts(s);
    assert PairOk(s.b, s.hs[i], O.Live(s.q)[i]);
    hide Good, QueueGood, Agrees, Pairs, T.Good, O.Live, PairOk, LoadsAgree, Loading;
    InFlightIs(s.b, s.q, s.hs[i], O.Live(s.q)[i]);
  }

  /** What is on hold and what is only gathered has no load in flight; nor has the shard that ends. */
  lemma Quiet(q: L.State, i: nat)
    requires QueueGood(q) && i < |O.Live(q)|
    ensures i < |q.held| ==> !Loading(q, O.Live(q)[i])
    ensures i >= |O.Live(q)| - |O.Got(q.dispatch)| ==> !Loading(q, O.Live(q)[i])
    ensures i == |q.held| && q.current.Working? && q.current.phase !in {L.Look, L.AwaitBackend} ==>
      !Loading(q, O.Live(q)[i])
  {
    assert L.GotOk(q.dispatch);
    LiveParts(q);
    hide L.Inv, O.OwnersOk, Unmarked, O.Live, O.Got;
    if i < |q.held| {
      assert Over(q, q.held[i]);
    }
    if i >= |O.Live(q)| - |O.Got(q.dispatch)| {
      var k := i - (|O.Live(q)| - |O.Got(q.dispatch)|);
      assert O.Live(q)[i] == O.Got(q.dispatch)[k];
      GatheredHasNone(q, k);
    }
  }

  lemma GatheredHasNone(q: L.State, k: nat)
    requires L.GotOk(q.dispatch) && k < |O.Got(q.dispatch)|
    ensures O.Got(q.dispatch)[k].bh == 0
  {
  }

  // ---------------------------------------------------------------- the exact condition

  /** A step that is no release changes nothing about who escaped. */
  lemma OnlyDropsEscape(s: State, s': State, a: L.Act, pos: nat)
    requires Effect(s, s', a, pos)
    requires a.Get? || O.Sends(s.q, a) || Marks(s.q, a) || O.MoveOf(s.q, a) == O.Keep
    ensures s'.b.escaped == s.b.escaped
  {
    hide Needing, Marks, O.Sends;
  }

  lemma DropsEscape(s: State, s': State, a: L.Act, pos: nat)
    requires Effect(s, s', a, pos) && !s.b.escaped
    requires !(a.Get? || O.Sends(s.q, a) || Marks(s.q, a) || O.MoveOf(s.q, a) == O.Keep)
    ensures |s.q.held| + |O.Got(s.q.dispatch)| <= |s.hs| && (O.MoveOf(s.q, a) == O.DropNext ==> |s.q.held| < |s.hs|)
    ensures s'.b.escaped <==>
      T.AnyInFlight(s.b, Dropping(s.hs, O.MoveOf(s.q, a), |s.q.held|, |O.Got(s.q.dispatch)|))
  {
    hide Needing, Marks, O.Sends, Dropping, O.MoveOf, O.Moved, T.AnyInFlight;
  }

  lemma DropHeldIsQuiet(s: State)
    requires Good(s) && |s.q.held| <= |s.hs|
    ensures !T.AnyInFlight(s.b, Elements(s.hs[..|s.q.held|]))
  {
    forall h | h in Elements(s.hs[..|s.q.held|]) ensures !T.InFlight(s.b, h) {
      var i :| 0 <= i < |s.q.held| && s.hs[i] == h;
      GoodParts(s);
      hide Good, Agrees, QueueGood, O.Live, Loading, T.Good, T.InFlight;
      LiveInFlight(s, i);
      Quiet(s.q, i);
    }
  }

  lemma DropGotIsQuiet(s: State)
    requires Good(s) && |O.Got(s.q.dispatch)| <= |s.hs|
    ensures !T.AnyInFlight(s.b, Elements(s.hs[|s.hs| - |O.Got(s.q.dispatch)|..]))
  {
    var c := |s.hs| - |O.Got(s.q.dispatch)|;
    forall h | h in Elements(s.hs[c..]) ensures !T.InFlight(s.b, h) {
      var i :| 0 <= i < |s.hs[c..]| && s.hs[c..][i] == h;
      GoodParts(s);
      hide Good, Agrees, QueueGood, O.Live, Loading, T.Good, T.InFlight, O.Got;
      LiveInFlight(s, c + i);
      Quiet(s.q, c + i);
    }
  }

  lemma EndIsQuiet(s: State)
    requires Good(s) && s.q.current.Working? && s.q.current.phase !in {L.Look, L.AwaitBackend}
    ensures |s.q.held| < |s.hs| && !T.AnyInFlight(s.b, {s.hs[|s.q.held|]})
  {
    GoodParts(s);
    CurrentPair(s);
    hide Good, Agrees, QueueGood, O.Live, Loading, T.Good, T.InFlight, Pairs, PairOk;
    LiveInFlight(s, |s.q.held|);
    Quiet(s.q, |s.q.held|);
  }

  lemma TakeInFlight(s: State)
    requires Good(s) && s.q.current == L.Nothing && s.q.pend != []
    ensures |s.q.held| < |s.hs|
    ensures T.AnyInFlight(s.b, {s.hs[|s.q.held|]}) <==> Loading(s.q, s.q.pend[0])
  {
    hide Good, O.Live, Loading, T.InFlight;
    HeadPlace(s);
    LiveInFlight(s, |s.q.held|);
  }

  lemma HeadPlace(s: State)
    requires Good(s) && s.q.current == L.Nothing && s.q.pend != []
    ensures |s.q.held| < |s.hs| == |O.Live(s.q)| && O.Live(s.q)[|s.q.held|] == s.q.pend[0]
  {
    GoodParts(s);
    hide Good, Agrees, QueueGood, PairOk, T.Good;
    LiveParts(s.q);
    hide O.Live;
  }

  /** What the steps that let handles go have seen. */
  lemma DropSteps(s: State, s': State, a: L.Act, pos: nat)
    requires OwnStep(s, s', a, pos)
    ensures a.End? ==> s.q.current.Working? && s.q.current.phase !in {L.Look, L.AwaitBackend}
    ensures a.Take? ==> s.q.current == L.Nothing && s.q.pend != []
  {
    hide Effect, L.Done;
  }

  /** The step lets handles go. */
  ghost predicate LetsGo(q: L.State, a: L.Act) {
    !a.Get? && !O.Sends(q, a) && !Marks(q, a) && O.MoveOf(q, a) != O.Keep
  }

  lemma DropExact(s: State, a: L.Act)
    requires Good(s) && LetsGo(s.q, a)
    requires |s.q.held| + |O.Got(s.q.dispatch)| <= |s.hs| && (O.MoveOf(s.q, a) == O.DropNext ==> |s.q.held| < |s.hs|)
    requires a.End? ==> s.q.current.Working? && s.q.current.phase !in {L.Look, L.AwaitBackend}
    requires a.Take? ==> s.q.current == L.Nothing && s.q.pend != []
    ensures T.AnyInFlight(s.b, Dropping(s.hs, O.MoveOf(s.q, a), |s.q.held|, |O.Got(s.q.dispatch)|))
      <==> SkipsLoading(s.q, a)
  {
    hide Good, Marks, O.Sends, T.AnyInFlight, Loading, O.Got;
    match a
    case Synchronize(_) => DropHeldIsQuiet(s);
    case Load(_) => DropGotIsQuiet(s);
    case End => EndIsQuiet(s);
    case Take => TakeInFlight(s);
    case _ =>
  }

  /**
   Exactly where `TransferOneTask` lets a handle go under its backend load: when it skips a shard
   of a failed task that was handed to the backend and whose load has not ended.
   */
  lemma EscapeExact(s: State, s': State, a: L.Act, pos: nat)
    requires Good(s) && !s.b.escaped && OwnStep(s, s', a, pos)
    ensures s'.b.escaped <==> SkipsLoading(s.q, a)
  {
    DropSteps(s, s', a, pos);
    OwnHasEffect(s, s', a, pos);
    hide Good, OwnStep, Effect, SkipsLoading, Marks, O.Sends, O.MoveOf, Dropping, T.AnyInFlight, O.Got;
    if LetsGo(s.q, a) {
      DropsEscape(s, s', a, pos);
      DropExact(s, a);
    } else {
      OnlyDropsEscape(s, s', a, pos);
      NotADrop(s.q, a);
    }
  }

  lemma OwnHasEffect(s: State, s': State, a: L.Act, pos: nat)
    requires OwnStep(s, s', a, pos)
    ensures Effect(s, s', a, pos)
  {
    hide Effect;
  }

  lemma NotADrop(q: L.State, a: L.Act)
    requires a.Get? || O.Sends(q, a) || Marks(q, a) || O.MoveOf(q, a) == O.Keep
    ensures !SkipsLoading(q, a)
  {
  }
}
