/** Every step of the load queue and of the others keeps the invariant of `LoadBytes`. */
module LoadBytesSteps {
  import opened BufferIndex
  import opened Sequences
  import opened LoadBytes
  import L = LoadQueue
  import O = LoadQueueOwners
  import T = TransferBytes

  // ---------------------------------------------------------------- the queue's own steps

  lemma PairsGrow(b: T.State, b': T.State, hs: seq<nat>, xs: seq<L.Shard>, h: nat, x: L.Shard)
    requires Pairs(b, hs, xs) && PairOk(b', h, x) && h !in b.hands && b'.via == b.via
    requires forall g :: g in b.hands ==> g < h && g in b'.hands && b'.hands[g] == b.hands[g]
    ensures Pairs(b', hs + [h], xs + [x])
  {
    var hs', xs' := hs + [h], xs + [x];
    forall i | 0 <= i < |hs'| ensures PairOk(b', hs'[i], xs'[i]) && (i < |hs| ==> hs[i] < h) {
      if i < |hs| {
        assert PairOk(b, hs[i], xs[i]);
      }
    }
  }

  /** A new handle of the queue's own changes nothing about the others. */
  lemma OutsideUnderGet(b: T.State, b': T.State, mine: set<nat>, h: nat, outside: set<L.Outside>)
    requires OutsideAgrees(b, mine, outside) && h !in b.hands && h in b'.hands && b'.hands == b.hands[h := b'.hands[h]]
    ensures OutsideAgrees(b', mine + {h}, outside)
  {
    forall o | o in outside ensures OutOk(b', mine + {h}, o) {
      assert OutOk(b, mine, o);
    }
    forall g | g in b'.hands && g !in mine + {h} ensures OutsideOf(b', g) in outside {
      assert OutsideOf(b, g) in outside;
    }
  }

  lemma NextIsLater(b: T.State)
    requires T.Good(b)
    ensures (forall g :: g in b.hands ==> g < b.nextHand) && b.nextHand !in b.via
    ensures T.LiveOk(b)
  {
  }

  /** The shard that the queue makes of a new handle. */
  lemma GetShard(q: L.State, q': L.State, cached: bool)
    requires L.DispatchStep(q, q', L.Act.Get(cached))
    ensures |O.Got(q'.dispatch)| > |O.Got(q.dispatch)| && q'.backend == q.backend && q'.outside == q.outside
    ensures var x := O.Got(q'.dispatch)[|O.Got(q.dispatch)|];
      x.bh == 0 && x.owner == !L.Pinned(q, x.key) && q'.ready == L.ReadyAfterGet(q, x.key, cached)
  {
    hide L.Pinned, L.ReadyAfterGet;
  }

  lemma GetIsDispatch(s: State, s': State, a: L.Act, pos: nat)
    requires OwnStep(s, s', a, pos) && a.Get?
    ensures L.DispatchStep(s.q, s'.q, a) && Effect(s, s', a, pos)
  {
    hide L.DispatchStep, Effect;
  }

  lemma GetIsGrow(q: L.State, q': L.State, a: L.Act)
    requires a.Get? && O.LiveMoved(q, q', a) && |O.Got(q'.dispatch)| > |O.Got(q.dispatch)|
    ensures O.Live(q') == O.Live(q) + [O.Got(q'.dispatch)[|O.Got(q.dispatch)|]]
  {
    hide O.Live;
  }

  lemma GetKeepsAgrees(s: State, s': State, a: L.Act, pos: nat)
    requires Good(s) && O.LiveMoved(s.q, s'.q, a) && OwnStep(s, s', a, pos) && a.Get?
    ensures Agrees(s')
  {
    hide Good, QueueGood, T.Good, Pairs, OwnStep, L.DispatchStep, ReadyAgrees, OutsideAgrees, O.Live, L.Pinned,
      O.LiveMoved, T.LiveOk, L.ReadyAfterGet, Elements;
    GoodParts(s);
    GetIsDispatch(s, s', a, pos);
    GetShard(s.q, s'.q, a.cached);
    GetIsGrow(s.q, s'.q, a);
    NextIsLater(s.b);
    var x, h := O.Got(s'.q.dispatch)[|O.Got(s.q.dispatch)|], s.b.nextHand;
    PinnedIsHeld(s, x.key);
    GetOwner(s.b, s'.b, x.key, pos);
    GetReady(s.b, s'.b, x.key, pos, s.q);
    PairsGrow(s.b, s'.b, s.hs, O.Live(s.q), h, x);
    MineGrows(s.hs, h);
    OutsideUnderGet(s.b, s'.b, Mine(s), h, s.q.outside);
  }

  lemma MineGrows(hs: seq<nat>, h: nat)
    ensures Elements(hs + [h]) == Elements(hs) + {h}
  {
  }

  lemma OwnKeepsAgrees(s: State, s': State, a: L.Act, pos: nat)
    requires Good(s) && OwnStep(s, s', a, pos)
    ensures Agrees(s')
  {
    OwnMeans(s, s', a, pos);
    hide Good, OwnStep, Effect, QueueStep, Agrees, O.LiveMoved, Shares, Marks, O.Sends;
    if a.Get? {
      GetKeepsAgrees(s, s', a, pos);
    } else if O.Sends(s.q, a) {
      SendKeepsAgrees(s, s', a, pos);
    } else if Marks(s.q, a) {
      MarkKeepsAgrees(s, s', a, pos);
    } else {
      GoodParts(s);
      DropKeepsAgrees(s, s', a, pos);
    }
  }

  lemma OwnMeans(s: State, s': State, a: L.Act, pos: nat)
    requires Good(s) && OwnStep(s, s', a, pos)
    ensures QueueStep(s.q, s'.q, a) && Effect(s, s', a, pos)
    ensures O.LiveMoved(s.q, s'.q, a) && Shares(s.q, s'.q, a)
  {
    assert L.QueueOk(s.q);
    OwnParts(s, s', a, pos);
    hide Good, OwnStep, Effect, L.SubmitStep, L.DispatchStep, L.TransferStep, L.OutsideStep, O.LiveMoved, Shares;
    OwnMovesLive(s.q, s'.q, a);
    QueueShares(s.q, s'.q, a);
  }

  lemma OwnKeepsGood(s: State, s': State, a: L.Act, pos: nat)
    requires Good(s) && OwnStep(s, s', a, pos) && !s'.b.escaped
    ensures Good(s')
  {
    OwnMeans(s, s', a, pos);
    OwnKeepsAgrees(s, s', a, pos);
    var ta := OwnFollows(s, s', a, pos);
    hide OwnStep, Effect, QueueStep, Agrees, O.LiveMoved, Shares, QueueGood, T.Step;
    QueueKeeps(s.q, s'.q, a);
    if s'.b != s.b {
      T.StepKeepsInv(s.b, s'.b, ta);
    }
  }

  /** The queue gains the next handle at most, and of its live ones it keeps all. */
  lemma OwnMine(s: State, s': State, a: L.Act, pos: nat)
    requires Good(s) && OwnStep(s, s', a, pos)
    ensures Mine(s') <= Mine(s) + {s.b.nextHand}
    ensures forall h :: h in Mine(s) && h in s'.b.hands ==> h in Mine(s')
  {
    OwnMeans(s, s', a, pos);
    GoodParts(s);
    MineIsHeld(s);
    hide Good, OwnStep, QueueStep, Paired, O.LiveMoved, Shares, Ascending;
    if a.Get? {
      GrowMine(s, s', a, pos);
    } else {
      MovedMine(s, s', a, pos);
    }
  }

  lemma GrowMine(s: State, s': State, a: L.Act, pos: nat)
    requires Effect(s, s', a, pos) && a.Get?
    ensures Mine(s') == Mine(s) + {s.b.nextHand}
  {
    hide O.MoveOf, O.Moved, T.Step, Needing;
    MineGrows(s.hs, s.b.nextHand);
  }

  lemma MovedMine(s: State, s': State, a: L.Act, pos: nat)
    requires Effect(s, s', a, pos) && !a.Get? && Ascending(s.hs)
    ensures Mine(s') <= Mine(s)
    ensures forall h :: h in Mine(s) && h in s'.b.hands ==> h in Mine(s')
  {
    var m, held, got := O.MoveOf(s.q, a), |s.q.held|, |O.Got(s.q.dispatch)|;
    HandsMoved(s.hs, m, held, got);
    KeepsNone(s.hs, m, held, got);
    MarksKeep(s.q, a);
    hide O.MoveOf, O.Moved, O.Sends, Marks, Needing, Dropping, Elements, Ascending, T.AnyInFlight;
  }

  lemma KeepsNone(hs: seq<nat>, m: O.Move, held: nat, got: nat)
    requires held + got <= |hs| && (m == O.DropNext ==> held < |hs|)
    ensures m == O.Keep || m == O.Grow ==> Dropping(hs, m, held, got) == {}
  {
  }

  lemma MarksKeep(q: L.State, a: L.Act)
    ensures O.Sends(q, a) || Marks(q, a) ==> O.MoveOf(q, a) == O.Keep
  {
  }

  // ---------------------------------------------------------------- what the others do, in the queue's terms

  /** What a step of the others is to the queue: nothing, or one of the outside steps it allows for. */
  lemma OtherIsOutside(s: State, s': State, ta: T.Act) returns (qa: L.Act)
    requires Good(s) && OtherStep(s, s', ta)
    ensures s'.q == s.q || L.OutsideStep(s.q, s'.q, qa)
    ensures !qa.TimesOut? && !qa.Forget?
  {
    qa := L.Take;
    hide Good, QueueGood, T.Good, T.Step, Paired, Agrees, ReadyAgrees, T.HandsOk;
    GoodParts(s);
    match ta {
      case Get(key, pos) => qa := OtherGets(s, s', key, pos);
      case MarkDumped(h) => qa := OtherMarks(s, s', h);
      case Release(rs) => qa := OtherDrops(s, s', rs);
      case LoadEnds(bh, ok) =>
        qa := L.BackendEnds(bh, ok);
        assert s.q.backend[bh] == L.Pending by {
          StillPending(s.b, s'.b, s.q, bh, ok);
        }
      case _ =>
    }
  }

  lemma StillPending(b: T.State, b': T.State, q: L.State, bh: nat, ok: bool)
    requires LoadsAgree(b, q) && T.Step(b, b', T.LoadEnds(bh, ok)) && bh in q.backend
    ensures q.backend[bh] == L.Pending
  {
    assert OutcomeAgrees(b.loads[bh], q.backend[bh]);
  }

  lemma OtherGets(s: State, s': State, key: Key, pos: nat) returns (qa: L.Act)
    requires Agrees(s) && T.Good(s.b) && OtherStep(s, s', T.Get(key, pos))
    ensures qa.OutsideGet? && L.OutsideStep(s.q, s'.q, qa)
  {
    hide Paired, ReadyAgrees, LoadsAgree, T.Good, L.Pinned, Agrees;
    NextIsLater(s.b);
    PinnedIsHeld(s, key);
    GetOwner(s.b, s'.b, key, pos);
    NewIsOutside(s, key);
    hide T.LiveOk, T.Step, OutsideAgrees;
    qa := L.OutsideGet(OutsideOf(s'.b, s.b.nextHand), s'.b.bufs[pos].ready);
  }

  lemma NewIsOutside(s: State, key: Key)
    requires Agrees(s) && s.b.nextHand !in s.b.hands
    ensures forall o :: o in s.q.outside ==> o.serial != s.b.nextHand
  {
    hide Paired, ReadyAgrees, LoadsAgree;
    assert OutsideAgrees(s.b, Mine(s), s.q.outside);
    forall o | o in s.q.outside ensures o.serial != s.b.nextHand {
      assert OutOk(s.b, Mine(s), o);
    }
  }

  lemma OtherMarks(s: State, s': State, h: nat) returns (qa: L.Act)
    requires Agrees(s) && T.Good(s.b) && OtherStep(s, s', T.MarkDumped(h))
    ensures qa.OutsideMark? && L.OutsideStep(s.q, s'.q, qa)
  {
    qa := L.OutsideMark(OutsideOf(s.b, h));
    MarkerOwns(s.b, s'.b, h);
    assert OutsideAgrees(s.b, Mine(s), s.q.outside);
  }

  /** Whoever marks after a copy, or finds the node ready as its owner, is its owner. */
  lemma MarkerOwns(b: T.State, b': T.State, h: nat)
    requires T.Good(b) && T.Step(b, b', T.MarkDumped(h))
    ensures h in b.hands && b.hands[h].owner && b.hands[h].pos < |b.bufs| && b' == T.SetReady(b, h)
  {
    assert T.ViaOk(b);
  }

  lemma OtherDrops(s: State, s': State, rs: set<nat>) returns (qa: L.Act)
    requires Agrees(s) && OtherStep(s, s', T.Release(rs))
    ensures qa.OutsideDrop? && L.OutsideStep(s.q, s'.q, qa)
  {
    var h :| h in rs;
    OnlyOne(rs, h);
    assert (set g | g in rs :: OutsideOf(s.b, g)) == {OutsideOf(s.b, h)};
    qa := L.OutsideDrop(OutsideOf(s.b, h));
    assert OutsideAgrees(s.b, Mine(s), s.q.outside);
  }

  lemma OnlyOne(rs: set<nat>, h: nat)
    requires |rs| == 1 && h in rs
    ensures rs == {h}
  {
    assert |rs - {h}| == 0;
  }

  // ---------------------------------------------------------------- they keep what the queue relies on

  /** Shards that need a load are owners. */
  lemma NeedsOwner(q: L.State, i: nat)
    requires L.HandlesOk(q) && L.GotOk(q.dispatch) && |q.held| <= i < |O.Live(q)| && O.Live(q)[i].needs
    ensures O.Live(q)[i].owner
  {
    var j := i - |q.held|;
    if j < |L.Stream(q)| {
      assert O.Live(q)[i] == L.Stream(q)[j];
      assert L.HandleOk(q, L.Stream(q)[j]);
    }
  }

  /** What needs a load has this queue's handle as the node's owner, so no other owner marks its key. */
  lemma OtherMarksElse(s: State, s': State, h: nat, i: nat)
    requires Good(s) && OtherStep(s, s', T.MarkDumped(h))
    requires |s.q.held| <= i < |O.Live(s.q)| && O.Live(s.q)[i].needs
    ensures h in s.b.hands && O.Live(s.q)[i].key != s.b.hands[h].key
  {
    assert L.HandlesOk(s.q) && L.GotOk(s.q.dispatch);
    hide QueueGood, L.HandlesOk, L.GotOk, ReadyAgrees, LoadsAgree, OutsideAgrees;
    NeedsOwner(s.q, i);
    MarkerOwns(s.b, s'.b, h);
    var x, g := O.Live(s.q)[i], s.hs[i];
    assert PairOk(s.b, g, x) && g in Mine(s);
    assert T.LiveOk(s.b);
    hide Good, O.Live, T.Good, OtherStep;
    assert T.SameKey(s.b.hands[g], s.b.hands[h]) ==> s.b.hands[g].pos == s.b.hands[h].pos;
    assert T.SameNodeOwners(s.b.hands[g], s.b.hands[h]) ==> g == h;
  }

  lemma OtherKeepsParts(s: State, s': State, ta: T.Act, qa: L.Act)
    requires Good(s) && OtherStep(s, s', ta) && L.OutsideStep(s.q, s'.q, qa)
    ensures Unmarked(s'.q) && Settled(s'.q)
  {
    L.OutsideIsStill(s.q, s'.q, qa);
    forall i | |s.q.held| <= i < |O.Live(s.q)| && O.Live(s.q)[i].needs
      ensures O.Live(s.q)[i].key in s'.q.ready ==> O.Live(s.q)[i].key in s.q.ready
    {
      OtherMarksNothing(s, s', ta, i);
    }
    hide Agrees, L.OutsideStep, OtherStep, O.Live, L.Inv, O.OwnersOk, Unmarked, Settled, T.Good;
    SamePartsUnmarked(s.q, s'.q);
  }

  lemma OtherMarksNothing(s: State, s': State, ta: T.Act, i: nat)
    requires Good(s) && OtherStep(s, s', ta) && |s.q.held| <= i < |O.Live(s.q)| && O.Live(s.q)[i].needs
    ensures O.Live(s.q)[i].key in s'.q.ready ==> O.Live(s.q)[i].key in s.q.ready
  {
    hide Good, O.Live, L.ReadyAfterGet, T.Landed, T.Dropped;
    match ta
    case Get(key, pos) => GetKeepsMarks(s.q, key, s'.b.bufs[pos].ready, i);
    case MarkDumped(h) => OtherMarksElse(s, s', h, i);
    case _ =>
  }

  lemma OtherKeepsQueue(s: State, s': State, ta: T.Act)
    requires Good(s) && OtherStep(s, s', ta)
    ensures QueueGood(s'.q)
  {
    var qa := OtherIsOutside(s, s', ta);
    if s'.q != s.q {
      OtherKeepsParts(s, s', ta, qa);
      hide Agrees, OtherStep, Unmarked, Settled, T.Good, L.Inv, O.OwnersOk, L.OutsideStep;
      assert L.Step(s.q, s'.q, qa);
      L.StepKeepsInv(s.q, s'.q, qa);
      O.StepKeepsOwners(s.q, s'.q, qa);
    }
  }

  // ---------------------------------------------------------------- they keep the agreement

  /** Handles of the queue that nobody else touches. */
  ghost predicate Untouched(b: T.State, b': T.State, mine: set<nat>) {
    forall h :: h in mine && h in b.hands ==> Stays(b, b', h)
  }

  predicate Stays(b: T.State, b': T.State, h: nat) {
    && (h in b.hands <==> h in b'.hands) && (h in b.hands ==> b'.hands[h] == b.hands[h])
    && (h in b.via <==> h in b'.via) && (h in b.via ==> b'.via[h] == b.via[h])
  }

  lemma PairsStay(b: T.State, b': T.State, hs: seq<nat>, xs: seq<L.Shard>)
    requires Pairs(b, hs, xs) && Untouched(b, b', Elements(hs))
    ensures Pairs(b', hs, xs)
  {
    forall i | 0 <= i < |hs| ensures PairOk(b', hs[i], xs[i]) {
      assert PairOk(b, hs[i], xs[i]) && hs[i] in Elements(hs);
      assert Stays(b, b', hs[i]);
    }
  }

  lemma OtherUntouched(s: State, s': State, ta: T.Act)
    requires T.Good(s.b) && OtherStep(s, s', ta)
    ensures Untouched(s.b, s'.b, Mine(s))
  {
    forall h | h in Mine(s) && h in s.b.hands ensures Stays(s.b, s'.b, h) {
      NextIsLater(s.b);
    }
  }

  /** The bytes and the writes change, and at most the outcome of one load. */
  ghost predicate BytesChange(b: T.State, b': T.State) {
    && b'.hands == b.hands && |b'.bufs| == |b.bufs|
    && forall p :: 0 <= p < |b.bufs| ==> b'.bufs[p].ready == b.bufs[p].ready
  }

  lemma SameHandsAgree(b: T.State, b': T.State, mine: set<nat>, q: L.State)
    requires BytesChange(b, b') && ReadyAgrees(b, q.ready) && OutsideAgrees(b, mine, q.outside)
    ensures ReadyAgrees(b', q.ready) && OutsideAgrees(b', mine, q.outside)
  {
    forall h | h in b'.hands ensures T.Ready(b', h) <==> b'.hands[h].key in q.ready {
      assert T.Ready(b, h) <==> b.hands[h].key in q.ready;
    }
    forall o | o in q.outside ensures OutOk(b', mine, o) {
      assert OutOk(b, mine, o);
    }
    forall h | h in b'.hands && h !in mine ensures OutsideOf(b', h) in q.outside {
      assert OutsideOf(b, h) in q.outside;
    }
  }

  lemma OnlyBytes(b: T.State, b': T.State, ta: T.Act)
    requires T.Good(b) && T.Step(b, b', ta) && (ta.CopyIn? || ta.SyncDevice? || ta.Garble? || ta.LoadEnds?)
    ensures BytesChange(b, b') && (!ta.LoadEnds? ==> b'.loads == b.loads)
  {
    match ta
    case SyncDevice(ok) => T.LandedBytes(b, b', T.ByDevice, ok);
    case LoadEnds(bh, ok) => T.LandedBytes(b, b', T.ByBackend(bh), ok);
    case _ =>
  }

  lemma EndsAgree(s: State, s': State, bh: nat, ok: bool)
    requires LoadsAgree(s.b, s.q) && OtherStep(s, s', T.LoadEnds(bh, ok))
    ensures LoadsAgree(s'.b, s'.q) && s'.q.ready == s.q.ready && s'.q.outside == s.q.outside
  {
  }

  lemma OtherGetAgrees(s: State, s': State, key: Key, pos: nat)
    requires Agrees(s) && T.Good(s.b) && OtherStep(s, s', T.Get(key, pos))
    ensures ReadyAgrees(s'.b, s'.q.ready) && LoadsAgree(s'.b, s'.q) && OutsideAgrees(s'.b, Mine(s), s'.q.outside)
  {
    hide T.Good, Agrees, Paired, L.Pinned;
    NextIsLater(s.b);
    PinnedIsHeld(s, key);
    GetOwner(s.b, s'.b, key, pos);
    AgreesParts(s);
    GetReady(s.b, s'.b, key, pos, s.q);
    hide T.Step, T.LiveOk;
    NewNotMine(s);
    OutsideGrows(s.b, s'.b, Mine(s), s.b.nextHand, s.q.outside);
  }

  lemma AgreesParts(s: State)
    requires Agrees(s)
    ensures Paired(s) && ReadyAgrees(s.b, s.q.ready) && LoadsAgree(s.b, s.q) && OutsideAgrees(s.b, Mine(s), s.q.outside)
  {
  }

  lemma NewNotMine(s: State)
    requires Agrees(s) && s.b.nextHand !in s.b.hands
    ensures s.b.nextHand !in Mine(s)
  {
    hide ReadyAgrees, LoadsAgree, OutsideAgrees;
    MineIsHeld(s);
  }

  lemma OutsideGrows(b: T.State, b': T.State, mine: set<nat>, h: nat, outside: set<L.Outside>)
    requires OutsideAgrees(b, mine, outside) && h !in b.hands && h in b'.hands && b'.hands == b.hands[h := b'.hands[h]]
    requires h !in mine
    ensures OutsideAgrees(b', mine, outside + {OutsideOf(b', h)})
  {
    forall o | o in outside + {OutsideOf(b', h)} ensures OutOk(b', mine, o) {
      assert o in outside ==> OutOk(b, mine, o);
    }
    forall g | g in b'.hands && g !in mine ensures OutsideOf(b', g) in outside + {OutsideOf(b', h)} {
      if g != h {
        assert OutsideOf(b, g) in outside;
      }
    }
  }

  lemma OtherMarkAgrees(s: State, s': State, h: nat)
    requires Agrees(s) && T.Good(s.b) && OtherStep(s, s', T.MarkDumped(h))
    ensures ReadyAgrees(s'.b, s'.q.ready) && LoadsAgree(s'.b, s'.q) && OutsideAgrees(s'.b, Mine(s), s'.q.outside)
  {
    MarkerOwns(s.b, s'.b, h);
    NextIsLater(s.b);
    hide T.Good, Paired, T.LiveOk, OutsideAgrees, ReadyAgrees, LoadsAgree;
    MarkAgrees(s.b, h, s.q.ready);
    OnlyMarks(s.b, h, s.q, s'.q, Mine(s));
  }

  lemma OthersGo(b: T.State, b': T.State, mine: set<nat>, rs: set<nat>, ready: set<Key>, outside: set<L.Outside>)
    requires b'.hands == b.hands - rs && b'.bufs == b.bufs && rs <= b.hands.Keys && rs !! mine
    requires ReadyAgrees(b, ready) && OutsideAgrees(b, mine, outside)
    ensures ReadyAgrees(b', ready) && OutsideAgrees(b', mine, outside - (set h | h in rs :: OutsideOf(b, h)))
  {
    var gone := set h | h in rs :: OutsideOf(b, h);
    forall h | h in b'.hands ensures T.Ready(b', h) <==> b'.hands[h].key in ready {
      assert T.Ready(b, h) <==> b.hands[h].key in ready;
    }
    forall o | o in outside - gone ensures OutOk(b', mine, o) {
      assert OutOk(b, mine, o);
      assert o == OutsideOf(b, o.serial);
    }
    forall h | h in b'.hands && h !in mine ensures OutsideOf(b', h) in outside - gone {
      assert OutsideOf(b, h) in outside;
    }
  }

  lemma OtherKeepsAgrees(s: State, s': State, ta: T.Act)
    requires Good(s) && OtherStep(s, s', ta)
    ensures Agrees(s')
  {
    hide Good, T.Good, QueueGood, Agrees, Paired, OtherStep, ReadyAgrees, LoadsAgree, OutsideAgrees, BytesChange, Pairs;
    GoodParts(s);
    OtherUntouched(s, s', ta);
    OtherKeepsPairs(s, s', ta);
    match ta {
      case Get(key, pos) => OtherGetAgrees(s, s', key, pos);
      case MarkDumped(h) => OtherMarkAgrees(s, s', h);
      case Release(rs) => OtherDropAgrees(s, s', rs);
      case Load(_, _) =>
      case MarkLoaded(_, _) =>
      case _ => OtherBytesAgree(s, s', ta);
    }
    OtherSame(s, s', ta);
    MadeAgrees(s, s');
  }

  lemma OtherSame(s: State, s': State, ta: T.Act)
    requires OtherStep(s, s', ta)
    ensures s'.hs == s.hs && Mine(s') == Mine(s) && !ta.Load? && !ta.MarkLoaded?
  {
  }

  lemma MadeAgrees(s: State, s': State)
    requires Mine(s') == Mine(s)
    requires Paired(s') && ReadyAgrees(s'.b, s'.q.ready) && LoadsAgree(s'.b, s'.q)
    requires OutsideAgrees(s'.b, Mine(s), s'.q.outside)
    ensures Agrees(s')
  {
  }

  lemma OtherKeepsPairs(s: State, s': State, ta: T.Act)
    requires Paired(s) && OtherStep(s, s', ta) && Untouched(s.b, s'.b, Mine(s))
    ensures Paired(s')
  {
    assert s'.q.held == s.q.held && s'.q.pend == s.q.pend && s'.q.dispatch == s.q.dispatch && s'.q.current == s.q.current;
    hide OtherStep, Pairs, O.Live;
    O.StillLive(s.q, s'.q);
    PairsStay(s.b, s'.b, s.hs, O.Live(s.q));
  }

  lemma OtherDropAgrees(s: State, s': State, rs: set<nat>)
    requires Agrees(s) && OtherStep(s, s', T.Release(rs))
    ensures ReadyAgrees(s'.b, s'.q.ready) && LoadsAgree(s'.b, s'.q) && OutsideAgrees(s'.b, Mine(s), s'.q.outside)
  {
    hide Paired, ReadyAgrees, OutsideAgrees;
    OthersGo(s.b, s'.b, Mine(s), rs, s.q.ready, s.q.outside);
  }

  lemma OtherBytesAgree(s: State, s': State, ta: T.Act)
    requires Agrees(s) && T.Good(s.b) && OtherStep(s, s', ta)
    requires ta.CopyIn? || ta.SyncDevice? || ta.Garble? || ta.LoadEnds?
    ensures ReadyAgrees(s'.b, s'.q.ready) && LoadsAgree(s'.b, s'.q) && OutsideAgrees(s'.b, Mine(s), s'.q.outside)
  {
    hide T.Good, Agrees, Paired, ReadyAgrees, OutsideAgrees;
    AgreesParts(s);
    OnlyBytes(s.b, s'.b, ta);
    SameHandsAgree(s.b, s'.b, Mine(s), s.q);
    if ta.LoadEnds? {
      hide LoadsAgree;
      EndsAgree(s, s', ta.bh, ta.ok);
    }
  }

  lemma OtherKeepsGood(s: State, s': State, ta: T.Act)
    requires Good(s) && OtherStep(s, s', ta) && !s'.b.escaped
    ensures Good(s')
  {
    hide QueueGood, Agrees, T.Step;
    OtherKeepsQueue(s, s', ta);
    OtherKeepsAgrees(s, s', ta);
    T.StepKeepsInv(s.b, s'.b, ta);
  }

  // ---------------------------------------------------------------- whole runs

  lemma NeverUnescapes(s: State, s': State, a: Act)
    requires Step(s, s', a) && s.b.escaped
    ensures s'.b.escaped
  {
  }

  lemma StepKeepsInv(s: State, s': State, a: Act)
    requires Inv(s) && Step(s, s', a)
    ensures Inv(s')
  {
    hide Good, OwnStep, OtherStep;
    if !s'.b.escaped {
      if s.b.escaped {
        NeverUnescapes(s, s', a);
      }
      match a
      case Own(qa, pos) => OwnKeepsGood(s, s', qa, pos);
      case Other(ta) => OtherKeepsGood(s, s', ta);
    }
  }

  ghost predicate Next(s: State, s': State) {
    exists a :: Step(s, s', a)
  }

  ghost predicate Run(run: seq<State>) {
    |run| > 0 && Init(run[0]) && forall n :: 0 <= n < |run| - 1 ==> Next(run[n], run[n + 1])
  }

  /** In every run, until a handle goes under a write, the queue and the buffers agree. */
  lemma {:induction false} RunKeepsInv(run: seq<State>)
    requires Run(run)
    ensures Inv(run[|run| - 1])
  {
    hide Step, Inv;
    InitInv(run[0]);
    var n := 0;
    while n < |run| - 1
      invariant 0 <= n < |run|
      invariant Inv(run[n])
    {
      assert Next(run[n], run[n + 1]);
      var a :| Step(run[n], run[n + 1], a);
      StepKeepsInv(run[n], run[n + 1], a);
      n := n + 1;
    }
  }
}
