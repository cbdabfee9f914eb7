/**
 What the bytes in the buffers are worth. Load and dump queue write into pinned nodes
 through the backend and the copy streams; a ready mark promises that a node holds the
 bytes of its (block, shard). The promise holds as long as no handle is let go while a
 write through it is in flight; the module `DumpQueue` says when the code does that.
 */
module TransferBytes {
  import opened Wrappers
  import opened BufferIndex

  /** `bytes` says whose data the node holds: None for neither finished nor known data. */
  datatype Buf = Buf(key: Key, ready: bool, bytes: Option<Key>)

  datatype Hand = Hand(pos: nat, owner: bool, key: Key)

  /** A write in flight was started by the backend load `bh`, or by a device-to-host copy. */
  datatype Source = ByBackend(bh: nat) | ByDevice

  datatype Write = Write(hand: nat, pos: nat, key: Key, source: Source)

  datatype Outcome = Pending | Loaded | Broken

  /**
   `via` says which backend load or copy writes, or wrote, through a handle; `flushed` holds
   the handles whose copy was followed by a good synchronisation; `escaped` records that a
   handle was let go with a write in flight. These three are history variables.
   */
  datatype State = State(
    bufs: seq<Buf>, hands: map<nat, Hand>, nextHand: nat, writes: set<Write>,
    loads: map<nat, Outcome>, via: map<nat, Source>, flushed: set<nat>, escaped: bool)

  ghost predicate Init(s: State) {
    && s.hands == map[] && s.writes == {} && s.loads == map[] && s.via == map[] && s.flushed == {} && !s.escaped
    && forall p :: 0 <= p < |s.bufs| ==> !s.bufs[p].ready
  }

  ghost predicate HeldAt(s: State, pos: nat) {
    exists h :: h in s.hands && s.hands[h].pos == pos
  }

  datatype Act =
    | Get(key: Key, pos: nat)
    | Load(hs: set<nat>, bh: nat) | Garble(w: Write) | LoadEnds(bh: nat, ok: bool) | MarkLoaded(h: nat, bh: nat)
    | CopyIn(h: nat) | SyncDevice(ok: bool) | MarkDumped(h: nat)
    | Release(hs: set<nat>)

  /**
   A node that carries the key is pinned once more; otherwise an unpinned node is re-keyed. The
   index is exact, so the node of a key that somebody holds is the one that is found.
   */
  ghost predicate GetStep(s: State, s': State, key: Key, pos: nat) {
    && pos < |s.bufs| && (forall h :: h in s.hands && s.hands[h].key == key ==> s.hands[h].pos == pos)
    && var h := Hand(pos, !HeldAt(s, pos), key);
    && var s1 := s.(hands := s.hands[s.nextHand := h], nextHand := s.nextHand + 1);
    || (s.bufs[pos].key == key && s' == s1)
    || (s.bufs[pos].key != key && !HeldAt(s, pos)
        && s' == s1.(bufs := s.bufs[pos := s.bufs[pos].(key := key, ready := false)]))
  }

  ghost predicate MayWrite(s: State, h: nat) {
    && h in s.hands && s.hands[h].owner && h !in s.via
    && s.hands[h].pos < |s.bufs| && !s.bufs[s.hands[h].pos].ready
  }

  ghost function WriteOf(s: State, h: nat, source: Source): Write
    requires h in s.hands
  {
    Write(h, s.hands[h].pos, s.hands[h].key, source)
  }

  /** The buffers once the writes of `source` are over: their data, or nothing usable. */
  ghost function Landed(s: State, source: Source, ok: bool): seq<Buf> {
    seq(|s.bufs|, p requires 0 <= p < |s.bufs| =>
      if w :| w in s.writes && w.source == source && w.pos == p
      then s.bufs[p].(bytes := if ok then Some(w.key) else None)
      else s.bufs[p])
  }

  ghost function Rest(s: State, source: Source): set<Write> {
    set w | w in s.writes && w.source != source
  }

  ghost function HandsOf(s: State, source: Source): set<nat> {
    set w | w in s.writes && w.source == source :: w.hand
  }

  predicate Ready(s: State, h: nat) {
    h in s.hands && s.hands[h].pos < |s.bufs| && s.bufs[s.hands[h].pos].ready
  }

  /** An unconditional write of the ready mark. */
  function SetReady(s: State, h: nat): State
    requires h in s.hands && s.hands[h].pos < |s.bufs|
  {
    s.(bufs := s.bufs[s.hands[h].pos := s.bufs[s.hands[h].pos].(ready := true)])
  }

  /** An unconditional start of the backend load `bh` through the handles `hs`. */
  ghost function Sent(s: State, hs: set<nat>, bh: nat): State
    requires hs <= s.hands.Keys
  {
    s.(writes := s.writes + (set h | h in hs :: WriteOf(s, h, ByBackend(bh))),
       loads := s.loads[bh := Pending], via := s.via + (map h | h in hs :: ByBackend(bh)))
  }

  ghost predicate Step(s: State, s': State, a: Act) {
    match a
    case Get(key, pos) => GetStep(s, s', key, pos)
    case Load(hs, bh) =>
      && bh !in s.loads && (forall h :: h in hs ==> MayWrite(s, h))
      && s' == Sent(s, hs, bh)
    case Garble(w) =>
      && w in s.writes && w.pos < |s.bufs|
      && s' == s.(bufs := s.bufs[w.pos := s.bufs[w.pos].(bytes := None)])
    case LoadEnds(bh, ok) =>
      && bh in s.loads && s.loads[bh] == Pending
      && s' == s.(bufs := Landed(s, ByBackend(bh), ok), writes := Rest(s, ByBackend(bh)),
                  loads := s.loads[bh := if ok then Loaded else Broken])
    case MarkLoaded(h, bh) =>
      && LoadIs(s, bh, Loaded) && h in s.via && s.via[h] == ByBackend(bh) && h in s.hands
      && s.hands[h].pos < |s.bufs|
      && s' == SetReady(s, h)
    case CopyIn(h) =>
      && MayWrite(s, h)
      && s' == s.(writes := s.writes + {WriteOf(s, h, ByDevice)}, via := s.via[h := ByDevice])
    case SyncDevice(ok) =>
      s' == s.(bufs := Landed(s, ByDevice, ok), writes := Rest(s, ByDevice),
               flushed := if ok then s.flushed + HandsOf(s, ByDevice) else s.flushed)
    case MarkDumped(h) =>
      && h in s.hands && s.hands[h].pos < |s.bufs|
      && (h in s.flushed || (s.hands[h].owner && s.bufs[s.hands[h].pos].ready))
      && s' == SetReady(s, h)
    case Release(hs) => hs <= s.hands.Keys && s' == Dropped(s, hs)
  }

  /** Handles are let go; one with a write in flight escapes. */
  ghost function Dropped(s: State, hs: set<nat>): State {
    s.(hands := s.hands - hs, escaped := s.escaped || AnyInFlight(s, hs))
  }

  ghost predicate AnyInFlight(s: State, hs: set<nat>) {
    exists h :: h in hs && InFlight(s, h)
  }

  ghost predicate InFlight(s: State, h: nat) {
    exists w :: w in s.writes && w.hand == h
  }

  // ---------------------------------------------------------------- invariant

  predicate SameNodeOwners(g: Hand, h: Hand) {
    g.owner && h.owner && g.pos == h.pos
  }

  predicate SameKey(g: Hand, h: Hand) {
    g.key == h.key
  }

  predicate LoadIs(s: State, bh: nat, o: Outcome) {
    bh in s.loads && s.loads[bh] == o
  }

  ghost predicate HandsOk(s: State) {
    LiveOk(s) && ViaOk(s)
  }

  /** Live handles agree with their nodes; a node has one owner at most, and a key that is held one node. */
  ghost predicate LiveOk(s: State) {
    && (forall h :: h in s.hands ==>
          h < s.nextHand && s.hands[h].pos < |s.bufs| && s.bufs[s.hands[h].pos].key == s.hands[h].key)
    && (forall g, h :: g in s.hands && h in s.hands && SameNodeOwners(s.hands[g], s.hands[h]) ==> g == h)
    && (forall g, h :: g in s.hands && h in s.hands && SameKey(s.hands[g], s.hands[h]) ==>
          s.hands[g].pos == s.hands[h].pos)
  }

  ghost predicate ViaOk(s: State) {
    && (forall h :: h in s.via ==> h < s.nextHand && (h in s.hands ==> s.hands[h].owner))
    && (forall h :: h in s.via && s.via[h].ByBackend? ==> s.via[h].bh in s.loads)
    && (forall h :: h in s.flushed ==> h in s.via && s.via[h] == ByDevice)
  }

  /** A write in flight goes through a live owner handle, to its node, which is not ready. */
  ghost predicate WritesOk(s: State) {
    forall w :: w in s.writes ==> WriteOk(s, w)
  }

  predicate WriteOk(s: State, w: Write) {
    && w.hand in s.hands && s.hands[w.hand] == Hand(w.pos, true, w.key)
    && w.hand in s.via && s.via[w.hand] == w.source && !Finished(s, w.hand)
    && w.pos < |s.bufs| && !s.bufs[w.pos].ready
    && (w.source.ByBackend? ==> LoadIs(s, w.source.bh, Pending))
  }

  /** The writes through the handle ended well. */
  predicate Finished(s: State, h: nat) {
    h in s.flushed || (h in s.via && s.via[h].ByBackend? && LoadIs(s, s.via[h].bh, Loaded))
  }

  /** The handle's node holds the data of its key. */
  ghost predicate Filled(s: State, h: nat) {
    h in s.hands && s.hands[h].pos < |s.bufs| && s.bufs[s.hands[h].pos].bytes == Some(s.hands[h].key)
  }

  ghost predicate BytesOk(s: State) {
    && (forall p :: 0 <= p < |s.bufs| && s.bufs[p].ready ==> s.bufs[p].bytes == Some(s.bufs[p].key))
    && (forall h :: h in s.hands && Finished(s, h) ==> Filled(s, h))
    && (forall h :: h in s.hands && h in s.via && s.via[h].ByBackend? && LoadIs(s, s.via[h].bh, Pending) ==>
          WriteOf(s, h, s.via[h]) in s.writes)
  }

  ghost predicate Inv(s: State) {
    !s.escaped ==> HandsOk(s) && WritesOk(s) && BytesOk(s)
  }

  lemma InitInv(s: State)
    requires Init(s)
    ensures Inv(s)
  {
  }

  ghost predicate Good(s: State) {
    HandsOk(s) && WritesOk(s) && BytesOk(s)
  }

  // ---------------------------------------------------------------- every step keeps the invariant

  /** An unheld node has no write in flight. */
  lemma UnheldIsQuiet(s: State, pos: nat)
    requires WritesOk(s) && !HeldAt(s, pos)
    ensures forall w :: w in s.writes ==> w.pos != pos
  {
  }

  /** What neither makes handles nor re-keys nodes keeps the handles right. */
  lemma LiveSame(s: State, s': State)
    requires LiveOk(s) && s'.hands == s.hands && s'.nextHand == s.nextHand && |s'.bufs| == |s.bufs|
    requires forall p :: 0 <= p < |s.bufs| ==> s'.bufs[p].key == s.bufs[p].key
    ensures LiveOk(s')
  {
  }

  lemma GetLive(s: State, s': State, key: Key, pos: nat)
    requires LiveOk(s) && GetStep(s, s', key, pos)
    ensures LiveOk(s')
  {
    forall h | h in s.hands && s.hands[h].pos == pos ensures HeldAt(s, pos) {
    }
    forall g, h | g in s'.hands && h in s'.hands && SameKey(s'.hands[g], s'.hands[h])
      ensures s'.hands[g].pos == s'.hands[h].pos
    {
      if g != s.nextHand && h != s.nextHand {
        assert SameKey(s.hands[g], s.hands[h]);
      }
    }
    forall g, h | g in s'.hands && h in s'.hands && SameNodeOwners(s'.hands[g], s'.hands[h]) ensures g == h {
      if g != s.nextHand && h != s.nextHand {
        assert SameNodeOwners(s.hands[g], s.hands[h]);
      }
    }
  }

  lemma GetHands(s: State, s': State, key: Key, pos: nat)
    requires HandsOk(s) && GetStep(s, s', key, pos)
    ensures HandsOk(s')
  {
    GetLive(s, s', key, pos);
    hide LiveOk;
    assert forall h :: h in s'.via ==> h != s.nextHand;
  }

  lemma GetWrites(s: State, s': State, key: Key, pos: nat)
    requires Good(s) && GetStep(s, s', key, pos)
    ensures WritesOk(s')
  {
    if !HeldAt(s, pos) {
      UnheldIsQuiet(s, pos);
    }
    assert forall w :: w in s.writes ==> w.hand in s.hands && w.hand != s.nextHand;
  }

  lemma GetBytes(s: State, s': State, key: Key, pos: nat)
    requires Good(s) && GetStep(s, s', key, pos)
    ensures BytesOk(s')
  {
    assert s.nextHand !in s.via;
    forall h | h in s.hands && s.hands[h].pos == pos ensures HeldAt(s, pos) {
    }
    assert s'.bufs == s.bufs || !HeldAt(s, pos);
    forall h | h in s'.hands && Finished(s', h) ensures Filled(s', h) {
      assert h != s.nextHand && Filled(s, h);
    }
  }

  /** Owners that start a write through their handles keep the record of writes right. */
  lemma ViaGrows(s: State, s': State, hs: set<nat>, source: Source)
    requires ViaOk(s) && s'.hands == s.hands && s'.nextHand == s.nextHand && s'.flushed == s.flushed
    requires s'.via == s.via + (map h | h in hs :: source)
    requires forall h :: h in hs ==> h < s.nextHand && h in s.hands && s.hands[h].owner && h !in s.via
    requires forall bh :: bh in s.loads ==> bh in s'.loads
    requires source.ByBackend? ==> source.bh in s'.loads
    ensures ViaOk(s')
  {
  }

  /** What may start a write: a live owner without one, of a node that is not ready. */
  lemma MayWriteMeans(s: State, h: nat)
    requires LiveOk(s) && MayWrite(s, h)
    ensures h < s.nextHand && h in s.hands && s.hands[h].owner && h !in s.via
  {
  }

  lemma LoadHands(s: State, s': State, hs: set<nat>, bh: nat)
    requires Good(s) && Step(s, s', Load(hs, bh))
    ensures HandsOk(s')
  {
    hide WritesOk, BytesOk, LiveOk, ViaOk, MayWrite;
    LiveSame(s, s');
    forall h | h in hs ensures h < s.nextHand && h in s.hands && s.hands[h].owner && h !in s.via {
      MayWriteMeans(s, h);
    }
    ViaGrows(s, s', hs, ByBackend(bh));
  }

  lemma LoadWrites(s: State, s': State, hs: set<nat>, bh: nat)
    requires Good(s) && Step(s, s', Load(hs, bh))
    ensures WritesOk(s')
  {
    forall w | w in s'.writes
      ensures WriteOk(s', w)
    {
      if w in s.writes {
        assert WriteOk(s, w) && w.hand !in hs;
      } else {
        assert w.hand in hs && w == WriteOf(s, w.hand, ByBackend(bh));
      }
    }
  }

  lemma LoadBytes(s: State, s': State, hs: set<nat>, bh: nat)
    requires Good(s) && Step(s, s', Load(hs, bh))
    ensures BytesOk(s')
  {
    forall h | h in s'.hands && Finished(s', h) ensures Filled(s', h) {
      assert Finished(s, h) && Filled(s, h);
    }
  }

  lemma CopyHands(s: State, s': State, h: nat)
    requires Good(s) && Step(s, s', CopyIn(h))
    ensures HandsOk(s') && WritesOk(s')
  {
    CopyWrites(s, s', h);
    CopyVia(s, s', h);
    hide WritesOk, BytesOk, LiveOk, ViaOk, MayWrite;
    LiveSame(s, s');
  }

  lemma CopyVia(s: State, s': State, h: nat)
    requires LiveOk(s) && ViaOk(s) && Step(s, s', CopyIn(h))
    ensures ViaOk(s')
  {
    MayWriteMeans(s, h);
    hide LiveOk;
  }

  lemma CopyWrites(s: State, s': State, h: nat)
    requires Good(s) && Step(s, s', CopyIn(h))
    ensures WritesOk(s')
  {
    MayWriteMeans(s, h);
    assert h !in s.flushed && s.hands[h].pos < |s.bufs| && !s.bufs[s.hands[h].pos].ready;
    hide LiveOk, BytesOk, ViaOk;
    forall w | w in s'.writes ensures WriteOk(s', w) {
      assert w in s.writes ==> WriteOk(s, w);
    }
  }

  lemma CopyBytes(s: State, s': State, h: nat)
    requires Good(s) && Step(s, s', CopyIn(h))
    ensures BytesOk(s')
  {
    forall g | g in s'.hands && Finished(s', g) ensures Filled(s', g) {
      assert Finished(s, g) && Filled(s, g);
    }
  }

  /** A node with finished data has no write in flight. */
  lemma FilledIsQuiet(s: State, h: nat, w: Write)
    requires HandsOk(s) && WritesOk(s) && h in s.hands && Finished(s, h) && w in s.writes
    ensures w.pos != s.hands[h].pos
  {
    if w.pos == s.hands[h].pos {
      assert SameNodeOwners(s.hands[h], s.hands[w.hand]);
    }
  }

  /** Only nodes with a write in flight change, and only in their bytes. */
  ghost predicate BytesOnly(s: State, s': State) {
    && |s'.bufs| == |s.bufs|
    && (forall p :: 0 <= p < |s.bufs| ==> s'.bufs[p].key == s.bufs[p].key && s'.bufs[p].ready == s.bufs[p].ready)
    && (forall p :: 0 <= p < |s.bufs| && (forall w :: w in s.writes ==> w.pos != p) ==> s'.bufs[p] == s.bufs[p])
  }

  /** Such a change keeps the data of ready nodes and of finished handles. */
  lemma BytesOnlyKeeps(s: State, s': State)
    requires Good(s) && s'.hands == s.hands && BytesOnly(s, s')
    ensures forall p :: 0 <= p < |s'.bufs| && s'.bufs[p].ready ==> s'.bufs[p].bytes == Some(s'.bufs[p].key)
    ensures forall h :: h in s.hands && Finished(s, h) ==> Filled(s', h)
  {
    forall h | h in s.hands && Finished(s, h) ensures Filled(s', h) {
      forall w | w in s.writes ensures w.pos != s.hands[h].pos {
        FilledIsQuiet(s, h, w);
      }
      assert Filled(s, h);
    }
  }

  lemma GarbleWrites(s: State, s': State, w: Write)
    requires WritesOk(s) && Step(s, s', Garble(w))
    ensures WritesOk(s') && BytesOnly(s, s')
  {
    forall v | v in s'.writes ensures WriteOk(s', v) {
      assert WriteOk(s, v);
    }
  }

  lemma GarbleKeeps(s: State, s': State, w: Write)
    requires Good(s) && Step(s, s', Garble(w))
    ensures Good(s')
  {
    hide LiveOk, WritesOk, BytesOnly, InFlight;
    GarbleWrites(s, s', w);
    BytesOnlyKeeps(s, s');
    LiveSame(s, s');
  }

  /** Once the writes of one source are over, each node it wrote has its data, and no other changed. */
  lemma LandedBytes(s: State, s': State, source: Source, ok: bool)
    requires HandsOk(s) && WritesOk(s) && s'.bufs == Landed(s, source, ok)
    ensures BytesOnly(s, s')
    ensures forall w :: w in s.writes && w.source == source && ok ==> s'.bufs[w.pos].bytes == Some(w.key)
  {
    forall w, v | w in s.writes && v in s.writes && w.pos == v.pos ensures w.key == v.key {
      assert SameNodeOwners(s.hands[w.hand], s.hands[v.hand]);
    }
  }

  lemma LandedHands(s: State, s': State, source: Source)
    requires HandsOk(s) && WritesOk(s) && BytesOnly(s, s') && s'.hands == s.hands && s'.nextHand == s.nextHand
    requires s'.writes == Rest(s, source) && s'.via == s.via && s'.loads.Keys == s.loads.Keys
    requires forall bh :: bh in s.loads && ByBackend(bh) != source ==> s'.loads[bh] == s.loads[bh]
    requires forall h :: h in s'.flushed ==> h in s.flushed || (h in s.via && s.via[h] == ByDevice == source)
    ensures HandsOk(s') && WritesOk(s')
  {
    LiveSame(s, s');
    hide LiveOk;
  }

  lemma LoadEndsHands(s: State, s': State, bh: nat, ok: bool)
    requires Good(s) && Step(s, s', LoadEnds(bh, ok))
    ensures HandsOk(s') && WritesOk(s')
  {
    LandedBytes(s, s', ByBackend(bh), ok);
    LandedHands(s, s', ByBackend(bh));
  }

  lemma LoadEndsFilled(s: State, s': State, bh: nat, ok: bool, h: nat)
    requires Good(s) && Step(s, s', LoadEnds(bh, ok)) && h in s'.hands && Finished(s', h)
    ensures Filled(s', h)
  {
    LandedBytes(s, s', ByBackend(bh), ok);
    BytesOnlyKeeps(s, s');
    if !Finished(s, h) {
      assert WriteOf(s, h, ByBackend(bh)) in s.writes;
    }
  }

  lemma LoadEndsKeeps(s: State, s': State, bh: nat, ok: bool)
    requires Good(s) && Step(s, s', LoadEnds(bh, ok))
    ensures Good(s')
  {
    LoadEndsHands(s, s', bh, ok);
    LandedBytes(s, s', ByBackend(bh), ok);
    BytesOnlyKeeps(s, s');
    forall h | h in s'.hands && Finished(s', h) ensures Filled(s', h) {
      LoadEndsFilled(s, s', bh, ok, h);
    }
  }

  lemma SyncHands(s: State, s': State, ok: bool)
    requires Good(s) && Step(s, s', SyncDevice(ok))
    ensures HandsOk(s') && WritesOk(s')
  {
    LandedBytes(s, s', ByDevice, ok);
    LandedHands(s, s', ByDevice);
  }

  lemma SyncFilled(s: State, s': State, ok: bool, h: nat)
    requires Good(s) && Step(s, s', SyncDevice(ok)) && h in s'.hands && Finished(s', h)
    ensures Filled(s', h)
  {
    LandedBytes(s, s', ByDevice, ok);
    BytesOnlyKeeps(s, s');
    if !Finished(s, h) {
      var w :| w in s.writes && w.source == ByDevice && w.hand == h;
    }
  }

  lemma SyncKeeps(s: State, s': State, ok: bool)
    requires Good(s) && Step(s, s', SyncDevice(ok))
    ensures Good(s')
  {
    SyncHands(s, s', ok);
    LandedBytes(s, s', ByDevice, ok);
    BytesOnlyKeeps(s, s');
    forall h | h in s'.hands && Finished(s', h) ensures Filled(s', h) {
      SyncFilled(s, s', ok, h);
    }
  }

  /** Marking a node that holds its data ready. */
  lemma MarkKeeps(s: State, s': State, h: nat)
    requires Good(s) && h in s.hands && Finished(s, h) && s.hands[h].pos < |s.bufs|
    requires s' == SetReady(s, h)
    ensures Good(s')
  {
    forall w | w in s.writes ensures w.pos != s.hands[h].pos {
      FilledIsQuiet(s, h, w);
    }
    assert Filled(s, h);
    forall g | g in s'.hands && Finished(s', g) ensures Filled(s', g) {
      assert Filled(s, g);
    }
  }

  lemma ReleaseKeeps(s: State, s': State, hs: set<nat>)
    requires Good(s) && Step(s, s', Release(hs)) && !s'.escaped
    ensures Good(s')
  {
    forall w | w in s.writes ensures w.hand !in hs {
      assert w.hand in hs ==> InFlight(s, w.hand);
    }
    forall g | g in s'.hands && Finished(s', g) ensures Filled(s', g) {
      assert Filled(s, g);
    }
  }

  lemma StepKeepsInv(s: State, s': State, a: Act)
    requires Inv(s) && Step(s, s', a)
    ensures Inv(s')
  {
    if !s'.escaped {
      match a
      case Get(key, pos) =>
        GetHands(s, s', key, pos);
        GetWrites(s, s', key, pos);
        GetBytes(s, s', key, pos);
      case Load(hs, bh) =>
        LoadHands(s, s', hs, bh);
        LoadWrites(s, s', hs, bh);
        LoadBytes(s, s', hs, bh);
      case Garble(w) => GarbleKeeps(s, s', w);
      case LoadEnds(bh, ok) => LoadEndsKeeps(s, s', bh, ok);
      case MarkLoaded(h, bh) => MarkKeeps(s, s', h);
      case CopyIn(h) =>
        CopyHands(s, s', h);
        CopyBytes(s, s', h);
      case SyncDevice(ok) => SyncKeeps(s, s', ok);
      case MarkDumped(h) => MarkDumpedKeeps(s, s', h);
      case Release(hs) => ReleaseKeeps(s, s', hs);
    }
  }

  lemma MarkDumpedKeeps(s: State, s': State, h: nat)
    requires Good(s) && Step(s, s', MarkDumped(h))
    ensures Good(s')
  {
    if h in s.flushed {
      MarkKeeps(s, s', h);
    } else {
      assert s' == s;
    }
  }

  // ---------------------------------------------------------------- what a ready mark is worth

  ghost predicate Next(s: State, s': State) {
    exists a :: Step(s, s', a)
  }

  ghost predicate Steps(run: seq<State>) {
    |run| > 0 && forall n :: 0 <= n < |run| - 1 ==> Next(run[n], run[n + 1])
  }

  ghost predicate Run(run: seq<State>) {
    Steps(run) && Init(run[0])
  }

  /**
   In every run in which no handle was let go with a write in flight, a ready node holds
   the bytes of its (block, shard), and nothing is about to write to it.
   */
  lemma {:induction false} ReadyMeansBytes(run: seq<State>)
    requires Run(run) && !run[|run| - 1].escaped
    ensures var s := run[|run| - 1];
      && (forall p :: 0 <= p < |s.bufs| && s.bufs[p].ready ==> s.bufs[p].bytes == Some(s.bufs[p].key))
      && (forall w :: w in s.writes ==> w.pos < |s.bufs| && !s.bufs[w.pos].ready && HeldAt(s, w.pos))
  {
    InitInv(run[0]);
    var n := 0;
    while n < |run| - 1
      invariant 0 <= n < |run|
      invariant Inv(run[n])
    {
      assert Next(run[n], run[n + 1]);
      var a :| Step(run[n], run[n + 1], a);
      StepKeepsInv(run[n], run[n + 1], a);
      n := n + 1;
    }
  }

  /** One node, for `k1` first and for `k2` later, at the points of the run below. */
  function OneNode(key: Key, ready: bool, bytes: Option<Key>): seq<Buf> {
    [Buf(key, ready, bytes)]
  }

  /**
   The promise does break once a handle escapes: the backend's late write to a node that
   was re-keyed meanwhile overwrites the bytes of a ready node.
   */
  lemma EscapeBreaksReady(k1: Key, k2: Key) returns (run: seq<State>)
    requires k1 != k2
    ensures Run(run) && run[|run| - 1].escaped
    ensures run[|run| - 1].bufs == OneNode(k2, true, Some(k1))
  {
    var s3 := LetGo(k1);
    var s4 := s3.(hands := map[1 := Hand(0, true, k2)], nextHand := 2, bufs := OneNode(k2, false, None));
    assert !HeldAt(s3, 0);
    assert Step(s3, s4, Get(k2, 0));
    var s5 := s4.(writes := {Write(0, 0, k1, ByBackend(1)), Write(1, 0, k2, ByDevice)},
                  via := map[0 := ByBackend(1), 1 := ByDevice]);
    assert WriteOf(s4, 1, ByDevice) == Write(1, 0, k2, ByDevice);
    assert Step(s4, s5, CopyIn(1));
    var run1 := EarlyRelease(k1);
    var run2 := LateWrite(k1, k2, s5);
    assert Next(s3, s4) && Next(s4, s5);
    run := Joined(run1, [s3, s4, s5]);
    run := Joined(run, run2);
  }

  /** `k1`'s handle is gone, and its backend load is still writing. */
  function LetGo(k1: Key): State {
    State(OneNode(k1, false, None), map[], 1, {Write(0, 0, k1, ByBackend(1))},
          map[1 := Pending], map[0 := ByBackend(1)], {}, true)
  }

  lemma Joined(a: seq<State>, b: seq<State>) returns (run: seq<State>)
    requires Steps(a) && Steps(b) && a[|a| - 1] == b[0]
    ensures Steps(run) && run[0] == a[0] && run[|run| - 1] == b[|b| - 1]
  {
    run := a + b[1..];
    forall n | 0 <= n < |run| - 1 ensures Next(run[n], run[n + 1]) {
      if n < |a| - 1 {
        assert run[n] == a[n] && run[n + 1] == a[n + 1];
      } else {
        var m := n - (|a| - 1);
        assert run[n] == b[m] && run[n + 1] == b[m + 1];
      }
    }
  }

  lemma EarlyRelease(k1: Key) returns (run: seq<State>)
    ensures Steps(run) && Init(run[0]) && run[|run| - 1] == LetGo(k1)
  {
    var s0 := State(OneNode(k1, false, None), map[], 0, {}, map[], map[], {}, false);
    var w0 := Write(0, 0, k1, ByBackend(1));
    var s1 := s0.(hands := map[0 := Hand(0, true, k1)], nextHand := 1);
    assert !HeldAt(s0, 0);
    assert Step(s0, s1, Get(k1, 0));
    var s2 := s1.(writes := {w0}, loads := map[1 := Pending], via := map[0 := ByBackend(1)]);
    assert WriteOf(s1, 0, ByBackend(1)) == w0;
    assert (set h | h in {0} :: WriteOf(s1, h, ByBackend(1))) == {w0};
    assert Step(s1, s2, Load({0}, 1));
    var s3 := LetGo(k1);
    assert w0 in s2.writes && InFlight(s2, 0) && s2.hands - {0} == map[];
    assert Step(s2, s3, Release({0}));
    run := [s0, s1, s2, s3];
  }

  lemma LateWrite(k1: Key, k2: Key, s5: State) returns (run: seq<State>)
    requires k1 != k2
    requires s5 == State(OneNode(k2, false, None), map[1 := Hand(0, true, k2)], 2,
                         {Write(0, 0, k1, ByBackend(1)), Write(1, 0, k2, ByDevice)},
                         map[1 := Pending], map[0 := ByBackend(1), 1 := ByDevice], {}, true)
    ensures Steps(run) && run[0] == s5
    ensures run[|run| - 1].escaped && run[|run| - 1].bufs == OneNode(k2, true, Some(k1))
  {
    var w0, w1 := Write(0, 0, k1, ByBackend(1)), Write(1, 0, k2, ByDevice);
    var s6 := s5.(bufs := OneNode(k2, false, Some(k2)), writes := {w0}, flushed := {1});
    assert w1 in s5.writes;
    assert Landed(s5, ByDevice, true) == s6.bufs;
    assert Rest(s5, ByDevice) == {w0} && HandsOf(s5, ByDevice) == {1};
    assert Step(s5, s6, SyncDevice(true));
    var s7 := s6.(bufs := OneNode(k2, true, Some(k2)));
    assert Step(s6, s7, MarkDumped(1));
    var s8 := s7.(bufs := OneNode(k2, true, Some(k1)), writes := {}, loads := map[1 := Loaded]);
    assert w0 in s7.writes;
    assert Landed(s7, ByBackend(1), true) == s8.bufs && Rest(s7, ByBackend(1)) == {};
    assert Step(s7, s8, LoadEnds(1, true));
    run := [s5, s6, s7, s8];
  }
}
