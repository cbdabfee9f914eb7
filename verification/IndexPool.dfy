/**
 The lock-free pool of indices: a free list threaded through `next`, whose head carries a
 version. First the list and the pool without contention, as the code builds it; then
 every load, plain access and compare-and-swap of every thread as one atomic step.
 */
module IndexPool {
  import opened Arithmetic

  /** `npos`: no index was free. */
  const NPOS := 0xFFFF_FFFF

  datatype Pointer = Pointer(slot: nat, ver: nat)

  function SlotAt(free: seq<nat>, k: nat): nat {
    if k < |free| then free[k] else 0
  }

  /** From `slot`, following `next` visits exactly the slots of `free`, once each, and ends in 0. */
  ghost predicate FreeList(next: seq<nat>, slot: nat, free: seq<nat>) {
    && slot == SlotAt(free, 0)
    && (forall k :: 0 <= k < |free| ==> 0 < free[k] < |next|)
    && (forall k {:trigger next[free[k]]} :: 0 <= k < |free| ==> next[free[k]] == SlotAt(free, k + 1))
    && (forall j, k :: 0 <= j < k < |free| ==> free[j] != free[k])
  }

  /** Slots that a write of `next` may touch without disturbing the list. */
  lemma WriteOutside(next: seq<nat>, slot: nat, free: seq<nat>, x: nat, v: nat)
    requires FreeList(next, slot, free) && x < |next| && x !in free
    ensures FreeList(next[x := v], slot, free)
  {
  }

  lemma PushSlot(next: seq<nat>, slot: nat, free: seq<nat>, x: nat)
    requires FreeList(next, slot, free) && 0 < x < |next| && x !in free && next[x] == slot
    ensures FreeList(next, x, [x] + free)
  {
    var free' := [x] + free;
    assert forall k :: 0 < k < |free'| ==> free'[k] == free[k - 1];
  }

  lemma PopSlot(next: seq<nat>, slot: nat, free: seq<nat>)
    requires FreeList(next, slot, free) && free != []
    ensures FreeList(next, next[slot], free[1..])
  {
    assert next[free[0]] == SlotAt(free, 1);
    assert forall k :: 0 <= k < |free| - 1 ==> free[1..][k] == free[k + 1];
  }

  // ---------------------------------------------------------------- without contention

  class Pool {
    const capacity: nat
    const next: array<nat>
    var pointer: Pointer
    ghost var free: seq<nat>

    ghost predicate Valid()
      reads this, next
    {
      0 < capacity && next.Length == capacity + 1 && FreeList(next[..], pointer.slot, free)
    }

    /** `Setup`: slot 1 heads the list, every slot links to the next one, the last to 0. */
    constructor (n: nat)
      requires 0 < n
      ensures Valid() && capacity == n && pointer == Pointer(1, 0)
      ensures free == seq(n, k => k + 1)
      ensures fresh(next)
    {
      capacity := n;
      next := new nat[n + 1](_ => 0);
      pointer := Pointer(1, 0);
      free := seq(n, k => k + 1);
      new;
      var slot := 1;
      while slot <= capacity
        invariant 1 <= slot <= n + 1 && pointer == Pointer(1, 0) && free == seq(n, k => k + 1)
        invariant forall k :: 1 <= k < slot ==> next[k] == k + 1
      {
        next[slot] := slot + 1;
        slot := slot + 1;
      }
      next[capacity] := 0;
    }

    /** One compare-and-swap on the head. */
    method CompareExchange(expected: Pointer, desired: Pointer) returns (ok: bool)
      modifies this`pointer
      ensures ok <==> old(pointer) == expected
      ensures pointer == if ok then desired else old(pointer)
    {
      ok := pointer == expected;
      if ok {
        pointer := desired;
      }
    }

    /** Takes the first free index, or none exactly when the list is empty. */
    method Acquire() returns (idx: nat)
      requires Valid()
      modifies this`pointer, this`free
      ensures Valid()
      ensures old(free) == [] ==> idx == NPOS && free == [] && pointer == old(pointer)
      ensures old(free) != [] ==>
        idx == old(free)[0] - 1 && free == old(free)[1..] && pointer.ver == old(pointer.ver) + 1
    {
      idx := NPOS;
      var ok := false;
      while !ok
        invariant !ok ==> pointer == old(pointer) && free == old(free)
        invariant ok ==> Valid() && old(free) != []
        invariant !ok ==> idx == NPOS
        invariant ok ==> idx == old(free)[0] - 1 && free == old(free)[1..] && pointer.ver == old(pointer.ver) + 1
        decreases !ok
      {
        var ptr := pointer;
        if ptr.slot == 0 {
          return;
        }
        PopSlot(next[..], ptr.slot, free);
        var n := next[ptr.slot];
        ok := CompareExchange(ptr, Pointer(n, ptr.ver + 1));
        free := free[1..];
        idx := ptr.slot - 1;
      }
    }

    /** Gives an index back; an index the pool does not have is ignored. */
    method Release(idx: nat)
      requires Valid() && (idx < capacity ==> idx + 1 !in free)
      modifies this`pointer, this`free, next
      ensures Valid()
      ensures idx >= capacity ==> free == old(free) && pointer == old(pointer)
      ensures idx < capacity ==> free == [idx + 1] + old(free) && pointer.ver == old(pointer.ver) + 1
    {
      if idx >= capacity {
        return;
      }
      var slot := idx + 1;
      var ok := false;
      while !ok
        invariant !ok ==> pointer == old(pointer) && free == old(free)
        invariant ok ==> free == [slot] + old(free) && pointer.ver == old(pointer.ver) + 1
        invariant FreeList(next[..], pointer.slot, free)
        decreases !ok
      {
        var ptr := pointer;
        ghost var was := next[..];
        WriteOutside(was, ptr.slot, free, slot, ptr.slot);
        next[slot] := ptr.slot;
        assert next[..] == was[slot := ptr.slot];
        PushSlot(next[..], ptr.slot, free, slot);
        ok := CompareExchange(ptr, Pointer(slot, ptr.ver + 1));
        free := [slot] + free;
      }
    }
  }

  // ---------------------------------------------------------------- under contention

  /** What the last call returned: an index or, for `Acquire`, none; `Release` returns nothing. */
  datatype Reply = Index(idx: nat) | NoIndex | Nothing

  datatype PC =
    | Idle(reply: Reply)
    | AcqLoad
    | AcqRead(ptr: Pointer)
    | AcqCas(ptr: Pointer, n: nat)
    | RelLoad(slot: nat)
    | RelWrite(slot: nat, ptr: Pointer)
    | RelCas(slot: nat, ptr: Pointer)

  /**
   History variables: `free` is the abstract free list, `held` the slots handed out, and
   `returning` the slots on their way back, with the thread that brings each of them.
   */
  datatype State = State(next: seq<nat>, head: Pointer, threads: seq<PC>,
                         free: seq<nat>, held: set<nat>, returning: map<nat, nat>)

  datatype Act = BeginAcquire | BeginRelease(idx: nat) | Load | ReadNext | WriteNext | Cas(spurious: bool)

  ghost predicate Init(capacity: nat, s: State) {
    && 0 < capacity && |s.next| == capacity + 1 && s.head == Pointer(1, 0)
    && s.free == seq(capacity, k => k + 1) && FreeList(s.next, 1, s.free) && s.held == {} && s.returning == map[]
    && forall t :: 0 <= t < |s.threads| ==> s.threads[t].Idle?
  }

  /** `Setup` establishes the initial state of the contended pool, whatever the number of threads. */
  lemma SetupIsInit(pool: Pool, n: nat, threads: nat)
    requires pool.Valid() && pool.capacity == n && pool.pointer == Pointer(1, 0) && pool.free == seq(n, k => k + 1)
    ensures Init(n, State(pool.next[..], pool.pointer, seq(threads, _ => Idle(Nothing)), pool.free, {}, map[]))
  {
  }

  function Go(s: State, t: nat, pc: PC): State
    requires t < |s.threads|
  {
    s.(threads := s.threads[t := pc])
  }

  function Rest(free: seq<nat>): seq<nat> {
    if free == [] then [] else free[1..]
  }

  /** A caller may release any index it holds, and any index the pool does not have. */
  ghost predicate Step(s: State, s': State, t: nat, a: Act) {
    && t < |s.threads|
    && match (a, s.threads[t])
       case (BeginAcquire, Idle(_)) => s' == Go(s, t, AcqLoad)
       case (BeginRelease(idx), Idle(_)) =>
         if idx + 1 >= |s.next| then s' == s
         else idx + 1 in s.held && s' == Go(s, t, RelLoad(idx + 1)).(
                                          held := s.held - {idx + 1}, returning := s.returning[idx + 1 := t])
       case (Load, AcqLoad) =>
         s' == if s.head.slot == 0 then Go(s, t, Idle(NoIndex)) else Go(s, t, AcqRead(s.head))
       case (ReadNext, AcqRead(ptr)) => ptr.slot < |s.next| && s' == Go(s, t, AcqCas(ptr, s.next[ptr.slot]))
       case (Cas(spurious), AcqCas(ptr, n)) =>
         if s.head == ptr && !spurious then
           s' == Go(s, t, Idle(if ptr.slot > 0 then Index(ptr.slot - 1) else NoIndex)).(
             head := Pointer(n, ptr.ver + 1), free := Rest(s.free), held := s.held + {ptr.slot})
         else s' == Go(s, t, AcqLoad)
       case (Load, RelLoad(slot)) => s' == Go(s, t, RelWrite(slot, s.head))
       case (WriteNext, RelWrite(slot, ptr)) =>
         slot < |s.next| && s' == Go(s, t, RelCas(slot, ptr)).(next := s.next[slot := ptr.slot])
       case (Cas(spurious), RelCas(slot, ptr)) =>
         if s.head == ptr && !spurious then
           s' == Go(s, t, Idle(Nothing)).(head := Pointer(slot, ptr.ver + 1), free := [slot] + s.free,
                                       returning := s.returning - {slot})
         else s' == Go(s, t, RelLoad(slot))
       case _ => false
  }

  predicate Releasing(pc: PC) {
    pc.RelLoad? || pc.RelWrite? || pc.RelCas?
  }

  /** What a thread knows: a head it loaded is the current one as long as the version is. */
  ghost predicate PCOk(s: State, t: nat)
    requires t < |s.threads|
  {
    match s.threads[t]
    case AcqRead(ptr) => Known(s, ptr) && 0 < ptr.slot < |s.next|
    case AcqCas(ptr, n) =>
      && Known(s, ptr) && 0 < ptr.slot < |s.next|
      && (ptr.ver == s.head.ver ==> n == s.next[ptr.slot])
    case RelLoad(slot) => true
    case RelWrite(slot, ptr) => Known(s, ptr)
    case RelCas(slot, ptr) => Known(s, ptr) && slot < |s.next| && s.next[slot] == ptr.slot
    case _ => true
  }

  ghost predicate Known(s: State, ptr: Pointer) {
    ptr.ver <= s.head.ver && (ptr.ver == s.head.ver ==> ptr == s.head)
  }

  /** Thread t is on its way to put slot x back. */
  predicate Brings(s: State, t: nat, x: nat) {
    t < |s.threads| && Releasing(s.threads[t]) && s.threads[t].slot == x
  }

  /** A slot on its way back is in no list, in no caller's hands, and brought by one thread. */
  ghost predicate InTransit(s: State) {
    && (forall t :: 0 <= t < |s.threads| && Releasing(s.threads[t]) ==>
          s.threads[t].slot in s.returning && s.returning[s.threads[t].slot] == t)
    && (forall x :: x in s.returning ==> 0 < x < |s.next| && x !in s.free && x !in s.held)
  }

  /** And none is left behind. */
  ghost predicate AllBrought(s: State) {
    forall x :: x in s.returning ==> Brings(s, s.returning[x], x)
  }

  ghost predicate Inv(s: State) {
    && |s.next| > 1
    && FreeList(s.next, s.head.slot, s.free)
    && (forall x :: x in s.held ==> 0 < x < |s.next| && x !in s.free)
    && (forall x :: 0 < x < |s.next| ==> x in s.free || x in s.held || x in s.returning)
    && InTransit(s) && AllBrought(s)
    && (forall t :: 0 <= t < |s.threads| ==> PCOk(s, t))
  }

  lemma InitInv(capacity: nat, s: State)
    requires Init(capacity, s)
    ensures Inv(s)
  {
    forall x | 0 < x < |s.next| ensures x in s.free {
      assert s.free[x - 1] == x;
    }
  }

  // ---------------------------------------------------------------- every step keeps the invariant

  /** Knowledge survives the steps of other threads: a new head has a new version. */
  lemma OthersKept(s: State, s': State, t: nat, a: Act, u: nat)
    requires Inv(s) && Step(s, s', t, a) && u < |s.threads| && u != t
    ensures |s'.threads| == |s.threads| && PCOk(s', u)
  {
    assert PCOk(s, t) && PCOk(s, u);
    assert s'.threads[u] == s.threads[u];
    if s.threads[t].RelWrite? {
      assert s.threads[t].slot !in s.free;
      if s.threads[u].AcqCas? && s.threads[u].ptr.ver == s.head.ver {
        assert s.free[0] == s.threads[u].ptr.slot;
      }
    }
  }

  lemma ListKept(s: State, s': State, t: nat, a: Act)
    requires Inv(s) && Step(s, s', t, a)
    ensures |s'.next| == |s.next| && FreeList(s'.next, s'.head.slot, s'.free)
    ensures forall x :: x in s'.free ==> x in s.free || (Releasing(s.threads[t]) && x == s.threads[t].slot)
  {
    assert PCOk(s, t);
    var pc := s.threads[t];
    match (a, pc)
    case (Cas(spurious), AcqCas(ptr, n)) =>
      if s.head == ptr && !spurious {
        PopSlot(s.next, s.head.slot, s.free);
      }
    case (WriteNext, RelWrite(slot, ptr)) => WriteOutside(s.next, s.head.slot, s.free, slot, ptr.slot);
    case (Cas(spurious), RelCas(slot, ptr)) =>
      if s.head == ptr && !spurious {
        PushSlot(s.next, s.head.slot, s.free, slot);
      }
    case _ =>
  }

  lemma StepKeepsInv(s: State, s': State, t: nat, a: Act)
    requires Inv(s) && Step(s, s', t, a)
    ensures Inv(s') && |s'.threads| == |s.threads|
  {
    assert PCOk(s, t);
    ListKept(s, s', t, a);
    forall u | 0 <= u < |s'.threads| ensures PCOk(s', u) {
      if u != t {
        OthersKept(s, s', t, a, u);
      }
    }
    TransitKept(s, s', t, a);
    BroughtKept(s, s', t, a);
    HeldKept(s, s', t, a);
    CoverKept(s, s', t, a);
  }

  lemma TransitKept(s: State, s': State, t: nat, a: Act)
    requires Inv(s) && Step(s, s', t, a)
    requires forall x :: x in s'.free ==> x in s.free || (Releasing(s.threads[t]) && x == s.threads[t].slot)
    ensures |s'.threads| == |s.threads| && InTransit(s')
  {
    assert PCOk(s, t);
    if s.threads[t].AcqCas? && s'.held != s.held {
      assert s'.held == s.held + {s.free[0]};
    }
  }

  lemma BroughtKept(s: State, s': State, t: nat, a: Act)
    requires InTransit(s) && AllBrought(s) && Step(s, s', t, a)
    ensures AllBrought(s')
  {
    forall x | x in s'.returning ensures Brings(s', s'.returning[x], x) {
      assert x in s.returning ==> Brings(s, s.returning[x], x);
    }
  }

  lemma HeldKept(s: State, s': State, t: nat, a: Act)
    requires Inv(s) && Step(s, s', t, a)
    requires forall x :: x in s'.free ==> x in s.free || (Releasing(s.threads[t]) && x == s.threads[t].slot)
    ensures forall x :: x in s'.held ==> 0 < x < |s'.next| && x !in s'.free
  {
    assert PCOk(s, t);
    if s.threads[t].AcqCas? && s'.held != s.held {
      assert s'.free == s.free[1..] && s'.held == s.held + {s.free[0]};
    }
  }

  /** Each slot is free, held by a caller, or on its way back: none is lost. */
  lemma CoverKept(s: State, s': State, t: nat, a: Act)
    requires Inv(s) && Step(s, s', t, a)
    ensures |s'.threads| == |s.threads|
    ensures forall x :: 0 < x < |s'.next| ==> x in s'.free || x in s'.held || x in s'.returning
  {
    assert PCOk(s, t);
    forall x | 0 < x < |s'.next| ensures x in s'.free || x in s'.held || x in s'.returning {
      if x in s.free {
        FreeGoesToHeld(s, s', t, a, x);
      } else if x in s.returning && x !in s'.returning {
        assert s'.free[0] == x;
      }
    }
  }

  lemma FreeGoesToHeld(s: State, s': State, t: nat, a: Act, x: nat)
    requires Inv(s) && Step(s, s', t, a) && x in s.free
    ensures x in s'.free || x in s'.held
  {
    assert PCOk(s, t);
    var pc := s.threads[t];
    if pc.RelCas? && s'.free != s.free {
      assert s'.free == [pc.slot] + s.free;
    }
  }

  // ---------------------------------------------------------------- what the versions buy

  /**
   ABA safety: whatever happened between a thread's load and its compare-and-swap, a swap
   that succeeds installs the true successor of the current head, and takes a slot that
   nobody holds.
   */
  lemma AcquireTakesTheHead(s: State, s': State, t: nat)
    requires Inv(s) && Step(s, s', t, Cas(false)) && s.threads[t].AcqCas? && s.head == s.threads[t].ptr
    ensures s.free != [] && s.head.slot == s.free[0] && s.threads[t].n == SlotAt(s.free, 1)
    ensures s'.head.slot == SlotAt(s'.free, 0) && s'.free == s.free[1..]
    ensures s.free[0] !in s.held && s'.held == s.held + {s.free[0]} && s.free[0] !in s.returning
  {
    assert PCOk(s, t);
    assert s.next[s.free[0]] == SlotAt(s.free, 1);
  }

  /** Acquire finds nothing only if no slot was free when it loaded the head. */
  lemma EmptyMeansNoneFree(s: State, s': State, t: nat)
    requires Inv(s) && Step(s, s', t, Load) && s.threads[t].AcqLoad?
    ensures s'.threads[t].Idle? <==> s.free == []
  {
  }

  /** A call of `Acquire` ends with the index of the head, which nobody held, or with none if none was free; no other way. */
  lemma AcquireReturns(s: State, s': State, t: nat, a: Act)
    requires Inv(s) && Step(s, s', t, a) && !s.threads[t].Idle? && !Releasing(s.threads[t]) && s'.threads[t].Idle?
    ensures s'.threads[t].reply.Index? || s'.threads[t].reply.NoIndex?
    ensures s'.threads[t].reply.Index? ==>
      && s.free != [] && s'.threads[t].reply.idx == s.free[0] - 1 && s.free[0] !in s.held
      && s'.free == s.free[1..] && s'.held == s.held + {s.free[0]}
    ensures s'.threads[t].reply.NoIndex? ==> s.free == [] && s'.free == [] && s'.held == s.held
  {
    assert PCOk(s, t);
  }

  /** A call of `Release` ends with its index at the head of the free list; no other way. */
  lemma ReleaseReturns(s: State, s': State, t: nat, a: Act)
    requires Inv(s) && Step(s, s', t, a) && Releasing(s.threads[t]) && s'.threads[t].Idle?
    ensures s'.free == [s.threads[t].slot] + s.free && s'.held == s.held && s'.threads[t].reply == Nothing
    ensures s.threads[t].slot in s.returning && s.threads[t].slot !in s'.returning
  {
  }

  ghost predicate Next(s: State, s': State) {
    exists t, a :: Step(s, s', t, a)
  }

  ghost predicate Run(capacity: nat, run: seq<State>) {
    && |run| > 0 && Init(capacity, run[0])
    && forall n :: 0 <= n < |run| - 1 ==> Next(run[n], run[n + 1])
  }

  /**
   In every state of every run the free slots, the held ones and the ones being released
   partition 1..capacity, and the free list is acyclic.
   */
  lemma {:induction false} RunKeepsInv(capacity: nat, run: seq<State>)
    requires Run(capacity, run)
    ensures forall n :: 0 <= n < |run| ==> Inv(run[n]) && |run[n].next| == capacity + 1
  {
    InitInv(capacity, run[0]);
    var n := 0;
    while n < |run| - 1
      invariant 0 <= n < |run|
      invariant forall k :: 0 <= k <= n ==> Inv(run[k]) && |run[k].next| == capacity + 1
    {
      assert Next(run[n], run[n + 1]);
      var t, a :| Step(run[n], run[n + 1], t, a);
      StepKeepsInv(run[n], run[n + 1], t, a);
      ListKept(run[n], run[n + 1], t, a);
      n := n + 1;
    }
  }

  // ---------------------------------------------------------------- buffers carved from the pool

  /** First byte of the buffer for index `pos`, in a reservation of buffers of `size` bytes. */
  function Address(base: nat, size: nat, pos: nat): nat {
    base + size * pos
  }

  /** Buffers handed out at the same time lie inside the reservation and share no byte. */
  lemma LiveBuffersDisjoint(capacity: nat, run: seq<State>, base: nat, size: nat, x: nat, y: nat)
    requires Run(capacity, run) && x != y && x in run[|run| - 1].held && y in run[|run| - 1].held
    ensures 0 < x <= capacity && 0 < y <= capacity
    ensures Inside(base, size, capacity, x) && Inside(base, size, capacity, y)
    ensures Address(base, size, x - 1) + size <= Address(base, size, y - 1)
         || Address(base, size, y - 1) + size <= Address(base, size, x - 1)
  {
    RunKeepsInv(capacity, run);
    assert Inv(run[|run| - 1]);
    RangesDisjoint(base, size, capacity, x, y);
  }

  predicate Inside(base: nat, size: nat, capacity: nat, x: nat)
    requires 0 < x
  {
    base <= Address(base, size, x - 1) && Address(base, size, x - 1) + size <= base + size * capacity
  }

  lemma RangesDisjoint(base: nat, size: nat, capacity: nat, x: nat, y: nat)
    requires 0 < x <= capacity && 0 < y <= capacity && x != y
    ensures Inside(base, size, capacity, x) && Inside(base, size, capacity, y)
    ensures Address(base, size, x - 1) + size <= Address(base, size, y - 1)
         || Address(base, size, y - 1) + size <= Address(base, size, x - 1)
  {
    Multiples(x - 1, capacity, size);
    Multiples(y - 1, capacity, size);
    Multiples(x - 1, y - 1, size);
    Multiples(y - 1, x - 1, size);
  }
}
