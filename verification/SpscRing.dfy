/**
 The single-producer, single-consumer ring queue: the index arithmetic, the queue run by
 one thread, and the producer and consumer interleaved load by load and store by store.
 */
module SpscRing {
  import opened Wrappers
  import opened Arithmetic
  import opened BitMask

  // ---------------------------------------------------------------- index arithmetic

  /** `Mod`: the mask for powers of two, the remainder otherwise. */
  function Mod(n: nat, capacity: nat): nat
    requires 0 < capacity
  {
    if And(capacity, capacity - 1) == 0 then And(n, capacity - 1) else n % capacity
  }

  /** Both forms of `Mod` are the remainder, for every capacity. */
  lemma ModIsRemainder(n: nat, capacity: nat)
    requires 0 < capacity
    ensures Mod(n, capacity) == n % capacity
  {
    if And(capacity, capacity - 1) == 0 {
      PowerTest(capacity);
      var k: nat :| Pow2(k) == capacity;
      MaskIsRemainder(n, k);
    }
  }

  /** The slot of the value with number `n`: the slots are used in turn. */
  function Slot(n: nat, capacity: nat): (r: nat)
    requires 0 < capacity
    ensures r < capacity
  {
    if n == 0 then 0 else
      var r := Slot(n - 1, capacity);
      if r + 1 == capacity then 0 else r + 1
  }

  lemma {:induction false} SlotIsRemainder(n: nat, c: nat)
    requires 0 < c
    ensures Slot(n, c) == n % c
  {
    if n == 0 {
      QuotientUnique(0, c, 0, 0);
    } else {
      SlotIsRemainder(n - 1, c);
      Division(n - 1, c);
      var q, r := (n - 1) / c, (n - 1) % c;
      if r + 1 == c {
        assert c * (q + 1) == c * q + c;
        QuotientUnique(n, c, q + 1, 0);
      } else {
        QuotientUnique(n, c, q, r + 1);
      }
    }
  }

  /** Advancing a head or a tail with `Mod` moves it to the slot of the next value. */
  lemma ModAdvances(n: nat, c: nat)
    requires 0 < c
    ensures Mod(Slot(n, c) + 1, c) == Slot(n + 1, c)
  {
    var r := Slot(n, c);
    ModIsRemainder(r + 1, c);
    if r + 1 == c {
      QuotientUnique(c, c, 1, 0);
    } else {
      QuotientUnique(r + 1, c, 0, r + 1);
    }
  }

  /** Counters less than a capacity apart have the same slot only if they are equal. */
  lemma SameSlot(a: nat, b: nat, c: nat)
    requires 0 < c && a <= b < a + c && Slot(a, c) == Slot(b, c)
    ensures a == b
  {
    SlotIsRemainder(a, c);
    SlotIsRemainder(b, c);
    Division(a, c);
    Division(b, c);
    if a / c < b / c {
      Multiples(a / c, b / c, c);
    } else if b / c < a / c {
      Multiples(b / c, a / c, c);
    }
  }

  /** A capacity further, the same slot is used again. */
  lemma WholeTurn(a: nat, c: nat)
    requires 0 < c
    ensures Slot(a + c, c) == Slot(a, c)
  {
    SlotIsRemainder(a, c);
    SlotIsRemainder(a + c, c);
    PlusWhole(a, c);
  }

  // ---------------------------------------------------------------- the queue, one caller at a time

  class Ring<T(0)> {
    const capacity: nat
    const buffer: array<T>
    var head: nat
    var tail: nat
    // the values pushed so far, and how many of them were popped
    ghost var pushed: seq<T>
    ghost var pops: nat

    ghost predicate Valid()
      reads this, buffer
    {
      && 0 < capacity == buffer.Length
      && pops <= |pushed| < pops + capacity
      && head == Slot(|pushed|, capacity) && tail == Slot(pops, capacity)
      && forall n :: pops <= n < |pushed| ==> buffer[Slot(n, capacity)] == pushed[n]
    }

    /** The pending values, oldest first. */
    ghost function Contents(): seq<T>
      reads this, buffer
      requires Valid()
    {
      pushed[pops..]
    }

    constructor (c: nat)
      requires 0 < c
      ensures Valid() && capacity == c && Contents() == [] && fresh(buffer)
    {
      capacity := c;
      buffer := new T[c];
      head, tail, pushed, pops := 0, 0, [], 0;
    }

    /** Appends the value, unless `capacity - 1` values are pending. */
    method TryPush(value: T) returns (ok: bool)
      requires Valid()
      modifies this, buffer
      ensures Valid()
      ensures ok <==> |old(Contents())| < capacity - 1
      ensures Contents() == if ok then old(Contents()) + [value] else old(Contents())
    {
      var nextHead := Mod(head + 1, capacity);
      ModAdvances(|pushed|, capacity);
      if nextHead == tail {
        if |pushed| + 1 < pops + capacity {
          SameSlot(pops, |pushed| + 1, capacity);
        }
        return false;
      }
      WholeTurn(pops, capacity);
      forall n | pops <= n < |pushed| ensures Slot(n, capacity) != head {
        if Slot(n, capacity) == head {
          SameSlot(n, |pushed|, capacity);
        }
      }
      buffer[head] := value;
      head := nextHead;
      pushed := pushed + [value];
      return true;
    }

    /** Removes the oldest pending value, if there is one. */
    method TryPop(value: T) returns (ok: bool, out: T)
      requires Valid()
      modifies this
      ensures Valid()
      ensures ok <==> old(Contents()) != []
      ensures ok ==> out == old(Contents())[0] && Contents() == old(Contents())[1..]
      ensures !ok ==> out == value && Contents() == []
    {
      if tail == head {
        SameSlot(pops, |pushed|, capacity);
        return false, value;
      }
      ok, out := true, buffer[tail];
      ModAdvances(pops, capacity);
      tail := Mod(tail + 1, capacity);
      pops := pops + 1;
    }
  }

  // ---------------------------------------------------------------- producer and consumer interleaved

  /** `blocking` is `Push`, which retries; otherwise `TryPush`, which returns `ok`. */
  datatype Producer<T> =
    | Rest(ok: bool)
    | WantHead(value: T, blocking: bool)
    | WantTail(value: T, blocking: bool, head: nat)
    | WantWrite(value: T, blocking: bool, head: nat)
    | WantStore(value: T, blocking: bool, head: nat)

  /** `out` is what `TryPop` returned. `seen` is a history variable: how many values had been pushed when the head was loaded. */
  datatype Consumer<T> =
    | Rest(out: Option<T>)
    | WantHead
    | WantTail(head: nat, seen: nat)
    | WantRead(tail: nat)
    | WantStore(tail: nat, value: T)

  /** `pushed` and `popped` are history variables, extended when head and tail are stored. */
  datatype State<T> = State(
    capacity: nat, head: nat, tail: nat, buffer: seq<T>,
    producer: Producer<T>, consumer: Consumer<T>,
    pushed: seq<T>, popped: seq<T>)

  datatype Act<T> = Push(value: T, blocking: bool) | Produce | Pop | Consume

  ghost predicate Init<T>(s: State<T>) {
    && 0 < s.capacity == |s.buffer| && s.head == 0 && s.tail == 0
    && s.producer.Rest? && s.consumer.Rest? && s.pushed == [] && s.popped == []
  }

  ghost predicate Step<T>(s: State<T>, s': State<T>, a: Act<T>) {
    match a
    case Push(v, blocking) => s.producer.Rest? && s' == s.(producer := Producer.WantHead(v, blocking))
    case Pop => s.consumer.Rest? && s' == s.(consumer := Consumer.WantHead)
    case Produce => ProducerStep(s, s')
    case Consume => ConsumerStep(s, s')
  }

  ghost predicate ProducerStep<T>(s: State<T>, s': State<T>) {
    match s.producer
    case Rest(_) => false
    case WantHead(v, blocking) => s' == s.(producer := Producer.WantTail(v, blocking, s.head))
    case WantTail(v, blocking, h) =>
      && 0 < s.capacity
      && s' == s.(producer :=
                    if Mod(h + 1, s.capacity) != s.tail then Producer.WantWrite(v, blocking, h)
                    else if blocking then Producer.WantHead(v, blocking)
                    else Producer.Rest(false))
    case WantWrite(v, blocking, h) =>
      h < |s.buffer| && s' == s.(producer := Producer.WantStore(v, blocking, h), buffer := s.buffer[h := v])
    case WantStore(v, blocking, h) =>
      0 < s.capacity && s' == s.(producer := Producer.Rest(true), head := Mod(h + 1, s.capacity), pushed := s.pushed + [v])
  }

  ghost predicate ConsumerStep<T>(s: State<T>, s': State<T>) {
    match s.consumer
    case Rest(_) => false
    case WantHead => s' == s.(consumer := Consumer.WantTail(s.head, |s.pushed|))
    case WantTail(h, seen) =>
      s' == s.(consumer := if s.tail == h then Consumer.Rest(None) else Consumer.WantRead(s.tail))
    case WantRead(t) => t < |s.buffer| && s' == s.(consumer := Consumer.WantStore(t, s.buffer[t]))
    case WantStore(t, v) =>
      0 < s.capacity && s' == s.(consumer := Consumer.Rest(Some(v)), tail := Mod(t + 1, s.capacity), popped := s.popped + [v])
  }

  /**
   FIFO: the values popped are a prefix of the values pushed, at most `capacity - 1` are
   pending, and each pending value is in its slot.
   */
  ghost predicate QueueOk<T>(s: State<T>) {
    && 0 < s.capacity == |s.buffer|
    && s.popped <= s.pushed
    && |s.pushed| - |s.popped| < s.capacity
    && s.head == Slot(|s.pushed|, s.capacity) && s.tail == Slot(|s.popped|, s.capacity)
    && forall n :: |s.popped| <= n < |s.pushed| ==> s.buffer[Slot(n, s.capacity)] == s.pushed[n]
  }

  ghost predicate ProducerOk<T>(s: State<T>)
    requires QueueOk(s)
  {
    match s.producer
    case WantTail(v, blocking, h) => h == s.head
    case WantWrite(v, _, h) => h == s.head && |s.pushed| - |s.popped| < s.capacity - 1
    case WantStore(v, _, h) => h == s.head && |s.pushed| - |s.popped| < s.capacity - 1 && s.buffer[h] == v
    case _ => true
  }

  ghost predicate ConsumerOk<T>(s: State<T>)
    requires QueueOk(s)
  {
    match s.consumer
    case WantTail(h, seen) => h == Slot(seen, s.capacity) && |s.popped| <= seen <= |s.pushed|
    case WantRead(t) => t == s.tail && |s.popped| < |s.pushed|
    case WantStore(t, v) => t == s.tail && |s.popped| < |s.pushed| && v == s.pushed[|s.popped|]
    case _ => true
  }

  ghost predicate Inv<T>(s: State<T>) {
    QueueOk(s) && ProducerOk(s) && ConsumerOk(s)
  }

  lemma ProducerKeepsInv<T>(s: State<T>, s': State<T>)
    requires Inv(s) && ProducerStep(s, s')
    ensures Inv(s')
  {
    ModAdvances(|s.pushed|, s.capacity);
    match s.producer
    case WantTail(v, blocking, h) => WholeTurn(|s.popped|, s.capacity);
    case WantWrite(v, _, h) =>
      forall n | |s.popped| <= n < |s.pushed| ensures Slot(n, s.capacity) != h {
        if Slot(n, s.capacity) == h {
          SameSlot(n, |s.pushed|, s.capacity);
        }
      }
    case _ =>
  }

  lemma ConsumerKeepsInv<T>(s: State<T>, s': State<T>)
    requires Inv(s) && ConsumerStep(s, s')
    ensures Inv(s')
  {
    ModAdvances(|s.popped|, s.capacity);
  }

  ghost predicate Next<T(!new)>(s: State<T>, s': State<T>) {
    exists a :: Step(s, s', a)
  }

  ghost predicate Run<T(!new)>(run: seq<State<T>>) {
    |run| > 0 && Init(run[0]) && forall n :: 0 <= n < |run| - 1 ==> Next(run[n], run[n + 1])
  }

  /** The queue is a bounded FIFO in every state of every interleaving. */
  lemma {:induction false} RunKeepsInv<T(!new)>(run: seq<State<T>>)
    requires Run(run)
    ensures forall n :: 0 <= n < |run| ==> Inv(run[n])
  {
    var n := 0;
    while n < |run| - 1
      invariant 0 <= n < |run|
      invariant forall k :: 0 <= k <= n ==> Inv(run[k])
    {
      assert Next(run[n], run[n + 1]);
      var a :| Step(run[n], run[n + 1], a);
      if a.Produce? {
        ProducerKeepsInv(run[n], run[n + 1]);
      } else if a.Consume? {
        ConsumerKeepsInv(run[n], run[n + 1]);
      }
      n := n + 1;
    }
  }

  /** The slot about to be written is never the slot about to be read. */
  lemma NoRace<T>(s: State<T>)
    requires Inv(s) && (s.producer.WantWrite? || s.producer.WantStore?) && s.consumer.WantRead?
    ensures s.producer.head != s.consumer.tail
  {
    if s.producer.head == s.consumer.tail {
      SameSlot(|s.popped|, |s.pushed|, s.capacity);
    }
  }

  /** A push is refused exactly when, at its load of the tail, `capacity - 1` values were pending. */
  lemma RefusedMeansFull<T>(s: State<T>, s': State<T>)
    requires Inv(s) && ProducerStep(s, s') && s.producer.WantTail?
    ensures !s'.producer.WantWrite? <==> |s.pushed| - |s.popped| == s.capacity - 1
  {
    ModAdvances(|s.pushed|, s.capacity);
    WholeTurn(|s.popped|, s.capacity);
    if Slot(|s.pushed| + 1, s.capacity) == s.tail && |s.pushed| + 1 < |s.popped| + s.capacity {
      SameSlot(|s.popped|, |s.pushed| + 1, s.capacity);
    }
  }

  /** A pop finds nothing exactly when, at its load of the head, nothing was pending. */
  lemma NothingMeansEmpty<T>(s: State<T>, s': State<T>)
    requires Inv(s) && ConsumerStep(s, s') && s.consumer.WantTail?
    ensures s'.consumer.Rest? <==> s.consumer.seen == |s.popped|
  {
    if s.tail == s.consumer.head {
      SameSlot(|s.popped|, s.consumer.seen, s.capacity);
    }
  }

  // ---------------------------------------------------------------- what is handed in comes out

  /** The value of the call in progress. */
  function InHand<T>(p: Producer<T>): seq<T> {
    if p.Rest? then [] else [p.value]
  }

  /** How a call of the producer ends: with its value in the ring, or, for `TryPush` alone, refused by a full one. */
  lemma PushReturns<T>(s: State<T>, s': State<T>)
    requires Inv(s) && ProducerStep(s, s') && s'.producer.Rest?
    ensures !s.producer.Rest?
    ensures s'.producer.ok ==> s'.pushed == s.pushed + [s.producer.value]
    ensures !s'.producer.ok ==>
      !s.producer.blocking && s'.pushed == s.pushed && |s.pushed| - |s.popped| == s.capacity - 1
  {
    if s.producer.WantTail? {
      RefusedMeansFull(s, s');
    }
  }

  /** A run and the acts between its states. */
  ghost predicate Acted<T>(run: seq<State<T>>, acts: seq<Act<T>>) {
    && |run| == |acts| + 1 && Init(run[0])
    && forall n :: 0 <= n < |acts| ==> Step(run[n], run[n + 1], acts[n])
  }

  /** The values handed to `Push` and `TryPush` in the first n steps, but for those of calls of `TryPush` that returned false. */
  function Offered<T>(run: seq<State<T>>, acts: seq<Act<T>>, n: nat): seq<T>
    requires n <= |acts| < |run|
  {
    if n == 0 then []
    else
      var before := Offered(run, acts, n - 1);
      var p, p' := run[n - 1].producer, run[n].producer;
      if acts[n - 1].Push? then before + [acts[n - 1].value]
      else if acts[n - 1].Produce? && !p.Rest? && !p.blocking && p' == Producer.Rest(false) && before != []
      then before[..|before| - 1]
      else before
  }

  /** The values that `TryPop` has returned. */
  function Received<T>(run: seq<State<T>>, acts: seq<Act<T>>, n: nat): seq<T>
    requires n <= |acts| < |run|
  {
    if n == 0 then []
    else
      var before := Received(run, acts, n - 1);
      var c := run[n].consumer;
      if acts[n - 1].Consume? && c.Rest? && c.out.Some? then before + [c.out.value] else before
  }

  lemma OneStep<T>(s: State<T>, s': State<T>, a: Act<T>)
    requires Inv(s) && Step(s, s', a)
    ensures Inv(s')
    ensures s'.pushed + InHand(s'.producer) ==
      if a.Push? then s.pushed + InHand(s.producer) + [a.value]
      else if a.Produce? && !s.producer.Rest? && !s.producer.blocking && s'.producer == Producer.Rest(false) then s.pushed
      else s.pushed + InHand(s.producer)
    ensures s'.popped ==
      if a.Consume? && s'.consumer.Rest? && s'.consumer.out.Some? then s.popped + [s'.consumer.out.value] else s.popped
  {
    match a {
      case Produce => ProducerKeepsInv(s, s');
      case Consume => ConsumerKeepsInv(s, s');
      case _ =>
    }
  }

  /**
   In every interleaving nothing that is handed in is lost, doubled or put out of order: it has been returned by
   `TryPop`, is in the ring, or is in the producer's hand.
   */
  lemma {:induction false} NothingLost<T>(run: seq<State<T>>, acts: seq<Act<T>>, n: nat)
    requires Acted(run, acts) && n <= |acts|
    ensures |run| == |acts| + 1 && Inv(run[n])
    ensures Received(run, acts, n) == run[n].popped
    ensures Offered(run, acts, n) == run[n].pushed + InHand(run[n].producer)
    ensures Offered(run, acts, n) ==
      Received(run, acts, n) + run[n].pushed[|run[n].popped|..] + InHand(run[n].producer)
    decreases n
  {
    if n > 0 {
      var s, s', a := run[n - 1], run[n], acts[n - 1];
      NothingLost(run, acts, n - 1);
      assert Step(s, s', a);
      hide Acted, Step;
      OneStep(s, s', a);
      LastInHand(s);
    }
    assert run[n].pushed == run[n].popped + run[n].pushed[|run[n].popped|..];
  }

  lemma LastInHand<T>(s: State<T>)
    ensures !s.producer.Rest? ==>
      var held := s.pushed + InHand(s.producer); held != [] && held[..|held| - 1] == s.pushed
  {
  }
}
