/**
 The latch that counts a task's parts down and runs an epilog when none is left. First one caller
 at a time; then any number of callers, with every load and compare-and-swap as one atomic step.
 */
module Latch {

  /** What one completed `Done` makes of the counter. */
  function Lower(counter: nat): nat {
    if counter > 0 then counter - 1 else 0
  }

  /** What k of them make of it. */
  function LowerBy(counter: nat, k: nat): nat {
    if k == 0 then counter else LowerBy(Lower(counter), k - 1)
  }

  lemma {:induction false} LowerByIs(counter: nat, k: nat)
    ensures LowerBy(counter, k) == if k < counter then counter - k else 0
  {
    if k > 0 {
      LowerByIs(Lower(counter), k - 1);
    }
  }

  class Latch {
    var counter: nat
    // how often the epilog ran
    ghost var fires: nat

    constructor ()
      ensures counter == 0 && fires == 0
    {
      counter, fires := 0, 0;
    }

    method Set(expected: nat)
      modifies this`counter
      ensures counter == expected
    {
      counter := expected;
    }

    method Up()
      modifies this`counter
      ensures counter == old(counter) + 1
    {
      counter := counter + 1;
    }

    /** Counts down unless already at zero; runs the epilog on reaching zero. */
    method Done()
      modifies this
      ensures counter == Lower(old(counter))
      ensures fires == old(fires) + if old(counter) > 0 && counter == 0 then 1 else 0
    {
      var swapped := false;
      while !swapped && counter > 0
        invariant !swapped ==> counter == old(counter) && fires == old(fires)
        invariant swapped ==> old(counter) > 0 && counter == old(counter) - 1
        invariant swapped ==> fires == old(fires) + if old(counter) == 1 then 1 else 0
        decreases !swapped
      {
        var desired := counter - 1;
        counter := desired;
        swapped := true;
        if desired == 0 {
          fires := fires + 1;
        }
      }
    }
  }

  // ---------------------------------------------------------------- many callers

  /** A caller of `Done`: not in it, in its loop with the value it saw last, or about to run the epilog. */
  datatype PC = Outside | Looping(seen: nat) | Ending

  /**
   `expected` is what the latch was set to and `ups` what was added since. The other counts are
   histories: of swaps, of calls that found nothing to count down, of calls begun, of zeros
   reached, and of epilogs run.
   */
  datatype State = State(counter: nat, threads: seq<PC>, expected: nat, ups: nat,
                         swaps: nat, skips: nat, calls: nat, zeros: nat, fires: nat)

  predicate Init(s: State) {
    && s.counter == s.expected && AllOutside(s.threads)
    && s.ups == 0 && s.swaps == 0 && s.skips == 0 && s.calls == 0 && s.zeros == 0 && s.fires == 0
  }

  /** A compare-and-swap may fail without cause. */
  datatype Act = Raise | Call(t: nat) | Swap(t: nat, spurious: bool) | Leave(t: nat) | Epilog(t: nat)

  function At(s: State, t: nat): PC {
    if t < |s.threads| then s.threads[t] else Outside
  }

  predicate Step(s: State, s': State, a: Act) {
    match a
    case Raise => s' == s.(counter := s.counter + 1, ups := s.ups + 1)
    case Call(t) =>
      && t < |s.threads| && s.threads[t] == Outside
      && s' == s.(threads := s.threads[t := Looping(s.counter)], calls := s.calls + 1)
    case Swap(t, spurious) =>
      && At(s, t).Looping? && At(s, t).seen > 0
      && var seen := At(s, t).seen;
      && s' == if s.counter == seen && !spurious then
           s.(counter := seen - 1, swaps := s.swaps + 1, zeros := if seen == 1 then s.zeros + 1 else s.zeros,
              threads := s.threads[t := if seen == 1 then Ending else Outside])
         else s.(threads := s.threads[t := Looping(s.counter)])
    case Leave(t) =>
      At(s, t) == Looping(0) && s' == s.(threads := s.threads[t := Outside], skips := s.skips + 1)
    case Epilog(t) =>
      At(s, t) == Ending && s' == s.(threads := s.threads[t := Outside], fires := s.fires + 1)
  }

  function One(yes: bool): nat {
    if yes then 1 else 0
  }

  function InLoop(threads: seq<PC>): nat {
    if threads == [] then 0 else InLoop(threads[..|threads| - 1]) + One(threads[|threads| - 1].Looping?)
  }

  function InEpilog(threads: seq<PC>): nat {
    if threads == [] then 0 else InEpilog(threads[..|threads| - 1]) + One(threads[|threads| - 1].Ending?)
  }

  /** Of the threads one moves on. */
  lemma {:induction false} OneMoves(threads: seq<PC>, t: nat, pc: PC)
    requires t < |threads|
    ensures InLoop(threads[t := pc]) + One(threads[t].Looping?) == InLoop(threads) + One(pc.Looping?)
    ensures InEpilog(threads[t := pc]) + One(threads[t].Ending?) == InEpilog(threads) + One(pc.Ending?)
    decreases |threads|
  {
    var n := |threads| - 1;
    if t < n {
      OneMoves(threads[..n], t, pc);
      assert threads[t := pc][..n] == threads[..n][t := pc];
    } else {
      assert threads[t := pc][..n] == threads[..n];
    }
  }

  lemma {:induction false} NobodyIn(threads: seq<PC>)
    requires AllOutside(threads)
    ensures InLoop(threads) == 0 && InEpilog(threads) == 0
  {
    if threads != [] {
      NobodyIn(threads[..|threads| - 1]);
    }
  }

  lemma {:induction false} SomeoneEnds(threads: seq<PC>)
    ensures InEpilog(threads) > 0 <==> SomeEnding(threads)
  {
    if threads != [] {
      var rest := threads[..|threads| - 1];
      SomeoneEnds(rest);
      assert forall t :: 0 <= t < |rest| ==> rest[t] == threads[t];
      assert threads[|threads| - 1] == Ending || !threads[|threads| - 1].Ending?;
    }
  }

  predicate AllOutside(threads: seq<PC>) {
    forall t :: 0 <= t < |threads| ==> threads[t] == Outside
  }

  predicate SomeEnding(threads: seq<PC>) {
    exists t :: 0 <= t < |threads| && threads[t] == Ending
  }

  // ---------------------------------------------------------------- invariant

  predicate SawEnough(s: State, t: nat) {
    At(s, t).Looping? ==> At(s, t).seen >= s.counter
  }

  /** While nothing is added, the counter only falls: once it is zero it stays so. */
  predicate Falls(s: State) {
    && s.zeros == One(s.expected > 0 && s.counter == 0)
    && (s.skips > 0 ==> s.counter == 0)
    && (forall t: nat :: t < |s.threads| ==> SawEnough(s, t))
  }

  predicate Inv(s: State) {
    && s.counter + s.swaps == s.expected + s.ups
    && s.fires + InEpilog(s.threads) == s.zeros
    && s.calls == s.swaps + s.skips + InLoop(s.threads)
    && (s.ups == 0 ==> Falls(s))
  }

  lemma InitInv(s: State)
    requires Init(s)
    ensures Inv(s)
  {
    NobodyIn(s.threads);
  }

  lemma StepKeepsInv(s: State, s': State, a: Act)
    requires Inv(s) && Step(s, s', a)
    ensures Inv(s')
  {
    if !a.Raise? {
      OneMoves(s.threads, a.t, s'.threads[a.t]);
      assert s'.threads == s.threads[a.t := s'.threads[a.t]];
    }
    if s'.ups == 0 {
      FallsOn(s, s', a);
    }
  }

  lemma FallsOn(s: State, s': State, a: Act)
    requires s.ups == 0 && Falls(s) && s.counter + s.swaps == s.expected && Step(s, s', a) && !a.Raise?
    ensures Falls(s')
  {
    assert SawEnough(s, a.t);
    forall t: nat | t < |s'.threads| ensures SawEnough(s', t) {
      assert SawEnough(s, t);
    }
  }

  ghost predicate Next(s: State, s': State) {
    exists a :: Step(s, s', a)
  }

  ghost predicate Run(run: seq<State>) {
    |run| > 0 && Init(run[0]) && forall n :: 0 <= n < |run| - 1 ==> Next(run[n], run[n + 1])
  }

  lemma {:induction false} RunKeepsInv(run: seq<State>)
    requires Run(run)
    ensures Inv(run[|run| - 1])
  {
    InitInv(run[0]);
    var n := 0;
    while n < |run| - 1
      invariant 0 <= n < |run|
      invariant Inv(run[n])
    {
      assert Next(run[n], run[n + 1]);
      var a :| Step(run[n], run[n + 1], a);
      StepKeepsInv(run[n], run[n + 1], a);
      n := n + 1;
    }
  }

  // ---------------------------------------------------------------- what the latch promises

  /**
   A latch that was set and not raised since runs its epilog once at most, however its callers
   interleave; it has run exactly when the counter is at zero and nobody is still about to run it.
   */
  lemma EpilogOnce(run: seq<State>)
    requires Run(run) && run[|run| - 1].ups == 0
    ensures var s := run[|run| - 1];
      && s.fires <= 1
      && (s.fires == 1 <==> s.expected > 0 && s.counter == 0 && !SomeEnding(s.threads))
  {
    RunKeepsInv(run);
    SomeoneEnds(run[|run| - 1].threads);
  }

  /** Raised or not, every time the counter falls to zero the epilog runs once. */
  lemma EpilogPerZero(run: seq<State>)
    requires Run(run) && !SomeEnding(run[|run| - 1].threads)
    ensures run[|run| - 1].fires == run[|run| - 1].zeros
  {
    RunKeepsInv(run);
    SomeoneEnds(run[|run| - 1].threads);
  }

  /** Once all calls are over, they have had the effect of as many calls one after the other. */
  lemma CallsAddUp(run: seq<State>)
    requires Run(run) && run[|run| - 1].ups == 0 && AllOutside(run[|run| - 1].threads)
    ensures var s := run[|run| - 1];
      && s.counter == LowerBy(s.expected, s.calls)
      && s.fires == One(s.expected > 0 && s.calls >= s.expected)
  {
    var s := run[|run| - 1];
    RunKeepsInv(run);
    NobodyIn(s.threads);
    LowerByIs(s.expected, s.calls);
  }

  /** A swap that fails with cause leaves its caller with a lower value, so no call tries for ever. */
  lemma RetriesFall(run: seq<State>, s': State, t: nat)
    requires Run(run) && run[|run| - 1].ups == 0 && Step(run[|run| - 1], s', Swap(t, false))
    ensures At(s', t).Looping? ==> At(s', t).seen < At(run[|run| - 1], t).seen
  {
    RunKeepsInv(run);
    assert SawEnough(run[|run| - 1], t);
  }

  /** A caller of `Wait` may see zero, and go on, before the epilog has run. */
  lemma WaitCanPassEpilog() returns (run: seq<State>)
    ensures Run(run) && run[|run| - 1].counter == 0 && run[|run| - 1].fires == 0 && run[|run| - 1].zeros == 1
  {
    var s0 := State(1, [Outside], 1, 0, 0, 0, 0, 0, 0);
    var s1 := s0.(threads := [Looping(1)], calls := 1);
    var s2 := s1.(threads := [Ending], counter := 0, swaps := 1, zeros := 1);
    assert Step(s0, s1, Call(0)) && Step(s1, s2, Swap(0, false));
    run := [s0, s1, s2];
  }
}
