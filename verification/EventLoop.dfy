/** The functor queue of `EventLoop`: other threads push and wake, the loop thread polls, handles
    events, swaps the queue and runs the batch (source/base/src/EventLoop.cpp). Every critical
    section, system call and flag access is one atomic step; steps of all threads interleave. */
module EventLoops {

  type Functor = nat
  type Thread = nat

  /** The largest value an eventfd holds; a further non-blocking write fails and leaves it. */
  const EVENTFD_MAX := 0xffff_ffff_ffff_fffe

  /** Where the loop thread is. `Setup` is the time before `loop()`. */
  datatype Phase = Setup | Polling | Handling | Swapping | Running | Stopped

  /** What another thread still has to do: nothing, or `wakeup` after its push or its `quit_ = true`. */
  datatype Pc = Idle | Pushed | QuitSet

  /** The loop's fields, the threads, and a record of what was queued and executed.
      `mark` is what will have been executed when the current batch is done. */
  datatype Loop = Loop(
    pending: seq<Functor>, batch: seq<Functor>, calling: bool, quit: bool, counter: nat,
    phase: Phase, mustWake: bool, others: map<Thread, Pc>,
    queued: seq<Functor>, executed: seq<Functor>, mark: seq<Functor>)

  datatype Step =
    // other threads
    | Push(t: Thread, f: Functor)
    | Quit(t: Thread)
    | Wake(t: Thread)
    // the loop thread
    | Start | PollReturn | HandleRead | EnterPending | Swap | RunNext | EndBatch
    | LoopPush(f: Functor) | LoopWake | LoopQuit

  /** The loop thread is inside user code: set-up, an event handler or a functor. */
  predicate InUserCode(s: Loop) {
    !s.mustWake && (s.phase == Setup || s.phase == Handling || s.phase == Running)
  }

  predicate Enabled(s: Loop, step: Step) {
    match step
    case Push(t, _) => t !in s.others || s.others[t] == Idle
    case Quit(t) => t !in s.others || s.others[t] == Idle
    case Wake(t) => t in s.others && s.others[t] != Idle
    case Start => s.phase == Setup && !s.mustWake
    case PollReturn => s.phase == Polling
    case HandleRead => s.phase == Handling && !s.mustWake
    case EnterPending => s.phase == Handling && !s.mustWake
    case Swap => s.phase == Swapping
    case RunNext => s.phase == Running && !s.mustWake && s.batch != []
    case EndBatch => s.phase == Running && !s.mustWake && s.batch == []
    case LoopPush(_) => InUserCode(s)
    case LoopWake => s.mustWake
    case LoopQuit => InUserCode(s)
  }

  function Woken(counter: nat): nat { if counter < EVENTFD_MAX then counter + 1 else counter }

  function Pushing(s: Loop, f: Functor): Loop {
    s.(pending := s.pending + [f], queued := s.queued + [f])
  }

  function Apply(s: Loop, step: Step): Loop
    requires Enabled(s, step)
  {
    match step
    case Push(t, f) => Pushing(s, f).(others := s.others[t := Pushed])
    case Quit(t) => s.(quit := true, others := s.others[t := QuitSet])
    case Wake(t) => s.(counter := Woken(s.counter), others := s.others[t := Idle])
    case Start => s.(quit := false, phase := Polling)
    case PollReturn => s.(phase := Handling)
    case HandleRead => s.(counter := 0)
    case EnterPending => s.(calling := true, phase := Swapping)
    case Swap => s.(batch := s.pending, pending := [], phase := Running, mark := s.executed + s.pending)
    case RunNext => s.(executed := s.executed + [s.batch[0]], batch := s.batch[1..])
    case EndBatch => s.(calling := false, phase := if s.quit then Stopped else Polling)
    case LoopPush(f) => Pushing(s, f).(mustWake := s.calling)
    case LoopWake => s.(counter := Woken(s.counter), mustWake := false)
    case LoopQuit => s.(quit := true)
  }

  ghost predicate Runs(s: Loop, steps: seq<Step>)
    decreases |steps|
  {
    steps == [] || (Enabled(s, steps[0]) && Runs(Apply(s, steps[0]), steps[1..]))
  }

  ghost function Final(s: Loop, steps: seq<Step>): Loop
    requires Runs(s, steps)
    decreases |steps|
  {
    if steps == [] then s else Final(Apply(s, steps[0]), steps[1..])
  }

  const NEW := Loop([], [], false, false, 0, Setup, false, map[], [], [], [])

  // ---- wakeups ----

  ghost predicate Someone(s: Loop, pc: Pc) { exists t :: t in s.others && s.others[t] == pc }

  /** Nothing the loop should see is waiting behind a blocked `poll`. */
  ghost predicate Noticed(s: Loop) {
    && (s.pending != [] ==> s.counter > 0 || Someone(s, Pushed))
    && (s.quit ==> s.counter > 0 || Someone(s, QuitSet))
  }

  /** `Noticed` when at `poll`; between swap and poll only for the functors, since the flag `quit_`
      is still to be tested. */
  ghost predicate WakeInv(s: Loop) {
    && (s.calling <==> s.phase == Swapping || s.phase == Running)
    && (s.mustWake ==> s.phase == Running)
    && (s.phase == Polling ==> Noticed(s))
    && (s.phase == Running && s.pending != [] ==> s.counter > 0 || s.mustWake || Someone(s, Pushed))
  }

  /** Which thread a step concerns stays a witness for every other thread. */
  lemma SomeoneElse(s: Loop, t: Thread, pc: Pc, want: Pc)
    requires Someone(s, want) && (t !in s.others || s.others[t] != want)
    ensures Someone(s.(others := s.others[t := pc]), want)
  {
    var u :| u in s.others && s.others[u] == want;
    assert s.others[t := pc][u] == want;
  }

  lemma OtherThreadKeeps(s: Loop, step: Step)
    requires WakeInv(s) && Enabled(s, step) && (step.Push? || step.Quit? || step.Wake?)
    ensures WakeInv(Apply(s, step))
  {
    var s' := Apply(s, step);
    assert step.t in s'.others;
    if step.Push? {
      assert s'.others[step.t] == Pushed && Someone(s', Pushed);
      if Someone(s, QuitSet) { SomeoneElse(s, step.t, Pushed, QuitSet); }
    } else if step.Quit? {
      assert s'.others[step.t] == QuitSet && Someone(s', QuitSet);
      if Someone(s, Pushed) { SomeoneElse(s, step.t, QuitSet, Pushed); }
    }
  }

  lemma WakeStep(s: Loop, step: Step)
    requires WakeInv(s) && Enabled(s, step) && s.phase != Setup
    ensures WakeInv(Apply(s, step)) && Apply(s, step).phase != Setup
  {
    if step.Push? || step.Quit? || step.Wake? {
      OtherThreadKeeps(s, step);
    }
  }

  lemma {:induction false} WakeRun(s: Loop, steps: seq<Step>)
    requires WakeInv(s) && s.phase != Setup && Runs(s, steps)
    ensures WakeInv(Final(s, steps))
    decreases |steps|
  {
    if steps != [] {
      WakeStep(s, steps[0]);
      WakeRun(Apply(s, steps[0]), steps[1..]);
    }
  }

  /** A loop about to enter its first `poll`. */
  ghost predicate JustStarted(s: Loop) { s.phase == Polling && !s.calling && !s.mustWake && !s.quit }

  /** If these steps lead to a `poll`, nothing waits behind it. */
  ghost predicate NoticedAfter(s: Loop, steps: seq<Step>) {
    Runs(s, steps) && Final(s, steps).phase == Polling ==> Noticed(Final(s, steps))
  }

  ghost predicate AlwaysNoticed(s: Loop) { forall steps :: NoticedAfter(s, steps) }

  /** No lost wakeup, exactly: every `poll` of every run is noticed if and only if `loop()` starts
      with an empty queue, a set eventfd or another thread about to set it. */
  lemma NoLostWakeupIff(s: Loop)
    requires JustStarted(s)
    ensures AlwaysNoticed(s) <==> (s.pending == [] || s.counter > 0 || Someone(s, Pushed))
  {
    if s.pending == [] || s.counter > 0 || Someone(s, Pushed) {
      assert WakeInv(s);
      forall steps ensures NoticedAfter(s, steps) {
        if Runs(s, steps) { WakeRun(s, steps); }
      }
    } else {
      assert !NoticedAfter(s, []);
    }
  }

  // ---- set-up ----

  ghost predicate SetUp(s: Loop, setup: seq<Step>) { Runs(s, setup) && Start !in setup }

  ghost predicate AnyPush(steps: seq<Step>) { exists i :: 0 <= i < |steps| && steps[i].Push? }

  ghost predicate AnyWake(steps: seq<Step>) { exists i :: 0 <= i < |steps| && steps[i].Wake? }

  ghost predicate AnyLoopPush(steps: seq<Step>) { exists i :: 0 <= i < |steps| && steps[i].LoopPush? }

  /** What the calls before `loop()` say about its state. */
  ghost predicate SetUpState(s: Loop, push: bool, wake: bool, loopPush: bool) {
    && s.phase == Setup && !s.calling && !s.mustWake
    && (s.pending == [] <==> !push && !loopPush)
    && (s.counter > 0 <==> wake)
    && (push ==> s.counter > 0 || Someone(s, Pushed))
    && (Someone(s, Pushed) ==> push)
  }

  lemma SetUpStep(s: Loop, step: Step, push: bool, wake: bool, loopPush: bool)
    requires SetUpState(s, push, wake, loopPush) && Enabled(s, step) && step != Start
    ensures SetUpState(Apply(s, step), push || step.Push?, wake || step.Wake?, loopPush || step.LoopPush?)
  {
    var s' := Apply(s, step);
    if step.Push? {
      assert step.t in s'.others && s'.others[step.t] == Pushed;
    } else if step.Quit? && Someone(s, Pushed) {
      SomeoneElse(s, step.t, QuitSet, Pushed);
    }
  }

  lemma AnyCons(steps: seq<Step>)
    requires steps != []
    ensures AnyPush(steps) <==> steps[0].Push? || AnyPush(steps[1..])
    ensures AnyWake(steps) <==> steps[0].Wake? || AnyWake(steps[1..])
    ensures AnyLoopPush(steps) <==> steps[0].LoopPush? || AnyLoopPush(steps[1..])
  {
    assert forall i | 0 <= i < |steps[1..]| :: steps[1..][i] == steps[i + 1];
    assert forall i | 0 < i < |steps| :: steps[i] == steps[1..][i - 1];
  }

  lemma {:induction false} SetUpRun(s: Loop, setup: seq<Step>, push: bool, wake: bool, loopPush: bool)
    requires SetUpState(s, push, wake, loopPush) && SetUp(s, setup)
    ensures SetUpState(Final(s, setup), push || AnyPush(setup), wake || AnyWake(setup), loopPush || AnyLoopPush(setup))
    decreases |setup|
  {
    if setup != [] {
      var step := setup[0];
      SetUpStep(s, step, push, wake, loopPush);
      AnyCons(setup);
      SetUpRun(Apply(s, step), setup[1..], push || step.Push?, wake || step.Wake?, loopPush || step.LoopPush?);
    }
  }

  /** No lost wakeup, from the calls made before `loop()`: every `poll` of every later run is noticed
      unless the loop thread queued something, no other thread did, and none called `wakeup`. */
  lemma NoLostWakeupAfterSetUp(setup: seq<Step>)
    requires SetUp(NEW, setup)
    ensures Enabled(Final(NEW, setup), Start)
    ensures AlwaysNoticed(Apply(Final(NEW, setup), Start)) <==>
              !(AnyLoopPush(setup) && !AnyPush(setup) && !AnyWake(setup))
  {
    assert SetUpState(NEW, false, false, false);
    SetUpRun(NEW, setup, false, false, false);
    var s := Final(NEW, setup);
    assert SetUpState(s, AnyPush(setup), AnyWake(setup), AnyLoopPush(setup));
    var started := Apply(s, Start);
    assert started.others == s.others && (Someone(started, Pushed) <==> Someone(s, Pushed));
    NoLostWakeupIff(started);
  }

  /** The case left out: the loop thread queues a functor before `loop()` and nobody wakes the poll. */
  lemma EarlyQueueIsNotNoticed()
    ensures exists steps :: Runs(NEW, steps) && Final(NEW, steps).phase == Polling && !Noticed(Final(NEW, steps))
  {
    var s1 := Apply(NEW, LoopPush(7));
    var s2 := Apply(s1, Start);
    var steps := [LoopPush(7), Start];
    assert steps[1..] == [Start] && [Start][1..] == [];
    assert Runs(s2, []) && Runs(s1, [Start]) && Runs(NEW, steps);
    assert Final(s1, [Start]) == s2 && Final(NEW, steps) == s2;
  }

  // ---- order ----

  /** Everything queued is executed, in the batch or pending, in this order. */
  predicate FifoInv(s: Loop) {
    && s.executed + s.batch + s.pending == s.queued
    && (s.phase == Running ==> s.executed + s.batch == s.mark)
    && (s.phase != Running ==> s.batch == [])
  }

  lemma FifoStep(s: Loop, step: Step)
    requires FifoInv(s) && Enabled(s, step)
    ensures FifoInv(Apply(s, step))
    ensures s.phase == Running && Apply(s, step).phase == Running ==> Apply(s, step).mark == s.mark
  {
    match step
    case Swap =>
      assert s.executed + [] + s.pending == s.executed + s.pending;
      assert s.executed + s.pending + [] == s.executed + s.pending;
    case RunNext =>
      assert s.executed + s.batch == s.executed + [s.batch[0]] + s.batch[1..];
    case Push(_, f) => assert s.executed + s.batch + (s.pending + [f]) == s.executed + s.batch + s.pending + [f];
    case LoopPush(f) => assert s.executed + s.batch + (s.pending + [f]) == s.executed + s.batch + s.pending + [f];
    case _ =>
  }

  /** Functors run in the order they were queued, each exactly once, in every interleaving and
      even when functors queue more functors. */
  lemma {:induction false} FunctorsRunInOrder(s: Loop, steps: seq<Step>)
    requires FifoInv(s) && Runs(s, steps)
    ensures FifoInv(Final(s, steps)) && s.queued <= Final(s, steps).queued
    ensures Final(s, steps).executed <= Final(s, steps).queued
    decreases |steps|
  {
    if steps != [] {
      FifoStep(s, steps[0]);
      FunctorsRunInOrder(Apply(s, steps[0]), steps[1..]);
    }
  }

  /** The run stays inside one `doPendingFunctors`. */
  ghost predicate WithinBatch(s: Loop, steps: seq<Step>)
    requires Runs(s, steps)
    decreases |steps|
  {
    s.phase == Running && (steps == [] || WithinBatch(Apply(s, steps[0]), steps[1..]))
  }

  lemma {:induction false} MarkStays(s: Loop, steps: seq<Step>)
    requires FifoInv(s) && Runs(s, steps) && WithinBatch(s, steps)
    ensures FifoInv(Final(s, steps)) && Final(s, steps).mark == s.mark && Final(s, steps).phase == Running
    decreases |steps|
  {
    if steps != [] {
      FifoStep(s, steps[0]);
      MarkStays(Apply(s, steps[0]), steps[1..]);
    }
  }

  /** One `doPendingFunctors` executes exactly the functors present at its swap, whatever is queued
      while it runs. */
  lemma BatchIsTheSwappedQueue(s: Loop, steps: seq<Step>)
    requires FifoInv(s) && s.phase == Swapping && Runs(Apply(s, Swap), steps)
    requires WithinBatch(Apply(s, Swap), steps) && Enabled(Final(Apply(s, Swap), steps), EndBatch)
    ensures Final(Apply(s, Swap), steps).executed == s.executed + s.pending
  {
    FifoStep(s, Swap);
    MarkStays(Apply(s, Swap), steps);
    var d := Final(Apply(s, Swap), steps);
    assert d.executed + [] == d.executed;
  }

  // ---- the state, read off the calls ----

  /** Whether the eventfd was written since it was last read. */
  function WokenAfter(before: bool, step: Step): bool {
    if step.Wake? || step.LoopWake? then true else if step.HandleRead? then false else before
  }

  /** Whether `quit()` was called since `loop()` began. */
  function QuitAfter(before: bool, step: Step): bool {
    if step.Quit? || step.LoopQuit? then true else if step.Start? then false else before
  }

  function PushedBy(step: Step): seq<Functor> { if step.Push? || step.LoopPush? then [step.f] else [] }

  /** What thread t has still to do: it must wake the loop after its push or its quit. */
  function PcAfter(before: Pc, step: Step, t: Thread): Pc {
    match step
    case Push(u, _) => if u == t then Pushed else before
    case Quit(u) => if u == t then QuitSet else before
    case Wake(u) => if u == t then Idle else before
    case _ => before
  }

  function PcOf(s: Loop, t: Thread): Pc { if t in s.others then s.others[t] else Idle }

  lemma StepHistory(s: Loop, step: Step, t: Thread)
    requires Enabled(s, step)
    ensures var s' := Apply(s, step);
            && (s'.counter > 0 <==> WokenAfter(s.counter > 0, step))
            && (s'.quit <==> QuitAfter(s.quit, step))
            && s'.queued == s.queued + PushedBy(step)
            && |s'.executed| == |s.executed| + (if step.RunNext? then 1 else 0)
            && PcOf(s', t) == PcAfter(PcOf(s, t), step, t)
  {
    assert s.queued + [] == s.queued;
  }

  ghost predicate IsWoken(before: bool, steps: seq<Step>)
    decreases |steps|
  {
    if steps == [] then before else IsWoken(WokenAfter(before, steps[0]), steps[1..])
  }

  ghost predicate QuitAsked(before: bool, steps: seq<Step>)
    decreases |steps|
  {
    if steps == [] then before else QuitAsked(QuitAfter(before, steps[0]), steps[1..])
  }

  ghost function AllPushed(steps: seq<Step>): seq<Functor> {
    if steps == [] then [] else PushedBy(steps[0]) + AllPushed(steps[1..])
  }

  ghost function RunCount(steps: seq<Step>): nat {
    if steps == [] then 0 else (if steps[0].RunNext? then 1 else 0) + RunCount(steps[1..])
  }

  ghost function LastPc(before: Pc, steps: seq<Step>, t: Thread): Pc
    decreases |steps|
  {
    if steps == [] then before else LastPc(PcAfter(before, steps[0], t), steps[1..], t)
  }

  /** In every interleaving: the queue has received what was pushed, in this order; one functor is
      executed for each turn of the batch loop; the eventfd is set exactly if somebody woke the loop
      since it was read; and a thread is about to wake exactly if it pushed or quit last. */
  lemma {:induction false} History(s: Loop, steps: seq<Step>, t: Thread)
    requires Runs(s, steps)
    ensures var d := Final(s, steps);
            && (d.counter > 0 <==> IsWoken(s.counter > 0, steps))
            && (d.quit <==> QuitAsked(s.quit, steps))
            && d.queued == s.queued + AllPushed(steps)
            && |d.executed| == |s.executed| + RunCount(steps)
            && PcOf(d, t) == LastPc(PcOf(s, t), steps, t)
    decreases |steps|
  {
    if steps == [] {
      assert s.queued + [] == s.queued;
    } else {
      StepHistory(s, steps[0], t);
      History(Apply(s, steps[0]), steps[1..], t);
      var p, rest := PushedBy(steps[0]), AllPushed(steps[1..]);
      assert s.queued + p + rest == s.queued + (p + rest);
    }
  }

  // ---- one turn of the loop ----

  lemma {:induction false} RunSnoc(s: Loop, steps: seq<Step>, step: Step)
    requires Runs(s, steps) && Enabled(Final(s, steps), step)
    ensures Runs(s, steps + [step]) && Final(s, steps + [step]) == Apply(Final(s, steps), step)
    decreases |steps|
  {
    if steps == [] {
      assert [] + [step] == [step] && [step][1..] == [];
    } else {
      RunSnoc(Apply(s, steps[0]), steps[1..], step);
      assert (steps + [step])[1..] == steps[1..] + [step];
    }
  }

  ghost function RunsOf(n: nat): seq<Step> { if n == 0 then [] else RunsOf(n - 1) + [RunNext] }

  /** The batch loop executes its batch in order and then stands at its end. */
  lemma {:induction false} RunsBatch(s: Loop, n: nat)
    requires s.phase == Running && !s.mustWake && n <= |s.batch|
    ensures Runs(s, RunsOf(n))
    ensures Final(s, RunsOf(n)) == s.(executed := s.executed + s.batch[..n], batch := s.batch[n..])
  {
    if n == 0 {
      assert s.executed + [] == s.executed;
    } else {
      RunsBatch(s, n - 1);
      RunSnoc(s, RunsOf(n - 1), RunNext);
      assert s.batch[n - 1..][0] == s.batch[n - 1] && s.batch[n - 1..][1..] == s.batch[n..];
      assert s.executed + s.batch[..n - 1] + [s.batch[n - 1]] == s.executed + s.batch[..n];
    }
  }

  /** `poll` returns, the eventfd is read, the queue is swapped and run. */
  ghost function Turn(n: nat): seq<Step> {
    [PollReturn] + [HandleRead] + [EnterPending] + [Swap] + RunsOf(n) + [EndBatch]
  }

  lemma RunAppend(s: Loop, a: seq<Step>, b: seq<Step>)
    requires Runs(s, a) && Runs(Final(s, a), b)
    ensures Runs(s, a + b) && Final(s, a + b) == Final(Final(s, a), b)
    decreases |b|
  {
    if b == [] {
      assert a + b == a;
    } else {
      var last := b[0];
      RunSnoc(s, a, last);
      RunAppend(s, a + [last], b[1..]);
      assert a + [last] + b[1..] == a + b;
    }
  }

  lemma ToSwap(s: Loop)
    requires WakeInv(s) && s.phase == Polling
    ensures var steps := [PollReturn] + [HandleRead] + [EnterPending] + [Swap];
            && Runs(s, steps)
            && Final(s, steps) == s.(counter := 0, calling := true, batch := s.pending, pending := [],
                                     phase := Running, mark := s.executed + s.pending)
  {
    assert [] + [PollReturn] == [PollReturn];
    RunSnoc(s, [], PollReturn);
    RunSnoc(s, [PollReturn], HandleRead);
    RunSnoc(s, [PollReturn] + [HandleRead], EnterPending);
    RunSnoc(s, [PollReturn] + [HandleRead] + [EnterPending], Swap);
  }

  /** Every `poll` can be followed by a whole turn that executes all that was pending, leaves the eventfd
      clear and ends at the next `poll`, or at the end of `loop()` exactly if somebody asked to quit. */
  lemma TurnOfLoop(s: Loop)
    requires WakeInv(s) && FifoInv(s) && s.phase == Polling
    ensures Runs(s, Turn(|s.pending|))
    ensures var d := Final(s, Turn(|s.pending|));
            && d.executed == s.executed + s.pending && d.pending == [] && d.batch == [] && d.counter == 0
            && d.phase == if s.quit then Stopped else Polling
  {
    var pre := [PollReturn] + [HandleRead] + [EnterPending] + [Swap];
    ToSwap(s);
    var m := Final(s, pre);
    RunsBatch(m, |m.batch|);
    RunAppend(s, pre, RunsOf(|m.batch|));
    RunSnoc(s, pre + RunsOf(|m.batch|), EndBatch);
    assert m.batch[..|m.batch|] == m.batch;
  }

  // ---- the code ----

  /** `EventLoop`. Methods of the loop thread are split where another thread can get in between. */
  class EventLoop {
    var pendingFunctors: seq<Functor>
    var functors: seq<Functor>
    var callingPendingFunctors: bool
    var quitFlag: bool
    var wakeupCounter: nat
    ghost var phase: Phase
    ghost var mustWake: bool
    ghost var others: map<Thread, Pc>
    ghost var queued: seq<Functor>
    ghost var executed: seq<Functor>
    ghost var mark: seq<Functor>

    ghost function View(): Loop
      reads this
    {
      Loop(pendingFunctors, functors, callingPendingFunctors, quitFlag, wakeupCounter,
           phase, mustWake, others, queued, executed, mark)
    }

    constructor ()
      ensures View() == NEW && WakeInv(View()) && FifoInv(View())
    {
      pendingFunctors, functors, callingPendingFunctors, quitFlag, wakeupCounter := [], [], false, false, 0;
      phase, mustWake, others, queued, executed, mark := Setup, false, map[], [], [], [];
    }

    /** The critical section of `queueInLoop`, and whether `wakeup` is to follow. */
    method QueueInLoop(f: Functor, thread: Thread, isInLoopThread: bool) returns (wake: bool)
      requires Enabled(View(), if isInLoopThread then LoopPush(f) else Push(thread, f))
      modifies this`pendingFunctors, this`queued, this`mustWake, this`others
      ensures View() == Apply(old(View()), if isInLoopThread then LoopPush(f) else Push(thread, f))
      ensures wake <==> Enabled(View(), if isInLoopThread then LoopWake else Wake(thread))
    {
      pendingFunctors := pendingFunctors + [f];
      queued := queued + [f];
      wake := !isInLoopThread || callingPendingFunctors;
      if isInLoopThread { mustWake := wake; } else { others := others[thread := Pushed]; }
    }

    method Wakeup(thread: Thread, isInLoopThread: bool)
      requires Enabled(View(), if isInLoopThread then LoopWake else Wake(thread))
      modifies this`wakeupCounter, this`mustWake, this`others
      ensures View() == Apply(old(View()), if isInLoopThread then LoopWake else Wake(thread))
    {
      if wakeupCounter < EVENTFD_MAX {
        wakeupCounter := wakeupCounter + 1;
      }
      if isInLoopThread { mustWake := false; } else { others := others[thread := Idle]; }
    }

    method HandleRead()
      requires Enabled(View(), Step.HandleRead)
      modifies this
      ensures View() == Apply(old(View()), Step.HandleRead)
    {
      wakeupCounter := 0;
    }

    /** `doPendingFunctors` up to the swap under the lock. */
    method SwapFunctors()
      requires Enabled(View(), Swap)
      modifies this
      ensures View() == Apply(old(View()), Swap)
    {
      mark := executed + pendingFunctors;
      functors, pendingFunctors := pendingFunctors, [];
      phase := Running;
    }

    /** The `queueInLoop` calls of one functor of the batch: each pushes, then wakes. */
    method QueueAll(children: seq<Functor>)
      requires phase == Running && callingPendingFunctors && !mustWake
      modifies this`pendingFunctors, this`queued, this`wakeupCounter, this`mustWake, this`others
      ensures !mustWake && others == old(others)
      ensures pendingFunctors == old(pendingFunctors) + children && queued == old(queued) + children
      ensures wakeupCounter >= old(wakeupCounter) && (children != [] ==> wakeupCounter > 0)
    {
      for i := 0 to |children|
        invariant !mustWake && others == old(others)
        invariant pendingFunctors == old(pendingFunctors) + children[..i] && queued == old(queued) + children[..i]
        invariant wakeupCounter >= old(wakeupCounter) && (i > 0 ==> wakeupCounter > 0)
      {
        var wake := QueueInLoop(children[i], 0, true);
        if wake {
          Wakeup(0, true);
        }
      }
    }

    /** The loop of `doPendingFunctors` over the swapped batch, when functor f queues `spawn(f)`. */
    method RunFunctors(spawn: Functor -> seq<Functor>)
      requires phase == Running && callingPendingFunctors && !mustWake
      modifies this`pendingFunctors, this`queued, this`wakeupCounter, this`mustWake, this`others, this`executed
      ensures !mustWake && others == old(others)
      ensures executed == old(executed) + functors
      ensures pendingFunctors == old(pendingFunctors) + Spawned(spawn, functors)
      ensures queued == old(queued) + Spawned(spawn, functors)
      ensures wakeupCounter >= old(wakeupCounter) && (Spawned(spawn, functors) != [] ==> wakeupCounter > 0)
    {
      for i := 0 to |functors|
        invariant !mustWake && others == old(others) && executed == old(executed) + functors[..i]
        invariant pendingFunctors == old(pendingFunctors) + Spawned(spawn, functors[..i])
        invariant queued == old(queued) + Spawned(spawn, functors[..i])
        invariant wakeupCounter >= old(wakeupCounter) && (Spawned(spawn, functors[..i]) != [] ==> wakeupCounter > 0)
      {
        SpawnedSnoc(spawn, functors[..i], functors[i]);
        assert functors[..i + 1] == functors[..i] + [functors[i]];
        executed := executed + [functors[i]];
        QueueAll(spawn(functors[i]));
      }
      assert functors[..|functors|] == functors;
    }

    /** `doPendingFunctors` with no other thread in between. */
    method DoPendingFunctors(spawn: Functor -> seq<Functor>)
      requires phase == Handling && !mustWake && functors == [] && executed + pendingFunctors == queued
      modifies this
      ensures phase == (if quitFlag then Stopped else Polling) && functors == [] && !callingPendingFunctors
      ensures executed == old(executed) + old(pendingFunctors)
      ensures pendingFunctors == Spawned(spawn, old(pendingFunctors))
      ensures queued == old(queued) + pendingFunctors
      ensures pendingFunctors != [] ==> wakeupCounter > 0
    {
      callingPendingFunctors, phase := true, Running;
      mark := executed + pendingFunctors;
      functors, pendingFunctors := pendingFunctors, [];
      RunFunctors(spawn);
      functors := [];
      callingPendingFunctors := false;
      phase := if quitFlag then Stopped else Polling;
    }
  }

  /** What the functors of a batch queue, in order. */
  ghost function Spawned(spawn: Functor -> seq<Functor>, batch: seq<Functor>): seq<Functor> {
    if batch == [] then [] else Spawned(spawn, batch[..|batch| - 1]) + spawn(batch[|batch| - 1])
  }

  lemma SpawnedSnoc(spawn: Functor -> seq<Functor>, batch: seq<Functor>, f: Functor)
    ensures Spawned(spawn, batch + [f]) == Spawned(spawn, batch) + spawn(f)
  {
    assert (batch + [f])[..|batch|] == batch;
  }
}
