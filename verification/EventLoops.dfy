/**
 * The functor queue and wakeup protocol of clia/src/reactor/event_loop.cc: one loop thread, any number of other threads
 * that queue functors or ask it to quit. For the other threads the push, the quit store and the eventfd write are steps
 * of their own, so that anything may happen between them; the loop thread's own push and wakeup are one step.
 */
module EventLoops {
  const EVENTFD_MAX: nat := 0xffff_ffff_ffff_fffe

  /** A functor, with the functors it queues on its own loop while it runs. */
  datatype Functor = Functor(id: int, queues: seq<Functor>)

  /** Where the loop thread is: before `loop()`, at the quit test, at `epoll_wait`, handling events, and so on. */
  datatype Phase = Setup | Test | Poll | Dispatch(wakeSeen: bool) | Calling | Running | Stopped

  /**
   * `waking` counts other threads between their push (or their quit store) and their eventfd write. `ran` and `queued`
   * are histories.
   */
  datatype LoopState = LoopState(
    phase: Phase, counter: nat, pending: seq<Functor>, batch: seq<Functor>, quit: bool,
    waking: nat, ran: seq<Functor>, queued: seq<Functor>) {

    function Push(f: Functor): LoopState
    {
      this.(pending := pending + [f], queued := queued + [f])
    }

    /** An eventfd write of one; a full counter refuses it and stays positive. */
    function Wakeup(): LoopState
    {
      this.(counter := if counter < EVENTFD_MAX then counter + 1 else counter)
    }

    /** `queue_in_loop` on the loop's own thread. */
    function QueueOwn(f: Functor): LoopState
    {
      if phase.Calling? || phase.Running? then Push(f).Wakeup() else Push(f)
    }

    function QueueOwnAll(fs: seq<Functor>): LoopState
      decreases |fs|
    {
      if fs == [] then this else QueueOwn(fs[0]).QueueOwnAll(fs[1..])
    }

    function BeginCalling(): LoopState { this.(phase := Calling) }

    function Swap(): LoopState
    {
      this.(phase := Running, batch := pending, pending := [])
    }

    function RunNext(): LoopState
      requires batch != []
    {
      this.(batch := batch[1..], ran := ran + [batch[0]]).QueueOwnAll(batch[0].queues)
    }

    function EndCalling(): LoopState { this.(phase := Test) }
  }

  datatype Step =
    | OtherPush(f: Functor)
    | OtherQuit
    | OtherWake
    | OwnPush(f: Functor)
    | OwnQuit
    | Start
    | TestQuit
    | PollReturns(wakeSeen: bool)
    | ReadWake
    | EndDispatch
    | SwapFunctors
    | RunFunctor
    | EndFunctors

  predicate Enabled(s: LoopState, step: Step)
  {
    match step
    case OtherPush(_) => true
    case OtherQuit => true
    case OtherWake => s.waking > 0
    case OwnPush(_) => s.phase.Setup? || s.phase.Dispatch?
    case OwnQuit => s.phase.Dispatch? || s.phase.Running?
    case Start => s.phase.Setup?
    case TestQuit => s.phase.Test?
    case PollReturns(wakeSeen) => s.phase.Poll? && (wakeSeen ==> s.counter > 0)
    case ReadWake => s.phase.Dispatch? && s.phase.wakeSeen
    case EndDispatch => s.phase.Dispatch?
    case SwapFunctors => s.phase.Calling?
    case RunFunctor => s.phase.Running? && s.batch != []
    case EndFunctors => s.phase.Running? && s.batch == []
  }

  function Next(s: LoopState, step: Step): LoopState
    requires Enabled(s, step)
  {
    match step
    case OtherPush(f) => s.Push(f).(waking := s.waking + 1)
    case OtherQuit => s.(quit := true, waking := s.waking + 1)
    case OtherWake => s.Wakeup().(waking := s.waking - 1)
    case OwnPush(f) => s.QueueOwn(f)
    case OwnQuit => s.(quit := true)
    case Start => s.(phase := Test, quit := false)
    case TestQuit => s.(phase := if s.quit then Stopped else Poll)
    case PollReturns(wakeSeen) => s.(phase := Dispatch(wakeSeen))
    case ReadWake => s.(counter := 0)
    case EndDispatch => s.BeginCalling()
    case SwapFunctors => s.Swap()
    case RunFunctor => s.RunNext()
    case EndFunctors => s.EndCalling()
  }

  function Run(s: LoopState, steps: seq<Step>): LoopState
    decreases |steps|
  {
    if steps == [] then s
    else if !Enabled(s, steps[0]) then Run(s, steps[1..])
    else Run(Next(s, steps[0]), steps[1..])
  }

  function NewLoop(): LoopState
  {
    LoopState(Setup, 0, [], [], false, 0, [], [])
  }

  // ----- invariants -----

  /** Queued functors run exactly once, in order: already run, rest of the batch, pending. */
  predicate RunsInOrder(s: LoopState)
  {
    && s.ran + s.batch + s.pending == s.queued
    && (s.batch != [] ==> s.phase.Running?)
  }

  /** Something will end the next `epoll_wait`: the eventfd is readable, or a thread is about to make it so. */
  predicate WakeComing(s: LoopState) { s.counter > 0 || s.waking > 0 }

  /** Pending work is about to be picked up, or will end the next wait. */
  predicate WorkAnnounced(s: LoopState)
  {
    s.phase.Dispatch? || s.phase.Calling? || s.phase.Stopped? || s.pending == [] || WakeComing(s)
  }

  predicate QuitAnnounced(s: LoopState)
  {
    s.phase.Poll? && s.quit ==> WakeComing(s)
  }

  predicate Inv(s: LoopState)
  {
    RunsInOrder(s) && QuitAnnounced(s)
  }

  lemma {:induction false} QueueOwnAllEffect(s: LoopState, fs: seq<Functor>)
    ensures var s' := s.QueueOwnAll(fs);
      && s'.pending == s.pending + fs && s'.queued == s.queued + fs
      && s' == s.(pending := s'.pending, queued := s'.queued, counter := s'.counter)
      && (fs != [] && s.phase.Running? ==> s'.counter > 0)
      && s'.counter >= s.counter
    decreases |fs|
  {
    if fs != [] {
      var s1 := s.QueueOwn(fs[0]);
      QueueOwnAllEffect(s1, fs[1..]);
      assert [fs[0]] + fs[1..] == fs;
      assert s.pending + fs == (s.pending + [fs[0]]) + fs[1..];
      assert s.queued + fs == (s.queued + [fs[0]]) + fs[1..];
    }
  }

  lemma RunNextEffect(s: LoopState)
    requires s.phase.Running? && s.batch != []
    ensures var s' := s.RunNext(); var f := s.batch[0];
      && s'.phase == s.phase && s'.batch == s.batch[1..] && s'.ran == s.ran + [f] && s'.pending == s.pending + f.queues
      && (f.queues != [] || s.counter > 0 ==> s'.counter > 0)
  {
    QueueOwnAllEffect(s.(batch := s.batch[1..], ran := s.ran + [s.batch[0]]), s.batch[0].queues);
  }

  lemma RunNextInOrder(s: LoopState)
    requires RunsInOrder(s) && s.batch != []
    ensures RunsInOrder(s.RunNext())
  {
    var f := s.batch[0];
    QueueOwnAllEffect(s.(batch := s.batch[1..], ran := s.ran + [f]), f.queues);
    assert s.batch == [f] + s.batch[1..];
    calc {
      (s.ran + [f]) + s.batch[1..] + (s.pending + f.queues);
      (s.ran + s.batch + s.pending) + f.queues;
    }
  }

  lemma NextInv(s: LoopState, step: Step)
    requires Inv(s) && Enabled(s, step)
    ensures Inv(Next(s, step))
  {
    match step
    case RunFunctor =>
      RunNextInOrder(s);
      QueueOwnAllEffect(s.(batch := s.batch[1..], ran := s.ran + [s.batch[0]]), s.batch[0].queues);
    case OtherPush(f) =>
      assert s.ran + s.batch + (s.pending + [f]) == (s.ran + s.batch + s.pending) + [f];
    case OwnPush(f) =>
      assert s.ran + s.batch + (s.pending + [f]) == (s.ran + s.batch + s.pending) + [f];
    case SwapFunctors =>
      assert s.ran + s.pending + [] == s.ran + [] + s.pending;
    case _ =>
  }

  lemma {:induction false} EveryRunInv(s: LoopState, steps: seq<Step>)
    requires Inv(s)
    ensures Inv(Run(s, steps))
    decreases |steps|
  {
    if steps == [] {
    } else if !Enabled(s, steps[0]) {
      EveryRunInv(s, steps[1..]);
    } else {
      NextInv(s, steps[0]);
      EveryRunInv(Next(s, steps[0]), steps[1..]);
    }
  }

  // ----- no lost wakeup, and exactly when -----

  /** The loop is about to wait although it has work, and nothing is on its way to wake it. */
  predicate SleepsOnWork(s: LoopState)
  {
    s.phase.Poll? && s.pending != [] && !WakeComing(s)
  }

  predicate NoSetupPush(s: LoopState, steps: seq<Step>)
    decreases |steps|
  {
    steps == [] ||
    if !Enabled(s, steps[0]) then NoSetupPush(s, steps[1..])
    else !(steps[0].OwnPush? && s.phase.Setup?) && NoSetupPush(Next(s, steps[0]), steps[1..])
  }

  lemma StaysAnnounced(s: LoopState, step: Step)
    requires WorkAnnounced(s) && Enabled(s, step) && !(step.OwnPush? && s.phase.Setup?)
    ensures WorkAnnounced(Next(s, step))
  {
    if step.RunFunctor? {
      QueueOwnAllEffect(s.(batch := s.batch[1..], ran := s.ran + [s.batch[0]]), s.batch[0].queues);
    }
  }

  lemma {:induction false} RunStaysAnnounced(s: LoopState, steps: seq<Step>)
    requires WorkAnnounced(s) && NoSetupPush(s, steps)
    ensures WorkAnnounced(Run(s, steps))
    decreases |steps|
  {
    if steps == [] {
    } else if !Enabled(s, steps[0]) {
      RunStaysAnnounced(s, steps[1..]);
    } else {
      StaysAnnounced(s, steps[0]);
      RunStaysAnnounced(Next(s, steps[0]), steps[1..]);
    }
  }

  /** Nothing is queued by the loop's own thread before `loop()`: no interleaving sleeps on work or on a quit request. */
  lemma NoLostWakeup(steps: seq<Step>)
    requires NoSetupPush(NewLoop(), steps)
    ensures !SleepsOnWork(Run(NewLoop(), steps))
    ensures Run(NewLoop(), steps).phase.Poll? && Run(NewLoop(), steps).quit ==> WakeComing(Run(NewLoop(), steps))
  {
    hide Run, NoSetupPush;
    assert Inv(NewLoop());
    EveryRunInv(NewLoop(), steps);
    RunStaysAnnounced(NewLoop(), steps);
  }

  /** A run in which the loop's own thread queues nothing more before `loop()` does not end asleep on work. */
  predicate Awake(s: LoopState, steps: seq<Step>)
  {
    NoSetupPush(s, steps) ==> !SleepsOnWork(Run(s, steps))
  }

  /**
   * The exact condition, in every state before `loop()`, whoever has queued what: later runs never sleep on work if and
   * only if nothing is pending or some other thread has woken the loop or is about to.
   */
  lemma LostWakeupIff(s: LoopState)
    requires s.phase.Setup?
    ensures s.pending == [] || WakeComing(s) <==> forall steps :: Awake(s, steps)
  {
    if s.pending == [] || WakeComing(s) {
      forall steps ensures Awake(s, steps) {
        if NoSetupPush(s, steps) {
          RunStaysAnnounced(s, steps);
        }
      }
    } else {
      var steps := [Start, TestQuit];
      var s1 := Next(s, Start);
      var s2 := Next(s1, TestQuit);
      assert steps[1..] == [TestQuit] && steps[1..][1..] == [];
      assert NoSetupPush(s2, []) && NoSetupPush(s1, [TestQuit]) && NoSetupPush(s, steps);
      assert Run(s2, []) == s2 && Run(s1, [TestQuit]) == s2 && Run(s, steps) == s2;
      assert !Awake(s, steps);
    }
  }

  // ----- what is queued is queued, and a quit request ends the loop -----

  /** A functor queued by any thread at any time is pending, behind those before it. */
  lemma PushIsPending(s: LoopState, f: Functor)
    ensures Enabled(s, OtherPush(f)) && Next(s, OtherPush(f)).pending == s.pending + [f]
    ensures Next(s, OtherPush(f)).waking == s.waking + 1
    ensures s.phase.Setup? || s.phase.Dispatch? ==> Enabled(s, OwnPush(f)) && Next(s, OwnPush(f)).pending == s.pending + [f]
    ensures s.waking > 0 ==>
      Enabled(s, OtherWake) && Next(s, OtherWake).counter > 0 && Next(s, OtherWake).waking == s.waking - 1
  {
  }

  /** The next batch is all that is pending, in order; its first functor is called next. */
  lemma BatchIsPending(s: LoopState)
    ensures s.phase.Calling? ==>
      Enabled(s, SwapFunctors) && Next(s, SwapFunctors).batch == s.pending && Next(s, SwapFunctors).pending == []
    ensures s.phase.Running? && s.batch != [] ==>
      && Enabled(s, RunFunctor) && Next(s, RunFunctor).batch == s.batch[1..]
      && Next(s, RunFunctor).ran == s.ran + [s.batch[0]] && Next(s, RunFunctor).pending == s.pending + s.batch[0].queues
    ensures s.phase.Dispatch? && s.phase.wakeSeen ==> Enabled(s, ReadWake) && Next(s, ReadWake) == s.(counter := 0)
  {
    if s.phase.Running? && s.batch != [] {
      RunNextEffect(s);
    }
  }

  /** Test, wait, dispatch, functors, and round again, until the test finds a request to quit. */
  lemma RoundGoesOn(s: LoopState)
    ensures s.phase.Setup? ==> Enabled(s, Start) && Next(s, Start) == s.(phase := Test, quit := false)
    ensures s.phase.Test? ==>
      Enabled(s, TestQuit) && Next(s, TestQuit) == s.(phase := if s.quit then Stopped else Poll)
    ensures s.phase.Poll? ==> Enabled(s, PollReturns(false)) && Next(s, PollReturns(false)) == s.(phase := Dispatch(false))
    ensures s.phase.Poll? && s.counter > 0 ==>
      Enabled(s, PollReturns(true)) && Next(s, PollReturns(true)) == s.(phase := Dispatch(true))
    ensures s.phase.Dispatch? ==> Enabled(s, EndDispatch) && Next(s, EndDispatch) == s.(phase := Calling)
    ensures s.phase.Running? && s.batch == [] ==> Enabled(s, EndFunctors) && Next(s, EndFunctors) == s.(phase := Test)
  {
  }

  /** A request to quit, by any thread, is there at once. */
  lemma QuitIsNoted(s: LoopState)
    ensures Enabled(s, OtherQuit) && Next(s, OtherQuit).quit && Next(s, OtherQuit).waking == s.waking + 1
    ensures s.phase.Dispatch? || s.phase.Running? ==> Enabled(s, OwnQuit) && Next(s, OwnQuit).quit
  {
  }

  /** The loop has been asked to quit and is past its wait. */
  predicate Leaving(s: LoopState) { s.quit && !s.phase.Setup? && !s.phase.Poll? }

  lemma StepKeepsLeaving(s: LoopState, step: Step)
    requires Enabled(s, step)
    ensures s.quit && !s.phase.Setup? ==> Next(s, step).quit && !Next(s, step).phase.Setup?
    ensures Leaving(s) ==> Leaving(Next(s, step))
    ensures s.phase.Stopped? ==> Next(s, step).phase.Stopped?
    ensures (s.phase.Stopped? ==> s.quit) ==> Next(s, step).phase.Stopped? ==> Next(s, step).quit
  {
    if step.RunFunctor? {
      QueueOwnAllEffect(s.(batch := s.batch[1..], ran := s.ran + [s.batch[0]]), s.batch[0].queues);
    }
  }

  /** Once asked to quit, in every run the request stays and the loop never waits again after its present wait. */
  lemma {:induction false} QuitIsFinal(s: LoopState, steps: seq<Step>)
    requires s.quit && !s.phase.Setup?
    ensures var s' := Run(s, steps); s'.quit && !s'.phase.Setup? && (Leaving(s) ==> !s'.phase.Poll?)
    decreases |steps|
  {
    hide Next;
    if steps == [] {
    } else if !Enabled(s, steps[0]) {
      QuitIsFinal(s, steps[1..]);
    } else {
      StepKeepsLeaving(s, steps[0]);
      QuitIsFinal(Next(s, steps[0]), steps[1..]);
    }
  }

  /** In every run a loop stops only after a request to quit. */
  lemma {:induction false} StopsOnlyOnQuit(s: LoopState, steps: seq<Step>)
    requires s.phase.Stopped? ==> s.quit
    ensures Run(s, steps).phase.Stopped? ==> Run(s, steps).quit
    decreases |steps|
  {
    hide Next;
    if steps == [] {
    } else if !Enabled(s, steps[0]) {
      StopsOnlyOnQuit(s, steps[1..]);
    } else {
      StepKeepsLeaving(s, steps[0]);
      StopsOnlyOnQuit(Next(s, steps[0]), steps[1..]);
    }
  }

  /** What the loop thread does next by itself. */
  function NextOwn(s: LoopState): Step
  {
    match s.phase
    case Setup => Start
    case Test => TestQuit
    case Poll => PollReturns(false)
    case Dispatch(_) => EndDispatch
    case Calling => SwapFunctors
    case Running => if s.batch != [] then RunFunctor else EndFunctors
    case Stopped => TestQuit
  }

  function PhasesLeft(s: LoopState): nat
  {
    match s.phase
    case Setup => 6
    case Poll => 5
    case Dispatch(_) => 4
    case Calling => 3
    case Running => 2
    case Test => 1
    case Stopped => 0
  }

  /** A loop that has been asked to quit finishes its round and stops, by its own steps alone. */
  lemma {:induction false} QuitStopsLoop(s: LoopState) returns (steps: seq<Step>)
    requires s.quit && !s.phase.Setup?
    ensures Run(s, steps).phase.Stopped?
    ensures forall k :: 0 <= k < |steps| ==> !steps[k].OtherPush? && !steps[k].OtherQuit? && !steps[k].OtherWake?
    decreases PhasesLeft(s), |s.batch|
  {
    if s.phase.Stopped? {
      return [];
    }
    var step := NextOwn(s);
    StepKeepsLeaving(s, step);
    if step.RunFunctor? {
      RunNextEffect(s);
    }
    var rest := QuitStopsLoop(Next(s, step));
    steps := [step] + rest;
    assert steps[0] == step && steps[1..] == rest;
  }

  // ----- one batch ends, whatever it queues -----

  function RunBatch(s: LoopState): LoopState
    decreases |s.batch|
  {
    if s.batch == [] then s
    else
      QueueOwnAllEffect(s.(batch := s.batch[1..], ran := s.ran + [s.batch[0]]), s.batch[0].queues);
      RunBatch(s.RunNext())
  }

  function QueuedBy(fs: seq<Functor>): seq<Functor>
  {
    if fs == [] then [] else fs[0].queues + QueuedBy(fs[1..])
  }

  /** A batch runs exactly what was pending when it was taken; what it queues is left for the next one, with a wakeup. */
  lemma {:induction false} RunBatchEffect(s: LoopState)
    requires s.phase.Running?
    ensures var s' := RunBatch(s);
      && s'.batch == [] && s'.ran == s.ran + s.batch && s'.pending == s.pending + QueuedBy(s.batch)
      && s'.phase == s.phase && (QueuedBy(s.batch) != [] || s.counter > 0 ==> s'.counter > 0)
    decreases |s.batch|
  {
    if s.batch != [] {
      var f := s.batch[0];
      RunNextEffect(s);
      hide LoopState.RunNext;
      RunBatchEffect(s.RunNext());
      assert s.ran + s.batch == (s.ran + [f]) + s.batch[1..];
      assert s.pending + (f.queues + QueuedBy(s.batch[1..])) == (s.pending + f.queues) + QueuedBy(s.batch[1..]);
    } else {
      assert s.pending + [] == s.pending;
    }
  }

  // ----- the class, as seen by its own thread -----

  class EventLoop {
    var pendingFunctors: seq<Functor>
    var callingPendingFunctors: bool
    var wakeupCounter: nat
    ghost var model: LoopState

    ghost predicate Valid()
      reads this
    {
      && model.pending == pendingFunctors
      && model.counter == wakeupCounter
      && callingPendingFunctors == (model.phase.Calling? || model.phase.Running?)
    }

    constructor ()
      ensures Valid() && model == NewLoop() && Inv(model)
    {
      pendingFunctors, callingPendingFunctors, wakeupCounter := [], false, 0;
      model := NewLoop();
    }

    method Wakeup()
      requires Valid()
      modifies this
      ensures Valid() && model == old(model).Wakeup()
      ensures wakeupCounter == old(wakeupCounter) + (if old(wakeupCounter) < 0xffff_ffff_ffff_fffe then 1 else 0)
      ensures pendingFunctors == old(pendingFunctors) && callingPendingFunctors == old(callingPendingFunctors)
    {
      if wakeupCounter < EVENTFD_MAX {
        wakeupCounter := wakeupCounter + 1;
      }
      model := model.Wakeup();
    }

    /** `queue_in_loop`; another thread's push and wakeup are the steps OtherPush and OtherWake in a row. */
    method QueueInLoop(f: Functor, inLoopThread: bool)
      requires Valid()
      modifies this
      ensures Valid()
      ensures model == if inLoopThread then old(model).QueueOwn(f) else old(model).Push(f).Wakeup()
      ensures pendingFunctors == old(pendingFunctors) + [f] && callingPendingFunctors == old(callingPendingFunctors)
      ensures if inLoopThread && !callingPendingFunctors then wakeupCounter == old(wakeupCounter) else wakeupCounter > 0
    {
      pendingFunctors := pendingFunctors + [f];
      model := model.Push(f);
      if !inLoopThread || callingPendingFunctors {
        Wakeup();
      }
    }

    /** `run_in_loop`: on the loop's own thread the functor runs at once, otherwise it is queued. */
    method RunInLoop(f: Functor, inLoopThread: bool) returns (ranNow: bool)
      requires Valid()
      modifies this
      ensures Valid() && ranNow == inLoopThread
      ensures model == if inLoopThread then old(model).QueueOwnAll(f.queues) else old(model).Push(f).Wakeup()
      ensures pendingFunctors == old(pendingFunctors) + if inLoopThread then f.queues else [f]
    {
      ranNow := inLoopThread;
      if inLoopThread {
        Call(f);
      } else {
        QueueInLoop(f, false);
      }
    }

    /** The eventfd's read callback resets the counter. */
    method HandleRead()
      requires Valid()
      modifies this
      ensures Valid() && model == old(model).(counter := 0)
      ensures wakeupCounter == 0 && pendingFunctors == old(pendingFunctors)
    {
      wakeupCounter := 0;
      model := model.(counter := 0);
    }

    /** What calling a functor does to its loop. */
    method Call(f: Functor)
      requires Valid()
      modifies this
      ensures Valid() && model == old(model).QueueOwnAll(f.queues)
      ensures pendingFunctors == old(pendingFunctors) + f.queues
    {
      ghost var final := model.QueueOwnAll(f.queues);
      QueueOwnAllEffect(model, f.queues);
      for i := 0 to |f.queues|
        invariant Valid() && model.QueueOwnAll(f.queues[i..]) == final
      {
        assert f.queues[i..][1..] == f.queues[i + 1..];
        QueueInLoop(f.queues[i], true);
      }
    }

    method DoPendingFunctors()
      requires Valid() && model.phase.Dispatch? && model.batch == []
      modifies this
      ensures Valid() && model == RunBatch(old(model).BeginCalling().Swap()).EndCalling()
      ensures model.ran == old(model.ran) + old(pendingFunctors) && pendingFunctors == QueuedBy(old(pendingFunctors))
    {
      callingPendingFunctors := true;
      var functors := pendingFunctors;
      pendingFunctors := [];
      model := model.BeginCalling().Swap();
      ghost var final := RunBatch(model);
      RunBatchEffect(model);
      for i := 0 to |functors|
        invariant Valid() && model.phase.Running? && model.batch == functors[i..]
        invariant RunBatch(model) == final
      {
        var f := functors[i];
        QueueOwnAllEffect(model.(batch := model.batch[1..], ran := model.ran + [f]), f.queues);
        assert functors[i..][1..] == functors[i + 1..];
        model := model.(batch := model.batch[1..], ran := model.ran + [f]);
        Call(f);
      }
      callingPendingFunctors := false;
      model := model.EndCalling();
    }
  }
}
