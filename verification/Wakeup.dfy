/** The functor queue and its eventfd, shared by one loop's thread and any number of others: every
    statement that touches shared state is a step, and the steps of all threads interleave freely. */
module Wakeup {
  import opened Reactor

  type Tid = nat

  /** Where the loop's own thread is. `wakes`: the poll reported the eventfd and its handler has
      not run yet. `next`: how many functors of the batch have been started. */
  datatype Place =
    | NotStarted
    | Polling
    | Handling(wakes: bool)
    | Swapping
    | Running(next: nat)

  /** Where the loop's own thread is within a queueInLoop it has called, if it has. */
  datatype Own = Idle | Pushed | MustWake

  /** `pushers`: the other threads between their push and their wakeup write. `log` is everything
      ever pushed; `base` is what had run when the current batch was swapped out. */
  datatype Shared = Shared(
    place: Place, own: Own, pend: seq<Functor>, batch: seq<Functor>, flag: bool, counter: nat,
    pushers: set<Tid>, log: seq<Functor>, executed: seq<Functor>, base: seq<Functor>)

  const INITIAL := Shared(NotStarted, Idle, [], [], false, 0, {}, [], [], [])

  datatype Step =
    | Push(tid: Tid, f: Functor)
    | Wake(tid: Tid)
    | OwnPush(f: Functor)
    | OwnTest
    | OwnWake
    | Start
    | PollReturns(wakes: bool)
    | RunWakeHandler
    | SetFlag
    | Swap
    | RunNext
    | ClearFlag

  /** The loop's thread queues only while it runs user code. */
  predicate InUserCode(place: Place) {
    place.NotStarted? || place.Handling? || (place.Running? && place.next > 0)
  }

  predicate Enabled(s: Shared, step: Step) {
    match step
    case Push(tid, _) => tid !in s.pushers
    case Wake(tid) => tid in s.pushers
    case OwnPush(_) => InUserCode(s.place) && s.own.Idle?
    case OwnTest => s.own.Pushed?
    case OwnWake => s.own.MustWake?
    case Start => s.place.NotStarted? && s.own.Idle?
    case PollReturns(wakes) => s.place.Polling? && (wakes ==> s.counter > 0)
    case RunWakeHandler => s.place == Handling(true) && s.own.Idle?
    case SetFlag => s.place == Handling(false) && s.own.Idle?
    case Swap => s.place.Swapping?
    case RunNext => s.place.Running? && s.place.next < |s.batch| && s.own.Idle?
    case ClearFlag => s.place.Running? && s.place.next >= |s.batch| && s.own.Idle?
  }

  function Next(handler: WakeupHandler, s: Shared, step: Step): Shared
    requires Enabled(s, step)
  {
    match step
    case Push(tid, f) => s.(pend := s.pend + [f], log := s.log + [f], pushers := s.pushers + {tid})
    case Wake(tid) => s.(counter := WriteOne(s.counter), pushers := s.pushers - {tid})
    case OwnPush(f) => s.(pend := s.pend + [f], log := s.log + [f], own := Pushed)
    case OwnTest => s.(own := if s.flag then MustWake else Idle)
    case OwnWake => s.(counter := WriteOne(s.counter), own := Idle)
    case Start => s.(place := Polling)
    case PollReturns(wakes) => s.(place := Handling(wakes))
    case RunWakeHandler => s.(place := Handling(false), counter := HandleWakeup(s.counter, handler))
    case SetFlag => s.(place := Swapping, flag := true)
    case Swap => s.(place := Running(0), batch := s.pend, pend := [], base := s.executed)
    case RunNext => s.(place := Running(s.place.next + 1), executed := s.executed + [s.batch[s.place.next]])
    case ClearFlag => s.(place := Polling, flag := false, batch := [])
  }

  predicate EnabledRun(handler: WakeupHandler, s: Shared, steps: seq<Step>)
    decreases |steps|
  {
    steps == [] || (Enabled(s, steps[0]) && EnabledRun(handler, Next(handler, s, steps[0]), steps[1..]))
  }

  function Run(handler: WakeupHandler, s: Shared, steps: seq<Step>): Shared
    requires EnabledRun(handler, s, steps)
    decreases |steps|
  {
    if steps == [] then s else Run(handler, Next(handler, s, steps[0]), steps[1..])
  }

  /* ---------- No lost wakeup ---------- */

  /** A waiting functor has a wakeup: delivered, or about to be. */
  predicate Protected(s: Shared) {
    s.pend != [] ==> s.counter > 0 || s.pushers != {}
  }

  /** Once loop() has started. */
  predicate WakeInv(s: Shared) {
    match s.place
    case NotStarted => false
    case Polling => !s.flag && s.own.Idle? && Protected(s)
    case Handling(_) => !s.flag && !s.own.MustWake?
    case Swapping => s.flag && s.own.Idle?
    case Running(_) => s.flag && (Protected(s) || !s.own.Idle?)
  }

  lemma StepKeepsWakeInv(handler: WakeupHandler, s: Shared, step: Step)
    requires WakeInv(s) && Enabled(s, step)
    ensures WakeInv(Next(handler, s, step))
  {
    if step.Push? {
      assert step.tid in s.pushers + {step.tid};
    }
  }

  lemma {:induction false} RunKeepsWakeInv(handler: WakeupHandler, s: Shared, steps: seq<Step>)
    requires WakeInv(s) && EnabledRun(handler, s, steps)
    ensures WakeInv(Run(handler, s, steps))
    decreases |steps|
  {
    if steps != [] {
      StepKeepsWakeInv(handler, s, steps[0]);
      RunKeepsWakeInv(handler, Next(handler, s, steps[0]), steps[1..]);
    }
  }

  /** Functors wait, the loop is in epoll_wait, nothing will wake it, and nobody is about to. */
  predicate Lost(s: Shared) {
    s.place.Polling? && s.counter == 0 && s.pushers == {} && s.pend != []
  }

  predicate HasPush(steps: seq<Step>) {
    exists i :: 0 <= i < |steps| && steps[i].Push?
  }

  predicate HasOwnPush(steps: seq<Step>) {
    exists i :: 0 <= i < |steps| && steps[i].OwnPush?
  }

  predicate HasStart(steps: seq<Step>) {
    exists i :: 0 <= i < |steps| && steps[i].Start?
  }

  /** Before loop(), only the loop's own thread has queued functors. */
  predicate OnlyOwnPushes(steps: seq<Step>) {
    HasOwnPush(steps) && !HasPush(steps)
  }

  /** Before loop(), with `pushed` and `own` telling whether another thread, or the loop's own, has
      queued anything so far: only another thread's push makes the eventfd readable. */
  predicate PreStart(s: Shared, pushed: bool, own: bool) {
    && s.place.NotStarted? && !s.flag && !s.own.MustWake?
    && (pushed <==> s.counter > 0 || s.pushers != {})
    && (pushed || own <==> s.pend != [])
  }

  lemma StepPreStart(handler: WakeupHandler, s: Shared, step: Step, pushed: bool, own: bool)
    requires PreStart(s, pushed, own) && Enabled(s, step) && !step.Start?
    ensures PreStart(Next(handler, s, step), pushed || step.Push?, own || step.OwnPush?)
  {
    if step.Push? {
      assert step.tid in s.pushers + {step.tid};
    }
  }

  lemma {:induction false} RunPreStart(handler: WakeupHandler, s: Shared, steps: seq<Step>, pushed: bool, own: bool)
    requires PreStart(s, pushed, own) && EnabledRun(handler, s, steps) && !HasStart(steps)
    ensures PreStart(Run(handler, s, steps), pushed || HasPush(steps), own || HasOwnPush(steps))
    decreases |steps|
  {
    if steps != [] {
      var rest := steps[1..];
      assert !steps[0].Start?;
      assert HasStart(rest) ==> HasStart(steps) by { TailHas(steps); }
      StepPreStart(handler, s, steps[0], pushed, own);
      RunPreStart(handler, Next(handler, s, steps[0]), rest, pushed || steps[0].Push?, own || steps[0].OwnPush?);
      TailHas(steps);
    }
  }

  lemma TailHas(steps: seq<Step>)
    requires steps != []
    ensures HasPush(steps) <==> steps[0].Push? || HasPush(steps[1..])
    ensures HasOwnPush(steps) <==> steps[0].OwnPush? || HasOwnPush(steps[1..])
    ensures HasStart(steps) <==> steps[0].Start? || HasStart(steps[1..])
  {
    var rest := steps[1..];
    assert forall i :: 0 <= i < |rest| ==> rest[i] == steps[i + 1];
    assert forall i :: 1 <= i < |steps| ==> steps[i] == rest[i - 1];
  }

  /** Starting loop() loses a wakeup exactly if functors were queued before by its own thread and
      none by another. */
  lemma LostAtStartIff(handler: WakeupHandler, before: seq<Step>)
    requires EnabledRun(handler, INITIAL, before) && !HasStart(before) && Run(handler, INITIAL, before).own.Idle?
    ensures var s := Run(handler, INITIAL, before);
            && Enabled(s, Start)
            && (Lost(Next(handler, s, Start)) <==> OnlyOwnPushes(before))
            && (!OnlyOwnPushes(before) ==> WakeInv(Next(handler, s, Start)))
  {
    RunPreStart(handler, INITIAL, before, false, false);
  }

  /** The run without its last steps is a run too. */
  lemma {:induction false} RunPrefix(handler: WakeupHandler, s: Shared, steps: seq<Step>, k: nat)
    requires EnabledRun(handler, s, steps) && k <= |steps|
    ensures EnabledRun(handler, s, steps[..k]) && EnabledRun(handler, Run(handler, s, steps[..k]), steps[k..])
    ensures Run(handler, s, steps) == Run(handler, Run(handler, s, steps[..k]), steps[k..])
    decreases k
  {
    if k > 0 {
      assert steps[..k][1..] == steps[1..][..k - 1] && steps[1..][k - 1..] == steps[k..];
      RunPrefix(handler, Next(handler, s, steps[0]), steps[1..], k - 1);
    } else {
      assert steps[..0] == [] && steps[0..] == steps;
    }
  }

  /** Wherever loop() starts in this run, it is not after pushes of its own thread only. */
  predicate StartsWell(steps: seq<Step>) {
    forall i :: 0 <= i < |steps| && steps[i].Start? && !HasStart(steps[..i]) ==> !OnlyOwnPushes(steps[..i])
  }

  /** The first start in the run. */
  function FirstStart(steps: seq<Step>): (k: nat)
    requires HasStart(steps)
    ensures k < |steps| && steps[k].Start? && !HasStart(steps[..k])
  {
    if steps[0].Start? then 0
    else
      TailHas(steps);
      var k := FirstStart(steps[1..]) + 1;
      assert steps[..k][1..] == steps[1..][..k - 1];
      TailHas(steps[..k]);
      k
  }

  /** In every state a run reaches, under any interleaving and with either handler: no wakeup is
      lost, if loop() was not started after pushes of its own thread only. */
  lemma NoLostWakeup(handler: WakeupHandler, steps: seq<Step>)
    requires EnabledRun(handler, INITIAL, steps) && StartsWell(steps)
    ensures !Lost(Run(handler, INITIAL, steps))
  {
    if HasStart(steps) {
      var k := FirstStart(steps);
      var before := steps[..k];
      RunPrefix(handler, INITIAL, steps, k);
      var s := Run(handler, INITIAL, before);
      assert steps[k..][0] == Start;
      LostAtStartIff(handler, before);
      RunKeepsWakeInv(handler, Next(handler, s, Start), steps[k..][1..]);
    } else {
      RunPreStart(handler, INITIAL, steps, false, false);
    }
  }

  /** The run has lost a wakeup after its first k steps. */
  predicate LosesAt(handler: WakeupHandler, steps: seq<Step>, k: nat) {
    k <= |steps| && EnabledRun(handler, INITIAL, steps[..k]) && Lost(Run(handler, INITIAL, steps[..k]))
  }

  /** And exactly then: a run loses a wakeup at some point if and only if it starts loop() after
      pushes of its own thread only. */
  lemma LosesWakeupIff(handler: WakeupHandler, steps: seq<Step>)
    requires EnabledRun(handler, INITIAL, steps)
    ensures (exists k: nat :: LosesAt(handler, steps, k)) <==> !StartsWell(steps)
  {
    if StartsWell(steps) {
      forall k: nat | k <= |steps|
        ensures !LosesAt(handler, steps, k)
      {
        RunPrefix(handler, INITIAL, steps, k);
        StartsWellPrefix(steps, k);
        NoLostWakeup(handler, steps[..k]);
      }
    } else {
      var i :| 0 <= i < |steps| && steps[i].Start? && !HasStart(steps[..i]) && OnlyOwnPushes(steps[..i]);
      RunPrefix(handler, INITIAL, steps, i);
      RunPrefix(handler, INITIAL, steps, i + 1);
      var s := Run(handler, INITIAL, steps[..i]);
      assert steps[i..][0] == Start;
      LostAtStartIff(handler, steps[..i]);
      RunPrefix(handler, INITIAL, steps[..i + 1], i);
      assert steps[..i + 1][..i] == steps[..i] && steps[..i + 1][i..] == [Start];
      assert [Start][1..] == [];
      assert Run(handler, s, [Start]) == Run(handler, Next(handler, s, Start), []);
      assert LosesAt(handler, steps, i + 1);
    }
  }

  lemma StartsWellPrefix(steps: seq<Step>, k: nat)
    requires StartsWell(steps) && k <= |steps|
    ensures StartsWell(steps[..k])
  {
    forall i | 0 <= i < k && steps[..k][i].Start? && !HasStart(steps[..k][..i])
      ensures !OnlyOwnPushes(steps[..k][..i])
    {
      assert steps[..k][..i] == steps[..i] && steps[..k][i] == steps[i];
    }
  }

  /** For instance any functor the loop's own thread queues before it starts. */
  lemma QueuedBeforeStartIsStuck(handler: WakeupHandler, f: Functor)
    ensures var steps := [OwnPush(f), OwnTest, Start];
            EnabledRun(handler, INITIAL, steps)
            && Lost(Run(handler, INITIAL, steps)) && Run(handler, INITIAL, steps).pend == [f]
  {
    var before := [OwnPush(f), OwnTest];
    RunTwoSteps(handler, INITIAL, OwnPush(f), OwnTest);
    RunOneStep(handler, Run(handler, INITIAL, before), Start);
    RunSplit(handler, INITIAL, before, [Start]);
    assert before + [Start] == [OwnPush(f), OwnTest, Start];
  }

  /** Some thread writes the eventfd to wake the loop. */
  predicate HasWake(steps: seq<Step>) {
    exists i :: 0 <= i < |steps| && (steps[i].Wake? || steps[i].OwnWake?)
  }

  lemma TailHasWake(steps: seq<Step>)
    requires steps != []
    ensures HasWake(steps) <==> steps[0].Wake? || steps[0].OwnWake? || HasWake(steps[1..])
  {
    assert forall i :: 0 <= i < |steps[1..]| ==> steps[1..][i] == steps[i + 1];
    assert forall i :: 1 <= i < |steps| ==> steps[i] == steps[1..][i - 1];
  }

  /** With the handler as written, epoll_wait stops blocking exactly with the first wakeup, and for
      ever: the eventfd is readable after a run if and only if it was before or a wakeup was written. */
  lemma {:induction false} AddOneNeverQuiet(s: Shared, steps: seq<Step>)
    requires EnabledRun(AddOne, s, steps) && (s.place == Handling(true) ==> s.counter > 0)
    ensures Run(AddOne, s, steps).counter > 0 <==> s.counter > 0 || HasWake(steps)
    decreases |steps|
  {
    if steps != [] {
      TailHasWake(steps);
      AddOneNeverQuiet(Next(AddOne, s, steps[0]), steps[1..]);
    }
  }

  /* ---------- Exactly once, in order ---------- */

  /** The rest of the current batch. */
  function Remaining(s: Shared): seq<Functor> {
    if s.place.Running? && s.place.next <= |s.batch| then s.batch[s.place.next..] else []
  }

  predicate LogInv(s: Shared) {
    && s.log == s.executed + Remaining(s) + s.pend
    && (s.place.Running? ==> s.place.next <= |s.batch| && s.executed == s.base + s.batch[..s.place.next])
  }

  lemma Regroup(a: seq<Functor>, b: seq<Functor>, c: seq<Functor>)
    ensures a + b + c == a + (b + c)
  {
  }

  lemma StepKeepsLogInv(handler: WakeupHandler, s: Shared, step: Step)
    requires LogInv(s) && Enabled(s, step)
    ensures LogInv(Next(handler, s, step))
  {
    match step
    case Push(_, f) =>
      Regroup(s.executed + Remaining(s), s.pend, [f]);
    case OwnPush(f) =>
      Regroup(s.executed + Remaining(s), s.pend, [f]);
    case Swap =>
      assert Remaining(s) == [];
      assert s.pend[0..] == s.pend;
      assert s.executed + s.pend[..0] == s.executed;
      assert s.executed + [] + s.pend == s.executed + s.pend + [];
    case RunNext =>
      var i := s.place.next;
      assert s.batch[i..] == [s.batch[i]] + s.batch[i + 1..];
      assert s.batch[..i + 1] == s.batch[..i] + [s.batch[i]];
      Regroup(s.executed, [s.batch[i]], s.batch[i + 1..]);
      Regroup(s.base, s.batch[..i], [s.batch[i]]);
    case _ =>
  }

  lemma {:induction false} RunKeepsLogInv(handler: WakeupHandler, s: Shared, steps: seq<Step>)
    requires LogInv(s) && EnabledRun(handler, s, steps)
    ensures LogInv(Run(handler, s, steps))
    decreases |steps|
  {
    if steps != [] {
      StepKeepsLogInv(handler, s, steps[0]);
      RunKeepsLogInv(handler, Next(handler, s, steps[0]), steps[1..]);
    }
  }

  /** In every reachable state, what has run, then the rest of the batch, then what waits, is
      everything pushed, in the order it was pushed; and a batch holds only what waited at its swap. */
  lemma ExactlyOnceInOrder(handler: WakeupHandler, steps: seq<Step>)
    requires EnabledRun(handler, INITIAL, steps)
    ensures var s := Run(handler, INITIAL, steps);
            && s.log == s.executed + Remaining(s) + s.pend
            && (s.place.Running? ==> s.place.next <= |s.batch| && s.executed == s.base + s.batch[..s.place.next])
  {
    RunKeepsLogInv(handler, INITIAL, steps);
  }

  /* ---------- The class EventLoop and progress ---------- */

  /** What class EventLoop keeps of this state. */
  function View(s: Shared): LoopState {
    LoopState(s.pend, s.flag, s.counter, s.log, s.executed)
  }

  /** The steps of the loop's thread while a functor queues these on its own loop. */
  function QueueSteps(fs: seq<Functor>): seq<Step> {
    if fs == [] then [] else [OwnPush(fs[0]), OwnTest, OwnWake] + QueueSteps(fs[1..])
  }

  /** The steps of running functors, the i-th of which queues scripts[i]. */
  function BatchSteps(scripts: seq<seq<Functor>>): seq<Step> {
    if scripts == [] then [] else [RunNext] + QueueSteps(scripts[0]) + BatchSteps(scripts[1..])
  }

  /** One doPendFunc. */
  function DrainSteps(scripts: seq<seq<Functor>>): seq<Step> {
    [SetFlag, Swap] + BatchSteps(scripts) + [ClearFlag]
  }

  /** One whole iteration of the loop, once woken. */
  function RoundSteps(scripts: seq<seq<Functor>>): seq<Step> {
    [PollReturns(true), RunWakeHandler] + DrainSteps(scripts)
  }

  lemma {:induction false} RunSplit(handler: WakeupHandler, s: Shared, a: seq<Step>, b: seq<Step>)
    requires EnabledRun(handler, s, a) && EnabledRun(handler, Run(handler, s, a), b)
    ensures EnabledRun(handler, s, a + b)
    ensures Run(handler, s, a + b) == Run(handler, Run(handler, s, a), b)
    decreases |a|
  {
    if a == [] {
      assert a + b == b;
    } else {
      assert (a + b)[1..] == a[1..] + b;
      RunSplit(handler, Next(handler, s, a[0]), a[1..], b);
    }
  }

  lemma RunOneStep(handler: WakeupHandler, s: Shared, step: Step)
    requires Enabled(s, step)
    ensures EnabledRun(handler, s, [step]) && Run(handler, s, [step]) == Next(handler, s, step)
  {
    assert [step][1..] == [];
    assert EnabledRun(handler, Next(handler, s, step), []);
  }

  lemma RunTwoSteps(handler: WakeupHandler, s: Shared, step: Step, step': Step)
    requires Enabled(s, step) && Enabled(Next(handler, s, step), step')
    ensures EnabledRun(handler, s, [step, step'])
    ensures Run(handler, s, [step, step']) == Next(handler, Next(handler, s, step), step')
  {
    RunOneStep(handler, s, step);
    RunOneStep(handler, Next(handler, s, step), step');
    RunSplit(handler, s, [step], [step']);
    assert [step] + [step'] == [step, step'];
  }

  /** A push and its wakeup write by another thread, when no step comes between, are the class's
      QueueInLoop from off the loop's thread. */
  lemma OtherThreadQueues(handler: WakeupHandler, s: Shared, tid: Tid, f: Functor)
    requires Enabled(s, Push(tid, f))
    ensures EnabledRun(handler, s, [Push(tid, f), Wake(tid)])
    ensures var r := Run(handler, s, [Push(tid, f), Wake(tid)]);
            View(r) == QueueOne(View(s), f, false) && r.pushers == s.pushers
  {
    RunTwoSteps(handler, s, Push(tid, f), Wake(tid));
    assert s.pushers + {tid} - {tid} == s.pushers;
  }

  lemma OwnQueues(handler: WakeupHandler, s: Shared, f: Functor)
    requires s.place.Running? && s.place.next > 0 && s.own.Idle? && s.flag
    ensures EnabledRun(handler, s, [OwnPush(f), OwnTest, OwnWake])
    ensures var r := Run(handler, s, [OwnPush(f), OwnTest, OwnWake]);
            View(r) == QueueOne(View(s), f, true) && r == s.(pend := r.pend, log := r.log, counter := r.counter)
  {
    var s1 := Next(handler, s, OwnPush(f));
    RunTwoSteps(handler, s, OwnPush(f), OwnTest);
    RunOneStep(handler, Next(handler, s1, OwnTest), OwnWake);
    RunSplit(handler, s, [OwnPush(f), OwnTest], [OwnWake]);
    assert [OwnPush(f), OwnTest] + [OwnWake] == [OwnPush(f), OwnTest, OwnWake];
  }

  /** The loop's own thread queueing outside doPendFunc: no wakeup, and none is needed, since the
      functors come before the next poll. */
  lemma OwnQueuesQuietly(handler: WakeupHandler, s: Shared, f: Functor)
    requires InUserCode(s.place) && s.own.Idle? && !s.flag
    ensures EnabledRun(handler, s, [OwnPush(f), OwnTest])
    ensures var r := Run(handler, s, [OwnPush(f), OwnTest]);
            && View(r) == QueueOne(View(s), f, true) && r.counter == s.counter && r.own.Idle?
            && r.place == s.place && r.pushers == s.pushers
  {
    RunTwoSteps(handler, s, OwnPush(f), OwnTest);
  }

  /** Any thread that is not in the middle of queueing may queue, at any time. */
  lemma AnyThreadMayQueue(s: Shared, tid: Tid, f: Functor)
    requires tid !in s.pushers
    ensures Enabled(s, Push(tid, f))
  {
  }

  /** And so may the loop's own thread, before loop() and whenever it runs user code: in a handler or
      in a functor. */
  lemma OwnThreadMayQueue(s: Shared, f: Functor)
    requires s.own.Idle?
    requires s.place.NotStarted? || s.place.Handling? || (s.place.Running? && s.place.next > 0)
    ensures Enabled(s, OwnPush(f))
  {
  }

  /** The step the loop's thread takes next, if its own user code queues nothing. */
  function NextOfLoop(s: Shared): Step {
    match s.own
    case Pushed => OwnTest
    case MustWake => OwnWake
    case Idle =>
      match s.place
      case NotStarted => Start
      case Polling => PollReturns(s.counter > 0)
      case Handling(wakes) => if wakes then RunWakeHandler else SetFlag
      case Swapping => Swap
      case Running(next) => if next < |s.batch| then RunNext else ClearFlag
  }

  /** The loop's thread can always go on, whatever the other threads do. */
  lemma LoopNeverStuck(s: Shared)
    requires s.place.Swapping? ==> s.own.Idle?
    ensures Enabled(s, NextOfLoop(s))
  {
  }

  /** epoll_wait may time out, or report other descriptors, at any time; it may report the eventfd
      exactly when that is readable. */
  lemma PollMayReturn(s: Shared, wakes: bool)
    requires s.place.Polling?
    ensures Enabled(s, PollReturns(wakes)) <==> !wakes || s.counter > 0
  {
  }

  /** The draining handler leaves the eventfd unreadable; the one in the code adds to it. */
  lemma HandlerReads(handler: WakeupHandler, s: Shared)
    requires s.place == Handling(true) && s.own.Idle?
    ensures Enabled(s, RunWakeHandler)
    ensures var r := Next(handler, s, RunWakeHandler);
            && r.place == Handling(false)
            && (handler.Drain? ==> r.counter == 0)
            && (handler.AddOne? && s.counter < EVENTFD_MAX ==> r.counter == s.counter + 1)
  {
  }

  lemma {:induction false} QueueStepsRun(handler: WakeupHandler, s: Shared, fs: seq<Functor>)
    requires s.place.Running? && s.place.next > 0 && s.own.Idle? && s.flag
    ensures EnabledRun(handler, s, QueueSteps(fs))
    ensures var r := Run(handler, s, QueueSteps(fs));
            View(r) == QueueAll(View(s), fs) && r == s.(pend := r.pend, log := r.log, counter := r.counter)
    decreases |fs|
  {
    if fs != [] {
      var steps := [OwnPush(fs[0]), OwnTest, OwnWake];
      OwnQueues(handler, s, fs[0]);
      QueueStepsRun(handler, Run(handler, s, steps), fs[1..]);
      RunSplit(handler, s, steps, QueueSteps(fs[1..]));
    }
  }

  /** Running one functor that queues `script` is the class's RunFunctor. */
  lemma FunctorStepsRun(handler: WakeupHandler, s: Shared, script: seq<Functor>)
    requires s.place.Running? && s.own.Idle? && s.flag && s.place.next < |s.batch|
    ensures EnabledRun(handler, s, [RunNext] + QueueSteps(script))
    ensures var r := Run(handler, s, [RunNext] + QueueSteps(script));
            && View(r) == RunOne(View(s), s.batch[s.place.next], script)
            && r == s.(place := Running(s.place.next + 1), pend := r.pend, log := r.log, counter := r.counter,
                       executed := r.executed)
  {
    var s1 := Next(handler, s, RunNext);
    RunOneStep(handler, s, RunNext);
    QueueStepsRun(handler, s1, script);
    RunSplit(handler, s, [RunNext], QueueSteps(script));
  }

  lemma {:induction false} BatchStepsRun(handler: WakeupHandler, s: Shared, scripts: seq<seq<Functor>>)
    requires s.place.Running? && s.own.Idle? && s.flag
    requires s.place.next + |scripts| == |s.batch|
    ensures EnabledRun(handler, s, BatchSteps(scripts))
    ensures var r := Run(handler, s, BatchSteps(scripts));
            && View(r) == RunBatch(View(s), s.batch[s.place.next..], scripts)
            && r == s.(place := Running(|s.batch|), pend := r.pend, log := r.log, counter := r.counter,
                       executed := r.executed)
    decreases |scripts|
  {
    if scripts != [] {
      var i := s.place.next;
      var head := [RunNext] + QueueSteps(scripts[0]);
      FunctorStepsRun(handler, s, scripts[0]);
      var s1 := Run(handler, s, head);
      BatchStepsRun(handler, s1, scripts[1..]);
      RunSplit(handler, s, head, BatchSteps(scripts[1..]));
      assert s.batch[i..][0] == s.batch[i] && s.batch[i..][1..] == s.batch[i + 1..];
    }
  }

  /** The machine's doPendFunc, uninterrupted, is the class's DoPendFunc, whatever the functors queue. */
  lemma DrainStepsRun(handler: WakeupHandler, s: Shared, scripts: seq<seq<Functor>>)
    requires s.place == Handling(false) && s.own.Idle? && |scripts| == |s.pend|
    ensures EnabledRun(handler, s, DrainSteps(scripts))
    ensures var r := Run(handler, s, DrainSteps(scripts));
            View(r) == DoPend(View(s), scripts) && r.place.Polling? && r.own == s.own && r.pushers == s.pushers
  {
    RunTwoSteps(handler, s, SetFlag, Swap);
    var s2 := Run(handler, s, [SetFlag, Swap]);
    BatchStepsRun(handler, s2, scripts);
    RunSplit(handler, s, [SetFlag, Swap], BatchSteps(scripts));
    var s3 := Run(handler, s2, BatchSteps(scripts));
    RunOneStep(handler, s3, ClearFlag);
    RunSplit(handler, s, [SetFlag, Swap] + BatchSteps(scripts), [ClearFlag]);
    assert s.pend[0..] == s.pend;
  }

  /** From every reachable state in which functors wait at epoll_wait and no other thread is in the
      middle of queueing, the loop's thread can carry out a whole iteration by itself: it runs
      exactly the functors that waited, in order, and ends polling again with just what they queued
      waiting, and woken for it. */
  lemma WaitingFunctorsRun(handler: WakeupHandler, s: Shared, scripts: seq<seq<Functor>>)
    requires WakeInv(s) && s.place.Polling? && s.pend != [] && s.pushers == {}
    requires |scripts| == |s.pend|
    ensures EnabledRun(handler, s, RoundSteps(scripts))
    ensures var r := Run(handler, s, RoundSteps(scripts));
            && r.place.Polling?
            && r.executed == s.executed + s.pend
            && r.pend == Flatten(scripts)
            && (r.pend != [] ==> r.counter > 0)
  {
    RunTwoSteps(handler, s, PollReturns(true), RunWakeHandler);
    var s2 := Run(handler, s, [PollReturns(true), RunWakeHandler]);
    DrainStepsRun(handler, s2, scripts);
    RunSplit(handler, s, [PollReturns(true), RunWakeHandler], DrainSteps(scripts));
    DoPendRuns(View(s2), scripts);
  }
}
