/** What the loops and the holders of connections can always do: every reported connection gets its
    turn, in the order of the report; who holds a connection keeps it, and who lets go lets go. */
module OwnershipProgress {
  import opened Registration
  import opened ConnectionNames
  import opened Ownership
  import opened OwnershipInvariant
  import opened OwnershipSteps

  /* ---------- Dispatching ---------- */

  /** The handlers of the first n connections of a batch, with nothing happening in them. */
  function HandleSteps(l: nat, n: nat): seq<Step> {
    if n == 0 then [] else HandleSteps(l, n - 1) + [BeginHandle(l), EndHandle(l)]
  }

  lemma RunTwo(s: Sys, step: Step, step': Step)
    requires Enabled(s, step) && Enabled(Next(s, step), step')
    ensures EnabledRun(s, [step, step']) && Run(s, [step, step']) == Next(Next(s, step), step')
  {
    RunOne(s, step);
    RunOne(Next(s, step), step');
    RunSplit(s, [step], [step']);
    assert [step] + [step'] == [step, step'];
  }

  /** The batch is handled in order, each connection once. */
  lemma {:induction false} HandlesInOrder(s: Sys, l: nat, n: nat)
    requires l < |s.loops| && s.loops[l].phase.Dispatching? && !s.loops[l].phase.inHandler
    requires s.loops[l].phase.at == 0 && s.loops[l].phase.closed == 0 && n <= |s.loops[l].phase.batch|
    ensures EnabledRun(s, HandleSteps(l, n))
    ensures Run(s, HandleSteps(l, n)) == WithPhase(s, l, s.loops[l].phase.(at := n))
  {
    if n == 0 {
      assert s.loops[l := s.loops[l]] == s.loops;
    } else {
      HandlesInOrder(s, l, n - 1);
      var t := WithPhase(s, l, s.loops[l].phase.(at := n - 1));
      HandlesOne(t, l);
      RunSplit(s, HandleSteps(l, n - 1), [BeginHandle(l), EndHandle(l)]);
      assert s.loops[l := t.loops[l]][l := s.loops[l].(phase := s.loops[l].phase.(at := n))]
          == s.loops[l := s.loops[l].(phase := s.loops[l].phase.(at := n))];
    }
  }

  lemma HandlesOne(s: Sys, l: nat)
    requires l < |s.loops| && s.loops[l].phase.Dispatching? && !s.loops[l].phase.inHandler
    requires s.loops[l].phase.closed == 0 && s.loops[l].phase.at < |s.loops[l].phase.batch|
    ensures EnabledRun(s, [BeginHandle(l), EndHandle(l)])
    ensures Run(s, [BeginHandle(l), EndHandle(l)])
         == WithPhase(s, l, s.loops[l].phase.(at := s.loops[l].phase.at + 1))
  {
    var p := s.loops[l].phase;
    var t := Next(s, BeginHandle(l));
    var u := Next(t, EndHandle(l));
    RunTwo(s, BeginHandle(l), EndHandle(l));
    assert u.loops[l].phase == p.(at := p.at + 1);
    assert u.loops == s.loops[l := u.loops[l]];
  }

  /** Any registered connections can be reported; each then gets its turn, in the report's order, and
      after the last the loop comes to its functors. */
  lemma ReportedAreHandled(s: Sys, l: nat, batch: seq<ConnId>, n: nat)
    requires l < |s.loops| && s.loops[l].phase.Polling? && n <= |batch|
    requires forall i :: 0 <= i < |batch| ==>
      batch[i] in s.recs && Reportable(s, l, batch[i])
    requires forall i, j :: 0 <= i < j < |batch| ==> batch[i] != batch[j]
    ensures var steps := [PollReturns(l, batch)] + HandleSteps(l, n);
            && EnabledRun(s, steps)
            && var t := Run(s, steps);
               && l < |t.loops| && t.loops[l].phase.Dispatching?
               && (n < |batch| ==> Enabled(t, BeginHandle(l)) && InHandler(Next(t, BeginHandle(l)), l)
                                   && Current(Next(t, BeginHandle(l)), l) == batch[n])
               && (n == |batch| ==> Enabled(t, StartDrain(l)))
  {
    var t := Next(s, PollReturns(l, batch));
    RunOne(s, PollReturns(l, batch));
    HandlesInOrder(t, l, n);
    RunSplit(s, [PollReturns(l, batch)], HandleSteps(l, n));
  }

  predicate Reportable(s: Sys, l: nat, c: ConnId)
    requires l < |s.loops| && c in s.recs
  {
    s.recs[c].fd in s.loops[l].kernel && s.loops[l].kernel[s.recs[c].fd] == c
  }

  /* ---------- What can happen, and when ---------- */

  /** The step a loop's thread takes next, if its handlers do nothing and nothing is reported. */
  function NextOfLoop(s: Sys, l: nat): Step
    requires l < |s.loops|
  {
    match s.loops[l].phase
    case Polling => PollReturns(l, [])
    case Dispatching(batch, at, inHandler, _) =>
      if inHandler then EndHandle(l) else if at < |batch| then BeginHandle(l) else StartDrain(l)
    case Draining(done) => if done < |s.loops[l].local| then RunTask(l) else EndDrain(l)
    case Stopped => StopBase
  }

  /** No loop's thread is ever stuck, in any state that keeps the invariant. */
  lemma LoopNeverStuck(s: Sys, l: nat)
    requires Inv(s) && l < |s.loops| && !s.loops[l].phase.Stopped?
    ensures Enabled(s, NextOfLoop(s, l))
  {
    assert LoopOk(s, l);
    if CanRun(s, l) {
      assert TaskOk(s, l, TaskOf(s, l));
    }
  }

  /** Between two handlers of the base loop, a connection can be accepted on any descriptor that no
      connection alive has, for any sub-loop, or for the base loop if there is no other. */
  lemma MayAccept(s: Sys, fd: int, l: nat)
    requires |s.loops| > 0 && s.loops[0].phase.Dispatching? && !s.loops[0].phase.inHandler
    requires if |s.loops| == 1 then l == 0 else 1 <= l < |s.loops|
    requires s.nextId < 0x7FFF_FFFF
    ensures Enabled(s, Accept(fd, l)) <==> forall c :: c in s.recs && Held(s, c) ==> s.recs[c].fd != fd
  {
  }

  /** User code may take a pointer to any connection alive, let go of any it has, and shut down any that
      is up. */
  lemma UsersMay(s: Sys, c: ConnId)
    requires c in s.recs
    ensures Held(s, c) ==> Enabled(s, Pin(c))
    ensures c in s.pinned ==> Enabled(s, Unpin(c))
    ensures Held(s, c) && s.recs[c].state.Connected? ==> Enabled(s, StartShutdown(c))
  {
  }

  /** A handler may close its connection. */
  lemma HandlersMay(s: Sys, l: nat)
    requires Inv(s) && InHandler(s, l)
    ensures Enabled(s, Close(l))
  {
    assert BatchOk(s, l);
  }

  /** The base loop may stop at epoll_wait, and then every connection in the map can be destroyed. */
  lemma ServerMay(s: Sys, c: ConnId)
    requires MapOk(s)
    ensures s.loops[0].phase.Polling? ==> Enabled(s, StopBase)
    ensures s.loops[0].phase.Stopped? && InMap(s, c) ==> Enabled(s, DestroyItem(c))
  {
  }

  /* ---------- Functors ---------- */

  /** doPendFunc takes the queue as it is, and runs it from its front; the base loop, and every other,
      is back at epoll_wait when the last functor has run. */
  lemma FunctorsInOrder(s: Sys, l: nat)
    requires Enabled(s, StartDrain(l)) && s.loops[l].local == []
    ensures var t := Next(s, StartDrain(l));
            && t.loops[l].queue == [] && t.loops[l].local == s.loops[l].queue
            && (s.loops[l].queue != [] ==> CanRun(t, l) && TaskOf(t, l) == s.loops[l].queue[0])
            && (s.loops[l].queue == [] ==>
                  Enabled(t, EndDrain(l)) && Next(t, EndDrain(l)).loops[l].phase.Polling?)
  {
  }

  /** Running one functor leads to the next of the vector, whatever it did and queued. */
  lemma FunctorsFollow(s: Sys, l: nat)
    requires Enabled(s, RunTask(l))
    ensures var t := Next(s, RunTask(l));
            && l < |t.loops| && t.loops[l].local == s.loops[l].local
            && t.loops[l].phase == Draining(s.loops[l].phase.done + 1)
            && s.loops[l].queue <= t.loops[l].queue
  {
    var s1 := Popped(s, l);
    var c := TaskOf(s, l).conn;
    UpdateQuiet(s1, c, Established(s1.recs[c]));
    DestroyQuiet(s1, c);
  }

  /* ---------- Holding and letting go ---------- */

  /** A connection that user code holds a pointer to stays alive until it lets go. */
  lemma {:induction false} PinnedStaysHeld(s: Sys, steps: seq<Step>, c: ConnId)
    requires EnabledRun(s, steps) && c in s.pinned
    requires forall i :: 0 <= i < |steps| ==> steps[i] != Unpin(c)
    ensures c in Run(s, steps).pinned && Held(Run(s, steps), c)
    decreases |steps|
  {
    if steps != [] {
      assert steps[0] != Unpin(c);
      PinnedStays(s, steps[0], c);
      assert forall i :: 0 <= i < |steps[1..]| ==> steps[1..][i] == steps[i + 1];
      PinnedStaysHeld(Next(s, steps[0]), steps[1..], c);
    }
  }

  lemma PinnedStays(s: Sys, step: Step, c: ConnId)
    requires Enabled(s, step) && step != Unpin(c) && c in s.pinned
    ensures c in Next(s, step).pinned
  {
    match step
    case Accept(fd, l) =>
      var s1 := Created(s, fd, l);
      UpdateQuiet(s1, s.nextId, Established(s1.recs[s.nextId]));
    case ChangeMask(_, d, events) => UpdateQuiet(s, d, s.recs[d].(events := events));
    case LateSend(_, d) => UpdateQuiet(s, d, s.recs[d].(events := s.recs[d].events.Or(WRITE_EVENT)));
    case Close(l) =>
      var s1 := MarkClosed(s, l);
      UpdateQuiet(s1, Current(s, l), Down(s1.recs[Current(s, l)], 1));
    case RunTask(l) =>
      var s1 := Popped(s, l);
      UpdateQuiet(s1, TaskOf(s, l).conn, Established(s1.recs[TaskOf(s, l).conn]));
      DestroyQuiet(s1, TaskOf(s, l).conn);
    case DestroyItem(d) => DestroyQuiet(Erased(s, d), d);
    case _ =>
  }

  /** Taking a pointer holds; letting go leaves only the server and the loops as holders. */
  lemma PinLaw(s: Sys, c: ConnId)
    requires Enabled(s, Pin(c))
    ensures c in Next(s, Pin(c)).pinned && Held(Next(s, Pin(c)), c)
  {
  }

  lemma UnpinLaw(s: Sys, c: ConnId)
    requires Enabled(s, Unpin(c))
    ensures Held(Next(s, Unpin(c)), c) <==>
      InMap(s, c) || exists l :: 0 <= l < |s.loops| && HeldBy(s.loops[l], c)
  {
    var t := Next(s, Unpin(c));
    assert t.loops == s.loops;
  }

  /** When doPendFunc returns, its vector holds nothing any more. */
  lemma DrainLetsGo(s: Sys, l: nat, c: ConnId)
    requires Enabled(s, EndDrain(l))
    ensures HeldBy(Next(s, EndDrain(l)).loops[l], c) <==> Mentions(s.loops[l].queue, c)
  {
  }
}
