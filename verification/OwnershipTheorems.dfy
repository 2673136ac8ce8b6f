/** What the invariant means for the server's users: no dangling registration, no descriptor met
    again too early, no connection revived, an exact map, and callbacks in order. */
module OwnershipTheorems {
  import opened Registration
  import opened ConnectionNames
  import ConnectionModel
  import opened Ownership
  import opened OwnershipInvariant
  import opened OwnershipSteps

  /* ---------- Every registration has an owner ---------- */

  /** In the server's map, or about to have connectDestroyed run on its own loop. */
  predicate Owned(s: Sys, c: ConnId) {
    Known(s, c) && (InMap(s, c) || exists i :: 0 <= i < |Pending(s.loops[s.recs[c].loop])|
                                      && Pending(s.loops[s.recs[c].loop])[i] == Destroy(c))
  }

  predicate SafeEntry(s: Sys, l: nat, c: ConnId) {
    Owned(s, c) && Held(s, c) && s.recs[c].loop == l
  }

  /** No Epoller map entry, no kernel entry and no active Filed still to be handled points at a
      dead connection. */
  ghost predicate NoDanglingFiled(s: Sys) {
    && (forall l, fd :: 0 <= l < |s.loops| && fd in s.loops[l].fileds ==> SafeEntry(s, l, s.loops[l].fileds[fd]))
    && (forall l, fd :: 0 <= l < |s.loops| && fd in s.loops[l].kernel ==> SafeEntry(s, l, s.loops[l].kernel[fd]))
    && (forall l, i: nat :: 0 <= l < |s.loops| && ToHandle(s.loops[l], i) ==>
          SafeEntry(s, l, s.loops[l].phase.batch[i]))
  }

  predicate ToHandle(loop: Loop, i: nat) {
    loop.phase.Dispatching? && loop.phase.at <= i < |loop.phase.batch|
  }

  lemma {:induction false} ProjHasDestroy(tasks: seq<Task>, c: ConnId)
    requires Proj(tasks, c) != [] && Proj(tasks, c)[0].Destroy?
    ensures exists i :: 0 <= i < |tasks| && tasks[i] == Destroy(c)
  {
    if tasks[0].conn == c && !tasks[0].Remove? {
      assert tasks[0] == Destroy(c);
    } else {
      ProjHasDestroy(tasks[1..], c);
      var i :| 0 <= i < |tasks[1..]| && tasks[1..][i] == Destroy(c);
      assert tasks[i + 1] == Destroy(c);
    }
  }

  lemma RegisteredIsOwned(s: Sys, c: ConnId)
    requires LivesOk(s) && c in s.recs && !s.recs[c].index.New?
    ensures SafeEntry(s, s.recs[c].loop, c)
  {
    RegisteredIsHeld(s, c);
    if !InMap(s, c) {
      ProjHasDestroy(Pending(s.loops[s.recs[c].loop]), c);
    }
  }

  lemma InvNoDangling(s: Sys)
    requires Inv(s)
    ensures NoDanglingFiled(s)
  {
    forall l, fd | 0 <= l < |s.loops| && fd in s.loops[l].fileds
      ensures SafeEntry(s, l, s.loops[l].fileds[fd])
    {
      assert InFileds(s, l, fd, s.loops[l].fileds[fd]);
      RegisteredIsOwned(s, s.loops[l].fileds[fd]);
    }
    forall l, fd | 0 <= l < |s.loops| && fd in s.loops[l].kernel
      ensures SafeEntry(s, l, s.loops[l].kernel[fd])
    {
      assert InKernel(s, l, fd, s.loops[l].kernel[fd]);
      RegisteredIsOwned(s, s.loops[l].kernel[fd]);
    }
    forall l, i: nat | 0 <= l < |s.loops| && ToHandle(s.loops[l], i)
      ensures SafeEntry(s, l, s.loops[l].phase.batch[i])
    {
      assert BatchOk(s, l);
      RegisteredIsOwned(s, s.loops[l].phase.batch[i]);
    }
  }

  /** In every state that a run without late sends reaches, whatever the number of loops and the
      interleaving. Module OwnershipLateSends shows that late sends are the only exception. */
  lemma NoDanglingEver(server: string, ipPort: string, threads: nat, steps: seq<Step>)
    requires |ipPort| <= 21 && EnabledRun(Initial(server, ipPort, threads), steps) && NoLateSends(steps)
    ensures NoDanglingFiled(Run(Initial(server, ipPort, threads), steps))
  {
    InitialInv(server, ipPort, threads);
    RunInv(Initial(server, ipPort, threads), steps);
    InvNoDangling(Run(Initial(server, ipPort, threads), steps));
  }

  /* ---------- Descriptors and death ---------- */

  /** A descriptor still in some Epoller's map or kernel table is not one accept may return: the
      next user of a number never meets an entry of the last. */
  lemma RegisteredFdIsTaken(s: Sys, l: nat, fd: int)
    requires Inv(s) && l < |s.loops| && (fd in s.loops[l].fileds || fd in s.loops[l].kernel)
    ensures !FreeFd(s, fd)
  {
    var c := if fd in s.loops[l].fileds then s.loops[l].fileds[fd] else s.loops[l].kernel[fd];
    assert fd in s.loops[l].fileds ==> InFileds(s, l, fd, s.loops[l].fileds[fd]);
    assert fd in s.loops[l].kernel ==> InKernel(s, l, fd, s.loops[l].kernel[fd]);
    RegisteredIsHeld(s, c);
    assert s.recs[c].fd == fd;
  }

  /** The steps at which one loop's thread only moves on. */
  predicate MovesLoop(step: Step) {
    step.PollReturns? || step.BeginHandle? || step.EndHandle? || step.StartDrain? || step.EndDrain?
  }

  /** What is not held now is never held again. */
  lemma NoRevival(s: Sys, step: Step, c: ConnId)
    requires Inv(s) && Enabled(s, step) && c in s.recs
    ensures Held(Next(s, step), c) ==> Held(s, c)
  {
    if MovesLoop(step) {
      LoopHolders(s, step, c);
    } else if step.Pin? || step.Unpin? || step.StopBase? {
      OutsideHolders(s, step, c);
    } else if step.Accept? {
      NewHolders(s, step.fd, step.l, c);
    } else {
      ConnHolders(s, step, c);
    }
  }

  lemma OutsideHolders(s: Sys, step: Step, c: ConnId)
    requires Enabled(s, step) && (step.Pin? || step.Unpin? || step.StopBase?)
    ensures Held(Next(s, step), c) ==> Held(s, c)
  {
    if step.Pin? {
      PinHeld(s, s.pinned + {step.c}, c);
    } else if step.Unpin? {
      PinHeld(s, s.pinned - {step.c}, c);
    } else {
      assert HeldBy(Next(s, step).loops[0], c) ==> HeldBy(s.loops[0], c);
      MovesHeld(s, Next(s, step), 0, c);
    }
  }

  /** The steps that act on one connection already there. */
  lemma ConnHolders(s: Sys, step: Step, c: ConnId)
    requires Inv(s) && Enabled(s, step) && c in s.recs
    requires step.ChangeMask? || step.LateSend? || step.StartShutdown? || step.Close? || step.RunTask?
             || step.DestroyItem?
    ensures Held(Next(s, step), c) ==> Held(s, c)
  {
    match step
    case ChangeMask(_, d, events) => UpdateHolders(s, d, s.recs[d].(events := events), c);
    case LateSend(_, d) => UpdateHolders(s, d, s.recs[d].(events := s.recs[d].events.Or(WRITE_EVENT)), c);
    case StartShutdown(d) => ShutdownHolders(s, d, c);
    case Close(l) => CloseHolders(s, l, c);
    case RunTask(l) => RunHolders(s, l, c);
    case DestroyItem(d) => DestroyHolders(s, d, c);
  }

  lemma UpdateHolders(s: Sys, d: ConnId, r: Rec, c: ConnId)
    requires Known(s, d) && SameSeat(s.recs[d], r)
    ensures Held(UpdateRec(s, d, r), c) <==> Held(s, c)
  {
    UpdateQuiet(s, d, r);
    QuietHeld(s, UpdateRec(s, d, r), c);
  }

  lemma ShutdownHolders(s: Sys, d: ConnId, c: ConnId)
    requires d in s.recs
    ensures Held(SetRec(s, d, s.recs[d].(state := ConnectionModel.Disconnecting)), c) <==> Held(s, c)
  {
    QuietHeld(s, SetRec(s, d, s.recs[d].(state := ConnectionModel.Disconnecting)), c);
  }

  lemma NewHolders(s: Sys, fd: int, l: nat, c: ConnId)
    requires Inv(s) && l < |s.loops| && s.nextId + 1 < ID_LIMIT && c in s.recs
    ensures Held(NewConnection(s, fd, l), c) <==> Held(s, c)
  {
    var s1 := Created(s, fd, l);
    CreatedOthers(s, fd, l, c);
    if l == 0 {
      UpdateHolders(s1, s.nextId, Established(s1.recs[s.nextId]), c);
    } else {
      PushHeld(s1, l, Establish(s.nextId), c);
    }
  }

  lemma LoopHolders(s: Sys, step: Step, c: ConnId)
    requires MovesLoop(step) && Inv(s) && Enabled(s, step) && c in s.recs
    ensures Held(Next(s, step), c) ==> Held(s, c)
  {
    var l, t := step.l, Next(s, step);
    assert LoopOk(s, l) && BatchOk(s, l);
    if step.BeginHandle? {
      RegisteredIsHeld(s, s.loops[l].phase.batch[s.loops[l].phase.at]);
      assert HeldBy(t.loops[l], c) ==> HeldBy(s.loops[l], c) || c == s.loops[l].phase.batch[s.loops[l].phase.at];
    } else {
      assert HeldBy(t.loops[l], c) ==> HeldBy(s.loops[l], c);
    }
    MovesHeld(s, t, l, c);
  }

  lemma CloseHolders(s: Sys, l: nat, c: ConnId)
    requires Inv(s) && InHandler(s, l) && Known(s, Current(s, l)) && c in s.recs
    ensures Held(HandleClose(s, l), c) ==> Held(s, c)
  {
    var d := Current(s, l);
    var s1 := MarkClosed(s, l);
    MarkClosedInv(s, l);
    assert HeldBy(s1.loops[l], c) ==> HeldBy(s.loops[l], c);
    MovesHeld(s, s1, l, c);
    var s2 := UpdateRec(s1, d, Down(s1.recs[d], 1));
    UpdateQuiet(s1, d, Down(s1.recs[d], 1));
    DownInv(s1, d);
    QuietHeld(s1, s2, c);
    assert HeldBy(s.loops[l], d);
    if l == 0 {
      RemoveHolders(s2, d, c);
    } else {
      PushHeld(s2, 0, Remove(d), c);
    }
  }

  lemma RemoveHolders(s: Sys, d: ConnId, c: ConnId)
    requires MapOk(s) && d in s.recs && c in s.recs && Known(s, d)
    ensures Held(RemoveInLoop(s, d), c) ==> Held(s, c) || c == d
  {
    EraseInMap(s, d, c);
    PushHeld(Erased(s, d), s.recs[d].loop, Destroy(d), c);
  }

  lemma RunHolders(s: Sys, l: nat, c: ConnId)
    requires Inv(s) && CanRun(s, l) && Known(s, TaskOf(s, l).conn) && c in s.recs
    ensures Held(RunFunctor(s, l), c) ==> Held(s, c)
  {
    var d := TaskOf(s, l).conn;
    var s1 := Popped(s, l);
    PopCore(s, l);
    PopHeld(s, l, c);
    match TaskOf(s, l)
    case Establish(_) =>
      UpdateQuiet(s1, d, Established(s1.recs[d]));
      QuietHeld(s1, EstablishConn(s1, d), c);
    case Destroy(_) =>
      DestroyQuiet(s1, d);
      QuietHeld(s1, DestroyConn(s1, d), c);
    case Remove(_) => RemoveHolders(s1, d, c);
  }

  lemma DestroyHolders(s: Sys, d: ConnId, c: ConnId)
    requires Inv(s) && d in s.recs && InMap(s, d) && c in s.recs
    ensures Held(DestroyOne(s, d), c) ==> Held(s, c)
  {
    EraseInMap(s, d, c);
    var s1 := Erased(s, d);
    if s.recs[d].loop == 0 {
      DestroyQuiet(s1, d);
      QuietHeld(s1, DestroyConn(s1, d), c);
    } else {
      PushHeld(s1, s.recs[d].loop, Destroy(d), c);
    }
  }

  /** From a state that keeps the invariant, a connection dies, and its descriptor is closed, only
      after its Filed has been removed. */
  lemma DiesUnregistered(s: Sys, step: Step, c: ConnId)
    requires Inv(s) && Enabled(s, step) && c in s.recs && Held(s, c) && !Held(Next(s, step), c)
    ensures c in Next(s, step).recs && Next(s, step).recs[c].index.New?
  {
    var t := Next(s, step);
    if step.LateSend? {
      UpdateHolders(s, step.c, s.recs[step.c].(events := s.recs[step.c].events.Or(WRITE_EVENT)), c);
    } else {
      StepInv(s, step);
    }
    RecsStay(s, step, c);
    if !t.recs[c].index.New? {
      RegisteredIsHeld(t, c);
    }
  }

  lemma RecsStay(s: Sys, step: Step, c: ConnId)
    requires Enabled(s, step) && c in s.recs
    ensures c in Next(s, step).recs
  {
    match step
    case Accept(fd, l) =>
      if l == 0 {
        UpdateStays(Created(s, fd, l), s.nextId, Established(Created(s, fd, l).recs[s.nextId]), c);
      }
    case ChangeMask(_, d, events) => UpdateStays(s, d, s.recs[d].(events := events), c);
    case LateSend(_, d) => UpdateStays(s, d, s.recs[d].(events := s.recs[d].events.Or(WRITE_EVENT)), c);
    case Close(l) =>
      var s1 := MarkClosed(s, l);
      UpdateStays(s1, Current(s, l), Down(s1.recs[Current(s, l)], 1), c);
    case RunTask(l) =>
      var s1 := Popped(s, l);
      UpdateStays(s1, TaskOf(s, l).conn, Established(s1.recs[TaskOf(s, l).conn]), c);
      DestroyQuiet(s1, TaskOf(s, l).conn);
    case DestroyItem(d) => DestroyQuiet(Erased(s, d), d);
    case _ =>
  }

  lemma UpdateStays(s: Sys, d: ConnId, r: Rec, c: ConnId)
    requires Known(s, d) && SameSeat(s.recs[d], r) && c in s.recs
    ensures c in UpdateRec(s, d, r).recs
  {
    UpdateQuiet(s, d, r);
  }
}
