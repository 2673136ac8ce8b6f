/** The one way a registration comes to dangle: a sendinLoop that another thread has queued and that
    runs after connectDestroyed, on a connection still shutting down. */
module OwnershipLateSends {
  import opened Registration
  import opened ConnectionNames
  import ConnectionModel
  import opened Ownership
  import opened OwnershipInvariant
  import opened OwnershipSteps
  import opened OwnershipTheorems
  import Lifecycle = OwnershipLifecycle

  /* ---------- One late send ---------- */

  function AfterLateSend(s: Sys, c: ConnId): Sys
    requires Known(s, c)
  {
    UpdateRec(s, c, s.recs[c].(events := s.recs[c].events.Or(WRITE_EVENT)))
  }

  lemma {:induction false} DestroyIsInProj(tasks: seq<Task>, c: ConnId, i: nat)
    requires i < |tasks| && tasks[i] == Destroy(c)
    ensures Proj(tasks, c) != []
  {
    if i > 0 {
      assert tasks[1..][i - 1] == Destroy(c);
      DestroyIsInProj(tasks[1..], c, i - 1);
    }
  }

  lemma OwnedIff(s: Sys, c: ConnId)
    requires Known(s, c) && LifeShape(Life(s, c), InMap(s, c), s.recs[c]) && !s.recs[c].state.Connecting?
    ensures Owned(s, c) <==> InMap(s, c) || Life(s, c) != []
  {
    var p := Pending(s.loops[s.recs[c].loop]);
    if Life(s, c) != [] {
      ProjHasDestroy(p, c);
    }
    if Owned(s, c) && !InMap(s, c) {
      var i :| 0 <= i < |p| && p[i] == Destroy(c);
      DestroyIsInProj(p, c, i);
    }
  }

  /** A late send leaves the registrations owned, and then keeps the whole invariant, exactly if the
      connection is in the server's map or has another connectDestroyed to run. */
  lemma LateSendIff(s: Sys, c: ConnId)
    requires Inv(s) && c in s.recs && Held(s, c) && s.recs[c].index.New? && s.recs[c].state.Disconnecting?
    ensures var t := AfterLateSend(s, c);
            && (NoDanglingFiled(t) <==> InMap(s, c) || Life(s, c) != [])
            && (InMap(s, c) || Life(s, c) != [] ==> Inv(t))
  {
    var r := s.recs[c].(events := s.recs[c].events.Or(WRITE_EVENT));
    var t := AfterLateSend(s, c);
    AloneAtFd(s, c);
    UpdateRecCore(s, c, r);
    UpdateQuiet(s, c, r);
    if InMap(s, c) || Life(s, c) != [] {
      QuietFds(s, t);
      QuietLives(s, t, c);
      InvNoDangling(t);
    } else {
      LateSendDangles(s, c);
    }
  }

  lemma LateSendDangles(s: Sys, c: ConnId)
    requires Inv(s) && c in s.recs && Held(s, c) && s.recs[c].index.New? && s.recs[c].state.Disconnecting?
    requires !InMap(s, c) && Life(s, c) == []
    ensures !NoDanglingFiled(AfterLateSend(s, c))
  {
    var r := s.recs[c].(events := s.recs[c].events.Or(WRITE_EVENT));
    var t := AfterLateSend(s, c);
    AloneAtFd(s, c);
    UpdateRecCore(s, c, r);
    UpdateQuiet(s, c, r);
    QuietLife(s, t, c);
    QuietHeld(s, t, c);
    assert RecOk(t, c);
    if Owned(t, c) {
      var p := Pending(t.loops[t.recs[c].loop]);
      var i :| 0 <= i < |p| && p[i] == Destroy(c);
      DestroyIsInProj(p, c, i);
    }
    assert !SafeEntry(t, t.recs[c].loop, t.loops[t.recs[c].loop].fileds[t.recs[c].fd]);
  }

  /* ---------- Each connection's connectDestroyed, counted ---------- */

  /** What is still due to a connection: its entry in the server's map, which ~Server will turn into
      a connectDestroyed, and what its loop has yet to run. */
  function Due(s: Sys, c: ConnId): nat
    requires Known(s, c)
  {
    (if InMap(s, c) then 1 else 0) + |Life(s, c)|
  }

  /** A connection that has not been closed is due its connectEstablished until that has run, and one
      connectDestroyed until that has. */
  function Owing(r: Rec): nat {
    if r.state.Connecting? then 2 else if r.index.New? then 0 else 1
  }

  ghost predicate NoRemoves(s: Sys, c: ConnId) {
    forall l :: 0 <= l < |s.loops| ==> Remove(c) !in Pending(s.loops[l])
  }

  ghost predicate DueOk(s: Sys, c: ConnId) {
    && Known(s, c)
    && (!s.recs[c].state.Disconnected? ==> Due(s, c) == Owing(s.recs[c]) && NoRemoves(s, c))
  }

  ghost predicate Dues(s: Sys) {
    forall c :: c in s.recs ==> DueOk(s, c)
  }

  ghost predicate DuesBut(s: Sys, c: ConnId) {
    forall d :: d in s.recs && d != c ==> DueOk(s, d)
  }

  lemma QuietDue(s: Sys, t: Sys, d: ConnId)
    requires Quiet(s, t) && Known(s, d)
    ensures Known(t, d) && Due(t, d) == Due(s, d) && (NoRemoves(t, d) <==> NoRemoves(s, d))
  {
    QuietLife(s, t, d);
    QuietHeld(s, t, d);
    assert forall l :: 0 <= l < |s.loops| ==> Pending(t.loops[l]) == Pending(s.loops[l]);
  }

  /** A quiet change to one record whose own account is in order afterwards. */
  lemma QuietDues(s: Sys, t: Sys, c: ConnId)
    requires DuesBut(s, c) && Quiet(s, t) && Known(s, c) && t.recs == s.recs[c := t.recs[c]]
    requires t.recs[c].state.Disconnected? || (Due(s, c) == Owing(t.recs[c]) && NoRemoves(s, c))
    ensures Dues(t)
  {
    forall d | d in t.recs
      ensures DueOk(t, d)
    {
      QuietDue(s, t, d);
    }
  }

  lemma MovesDues(s: Sys, t: Sys, l: nat)
    requires Dues(s) && Moves(s, t, l) && Pending(t.loops[l]) == Pending(s.loops[l])
    ensures Dues(t)
  {
    forall d | d in t.recs
      ensures DueOk(t, d)
    {
      assert DueOk(s, d);
      MovesLife(s, t, l, d);
      assert InMap(t, d) <==> InMap(s, d);
      assert forall k :: 0 <= k < |s.loops| ==> Pending(t.loops[k]) == Pending(s.loops[k]);
    }
  }

  lemma PushPending(s: Sys, l: nat, task: Task)
    requires l < |s.loops|
    ensures var t := Push(s, l, task);
            forall k :: 0 <= k < |s.loops| ==>
              Pending(t.loops[k]) == if k == l then Pending(s.loops[k]) + [task] else Pending(s.loops[k])
  {
    assert Pending(Push(s, l, task).loops[l]) == Pending(s.loops[l]) + [task];
  }

  lemma PushDue(s: Sys, l: nat, task: Task, d: ConnId)
    requires l < |s.loops| && Known(s, d) && TaskOk(s, l, task)
    ensures var t := Push(s, l, task);
            && Known(t, d)
            && Due(t, d) == Due(s, d) + (if task.conn == d && !task.Remove? then 1 else 0)
            && (task != Remove(d) && NoRemoves(s, d) ==> NoRemoves(t, d))
  {
    PushLife(s, l, task, d);
    PushHeld(s, l, task, d);
    PushPending(s, l, task);
  }

  lemma PushRemoveDues(s: Sys, c: ConnId)
    requires Dues(s) && c in s.recs && s.recs[c].state.Disconnected? && |s.loops| > 0
    ensures Dues(Push(s, 0, Remove(c)))
  {
    forall d | d in s.recs
      ensures DueOk(Push(s, 0, Remove(c)), d)
    {
      assert DueOk(s, d) && DueOk(s, c);
      PushDue(s, 0, Remove(c), d);
    }
  }

  lemma EraseDue(s: Sys, c: ConnId, d: ConnId)
    requires MapOk(s) && c in s.recs && Known(s, d)
    ensures var t := Erased(s, c);
            && Known(t, d) && (NoRemoves(t, d) <==> NoRemoves(s, d))
            && Due(t, d) == Due(s, d) - (if d == c && InMap(s, c) then 1 else 0)
  {
    EraseInMap(s, c, d);
    assert Life(Erased(s, c), d) == Life(s, d);
  }

  /** Erasing a connection while queueing its connectDestroyed. */
  lemma RemoveInLoopDues(s: Sys, c: ConnId)
    requires MapOk(s) && Dues(s) && c in s.recs && (s.recs[c].state.Disconnected? || InMap(s, c))
    ensures Dues(RemoveInLoop(s, c))
  {
    var s1 := Erased(s, c);
    var l := s.recs[c].loop;
    forall d | d in s.recs
      ensures DueOk(RemoveInLoop(s, c), d)
    {
      assert DueOk(s, d) && DueOk(s, c);
      EraseDue(s, c, d);
      PushDue(s1, l, Destroy(c), d);
    }
  }

  /* ---------- The account over the steps ---------- */

  lemma MaskDues(s: Sys, c: ConnId, r: Rec)
    requires Dues(s) && c in s.recs && SameSeat(s.recs[c], r) && !s.recs[c].index.New?
    requires r.state.Disconnected? || (r.state == s.recs[c].state && !r.state.Connecting?)
    ensures Dues(UpdateRec(s, c, r))
  {
    assert DueOk(s, c);
    UpdateQuiet(s, c, r);
    QuietDues(s, UpdateRec(s, c, r), c);
  }

  lemma ShutdownDues(s: Sys, step: Step)
    requires Dues(s) && step.StartShutdown? && Enabled(s, step)
    ensures Dues(Next(s, step))
  {
    assert DueOk(s, step.c);
    assert Quiet(s, Next(s, step));
    QuietDues(s, Next(s, step), step.c);
  }

  lemma MarkClosedDues(s: Sys, l: nat)
    requires Dues(s) && InHandler(s, l)
    ensures Dues(MarkClosed(s, l))
  {
    assert Pending(MarkClosed(s, l).loops[l]) == Pending(s.loops[l]);
    MovesDues(s, MarkClosed(s, l), l);
  }

  lemma DownDues(s: Sys, c: ConnId)
    requires Inv(s) && Dues(s) && c in s.recs && Held(s, c) && !s.recs[c].index.New?
    ensures var t := UpdateRec(s, c, Down(s.recs[c], 1));
            Inv(t) && Dues(t) && c in t.recs && t.recs[c].state.Disconnected?
  {
    MaskDues(s, c, Down(s.recs[c], 1));
    DownInv(s, c);
    UpdateQuiet(s, c, Down(s.recs[c], 1));
  }

  lemma CloseDues(s: Sys, l: nat)
    requires Inv(s) && Dues(s) && InHandler(s, l) && Known(s, Current(s, l))
    ensures Dues(HandleClose(s, l))
  {
    var c := Current(s, l);
    var s1 := MarkClosed(s, l);
    MarkClosedInv(s, l);
    MarkClosedDues(s, l);
    DownDues(s1, c);
    var s2 := UpdateRec(s1, c, Down(s1.recs[c], 1));
    if l == 0 {
      RemoveInLoopDues(s2, c);
    } else {
      PushRemoveDues(s2, c);
    }
  }

  lemma PopDue(s: Sys, l: nat, d: ConnId)
    requires CanRun(s, l) && Known(s, d)
    requires !TaskOf(s, l).Remove? && d == TaskOf(s, l).conn ==> s.recs[d].loop == l
    ensures var t := Popped(s, l);
            && Known(t, d) && (NoRemoves(s, d) ==> NoRemoves(t, d))
            && Due(t, d) == Due(s, d) - (if d == TaskOf(s, l).conn && !TaskOf(s, l).Remove? then 1 else 0)
  {
    PopLife(s, l, d);
    PopHeld(s, l, d);
    PopPending(s.loops[l]);
    var t := Popped(s, l);
    assert forall k :: 0 <= k < |s.loops| && k != l ==> t.loops[k] == s.loops[k];
  }

  lemma PopDues(s: Sys, l: nat)
    requires Inv(s) && Dues(s) && CanRun(s, l)
    ensures DuesBut(Popped(s, l), TaskOf(s, l).conn) && (TaskOf(s, l).Remove? ==> Dues(Popped(s, l)))
  {
    PopCore(s, l);
    forall d | d in s.recs && (d != TaskOf(s, l).conn || TaskOf(s, l).Remove?)
      ensures DueOk(Popped(s, l), d)
    {
      assert DueOk(s, d);
      PopDue(s, l, d);
    }
  }

  /** The account of a connection whose connectEstablished or connectDestroyed is just being run. */
  lemma PoppedDue(s: Sys, l: nat)
    requires Inv(s) && Dues(s) && CanRun(s, l) && !TaskOf(s, l).Remove?
    ensures var t, c := Popped(s, l), TaskOf(s, l).conn;
            && Known(t, c) && t.recs == s.recs && DuesBut(t, c)
            && (s.recs[c].state.Connecting? <==> TaskOf(s, l).Establish?)
            && (!s.recs[c].state.Disconnected? ==> Due(t, c) == Owing(s.recs[c]) - 1 && NoRemoves(t, c))
  {
    var c := TaskOf(s, l).conn;
    PopDues(s, l);
    PopShape(s, l);
    assert DueOk(s, c);
    PopDue(s, l, c);
  }

  lemma RunEstablishDues(s: Sys, l: nat)
    requires Inv(s) && Dues(s) && CanRun(s, l) && TaskOf(s, l).Establish?
    ensures Known(Popped(s, l), TaskOf(s, l).conn)
    ensures Dues(EstablishConn(Popped(s, l), TaskOf(s, l).conn))
  {
    PoppedDue(s, l);
    EstablishDues(Popped(s, l), TaskOf(s, l).conn);
  }

  lemma EstablishDues(s: Sys, c: ConnId)
    requires Known(s, c) && DuesBut(s, c) && Due(s, c) == 1 && NoRemoves(s, c)
    ensures Dues(EstablishConn(s, c))
  {
    UpdateQuiet(s, c, Established(s.recs[c]));
    QuietDues(s, EstablishConn(s, c), c);
  }

  lemma RunDestroyDues(s: Sys, l: nat)
    requires Inv(s) && Dues(s) && CanRun(s, l) && TaskOf(s, l).Destroy?
    ensures Known(Popped(s, l), TaskOf(s, l).conn)
    ensures Dues(DestroyConn(Popped(s, l), TaskOf(s, l).conn))
  {
    PoppedDue(s, l);
    DestroyDues(Popped(s, l), TaskOf(s, l).conn);
  }

  lemma DestroyDues(s: Sys, c: ConnId)
    requires Known(s, c) && DuesBut(s, c) && !s.recs[c].state.Connecting?
    requires s.recs[c].state.Disconnected? || (Due(s, c) == 0 && NoRemoves(s, c))
    ensures Dues(DestroyConn(s, c))
  {
    DestroyQuiet(s, c);
    QuietDues(s, DestroyConn(s, c), c);
  }

  lemma RunRemoveDues(s: Sys, l: nat)
    requires Inv(s) && Dues(s) && CanRun(s, l) && TaskOf(s, l).Remove?
    ensures Known(Popped(s, l), TaskOf(s, l).conn)
    ensures Dues(RemoveInLoop(Popped(s, l), TaskOf(s, l).conn))
  {
    var c := TaskOf(s, l).conn;
    PopEffects(s, l);
    PopDues(s, l);
    PopPending(s.loops[l]);
    assert Pending(s.loops[l])[0] == Remove(c);
    assert DueOk(s, c);
    RemoveInLoopDues(Popped(s, l), c);
  }

  lemma RunDues(s: Sys, l: nat)
    requires Inv(s) && Dues(s) && CanRun(s, l) && Known(s, TaskOf(s, l).conn)
    ensures Dues(RunFunctor(s, l))
  {
    match TaskOf(s, l)
    case Establish(_) => RunEstablishDues(s, l);
    case Destroy(_) => RunDestroyDues(s, l);
    case Remove(_) => RunRemoveDues(s, l);
  }

  lemma CreatedDues(s: Sys, fd: int, l: nat)
    requires Inv(s) && Dues(s) && l < |s.loops| && s.nextId + 1 < ID_LIMIT && FreeFd(s, fd)
    ensures var t := Created(s, fd, l);
            DuesBut(t, s.nextId) && Known(t, s.nextId) && Due(t, s.nextId) == 1 && NoRemoves(t, s.nextId)
  {
    var t := Created(s, fd, l);
    CreatedParts(s, fd, l);
    forall d | d in s.recs
      ensures DueOk(t, d)
    {
      assert DueOk(s, d);
      CreatedOthers(s, fd, l, d);
      assert NoRemoves(s, d) ==> NoRemoves(t, d);
    }
    NewHasNoRemoves(s, s.nextId);
  }

  lemma NewHasNoRemoves(s: Sys, c: ConnId)
    requires Core(s) && c !in s.recs
    ensures NoRemoves(s, c)
  {
    forall l | 0 <= l < |s.loops|
      ensures Remove(c) !in Pending(s.loops[l])
    {
      assert LoopOk(s, l);
      var p := Pending(s.loops[l]);
      forall i | 0 <= i < |p|
        ensures p[i].conn != c
      {
        assert TaskOk(s, l, p[i]);
      }
    }
  }

  lemma NewDues(s: Sys, fd: int, l: nat)
    requires Inv(s) && Dues(s) && l < |s.loops| && s.nextId + 1 < ID_LIMIT && FreeFd(s, fd)
    ensures Dues(NewConnection(s, fd, l))
  {
    var c := s.nextId;
    var s1 := Created(s, fd, l);
    CreatedParts(s, fd, l);
    CreatedDues(s, fd, l);
    if l == 0 {
      UpdateQuiet(s1, c, Established(s1.recs[c]));
      QuietDues(s1, EstablishConn(s1, c), c);
    } else {
      forall d | d in s1.recs
        ensures DueOk(Push(s1, l, Establish(c)), d)
      {
        PushDue(s1, l, Establish(c), d);
      }
    }
  }

  lemma DestroyOneDues(s: Sys, c: ConnId)
    requires Inv(s) && Dues(s) && c in s.recs && InMap(s, c)
    ensures Dues(DestroyOne(s, c))
  {
    assert DueOk(s, c);
    if s.recs[c].loop == 0 {
      var s1 := Erased(s, c);
      forall d | d in s.recs
        ensures Known(s1, d) && (d != c ==> DueOk(s1, d))
      {
        assert DueOk(s, d);
        EraseDue(s, c, d);
      }
      EraseDue(s, c, c);
      assert LifeShape(Life(s, c), InMap(s, c), s.recs[c]);
      DestroyQuiet(s1, c);
      QuietDues(s1, DestroyConn(s1, c), c);
    } else {
      RemoveInLoopDues(s, c);
    }
  }

  lemma LoopDues(s: Sys, step: Step)
    requires Inv(s) && Dues(s) && Lifecycle.MovesOn(step) && Enabled(s, step)
    ensures Dues(Next(s, step))
  {
    var l := if step.StopBase? then 0 else step.l;
    LoopPending(s, step, l);
    MovesDues(s, Next(s, step), l);
  }

  /** What waits to be run stays the same when a loop's thread moves on. */
  lemma LoopPending(s: Sys, step: Step, l: nat)
    requires Core(s) && Lifecycle.MovesOn(step) && Enabled(s, step) && l == (if step.StopBase? then 0 else step.l)
    ensures Moves(s, Next(s, step), l) && Pending(Next(s, step).loops[l]) == Pending(s.loops[l])
  {
    assert LoopOk(s, l);
  }

  lemma PinDues(s: Sys, pinned: set<ConnId>)
    requires Dues(s)
    ensures Dues(s.(pinned := pinned))
  {
    var t := s.(pinned := pinned);
    forall d | d in t.recs
      ensures DueOk(t, d)
    {
      assert DueOk(s, d);
      assert Life(t, d) == Life(s, d);
    }
  }

  lemma ConnDues(s: Sys, step: Step)
    requires Inv(s) && Dues(s) && Enabled(s, step)
    requires step.ChangeMask? || step.StartShutdown? || step.Close? || step.RunTask? || step.DestroyItem?
    ensures Dues(Next(s, step))
  {
    match step
    case ChangeMask(_, c, events) => MaskDues(s, c, s.recs[c].(events := events));
    case StartShutdown(_) => ShutdownDues(s, step);
    case Close(l) => CloseDues(s, l);
    case RunTask(l) => RunDues(s, l);
    case DestroyItem(c) => DestroyOneDues(s, c);
  }

  lemma StepDues(s: Sys, step: Step)
    requires Inv(s) && Dues(s) && Enabled(s, step) && !step.LateSend?
    ensures Dues(Next(s, step))
  {
    if Lifecycle.MovesOn(step) {
      LoopDues(s, step);
    } else if step.Accept? {
      NewDues(s, step.fd, step.l);
    } else if step.Pin? {
      PinDues(s, s.pinned + {step.c});
    } else if step.Unpin? {
      PinDues(s, s.pinned - {step.c});
    } else {
      ConnDues(s, step);
    }
  }

  /* ---------- Whole runs ---------- */

  /** No registration dangles in any state of the run, its last included. */
  ghost predicate AlwaysNoDangling(s: Sys, steps: seq<Step>)
    requires EnabledRun(s, steps)
    decreases |steps|
  {
    NoDanglingFiled(s) && (steps == [] || AlwaysNoDangling(Next(s, steps[0]), steps[1..]))
  }

  /** A late send always dangles: by then the one connectDestroyed has run. */
  lemma EveryLateSendDangles(s: Sys, step: Step)
    requires Inv(s) && Dues(s) && step.LateSend? && Enabled(s, step)
    ensures !NoDanglingFiled(Next(s, step))
  {
    assert DueOk(s, step.c);
    LateSendDangles(s, step.c);
  }

  lemma LateSendsTail(steps: seq<Step>)
    requires steps != []
    ensures NoLateSends(steps) <==> !steps[0].LateSend? && NoLateSends(steps[1..])
  {
    assert forall i :: 0 <= i < |steps[1..]| ==> steps[1..][i] == steps[i + 1];
    assert forall i :: 1 <= i < |steps| ==> steps[i] == steps[1..][i - 1];
  }

  lemma {:induction false} RunNoDanglingIff(s: Sys, steps: seq<Step>)
    requires Inv(s) && Dues(s) && EnabledRun(s, steps)
    ensures AlwaysNoDangling(s, steps) <==> NoLateSends(steps)
    decreases |steps|
  {
    InvNoDangling(s);
    if steps != [] {
      LateSendsTail(steps);
      if steps[0].LateSend? {
        EveryLateSendDangles(s, steps[0]);
        assert !AlwaysNoDangling(Next(s, steps[0]), steps[1..]);
      } else {
        StepInv(s, steps[0]);
        StepDues(s, steps[0]);
        RunNoDanglingIff(Next(s, steps[0]), steps[1..]);
      }
    }
  }

  /** Over every run, whatever the number of loops and the interleaving: every map entry, kernel entry
      and Filed still to be dispatched has an owner all along exactly if no queued send runs after
      connectDestroyed. */
  lemma NoDanglingIff(server: string, ipPort: string, threads: nat, steps: seq<Step>)
    requires |ipPort| <= 21 && EnabledRun(Initial(server, ipPort, threads), steps)
    ensures AlwaysNoDangling(Initial(server, ipPort, threads), steps) <==> NoLateSends(steps)
  {
    InitialInv(server, ipPort, threads);
    RunNoDanglingIff(Initial(server, ipPort, threads), steps);
  }

  /** In every state of the run, registrations have owners and callbacks have kept their order. */
  ghost predicate AlwaysSound(s: Sys, steps: seq<Step>)
    requires EnabledRun(s, steps)
    decreases |steps|
  {
    && NoDanglingFiled(s) && Lifecycle.AllInOrder(s)
    && (steps == [] || AlwaysSound(Next(s, steps[0]), steps[1..]))
  }

  lemma {:induction false} RunSoundIff(s: Sys, steps: seq<Step>)
    requires Inv(s) && Dues(s) && Lifecycle.AllInOrder(s) && Lifecycle.ClosedDown(s) && EnabledRun(s, steps)
    ensures AlwaysSound(s, steps) <==> NoLateSends(steps) && Lifecycle.SingleCloseRun(s, steps)
    decreases |steps|
  {
    InvNoDangling(s);
    if steps != [] {
      var t := Next(s, steps[0]);
      LateSendsTail(steps);
      Lifecycle.StepOrderIff(s, steps[0]);
      if steps[0].LateSend? {
        EveryLateSendDangles(s, steps[0]);
        assert !AlwaysSound(t, steps[1..]);
      } else if Lifecycle.SingleClose(s, steps[0]) {
        StepInv(s, steps[0]);
        StepDues(s, steps[0]);
        RunSoundIff(t, steps[1..]);
      } else {
        assert !AlwaysSound(t, steps[1..]);
      }
    }
  }

  /** Over every run at all: both promises hold throughout exactly if no send comes late and no
      handleEvent closes twice. */
  lemma SoundIff(server: string, ipPort: string, threads: nat, steps: seq<Step>)
    requires |ipPort| <= 21 && EnabledRun(Initial(server, ipPort, threads), steps)
    ensures AlwaysSound(Initial(server, ipPort, threads), steps)
       <==> NoLateSends(steps) && Lifecycle.SingleCloseRun(Initial(server, ipPort, threads), steps)
  {
    InitialInv(server, ipPort, threads);
    RunSoundIff(Initial(server, ipPort, threads), steps);
  }

  /** No descriptor in any table is one that accept may return. */
  ghost predicate FdsSafe(s: Sys) {
    forall l, fd :: 0 <= l < |s.loops| && (fd in s.loops[l].fileds || fd in s.loops[l].kernel) ==> !FreeFd(s, fd)
  }

  /** In every state that a run without late sends reaches, a new connection never meets an entry of
      an old one; LateSendLosesDescriptor shows how one does after a late send. */
  lemma RegisteredFdsAreTaken(server: string, ipPort: string, threads: nat, steps: seq<Step>)
    requires |ipPort| <= 21 && EnabledRun(Initial(server, ipPort, threads), steps) && NoLateSends(steps)
    ensures FdsSafe(Run(Initial(server, ipPort, threads), steps))
  {
    InitialInv(server, ipPort, threads);
    RunInv(Initial(server, ipPort, threads), steps);
    var s := Run(Initial(server, ipPort, threads), steps);
    forall l, fd | 0 <= l < |s.loops| && (fd in s.loops[l].fileds || fd in s.loops[l].kernel)
      ensures !FreeFd(s, fd)
    {
      RegisteredFdIsTaken(s, l, fd);
    }
  }

  /* ---------- A run with a late send ---------- */

  /** A server with one sub-loop. */
  function Two(server: string, ipPort: string, base: Loop, sub: Loop, recs: map<ConnId, Rec>, inMap: bool,
               n: nat): Sys
  {
    Sys(server, ipPort, [base, sub], recs,
        if inMap then map[ConnName(server, ipPort, 1) := 1] else map[], n, {})
  }

  const IDLE := Dispatching([], 0, false, 0)

  /** Connection 1 at descriptor 5, on the sub-loop. */
  function One(state: ConnectionModel.State, events: Mask, index: Index, ups: nat): map<ConnId, Rec> {
    map[1 := Rec(1, 5, state, events, index, ups, 0, 0)]
  }

  function Sub(queue: seq<Task>, local: seq<Task>, phase: Phase, registered: bool): Loop {
    var table := if registered then map[5 := 1] else map[];
    Loop(queue, local, phase, table, table)
  }

  lemma TwoWithLoop(a: Loop, b: Loop, x: Loop)
    ensures [a, b][0 := x] == [x, b] && [a, b][1 := x] == [a, x]
  {
  }

  /** The base loop, which has nothing registered and nothing queued. */
  function Base(phase: Phase): Loop {
    Loop([], [], phase, map[], map[])
  }

  /** Steps from s0 lead to t. */
  predicate LeadsTo(s0: Sys, steps: seq<Step>, t: Sys) {
    EnabledRun(s0, steps) && Run(s0, steps) == t
  }

  ghost predicate Reaches(s0: Sys, t: Sys) {
    exists steps :: NoLateSends(steps) && LeadsTo(s0, steps, t)
  }

  lemma ReachesOn(s0: Sys, s: Sys, t: Sys)
    requires Reaches(s0, s) && Reaches(s, t)
    ensures Reaches(s0, t)
  {
    var a :| NoLateSends(a) && LeadsTo(s0, a, s);
    var b :| NoLateSends(b) && LeadsTo(s, b, t);
    RunSplit(s0, a, b);
    assert NoLateSends(a + b) && LeadsTo(s0, a + b, t);
  }

  lemma ReachesByOne(s: Sys, step: Step, t: Sys)
    requires Enabled(s, step) && !step.LateSend? && Next(s, step) == t
    ensures Reaches(s, t)
  {
    RunOne(s, step);
    assert NoLateSends([step]) && LeadsTo(s, [step], t);
  }

  /** The sub-loop's thread polls, finds nothing, and comes to its functors. */
  lemma SubDrains(server: string, ipPort: string, base: Loop, queue: seq<Task>, registered: bool,
                  recs: map<ConnId, Rec>, inMap: bool, n: nat)
    ensures Reaches(Two(server, ipPort, base, Sub(queue, [], Polling, registered), recs, inMap, n),
                    Two(server, ipPort, base, Sub([], queue, Draining(0), registered), recs, inMap, n))
  {
    var s := Two(server, ipPort, base, Sub(queue, [], Polling, registered), recs, inMap, n);
    var s1 := Two(server, ipPort, base, Sub(queue, [], IDLE, registered), recs, inMap, n);
    var s2 := Two(server, ipPort, base, Sub([], queue, Draining(0), registered), recs, inMap, n);
    TwoWithLoop(base, Sub(queue, [], Polling, registered), Sub(queue, [], IDLE, registered));
    TwoWithLoop(base, Sub(queue, [], IDLE, registered), Sub([], queue, Draining(0), registered));
    ReachesByOne(s, PollReturns(1, []), s1);
    ReachesByOne(s1, StartDrain(1), s2);
    ReachesOn(s, s1, s2);
  }

  lemma SubEnds(server: string, ipPort: string, base: Loop, task: Task, registered: bool,
                recs: map<ConnId, Rec>, inMap: bool, n: nat)
    ensures var s := Two(server, ipPort, base, Sub([], [task], Draining(1), registered), recs, inMap, n);
            Enabled(s, EndDrain(1))
            && Next(s, EndDrain(1)) == Two(server, ipPort, base, Sub([], [], Polling, registered), recs, inMap, n)
  {
    TwoWithLoop(base, Sub([], [task], Draining(1), registered), Sub([], [], Polling, registered));
  }

  /** A connection is accepted, and waits to be established. */
  lemma Accepts(server: string, ipPort: string)
    ensures Reaches(Initial(server, ipPort, 1),
                    Two(server, ipPort, Base(IDLE), Sub([Establish(1)], [], Polling, false),
                        One(ConnectionModel.Connecting, NONE_EVENT, New, 0), true, 2))
  {
    var s := Two(server, ipPort, NEW_LOOP, NEW_LOOP, map[], false, 1);
    var s1 := Two(server, ipPort, Base(IDLE), NEW_LOOP, map[], false, 1);
    var s2 := Two(server, ipPort, Base(IDLE), Sub([Establish(1)], [], Polling, false),
                  One(ConnectionModel.Connecting, NONE_EVENT, New, 0), true, 2);
    assert Initial(server, ipPort, 1).loops == [NEW_LOOP, NEW_LOOP];
    assert Initial(server, ipPort, 1) == s;
    TwoWithLoop(NEW_LOOP, NEW_LOOP, Base(IDLE));
    TwoWithLoop(Base(IDLE), NEW_LOOP, Sub([Establish(1)], [], Polling, false));
    ReachesByOne(s, PollReturns(0, []), s1);
    var created := Created(s1, 5, 1);
    assert created == Two(server, ipPort, Base(IDLE), NEW_LOOP, s2.recs, true, 2);
    assert created.loops[1].queue + [Establish(1)] == [Establish(1)];
    assert NewConnection(s1, 5, 1) == s2;
    ReachesByOne(s1, Accept(5, 1), s2);
    ReachesOn(s, s1, s2);
  }

  lemma Establishes(server: string, ipPort: string)
    ensures Reaches(Two(server, ipPort, Base(IDLE), Sub([], [Establish(1)], Draining(0), false),
                        One(ConnectionModel.Connecting, NONE_EVENT, New, 0), true, 2),
                    Two(server, ipPort, Base(IDLE), Sub([], [], Polling, true),
                        One(ConnectionModel.Connected, READ_EVENT, Added, 1), true, 2))
  {
    var up := One(ConnectionModel.Connected, READ_EVENT, Added, 1);
    var s := Two(server, ipPort, Base(IDLE), Sub([], [Establish(1)], Draining(0), false),
                 One(ConnectionModel.Connecting, NONE_EVENT, New, 0), true, 2);
    var s1 := Two(server, ipPort, Base(IDLE), Sub([], [Establish(1)], Draining(1), true), up, true, 2);
    var s2 := Two(server, ipPort, Base(IDLE), Sub([], [], Polling, true), up, true, 2);
    TwoWithLoop(Base(IDLE), Sub([], [Establish(1)], Draining(0), false), Sub([], [Establish(1)], Draining(1), false));
    TwoWithLoop(Base(IDLE), Sub([], [Establish(1)], Draining(1), false), Sub([], [Establish(1)], Draining(1), true));
    assert NONE_EVENT.Or(READ_EVENT) == READ_EVENT;
    assert map[][5 := 1] == map[5 := 1];
    ReachesByOne(s, RunTask(1), s1);
    SubEnds(server, ipPort, Base(IDLE), Establish(1), true, up, true, 2);
    ReachesByOne(s1, EndDrain(1), s2);
    ReachesOn(s, s1, s2);
  }

  /** The base loop's thread ends its round and loop(). */
  lemma BaseStops(server: string, ipPort: string)
    ensures var up := One(ConnectionModel.Connected, READ_EVENT, Added, 1);
            Reaches(Two(server, ipPort, Base(IDLE), Sub([], [], Polling, true), up, true, 2),
                    Two(server, ipPort, Base(Stopped), Sub([], [], Polling, true), up, true, 2))
  {
    var up := One(ConnectionModel.Connected, READ_EVENT, Added, 1);
    var sub := Sub([], [], Polling, true);
    var s := Two(server, ipPort, Base(IDLE), sub, up, true, 2);
    var s1 := Two(server, ipPort, Base(Draining(0)), sub, up, true, 2);
    var s2 := Two(server, ipPort, Base(Polling), sub, up, true, 2);
    var s3 := Two(server, ipPort, Base(Stopped), sub, up, true, 2);
    TwoWithLoop(Base(IDLE), sub, Base(Draining(0)));
    TwoWithLoop(Base(Draining(0)), sub, Base(Polling));
    TwoWithLoop(Base(Polling), sub, Base(Stopped));
    ReachesByOne(s, StartDrain(0), s1);
    ReachesByOne(s1, EndDrain(0), s2);
    ReachesByOne(s2, StopBase, s3);
    ReachesOn(s, s1, s2);
    ReachesOn(s, s2, s3);
  }

  /** ~Server sends off the connectDestroyed. */
  lemma ServerLeaves(server: string, ipPort: string)
    ensures var up := One(ConnectionModel.Connected, READ_EVENT, Added, 1);
            Reaches(Two(server, ipPort, Base(Stopped), Sub([], [], Polling, true), up, true, 2),
                    Two(server, ipPort, Base(Stopped), Sub([Destroy(1)], [], Polling, true), up, false, 2))
  {
    var up := One(ConnectionModel.Connected, READ_EVENT, Added, 1);
    var s := Two(server, ipPort, Base(Stopped), Sub([], [], Polling, true), up, true, 2);
    var s1 := Two(server, ipPort, Base(Stopped), Sub([Destroy(1)], [], Polling, true), up, false, 2);
    TwoWithLoop(Base(Stopped), Sub([], [], Polling, true), Sub([Destroy(1)], [], Polling, true));
    assert Name(s, 1) == ConnName(server, ipPort, 1);
    assert Erased(s, 1) == Two(server, ipPort, Base(Stopped), Sub([], [], Polling, true), up, false, 2);
    assert s.loops[1].queue + [Destroy(1)] == [Destroy(1)];
    assert DestroyOne(s, 1) == s1;
    ReachesByOne(s, DestroyItem(1), s1);
  }

  /** User code shuts the connection down. */
  lemma ShutsDown(server: string, ipPort: string)
    ensures Reaches(Two(server, ipPort, Base(Stopped), Sub([Destroy(1)], [], Polling, true),
                        One(ConnectionModel.Connected, READ_EVENT, Added, 1), false, 2),
                    Two(server, ipPort, Base(Stopped), Sub([Destroy(1)], [], Polling, true),
                        One(ConnectionModel.Disconnecting, READ_EVENT, Added, 1), false, 2))
  {
    var s := Two(server, ipPort, Base(Stopped), Sub([Destroy(1)], [], Polling, true),
                 One(ConnectionModel.Connected, READ_EVENT, Added, 1), false, 2);
    assert s.loops[1].queue[0].conn == 1;
    assert HeldBy(s.loops[1], 1);
    ReachesByOne(s, StartShutdown(1), Two(server, ipPort, Base(Stopped), Sub([Destroy(1)], [], Polling, true),
                                          One(ConnectionModel.Disconnecting, READ_EVENT, Added, 1), false, 2));
  }

  /** connectDestroyed runs, and the vector still holds the connection. */
  lemma Destroys(server: string, ipPort: string)
    ensures Reaches(Two(server, ipPort, Base(Stopped), Sub([], [Destroy(1)], Draining(0), true),
                        One(ConnectionModel.Disconnecting, READ_EVENT, Added, 1), false, 2),
                    Abandoned(server, ipPort))
  {
    var s := Two(server, ipPort, Base(Stopped), Sub([], [Destroy(1)], Draining(0), true),
                 One(ConnectionModel.Disconnecting, READ_EVENT, Added, 1), false, 2);
    TwoWithLoop(Base(Stopped), Sub([], [Destroy(1)], Draining(0), true), Sub([], [Destroy(1)], Draining(1), true));
    TwoWithLoop(Base(Stopped), Sub([], [Destroy(1)], Draining(1), true), Sub([], [Destroy(1)], Draining(1), false));
    assert map[5 := 1] - {5} == map[];
    ReachesByOne(s, RunTask(1), Abandoned(server, ipPort));
  }

  /** The moment after connectDestroyed, in which a queued send is late. */
  function Abandoned(server: string, ipPort: string): Sys {
    Two(server, ipPort, Base(Stopped), Sub([], [Destroy(1)], Draining(1), false),
        One(ConnectionModel.Disconnecting, READ_EVENT, New, 1), false, 2)
  }

  lemma AbandonedIsReached(server: string, ipPort: string)
    ensures Reaches(Initial(server, ipPort, 1), Abandoned(server, ipPort))
  {
    var s0 := Initial(server, ipPort, 1);
    var created := One(ConnectionModel.Connecting, NONE_EVENT, New, 0);
    var up := One(ConnectionModel.Connected, READ_EVENT, Added, 1);
    var closing := One(ConnectionModel.Disconnecting, READ_EVENT, Added, 1);
    Accepts(server, ipPort);
    SubDrains(server, ipPort, Base(IDLE), [Establish(1)], false, created, true, 2);
    Establishes(server, ipPort);
    BaseStops(server, ipPort);
    ServerLeaves(server, ipPort);
    ShutsDown(server, ipPort);
    SubDrains(server, ipPort, Base(Stopped), [Destroy(1)], true, closing, false, 2);
    Destroys(server, ipPort);
    ReachesOn(s0, Two(server, ipPort, Base(IDLE), Sub([Establish(1)], [], Polling, false), created, true, 2),
              Two(server, ipPort, Base(IDLE), Sub([], [Establish(1)], Draining(0), false), created, true, 2));
    ReachesOn(s0, Two(server, ipPort, Base(IDLE), Sub([], [Establish(1)], Draining(0), false), created, true, 2),
              Two(server, ipPort, Base(IDLE), Sub([], [], Polling, true), up, true, 2));
    ReachesOn(s0, Two(server, ipPort, Base(IDLE), Sub([], [], Polling, true), up, true, 2),
              Two(server, ipPort, Base(Stopped), Sub([], [], Polling, true), up, true, 2));
    ReachesOn(s0, Two(server, ipPort, Base(Stopped), Sub([], [], Polling, true), up, true, 2),
              Two(server, ipPort, Base(Stopped), Sub([Destroy(1)], [], Polling, true), up, false, 2));
    ReachesOn(s0, Two(server, ipPort, Base(Stopped), Sub([Destroy(1)], [], Polling, true), up, false, 2),
              Two(server, ipPort, Base(Stopped), Sub([Destroy(1)], [], Polling, true), closing, false, 2));
    ReachesOn(s0, Two(server, ipPort, Base(Stopped), Sub([Destroy(1)], [], Polling, true), closing, false, 2),
              Two(server, ipPort, Base(Stopped), Sub([], [Destroy(1)], Draining(0), true), closing, false, 2));
    ReachesOn(s0, Two(server, ipPort, Base(Stopped), Sub([], [Destroy(1)], Draining(0), true), closing, false, 2),
              Abandoned(server, ipPort));
  }

  /** The connection is dead, its descriptor free for the next one, its entry still in both tables. */
  predicate LostDescriptor(t: Sys) {
    && |t.loops| == 2 && t.loops[1].fileds == map[5 := 1] && t.loops[1].kernel == map[5 := 1]
    && 1 in t.recs && !Held(t, 1) && FreeFd(t, 5)
  }

  /** A server is destroyed while a connection is up; user code then shuts the connection down, and a
      send queued by another thread runs behind its connectDestroyed. That send registers the Filed
      again, and once the functors are done the descriptor is lost. */
  lemma LateSendLosesDescriptor(server: string, ipPort: string)
    ensures var s := Abandoned(server, ipPort);
            && Reaches(Initial(server, ipPort, 1), s)
            && EnabledRun(s, [LateSend(1, 1), EndDrain(1)])
            && LostDescriptor(Run(s, [LateSend(1, 1), EndDrain(1)]))
  {
    AbandonedIsReached(server, ipPort);
    var s := Abandoned(server, ipPort);
    var late := One(ConnectionModel.Disconnecting, READ_EVENT.Or(WRITE_EVENT), Added, 1);
    var s1 := Two(server, ipPort, Base(Stopped), Sub([], [Destroy(1)], Draining(1), true), late, false, 2);
    SendsLate(server, ipPort);
    SubEnds(server, ipPort, Base(Stopped), Destroy(1), true, late, false, 2);
    RunOne(s, LateSend(1, 1));
    RunOne(s1, EndDrain(1));
    RunSplit(s, [LateSend(1, 1)], [EndDrain(1)]);
    assert [LateSend(1, 1)] + [EndDrain(1)] == [LateSend(1, 1), EndDrain(1)];
  }

  lemma SendsLate(server: string, ipPort: string)
    ensures var s := Abandoned(server, ipPort);
            Enabled(s, LateSend(1, 1))
            && Next(s, LateSend(1, 1)) == Two(server, ipPort, Base(Stopped), Sub([], [Destroy(1)], Draining(1), true),
                 One(ConnectionModel.Disconnecting, READ_EVENT.Or(WRITE_EVENT), Added, 1), false, 2)
  {
    var s := Abandoned(server, ipPort);
    assert s.loops[1].local[0].conn == 1;
    assert HeldBy(s.loops[1], 1);
    TwoWithLoop(Base(Stopped), Sub([], [Destroy(1)], Draining(1), false), Sub([], [Destroy(1)], Draining(1), true));
    assert map[][5 := 1] == map[5 := 1];
  }
}
