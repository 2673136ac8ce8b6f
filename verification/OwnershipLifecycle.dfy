/** Over whole runs of the server: the size of its map, and the order of each connection's states
    and callbacks. */
module OwnershipLifecycle {
  import opened Registration
  import opened ConnectionNames
  import Endings = ConnectionEndings
  import opened Ownership
  import opened OwnershipInvariant
  import opened OwnershipSteps

  /* ---------- The size of the server's map ---------- */

  /** The connection a step takes out of the server's map, if any. */
  predicate Erases(s: Sys, step: Step)
    requires Enabled(s, step)
  {
    match step
    case Close(l) => l == 0 && InMap(s, Current(s, l))
    case RunTask(l) => TaskOf(s, l).Remove? && InMap(s, TaskOf(s, l).conn)
    case DestroyItem(_) => true
    case _ => false
  }

  function Removals(s: Sys, steps: seq<Step>): nat
    requires EnabledRun(s, steps)
    decreases |steps|
  {
    if steps == [] then 0
    else (if Erases(s, steps[0]) then 1 else 0) + Removals(Next(s, steps[0]), steps[1..])
  }

  lemma ErasedSize(s: Sys, c: ConnId)
    requires MapOk(s) && c in s.recs
    ensures |Erased(s, c).connections| == |s.connections| - (if InMap(s, c) then 1 else 0)
  {
    Without(s.connections, Name(s, c));
    if Name(s, c) in s.connections {
      NamesDistinct(s.server, s.ipPort, c, s.connections[Name(s, c)]);
    }
  }

  /** Changes to loops, tables and records that keep every connection on its loop. */
  lemma QuietMap(s: Sys, t: Sys)
    requires MapOk(s) && |t.loops| == |s.loops| && t == s.(loops := t.loops, recs := t.recs)
    requires t.recs.Keys == s.recs.Keys && forall c :: c in s.recs ==> t.recs[c].loop == s.recs[c].loop
    ensures MapOk(t)
  {
  }

  lemma UpdateRecMap(s: Sys, c: ConnId, r: Rec)
    requires MapOk(s) && Known(s, c) && SameSeat(s.recs[c], r)
    ensures var t := UpdateRec(s, c, r);
            && MapOk(t) && t.connections == s.connections && t.nextId == s.nextId
            && (InMap(t, c) <==> InMap(s, c)) && Known(t, c)
  {
    UpdateQuiet(s, c, r);
    QuietMap(s, UpdateRec(s, c, r));
  }

  lemma DestroyConnMap(s: Sys, c: ConnId)
    requires MapOk(s) && Known(s, c)
    ensures var t := DestroyConn(s, c);
            MapOk(t) && t.connections == s.connections && t.nextId == s.nextId
  {
    DestroyQuiet(s, c);
    QuietMap(s, DestroyConn(s, c));
  }

  lemma PushMap(s: Sys, l: nat, task: Task)
    requires MapOk(s) && l < |s.loops|
    ensures var t := Push(s, l, task);
            MapOk(t) && t.connections == s.connections && t.nextId == s.nextId
  {
    QuietMap(s, Push(s, l, task));
  }

  lemma EraseMap(s: Sys, c: ConnId)
    requires MapOk(s) && c in s.recs
    ensures MapOk(Erased(s, c))
    ensures |Erased(s, c).connections| == |s.connections| - (if InMap(s, c) then 1 else 0)
  {
    ErasedSize(s, c);
  }

  lemma RemoveInLoopMap(s: Sys, c: ConnId)
    requires MapOk(s) && Known(s, c)
    ensures var t := RemoveInLoop(s, c);
            MapOk(t) && t.nextId == s.nextId
            && |t.connections| == |s.connections| - (if InMap(s, c) then 1 else 0)
  {
    EraseMap(s, c);
    PushMap(Erased(s, c), s.recs[c].loop, Destroy(c));
  }

  lemma CloseMap(s: Sys, l: nat)
    requires MapOk(s) && InHandler(s, l) && Known(s, Current(s, l))
    ensures var t := HandleClose(s, l);
            && MapOk(t) && t.nextId == s.nextId
            && |t.connections| == |s.connections| - (if l == 0 && InMap(s, Current(s, l)) then 1 else 0)
  {
    var c := Current(s, l);
    var s1 := MarkClosed(s, l);
    QuietMap(s, s1);
    UpdateRecMap(s1, c, Down(s1.recs[c], 1));
    var s2 := UpdateRec(s1, c, Down(s1.recs[c], 1));
    assert InMap(s2, c) <==> InMap(s, c);
    RemoveInLoopMap(s2, c);
    PushMap(s2, 0, Remove(c));
  }

  lemma RunMap(s: Sys, l: nat)
    requires MapOk(s) && CanRun(s, l) && Known(s, TaskOf(s, l).conn)
    ensures var t := RunFunctor(s, l);
            && MapOk(t) && t.nextId == s.nextId
            && |t.connections| == |s.connections|
                                  - (if TaskOf(s, l).Remove? && InMap(s, TaskOf(s, l).conn) then 1 else 0)
  {
    var c := TaskOf(s, l).conn;
    var s1 := Popped(s, l);
    QuietMap(s, s1);
    match TaskOf(s, l)
    case Establish(_) => UpdateRecMap(s1, c, Established(s1.recs[c]));
    case Destroy(_) => DestroyConnMap(s1, c);
    case Remove(_) => RemoveInLoopMap(s1, c);
  }

  lemma CreatedMap(s: Sys, fd: int, l: nat)
    requires MapOk(s) && l < |s.loops| && s.nextId + 1 < ID_LIMIT
    ensures var t := Created(s, fd, l);
            && MapOk(t) && t.nextId == s.nextId + 1 && |t.connections| == |s.connections| + 1
            && Name(s, s.nextId) !in s.connections && Known(t, s.nextId)
  {
    if Name(s, s.nextId) in s.connections {
      NamesDistinct(s.server, s.ipPort, s.nextId, s.connections[Name(s, s.nextId)]);
    }
  }

  lemma NewMap(s: Sys, fd: int, l: nat)
    requires MapOk(s) && l < |s.loops| && s.nextId + 1 < ID_LIMIT
    ensures var t := NewConnection(s, fd, l);
            && MapOk(t) && t.nextId == s.nextId + 1 && |t.connections| == |s.connections| + 1
            && Name(s, s.nextId) !in s.connections
  {
    var s1 := Created(s, fd, l);
    CreatedMap(s, fd, l);
    UpdateRecMap(s1, s.nextId, Established(s1.recs[s.nextId]));
    PushMap(s1, l, Establish(s.nextId));
  }

  lemma DestroyMap(s: Sys, c: ConnId)
    requires MapOk(s) && Known(s, c) && InMap(s, c)
    ensures var t := DestroyOne(s, c);
            MapOk(t) && t.nextId == s.nextId && |t.connections| == |s.connections| - 1
  {
    EraseMap(s, c);
    var s1 := Erased(s, c);
    DestroyConnMap(s1, c);
    PushMap(s1, s.recs[c].loop, Destroy(c));
  }

  /** The steps that leave connections, records' loops and the map alone. */
  lemma OtherMap(s: Sys, step: Step)
    requires MapOk(s) && Enabled(s, step)
    requires MovesOn(step) || step.Pin? || step.Unpin? || step.StartShutdown? || step.ChangeMask? || step.LateSend?
    ensures var t := Next(s, step);
            MapOk(t) && t.connections == s.connections && t.nextId == s.nextId
  {
    match step
    case ChangeMask(_, c, events) => UpdateRecMap(s, c, s.recs[c].(events := events));
    case LateSend(_, c) => UpdateRecMap(s, c, s.recs[c].(events := s.recs[c].events.Or(WRITE_EVENT)));
    case _ =>
  }

  lemma StepMap(s: Sys, step: Step)
    requires MapOk(s) && Enabled(s, step)
    ensures MapOk(Next(s, step))
    ensures |Next(s, step).connections| + (if Erases(s, step) then 1 else 0) - Next(s, step).nextId
         == |s.connections| - s.nextId
  {
    match step
    case Accept(fd, l) => NewMap(s, fd, l);
    case Close(l) => CloseMap(s, l);
    case RunTask(l) => RunMap(s, l);
    case DestroyItem(c) => DestroyMap(s, c);
    case _ => OtherMap(s, step);
  }

  /** The map holds exactly the connections accepted and not yet removed: no insertion overwrites a
      live entry, and every removal takes one entry at most. */
  lemma {:induction false} MapSize(s: Sys, steps: seq<Step>)
    requires MapOk(s) && EnabledRun(s, steps)
    ensures |Run(s, steps).connections| + Removals(s, steps) - Run(s, steps).nextId
         == |s.connections| - s.nextId
    decreases |steps|
  {
    if steps != [] {
      StepMap(s, steps[0]);
      MapSize(Next(s, steps[0]), steps[1..]);
    }
  }

  /** From the start: size plus removals is the number accepted. */
  lemma MapSizeFromStart(server: string, ipPort: string, threads: nat, steps: seq<Step>)
    requires |ipPort| <= 21 && EnabledRun(Initial(server, ipPort, threads), steps)
    ensures var s := Initial(server, ipPort, threads);
            |Run(s, steps).connections| + Removals(s, steps) == Run(s, steps).nextId - 1
  {
    InitialInv(server, ipPort, threads);
    MapSize(Initial(server, ipPort, threads), steps);
  }

  /* ---------- States and callbacks ---------- */

  /** handleClose runs at most once in one handleEvent. */
  predicate SingleClose(s: Sys, step: Step) {
    step.Close? && step.l < |s.loops| && s.loops[step.l].phase.Dispatching? ==> s.loops[step.l].phase.closed == 0
  }

  /** Up once, and first; down once, exactly if the connection is Disconnected; closed at most once;
      once Disconnected, out of the kernel's table. */
  predicate InOrder(r: Rec) {
    && r.ups == (if r.state.Connecting? then 0 else 1)
    && r.downs == (if r.state.Disconnected? then 1 else 0)
    && r.closes <= r.downs
    && (r.state.Disconnected? ==> !r.index.Added?)
    && (r.state.Connected? || r.state.Disconnecting? ==> !r.index.Deleted? && r.events.in_ && r.events.pri)
  }

  /** No connection still to be handled in this batch is closed, unless its own handler closed it. */
  predicate BatchOpen(s: Sys, l: nat)
    requires l < |s.loops|
  {
    var p := s.loops[l].phase;
    p.Dispatching? ==> forall i :: p.at <= i < |p.batch| && !(i == p.at && p.inHandler && p.closed > 0) ==>
      p.batch[i] in s.recs && !s.recs[p.batch[i]].state.Disconnected?
  }

  ghost predicate AllInOrder(s: Sys) {
    && (forall c :: c in s.recs ==> InOrder(s.recs[c]))
    && (forall l :: 0 <= l < |s.loops| ==> BatchOpen(s, l))
  }

  /** Records only move forward. */
  predicate Forward(s: Sys, t: Sys) {
    forall c :: c in s.recs ==> c in t.recs && Endings.Rank(s.recs[c].state) <= Endings.Rank(t.recs[c].state)
  }

  /** One record changes, in order; the phases do not. */
  lemma OneRecord(s: Sys, t: Sys, c: ConnId)
    requires AllInOrder(s) && c in s.recs && |t.loops| == |s.loops|
    requires forall l :: 0 <= l < |s.loops| ==> t.loops[l].phase == s.loops[l].phase
    requires c in t.recs && t.recs == s.recs[c := t.recs[c]] && InOrder(t.recs[c])
    requires Endings.Rank(s.recs[c].state) <= Endings.Rank(t.recs[c].state)
    requires t.recs[c].state.Disconnected? ==>
      s.recs[c].state.Disconnected? || forall l :: 0 <= l < |s.loops| ==> NotAhead(s.loops[l], c)
    ensures AllInOrder(t) && Forward(s, t)
  {
    forall l | 0 <= l < |t.loops|
      ensures BatchOpen(t, l)
    {
      assert BatchOpen(s, l);
      assert t.recs[c].state.Disconnected? ==> s.recs[c].state.Disconnected? || NotAhead(s.loops[l], c);
    }
  }

  /** The loop will not handle this connection in its present batch, except in the handler that has
      just closed it. */
  predicate NotAhead(loop: Loop, c: ConnId) {
    var p := loop.phase;
    p.Dispatching? ==> forall i :: p.at <= i < |p.batch| && p.batch[i] == c ==> i == p.at && p.inHandler && p.closed > 0
  }

  /** Only phases and queues change, and the batch is still open. */
  lemma NoRecord(s: Sys, t: Sys)
    requires AllInOrder(s) && |t.loops| == |s.loops| && t.recs == s.recs
    requires forall l :: 0 <= l < |s.loops| ==> t.loops[l].phase == s.loops[l].phase || BatchOpen(t, l)
    ensures AllInOrder(t) && Forward(s, t)
  {
    forall l | 0 <= l < |t.loops|
      ensures BatchOpen(t, l)
    {
      assert BatchOpen(s, l);
    }
  }

  lemma UpdatedRec(s: Sys, c: ConnId, r: Rec)
    requires Known(s, c) && SameSeat(s.recs[c], r)
    ensures var t := UpdateRec(s, c, r);
            && |t.loops| == |s.loops| && t.recs == s.recs[c := t.recs[c]]
            && t.recs[c] == r.(index := if r.index.Added? && r.events == NONE_EVENT then Deleted else Added)
            && (forall l :: 0 <= l < |s.loops| ==> t.loops[l].phase == s.loops[l].phase)
  {
    UpdateQuiet(s, c, r);
  }

  lemma BatchMemberIsHome(s: Sys, l: nat, c: ConnId)
    requires Inv(s) && l < |s.loops| && c in s.recs && (s.recs[c].loop != l || s.recs[c].index.New?)
    ensures NotAhead(s.loops[l], c)
  {
    assert BatchOk(s, l);
  }

  lemma MarkedOrder(s: Sys, l: nat)
    requires Inv(s) && AllInOrder(s) && InHandler(s, l) && s.loops[l].phase.closed == 0
    ensures var t := MarkClosed(s, l);
            var c := Current(s, l);
            && Inv(t) && AllInOrder(t) && Known(t, c) && t.recs == s.recs
            && (t.recs[c].state.Connected? || t.recs[c].state.Disconnecting?) && !t.recs[c].index.New?
            && (forall k :: 0 <= k < |t.loops| ==> NotAhead(t.loops[k], c))
  {
    var c := Current(s, l);
    var t := MarkClosed(s, l);
    MarkClosedInv(s, l);
    assert BatchOpen(s, l) && BatchOk(s, l);
    assert BatchOpen(t, l);
    NoRecord(s, t);
    forall k | 0 <= k < |t.loops|
      ensures NotAhead(t.loops[k], c)
    {
      if k != l {
        BatchMemberIsHome(t, k, c);
      }
    }
    assert LifeShape(Life(t, c), InMap(t, c), t.recs[c]);
  }

  lemma PushOrder(s: Sys, l: nat, task: Task)
    requires AllInOrder(s) && l < |s.loops|
    ensures AllInOrder(Push(s, l, task)) && Forward(s, Push(s, l, task))
  {
    NoRecord(s, Push(s, l, task));
  }

  lemma EraseOrder(s: Sys, c: ConnId)
    requires AllInOrder(s)
    ensures AllInOrder(Erased(s, c)) && Forward(s, Erased(s, c))
  {
    NoRecord(s, Erased(s, c));
  }

  lemma DownOrder(s: Sys, c: ConnId)
    requires AllInOrder(s) && Known(s, c) && !s.recs[c].index.New?
    requires s.recs[c].state.Connected? || s.recs[c].state.Disconnecting?
    requires forall l :: 0 <= l < |s.loops| ==> NotAhead(s.loops[l], c)
    ensures var t := UpdateRec(s, c, Down(s.recs[c], 1));
            AllInOrder(t) && Forward(s, t) && Known(t, c)
  {
    var r := Down(s.recs[c], 1);
    UpdatedRec(s, c, r);
    assert InOrder(s.recs[c]);
    OneRecord(s, UpdateRec(s, c, r), c);
  }

  lemma CloseOrder(s: Sys, l: nat)
    requires Inv(s) && AllInOrder(s) && InHandler(s, l) && Known(s, Current(s, l)) && s.loops[l].phase.closed == 0
    ensures AllInOrder(HandleClose(s, l)) && Forward(s, HandleClose(s, l))
  {
    var c := Current(s, l);
    var s1 := MarkClosed(s, l);
    MarkedOrder(s, l);
    DownOrder(s1, c);
    var s2 := UpdateRec(s1, c, Down(s1.recs[c], 1));
    if l == 0 {
      EraseOrder(s2, c);
      PushOrder(Erased(s2, c), s2.recs[c].loop, Destroy(c));
    } else {
      PushOrder(s2, 0, Remove(c));
    }
  }

  lemma DestroyOrder(s: Sys, c: ConnId)
    requires AllInOrder(s) && Known(s, c) && !s.recs[c].state.Connecting?
    requires forall l :: 0 <= l < |s.loops| ==> NotAhead(s.loops[l], c)
    ensures AllInOrder(DestroyConn(s, c)) && Forward(s, DestroyConn(s, c))
  {
    var r := s.recs[c];
    if r.state.Connected? {
      UpdatedRec(s, c, Down(r, 0));
    }
    DestroyQuiet(s, c);
    OneRecord(s, DestroyConn(s, c), c);
  }

  /** Once its loop is not dispatching, no batch holds the connection. */
  lemma NotAheadAnywhere(s: Sys, c: ConnId)
    requires Inv(s) && c in s.recs && !s.loops[s.recs[c].loop].phase.Dispatching?
    ensures forall l :: 0 <= l < |s.loops| ==> NotAhead(s.loops[l], c)
  {
    forall l | 0 <= l < |s.loops|
      ensures NotAhead(s.loops[l], c)
    {
      if l != s.recs[c].loop {
        BatchMemberIsHome(s, l, c);
      }
    }
  }

  lemma PoppedOrder(s: Sys, l: nat)
    requires Inv(s) && AllInOrder(s) && CanRun(s, l)
    ensures AllInOrder(Popped(s, l)) && Known(Popped(s, l), TaskOf(s, l).conn)
  {
    PopCore(s, l);
    NoRecord(s, Popped(s, l));
  }

  lemma RunEstablishOrder(s: Sys, l: nat)
    requires Inv(s) && AllInOrder(s) && CanRun(s, l) && TaskOf(s, l).Establish?
    ensures Known(Popped(s, l), TaskOf(s, l).conn)
    ensures var t := EstablishConn(Popped(s, l), TaskOf(s, l).conn);
            AllInOrder(t) && Forward(s, t)
  {
    var c := TaskOf(s, l).conn;
    var s1 := Popped(s, l);
    PoppedOrder(s, l);
    PopShape(s, l);
    UpdatedRec(s1, c, Established(s1.recs[c]));
    assert LifeShape(Life(s, c), InMap(s, c), s.recs[c]);
    OneRecord(s1, UpdateRec(s1, c, Established(s1.recs[c])), c);
  }

  lemma RunDestroyOrder(s: Sys, l: nat)
    requires Inv(s) && AllInOrder(s) && CanRun(s, l) && TaskOf(s, l).Destroy?
    ensures Known(Popped(s, l), TaskOf(s, l).conn)
    ensures var t := DestroyConn(Popped(s, l), TaskOf(s, l).conn);
            AllInOrder(t) && Forward(s, t)
  {
    var c := TaskOf(s, l).conn;
    var s1 := Popped(s, l);
    PoppedOrder(s, l);
    PopShape(s, l);
    NotAheadAnywhere(s, c);
    assert forall k :: 0 <= k < |s1.loops| ==> NotAhead(s.loops[k], c) ==> NotAhead(s1.loops[k], c);
    DestroyOrder(s1, c);
  }

  lemma RunOrder(s: Sys, l: nat)
    requires Inv(s) && AllInOrder(s) && CanRun(s, l) && Known(s, TaskOf(s, l).conn)
    ensures AllInOrder(RunFunctor(s, l)) && Forward(s, RunFunctor(s, l))
  {
    match TaskOf(s, l)
    case Establish(_) => RunEstablishOrder(s, l);
    case Destroy(_) => RunDestroyOrder(s, l);
    case Remove(_) =>
      PoppedOrder(s, l);
      NoRecord(Popped(s, l), RunFunctor(s, l));
  }

  lemma DestroyOneOrder(s: Sys, c: ConnId)
    requires Inv(s) && AllInOrder(s) && c in s.recs && InMap(s, c) && s.loops[0].phase.Stopped?
    ensures AllInOrder(DestroyOne(s, c)) && Forward(s, DestroyOne(s, c))
  {
    var s1 := Erased(s, c);
    EraseOrder(s, c);
    if s.recs[c].loop == 0 {
      NotAheadAnywhere(s, c);
      DestroyOrder(s1, c);
    } else {
      PushOrder(s1, s.recs[c].loop, Destroy(c));
    }
  }

  lemma NewOrder(s: Sys, fd: int, l: nat)
    requires Inv(s) && AllInOrder(s) && l < |s.loops| && s.nextId + 1 < ID_LIMIT && FreeFd(s, fd)
    ensures AllInOrder(NewConnection(s, fd, l)) && Forward(s, NewConnection(s, fd, l))
  {
    var s1 := Created(s, fd, l);
    CreatedParts(s, fd, l);
    CreatedOrder(s, fd, l);
    if l == 0 {
      var r := Established(s1.recs[s.nextId]);
      UpdatedRec(s1, s.nextId, r);
      OneRecord(s1, UpdateRec(s1, s.nextId, r), s.nextId);
    } else {
      PushOrder(s1, l, Establish(s.nextId));
    }
  }

  lemma CreatedOrder(s: Sys, fd: int, l: nat)
    requires MapOk(s) && AllInOrder(s)
    ensures AllInOrder(Created(s, fd, l)) && Forward(s, Created(s, fd, l))
  {
    var t := Created(s, fd, l);
    forall k | 0 <= k < |t.loops|
      ensures BatchOpen(t, k)
    {
      assert BatchOpen(s, k);
    }
  }

  lemma PollOrder(s: Sys, l: nat, batch: seq<ConnId>)
    requires Inv(s) && AllInOrder(s) && Enabled(s, PollReturns(l, batch))
    ensures BatchOpen(Next(s, PollReturns(l, batch)), l)
  {
    forall i | 0 <= i < |batch|
      ensures !s.recs[batch[i]].state.Disconnected?
    {
      assert InKernel(s, l, s.recs[batch[i]].fd, s.loops[l].kernel[s.recs[batch[i]].fd]);
    }
  }

  lemma StepOrder(s: Sys, step: Step)
    requires Inv(s) && AllInOrder(s) && Enabled(s, step) && SingleClose(s, step)
    ensures AllInOrder(Next(s, step)) && Forward(s, Next(s, step))
  {
    if MovesOn(step) {
      PhaseOrder(s, step, if step.StopBase? then 0 else step.l);
    } else if step.Accept? {
      NewOrder(s, step.fd, step.l);
    } else if step.Pin? || step.Unpin? {
      NoRecord(s, Next(s, step));
    } else {
      ConnOrder(s, step);
    }
  }

  /** The steps that act on one connection already there. */
  lemma ConnOrder(s: Sys, step: Step)
    requires Inv(s) && AllInOrder(s) && Enabled(s, step) && SingleClose(s, step)
    requires step.ChangeMask? || step.LateSend? || step.StartShutdown? || step.Close? || step.RunTask?
             || step.DestroyItem?
    ensures AllInOrder(Next(s, step)) && Forward(s, Next(s, step))
  {
    match step
    case ChangeMask(_, _, _) => MaskOrder(s, step);
    case LateSend(_, _) => LateOrder(s, step);
    case StartShutdown(c) => OneRecord(s, Next(s, step), c);
    case Close(l) => CloseOrder(s, l);
    case RunTask(l) => RunOrder(s, l);
    case DestroyItem(c) => DestroyOneOrder(s, c);
  }

  lemma LateOrder(s: Sys, step: Step)
    requires step.LateSend? && AllInOrder(s) && Enabled(s, step)
    ensures AllInOrder(Next(s, step)) && Forward(s, Next(s, step))
  {
    assert InOrder(s.recs[step.c]);
    UpdatedRec(s, step.c, s.recs[step.c].(events := s.recs[step.c].events.Or(WRITE_EVENT)));
    OneRecord(s, Next(s, step), step.c);
  }

  lemma MaskOrder(s: Sys, step: Step)
    requires step.ChangeMask? && AllInOrder(s) && Enabled(s, step)
    ensures AllInOrder(Next(s, step)) && Forward(s, Next(s, step))
  {
    UpdatedRec(s, step.c, s.recs[step.c].(events := step.events));
    OneRecord(s, Next(s, step), step.c);
  }

  /** The steps at which a loop's thread only moves on. */
  predicate MovesOn(step: Step) {
    step.PollReturns? || step.BeginHandle? || step.EndHandle? || step.StartDrain? || step.EndDrain? || step.StopBase?
  }

  lemma PhaseOrder(s: Sys, step: Step, l: nat)
    requires Inv(s) && AllInOrder(s) && Enabled(s, step) && MovesOn(step)
    requires l == if step.StopBase? then 0 else step.l
    ensures AllInOrder(Next(s, step)) && Forward(s, Next(s, step))
  {
    assert LoopOk(s, l);
    PhaseOpen(s, step, l);
    MovedOrder(s, Next(s, step), l);
  }

  lemma PhaseOpen(s: Sys, step: Step, l: nat)
    requires Inv(s) && AllInOrder(s) && Enabled(s, step) && MovesOn(step) && l == (if step.StopBase? then 0 else step.l)
    ensures Moves(s, Next(s, step), l) && BatchOpen(Next(s, step), l)
  {
    assert BatchOpen(s, l) && LoopOk(s, l);
    if step.PollReturns? {
      PollOrder(s, l, step.batch);
    }
  }

  lemma MovedOrder(s: Sys, t: Sys, l: nat)
    requires AllInOrder(s) && Moves(s, t, l) && BatchOpen(t, l)
    ensures AllInOrder(t) && Forward(s, t)
  {
    NoRecord(s, t);
  }

  predicate SingleCloseRun(s: Sys, steps: seq<Step>)
    requires EnabledRun(s, steps)
    decreases |steps|
  {
    steps == [] || (SingleClose(s, steps[0]) && SingleCloseRun(Next(s, steps[0]), steps[1..]))
  }

  lemma {:induction false} RunOrdered(s: Sys, steps: seq<Step>)
    requires Inv(s) && AllInOrder(s) && EnabledRun(s, steps) && SingleCloseRun(s, steps) && NoLateSends(steps)
    ensures AllInOrder(Run(s, steps)) && Forward(s, Run(s, steps))
    decreases |steps|
  {
    if steps != [] {
      StepOrder(s, steps[0]);
      StepInv(s, steps[0]);
      RunOrdered(Next(s, steps[0]), steps[1..]);
    }
  }

  /** The handler running on loop l has closed its connection. */
  predicate HasClosed(s: Sys, l: nat) {
    InHandler(s, l) && s.loops[l].phase.closed > 0
  }

  /** Such a connection is Disconnected. */
  predicate DownIfClosed(s: Sys, l: nat) {
    HasClosed(s, l) ==> Current(s, l) in s.recs && s.recs[Current(s, l)].state.Disconnected?
  }

  ghost predicate ClosedDown(s: Sys) {
    forall l :: 0 <= l < |s.loops| ==> DownIfClosed(s, l)
  }

  /** Loop l is in the same phase in both states, or at least not in a handler that has closed. */
  predicate PhaseKept(s: Sys, t: Sys, l: nat) {
    |t.loops| == |s.loops| && (HasClosed(t, l) ==> t.loops[l].phase == s.loops[l].phase)
  }

  lemma UpdatePhase(s: Sys, c: ConnId, r: Rec, k: nat)
    requires Known(s, c) && SameSeat(s.recs[c], r)
    ensures PhaseKept(s, UpdateRec(s, c, r), k) && PhaseKept(s, DestroyConn(s, c), k)
  {
    UpdateQuiet(s, c, r);
    DestroyQuiet(s, c);
  }

  lemma AcceptPhase(s: Sys, fd: int, l: nat, k: nat)
    requires Inv(s) && l < |s.loops|
    ensures PhaseKept(s, NewConnection(s, fd, l), k)
  {
    var s1 := Created(s, fd, l);
    UpdatePhase(s1, s.nextId, Established(s1.recs[s.nextId]), k);
  }

  lemma ClosePhase(s: Sys, l: nat, k: nat)
    requires InHandler(s, l) && Known(s, Current(s, l)) && k != l
    ensures PhaseKept(s, HandleClose(s, l), k)
  {
    var s1 := MarkClosed(s, l);
    UpdatePhase(s1, Current(s, l), Down(s1.recs[Current(s, l)], 1), k);
  }

  lemma RunPhase(s: Sys, l: nat, k: nat)
    requires CanRun(s, l) && Known(s, TaskOf(s, l).conn)
    ensures PhaseKept(s, RunFunctor(s, l), k)
  {
    var s1 := Popped(s, l);
    var c := TaskOf(s, l).conn;
    assert PhaseKept(s, s1, k);
    UpdatePhase(s1, c, Established(s1.recs[c]), k);
  }

  lemma ItemPhase(s: Sys, c: ConnId, k: nat)
    requires Known(s, c)
    ensures PhaseKept(s, DestroyOne(s, c), k)
  {
    UpdatePhase(Erased(s, c), c, s.recs[c], k);
  }

  lemma MaskPhase(s: Sys, step: Step, k: nat)
    requires step.ChangeMask? && Enabled(s, step)
    ensures PhaseKept(s, Next(s, step), k)
  {
    UpdatePhase(s, step.c, s.recs[step.c].(events := step.events), k);
  }

  lemma ConnPhase(s: Sys, step: Step, k: nat)
    requires Inv(s) && Enabled(s, step) && step != Close(k) && !MovesOn(step)
    ensures PhaseKept(s, Next(s, step), k)
  {
    if step.Accept? {
      AcceptPhase(s, step.fd, step.l, k);
    } else if step.ChangeMask? {
      MaskPhase(s, step, k);
    } else if step.Close? {
      ClosePhase(s, step.l, k);
    } else if step.RunTask? {
      RunPhase(s, step.l, k);
    } else if step.DestroyItem? {
      ItemPhase(s, step.c, k);
    }
  }

  lemma LoopPhase(s: Sys, step: Step, k: nat)
    requires Enabled(s, step) && MovesOn(step)
    ensures PhaseKept(s, Next(s, step), k)
  {
  }

  lemma CloseDown(s: Sys, l: nat)
    requires InHandler(s, l) && Known(s, Current(s, l))
    ensures var c, t := Current(s, l), HandleClose(s, l);
            && DownIfClosed(t, l) && c in t.recs && t.recs[c].downs == s.recs[c].downs + 1
  {
    var c := Current(s, l);
    var s1 := MarkClosed(s, l);
    UpdatedRec(s1, c, Down(s1.recs[c], 1));
    var s2 := UpdateRec(s1, c, Down(s1.recs[c], 1));
    var t := HandleClose(s, l);
    assert t.recs == s2.recs && t.loops[l].phase == s1.loops[l].phase;
  }

  lemma KeptDown(s: Sys, t: Sys, l: nat)
    requires l < |s.loops| && DownIfClosed(s, l) && Forward(s, t) && PhaseKept(s, t, l)
    ensures DownIfClosed(t, l)
  {
  }

  lemma StepClosedDown(s: Sys, step: Step)
    requires Inv(s) && Enabled(s, step) && ClosedDown(s) && Forward(s, Next(s, step))
    ensures ClosedDown(Next(s, step))
  {
    var t := Next(s, step);
    forall k | 0 <= k < |t.loops|
      ensures DownIfClosed(t, k)
    {
      if step == Close(k) {
        CloseDown(s, k);
      } else {
        if MovesOn(step) {
          LoopPhase(s, step, k);
        } else {
          ConnPhase(s, step, k);
        }
        KeptDown(s, t, k);
      }
    }
  }

  lemma SecondCloseBreaks(s: Sys, l: nat)
    requires AllInOrder(s) && l < |s.loops| && DownIfClosed(s, l) && HasClosed(s, l) && Known(s, Current(s, l))
    ensures !AllInOrder(HandleClose(s, l))
  {
    var c := Current(s, l);
    CloseDown(s, l);
    assert InOrder(s.recs[c]);
    assert !InOrder(HandleClose(s, l).recs[c]);
  }

  /** Of all steps, exactly a second close by one handler breaks the order. */
  lemma StepOrderIff(s: Sys, step: Step)
    requires Inv(s) && AllInOrder(s) && ClosedDown(s) && Enabled(s, step)
    ensures AllInOrder(Next(s, step)) <==> SingleClose(s, step)
    ensures SingleClose(s, step) ==> Forward(s, Next(s, step)) && ClosedDown(Next(s, step))
  {
    if SingleClose(s, step) {
      StepOrder(s, step);
      StepClosedDown(s, step);
    } else {
      SecondCloseBreaks(s, step.l);
    }
  }

  /** The order holds in every state of the run, its last included. */
  ghost predicate AlwaysInOrder(s: Sys, steps: seq<Step>)
    requires EnabledRun(s, steps)
    decreases |steps|
  {
    AllInOrder(s) && (steps == [] || AlwaysInOrder(Next(s, steps[0]), steps[1..]))
  }

  lemma {:induction false} RunOrderIff(s: Sys, steps: seq<Step>)
    requires Inv(s) && AllInOrder(s) && ClosedDown(s) && EnabledRun(s, steps) && NoLateSends(steps)
    ensures AlwaysInOrder(s, steps) <==> SingleCloseRun(s, steps)
    decreases |steps|
  {
    if steps != [] {
      StepOrderIff(s, steps[0]);
      StepInv(s, steps[0]);
      if SingleClose(s, steps[0]) {
        RunOrderIff(Next(s, steps[0]), steps[1..]);
      } else {
        assert !AlwaysInOrder(Next(s, steps[0]), steps[1..]);
      }
    }
  }

  /** Over every run of the whole server without late sends, whatever the number of loops and the
      interleaving, the callbacks of all connections keep their order exactly if no handleEvent
      closes twice. */
  lemma LifecycleInOrderIff(server: string, ipPort: string, threads: nat, steps: seq<Step>)
    requires |ipPort| <= 21 && EnabledRun(Initial(server, ipPort, threads), steps) && NoLateSends(steps)
    ensures AlwaysInOrder(Initial(server, ipPort, threads), steps)
       <==> SingleCloseRun(Initial(server, ipPort, threads), steps)
  {
    InitialInv(server, ipPort, threads);
    RunOrderIff(Initial(server, ipPort, threads), steps);
  }

  /** In every such run in which no handleEvent closes twice, however connections
      end, by their peers or by the server's destruction: each connection's state only moves
      forward, its up callback runs once and first, its down callback and close callback at most
      once, and it is down exactly when it is Disconnected. */
  lemma LifecycleInOrder(server: string, ipPort: string, threads: nat, before: seq<Step>, after: seq<Step>)
    requires |ipPort| <= 21 && NoLateSends(before) && NoLateSends(after)
    requires EnabledRun(Initial(server, ipPort, threads), before)
    requires SingleCloseRun(Initial(server, ipPort, threads), before)
    requires EnabledRun(Run(Initial(server, ipPort, threads), before), after)
    requires SingleCloseRun(Run(Initial(server, ipPort, threads), before), after)
    ensures var s := Run(Initial(server, ipPort, threads), before);
            var t := Run(s, after);
            AllInOrder(t) && Forward(s, t)
  {
    var s0 := Initial(server, ipPort, threads);
    InitialInv(server, ipPort, threads);
    RunInv(s0, before);
    RunOrdered(s0, before);
    RunOrdered(Run(s0, before), after);
  }
}
