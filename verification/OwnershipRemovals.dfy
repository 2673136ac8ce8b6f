/** A closed connection is sent on for removal: from its own loop to the base loop, out of the server's
    map, and back to its own loop for connectDestroyed. */
module OwnershipRemovals {
  import opened Registration
  import opened ConnectionNames
  import opened Ownership
  import opened OwnershipInvariant
  import opened OwnershipSteps
  import Lifecycle = OwnershipLifecycle

  /* ---------- What one close sends ---------- */

  /** handleClose on a sub-loop queues the removal on the base loop, and touches the map itself only
      on the base loop, where connectDestroyed is queued at once. */
  lemma CloseSends(s: Sys, l: nat)
    requires Enabled(s, Close(l)) && MapOk(s)
    ensures var c, t := Current(s, l), Next(s, Close(l));
            && c in t.recs && t.recs[c].closes == s.recs[c].closes + 1 && t.recs[c].state.Disconnected?
            && |t.loops| == |s.loops|
            && (l != 0 ==> t.loops[0].queue == s.loops[0].queue + [Remove(c)] && t.connections == s.connections)
            && (l == 0 ==> !InMap(t, c)
                           && t.loops[s.recs[c].loop].queue == s.loops[s.recs[c].loop].queue + [Destroy(c)])
  {
    var c := Current(s, l);
    var s1 := MarkClosed(s, l);
    var r := Down(s1.recs[c], 1);
    UpdateQuiet(s1, c, r);
    assert UpdateRec(s1, c, r).recs[c].closes == s.recs[c].closes + 1;
  }

  /** removeConnectionInLoop takes the connection out of the map and sends connectDestroyed to its
      own loop. */
  lemma RemoveSends(s: Sys, l: nat)
    requires Enabled(s, RunTask(l)) && TaskOf(s, l).Remove? && MapOk(s)
    ensures var c, t := TaskOf(s, l).conn, Next(s, RunTask(l));
            && |t.loops| == |s.loops| && !InMap(t, c)
            && t.loops[s.recs[c].loop].queue == s.loops[s.recs[c].loop].queue + [Destroy(c)]
  {
  }

  /* ---------- Over every run ---------- */

  /** The phases are in order, whatever the tables hold. */
  ghost predicate Calm(s: Sys) {
    MapOk(s) && forall l :: 0 <= l < |s.loops| ==> ShapeOk(s.loops[l])
  }

  /** Closed, still in the map, and so on its way to the base loop. */
  predicate Awaits(s: Sys, c: ConnId)
    requires |s.loops| > 0 && c in s.recs
  {
    s.recs[c].closes > 0 && InMap(s, c) ==> Remove(c) in Pending(s.loops[0])
  }

  ghost predicate AllAwait(s: Sys) {
    Calm(s) && forall c :: c in s.recs ==> Awaits(s, c)
  }

  /** Nothing is closed, and nothing queued for the base loop is lost. */
  lemma KeepAwaiting(s: Sys, t: Sys)
    requires AllAwait(s) && Calm(t)
    requires forall c :: c in t.recs ==> c in s.recs || t.recs[c].closes == 0
    requires forall c :: c in t.recs && c in s.recs ==>
      t.recs[c].closes == s.recs[c].closes && (InMap(t, c) ==> InMap(s, c))
    requires forall c :: c in s.recs && InMap(t, c) && Remove(c) in Pending(s.loops[0]) ==>
      Remove(c) in Pending(t.loops[0])
    ensures AllAwait(t)
  {
    forall c | c in t.recs
      ensures Awaits(t, c)
    {
      assert c in s.recs ==> Awaits(s, c);
    }
  }

  lemma QuietCalm(s: Sys, t: Sys)
    requires Calm(s) && Quiet(s, t)
    ensures Calm(t)
  {
    Lifecycle.QuietMap(s, t);
    assert forall l :: 0 <= l < |s.loops| ==> ShapeOk(s.loops[l]) ==> ShapeOk(t.loops[l]);
  }

  /** Changes of tables and of records that close nothing. */
  lemma QuietAwaits(s: Sys, t: Sys)
    requires AllAwait(s) && Quiet(s, t)
    requires forall c :: c in s.recs ==> t.recs[c].closes == s.recs[c].closes
    ensures AllAwait(t)
  {
    QuietCalm(s, t);
    assert Pending(t.loops[0]) == Pending(s.loops[0]);
    KeepAwaiting(s, t);
  }

  lemma UpdateAwaits(s: Sys, c: ConnId, r: Rec)
    requires AllAwait(s) && Known(s, c) && SameSeat(s.recs[c], r) && r.closes == s.recs[c].closes
    ensures AllAwait(UpdateRec(s, c, r))
  {
    UpdateQuiet(s, c, r);
    QuietAwaits(s, UpdateRec(s, c, r));
  }

  lemma DestroyAwaits(s: Sys, c: ConnId)
    requires AllAwait(s) && Known(s, c)
    ensures AllAwait(DestroyConn(s, c))
  {
    DestroyQuiet(s, c);
    UpdateQuiet(s, c, Down(s.recs[c], 0));
    QuietAwaits(s, DestroyConn(s, c));
  }

  lemma PushPending(s: Sys, l: nat, task: Task)
    requires l < |s.loops|
    ensures Pending(Push(s, l, task).loops[0])
         == if l == 0 then Pending(s.loops[0]) + [task] else Pending(s.loops[0])
  {
    assert l == 0 ==> Pending(Push(s, l, task).loops[0]) == Pending(s.loops[0]) + [task];
  }

  lemma PushCalm(s: Sys, l: nat, task: Task)
    requires Calm(s) && l < |s.loops|
    ensures Calm(Push(s, l, task))
  {
    Lifecycle.PushMap(s, l, task);
    assert ShapeOk(s.loops[l]);
  }

  lemma PushAwaits(s: Sys, l: nat, task: Task)
    requires AllAwait(s) && l < |s.loops|
    ensures AllAwait(Push(s, l, task))
  {
    PushCalm(s, l, task);
    PushPending(s, l, task);
    KeepAwaiting(s, Push(s, l, task));
  }

  /** Out of the map: nothing more to await. */
  lemma EraseAwaits(s: Sys, c: ConnId)
    requires AllAwait(s) && c in s.recs
    ensures AllAwait(Erased(s, c))
  {
    var t := Erased(s, c);
    Lifecycle.EraseMap(s, c);
    forall d | d in s.recs
      ensures InMap(t, d) ==> InMap(s, d)
    {
      EraseInMap(s, c, d);
    }
    KeepAwaiting(s, t);
  }

  lemma RemoveInLoopAwaits(s: Sys, c: ConnId)
    requires AllAwait(s) && Known(s, c)
    ensures AllAwait(RemoveInLoop(s, c))
  {
    EraseAwaits(s, c);
    PushAwaits(Erased(s, c), s.recs[c].loop, Destroy(c));
  }

  /** Everything is in order but for one connection just closed. */
  ghost predicate AwaitBut(s: Sys, c: ConnId) {
    Calm(s) && forall d :: d in s.recs && d != c ==> Awaits(s, d)
  }

  lemma DownAwaits(s: Sys, c: ConnId)
    requires AllAwait(s) && Known(s, c)
    ensures var t := UpdateRec(s, c, Down(s.recs[c], 1));
            AwaitBut(t, c) && Known(t, c)
  {
    var t := UpdateRec(s, c, Down(s.recs[c], 1));
    UpdateQuiet(s, c, Down(s.recs[c], 1));
    QuietCalm(s, t);
    forall d | d in s.recs && d != c
      ensures Awaits(t, d)
    {
      assert Awaits(s, d);
      assert Pending(t.loops[0]) == Pending(s.loops[0]);
      QuietHeld(s, t, d);
    }
  }

  lemma PushRemoveRestores(s: Sys, c: ConnId)
    requires AwaitBut(s, c) && c in s.recs
    ensures AllAwait(Push(s, 0, Remove(c)))
  {
    var t := Push(s, 0, Remove(c));
    PushCalm(s, 0, Remove(c));
    PushPending(s, 0, Remove(c));
    forall d | d in t.recs
      ensures Awaits(t, d)
    {
      assert d != c ==> Awaits(s, d);
      assert InMap(t, d) <==> InMap(s, d);
    }
  }

  lemma EraseRestores(s: Sys, c: ConnId)
    requires AwaitBut(s, c) && Known(s, c)
    ensures AllAwait(RemoveInLoop(s, c))
  {
    var t := Erased(s, c);
    Lifecycle.EraseMap(s, c);
    forall d | d in s.recs
      ensures Awaits(t, d)
    {
      assert d != c ==> Awaits(s, d);
      EraseInMap(s, c, d);
    }
    PushAwaits(t, s.recs[c].loop, Destroy(c));
  }

  lemma MovesAwait(s: Sys, t: Sys, l: nat)
    requires AllAwait(s) && Moves(s, t, l) && ShapeOk(t.loops[l]) && Pending(t.loops[l]) == Pending(s.loops[l])
    ensures AllAwait(t)
  {
    Lifecycle.QuietMap(s, t);
    forall k | 0 <= k < |t.loops|
      ensures ShapeOk(t.loops[k])
    {
      assert ShapeOk(s.loops[k]);
    }
    KeepAwaiting(s, t);
  }

  lemma CloseAwaits(s: Sys, l: nat)
    requires AllAwait(s) && InHandler(s, l) && Known(s, Current(s, l))
    ensures AllAwait(HandleClose(s, l))
  {
    var c := Current(s, l);
    var s1 := MarkClosed(s, l);
    assert ShapeOk(s.loops[l]);
    assert Pending(s1.loops[l]) == Pending(s.loops[l]);
    MovesAwait(s, s1, l);
    DownAwaits(s1, c);
    var s2 := UpdateRec(s1, c, Down(s1.recs[c], 1));
    if l == 0 {
      EraseRestores(s2, c);
    } else {
      PushRemoveRestores(s2, c);
    }
  }

  /** With its functor taken out of the vector, and still to be run. */
  lemma PoppedAwaits(s: Sys, l: nat)
    requires AllAwait(s) && CanRun(s, l)
    ensures if l == 0 && TaskOf(s, l).Remove? then AwaitBut(Popped(s, l), TaskOf(s, l).conn)
            else AllAwait(Popped(s, l))
  {
    var t := Popped(s, l);
    Lifecycle.QuietMap(s, t);
    PopPending(s.loops[l]);
    forall k | 0 <= k < |t.loops|
      ensures ShapeOk(t.loops[k])
    {
      assert ShapeOk(s.loops[k]);
    }
    forall d | d in s.recs && !(l == 0 && TaskOf(s, l) == Remove(d))
      ensures Awaits(t, d)
    {
      assert Awaits(s, d);
      PopHeld(s, l, d);
    }
  }

  lemma RunAwaits(s: Sys, l: nat)
    requires AllAwait(s) && CanRun(s, l) && Known(s, TaskOf(s, l).conn)
    ensures AllAwait(RunFunctor(s, l))
  {
    var c := TaskOf(s, l).conn;
    var s1 := Popped(s, l);
    PoppedAwaits(s, l);
    match TaskOf(s, l)
    case Establish(_) => UpdateAwaits(s1, c, Established(s1.recs[c]));
    case Destroy(_) => DestroyAwaits(s1, c);
    case Remove(_) => EraseRestores(s1, c);
  }

  lemma NewAwaits(s: Sys, fd: int, l: nat)
    requires AllAwait(s) && l < |s.loops| && s.nextId + 1 < ID_LIMIT
    ensures AllAwait(NewConnection(s, fd, l))
  {
    var s1 := Created(s, fd, l);
    Lifecycle.CreatedMap(s, fd, l);
    forall c | c in s.recs
      ensures InMap(s1, c) ==> InMap(s, c)
    {
      if Name(s, c) == Name(s, s.nextId) {
        NamesDistinct(s.server, s.ipPort, c, s.nextId);
      }
    }
    KeepAwaiting(s, s1);
    UpdateAwaits(s1, s.nextId, Established(s1.recs[s.nextId]));
    PushAwaits(s1, l, Establish(s.nextId));
  }

  lemma DestroyOneAwaits(s: Sys, c: ConnId)
    requires AllAwait(s) && Known(s, c)
    ensures AllAwait(DestroyOne(s, c))
  {
    EraseAwaits(s, c);
    DestroyAwaits(Erased(s, c), c);
    PushAwaits(Erased(s, c), s.recs[c].loop, Destroy(c));
  }

  lemma LoopAwaits(s: Sys, step: Step)
    requires AllAwait(s) && Lifecycle.MovesOn(step) && Enabled(s, step)
    ensures AllAwait(Next(s, step))
  {
    var l := if step.StopBase? then 0 else step.l;
    var t := Next(s, step);
    assert ShapeOk(s.loops[l]);
    assert ShapeOk(t.loops[l]) && Pending(t.loops[l]) == Pending(s.loops[l]);
    MovesAwait(s, t, l);
  }

  lemma RecAwaits(s: Sys, step: Step)
    requires AllAwait(s) && Enabled(s, step) && (step.ChangeMask? || step.LateSend? || step.StartShutdown?)
    ensures AllAwait(Next(s, step))
  {
    match step
    case ChangeMask(_, c, events) => UpdateAwaits(s, c, s.recs[c].(events := events));
    case LateSend(_, c) => UpdateAwaits(s, c, s.recs[c].(events := s.recs[c].events.Or(WRITE_EVENT)));
    case StartShutdown(_) => QuietAwaits(s, Next(s, step));
  }

  lemma StepAwaits(s: Sys, step: Step)
    requires AllAwait(s) && Enabled(s, step)
    ensures AllAwait(Next(s, step))
  {
    if Lifecycle.MovesOn(step) {
      LoopAwaits(s, step);
    } else if step.ChangeMask? || step.LateSend? || step.StartShutdown? {
      RecAwaits(s, step);
    } else if step.Accept? {
      NewAwaits(s, step.fd, step.l);
    } else if step.Close? {
      CloseAwaits(s, step.l);
    } else if step.RunTask? {
      RunAwaits(s, step.l);
    } else if step.DestroyItem? {
      DestroyOneAwaits(s, step.c);
    } else {
      KeepAwaiting(s, Next(s, step));
    }
  }

  lemma {:induction false} RunAllAwait(s: Sys, steps: seq<Step>)
    requires AllAwait(s) && EnabledRun(s, steps)
    ensures AllAwait(Run(s, steps))
    decreases |steps|
  {
    if steps != [] {
      StepAwaits(s, steps[0]);
      RunAllAwait(Next(s, steps[0]), steps[1..]);
    }
  }

  /** In every state of every run, also of runs with late sends: a closed connection that is still in
      the server's map has its removal queued on the base loop. */
  lemma ClosedIsSentOn(server: string, ipPort: string, threads: nat, steps: seq<Step>, c: ConnId)
    requires |ipPort| <= 21 && EnabledRun(Initial(server, ipPort, threads), steps)
    ensures var s := Run(Initial(server, ipPort, threads), steps);
            |s.loops| > 0 && (c in s.recs && s.recs[c].closes > 0 && InMap(s, c) ==> Remove(c) in Pending(s.loops[0]))
  {
    InitialInv(server, ipPort, threads);
    RunAllAwait(Initial(server, ipPort, threads), steps);
    var s := Run(Initial(server, ipPort, threads), steps);
    assert c in s.recs ==> Awaits(s, c);
  }

  /** And one that is not in the map any more has its connectDestroyed queued on its own loop, or run:
      its Filed is New again. */
  lemma ClosedIsDestroyed(server: string, ipPort: string, threads: nat, steps: seq<Step>, c: ConnId)
    requires |ipPort| <= 21 && EnabledRun(Initial(server, ipPort, threads), steps) && NoLateSends(steps)
    ensures var s := Run(Initial(server, ipPort, threads), steps);
            c in s.recs && s.recs[c].state.Disconnected? && !InMap(s, c) ==>
              s.recs[c].index.New? || (Known(s, c) && Destroy(c) in Pending(s.loops[s.recs[c].loop]))
  {
    InitialInv(server, ipPort, threads);
    RunInv(Initial(server, ipPort, threads), steps);
    var s := Run(Initial(server, ipPort, threads), steps);
    if c in s.recs && s.recs[c].state.Disconnected? && !InMap(s, c) && !s.recs[c].index.New? {
      assert LifeShape(Life(s, c), InMap(s, c), s.recs[c]);
      ProjInside(Pending(s.loops[s.recs[c].loop]), c);
    }
  }

  lemma {:induction false} ProjInside(tasks: seq<Task>, c: ConnId)
    ensures forall i :: 0 <= i < |Proj(tasks, c)| ==> Proj(tasks, c)[i] in tasks
  {
    if tasks != [] {
      ProjInside(tasks[1..], c);
    }
  }
}
