/** Every step of module Ownership keeps the invariant; so every run does. */
module OwnershipSteps {
  import opened Registration
  import opened ConnectionNames
  import ConnectionModel
  import opened Ownership
  import opened OwnershipInvariant

  /* ---------- Runs ---------- */

  lemma {:induction false} RunSplit(s: Sys, a: seq<Step>, b: seq<Step>)
    requires EnabledRun(s, a) && EnabledRun(Run(s, a), b)
    ensures EnabledRun(s, a + b) && Run(s, a + b) == Run(Run(s, a), b)
    decreases |a|
  {
    if a == [] {
      assert a + b == b;
    } else {
      assert (a + b)[1..] == a[1..] + b;
      RunSplit(Next(s, a[0]), a[1..], b);
    }
  }

  lemma RunOne(s: Sys, step: Step)
    requires Enabled(s, step)
    ensures EnabledRun(s, [step]) && Run(s, [step]) == Next(s, step)
  {
    assert [step][1..] == [];
    assert EnabledRun(Next(s, step), []);
  }

  /* ---------- Effects on who holds what, and on what is still to run ---------- */

  /** Nothing changes but tables and records, and no record moves. */
  ghost predicate Quiet(s: Sys, t: Sys) {
    && |t.loops| == |s.loops| && t.recs.Keys == s.recs.Keys
    && t == s.(loops := t.loops, recs := t.recs)
    && (forall l :: 0 <= l < |s.loops| ==>
          t.loops[l] == s.loops[l].(fileds := t.loops[l].fileds, kernel := t.loops[l].kernel))
    && (forall c :: c in s.recs ==> t.recs[c].loop == s.recs[c].loop && t.recs[c].fd == s.recs[c].fd)
  }

  lemma QuietHeld(s: Sys, t: Sys, c: ConnId)
    requires Quiet(s, t)
    ensures Held(t, c) <==> Held(s, c)
    ensures InMap(t, c) <==> InMap(s, c)
  {
    assert forall l :: 0 <= l < |s.loops| ==> (HeldBy(t.loops[l], c) <==> HeldBy(s.loops[l], c));
  }

  lemma QuietFds(s: Sys, t: Sys)
    requires Quiet(s, t) && FdsOk(s)
    ensures FdsOk(t)
  {
    forall c, d | c in t.recs && d in t.recs && c != d && Held(t, c) && Held(t, d)
      ensures t.recs[c].fd != t.recs[d].fd
    {
      QuietHeld(s, t, c);
      QuietHeld(s, t, d);
    }
  }

  lemma QuietLife(s: Sys, t: Sys, c: ConnId)
    requires Quiet(s, t) && Known(s, c)
    ensures Known(t, c) && Life(t, c) == Life(s, c)
  {
    var l := s.recs[c].loop;
    assert Pending(t.loops[l]) == Pending(s.loops[l]);
  }

  /** Only one record changes, and it keeps a lawful life. */
  lemma QuietLives(s: Sys, t: Sys, c: ConnId)
    requires Quiet(s, t) && LivesOk(s) && c in s.recs && t.recs == s.recs[c := t.recs[c]]
    requires LifeShape(Life(s, c), InMap(s, c), t.recs[c])
    ensures LivesOk(t)
  {
    forall d | d in t.recs
      ensures Known(t, d) && LifeShape(Life(t, d), InMap(t, d), t.recs[d])
    {
      QuietLife(s, t, d);
      QuietHeld(s, t, d);
    }
  }

  lemma UpdateQuiet(s: Sys, c: ConnId, r: Rec)
    requires Known(s, c) && SameSeat(s.recs[c], r)
    ensures var t := UpdateRec(s, c, r);
            && Quiet(s, t)
            && t.recs == s.recs[c := r.(index := t.recs[c].index)] && !t.recs[c].index.New?
  {
    UpdateFrame(SetRec(s, c, r), c);
  }

  lemma UpdateRecCore(s: Sys, c: ConnId, r: Rec)
    requires Core(s) && Known(s, c) && SameSeat(s.recs[c], r) && Alone(s, c)
    ensures Core(UpdateRec(s, c, r))
  {
    SetRecCore(s, c, r);
    UpdateCore(SetRec(s, c, r), c);
  }

  /** Changing the record of a registered connection and updating its Filed. */
  lemma UpdateInv(s: Sys, c: ConnId, r: Rec)
    requires Inv(s) && c in s.recs && SameSeat(s.recs[c], r) && Held(s, c)
    requires !s.recs[c].index.New? && !r.state.Connecting?
    ensures Inv(UpdateRec(s, c, r))
  {
    var t := UpdateRec(s, c, r);
    AloneAtFd(s, c);
    UpdateRecCore(s, c, r);
    UpdateQuiet(s, c, r);
    QuietFds(s, t);
    QuietLives(s, t, c);
  }

  lemma PushHeld(s: Sys, l: nat, task: Task, c: ConnId)
    requires l < |s.loops|
    ensures Held(Push(s, l, task), c) <==> Held(s, c) || c == task.conn
    ensures InMap(Push(s, l, task), c) <==> InMap(s, c)
  {
    var t := Push(s, l, task);
    MentionsPush(s.loops[l].queue, task, c);
    if Held(s, c) || c == task.conn {
      if exists k :: 0 <= k < |s.loops| && HeldBy(s.loops[k], c) {
        var k :| 0 <= k < |s.loops| && HeldBy(s.loops[k], c);
        assert HeldBy(t.loops[k], c);
      }
      assert c == task.conn ==> HeldBy(t.loops[l], c);
    }
    if Held(t, c) && !InMap(s, c) && c !in s.pinned {
      var k :| 0 <= k < |t.loops| && HeldBy(t.loops[k], c);
      assert HeldBy(s.loops[k], c) || c == task.conn;
    }
  }

  lemma PushLife(s: Sys, l: nat, task: Task, c: ConnId)
    requires l < |s.loops| && Known(s, c) && TaskOk(s, l, task)
    ensures Life(Push(s, l, task), c)
         == if task.conn == c && !task.Remove? then Life(s, c) + [task] else Life(s, c)
  {
    var loop := s.loops[l];
    var head := Pending(loop)[..|Pending(loop)| - |loop.queue|];
    assert Pending(Push(s, l, task).loops[l]) == Pending(loop) + [task];
    ProjPush(Pending(loop), task, c);
  }

  /** The holders may only have become fewer. */
  lemma FewerHoldersFds(s: Sys, t: Sys)
    requires FdsOk(s) && t.recs.Keys == s.recs.Keys
    requires forall c :: c in s.recs ==> t.recs[c].fd == s.recs[c].fd
    requires forall c :: c in s.recs && Held(t, c) ==> Held(s, c)
    ensures FdsOk(t)
  {
  }

  lemma PushRemoveInv(s: Sys, c: ConnId)
    requires Inv(s) && c in s.recs && Held(s, c)
    ensures Inv(Push(s, 0, Remove(c)))
  {
    var t := Push(s, 0, Remove(c));
    PushCore(s, 0, Remove(c));
    forall d | d in t.recs
      ensures Known(t, d) && LifeShape(Life(t, d), InMap(t, d), t.recs[d])
      ensures Held(t, d) ==> Held(s, d)
    {
      PushLife(s, 0, Remove(c), d);
      PushHeld(s, 0, Remove(c), d);
    }
    FewerHoldersFds(s, t);
  }

  /** Taking a connection out of the server's map touches no other entry. */
  lemma EraseInMap(s: Sys, c: ConnId, d: ConnId)
    requires MapOk(s) && c in s.recs && d in s.recs
    ensures var t := Erased(s, c);
            && (InMap(t, d) <==> InMap(s, d) && d != c)
            && (Held(t, d) ==> Held(s, d))
            && (d != c ==> (Held(t, d) <==> Held(s, d)))
  {
    var t := Erased(s, c);
    if d != c && Name(s, d) == Name(s, c) {
      NamesDistinct(s.server, s.ipPort, c, d);
    }
    assert forall l :: 0 <= l < |s.loops| ==> (HeldBy(t.loops[l], d) <==> HeldBy(s.loops[l], d));
  }

  lemma EraseCore(s: Sys, c: ConnId)
    requires Core(s) && c in s.recs
    ensures Core(Erased(s, c))
  {
    var t := Erased(s, c);
    forall l | 0 <= l < |t.loops|
      ensures LoopOk(t, l) && BatchOk(t, l)
    {
      assert LoopOk(s, l) && BatchOk(s, l);
    }
    TablesFrame(s, t);
  }

  /** Erasing a connection from the map while queueing its connectDestroyed. */
  lemma EraseAndPushInv(s: Sys, c: ConnId)
    requires Inv(s) && c in s.recs && Held(s, c)
    ensures Inv(RemoveInLoop(s, c))
  {
    var s1 := Erased(s, c);
    var l := s.recs[c].loop;
    var t := RemoveInLoop(s, c);
    EraseCore(s, c);
    PushCore(s1, l, Destroy(c));
    forall d | d in t.recs
      ensures Known(t, d) && LifeShape(Life(t, d), InMap(t, d), t.recs[d])
      ensures Held(t, d) ==> Held(s, d)
    {
      EraseInMap(s, c, d);
      assert Life(s1, d) == Life(s, d);
      PushLife(s1, l, Destroy(c), d);
      PushHeld(s1, l, Destroy(c), d);
    }
    FewerHoldersFds(s, t);
  }

  /* ---------- Steps that only move a loop's thread ---------- */

  /** The loop's thread moves on; everything queued stays queued. */
  ghost predicate Moves(s: Sys, t: Sys, l: nat) {
    && l < |s.loops| && |t.loops| == |s.loops|
    && t == s.(loops := s.loops[l := t.loops[l]])
    && t.loops[l].fileds == s.loops[l].fileds && t.loops[l].kernel == s.loops[l].kernel
  }

  lemma MovesCore(s: Sys, t: Sys, l: nat)
    requires Core(s) && Moves(s, t, l) && LoopOk(t, l) && BatchOk(t, l)
    ensures Core(t)
  {
    forall k | 0 <= k < |t.loops|
      ensures LoopOk(t, k) && BatchOk(t, k)
    {
      assert LoopOk(s, k) && BatchOk(s, k);
    }
    TablesFrame(s, t);
  }

  lemma MovesHeld(s: Sys, t: Sys, l: nat, c: ConnId)
    requires Moves(s, t, l) && (HeldBy(t.loops[l], c) ==> Held(s, c))
    ensures (Held(t, c) ==> Held(s, c)) && (InMap(t, c) <==> InMap(s, c))
  {
    if Held(t, c) && !InMap(t, c) && c !in t.pinned {
      var k :| 0 <= k < |t.loops| && HeldBy(t.loops[k], c);
      assert k != l ==> HeldBy(s.loops[k], c);
    }
  }

  lemma MovesInv(s: Sys, t: Sys, l: nat)
    requires Inv(s) && Moves(s, t, l) && LoopOk(t, l) && BatchOk(t, l)
    requires Pending(t.loops[l]) == Pending(s.loops[l])
    requires forall c :: c in s.recs && HeldBy(t.loops[l], c) ==> Held(s, c)
    ensures Inv(t)
  {
    MovesCore(s, t, l);
    forall c | c in t.recs
      ensures Known(t, c) && LifeShape(Life(t, c), InMap(t, c), t.recs[c])
      ensures Held(t, c) ==> Held(s, c)
    {
      MovesHeld(s, t, l, c);
      MovesLife(s, t, l, c);
    }
    FewerHoldersFds(s, t);
  }

  lemma MovesLife(s: Sys, t: Sys, l: nat, c: ConnId)
    requires Moves(s, t, l) && Known(s, c) && Pending(t.loops[l]) == Pending(s.loops[l])
    ensures Known(t, c) && Life(t, c) == Life(s, c)
  {
  }

  lemma PollInv(s: Sys, step: Step)
    requires Inv(s) && step.PollReturns? && Enabled(s, step)
    ensures Inv(Next(s, step))
  {
    var t := Next(s, step);
    assert LoopOk(s, step.l);
    forall i | 0 <= i < |step.batch|
      ensures var c := step.batch[i]; c in s.recs && s.recs[c].loop == step.l && !s.recs[c].index.New?
    {
      var c := step.batch[i];
      assert InKernel(s, step.l, s.recs[c].fd, s.loops[step.l].kernel[s.recs[c].fd]);
    }
    assert forall c :: HeldBy(t.loops[step.l], c) ==> HeldBy(s.loops[step.l], c);
    MovesInv(s, t, step.l);
  }

  lemma BeginInv(s: Sys, step: Step)
    requires Inv(s) && step.BeginHandle? && Enabled(s, step)
    ensures Inv(Next(s, step))
  {
    var l, t := step.l, Next(s, step);
    assert LoopOk(s, l) && BatchOk(s, l);
    BeginHolds(s, l, t.loops[l]);
    assert BatchOk(t, l);
    MovesInv(s, t, l);
  }

  /** The guard holds a connection that is held already. */
  lemma BeginHolds(s: Sys, l: nat, loop: Loop)
    requires Inv(s) && l < |s.loops| && s.loops[l].phase.Dispatching? && s.loops[l].phase.at < |s.loops[l].phase.batch|
    requires loop == s.loops[l].(phase := s.loops[l].phase.(inHandler := true, closed := 0))
    ensures forall c :: HeldBy(loop, c) ==> Held(s, c)
  {
    var b := s.loops[l].phase.batch[s.loops[l].phase.at];
    assert BatchOk(s, l);
    RegisteredIsHeld(s, b);
    assert forall c :: HeldBy(loop, c) ==> HeldBy(s.loops[l], c) || c == b;
  }

  lemma EndInv(s: Sys, step: Step)
    requires Inv(s) && step.EndHandle? && Enabled(s, step)
    ensures Inv(Next(s, step))
  {
    var t := Next(s, step);
    assert LoopOk(s, step.l) && BatchOk(s, step.l);
    assert forall c :: HeldBy(t.loops[step.l], c) ==> HeldBy(s.loops[step.l], c);
    MovesInv(s, t, step.l);
  }

  lemma SwapInv(s: Sys, l: nat)
    requires Inv(s) && l < |s.loops| && s.loops[l].phase.Dispatching?
    ensures Inv(SwapFunctors(s, l))
  {
    var t := SwapFunctors(s, l);
    assert LoopOk(s, l);
    assert Pending(t.loops[l]) == Pending(s.loops[l]);
    assert forall c :: HeldBy(t.loops[l], c) ==> HeldBy(s.loops[l], c);
    MovesInv(s, t, l);
  }

  lemma DropInv(s: Sys, l: nat)
    requires Inv(s) && l < |s.loops| && s.loops[l].phase.Draining? && s.loops[l].phase.done >= |s.loops[l].local|
    ensures Inv(DropFunctors(s, l))
  {
    var t := DropFunctors(s, l);
    assert LoopOk(s, l);
    assert Pending(t.loops[l]) == Pending(s.loops[l]);
    assert forall c :: HeldBy(t.loops[l], c) ==> HeldBy(s.loops[l], c);
    MovesInv(s, t, l);
  }

  lemma StopInv(s: Sys, step: Step)
    requires Inv(s) && step.StopBase? && Enabled(s, step)
    ensures Inv(Next(s, step))
  {
    var t := Next(s, step);
    assert LoopOk(s, 0) && BatchOk(s, 0);
    assert Pending(t.loops[0]) == Pending(s.loops[0]);
    assert forall c :: HeldBy(t.loops[0], c) ==> HeldBy(s.loops[0], c);
    MovesInv(s, t, 0);
  }

  lemma PinHeld(s: Sys, pinned: set<ConnId>, c: ConnId)
    ensures var t := s.(pinned := pinned);
            && (InMap(t, c) <==> InMap(s, c))
            && (Held(t, c) ==> Held(s, c) || c in pinned)
  {
    var t := s.(pinned := pinned);
    assert forall l :: 0 <= l < |s.loops| ==> (HeldBy(t.loops[l], c) <==> HeldBy(s.loops[l], c));
  }

  lemma PinCore(s: Sys, pinned: set<ConnId>)
    requires Core(s) && forall c :: c in pinned ==> c in s.recs
    ensures Core(s.(pinned := pinned))
  {
    var t := s.(pinned := pinned);
    forall l | 0 <= l < |t.loops|
      ensures LoopOk(t, l) && BatchOk(t, l)
    {
      assert LoopOk(s, l) && BatchOk(s, l);
    }
    TablesFrame(s, t);
  }

  lemma PinInv(s: Sys, pinned: set<ConnId>)
    requires Inv(s) && forall c :: c in pinned ==> c in s.recs && Held(s, c)
    ensures Inv(s.(pinned := pinned))
  {
    var t := s.(pinned := pinned);
    PinCore(s, pinned);
    forall c | c in t.recs
      ensures Known(t, c) && LifeShape(Life(t, c), InMap(t, c), t.recs[c])
      ensures Held(t, c) ==> Held(s, c)
    {
      assert Life(t, c) == Life(s, c);
      PinHeld(s, pinned, c);
    }
    FewerHoldersFds(s, t);
  }

  /* ---------- Steps that change a connection ---------- */

  lemma ShutdownInv(s: Sys, step: Step)
    requires Inv(s) && step.StartShutdown? && Enabled(s, step)
    ensures Inv(Next(s, step))
  {
    var c := step.c;
    var t := Next(s, step);
    assert LifeShape(Life(s, c), InMap(s, c), s.recs[c]);
    SetRecCore(s, c, t.recs[c]);
    assert Quiet(s, t);
    QuietFds(s, t);
    QuietLives(s, t, c);
  }

  /** handleClose, from the guard on. */
  lemma DownInv(s: Sys, c: ConnId)
    requires Inv(s) && c in s.recs && Held(s, c) && !s.recs[c].index.New?
    ensures var t := UpdateRec(s, c, Down(s.recs[c], 1));
            Inv(t) && Held(t, c) && c in t.recs
  {
    var r := Down(s.recs[c], 1);
    UpdateInv(s, c, r);
    UpdateQuiet(s, c, r);
    QuietHeld(s, UpdateRec(s, c, r), c);
  }

  lemma MarkClosedInv(s: Sys, l: nat)
    requires Inv(s) && InHandler(s, l)
    ensures var c := Current(s, l);
            var t := MarkClosed(s, l);
            Inv(t) && c in t.recs && Held(t, c) && !t.recs[c].index.New?
  {
    var t := MarkClosed(s, l);
    assert LoopOk(s, l) && BatchOk(s, l);
    MarkedLoop(s, l);
    MovesInv(s, t, l);
    assert HeldBy(t.loops[l], Current(s, l));
  }

  lemma MarkedLoop(s: Sys, l: nat)
    requires InHandler(s, l)
    ensures var t := MarkClosed(s, l);
            && Moves(s, t, l) && Pending(t.loops[l]) == Pending(s.loops[l])
            && forall d :: HeldBy(t.loops[l], d) <==> HeldBy(s.loops[l], d)
  {
  }

  lemma CloseInv(s: Sys, l: nat)
    requires Inv(s) && InHandler(s, l) && Known(s, Current(s, l))
    ensures Inv(HandleClose(s, l))
  {
    var c := Current(s, l);
    var s1 := MarkClosed(s, l);
    MarkClosedInv(s, l);
    DownInv(s1, c);
    var s2 := UpdateRec(s1, c, Down(s1.recs[c], 1));
    if l == 0 {
      EraseAndPushInv(s2, c);
    } else {
      PushRemoveInv(s2, c);
    }
  }

  /* ---------- Running a functor ---------- */

  lemma PopCore(s: Sys, l: nat)
    requires Core(s) && CanRun(s, l)
    ensures Core(Popped(s, l)) && TaskOf(s, l).conn in s.recs && Held(s, TaskOf(s, l).conn)
    ensures !TaskOf(s, l).Remove? ==> s.recs[TaskOf(s, l).conn].loop == l
  {
    var task := TaskOf(s, l);
    assert LoopOk(s, l) && TaskOk(s, l, task);
    assert LoopOk(Popped(s, l), l);
    MovesCore(s, Popped(s, l), l);
    assert Mentions(s.loops[l].local, task.conn);
    assert HeldBy(s.loops[l], task.conn);
  }

  lemma PopHeld(s: Sys, l: nat, c: ConnId)
    requires CanRun(s, l)
    ensures var t := Popped(s, l);
            (Held(t, c) <==> Held(s, c)) && (InMap(t, c) <==> InMap(s, c))
  {
    var t := Popped(s, l);
    assert forall k :: 0 <= k < |s.loops| ==> (HeldBy(t.loops[k], c) <==> HeldBy(s.loops[k], c));
  }

  lemma PopLife(s: Sys, l: nat, c: ConnId)
    requires CanRun(s, l) && Known(s, c)
    requires !TaskOf(s, l).Remove? && c == TaskOf(s, l).conn ==> s.recs[c].loop == l
    ensures var t := Popped(s, l);
            Known(t, c) &&
            Life(s, c) == if c == TaskOf(s, l).conn && !TaskOf(s, l).Remove?
                          then [TaskOf(s, l)] + Life(t, c) else Life(t, c)
  {
    if s.recs[c].loop == l {
      PopPending(s.loops[l]);
      ProjHead(TaskOf(s, l), Pending(Popped(s, l).loops[l]), c);
    }
  }

  lemma PopPending(loop: Loop)
    requires loop.phase.Draining? && loop.phase.done < |loop.local|
    ensures Pending(loop) == [loop.local[loop.phase.done]] + Pending(loop.(phase := Draining(loop.phase.done + 1)))
  {
    var done := loop.phase.done;
    assert loop.local[done..] == [loop.local[done]] + loop.local[done + 1..];
  }

  lemma ProjHead(task: Task, rest: seq<Task>, c: ConnId)
    ensures Proj([task] + rest, c) == if task.conn == c && !task.Remove? then [task] + Proj(rest, c) else Proj(rest, c)
  {
    assert ([task] + rest)[1..] == rest;
  }

  /** What the popped state still has of the invariant: all but the popped connection's life. */
  lemma PopEffects(s: Sys, l: nat)
    requires Inv(s) && CanRun(s, l)
    ensures var t := Popped(s, l);
            var c := TaskOf(s, l).conn;
            && Core(t) && FdsOk(t) && c in s.recs && Alone(t, c) && Held(t, c) && LivesBut(t, c)
            && (TaskOf(s, l).Remove? ==> LivesOk(t))
  {
    var t := Popped(s, l);
    var c := TaskOf(s, l).conn;
    PopCore(s, l);
    AloneAtFd(s, c);
    forall d | d in s.recs
      ensures Known(t, d) && (Held(t, d) <==> Held(s, d))
      ensures d != c || TaskOf(s, l).Remove? ==> LifeShape(Life(t, d), InMap(t, d), t.recs[d])
    {
      PopHeld(s, l, d);
      PopLife(s, l, d);
    }
    FewerHoldersFds(s, t);
  }

  ghost predicate LivesBut(s: Sys, c: ConnId) {
    forall d :: d in s.recs && d != c ==> Known(s, d) && LifeShape(Life(s, d), InMap(s, d), s.recs[d])
  }

  /** The popped connection's life before and after. */
  lemma PopShape(s: Sys, l: nat)
    requires Inv(s) && CanRun(s, l) && !TaskOf(s, l).Remove?
    ensures var t := Popped(s, l);
            var c := TaskOf(s, l).conn;
            && Known(t, c) && s.recs[c].loop == l
            && (forall i :: 0 <= i < |Life(t, c)| ==> Life(t, c)[i].Destroy?)
            && (s.recs[c].state.Connecting? <==> TaskOf(s, l).Establish?)
            && (TaskOf(s, l).Establish? ==> InMap(t, c) || Life(t, c) != [])
  {
    var t := Popped(s, l);
    var c := TaskOf(s, l).conn;
    PopCore(s, l);
    PopLife(s, l, c);
    PopHeld(s, l, c);
    TailShape(Life(s, c), Life(t, c), TaskOf(s, l), InMap(s, c), s.recs[c]);
  }

  lemma TailShape(life: seq<Task>, tail: seq<Task>, task: Task, inMap: bool, r: Rec)
    requires LifeShape(life, inMap, r) && life == [task] + tail && !task.Remove?
    ensures forall i :: 0 <= i < |tail| ==> tail[i].Destroy?
    ensures r.state.Connecting? <==> task.Establish?
    ensures task.Establish? ==> inMap || tail != []
  {
    assert forall i :: 0 <= i < |tail| ==> tail[i] == life[i + 1];
  }

  /** One quiet change to the one connection whose life was out of order. */
  lemma QuietRestores(s: Sys, t: Sys, c: ConnId)
    requires FdsOk(s) && LivesBut(s, c) && c in s.recs && Known(s, c)
    requires Quiet(s, t) && t.recs == s.recs[c := t.recs[c]] && Core(t)
    requires LifeShape(Life(s, c), InMap(s, c), t.recs[c])
    ensures Inv(t)
  {
    QuietFds(s, t);
    forall d | d in t.recs
      ensures Known(t, d) && LifeShape(Life(t, d), InMap(t, d), t.recs[d])
    {
      QuietLife(s, t, d);
      QuietHeld(s, t, d);
    }
  }

  lemma RunEstablishInv(s: Sys, l: nat)
    requires Inv(s) && CanRun(s, l) && TaskOf(s, l).Establish?
    ensures Known(Popped(s, l), TaskOf(s, l).conn)
    ensures Inv(EstablishConn(Popped(s, l), TaskOf(s, l).conn))
  {
    var c := TaskOf(s, l).conn;
    var s1 := Popped(s, l);
    PopEffects(s, l);
    PopShape(s, l);
    var r := Established(s1.recs[c]);
    UpdateRecCore(s1, c, r);
    UpdateQuiet(s1, c, r);
    QuietRestores(s1, UpdateRec(s1, c, r), c);
  }

  lemma DestroyQuiet(s: Sys, c: ConnId)
    requires Known(s, c)
    ensures var t := DestroyConn(s, c);
            && Quiet(s, t)
            && t.recs == s.recs[c := t.recs[c]] && t.recs[c].index.New?
            && (t.recs[c].state == if s.recs[c].state.Connected? then ConnectionModel.Disconnected else s.recs[c].state)
  {
    UpdateQuiet(s, c, Down(s.recs[c], 0));
  }

  lemma DestroyCore(s: Sys, c: ConnId)
    requires Core(s) && Known(s, c) && Alone(s, c) && !s.loops[s.recs[c].loop].phase.Dispatching?
    ensures Core(DestroyConn(s, c))
  {
    if s.recs[c].state.Connected? {
      var s1 := UpdateRec(s, c, Down(s.recs[c], 0));
      UpdateRecCore(s, c, Down(s.recs[c], 0));
      UpdateQuiet(s, c, Down(s.recs[c], 0));
      AloneFrame(s, s1, c);
      RemoveCore(s1, c);
    } else {
      RemoveCore(s, c);
    }
  }

  lemma AloneFrame(s: Sys, t: Sys, c: ConnId)
    requires Alone(s, c) && Quiet(s, t) && t.recs == s.recs[c := t.recs[c]]
    ensures Alone(t, c)
  {
  }

  lemma RunDestroyInv(s: Sys, l: nat)
    requires Inv(s) && CanRun(s, l) && TaskOf(s, l).Destroy?
    ensures Known(Popped(s, l), TaskOf(s, l).conn)
    ensures Inv(DestroyConn(Popped(s, l), TaskOf(s, l).conn))
  {
    var c := TaskOf(s, l).conn;
    var s1 := Popped(s, l);
    PopEffects(s, l);
    PopShape(s, l);
    DestroyCore(s1, c);
    DestroyQuiet(s1, c);
    QuietRestores(s1, DestroyConn(s1, c), c);
  }

  lemma RunTaskInv(s: Sys, l: nat)
    requires Inv(s) && CanRun(s, l) && Known(s, TaskOf(s, l).conn)
    ensures Inv(RunFunctor(s, l))
  {
    match TaskOf(s, l)
    case Establish(c) => RunEstablishInv(s, l);
    case Destroy(c) => RunDestroyInv(s, l);
    case Remove(c) =>
      PopEffects(s, l);
      EraseAndPushInv(Popped(s, l), c);
  }

  /* ---------- ~Server, and a new connection ---------- */

  /** ~Server, one item of the base loop: its connectDestroyed runs at once. */
  lemma DestroyHereInv(s: Sys, c: ConnId)
    requires Inv(s) && c in s.recs && Held(s, c) && !s.loops[s.recs[c].loop].phase.Dispatching?
    requires !s.recs[c].state.Connecting?
    ensures var s1 := Erased(s, c);
            Inv(DestroyConn(s1, c))
  {
    var s1 := Erased(s, c);
    EraseCore(s, c);
    AloneAtFd(s, c);
    DestroyCore(s1, c);
    DestroyQuiet(s1, c);
    forall d | d in s1.recs
      ensures Known(s1, d) && Life(s1, d) == Life(s, d) && (InMap(s1, d) <==> InMap(s, d) && d != c)
      ensures Held(s1, d) ==> Held(s, d)
    {
      EraseInMap(s, c, d);
    }
    FewerHoldersFds(s, s1);
    QuietRestores(s1, DestroyConn(s1, c), c);
  }

  lemma CreatedCore(s: Sys, fd: int, l: nat)
    requires Core(s) && l < |s.loops| && s.nextId + 1 < ID_LIMIT
    ensures Core(Created(s, fd, l))
  {
    var t := Created(s, fd, l);
    forall k | 0 <= k < |t.loops|
      ensures LoopOk(t, k) && BatchOk(t, k)
    {
      assert LoopOk(s, k) && BatchOk(s, k);
    }
    forall k, f | 0 <= k < |t.loops| && f in t.loops[k].fileds
      ensures InFileds(t, k, f, t.loops[k].fileds[f])
    {
      assert InFileds(s, k, f, s.loops[k].fileds[f]);
    }
    forall k, f | 0 <= k < |t.loops| && f in t.loops[k].kernel
      ensures InKernel(t, k, f, t.loops[k].kernel[f])
    {
      assert InKernel(s, k, f, s.loops[k].kernel[f]);
    }
    forall c | c in t.recs
      ensures RecOk(t, c)
    {
      assert c != s.nextId ==> RecOk(s, c);
    }
  }

  /** The new name is new, so no other connection's entry is touched. */
  lemma CreatedOthers(s: Sys, fd: int, l: nat, c: ConnId)
    requires Core(s) && l < |s.loops| && s.nextId + 1 < ID_LIMIT && c in s.recs
    ensures var t := Created(s, fd, l);
            && (InMap(t, c) <==> InMap(s, c)) && (Held(t, c) <==> Held(s, c))
            && Known(t, c) && Life(t, c) == Life(s, c) && t.recs[c] == s.recs[c]
            && Name(s, s.nextId) !in s.connections
  {
    var t := Created(s, fd, l);
    if Name(s, s.nextId) == Name(s, c) {
      NamesDistinct(s.server, s.ipPort, s.nextId, c);
    }
    if Name(s, s.nextId) in s.connections {
      NamesDistinct(s.server, s.ipPort, s.nextId, s.connections[Name(s, s.nextId)]);
    }
    assert forall k :: 0 <= k < |s.loops| ==> (HeldBy(t.loops[k], c) <==> HeldBy(s.loops[k], c));
  }

  lemma OnlyKnownHaveLives(s: Sys, l: nat, c: ConnId)
    requires Core(s) && l < |s.loops|
    ensures c in s.recs || Proj(Pending(s.loops[l]), c) == []
  {
    if Proj(Pending(s.loops[l]), c) != [] {
      assert LoopOk(s, l);
      var p := Pending(s.loops[l]);
      ProjNonEmpty(p, c);
      var i :| 0 <= i < |p| && p[i].conn == c;
      assert TaskOk(s, l, p[i]);
    }
  }

  lemma CreatedLives(s: Sys, fd: int, l: nat)
    requires Core(s) && LivesOk(s) && l < |s.loops| && s.nextId + 1 < ID_LIMIT
    ensures LivesBut(Created(s, fd, l), s.nextId)
  {
    var t := Created(s, fd, l);
    forall c | c in s.recs
      ensures Known(t, c) && LifeShape(Life(t, c), InMap(t, c), t.recs[c])
    {
      CreatedOthers(s, fd, l, c);
    }
  }

  lemma CreatedHeld(s: Sys, fd: int, l: nat)
    requires Core(s) && FdsOk(s) && l < |s.loops| && s.nextId + 1 < ID_LIMIT && FreeFd(s, fd)
    ensures FdsOk(Created(s, fd, l))
  {
    var t := Created(s, fd, l);
    forall c | c in s.recs
      ensures (Held(t, c) <==> Held(s, c)) && t.recs[c].fd == s.recs[c].fd
    {
      CreatedOthers(s, fd, l, c);
    }
    CreatedFds(s, t, s.nextId);
  }

  lemma CreatedParts(s: Sys, fd: int, l: nat)
    requires Inv(s) && l < |s.loops| && s.nextId + 1 < ID_LIMIT && FreeFd(s, fd)
    ensures var t := Created(s, fd, l);
            var c := s.nextId;
            && Core(t) && FdsOk(t) && LivesBut(t, c) && Known(t, c) && Life(t, c) == [] && InMap(t, c)
            && t.recs[c] == Rec(l, fd, ConnectionModel.Connecting, NONE_EVENT, New, 0, 0, 0)
  {
    CreatedCore(s, fd, l);
    CreatedHeld(s, fd, l);
    CreatedLives(s, fd, l);
    OnlyKnownHaveLives(s, l, s.nextId);
  }

  lemma CreatedFds(s: Sys, t: Sys, c: ConnId)
    requires FdsOk(s) && t.recs.Keys == s.recs.Keys + {c} && c !in s.recs && FreeFd(s, t.recs[c].fd)
    requires forall d :: d in s.recs ==> (Held(t, d) <==> Held(s, d)) && t.recs[d].fd == s.recs[d].fd
    ensures FdsOk(t)
  {
  }

  lemma NewConnectionInv(s: Sys, fd: int, l: nat)
    requires Inv(s) && l < |s.loops| && s.nextId + 1 < ID_LIMIT && FreeFd(s, fd)
    ensures Inv(NewConnection(s, fd, l))
  {
    var c := s.nextId;
    var s1 := Created(s, fd, l);
    CreatedParts(s, fd, l);
    if l == 0 {
      NewIsAlone(s, s1, c);
      var r := Established(s1.recs[c]);
      UpdateRecCore(s1, c, r);
      UpdateQuiet(s1, c, r);
      QuietRestores(s1, UpdateRec(s1, c, r), c);
    } else {
      PushRestores(s1, c);
    }
  }

  lemma NewIsAlone(s: Sys, t: Sys, c: ConnId)
    requires FdsOk(t) && LivesBut(t, c) && c in t.recs && InMap(t, c)
    ensures Alone(t, c)
  {
    forall d | d in t.recs && d != c && !t.recs[d].index.New?
      ensures t.recs[d].fd != t.recs[c].fd
    {
      if !InMap(t, d) {
        ProjNonEmpty(Pending(t.loops[t.recs[d].loop]), d);
        PendingMentions(t.loops[t.recs[d].loop], d);
      }
    }
  }

  lemma PushRestores(s: Sys, c: ConnId)
    requires Core(s) && FdsOk(s) && LivesBut(s, c) && Known(s, c) && Life(s, c) == [] && InMap(s, c)
    requires s.recs[c].state.Connecting? && s.recs[c].index.New? && s.recs[c].loop != 0
    ensures Inv(Push(s, s.recs[c].loop, Establish(c)))
  {
    var l := s.recs[c].loop;
    var t := Push(s, l, Establish(c));
    PushCore(s, l, Establish(c));
    forall d | d in t.recs
      ensures Known(t, d) && LifeShape(Life(t, d), InMap(t, d), t.recs[d])
      ensures Held(t, d) ==> Held(s, d)
    {
      PushLife(s, l, Establish(c), d);
      PushHeld(s, l, Establish(c), d);
    }
    FewerHoldersFds(s, t);
  }

  lemma DestroyOneInv(s: Sys, c: ConnId)
    requires Inv(s) && c in s.recs && InMap(s, c) && s.loops[0].phase.Stopped?
    ensures Inv(DestroyOne(s, c))
  {
    if s.recs[c].loop == 0 {
      DestroyHereInv(s, c);
    } else {
      EraseAndPushInv(s, c);
    }
  }

  /* ---------- Every step, every run ---------- */

  lemma StepInv(s: Sys, step: Step)
    requires Inv(s) && Enabled(s, step) && !step.LateSend?
    ensures Inv(Next(s, step))
  {
    match step
    case Accept(fd, l) => NewConnectionInv(s, fd, l);
    case PollReturns(_, _) => PollInv(s, step);
    case BeginHandle(_) => BeginInv(s, step);
    case ChangeMask(_, c, events) => UpdateInv(s, c, s.recs[c].(events := events));
    case StartShutdown(_) => ShutdownInv(s, step);
    case Close(l) => CloseInv(s, l);
    case EndHandle(_) => EndInv(s, step);
    case StartDrain(l) => SwapInv(s, l);
    case RunTask(l) => RunTaskInv(s, l);
    case EndDrain(l) => DropInv(s, l);
    case Pin(c) => PinInv(s, s.pinned + {c});
    case Unpin(c) => UnpinInv(s, c);
    case StopBase => StopInv(s, step);
    case DestroyItem(c) => DestroyOneInv(s, c);
  }

  lemma UnpinInv(s: Sys, c: ConnId)
    requires Inv(s)
    ensures Inv(s.(pinned := s.pinned - {c}))
  {
    PinnedAreHeld(s);
    PinInv(s, s.pinned - {c});
  }

  lemma PinnedAreHeld(s: Sys)
    requires MapOk(s)
    ensures forall c :: c in s.pinned ==> c in s.recs && Held(s, c)
  {
  }

  /** No queued send runs after connectDestroyed. */
  predicate NoLateSends(steps: seq<Step>) {
    forall i :: 0 <= i < |steps| ==> !steps[i].LateSend?
  }

  lemma {:induction false} RunInv(s: Sys, steps: seq<Step>)
    requires Inv(s) && EnabledRun(s, steps) && NoLateSends(steps)
    ensures Inv(Run(s, steps))
    decreases |steps|
  {
    if steps != [] {
      StepInv(s, steps[0]);
      RunInv(Next(s, steps[0]), steps[1..]);
    }
  }

  lemma InitialInv(server: string, ipPort: string, threads: nat)
    requires |ipPort| <= 21
    ensures Inv(Initial(server, ipPort, threads))
  {
  }
}
