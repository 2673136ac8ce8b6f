/** What every step of module Ownership keeps. */
module OwnershipInvariant {
  import opened Registration
  import opened ConnectionNames
  import opened Ownership

  /* ---------- The invariant ---------- */

  predicate ShapeOk(loop: Loop) {
    match loop.phase
    case Polling => loop.local == []
    case Stopped => loop.local == []
    case Dispatching(batch, at, inHandler, _) =>
      loop.local == [] && at <= |batch| && (inHandler ==> at < |batch|)
    case Draining(done) => done <= |loop.local|
  }

  predicate TaskOk(s: Sys, l: nat, task: Task) {
    Known(s, task.conn) && (!task.Remove? ==> s.recs[task.conn].loop == l)
  }

  predicate LoopOk(s: Sys, l: nat)
    requires l < |s.loops|
  {
    && ShapeOk(s.loops[l])
    && (forall i :: 0 <= i < |s.loops[l].queue| ==> TaskOk(s, l, s.loops[l].queue[i]))
    && (forall i :: 0 <= i < |s.loops[l].local| ==> TaskOk(s, l, s.loops[l].local[i]))
  }

  /** The server's map sends each name to the connection of that name. */
  predicate MapOk(s: Sys) {
    && |s.loops| > 0 && |s.ipPort| <= 21 && s.nextId < ID_LIMIT
    && (forall c :: c in s.recs ==> c < s.nextId && s.recs[c].loop < |s.loops|)
    && (forall n :: n in s.connections ==> s.connections[n] in s.recs && n == Name(s, s.connections[n]))
    && (forall c :: c in s.pinned ==> c in s.recs)
  }

  /** Each Epoller's map holds exactly the Fileds of its loop that are not New, and its kernel
      table exactly those that are Added, each at its own descriptor. */
  ghost predicate TablesOk(s: Sys) {
    && (forall l, fd :: 0 <= l < |s.loops| && fd in s.loops[l].fileds ==> InFileds(s, l, fd, s.loops[l].fileds[fd]))
    && (forall l, fd :: 0 <= l < |s.loops| && fd in s.loops[l].kernel ==> InKernel(s, l, fd, s.loops[l].kernel[fd]))
    && (forall c :: c in s.recs ==> RecOk(s, c))
  }

  predicate InFileds(s: Sys, l: nat, fd: int, c: ConnId) {
    c in s.recs && s.recs[c].loop == l && s.recs[c].fd == fd && !s.recs[c].index.New?
  }

  predicate InKernel(s: Sys, l: nat, fd: int, c: ConnId) {
    c in s.recs && s.recs[c].loop == l && s.recs[c].fd == fd && s.recs[c].index.Added?
  }

  predicate RecOk(s: Sys, c: ConnId)
    requires c in s.recs
  {
    var r := s.recs[c];
    && r.loop < |s.loops|
    && (!r.index.New? ==> r.fd in s.loops[r.loop].fileds && s.loops[r.loop].fileds[r.fd] == c)
    && (r.index.Added? ==> r.fd in s.loops[r.loop].kernel && s.loops[r.loop].kernel[r.fd] == c)
  }

  /** No entry still to be handled belongs to a Filed that has been removed. */
  predicate BatchOk(s: Sys, l: nat)
    requires l < |s.loops|
  {
    var p := s.loops[l].phase;
    p.Dispatching? ==>
      && (forall i :: p.at <= i < |p.batch| ==>
            p.batch[i] in s.recs && s.recs[p.batch[i]].loop == l && !s.recs[p.batch[i]].index.New?)
      && (forall i, j :: 0 <= i < j < |p.batch| ==> p.batch[i] != p.batch[j])
  }

  ghost predicate Core(s: Sys) {
    && MapOk(s) && TablesOk(s)
    && forall l :: 0 <= l < |s.loops| ==> LoopOk(s, l) && BatchOk(s, l)
  }

  /** The functors of a loop that have not run yet, in the order in which they will. */
  function Pending(loop: Loop): seq<Task> {
    (if loop.phase.Draining? && loop.phase.done <= |loop.local| then loop.local[loop.phase.done..] else [])
      + loop.queue
  }

  /** Of these, the connectEstablished and connectDestroyed of one connection. */
  function Proj(tasks: seq<Task>, c: ConnId): (r: seq<Task>)
    ensures forall i :: 0 <= i < |r| ==> r[i].conn == c && !r[i].Remove?
  {
    if tasks == [] then []
    else if tasks[0].conn == c && !tasks[0].Remove? then [tasks[0]] + Proj(tasks[1..], c)
    else Proj(tasks[1..], c)
  }

  function Life(s: Sys, c: ConnId): seq<Task>
    requires Known(s, c)
  {
    Proj(Pending(s.loops[s.recs[c].loop]), c)
  }

  /** connectEstablished comes first if it is still to come, which is exactly while the connection
      is Connecting, and never on the base loop; and a connection that is registered, or will be, is
      in the server's map or has its connectDestroyed queued behind. */
  predicate LifeShape(life: seq<Task>, inMap: bool, r: Rec) {
    && (forall i :: 1 <= i < |life| ==> life[i].Destroy?)
    && (r.state.Connecting? <==> life != [] && life[0].Establish?)
    && (r.state.Connecting? ==> r.loop != 0 && r.index.New? && (inMap || |life| >= 2))
    && (!r.index.New? ==> inMap || life != [])
  }

  ghost predicate LivesOk(s: Sys) {
    forall c :: c in s.recs ==> Known(s, c) && LifeShape(Life(s, c), InMap(s, c), s.recs[c])
  }

  /** Connections that are still held have distinct descriptors. */
  ghost predicate FdsOk(s: Sys) {
    forall c, d :: c in s.recs && d in s.recs && c != d && Held(s, c) && Held(s, d) ==> s.recs[c].fd != s.recs[d].fd
  }

  ghost predicate Inv(s: Sys) {
    Core(s) && LivesOk(s) && FdsOk(s)
  }

  /* ---------- Small facts ---------- */

  lemma MentionsPush(tasks: seq<Task>, task: Task, c: ConnId)
    ensures Mentions(tasks + [task], c) <==> Mentions(tasks, c) || task.conn == c
  {
    if Mentions(tasks, c) {
      var i :| 0 <= i < |tasks| && tasks[i].conn == c;
      assert (tasks + [task])[i].conn == c;
    }
    if task.conn == c {
      assert (tasks + [task])[|tasks|].conn == c;
    }
  }

  lemma {:induction false} ProjPush(tasks: seq<Task>, task: Task, c: ConnId)
    ensures Proj(tasks + [task], c)
         == if task.conn == c && !task.Remove? then Proj(tasks, c) + [task] else Proj(tasks, c)
  {
    if tasks == [] {
      assert tasks + [task] == [task];
      assert Proj([task][1..], c) == [];
    } else {
      assert (tasks + [task])[1..] == tasks[1..] + [task];
      ProjPush(tasks[1..], task, c);
    }
  }

  lemma {:induction false} ProjNonEmpty(tasks: seq<Task>, c: ConnId)
    requires Proj(tasks, c) != []
    ensures Mentions(tasks, c)
  {
    if tasks[0].conn != c || tasks[0].Remove? {
      ProjNonEmpty(tasks[1..], c);
      var i :| 0 <= i < |tasks[1..]| && tasks[1..][i].conn == c;
      assert tasks[i + 1].conn == c;
    }
  }

  lemma PendingMentions(loop: Loop, c: ConnId)
    requires Mentions(Pending(loop), c)
    ensures HeldBy(loop, c)
  {
    var p := Pending(loop);
    var i :| 0 <= i < |p| && p[i].conn == c;
    var k := |p| - |loop.queue|;
    if i < k {
      assert loop.local[loop.phase.done + i].conn == c;
    } else {
      assert loop.queue[i - k].conn == c;
    }
  }

  /** A registered Filed's connection is in the map or has a connectDestroyed still to run; either
      way it is held. */
  lemma RegisteredIsHeld(s: Sys, c: ConnId)
    requires LivesOk(s) && c in s.recs && !s.recs[c].index.New?
    ensures InMap(s, c) || (Life(s, c) != [] && Life(s, c)[0].Destroy?)
    ensures Held(s, c)
  {
    if !InMap(s, c) {
      ProjNonEmpty(Pending(s.loops[s.recs[c].loop]), c);
      PendingMentions(s.loops[s.recs[c].loop], c);
    }
  }

  /** So no other registered Filed has the descriptor of a held connection. */
  lemma AloneAtFd(s: Sys, c: ConnId)
    requires LivesOk(s) && FdsOk(s) && c in s.recs && Held(s, c)
    ensures Alone(s, c)
  {
    forall d | d in s.recs && d != c && !s.recs[d].index.New?
      ensures s.recs[d].fd != s.recs[c].fd
    {
      RegisteredIsHeld(s, d);
    }
  }

  ghost predicate Alone(s: Sys, c: ConnId) {
    c in s.recs && forall d :: d in s.recs && d != c && !s.recs[d].index.New? ==> s.recs[d].fd != s.recs[c].fd
  }

  /* ---------- The building blocks keep Core ---------- */

  lemma PushCore(s: Sys, l: nat, task: Task)
    requires Core(s) && l < |s.loops| && TaskOk(s, l, task)
    ensures Core(Push(s, l, task))
  {
    var t := Push(s, l, task);
    forall k | 0 <= k < |t.loops|
      ensures LoopOk(t, k) && BatchOk(t, k)
    {
      assert LoopOk(s, k) && BatchOk(s, k);
    }
    TablesFrame(s, t);
  }

  /** Changes that leave every table, index, descriptor and home loop alone leave TablesOk alone. */
  lemma TablesFrame(s: Sys, t: Sys)
    requires TablesOk(s) && |t.loops| == |s.loops| && t.recs.Keys == s.recs.Keys
    requires forall l :: 0 <= l < |s.loops| ==>
      t.loops[l].fileds == s.loops[l].fileds && t.loops[l].kernel == s.loops[l].kernel
    requires forall c :: c in s.recs ==> SameSeat(s.recs[c], t.recs[c])
    ensures TablesOk(t)
  {
    forall l, fd | 0 <= l < |t.loops| && fd in t.loops[l].fileds
      ensures InFileds(t, l, fd, t.loops[l].fileds[fd])
    {
      assert InFileds(s, l, fd, s.loops[l].fileds[fd]);
    }
    forall l, fd | 0 <= l < |t.loops| && fd in t.loops[l].kernel
      ensures InKernel(t, l, fd, t.loops[l].kernel[fd])
    {
      assert InKernel(s, l, fd, s.loops[l].kernel[fd]);
    }
    forall c | c in t.recs
      ensures RecOk(t, c)
    {
      assert RecOk(s, c);
    }
  }

  predicate SameSeat(r: Rec, q: Rec) {
    r.loop == q.loop && r.fd == q.fd && r.index == q.index
  }

  lemma SetRecCore(s: Sys, c: ConnId, r: Rec)
    requires Core(s) && c in s.recs && SameSeat(s.recs[c], r)
    ensures Core(SetRec(s, c, r))
  {
    var t := SetRec(s, c, r);
    assert t.recs.Keys == s.recs.Keys;
    forall k | 0 <= k < |t.loops|
      ensures LoopOk(t, k) && BatchOk(t, k)
    {
      assert LoopOk(s, k) && BatchOk(s, k);
    }
    TablesFrame(s, t);
  }

  /** What an update leaves alone. */
  lemma UpdateFrame(s: Sys, c: ConnId)
    requires Known(s, c)
    ensures var t := UpdateFiled(s, c);
            && |t.loops| == |s.loops| && t.recs.Keys == s.recs.Keys
            && t == s.(loops := t.loops, recs := t.recs)
            && t.recs == s.recs[c := s.recs[c].(index := t.recs[c].index)] && !t.recs[c].index.New?
            && (forall l :: 0 <= l < |s.loops| ==>
                  t.loops[l] == s.loops[l].(fileds := t.loops[l].fileds, kernel := t.loops[l].kernel))
  {
    assert s.recs == s.recs[c := s.recs[c]];
  }

  lemma UpdateCore(s: Sys, c: ConnId)
    requires Core(s) && Known(s, c) && Alone(s, c)
    ensures Core(UpdateFiled(s, c))
    ensures !UpdateFiled(s, c).recs[c].index.New?
  {
    UpdateFrame(s, c);
    UpdateTables(s, c);
    LoopsFrame(s, UpdateFiled(s, c), c);
  }

  /** Changes confined to the tables and to one record, which stays registered if it was. */
  lemma LoopsFrame(s: Sys, t: Sys, c: ConnId)
    requires Core(s) && |t.loops| == |s.loops| && t.recs.Keys == s.recs.Keys && c in s.recs
    requires t == s.(loops := t.loops, recs := t.recs)
    requires forall l :: 0 <= l < |s.loops| ==>
      t.loops[l] == s.loops[l].(fileds := t.loops[l].fileds, kernel := t.loops[l].kernel)
    requires forall d :: d in s.recs ==> t.recs[d].loop == s.recs[d].loop && (d != c ==> t.recs[d] == s.recs[d])
    requires !t.recs[c].index.New? || !s.loops[s.recs[c].loop].phase.Dispatching?
    ensures MapOk(t) && forall l :: 0 <= l < |t.loops| ==> LoopOk(t, l) && BatchOk(t, l)
  {
    forall l | 0 <= l < |t.loops|
      ensures LoopOk(t, l) && BatchOk(t, l)
    {
      assert LoopOk(s, l) && BatchOk(s, l);
    }
  }

  lemma UpdateTables(s: Sys, c: ConnId)
    requires TablesOk(s) && Known(s, c) && Alone(s, c)
    ensures TablesOk(UpdateFiled(s, c))
  {
    var t := UpdateFiled(s, c);
    var home := s.recs[c].loop;
    forall l, fd | 0 <= l < |t.loops| && fd in t.loops[l].fileds
      ensures InFileds(t, l, fd, t.loops[l].fileds[fd])
    {
      if l != home || fd != s.recs[c].fd {
        assert InFileds(s, l, fd, s.loops[l].fileds[fd]);
      } else {
        assert RecOk(s, c);
      }
    }
    forall l, fd | 0 <= l < |t.loops| && fd in t.loops[l].kernel
      ensures InKernel(t, l, fd, t.loops[l].kernel[fd])
    {
      if l != home || fd != s.recs[c].fd {
        assert InKernel(s, l, fd, s.loops[l].kernel[fd]);
      } else {
        assert RecOk(s, c);
      }
    }
    forall d | d in t.recs
      ensures RecOk(t, d)
    {
      assert RecOk(s, d);
    }
  }

  lemma RemoveTables(s: Sys, c: ConnId)
    requires TablesOk(s) && Known(s, c) && Alone(s, c)
    ensures TablesOk(RemoveFiled(s, c))
  {
    var t := RemoveFiled(s, c);
    var home := s.recs[c].loop;
    forall l, fd | 0 <= l < |t.loops| && fd in t.loops[l].fileds
      ensures InFileds(t, l, fd, t.loops[l].fileds[fd])
    {
      assert InFileds(s, l, fd, s.loops[l].fileds[fd]);
    }
    forall l, fd | 0 <= l < |t.loops| && fd in t.loops[l].kernel
      ensures InKernel(t, l, fd, t.loops[l].kernel[fd])
    {
      assert InKernel(s, l, fd, s.loops[l].kernel[fd]);
    }
    forall d | d in t.recs
      ensures RecOk(t, d)
    {
      assert RecOk(s, d);
    }
  }

  /** Removing a Filed is safe for the batches unless its own loop is dispatching. */
  lemma RemoveCore(s: Sys, c: ConnId)
    requires Core(s) && Known(s, c) && Alone(s, c) && !s.loops[s.recs[c].loop].phase.Dispatching?
    ensures Core(RemoveFiled(s, c))
  {
    var t := RemoveFiled(s, c);
    assert t.recs.Keys == s.recs.Keys;
    RemoveTables(s, c);
    LoopsFrame(s, t, c);
  }
}
