/** The whole server: one base loop and any number of sub-loops, each with its functor queue, its
    batch of active Fileds and its Epoller, and the connections that travel between them. Every step
    of every loop's thread interleaves with the others. Connections are identified by their id. */
module Ownership {
  import opened Registration
  import opened ConnectionNames
  import opened ConnectionModel

  type ConnId = nat

  /** The functors that carry a shared pointer to a connection. */
  datatype Task = Establish(conn: ConnId) | Destroy(conn: ConnId) | Remove(conn: ConnId)

  /** A Connection and its Filed. */
  datatype Rec = Rec(loop: nat, fd: int, state: State, events: Mask, index: Index,
                     ups: nat, downs: nat, closes: nat)

  /** Where a loop's thread is. Dispatching: `at` active Fileds of the batch are done; while
      `inHandler`, handleEvent of the next one runs (and has run handleClose `closed` times).
      Draining: `done` functors of the swapped-out vector have run. */
  datatype Phase =
    | Polling
    | Dispatching(batch: seq<ConnId>, at: nat, inHandler: bool, closed: nat)
    | Draining(done: nat)
    | Stopped

  /** `local` is doPendFunc's vector, which keeps every functor alive until it returns. */
  datatype Loop = Loop(queue: seq<Task>, local: seq<Task>, phase: Phase,
                       fileds: map<int, ConnId>, kernel: map<int, ConnId>)

  /** `connections` is the server's map; `pinned` are connections user code holds a pointer to. */
  datatype Sys = Sys(server: string, ipPort: string, loops: seq<Loop>, recs: map<ConnId, Rec>,
                     connections: map<string, ConnId>, nextId: nat, pinned: set<ConnId>)

  const NEW_LOOP := Loop([], [], Polling, map[], map[])

  function Initial(server: string, ipPort: string, threads: nat): Sys {
    Sys(server, ipPort, seq(threads + 1, _ => NEW_LOOP), map[], map[], 1, {})
  }

  function Name(s: Sys, c: ConnId): string {
    ConnName(s.server, s.ipPort, c)
  }

  predicate InMap(s: Sys, c: ConnId) {
    Name(s, c) in s.connections && s.connections[Name(s, c)] == c
  }

  /* ---------- Who holds a connection ---------- */

  predicate Mentions(tasks: seq<Task>, c: ConnId) {
    exists i :: 0 <= i < |tasks| && tasks[i].conn == c
  }

  /** handleEvent's guard. */
  predicate Guarded(loop: Loop, c: ConnId) {
    var p := loop.phase;
    p.Dispatching? && p.inHandler && p.at < |p.batch| && p.batch[p.at] == c
  }

  predicate HeldBy(loop: Loop, c: ConnId) {
    Mentions(loop.queue, c) || Mentions(loop.local, c) || Guarded(loop, c)
  }

  /** Some shared pointer to the connection exists: it has not been destructed. */
  predicate Held(s: Sys, c: ConnId) {
    InMap(s, c) || c in s.pinned || exists l :: 0 <= l < |s.loops| && HeldBy(s.loops[l], c)
  }

  /* ---------- Building blocks of the steps ---------- */

  predicate Known(s: Sys, c: ConnId) {
    c in s.recs && s.recs[c].loop < |s.loops|
  }

  function WithLoop(s: Sys, l: nat, loop: Loop): Sys
    requires l < |s.loops|
  {
    s.(loops := s.loops[l := loop])
  }

  function Push(s: Sys, l: nat, task: Task): Sys
    requires l < |s.loops|
  {
    WithLoop(s, l, s.loops[l].(queue := s.loops[l].queue + [task]))
  }

  /** Epoller::update for the connection's Filed, on its loop, with the mask now in the record. */
  function UpdateFiled(s: Sys, c: ConnId): Sys
    requires Known(s, c)
  {
    var r := s.recs[c];
    var loop := s.loops[r.loop];
    match r.index
    case New =>
      WithLoop(s, r.loop, loop.(fileds := loop.fileds[r.fd := c], kernel := loop.kernel[r.fd := c]))
        .(recs := s.recs[c := r.(index := Added)])
    case Deleted =>
      WithLoop(s, r.loop, loop.(kernel := loop.kernel[r.fd := c])).(recs := s.recs[c := r.(index := Added)])
    case Added =>
      if r.events == NONE_EVENT
      then WithLoop(s, r.loop, loop.(kernel := loop.kernel - {r.fd})).(recs := s.recs[c := r.(index := Deleted)])
      else s
  }

  /** Epoller::remove for the connection's Filed. It erases by descriptor, whatever is there. */
  function RemoveFiled(s: Sys, c: ConnId): Sys
    requires Known(s, c)
  {
    var r := s.recs[c];
    var loop := s.loops[r.loop];
    WithLoop(s, r.loop, loop.(fileds := loop.fileds - {r.fd},
                              kernel := if r.index.Added? then loop.kernel - {r.fd} else loop.kernel))
      .(recs := s.recs[c := r.(index := New)])
  }

  function SetRec(s: Sys, c: ConnId, r: Rec): Sys {
    s.(recs := s.recs[c := r])
  }

  /** Change a connection's record, then let its Epoller act on the mask. */
  function UpdateRec(s: Sys, c: ConnId, r: Rec): Sys
    requires Known(s, c) && r.loop == s.recs[c].loop
  {
    UpdateFiled(SetRec(s, c, r), c)
  }

  function Established(r: Rec): Rec {
    r.(state := Connected, events := r.events.Or(READ_EVENT), ups := r.ups + 1)
  }

  /** The state change and disableAll common to handleClose and connectDestroyed. */
  function Down(r: Rec, closes: nat): Rec {
    r.(state := Disconnected, events := NONE_EVENT, downs := r.downs + 1, closes := r.closes + closes)
  }

  /** connectEstablished. */
  function EstablishConn(s: Sys, c: ConnId): Sys
    requires Known(s, c)
  {
    UpdateRec(s, c, Established(s.recs[c]))
  }

  /** connectDestroyed. */
  function DestroyConn(s: Sys, c: ConnId): Sys
    requires Known(s, c)
  {
    RemoveFiled(if s.recs[c].state.Connected? then UpdateRec(s, c, Down(s.recs[c], 0)) else s, c)
  }

  /** Server::removeConnectionInLoop. */
  function RemoveInLoop(s: Sys, c: ConnId): Sys
    requires Known(s, c)
  {
    Push(Erased(s, c), s.recs[c].loop, Destroy(c))
  }

  /* ---------- Steps ---------- */

  datatype Step =
    | Accept(fd: int, l: nat)
    | PollReturns(l: nat, batch: seq<ConnId>)
    | BeginHandle(l: nat)
    | ChangeMask(l: nat, c: ConnId, events: Mask)
    | LateSend(l: nat, c: ConnId)
    | StartShutdown(c: ConnId)
    | Close(l: nat)
    | EndHandle(l: nat)
    | StartDrain(l: nat)
    | RunTask(l: nat)
    | EndDrain(l: nat)
    | Pin(c: ConnId)
    | Unpin(c: ConnId)
    | StopBase
    | DestroyItem(c: ConnId)

  /** The kernel's accept returns a number no open descriptor has; a connection's descriptor is open
      as long as the connection is held. */
  predicate FreeFd(s: Sys, fd: int) {
    forall c :: c in s.recs && Held(s, c) ==> s.recs[c].fd != fd
  }

  /** When each step can be taken. A live connection's mask changes only in EPOLLOUT: reading stays
      on, as module ConnectionRuns shows. LateSend is a sendinLoop queued by another thread that runs
      after connectDestroyed, on a connection still shutting down, and keeps bytes. */
  predicate Enabled(s: Sys, step: Step) {
    match step
    case Accept(fd, l) =>
      && |s.loops| > 0 && s.loops[0].phase.Dispatching? && !s.loops[0].phase.inHandler
      && l < |s.loops| && (l == 0 <==> |s.loops| == 1)
      && FreeFd(s, fd) && s.nextId + 1 < ID_LIMIT
    case PollReturns(l, batch) =>
      && l < |s.loops| && s.loops[l].phase.Polling?
      && (forall i :: 0 <= i < |batch| ==>
            batch[i] in s.recs && s.recs[batch[i]].fd in s.loops[l].kernel
            && s.loops[l].kernel[s.recs[batch[i]].fd] == batch[i])
      && (forall i, j :: 0 <= i < j < |batch| ==> batch[i] != batch[j])
    case BeginHandle(l) =>
      && l < |s.loops| && s.loops[l].phase.Dispatching? && !s.loops[l].phase.inHandler
      && s.loops[l].phase.at < |s.loops[l].phase.batch|
    case ChangeMask(l, c, events) =>
      && l < |s.loops| && (s.loops[l].phase.Dispatching? || s.loops[l].phase.Draining?)
      && Known(s, c) && s.recs[c].loop == l && Held(s, c)
      && !s.recs[c].index.New? && (s.recs[c].state.Connected? || s.recs[c].state.Disconnecting?)
      && events.in_ && events.pri
    case LateSend(l, c) =>
      && l < |s.loops| && s.loops[l].phase.Draining?
      && Known(s, c) && s.recs[c].loop == l && Held(s, c)
      && s.recs[c].index.New? && s.recs[c].state.Disconnecting? && !IsWriting(s.recs[c].events)
    case StartShutdown(c) => c in s.recs && Held(s, c) && s.recs[c].state.Connected?
    case Close(l) => InHandler(s, l) && Known(s, Current(s, l))
    case EndHandle(l) => l < |s.loops| && s.loops[l].phase.Dispatching? && s.loops[l].phase.inHandler
    case StartDrain(l) =>
      && l < |s.loops| && s.loops[l].phase.Dispatching? && !s.loops[l].phase.inHandler
      && s.loops[l].phase.at >= |s.loops[l].phase.batch|
    case RunTask(l) => CanRun(s, l) && Known(s, TaskOf(s, l).conn)
    case EndDrain(l) =>
      l < |s.loops| && s.loops[l].phase.Draining? && s.loops[l].phase.done >= |s.loops[l].local|
    case Pin(c) => c in s.recs && Held(s, c)
    case Unpin(c) => c in s.pinned
    case StopBase => |s.loops| > 0 && s.loops[0].phase.Polling?
    case DestroyItem(c) => |s.loops| > 0 && s.loops[0].phase.Stopped? && Known(s, c) && InMap(s, c)
  }

  function WithPhase(s: Sys, l: nat, p: Phase): Sys
    requires l < |s.loops|
  {
    WithLoop(s, l, s.loops[l].(phase := p))
  }

  function Created(s: Sys, fd: int, l: nat): Sys {
    var c := s.nextId;
    s.(recs := s.recs[c := Rec(l, fd, Connecting, NONE_EVENT, New, 0, 0, 0)],
       connections := s.connections[Name(s, c) := c],
       nextId := c + 1)
  }

  /** Server::newConnection: create, put in the map, have connectEstablished run. */
  function NewConnection(s: Sys, fd: int, l: nat): Sys
    requires l < |s.loops|
  {
    var s1 := Created(s, fd, l);
    if l == 0 then EstablishConn(s1, s.nextId) else Push(s1, l, Establish(s.nextId))
  }

  predicate InHandler(s: Sys, l: nat) {
    l < |s.loops| && s.loops[l].phase.Dispatching? && s.loops[l].phase.inHandler
    && s.loops[l].phase.at < |s.loops[l].phase.batch|
  }

  function Current(s: Sys, l: nat): ConnId
    requires InHandler(s, l)
  {
    s.loops[l].phase.batch[s.loops[l].phase.at]
  }

  function MarkClosed(s: Sys, l: nat): Sys
    requires InHandler(s, l)
  {
    WithPhase(s, l, s.loops[l].phase.(closed := s.loops[l].phase.closed + 1))
  }

  /** handleClose and the close callback, Server::removeConnection. */
  function HandleClose(s: Sys, l: nat): Sys
    requires InHandler(s, l) && Known(s, Current(s, l))
  {
    var c := Current(s, l);
    var s1 := MarkClosed(s, l);
    var s2 := UpdateRec(s1, c, Down(s1.recs[c], 1));
    if l == 0 then RemoveInLoop(s2, c) else Push(s2, 0, Remove(c))
  }

  /** doPendFunc: the swap at its start, and the end of its vector's life. */
  function SwapFunctors(s: Sys, l: nat): Sys
    requires l < |s.loops|
  {
    WithLoop(s, l, s.loops[l].(phase := Draining(0), local := s.loops[l].queue, queue := []))
  }

  function DropFunctors(s: Sys, l: nat): Sys
    requires l < |s.loops|
  {
    WithLoop(s, l, s.loops[l].(phase := Polling, local := []))
  }

  predicate CanRun(s: Sys, l: nat) {
    l < |s.loops| && s.loops[l].phase.Draining? && s.loops[l].phase.done < |s.loops[l].local|
  }

  function TaskOf(s: Sys, l: nat): Task
    requires CanRun(s, l)
  {
    s.loops[l].local[s.loops[l].phase.done]
  }

  /** The state with the next functor taken from the vector, where it stays held. */
  function Popped(s: Sys, l: nat): Sys
    requires CanRun(s, l)
  {
    WithPhase(s, l, Draining(s.loops[l].phase.done + 1))
  }

  function RunFunctor(s: Sys, l: nat): Sys
    requires CanRun(s, l) && Known(s, TaskOf(s, l).conn)
  {
    match TaskOf(s, l)
    case Establish(c) => EstablishConn(Popped(s, l), c)
    case Destroy(c) => DestroyConn(Popped(s, l), c)
    case Remove(c) => RemoveInLoop(Popped(s, l), c)
  }

  function Erased(s: Sys, c: ConnId): Sys {
    s.(connections := s.connections - {Name(s, c)})
  }

  /** One iteration of ~Server's loop. */
  function DestroyOne(s: Sys, c: ConnId): Sys
    requires Known(s, c)
  {
    if s.recs[c].loop == 0 then DestroyConn(Erased(s, c), c)
    else Push(Erased(s, c), s.recs[c].loop, Destroy(c))
  }

  function Next(s: Sys, step: Step): Sys
    requires Enabled(s, step)
  {
    match step
    case Accept(fd, l) => NewConnection(s, fd, l)
    case PollReturns(l, batch) => WithPhase(s, l, Dispatching(batch, 0, false, 0))
    case BeginHandle(l) => WithPhase(s, l, s.loops[l].phase.(inHandler := true, closed := 0))
    case ChangeMask(_, c, events) => UpdateRec(s, c, s.recs[c].(events := events))
    case LateSend(_, c) => UpdateRec(s, c, s.recs[c].(events := s.recs[c].events.Or(WRITE_EVENT)))
    case StartShutdown(c) => SetRec(s, c, s.recs[c].(state := Disconnecting))
    case Close(l) => HandleClose(s, l)
    case EndHandle(l) =>
      WithPhase(s, l, s.loops[l].phase.(inHandler := false, at := s.loops[l].phase.at + 1, closed := 0))
    case StartDrain(l) => SwapFunctors(s, l)
    case RunTask(l) => RunFunctor(s, l)
    case EndDrain(l) => DropFunctors(s, l)
    case Pin(c) => s.(pinned := s.pinned + {c})
    case Unpin(c) => s.(pinned := s.pinned - {c})
    case StopBase => WithPhase(s, 0, Stopped)
    case DestroyItem(c) => DestroyOne(s, c)
  }

  predicate EnabledRun(s: Sys, steps: seq<Step>)
    decreases |steps|
  {
    steps == [] || (Enabled(s, steps[0]) && EnabledRun(Next(s, steps[0]), steps[1..]))
  }

  function Run(s: Sys, steps: seq<Step>): Sys
    requires EnabledRun(s, steps)
    decreases |steps|
  {
    if steps == [] then s else Run(Next(s, steps[0]), steps[1..])
  }
}
