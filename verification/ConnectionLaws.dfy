/** What one connection does, said from outside: which bytes it reads and hands over, which callbacks it
    queues, and what each reported event bit leads to. */
module ConnectionLaws {
  import opened Registration
  import opened Buffers
  import opened Reactor
  import opened ConnectionModel
  import opened ConnectionRuns
  import BufferRuns

  /* ---------- What can happen, and when ---------- */

  /** User code and other threads may act at any time, the kernel reports a connection exactly while
      its table holds it, and what is queued runs once it has been queued. */
  lemma EventsPossible(c: Conn, revents: Mask, arrival: ReadResult, actions: seq<Action>, reply: Reply,
                       data: seq<byte>, before: byte)
    ensures Enabled(c, UserCode(actions)) && Enabled(c, SendCalled(data)) && Enabled(c, ShutdownCalled)
    ensures Enabled(c, Occurred(revents, arrival, actions, reply)) <==> c.entry.kernel.Some?
    ensures Enabled(c, QueuedShutdown) <==> c.owed
    ensures Enabled(c, Established(actions)) <==> c.state == Connecting
    ensures Enabled(c, QueuedSend(data, before, reply)) <==> c.state != Connecting
    ensures Enabled(c, Destroyed) <==> c.state != Connecting
  {
  }

  /* ---------- Event bits ---------- */

  /** Input or urgent data is read, whatever else is reported; a hang-up without ordinary input closes,
      and so does end of file. */
  lemma EventLaw(cfg: Config, c: Conn, revents: Mask, arrival: ReadResult, actions: seq<Action>, reply: Reply)
    ensures var r := HandleEvent(cfg, c, revents, arrival, actions, reply);
            var readable := revents.in_ || revents.pri;
            && r.received == c.received + (if readable && arrival.Arrived? then arrival.bytes else [])
            && r.closes == c.closes + (if revents.hup && !revents.in_ then 1 else 0)
                                    + (if readable && arrival == Arrived([]) then 1 else 0)
            && r.downs - c.downs == r.closes - c.closes
            && r.ups == c.ups && r.destroyed == c.destroyed
            && (r.closes > c.closes ==> r.state.Disconnected?)
  {
    var c1 := if revents.hup && !revents.in_ then HandleClose(c) else c;
    ReadLaw(cfg, c1, arrival, actions);
    var c2 := if revents.in_ || revents.pri then HandleRead(cfg, c1, arrival, actions) else c1;
    WriteKeepsLogs(cfg, c2, reply);
  }

  lemma ReadLaw(cfg: Config, c: Conn, arrival: ReadResult, actions: seq<Action>)
    ensures var r := HandleRead(cfg, c, arrival, actions);
            var ends := arrival == Arrived([]);
            && r.received == c.received + (if arrival.Arrived? then arrival.bytes else [])
            && r.closes == c.closes + (if ends then 1 else 0) && r.downs == c.downs + (if ends then 1 else 0)
            && r.ups == c.ups && r.destroyed == c.destroyed
            && (ends || c.state.Disconnected? ==> r.state.Disconnected?)
  {
    assert c.received + [] == c.received;
    if arrival.Arrived? {
      ActsKeepLogs(cfg, c.(input := c.input + arrival.bytes, received := c.received + arrival.bytes), actions);
    }
  }

  lemma WriteKeepsLogs(cfg: Config, c: Conn, reply: Reply)
    ensures var r := HandleWrite(cfg, c, reply);
            && r.input == c.input && r.received == c.received && r.closes == c.closes && r.downs == c.downs
            && r.ups == c.ups && r.destroyed == c.destroyed && r.state == c.state
  {
  }

  lemma {:induction false} ActsKeepLogs(cfg: Config, c: Conn, actions: seq<Action>)
    ensures var r := Acts(cfg, c, actions);
            && r.received == c.received && r.ups == c.ups && r.downs == c.downs && r.closes == c.closes
            && r.destroyed == c.destroyed && (c.state.Disconnected? ==> r.state.Disconnected?)
    decreases |actions|
  {
    if actions != [] {
      ActsKeepLogs(cfg, Act(cfg, c, actions[0]), actions[1..]);
    }
  }

  /** Room to write is used exactly if EPOLLOUT is reported and asked for: the kernel takes from the
      front of the output what it has room for. */
  lemma WritableLaw(cfg: Config, c: Conn, out: bool, reply: Reply)
    ensures var r := HandleEvent(cfg, c, Mask(false, false, out, false, false), ReadError(0), [], reply);
            var n := if out && c.entry.events.out && reply.room > 0
                     then (if reply.room < |c.output| then reply.room else |c.output|) else 0;
            && r.wire == c.wire + c.output[..n] && r.output == c.output[n..]
            && r.input == c.input && r.received == c.received && r.state == c.state
  {
    assert c.output[..0] == [] && c.output[0..] == c.output;
  }

  /** An error report alone, and an empty one, change nothing. */
  lemma OnlyLoggedLaw(cfg: Config, c: Conn, err: bool, arrival: ReadResult, actions: seq<Action>, reply: Reply)
    ensures HandleEvent(cfg, c, Mask(false, false, false, err, false), arrival, actions, reply) == c
  {
  }

  /** What a write answers: an error, or as many bytes as there are and as there is room for. */
  lemma WroteLaw(reply: Reply, len: nat)
    ensures var n := Wrote(reply, len);
            && (reply.room < 0 <==> n == -1)
            && (reply.room >= 0 ==> 0 <= n <= len && n <= reply.room && (n == len || n == reply.room))
  {
  }

  /** The direct write hands the kernel the data, which takes as much as it has room for. */
  lemma SendWire(cfg: Config, c: Conn, data: seq<byte>, before: byte, reply: Reply)
    ensures var r := SendInLoop(cfg, c, data, before, reply);
            var direct := !c.state.Disconnected? && !c.entry.events.out && c.output == [];
            var n := if direct && reply.room > 0
                     then (if reply.room < |data| then reply.room else |data|) else 0;
            && r.wire == c.wire + data[..n]
            && r.state == c.state && r.input == c.input && r.halfCloses == c.halfCloses
            && (c.state.Disconnected? ==> r == c)
  {
    assert c.wire + data[..0] == c.wire;
  }

  /** shutdown on the loop's thread moves a connection that is up to Disconnecting, and half-closes it
      at once if no EPOLLOUT is awaited; it does nothing else, and nothing to any other connection. */
  lemma ShutdownLaw(cfg: Config, c: Conn)
    ensures Act(cfg, c, Shutdown)
         == if c.state == Connected
            then c.(state := Disconnecting, halfCloses := c.halfCloses + (if c.entry.events.out then 0 else 1))
            else c
  {
  }

  /** Being established: up, reading EPOLLIN and EPOLLPRI, the callback called once. */
  lemma EstablishedLaw(cfg: Config)
    ensures ConnectEstablished(cfg, NEW_CONN, [])
         == NEW_CONN.(state := Connected, ups := 1,
                      entry := Entry(Mask(true, true, false, false, false), Added, true,
                                     Some(Mask(true, true, false, false, false)), 0))
  {
  }

  /* ---------- Input ---------- */

  /** A read that fails leaves the connection as it was. */
  lemma ReadErrorLaw(cfg: Config, c: Conn, errno: int, actions: seq<Action>)
    ensures HandleRead(cfg, c, ReadError(errno), actions) == c
  {
  }

  /** The bytes user code takes out of the input buffer. */
  function ActTaken(c: Conn, action: Action): seq<byte> {
    if action.Consume? then (if action.len < |c.input| then c.input[..action.len] else c.input) else []
  }

  function ActsTaken(cfg: Config, c: Conn, actions: seq<Action>): seq<byte>
    decreases |actions|
  {
    if actions == [] then [] else ActTaken(c, actions[0]) + ActsTaken(cfg, Act(cfg, c, actions[0]), actions[1..])
  }

  function EventTaken(cfg: Config, c: Conn, event: Event): seq<byte> {
    match event
    case Established(actions) => ActsTaken(cfg, AtCallback(c, event), actions)
    case UserCode(actions) => ActsTaken(cfg, c, actions)
    case Occurred(_, _, actions, _) =>
      if RunsMessageCallback(event) then ActsTaken(cfg, AtCallback(c, event), actions) else []
    case _ => []
  }

  function RunTaken(cfg: Config, c: Conn, events: seq<Event>): seq<byte>
    decreases |events|
  {
    if events == [] then [] else EventTaken(cfg, c, events[0]) + RunTaken(cfg, Step(cfg, c, events[0]), events[1..])
  }

  /** The bytes that a report of input or urgent data brings. */
  function Arrival(e: Event): seq<byte> {
    if e.Occurred? && (e.revents.in_ || e.revents.pri) && e.arrival.Arrived? then e.arrival.bytes else []
  }

  function Arrivals(events: seq<Event>): seq<byte> {
    if events == [] then [] else Arrival(events[0]) + Arrivals(events[1..])
  }

  lemma {:induction false} ActsInput(cfg: Config, c: Conn, actions: seq<Action>)
    ensures ActsTaken(cfg, c, actions) + Acts(cfg, c, actions).input == c.input
    decreases |actions|
  {
    if actions != [] {
      var c1 := Act(cfg, c, actions[0]);
      ActInput(cfg, c, actions[0]);
      ActsInput(cfg, c1, actions[1..]);
      assert c.input + [] == c.input && c1.input + [] == c1.input;
      BufferRuns.Splice(c.input, [], [], ActTaken(c, actions[0]), c1.input, ActsTaken(cfg, c1, actions[1..]),
                        Acts(cfg, c1, actions[1..]).input);
    }
  }

  lemma ActInput(cfg: Config, c: Conn, action: Action)
    ensures ActTaken(c, action) + Act(cfg, c, action).input == c.input
  {
  }

  lemma OccurredInput(cfg: Config, c: Conn, event: Event)
    requires event.Occurred?
    ensures EventTaken(cfg, c, event) + Step(cfg, c, event).input == c.input + Arrival(event)
  {
    var c1 := if event.revents.hup && !event.revents.in_ then HandleClose(c) else c;
    var c2 := if event.revents.Meets(READ_EVENT) then HandleRead(cfg, c1, event.arrival, event.actions) else c1;
    if RunsMessageCallback(event) {
      ActsInput(cfg, AtCallback(c, event), event.actions);
    }
    WriteKeepsLogs(cfg, c2, event.reply);
  }

  lemma StepInput(cfg: Config, c: Conn, event: Event)
    ensures EventTaken(cfg, c, event) + Step(cfg, c, event).input == c.input + Arrival(event)
  {
    match event
    case Established(actions) => ActsInput(cfg, AtCallback(c, event), actions);
    case UserCode(actions) => ActsInput(cfg, c, actions);
    case Occurred(_, _, _, _) => OccurredInput(cfg, c, event);
    case _ =>
  }

  lemma StepReceives(cfg: Config, c: Conn, event: Event)
    ensures Step(cfg, c, event).received == c.received + Arrival(event)
  {
    match event
    case Established(actions) => ActsKeepLogs(cfg, AtCallback(c, event), actions);
    case UserCode(actions) => ActsKeepLogs(cfg, c, actions);
    case Occurred(revents, arrival, actions, reply) => EventLaw(cfg, c, revents, arrival, actions, reply);
    case _ =>
  }

  /** Over every run, for any callbacks and across closes and failed reads: the bytes taken out of the
      input buffer, then the bytes left in it, are the bytes that arrived, in order. */
  lemma {:induction false} RunInput(cfg: Config, c: Conn, events: seq<Event>)
    ensures RunTaken(cfg, c, events) + RunEvents(cfg, c, events).input == c.input + Arrivals(events)
    decreases |events|
  {
    if events != [] {
      var c1, rest := Step(cfg, c, events[0]), events[1..];
      StepInput(cfg, c, events[0]);
      RunInput(cfg, c1, rest);
      BufferRuns.Splice(c.input, Arrival(events[0]), Arrivals(rest), EventTaken(cfg, c, events[0]), c1.input,
                        RunTaken(cfg, c1, rest), RunEvents(cfg, c1, rest).input);
    }
  }

  lemma Regroup(a: seq<byte>, b: seq<byte>, rest: seq<byte>)
    ensures a + b + rest == a + (b + rest)
  {
  }

  /** And those are the bytes logged as received, which the other theorems speak of. */
  lemma {:induction false} RunReceives(cfg: Config, c: Conn, events: seq<Event>)
    ensures RunEvents(cfg, c, events).received == c.received + Arrivals(events)
    decreases |events|
  {
    if events != [] {
      StepReceives(cfg, c, events[0]);
      RunReceives(cfg, Step(cfg, c, events[0]), events[1..]);
      Regroup(c.received, Arrival(events[0]), Arrivals(events[1..]));
    }
  }

  /* ---------- Callbacks queued ---------- */

  /** A write-complete callback if the last byte has gone, and a high-water callback if the output
      level has crossed the mark upwards. */
  function Callbacks(cfg: Config, completes: bool, from: nat, to: nat): seq<Functor> {
    (if completes && cfg.onWriteComplete then [WriteComplete(cfg.fd)] else [])
    + (if cfg.onHighWater && from < cfg.mark <= to then [HighWaterMark(cfg.fd, to)] else [])
  }

  /** sendinLoop takes all its data to the kernel at once. */
  predicate TakenAtOnce(c: Conn, len: nat, reply: Reply) {
    !c.state.Disconnected? && !c.entry.events.out && c.output == [] && 0 < len <= reply.room
  }

  /** handleWrite takes the last of the output to the kernel. */
  predicate DrainsAll(c: Conn, reply: Reply) {
    c.entry.events.out && 0 < |c.output| <= reply.room
  }

  /** A send queues exactly these callbacks, for either reading. */
  lemma SendQueues(cfg: Config, c: Conn, data: seq<byte>, before: byte, reply: Reply)
    ensures var r := SendInLoop(cfg, c, data, before, reply);
            r.queued == c.queued + Callbacks(cfg, TakenAtOnce(c, |data|, reply), |c.output|, |r.output|)
  {
    assert c.queued + [] == c.queued;
    if !c.state.Disconnected? {
      var c1 := c.(accepted := Accepted(cfg, c, data, reply));
      if Attempts(c) {
        DirectSendQueues(cfg, c1, data, before, reply);
      } else if data != [] {
        OutputQueues(cfg, c1, data);
      }
    }
  }

  lemma OutputQueues(cfg: Config, c: Conn, bytes: seq<byte>)
    ensures var r := QueueOutput(cfg, c, bytes);
            && r.output == c.output + bytes
            && r.queued == c.queued + Callbacks(cfg, false, |c.output|, |r.output|)
  {
    assert c.queued + [] == c.queued;
  }

  lemma DirectSendQueues(cfg: Config, c: Conn, data: seq<byte>, before: byte, reply: Reply)
    requires Attempts(c)
    ensures var a := AttemptOf(cfg, |data|, reply);
            var c2 := AfterAttempt(cfg, c, data, reply);
            var r := if !a.fault && a.remaining > 0
                     then QueueOutput(cfg, c2, Memory(before, data, a.offset, a.remaining)) else c2;
            r.queued == c.queued + Callbacks(cfg, 0 < |data| <= reply.room, |c.output|, |r.output|)
  {
    var a := AttemptOf(cfg, |data|, reply);
    var c2 := AfterAttempt(cfg, c, data, reply);
    assert c.queued + [] == c.queued;
    assert a.completes ==> a.remaining == 0;
    OutputQueues(cfg, c2, Memory(before, data, a.offset, a.remaining));
  }

  lemma WriteQueues(cfg: Config, c: Conn, reply: Reply)
    ensures var r := HandleWrite(cfg, c, reply);
            r.queued == c.queued + Callbacks(cfg, DrainsAll(c, reply), |c.output|, |r.output|)
  {
    assert c.queued + [] == c.queued;
  }

  function ActQueued(cfg: Config, c: Conn, action: Action): seq<Functor> {
    if action.Send? && c.state.Connected?
    then Callbacks(cfg, TakenAtOnce(c, |action.data|, action.reply), |c.output|, |Act(cfg, c, action).output|)
    else []
  }

  function ActsQueued(cfg: Config, c: Conn, actions: seq<Action>): seq<Functor>
    decreases |actions|
  {
    if actions == [] then [] else ActQueued(cfg, c, actions[0]) + ActsQueued(cfg, Act(cfg, c, actions[0]), actions[1..])
  }

  /** The connection when its output is about to be written. */
  function BeforeWrite(cfg: Config, c: Conn, event: Event): Conn
    requires event.Occurred?
  {
    HandleEvent(cfg, c, event.revents.(out := false), event.arrival, event.actions, event.reply)
  }

  function EventQueued(cfg: Config, c: Conn, event: Event): seq<Functor> {
    match event
    case Established(actions) => ActsQueued(cfg, AtCallback(c, event), actions)
    case UserCode(actions) => ActsQueued(cfg, c, actions)
    case SendCalled(data) => if c.state.Connected? then [LateSend(cfg.fd, data)] else []
    case QueuedSend(data, _, reply) =>
      Callbacks(cfg, TakenAtOnce(c, |data|, reply), |c.output|, |Step(cfg, c, event).output|)
    case ShutdownCalled => if c.state.Connected? then [LateShutdown(cfg.fd)] else []
    case Occurred(revents, _, actions, reply) =>
      var b := BeforeWrite(cfg, c, event);
      (if RunsMessageCallback(event) then ActsQueued(cfg, AtCallback(c, event), actions) else [])
      + (if revents.out then Callbacks(cfg, DrainsAll(b, reply), |b.output|, |Step(cfg, c, event).output|) else [])
    case _ => []
  }

  function RunQueued(cfg: Config, c: Conn, events: seq<Event>): seq<Functor>
    decreases |events|
  {
    if events == [] then [] else EventQueued(cfg, c, events[0]) + RunQueued(cfg, Step(cfg, c, events[0]), events[1..])
  }

  lemma ActQueues(cfg: Config, c: Conn, action: Action)
    ensures Act(cfg, c, action).queued == c.queued + ActQueued(cfg, c, action)
  {
    assert c.queued + [] == c.queued;
    if action.Send? && c.state.Connected? {
      SendQueues(cfg, c, action.data, action.before, action.reply);
    }
  }

  lemma {:induction false} ActsQueue(cfg: Config, c: Conn, actions: seq<Action>)
    ensures Acts(cfg, c, actions).queued == c.queued + ActsQueued(cfg, c, actions)
    decreases |actions|
  {
    if actions != [] {
      var c1 := Act(cfg, c, actions[0]);
      ActQueues(cfg, c, actions[0]);
      ActsQueue(cfg, c1, actions[1..]);
      RegroupFunctors(c.queued, ActQueued(cfg, c, actions[0]), ActsQueued(cfg, c1, actions[1..]));
    }
  }

  lemma BeforeWriteQueues(cfg: Config, c: Conn, event: Event)
    requires event.Occurred?
    ensures BeforeWrite(cfg, c, event).queued
         == c.queued + (if RunsMessageCallback(event) then ActsQueued(cfg, AtCallback(c, event), event.actions) else [])
  {
    assert c.queued + [] == c.queued;
    if RunsMessageCallback(event) {
      ActsQueue(cfg, AtCallback(c, event), event.actions);
    }
  }

  lemma WritesLast(cfg: Config, c: Conn, event: Event)
    requires event.Occurred?
    ensures var b := BeforeWrite(cfg, c, event);
            Step(cfg, c, event) == if event.revents.out then HandleWrite(cfg, b, event.reply) else b
  {
  }

  lemma OccurredQueues(cfg: Config, c: Conn, event: Event)
    requires event.Occurred?
    ensures Step(cfg, c, event).queued == c.queued + EventQueued(cfg, c, event)
  {
    BeforeWriteQueues(cfg, c, event);
    WritesLast(cfg, c, event);
    WriteQueues(cfg, BeforeWrite(cfg, c, event), event.reply);
  }

  lemma StepQueues(cfg: Config, c: Conn, event: Event)
    ensures Step(cfg, c, event).queued == c.queued + EventQueued(cfg, c, event)
  {
    match event
    case Established(actions) => ActsQueue(cfg, AtCallback(c, event), actions);
    case UserCode(actions) => ActsQueue(cfg, c, actions);
    case QueuedSend(data, before, reply) => SendQueues(cfg, c, data, before, reply);
    case Occurred(_, _, _, _) => OccurredQueues(cfg, c, event);
    case _ =>
  }

  lemma RegroupFunctors(a: seq<Functor>, b: seq<Functor>, rest: seq<Functor>)
    ensures a + b + rest == a + (b + rest)
  {
  }

  /** Over every run, for either reading: the functors queued are exactly these, in this order. */
  lemma {:induction false} RunQueues(cfg: Config, c: Conn, events: seq<Event>)
    ensures RunEvents(cfg, c, events).queued == c.queued + RunQueued(cfg, c, events)
    decreases |events|
  {
    if events != [] {
      var c1 := Step(cfg, c, events[0]);
      StepQueues(cfg, c, events[0]);
      RunQueues(cfg, c1, events[1..]);
      RegroupFunctors(c.queued, EventQueued(cfg, c, events[0]), RunQueued(cfg, c1, events[1..]));
    }
  }

  /* ---------- Write-complete callbacks, counted ---------- */

  function CompleteCount(queued: seq<Functor>): nat {
    if queued == [] then 0 else (if queued[0].WriteComplete? then 1 else 0) + CompleteCount(queued[1..])
  }

  lemma {:induction false} CompleteCountAdds(a: seq<Functor>, b: seq<Functor>)
    ensures CompleteCount(a + b) == CompleteCount(a) + CompleteCount(b)
  {
    if a == [] {
      assert a + b == b;
    } else {
      assert (a + b)[1..] == a[1..] + b;
      CompleteCountAdds(a[1..], b);
    }
  }

  function One(b: bool): nat {
    if b then 1 else 0
  }

  /** How many direct writes took everything, and how many writable events drained the output. */
  function ActsCompleted(cfg: Config, c: Conn, actions: seq<Action>): nat
    decreases |actions|
  {
    if actions == [] then 0
    else
      var a := actions[0];
      One(a.Send? && c.state.Connected? && TakenAtOnce(c, |a.data|, a.reply))
      + ActsCompleted(cfg, Act(cfg, c, a), actions[1..])
  }

  function EventCompleted(cfg: Config, c: Conn, event: Event): nat {
    match event
    case Established(actions) => ActsCompleted(cfg, AtCallback(c, event), actions)
    case UserCode(actions) => ActsCompleted(cfg, c, actions)
    case QueuedSend(data, _, reply) => One(TakenAtOnce(c, |data|, reply))
    case Occurred(revents, _, actions, reply) =>
      (if RunsMessageCallback(event) then ActsCompleted(cfg, AtCallback(c, event), actions) else 0)
      + One(revents.out && DrainsAll(BeforeWrite(cfg, c, event), reply))
    case _ => 0
  }

  function RunCompleted(cfg: Config, c: Conn, events: seq<Event>): nat
    decreases |events|
  {
    if events == [] then 0
    else EventCompleted(cfg, c, events[0]) + RunCompleted(cfg, Step(cfg, c, events[0]), events[1..])
  }

  lemma CallbacksCount(cfg: Config, completes: bool, from: nat, to: nat)
    ensures CompleteCount(Callbacks(cfg, completes, from, to)) == One(completes && cfg.onWriteComplete)
  {
    CompleteCountAdds(if completes && cfg.onWriteComplete then [WriteComplete(cfg.fd)] else [],
                      if cfg.onHighWater && from < cfg.mark <= to then [HighWaterMark(cfg.fd, to)] else []);
  }

  lemma {:induction false} ActsCount(cfg: Config, c: Conn, actions: seq<Action>)
    ensures CompleteCount(ActsQueued(cfg, c, actions))
         == if cfg.onWriteComplete then ActsCompleted(cfg, c, actions) else 0
    decreases |actions|
  {
    if actions != [] {
      var a := actions[0];
      if a.Send? && c.state.Connected? {
        CallbacksCount(cfg, TakenAtOnce(c, |a.data|, a.reply), |c.output|, |Act(cfg, c, a).output|);
      }
      CompleteCountAdds(ActQueued(cfg, c, a), ActsQueued(cfg, Act(cfg, c, a), actions[1..]));
      ActsCount(cfg, Act(cfg, c, a), actions[1..]);
    }
  }

  lemma EventCount(cfg: Config, c: Conn, event: Event)
    ensures CompleteCount(EventQueued(cfg, c, event))
         == if cfg.onWriteComplete then EventCompleted(cfg, c, event) else 0
  {
    match event
    case Established(actions) => ActsCount(cfg, AtCallback(c, event), actions);
    case UserCode(actions) => ActsCount(cfg, c, actions);
    case QueuedSend(data, _, reply) =>
      CallbacksCount(cfg, TakenAtOnce(c, |data|, reply), |c.output|, |Step(cfg, c, event).output|);
    case Occurred(revents, _, actions, reply) =>
      var b := BeforeWrite(cfg, c, event);
      if RunsMessageCallback(event) {
        ActsCount(cfg, AtCallback(c, event), actions);
      }
      CallbacksCount(cfg, DrainsAll(b, reply), |b.output|, |Step(cfg, c, event).output|);
      var to := |Step(cfg, c, event).output|;
      CompleteCountAdds(if RunsMessageCallback(event) then ActsQueued(cfg, AtCallback(c, event), actions) else [],
                        if revents.out then Callbacks(cfg, DrainsAll(b, reply), |b.output|, to) else []);
    case _ =>
  }

  /** Over every run: one write-complete functor for each direct write that took everything and each
      writable event that drained the output, if the callback is set, and no other. */
  lemma {:induction false} RunCompletes(cfg: Config, c: Conn, events: seq<Event>)
    ensures CompleteCount(RunEvents(cfg, c, events).queued)
         == CompleteCount(c.queued) + (if cfg.onWriteComplete then RunCompleted(cfg, c, events) else 0)
  {
    RunQueues(cfg, c, events);
    CompleteCountAdds(c.queued, RunQueued(cfg, c, events));
    RunCount(cfg, c, events);
  }

  lemma {:induction false} RunCount(cfg: Config, c: Conn, events: seq<Event>)
    ensures CompleteCount(RunQueued(cfg, c, events))
         == if cfg.onWriteComplete then RunCompleted(cfg, c, events) else 0
    decreases |events|
  {
    if events != [] {
      EventCount(cfg, c, events[0]);
      CompleteCountAdds(EventQueued(cfg, c, events[0]), RunQueued(cfg, Step(cfg, c, events[0]), events[1..]));
      RunCount(cfg, Step(cfg, c, events[0]), events[1..]);
    }
  }
}
