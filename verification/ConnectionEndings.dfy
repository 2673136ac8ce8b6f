/** How a connection ends: draining, half-close, and the callbacks that mark its life. */
module ConnectionEndings {
  import opened Registration
  import opened Buffers
  import opened Reactor
  import opened ConnectionModel
  import opened ConnectionRuns

  /* ---------- Graceful half-close ---------- */

  /** shutdownWrite has run at most once, only after shutdown, only with the output drained; and a
      connection being shut down, with no shutdownInLoop still queued, has been half-closed exactly
      when its output is drained. */
  predicate Graceful(c: Conn) {
    && c.halfCloses <= 1
    && (c.state.Connecting? || c.state.Connected? ==> c.halfCloses == 0 && !c.owed)
    && (c.halfCloses == 1 ==> c.output == [])
    && (c.state.Disconnecting? && !c.destroyed && !c.owed ==> (c.halfCloses == 1 <==> c.output == []))
  }

  /** Does this send leave bytes waiting on a connection already half-closed? */
  predicate LateSendKept(cfg: Config, c: Conn, len: nat, reply: Reply) {
    var a := AttemptOf(cfg, len, reply);
    c.state.Disconnecting? && c.halfCloses == 1 && !a.fault && a.remaining > 0
  }

  /** Does a queued shutdownInLoop find that handleWrite has half-closed before it, or that the
      connection was closed with bytes waiting? */
  predicate ShutdownOvertaken(c: Conn) {
    !Writing(c) && (c.halfCloses == 1 || c.output != [])
  }

  /** What other threads have queued does no harm when it runs. */
  predicate Harmless(cfg: Config, c: Conn, event: Event) {
    match event
    case QueuedSend(data, _, reply) => !LateSendKept(cfg, c, |data|, reply) && !Revives(cfg, c, |data|, reply)
    case QueuedShutdown => !ShutdownOvertaken(c)
    case _ => true
  }

  predicate HarmlessRun(cfg: Config, c: Conn, events: seq<Event>)
    decreases |events|
  {
    events == [] || (Harmless(cfg, c, events[0]) && HarmlessRun(cfg, Step(cfg, c, events[0]), events[1..]))
  }

  /** For every answer of the kernel and either reading of the braces. */
  lemma SendGracefulIff(cfg: Config, c: Conn, data: seq<byte>, before: byte, reply: Reply)
    requires Graceful(c) && Coherent(c) && !c.state.Connecting?
    ensures Graceful(SendInLoop(cfg, c, data, before, reply)) <==> !LateSendKept(cfg, c, |data|, reply)
  {
  }

  /** What a caller can check before the kernel has answered. */
  lemma SendAlwaysGracefulIff(cfg: Config, c: Conn, data: seq<byte>, before: byte)
    requires Graceful(c) && Coherent(c) && !c.state.Connecting?
    ensures (forall reply :: Graceful(SendInLoop(cfg, c, data, before, reply)))
       <==> !(c.state.Disconnecting? && c.halfCloses == 1) || data == []
    ensures !c.owed && !c.destroyed ==>
      (c.state.Disconnecting? && c.halfCloses == 1 <==> c.state.Disconnecting? && c.output == [])
  {
    SendGracefulIff(cfg, c, data, before, Reply(0, true));
    if !(c.state.Disconnecting? && c.halfCloses == 1) || data == [] {
      forall reply
        ensures Graceful(SendInLoop(cfg, c, data, before, reply))
      {
        SendGracefulIff(cfg, c, data, before, reply);
      }
    }
  }

  lemma ActGraceful(cfg: Config, c: Conn, action: Action)
    requires Graceful(c) && Coherent(c)
    ensures Graceful(Act(cfg, c, action))
  {
    if action.Send? && c.state.Connected? {
      SendGracefulIff(cfg, c, action.data, action.before, action.reply);
    }
  }

  lemma {:induction false} ActsGraceful(cfg: Config, c: Conn, actions: seq<Action>)
    requires Graceful(c) && Coherent(c) && !c.state.Connecting?
    ensures Graceful(Acts(cfg, c, actions))
    decreases |actions|
  {
    if actions != [] {
      ActGraceful(cfg, c, actions[0]);
      ActCoherent(cfg, c, actions[0]);
      ActsGraceful(cfg, Act(cfg, c, actions[0]), actions[1..]);
    }
  }

  lemma WriteGraceful(cfg: Config, c: Conn, reply: Reply)
    requires Graceful(c) && Coherent(c) && !c.destroyed && !c.state.Connecting?
    ensures Graceful(HandleWrite(cfg, c, reply))
  {
  }

  lemma CloseGraceful(c: Conn)
    requires Graceful(c) && Coherent(c) && !c.destroyed && !c.state.Connecting?
    ensures var r := HandleClose(c);
            Graceful(r) && Coherent(r) && !r.destroyed && !r.state.Connecting?
  {
    CloseCoherent(c);
  }

  lemma ReadGraceful(cfg: Config, c: Conn, arrival: ReadResult, actions: seq<Action>)
    requires Graceful(c) && Coherent(c) && !c.destroyed && !c.state.Connecting?
    ensures var r := HandleRead(cfg, c, arrival, actions);
            Graceful(r) && Coherent(r) && !r.destroyed && !r.state.Connecting?
  {
    CloseGraceful(c);
    if arrival.Arrived? && arrival.bytes != [] {
      var at := c.(input := c.input + arrival.bytes, received := c.received + arrival.bytes);
      ActsGraceful(cfg, at, actions);
      ActsCoherent(cfg, at, actions);
    }
  }

  lemma OccurredGraceful(cfg: Config, c: Conn, event: Event)
    requires Graceful(c) && Coherent(c) && event.Occurred? && Enabled(c, event)
    ensures Graceful(Step(cfg, c, event))
  {
    var c1 := if event.revents.hup && !event.revents.in_ then HandleClose(c) else c;
    CloseGraceful(c);
    var c2 := if event.revents.Meets(READ_EVENT) then HandleRead(cfg, c1, event.arrival, event.actions) else c1;
    ReadGraceful(cfg, c1, event.arrival, event.actions);
    WriteGraceful(cfg, c2, event.reply);
  }

  /** Of all the events there are, exactly the harmful ones of other threads break the promise, or
      revive a connection already destroyed. */
  lemma StepGracefulIff(cfg: Config, c: Conn, event: Event)
    requires Graceful(c) && Coherent(c) && Enabled(c, event)
    ensures Graceful(Step(cfg, c, event)) && Coherent(Step(cfg, c, event)) <==> Harmless(cfg, c, event)
  {
    StepCoherent(cfg, c, event);
    match event
    case Established(actions) => ActsGraceful(cfg, AtCallback(c, event), actions);
    case UserCode(actions) =>
      if c.state.Connecting? {
        ActsBeforeEstablished(cfg, actions);
      } else {
        ActsGraceful(cfg, c, actions);
      }
    case QueuedSend(data, before, reply) => SendGracefulIff(cfg, c, data, before, reply);
    case Occurred(_, _, _, _) => OccurredGraceful(cfg, c, event);
    case _ =>
  }

  /** The promise, and coherence with it, hold in every state of the run, its last included. */
  predicate AlwaysGraceful(cfg: Config, c: Conn, events: seq<Event>)
    decreases |events|
  {
    Graceful(c) && Coherent(c) && (events == [] || AlwaysGraceful(cfg, Step(cfg, c, events[0]), events[1..]))
  }

  /** Over any run: the promise holds all along exactly if every event of the run is harmless. */
  lemma {:induction false} RunGracefulIff(cfg: Config, c: Conn, events: seq<Event>)
    requires Graceful(c) && Coherent(c) && EnabledRun(cfg, c, events)
    ensures AlwaysGraceful(cfg, c, events) <==> HarmlessRun(cfg, c, events)
    decreases |events|
  {
    if events != [] {
      var c1 := Step(cfg, c, events[0]);
      StepGracefulIff(cfg, c, events[0]);
      if Harmless(cfg, c, events[0]) {
        RunGracefulIff(cfg, c1, events[1..]);
      } else {
        assert !AlwaysGraceful(cfg, c1, events[1..]);
      }
    }
  }

  lemma {:induction false} AlwaysGracefulEnds(cfg: Config, c: Conn, events: seq<Event>)
    requires AlwaysGraceful(cfg, c, events)
    ensures Graceful(RunEvents(cfg, c, events))
    decreases |events|
  {
    if events != [] {
      AlwaysGracefulEnds(cfg, Step(cfg, c, events[0]), events[1..]);
    }
  }

  /* A shutdown from another thread, judged when it is called. */

  predicate NoQueuedSends(events: seq<Event>) {
    forall i :: 0 <= i < |events| ==> !events[i].QueuedSend?
  }

  /** Called with nothing waiting: nothing will wait until the queued shutdownInLoop has run. */
  predicate OwedWithNothing(c: Conn) {
    (c.state.Disconnecting? || c.state.Disconnected?) && (c.owed ==> c.output == [] && c.halfCloses == 0)
  }

  lemma ReadWithNothing(cfg: Config, c: Conn, arrival: ReadResult, actions: seq<Action>)
    requires OwedWithNothing(c)
    ensures OwedWithNothing(HandleRead(cfg, c, arrival, actions))
  {
    if arrival.Arrived? {
      ActsWhenNotUp(cfg, c.(input := c.input + arrival.bytes, received := c.received + arrival.bytes), actions);
    }
  }

  lemma OccurredWithNothing(cfg: Config, c: Conn, event: Event)
    requires OwedWithNothing(c) && event.Occurred?
    ensures OwedWithNothing(Step(cfg, c, event))
  {
    var c1 := if event.revents.hup && !event.revents.in_ then HandleClose(c) else c;
    ReadWithNothing(cfg, c1, event.arrival, event.actions);
  }

  lemma StepWithNothing(cfg: Config, c: Conn, event: Event)
    requires OwedWithNothing(c) && Graceful(c) && Coherent(c) && Enabled(c, event) && !event.QueuedSend?
    ensures Harmless(cfg, c, event) && OwedWithNothing(Step(cfg, c, event))
  {
    match event
    case UserCode(actions) => ActsWhenNotUp(cfg, c, actions);
    case Occurred(_, _, _, _) => OccurredWithNothing(cfg, c, event);
    case _ =>
  }

  lemma {:induction false} RunWithNothing(cfg: Config, c: Conn, events: seq<Event>)
    requires OwedWithNothing(c) && Graceful(c) && Coherent(c) && EnabledRun(cfg, c, events) && NoQueuedSends(events)
    ensures HarmlessRun(cfg, c, events)
    decreases |events|
  {
    if events != [] {
      StepWithNothing(cfg, c, events[0]);
      StepGracefulIff(cfg, c, events[0]);
      assert forall i :: 0 <= i < |events[1..]| ==> events[1..][i] == events[i + 1];
      RunWithNothing(cfg, Step(cfg, c, events[0]), events[1..]);
    }
  }

  /** What the caller can check: such a shutdown is safe, whatever happens next short of a queued
      send, exactly if no output waits when it is called. */
  lemma OtherShutdownSafeIff(cfg: Config, c: Conn)
    requires Graceful(c) && Coherent(c) && c.state.Connected?
    ensures (forall events :: EnabledRun(cfg, ShutdownFromOther(cfg, c), events) && NoQueuedSends(events) ==>
              AlwaysGraceful(cfg, ShutdownFromOther(cfg, c), events))
       <==> c.output == []
  {
    var c1 := ShutdownFromOther(cfg, c);
    StepCoherent(cfg, c, ShutdownCalled);
    StepGracefulIff(cfg, c, ShutdownCalled);
    if c.output == [] {
      forall events | EnabledRun(cfg, c1, events) && NoQueuedSends(events)
        ensures AlwaysGraceful(cfg, c1, events)
      {
        RunWithNothing(cfg, c1, events);
        RunGracefulIff(cfg, c1, events);
      }
    } else {
      OvertakenByDraining(cfg, c1);
    }
  }

  /** A queued shutdownInLoop with output waiting can be overtaken: handleWrite drains the output. */
  lemma OvertakenByDraining(cfg: Config, c: Conn)
    requires Graceful(c) && Coherent(c) && c.state.Disconnecting? && !c.destroyed && c.owed && c.output != []
    ensures var drain := Occurred(WRITE_EVENT, ReadError(0), [], Reply(|c.output|, true));
            EnabledRun(cfg, c, [drain, QueuedShutdown]) && NoQueuedSends([drain, QueuedShutdown])
            && !AlwaysGraceful(cfg, c, [drain, QueuedShutdown])
            && RunEvents(cfg, c, [drain, QueuedShutdown]).halfCloses == 2
  {
    var drain := Occurred(WRITE_EVENT, ReadError(0), [], Reply(|c.output|, true));
    RunOfTwo(cfg, c, drain, QueuedShutdown);
    BrokenAtTheEnd(cfg, c, [drain, QueuedShutdown]);
  }

  /** Or the peer closes, and the functor half-closes a connection whose output never left. */
  lemma OvertakenByClose(cfg: Config, c: Conn)
    requires Graceful(c) && Coherent(c) && c.state.Disconnecting? && !c.destroyed && c.owed && c.output != []
    ensures var close := Occurred(READ_EVENT, Arrived([]), [], Reply(0, true));
            var r := RunEvents(cfg, c, [close, QueuedShutdown]);
            EnabledRun(cfg, c, [close, QueuedShutdown]) && !AlwaysGraceful(cfg, c, [close, QueuedShutdown])
            && r.halfCloses == 1 && r.output == c.output && r.wire == c.wire
  {
    var close := Occurred(READ_EVENT, Arrived([]), [], Reply(0, true));
    RunOfTwo(cfg, c, close, QueuedShutdown);
    BrokenAtTheEnd(cfg, c, [close, QueuedShutdown]);
  }

  lemma BrokenAtTheEnd(cfg: Config, c: Conn, events: seq<Event>)
    requires !Graceful(RunEvents(cfg, c, events))
    ensures !AlwaysGraceful(cfg, c, events)
  {
    if AlwaysGraceful(cfg, c, events) {
      AlwaysGracefulEnds(cfg, c, events);
    }
  }

  /** With every send clean and nothing harmful queued by other threads: at most one half-close, none
      before shutdown, and by then every accepted byte is on the wire. */
  lemma HalfCloseAfterLastByte(cfg: Config, events: seq<Event>)
    requires EnabledRun(cfg, NEW_CONN, events) && HarmlessRun(cfg, NEW_CONN, events)
    requires CleanRun(cfg, NEW_CONN, events)
    ensures var c := RunEvents(cfg, NEW_CONN, events);
            && c.halfCloses <= 1
            && (c.halfCloses == 1 ==>
                  c.wire == c.accepted && (c.state.Disconnecting? || c.state.Disconnected?))
            && (c.state.Disconnecting? && !c.destroyed && !c.owed ==> (c.halfCloses == 1 <==> c.wire == c.accepted))
  {
    RunGracefulIff(cfg, NEW_CONN, events);
    AlwaysGracefulEnds(cfg, NEW_CONN, events);
    RunConserves(cfg, NEW_CONN, events);
    var c := RunEvents(cfg, NEW_CONN, events);
    assert |c.wire| + |c.output| == |c.accepted|;
  }

  /** No other thread sends or shuts down. */
  predicate OnLoopThread(events: seq<Event>) {
    forall i :: 0 <= i < |events| ==> !events[i].QueuedSend? && !events[i].ShutdownCalled?
  }

  /** Then nothing harmful can happen. */
  lemma {:induction false} LoopThreadIsHarmless(cfg: Config, c: Conn, events: seq<Event>)
    requires !c.owed && EnabledRun(cfg, c, events) && OnLoopThread(events)
    ensures HarmlessRun(cfg, c, events)
    decreases |events|
  {
    if events != [] {
      var c1 := Step(cfg, c, events[0]);
      StepOwes(cfg, c, events[0]);
      assert forall i :: 0 <= i < |events[1..]| ==> events[1..][i] == events[i + 1];
      LoopThreadIsHarmless(cfg, c1, events[1..]);
    }
  }

  lemma {:induction false} ActsOwe(cfg: Config, c: Conn, actions: seq<Action>)
    ensures Acts(cfg, c, actions).owed == c.owed
    decreases |actions|
  {
    if actions != [] {
      assert Act(cfg, c, actions[0]).owed == c.owed;
      ActsOwe(cfg, Act(cfg, c, actions[0]), actions[1..]);
    }
  }

  lemma StepOwes(cfg: Config, c: Conn, event: Event)
    requires !c.owed && !event.ShutdownCalled?
    ensures !Step(cfg, c, event).owed
  {
    match event
    case Established(actions) => ActsOwe(cfg, AtCallback(c, event), actions);
    case UserCode(actions) => ActsOwe(cfg, c, actions);
    case Occurred(_, _, actions, _) =>
      if RunsMessageCallback(event) {
        ActsOwe(cfg, AtCallback(c, event), actions);
      }
    case _ =>
  }

  /** Every harmful late send ends in a second half-close, as soon as the kernel takes what it left. */
  lemma LateSendHalfClosesTwice(cfg: Config, c: Conn, data: seq<byte>, before: byte, reply: Reply, room: nat)
    requires Coherent(c) && Graceful(c) && !c.destroyed && LateSendKept(cfg, c, |data|, reply)
    requires room >= |data|
    ensures var late := QueuedSend(data, before, reply);
            var drain := Occurred(WRITE_EVENT, ReadError(0), [], Reply(room, true));
            EnabledRun(cfg, c, [late, drain]) && RunEvents(cfg, c, [late, drain]).halfCloses == 2
  {
    var late := QueuedSend(data, before, reply);
    var drain := Occurred(WRITE_EVENT, ReadError(0), [], Reply(room, true));
    var c1 := Step(cfg, c, late);
    SendCoherentIff(cfg, c, data, before, reply);
    assert 0 < |c1.output| <= |data| && c1.entry.kernel.Some?;
    assert Step(cfg, c1, drain).halfCloses == 2;
    RunOfTwo(cfg, c, late, drain);
  }

  /** A send that another thread calls in time and whose turn comes after the loop's own shutdown. */
  lemma LateSendIsReached(cfg: Config, data: seq<byte>)
    requires data != []
    ensures var events := [Established([]), SendCalled(data), UserCode([Shutdown])];
            var c := RunEvents(cfg, NEW_CONN, events);
            && EnabledRun(cfg, NEW_CONN, events) && c.queued == [LateSend(cfg.fd, data)]
            && Graceful(c) && Coherent(c) && !c.destroyed && LateSendKept(cfg, c, |data|, Reply(0, true))
  {
    var up := Step(cfg, NEW_CONN, Established([]));
    var called := Step(cfg, up, SendCalled(data));
    ActsOfOne(cfg, called, Shutdown);
    RunOfThree(cfg, NEW_CONN, Established([]), SendCalled(data), UserCode([Shutdown]));
    StepGracefulIff(cfg, NEW_CONN, Established([]));
    StepGracefulIff(cfg, up, SendCalled(data));
    StepGracefulIff(cfg, called, UserCode([Shutdown]));
  }

  /** Output waits when another thread shuts the connection down: the state of OtherShutdownSafeIff in
      which the queued shutdownInLoop can be overtaken. */
  lemma UnsafeShutdownIsReached(cfg: Config, data: seq<byte>, before: byte)
    requires data != []
    ensures var events := [Established([Send(data, before, Reply(0, true))]), ShutdownCalled];
            var c := RunEvents(cfg, NEW_CONN, events);
            && EnabledRun(cfg, NEW_CONN, events) && LateShutdown(cfg.fd) in c.queued
            && Graceful(c) && Coherent(c) && c.state.Disconnecting? && !c.destroyed && c.owed && c.output == data
  {
    var send := Send(data, before, Reply(0, true));
    var e := Established([send]);
    var up := Step(cfg, NEW_CONN, e);
    ActsOfOne(cfg, AtCallback(NEW_CONN, e), send);
    StepGracefulIff(cfg, NEW_CONN, e);
    StepGracefulIff(cfg, up, ShutdownCalled);
    RunOfTwo(cfg, NEW_CONN, e, ShutdownCalled);
  }

  lemma ActsOfOne(cfg: Config, c: Conn, action: Action)
    ensures Acts(cfg, c, [action]) == Act(cfg, c, action)
  {
    assert [action][1..] == [];
    assert Acts(cfg, Act(cfg, c, action), []) == Act(cfg, c, action);
  }

  lemma RunOfTwo(cfg: Config, c: Conn, e: Event, e': Event)
    requires Enabled(c, e) && Enabled(Step(cfg, c, e), e')
    ensures EnabledRun(cfg, c, [e, e'])
    ensures RunEvents(cfg, c, [e, e']) == Step(cfg, Step(cfg, c, e), e')
  {
    var c1 := Step(cfg, c, e);
    var c2 := Step(cfg, c1, e');
    assert [e, e'][1..] == [e'] && [e'][1..] == [];
    assert EnabledRun(cfg, c2, []) && EnabledRun(cfg, c1, [e']);
    assert RunEvents(cfg, c1, [e']) == RunEvents(cfg, c2, []);
  }

  lemma RunOfThree(cfg: Config, c: Conn, e: Event, e': Event, e'': Event)
    requires Enabled(c, e) && Enabled(Step(cfg, c, e), e') && Enabled(Step(cfg, Step(cfg, c, e), e'), e'')
    ensures EnabledRun(cfg, c, [e, e', e''])
    ensures RunEvents(cfg, c, [e, e', e'']) == Step(cfg, Step(cfg, Step(cfg, c, e), e'), e'')
  {
    RunOfTwo(cfg, Step(cfg, c, e), e', e'');
    assert [e, e', e''][1..] == [e', e''];
  }

  /* ---------- Draining ---------- */

  /** A run of nothing but writable events, each with room for at least one byte. */
  predicate DrainRun(cfg: Config, c: Conn, events: seq<Event>)
    decreases |events|
  {
    events == [] ||
    (var e := events[0];
     && e.Occurred? && e.revents == WRITE_EVENT && e.reply.room >= 1
     && Enabled(c, e) && Writing(c)
     && DrainRun(cfg, Step(cfg, c, e), events[1..]))
  }

  /** What draining from c has come to at r: the output in order to the wire; and once it is empty,
      and only then, EPOLLOUT given up, one write-complete functor queued if wanted, and a
      connection being shut down half-closed. */
  predicate DrainedTo(cfg: Config, c: Conn, r: Conn) {
    && r.wire + r.output == c.wire + c.output
    && (Writing(r) <==> r.output != [])
    && r.queued == (if r.output == [] && cfg.onWriteComplete then c.queued + [WriteComplete(cfg.fd)] else c.queued)
    && r.halfCloses == c.halfCloses + (if r.output == [] && c.state.Disconnecting? then 1 else 0)
    && r.state == c.state
  }

  lemma DrainsOnce(cfg: Config, c: Conn, e: Event)
    requires Coherent(c) && Live(c) && Writing(c) && Enabled(c, e)
    requires e.Occurred? && e.revents == WRITE_EVENT && e.reply.room >= 1
    ensures var r := Step(cfg, c, e);
            DrainedTo(cfg, c, r) && |r.output| < |c.output| && Coherent(r) && Live(r)
  {
    StepCoherent(cfg, c, e);
    WriteConserves(cfg, c.(accepted := c.wire + c.output), e.reply);
  }

  /** Each writable event shortens the output, so there are at most as many events as bytes; and at
      the end of any such run everything is as it should be. */
  lemma {:induction false} Drains(cfg: Config, c: Conn, events: seq<Event>)
    requires Coherent(c) && Live(c) && Writing(c) && DrainRun(cfg, c, events)
    ensures |events| <= |c.output| && |RunEvents(cfg, c, events).output| <= |c.output| - |events|
    ensures DrainedTo(cfg, c, RunEvents(cfg, c, events))
    decreases |events|
  {
    if events != [] {
      var c1 := Step(cfg, c, events[0]);
      DrainsOnce(cfg, c, events[0]);
      if c1.output == [] {
        assert events[1..] == [];
      } else {
        Drains(cfg, c1, events[1..]);
      }
    }
  }

  /** As long as output waits, such an event is always possible, so draining ends. */
  lemma DrainCanProceed(cfg: Config, c: Conn, room: nat)
    requires Coherent(c) && Live(c) && c.output != [] && room >= 1
    ensures DrainRun(cfg, c, [Occurred(WRITE_EVENT, ReadError(0), [], Reply(room, true))])
    ensures |HandleWrite(cfg, c, Reply(room, true)).output| < |c.output|
  {
    var e := Occurred(WRITE_EVENT, ReadError(0), [], Reply(room, true));
    assert [e][1..] == [];
    assert DrainRun(cfg, Step(cfg, c, e), []);
  }

  /* ---------- Lifecycle ---------- */

  function Rank(state: State): nat {
    match state
    case Connecting => 0
    case Connected => 1
    case Disconnecting => 2
    case Disconnected => 3
  }

  /** The fields user code cannot touch, and the direction in which it can move the state. */
  predicate OnlyForward(c: Conn, r: Conn) {
    && r.ups == c.ups && r.downs == c.downs && r.closes == c.closes && r.destroyed == c.destroyed
    && Rank(c.state) <= Rank(r.state)
    && (r.state.Disconnected? ==> c.state.Disconnected?)
    && (c.state.Disconnected? ==> r.entry == c.entry && r.wire == c.wire && r.output == c.output)
  }

  lemma {:induction false} ActsOnlyForward(cfg: Config, c: Conn, actions: seq<Action>)
    ensures OnlyForward(c, Acts(cfg, c, actions))
    decreases |actions|
  {
    if actions != [] {
      var c1 := Act(cfg, c, actions[0]);
      assert OnlyForward(c, c1);
      ActsOnlyForward(cfg, c1, actions[1..]);
    }
  }

  /** The one report that runs handleClose twice: a hang-up with urgent but no ordinary input, when
      the read then finds end of file. */
  predicate ClosesTwice(event: Event) {
    event.Occurred? && event.revents.hup && !event.revents.in_ && event.revents.pri
    && event.arrival == Arrived([])
  }

  lemma WriteCounts(cfg: Config, c: Conn, reply: Reply)
    ensures var r := HandleWrite(cfg, c, reply);
            r.ups == c.ups && r.downs == c.downs && r.closes == c.closes && r.state == c.state
  {
  }

  lemma ReadCounts(cfg: Config, c: Conn, arrival: ReadResult, actions: seq<Action>)
    ensures var r := HandleRead(cfg, c, arrival, actions);
            var k := if arrival == Arrived([]) then 1 else 0;
            r.ups == c.ups && r.downs == c.downs + k && r.closes == c.closes + k
  {
    if arrival.Arrived? && arrival.bytes != [] {
      ActsOnlyForward(cfg, c.(input := c.input + arrival.bytes, received := c.received + arrival.bytes), actions);
    }
  }

  /** And exactly that report does, whatever user code does in between. */
  lemma ClosesTwiceIff(cfg: Config, c: Conn, event: Event)
    requires event.Occurred?
    ensures var r := Step(cfg, c, event);
            && c.closes <= r.closes <= c.closes + 2
            && (r.closes == c.closes + 2 <==> ClosesTwice(event))
            && r.closes - c.closes == r.downs - c.downs
            && r.ups == c.ups
  {
    var c1 := if event.revents.hup && !event.revents.in_ then HandleClose(c) else c;
    var c2 := if event.revents.Meets(READ_EVENT) then HandleRead(cfg, c1, event.arrival, event.actions) else c1;
    ReadCounts(cfg, c1, event.arrival, event.actions);
    WriteCounts(cfg, c2, event.reply);
  }

  /** What the report alone decides: whether closing twice is possible at all. */
  lemma MayCloseTwiceIff(cfg: Config, c: Conn, revents: Mask)
    ensures (forall arrival, actions, reply ::
              Step(cfg, c, Occurred(revents, arrival, actions, reply)).closes <= c.closes + 1)
       <==> !(revents.hup && !revents.in_ && revents.pri)
  {
    var twice := Occurred(revents, Arrived([]), [], Reply(0, true));
    ClosesTwiceIff(cfg, c, twice);
    forall arrival, actions, reply | !(revents.hup && !revents.in_ && revents.pri)
      ensures Step(cfg, c, Occurred(revents, arrival, actions, reply)).closes <= c.closes + 1
    {
      ClosesTwiceIff(cfg, c, Occurred(revents, arrival, actions, reply));
    }
  }

  /** One up callback, before anything else; at most one down callback and one close callback, and
      after them no entry in the kernel's table. */
  predicate LifeInOrder(c: Conn) {
    && c.ups == (if c.state.Connecting? then 0 else 1)
    && c.downs == (if c.state.Disconnected? then 1 else 0)
    && c.closes <= c.downs
    && (c.state.Disconnected? ==> c.entry.kernel.None?)
  }

  predicate SingleCloses(events: seq<Event>) {
    forall i :: 0 <= i < |events| ==> !ClosesTwice(events[i])
  }

  lemma CloseInOrder(c: Conn)
    requires Standing(c) && LifeInOrder(c) && c.entry.kernel.Some?
    ensures LifeInOrder(HandleClose(c)) && !Writing(HandleClose(c))
  {
  }

  lemma WriteInOrder(cfg: Config, c: Conn, reply: Reply)
    requires LifeInOrder(c) && (c.state.Disconnected? ==> !Writing(c))
    ensures LifeInOrder(HandleWrite(cfg, c, reply)) && HandleWrite(cfg, c, reply).state == c.state
  {
  }

  lemma ReadInOrder(cfg: Config, c: Conn, arrival: ReadResult, actions: seq<Action>)
    requires Standing(c) && LifeInOrder(c) && c.entry.kernel.Some?
    ensures var r := HandleRead(cfg, c, arrival, actions);
            LifeInOrder(r) && Rank(c.state) <= Rank(r.state) && (r.state.Disconnected? ==> !Writing(r))
  {
    CloseInOrder(c);
    if arrival.Arrived? && arrival.bytes != [] {
      ActsOnlyForward(cfg, c.(input := c.input + arrival.bytes, received := c.received + arrival.bytes), actions);
    }
  }

  /** After a hang-up's close, a read that does not find end of file changes nothing that matters. */
  lemma ReadAfterClose(cfg: Config, c: Conn, arrival: ReadResult, actions: seq<Action>)
    requires c.state.Disconnected? && LifeInOrder(c) && !Writing(c) && arrival != Arrived([])
    ensures var r := HandleRead(cfg, c, arrival, actions);
            LifeInOrder(r) && r.state.Disconnected? && !Writing(r)
  {
    if arrival.Arrived? {
      ActsWhenNotUp(cfg, c.(input := c.input + arrival.bytes, received := c.received + arrival.bytes), actions);
    }
  }

  lemma OccurredInOrder(cfg: Config, c: Conn, event: Event)
    requires Standing(c) && LifeInOrder(c) && event.Occurred? && Enabled(c, event) && !ClosesTwice(event)
    ensures LifeInOrder(Step(cfg, c, event)) && Rank(c.state) <= Rank(Step(cfg, c, event).state)
  {
    var hangsUp := event.revents.hup && !event.revents.in_;
    var readable := event.revents.Meets(READ_EVENT);
    var c1 := if hangsUp then HandleClose(c) else c;
    var c2 := if readable then HandleRead(cfg, c1, event.arrival, event.actions) else c1;
    CloseInOrder(c);
    if hangsUp {
      if readable {
        ReadAfterClose(cfg, c1, event.arrival, event.actions);
      }
    } else if readable {
      ReadInOrder(cfg, c, event.arrival, event.actions);
    }
    WriteInOrder(cfg, c2, event.reply);
  }

  /** Exactly the double-close report breaks the order, also of a connection revived by a late send. */
  lemma StepInOrderIff(cfg: Config, c: Conn, event: Event)
    requires Standing(c) && LifeInOrder(c) && Enabled(c, event)
    ensures LifeInOrder(Step(cfg, c, event)) <==> !ClosesTwice(event)
    ensures !ClosesTwice(event) ==> Rank(c.state) <= Rank(Step(cfg, c, event).state)
  {
    match event
    case Established(actions) => ActsOnlyForward(cfg, AtCallback(c, event), actions);
    case UserCode(actions) =>
      ActsOnlyForward(cfg, c, actions);
      if c.state.Connecting? {
        ActsBeforeEstablished(cfg, actions);
      }
    case Occurred(_, _, _, _) =>
      if ClosesTwice(event) {
        ClosesTwiceIff(cfg, c, event);
      } else {
        OccurredInOrder(cfg, c, event);
      }
    case _ =>
  }

  /** The order holds in every state of the run, its last included. */
  predicate AlwaysInOrder(cfg: Config, c: Conn, events: seq<Event>)
    decreases |events|
  {
    LifeInOrder(c) && (events == [] || AlwaysInOrder(cfg, Step(cfg, c, events[0]), events[1..]))
  }

  /** Over any run: the callbacks mark the connection's life as they should (up once, down at most
      once, close at most once) exactly if no report closes twice. */
  lemma {:induction false} RunInOrderIff(cfg: Config, c: Conn, events: seq<Event>)
    requires Standing(c) && LifeInOrder(c) && EnabledRun(cfg, c, events)
    ensures AlwaysInOrder(cfg, c, events) <==> SingleCloses(events)
    decreases |events|
  {
    if events != [] {
      var c1 := Step(cfg, c, events[0]);
      StepInOrderIff(cfg, c, events[0]);
      StepStanding(cfg, c, events[0]);
      assert SingleCloses(events) <==> !ClosesTwice(events[0]) && SingleCloses(events[1..]) by { SingleTail(events); }
      if ClosesTwice(events[0]) {
        assert !AlwaysInOrder(cfg, c1, events[1..]);
      } else {
        RunInOrderIff(cfg, c1, events[1..]);
      }
    }
  }

  lemma SingleTail(events: seq<Event>)
    requires events != []
    ensures SingleCloses(events) <==> !ClosesTwice(events[0]) && SingleCloses(events[1..])
  {
    assert forall i :: 0 <= i < |events[1..]| ==> events[1..][i] == events[i + 1];
    assert forall i :: 1 <= i < |events| ==> events[i] == events[1..][i - 1];
  }

  /** And then the state only moves forward. */
  lemma {:induction false} RunForward(cfg: Config, c: Conn, events: seq<Event>)
    requires Standing(c) && LifeInOrder(c) && EnabledRun(cfg, c, events) && SingleCloses(events)
    ensures LifeInOrder(RunEvents(cfg, c, events))
    ensures Rank(c.state) <= Rank(RunEvents(cfg, c, events).state)
    decreases |events|
  {
    if events != [] {
      StepInOrderIff(cfg, c, events[0]);
      StepStanding(cfg, c, events[0]);
      SingleTail(events);
      RunForward(cfg, Step(cfg, c, events[0]), events[1..]);
    }
  }

  /** connectDestroyed reports a connection as down exactly when it finds it up: one that is being
      shut down is removed without a down callback, and keeps its state. */
  lemma DestroyedDownIff(cfg: Config, c: Conn)
    requires Coherent(c) && LifeInOrder(c) && !c.state.Connecting?
    ensures var r := Step(cfg, c, Destroyed);
            && (r.downs == 1 <==> !c.state.Disconnecting?)
            && (r.state.Disconnected? <==> !c.state.Disconnecting?)
            && r.entry.kernel.None? && !r.entry.mapped
  {
  }

  /** Why a queued send must not outlive connectDestroyed: it puts the Filed back into the tables
      exactly when the connection was removed while being shut down with no output awaited, and the
      send has bytes to keep. For every answer of the kernel and either reading of the braces. */
  lemma SendAfterDestroyedIff(cfg: Config, c: Conn, data: seq<byte>, before: byte, reply: Reply)
    requires Coherent(c) && c.destroyed
    ensures InTables(SendInLoop(cfg, c, data, before, reply)) <==> Revives(cfg, c, |data|, reply)
  {
  }

  /** What a caller can check before the kernel has answered. */
  lemma SendNeverRevivesIff(cfg: Config, c: Conn, data: seq<byte>, before: byte)
    requires Coherent(c) && c.destroyed
    ensures (forall reply :: !InTables(SendInLoop(cfg, c, data, before, reply)))
       <==> !(c.state.Disconnecting? && !Writing(c)) || data == []
  {
    SendAfterDestroyedIff(cfg, c, data, before, Reply(0, true));
    if !(c.state.Disconnecting? && !Writing(c)) || data == [] {
      forall reply
        ensures !InTables(SendInLoop(cfg, c, data, before, reply))
      {
        SendAfterDestroyedIff(cfg, c, data, before, reply);
      }
    }
  }

  /** Such a send is called in time, but its turn comes after the loop's own shutdown and after
      connectDestroyed. */
  lemma RevivalIsReached(cfg: Config, data: seq<byte>)
    requires data != []
    ensures var events := [Established([]), SendCalled(data), UserCode([Shutdown])] + [Destroyed];
            var c := RunEvents(cfg, NEW_CONN, events);
            && EnabledRun(cfg, NEW_CONN, events) && c.queued == [LateSend(cfg.fd, data)]
            && Coherent(c) && c.destroyed && Revives(cfg, c, |data|, Reply(0, true))
  {
    var events := [Established([]), SendCalled(data), UserCode([Shutdown])];
    LateSendIsReached(cfg, data);
    var c := RunEvents(cfg, NEW_CONN, events);
    StepCoherent(cfg, c, Destroyed);
    assert [Destroyed][1..] == [];
    assert EnabledRun(cfg, c, [Destroyed]);
    assert RunEvents(cfg, c, [Destroyed]) == RunEvents(cfg, Step(cfg, c, Destroyed), []);
    EventsSplit(cfg, NEW_CONN, events, [Destroyed]);
  }

  lemma {:induction false} EventsSplit(cfg: Config, c: Conn, a: seq<Event>, b: seq<Event>)
    requires EnabledRun(cfg, c, a) && EnabledRun(cfg, RunEvents(cfg, c, a), b)
    ensures EnabledRun(cfg, c, a + b) && RunEvents(cfg, c, a + b) == RunEvents(cfg, RunEvents(cfg, c, a), b)
    decreases |a|
  {
    if a == [] {
      assert a + b == b;
    } else {
      assert (a + b)[1..] == a[1..] + b;
      EventsSplit(cfg, Step(cfg, c, a[0]), a[1..], b);
    }
  }

  /* ---------- Echo ---------- */

  /** EchoServer's message callback: take everything, send it back. */
  function EchoActions(input: seq<byte>, before: byte, reply: Reply): seq<Action> {
    [Consume(|input|), Send(input, before, reply)]
  }

  /** What the kernel does in one report on an echoing connection. */
  datatype EchoEvent = EchoEvent(revents: Mask, arrival: ReadResult, before: byte, echoReply: Reply, reply: Reply)

  function AsEvent(c: Conn, e: EchoEvent): Event {
    var input := c.input + (if e.arrival.Arrived? then e.arrival.bytes else []);
    Occurred(e.revents, e.arrival, EchoActions(input, e.before, e.echoReply), e.reply)
  }

  /** The echoed send is clean, and not given up: as the comment reads, the direct write does not fail
      with anything but EWOULDBLOCK; as written, it takes everything or nothing and does not fail. */
  predicate EchoTaken(cfg: Config, c: Conn, len: nat, reply: Reply) {
    CleanSend(cfg, c, len, reply) && !Refused(cfg, c, len, reply)
  }

  predicate NoFatalError(cfg: Config, c: Conn, e: EchoEvent) {
    var event := AsEvent(c, e);
    RunsMessageCallback(event) && AtCallback(c, event).state.Connected? ==>
      EchoTaken(cfg, AtCallback(c, event), |c.input + e.arrival.bytes|, e.echoReply)
  }

  function RunEcho(cfg: Config, c: Conn, events: seq<EchoEvent>): Conn
    decreases |events|
  {
    if events == [] then c else RunEcho(cfg, Step(cfg, c, AsEvent(c, events[0])), events[1..])
  }

  predicate EchoRun(cfg: Config, c: Conn, events: seq<EchoEvent>)
    decreases |events|
  {
    events == [] ||
    (&& Enabled(c, AsEvent(c, events[0])) && NoFatalError(cfg, c, events[0])
     && EchoRun(cfg, Step(cfg, c, AsEvent(c, events[0])), events[1..]))
  }

  /** While the connection is up: nothing is kept unread, and the bytes sent or waiting to be sent
      are the bytes received. */
  predicate Echoes(c: Conn) {
    && (c.state.Connected? || c.state.Disconnected?)
    && (c.state.Connected? ==> c.input == [] && c.wire + c.output == c.received)
  }

  lemma EchoCallback(cfg: Config, c: Conn, before: byte, reply: Reply)
    requires c.state.Connected? && c.wire + c.output + c.input == c.received
    requires EchoTaken(cfg, c, |c.input|, reply)
    ensures var r := Acts(cfg, c, EchoActions(c.input, before, reply));
            r.state.Connected? && r.input == [] && r.wire + r.output == r.received
  {
    var acts := EchoActions(c.input, before, reply);
    var c1 := Act(cfg, c, acts[0]);
    var c2 := Act(cfg, c1, acts[1]);
    assert acts[1..] == [acts[1]];
    assert Acts(cfg, c1, [acts[1]]) == Acts(cfg, c2, []);
    assert c1 == c.(input := []);
    var c3 := c1.(accepted := c1.wire + c1.output);
    SendConserves(cfg, c3, c.input, before, reply);
    var r3 := SendInLoop(cfg, c3, c.input, before, reply);
    assert c2.wire == r3.wire && c2.output == r3.output;
    assert r3.accepted == c3.accepted + c.input;
  }

  /** The callback of a connection that may have been closed just before. */
  lemma CallbackEchoes(cfg: Config, c: Conn, before: byte, reply: Reply)
    requires c.state.Connected? || c.state.Disconnected?
    requires c.state.Connected? ==> c.wire + c.output + c.input == c.received && EchoTaken(cfg, c, |c.input|, reply)
    ensures Echoes(Acts(cfg, c, EchoActions(c.input, before, reply)))
  {
    if c.state.Connected? {
      EchoCallback(cfg, c, before, reply);
    } else {
      DisconnectedEcho(cfg, c, EchoActions(c.input, before, reply));
    }
  }

  lemma WriteEchoes(cfg: Config, c: Conn, reply: Reply)
    requires Echoes(c)
    ensures Echoes(HandleWrite(cfg, c, reply))
  {
    WriteCounts(cfg, c, reply);
    WriteConserves(cfg, c.(accepted := c.wire + c.output), reply);
  }

  lemma StepEchoes(cfg: Config, c: Conn, e: EchoEvent)
    requires Echoes(c) && Coherent(c)
    requires Enabled(c, AsEvent(c, e)) && NoFatalError(cfg, c, e)
    ensures Echoes(Step(cfg, c, AsEvent(c, e)))
  {
    var event := AsEvent(c, e);
    var c1 := if e.revents.hup && !e.revents.in_ then HandleClose(c) else c;
    assert Echoes(c1) && c1.input == c.input;
    if RunsMessageCallback(event) {
      var at := AtCallback(c, event);
      assert c.state.Connected? ==> c.wire + c.output + (c.input + e.arrival.bytes) == c.received + e.arrival.bytes;
      CallbackEchoes(cfg, at, e.before, e.echoReply);
    }
    var c2 := if e.revents.Meets(READ_EVENT) then HandleRead(cfg, c1, e.arrival, event.actions) else c1;
    assert Echoes(c2);
    WriteEchoes(cfg, c2, e.reply);
  }

  lemma {:induction false} DisconnectedEcho(cfg: Config, c: Conn, actions: seq<Action>)
    requires c.state.Disconnected?
    ensures Acts(cfg, c, actions).state.Disconnected?
    decreases |actions|
  {
    if actions != [] {
      DisconnectedEcho(cfg, Act(cfg, c, actions[0]), actions[1..]);
    }
  }

  /** Over any run of an echoing connection with no fatal write error, for either reading. */
  lemma {:induction false} RunEchoes(cfg: Config, c: Conn, events: seq<EchoEvent>)
    requires Echoes(c) && Coherent(c) && EchoRun(cfg, c, events)
    ensures Echoes(RunEcho(cfg, c, events))
    decreases |events|
  {
    if events != [] {
      StepEchoes(cfg, c, events[0]);
      StepCoherent(cfg, c, AsEvent(c, events[0]));
      RunEchoes(cfg, Step(cfg, c, AsEvent(c, events[0])), events[1..]);
    }
  }

  /** From establishment on. */
  lemma EchoEndToEnd(cfg: Config, events: seq<EchoEvent>)
    requires EchoRun(cfg, ConnectEstablished(cfg, NEW_CONN, []), events)
    ensures var c := RunEcho(cfg, ConnectEstablished(cfg, NEW_CONN, []), events);
            c.state.Connected? ==> c.input == [] && c.wire + c.output == c.received
  {
    var c := ConnectEstablished(cfg, NEW_CONN, []);
    StepCoherent(cfg, NEW_CONN, Established([]));
    RunEchoes(cfg, c, events);
  }
}
