/** What every run of one connection keeps. */
module ConnectionRuns {
  import opened Registration
  import opened Buffers
  import opened Reactor
  import opened ConnectionModel

  /* ---------- Registration, output buffer and kernel table ---------- */

  /** Established, and neither closed nor destroyed. */
  predicate Live(c: Conn) {
    (c.state.Connected? || c.state.Disconnecting?) && !c.destroyed
  }

  predicate Coherent(c: Conn) {
    && Agrees(c.entry)
    && c.entry.failed == 0
    && (Live(c) ==> c.entry.index.Added? && c.entry.events.in_ && c.entry.events.pri)
    && (Live(c) ==> (c.output != [] <==> Writing(c)))
    && (c.state.Connecting? ==> c == NEW_CONN)
    && (c.state.Disconnecting? ==> (c.output != [] <==> Writing(c)))
    && (c.state.Connected? ==> !c.destroyed)
    && (c.state.Disconnected? ==> !Writing(c))
    && (c.destroyed ==> c.entry.index.New?)
  }

  /** Does this send run after connectDestroyed and yet ask for EPOLLOUT? It does if the connection
      is still shutting down, awaits no output, and the send has bytes to keep. */
  predicate Revives(cfg: Config, c: Conn, len: nat, reply: Reply) {
    var a := AttemptOf(cfg, len, reply);
    c.destroyed && c.state.Disconnecting? && !Writing(c) && !a.fault && a.remaining > 0
  }

  lemma SendCoherentIff(cfg: Config, c: Conn, data: seq<byte>, before: byte, reply: Reply)
    requires Coherent(c) && !c.state.Connecting?
    ensures Coherent(SendInLoop(cfg, c, data, before, reply)) <==> !Revives(cfg, c, |data|, reply)
  {
  }

  lemma ActCoherent(cfg: Config, c: Conn, action: Action)
    requires Coherent(c) && !c.state.Connecting?
    ensures var r := Act(cfg, c, action);
            Coherent(r) && !r.state.Connecting? && r.destroyed == c.destroyed
  {
    if action.Send? && c.state.Connected? {
      SendCoherentIff(cfg, c, action.data, action.before, action.reply);
    }
  }

  lemma {:induction false} ActsCoherent(cfg: Config, c: Conn, actions: seq<Action>)
    requires Coherent(c) && !c.state.Connecting?
    ensures var r := Acts(cfg, c, actions);
            Coherent(r) && !r.state.Connecting? && r.destroyed == c.destroyed
    decreases |actions|
  {
    if actions != [] {
      ActCoherent(cfg, c, actions[0]);
      ActsCoherent(cfg, Act(cfg, c, actions[0]), actions[1..]);
    }
  }

  /** Callbacks change nothing of a connection that has not been established. */
  lemma {:induction false} ActsBeforeEstablished(cfg: Config, actions: seq<Action>)
    ensures Acts(cfg, NEW_CONN, actions) == NEW_CONN
    decreases |actions|
  {
    if actions != [] {
      assert Act(cfg, NEW_CONN, actions[0]) == NEW_CONN;
      ActsBeforeEstablished(cfg, actions[1..]);
    }
  }

  /** The connection as the message callback finds it. */
  function AtCallback(c: Conn, event: Event): Conn
    requires event.Established? || event.UserCode? || (event.Occurred? && event.arrival.Arrived?)
  {
    match event
    case Established(_) => c.(state := Connected, entry := Apply(c.entry, ReadOn), ups := c.ups + 1)
    case UserCode(_) => c
    case Occurred(revents, arrival, _, _) =>
      var c1 := if revents.hup && !revents.in_ then HandleClose(c) else c;
      c1.(input := c1.input + arrival.bytes, received := c1.received + arrival.bytes)
  }

  /** Does this event run the message callback? */
  predicate RunsMessageCallback(event: Event) {
    event.Occurred? && event.revents.Meets(READ_EVENT) && event.arrival.Arrived? && event.arrival.bytes != []
  }

  lemma CloseCoherent(c: Conn)
    requires Coherent(c) && !c.state.Connecting? && !c.destroyed
    ensures Coherent(HandleClose(c))
  {
    ApplyAgrees(c.entry, AllOff);
  }

  lemma WriteCoherent(cfg: Config, c: Conn, reply: Reply)
    requires Coherent(c) && !c.state.Connecting? && !c.destroyed
    ensures Coherent(HandleWrite(cfg, c, reply))
  {
    ApplyAgrees(c.entry, WriteOff);
  }

  lemma OccurredCoherent(cfg: Config, c: Conn, event: Event)
    requires Coherent(c) && event.Occurred? && Enabled(c, event)
    ensures Coherent(Step(cfg, c, event))
  {
    var c1 := if event.revents.hup && !event.revents.in_ then HandleClose(c) else c;
    CloseCoherent(c);
    CloseCoherent(c1);
    if RunsMessageCallback(event) {
      ActsCoherent(cfg, AtCallback(c, event), event.actions);
    }
    var c2 := if event.revents.Meets(READ_EVENT) then HandleRead(cfg, c1, event.arrival, event.actions) else c1;
    WriteCoherent(cfg, c2, event.reply);
  }

  predicate RevivingEvent(cfg: Config, c: Conn, event: Event) {
    event.QueuedSend? && Revives(cfg, c, |event.data|, event.reply)
  }

  /** Of all events there are, exactly a send that revives a destroyed connection breaks coherence. */
  lemma StepCoherent(cfg: Config, c: Conn, event: Event)
    requires Coherent(c) && Enabled(c, event)
    ensures Coherent(Step(cfg, c, event)) <==> !RevivingEvent(cfg, c, event)
  {
    match event
    case Established(actions) =>
      ActsCoherent(cfg, AtCallback(c, event), actions);
    case UserCode(actions) =>
      if c.state.Connecting? {
        ActsBeforeEstablished(cfg, actions);
      } else {
        ActsCoherent(cfg, c, actions);
      }
    case QueuedSend(data, before, reply) =>
      SendCoherentIff(cfg, c, data, before, reply);
    case Occurred(_, _, _, _) =>
      OccurredCoherent(cfg, c, event);
    case _ =>
  }

  predicate NoRevivals(cfg: Config, c: Conn, events: seq<Event>)
    decreases |events|
  {
    events == [] || (!RevivingEvent(cfg, c, events[0]) && NoRevivals(cfg, Step(cfg, c, events[0]), events[1..]))
  }

  lemma {:induction false} RunCoherent(cfg: Config, c: Conn, events: seq<Event>)
    requires Coherent(c) && EnabledRun(cfg, c, events) && NoRevivals(cfg, c, events)
    ensures Coherent(RunEvents(cfg, c, events))
    decreases |events|
  {
    if events != [] {
      StepCoherent(cfg, c, events[0]);
      RunCoherent(cfg, Step(cfg, c, events[0]), events[1..]);
    }
  }

  /** The Filed is in the Epoller's map or in the kernel's table. */
  predicate InTables(c: Conn) {
    c.entry.mapped || c.entry.kernel.Some?
  }

  /** In every state of the run, its last included, a destroyed connection is in neither table. */
  predicate AlwaysGone(cfg: Config, c: Conn, events: seq<Event>)
    decreases |events|
  {
    (c.destroyed ==> !InTables(c)) && (events == [] || AlwaysGone(cfg, Step(cfg, c, events[0]), events[1..]))
  }

  /** Over any run, connectDestroyed is final exactly if no send revives the connection. */
  lemma {:induction false} RunGoneIff(cfg: Config, c: Conn, events: seq<Event>)
    requires Coherent(c) && EnabledRun(cfg, c, events)
    ensures AlwaysGone(cfg, c, events) <==> NoRevivals(cfg, c, events)
    decreases |events|
  {
    if events != [] {
      var c1 := Step(cfg, c, events[0]);
      StepCoherent(cfg, c, events[0]);
      if RevivingEvent(cfg, c, events[0]) {
        assert c1.destroyed && InTables(c1);
        assert !AlwaysGone(cfg, c1, events[1..]);
      } else {
        RunGoneIff(cfg, c1, events[1..]);
      }
    }
  }

  /** What even a revived connection keeps. */
  predicate Standing(c: Conn) {
    && Agrees(c.entry) && c.entry.failed == 0
    && (!c.destroyed ==> Coherent(c))
    && (c.destroyed ==> !c.state.Connecting? && !c.state.Connected?)
    && (c.state.Disconnected? ==> !Writing(c))
  }

  /** User code can do nothing with a connection that is not up. */
  lemma {:induction false} ActsWhenNotUp(cfg: Config, c: Conn, actions: seq<Action>)
    requires !c.state.Connected?
    ensures Acts(cfg, c, actions) == c.(input := Acts(cfg, c, actions).input)
    decreases |actions|
  {
    if actions != [] {
      ActsWhenNotUp(cfg, Act(cfg, c, actions[0]), actions[1..]);
    }
  }

  lemma CloseStanding(c: Conn)
    requires Standing(c) && c.destroyed
    ensures Standing(HandleClose(c))
  {
    ApplyAgrees(c.entry, AllOff);
  }

  lemma ReadStanding(cfg: Config, c: Conn, arrival: ReadResult, actions: seq<Action>)
    requires Standing(c) && c.destroyed
    ensures Standing(HandleRead(cfg, c, arrival, actions)) && HandleRead(cfg, c, arrival, actions).destroyed
  {
    CloseStanding(c);
    if arrival.Arrived? {
      ActsWhenNotUp(cfg, c.(input := c.input + arrival.bytes, received := c.received + arrival.bytes), actions);
    }
  }

  lemma WriteStanding(cfg: Config, c: Conn, reply: Reply)
    requires Standing(c) && c.destroyed
    ensures Standing(HandleWrite(cfg, c, reply))
  {
    ApplyAgrees(c.entry, WriteOff);
  }

  lemma SendStanding(cfg: Config, c: Conn, data: seq<byte>, before: byte, reply: Reply)
    requires Standing(c) && c.destroyed
    ensures Standing(SendInLoop(cfg, c, data, before, reply))
  {
    ApplyAgrees(c.entry, WriteOn);
  }

  lemma DestroyedStepStanding(cfg: Config, c: Conn, event: Event)
    requires Standing(c) && c.destroyed && Enabled(c, event)
    ensures Standing(Step(cfg, c, event)) && Step(cfg, c, event).destroyed
  {
    match event
    case UserCode(actions) => ActsWhenNotUp(cfg, c, actions);
    case QueuedSend(data, before, reply) => SendStanding(cfg, c, data, before, reply);
    case Occurred(revents, arrival, actions, reply) =>
      var c1 := if revents.hup && !revents.in_ then HandleClose(c) else c;
      CloseStanding(c);
      var c2 := if revents.Meets(READ_EVENT) then HandleRead(cfg, c1, arrival, actions) else c1;
      ReadStanding(cfg, c1, arrival, actions);
      WriteStanding(cfg, c2, reply);
    case Destroyed => ApplyAgrees(c.entry, Removal);
    case _ =>
  }

  lemma StepStanding(cfg: Config, c: Conn, event: Event)
    requires Standing(c) && Enabled(c, event)
    ensures Standing(Step(cfg, c, event))
  {
    if c.destroyed {
      DestroyedStepStanding(cfg, c, event);
    } else {
      StepCoherent(cfg, c, event);
    }
  }

  lemma {:induction false} RunStanding(cfg: Config, c: Conn, events: seq<Event>)
    requires Standing(c) && EnabledRun(cfg, c, events)
    ensures Standing(RunEvents(cfg, c, events))
    decreases |events|
  {
    if events != [] {
      StepStanding(cfg, c, events[0]);
      RunStanding(cfg, Step(cfg, c, events[0]), events[1..]);
    }
  }

  /** In every state any run reaches, while the connection is established and neither closed nor
      destroyed: bytes wait in the output buffer exactly when the Filed asks for EPOLLOUT, and
      exactly when the kernel's table holds EPOLLOUT for the descriptor. And the kernel never rejects
      a registration call, and never holds another mask than the Filed's. */
  lemma ThreeLayersAgree(cfg: Config, events: seq<Event>)
    requires EnabledRun(cfg, NEW_CONN, events)
    ensures var c := RunEvents(cfg, NEW_CONN, events);
            && c.entry.failed == 0 && (c.entry.kernel.Some? ==> c.entry.kernel.value == c.entry.events)
            && (Live(c) ==>
              && (c.output != [] <==> Writing(c))
              && (Writing(c) <==> c.entry.kernel.Some? && c.entry.kernel.value.out)
              && c.entry.kernel.Some? && c.entry.kernel.value.in_ && c.entry.kernel.value.pri)
  {
    RunStanding(cfg, NEW_CONN, events);
  }

  /* ---------- Byte-stream conservation ---------- */

  /** Bytes on the wire, then bytes waiting, are the bytes accepted. */
  predicate Conserves(c: Conn) {
    c.wire + c.output == c.accepted
  }

  /** The sends the source handles as its comments promise: with the braces as written, a direct
      attempt must take everything or nothing, and must not fail. */
  predicate CleanSend(cfg: Config, c: Conn, len: nat, reply: Reply) {
    cfg.branch.Intended? || c.state.Disconnected? || !Attempts(c)
    || len == 0 || Wrote(reply, len) == 0 || Wrote(reply, len) == len
  }

  predicate CleanAct(cfg: Config, c: Conn, action: Action) {
    action.Send? && c.state.Connected? ==> CleanSend(cfg, c, |action.data|, action.reply)
  }

  predicate CleanActs(cfg: Config, c: Conn, actions: seq<Action>)
    decreases |actions|
  {
    actions == [] || (CleanAct(cfg, c, actions[0]) && CleanActs(cfg, Act(cfg, c, actions[0]), actions[1..]))
  }

  predicate CleanEvent(cfg: Config, c: Conn, event: Event) {
    match event
    case Established(actions) => CleanActs(cfg, AtCallback(c, event), actions)
    case UserCode(actions) => CleanActs(cfg, c, actions)
    case QueuedSend(data, _, reply) => CleanSend(cfg, c, |data|, reply)
    case Occurred(_, _, actions, _) =>
      RunsMessageCallback(event) ==> CleanActs(cfg, AtCallback(c, event), actions)
    case _ => true
  }

  predicate CleanRun(cfg: Config, c: Conn, events: seq<Event>)
    decreases |events|
  {
    events == [] || (CleanEvent(cfg, c, events[0]) && CleanRun(cfg, Step(cfg, c, events[0]), events[1..]))
  }

  lemma DirectSomeTaken(cfg: Config, c: Conn, data: seq<byte>, before: byte, reply: Reply)
    requires CleanSend(cfg, c, |data|, reply) && !c.state.Disconnected? && Attempts(c) && Wrote(reply, |data|) > 0
    ensures var n := Wrote(reply, |data|);
            var r := SendInLoop(cfg, c, data, before, reply);
            r.accepted == c.accepted + data && r.wire == c.wire + data[..n] && r.output == data[n..]
  {
  }

  lemma DirectNoneTaken(cfg: Config, c: Conn, data: seq<byte>, before: byte, reply: Reply)
    requires CleanSend(cfg, c, |data|, reply) && !c.state.Disconnected? && Attempts(c) && Wrote(reply, |data|) <= 0
    ensures var r := SendInLoop(cfg, c, data, before, reply);
            && r.wire == c.wire
            && ((r.accepted == c.accepted + data && r.output == data) || (r.accepted == c.accepted && r.output == []))
  {
    assert [] + data == data;
    assert data == [] ==> c.accepted + data == c.accepted;
  }

  lemma DirectSendConserves(cfg: Config, c: Conn, data: seq<byte>, before: byte, reply: Reply)
    requires Conserves(c) && CleanSend(cfg, c, |data|, reply) && !c.state.Disconnected? && Attempts(c)
    ensures Conserves(SendInLoop(cfg, c, data, before, reply))
  {
    var n := Wrote(reply, |data|);
    assert c.wire == c.accepted;
    if n > 0 {
      DirectSomeTaken(cfg, c, data, before, reply);
      assert data == data[..n] + data[n..];
      assert (c.wire + data[..n]) + data[n..] == c.wire + (data[..n] + data[n..]);
    } else {
      DirectNoneTaken(cfg, c, data, before, reply);
    }
  }

  lemma SendConserves(cfg: Config, c: Conn, data: seq<byte>, before: byte, reply: Reply)
    requires Conserves(c) && CleanSend(cfg, c, |data|, reply)
    ensures Conserves(SendInLoop(cfg, c, data, before, reply))
  {
    if !c.state.Disconnected? {
      if Attempts(c) {
        DirectSendConserves(cfg, c, data, before, reply);
      } else {
        assert c.wire + (c.output + data) == (c.wire + c.output) + data;
      }
    }
  }

  lemma {:induction false} ActsConserve(cfg: Config, c: Conn, actions: seq<Action>)
    requires Conserves(c) && CleanActs(cfg, c, actions)
    ensures Conserves(Acts(cfg, c, actions))
    decreases |actions|
  {
    if actions != [] {
      var a := actions[0];
      if a.Send? && c.state.Connected? {
        SendConserves(cfg, c, a.data, a.before, a.reply);
      }
      ActsConserve(cfg, Act(cfg, c, a), actions[1..]);
    }
  }

  lemma WriteConserves(cfg: Config, c: Conn, reply: Reply)
    requires Conserves(c)
    ensures Conserves(HandleWrite(cfg, c, reply))
  {
    var n := Wrote(reply, |c.output|);
    if Writing(c) && n > 0 {
      assert c.output == c.output[..n] + c.output[n..];
      assert (c.wire + c.output[..n]) + c.output[n..] == c.accepted;
    }
  }

  lemma StepConserves(cfg: Config, c: Conn, event: Event)
    requires Conserves(c) && CleanEvent(cfg, c, event)
    ensures Conserves(Step(cfg, c, event))
  {
    match event
    case Established(actions) =>
      ActsConserve(cfg, AtCallback(c, event), actions);
    case UserCode(actions) =>
      ActsConserve(cfg, c, actions);
    case QueuedSend(data, before, reply) =>
      SendConserves(cfg, c, data, before, reply);
    case Occurred(revents, arrival, actions, reply) =>
      var c1 := if revents.hup && !revents.in_ then HandleClose(c) else c;
      if RunsMessageCallback(event) {
        ActsConserve(cfg, AtCallback(c, event), actions);
      }
      var c2 := if revents.Meets(READ_EVENT) then HandleRead(cfg, c1, arrival, actions) else c1;
      WriteConserves(cfg, c2, reply);
    case _ =>
  }

  /** Over any run whose sends are clean, nothing accepted is lost, repeated or reordered. */
  lemma {:induction false} RunConserves(cfg: Config, c: Conn, events: seq<Event>)
    requires Conserves(c) && CleanRun(cfg, c, events)
    ensures Conserves(RunEvents(cfg, c, events))
    decreases |events|
  {
    if events != [] {
      StepConserves(cfg, c, events[0]);
      RunConserves(cfg, Step(cfg, c, events[0]), events[1..]);
    }
  }

  lemma {:induction false} IntendedActsAreClean(cfg: Config, c: Conn, actions: seq<Action>)
    requires cfg.branch.Intended?
    ensures CleanActs(cfg, c, actions)
    decreases |actions|
  {
    if actions != [] {
      IntendedActsAreClean(cfg, Act(cfg, c, actions[0]), actions[1..]);
    }
  }

  lemma {:induction false} IntendedRunsAreClean(cfg: Config, c: Conn, events: seq<Event>)
    requires cfg.branch.Intended?
    ensures CleanRun(cfg, c, events)
    decreases |events|
  {
    if events != [] {
      match events[0] {
        case Established(actions) => IntendedActsAreClean(cfg, AtCallback(c, events[0]), actions);
        case UserCode(actions) => IntendedActsAreClean(cfg, c, actions);
        case Occurred(_, _, actions, _) =>
          if RunsMessageCallback(events[0]) {
            IntendedActsAreClean(cfg, AtCallback(c, events[0]), actions);
          }
        case _ =>
      }
      IntendedRunsAreClean(cfg, Step(cfg, c, events[0]), events[1..]);
    }
  }

  /** With the branch as its comment reads, conservation holds over every run. */
  lemma IntendedRunConserves(cfg: Config, events: seq<Event>)
    requires cfg.branch.Intended?
    ensures Conserves(RunEvents(cfg, NEW_CONN, events))
  {
    IntendedRunsAreClean(cfg, NEW_CONN, events);
    RunConserves(cfg, NEW_CONN, events);
  }

  /** Does this send deliver exactly its data: on the wire or waiting, whole and in order? */
  predicate Delivers(cfg: Config, c: Conn, data: seq<byte>, before: byte, reply: Reply) {
    var r := SendInLoop(cfg, c, data, before, reply);
    r.wire + r.output == c.wire + c.output + data
  }

  ghost predicate DeliversAny(cfg: Config, c: Conn, len: nat, reply: Reply) {
    forall data: seq<byte>, before: byte :: |data| == len ==> Delivers(cfg, c, data, before, reply)
  }

  /** As written, sendinLoop delivers whatever data it is given, for a given length and kernel
      answer, exactly when the send is clean. */
  lemma AsWrittenDeliversIff(cfg: Config, c: Conn, len: nat, reply: Reply)
    requires cfg.branch.AsWritten? && !c.state.Disconnected?
    ensures DeliversAny(cfg, c, len, reply) <==> CleanSend(cfg, c, len, reply)
  {
    if CleanSend(cfg, c, len, reply) {
      forall data: seq<byte>, before: byte | |data| == len
        ensures Delivers(cfg, c, data, before, reply)
      {
        CleanSendDelivers(cfg, c, data, before, reply);
      }
    } else {
      var data: seq<byte> := seq(len, i => if i == len - 1 then 1 else 0);
      UncleanSendFails(cfg, c, data, 2, reply);
      assert !Delivers(cfg, c, data, 2, reply);
    }
  }

  /** As intended, sendinLoop delivers, unless the direct write fails or takes nothing for another
      reason than EWOULDBLOCK; then it gives up all of the data. */
  lemma IntendedDeliversIff(cfg: Config, c: Conn, len: nat, reply: Reply)
    requires cfg.branch.Intended? && !c.state.Disconnected?
    ensures var fails := !c.entry.events.out && c.output == [] && (len == 0 || reply.room <= 0) && !reply.wouldBlock;
            DeliversAny(cfg, c, len, reply) <==> len == 0 || !fails
  {
    forall data: seq<byte>, before: byte | |data| == len
      ensures Delivers(cfg, c, data, before, reply) <==> len == 0 || !Refused(cfg, c, len, reply)
    {
      IntendedSendDelivers(cfg, c, data, before, reply);
    }
    var some: seq<byte> := seq(len, _ => 0);
    assert DeliversAny(cfg, c, len, reply) ==> Delivers(cfg, c, some, 0, reply);
  }

  lemma IntendedSendDelivers(cfg: Config, c: Conn, data: seq<byte>, before: byte, reply: Reply)
    requires cfg.branch.Intended? && !c.state.Disconnected?
    ensures Delivers(cfg, c, data, before, reply) <==> data == [] || !Refused(cfg, c, |data|, reply)
  {
    var c1 := c.(accepted := c.wire + c.output);
    SendConserves(cfg, c1, data, before, reply);
    var r, r1 := SendInLoop(cfg, c, data, before, reply), SendInLoop(cfg, c1, data, before, reply);
    assert r.wire == r1.wire && r.output == r1.output;
    assert |r1.wire| + |r1.output| == |r1.accepted|;
  }

  /** A caller who cannot know the kernel's answer is safe exactly when there is no direct write to
      answer, or nothing to write. */
  lemma AsWrittenAlwaysDeliversIff(cfg: Config, c: Conn, len: nat)
    requires cfg.branch.AsWritten? && !c.state.Disconnected?
    ensures (forall reply :: DeliversAny(cfg, c, len, reply)) <==> !Attempts(c) || len == 0
  {
    AsWrittenDeliversIff(cfg, c, len, Reply(-1, true));
    if !Attempts(c) || len == 0 {
      forall reply
        ensures DeliversAny(cfg, c, len, reply)
      {
        AsWrittenDeliversIff(cfg, c, len, reply);
      }
    }
  }

  lemma CleanSendDelivers(cfg: Config, c: Conn, data: seq<byte>, before: byte, reply: Reply)
    requires cfg.branch.AsWritten? && !c.state.Disconnected? && CleanSend(cfg, c, |data|, reply)
    ensures Delivers(cfg, c, data, before, reply)
  {
    var c1 := c.(accepted := c.wire + c.output);
    SendConserves(cfg, c1, data, before, reply);
    var r, r1 := SendInLoop(cfg, c, data, before, reply), SendInLoop(cfg, c1, data, before, reply);
    assert r.wire == r1.wire && r.output == r1.output && r1.accepted == c1.accepted + data;
  }

  lemma UncleanSendFails(cfg: Config, c: Conn, data: seq<byte>, before: byte, reply: Reply)
    requires cfg.branch.AsWritten? && !c.state.Disconnected? && !CleanSend(cfg, c, |data|, reply)
    requires forall i :: 0 <= i < |data| ==> data[i] == if i == |data| - 1 then 1 else 0
    requires before == 2
    ensures !Delivers(cfg, c, data, before, reply)
  {
    if Wrote(reply, |data|) < 0 {
      FailedWriteFails(cfg, c, data, before, reply);
    } else {
      PartialWriteFails(cfg, c, data, before, reply);
    }
  }

  /** A failed write puts the byte before the data in front of it, and drops the last. */
  lemma FailedWriteFails(cfg: Config, c: Conn, data: seq<byte>, before: byte, reply: Reply)
    requires cfg.branch.AsWritten? && !c.state.Disconnected? && Attempts(c)
    requires data != [] && Wrote(reply, |data|) < 0 && data[0] != before
    ensures !Delivers(cfg, c, data, before, reply)
  {
    var r := SendInLoop(cfg, c, data, before, reply);
    assert r.output == [before] + data[..|data| - 1];
    assert (r.wire + r.output)[|c.wire|] == before;
    assert (c.wire + c.output + data)[|c.wire|] == data[0];
  }

  /** After a partial write the rest is dropped, or the first bytes are queued in its place. */
  lemma PartialWriteFails(cfg: Config, c: Conn, data: seq<byte>, before: byte, reply: Reply)
    requires cfg.branch.AsWritten? && !c.state.Disconnected? && Attempts(c)
    requires 0 < Wrote(reply, |data|) < |data|
    requires forall i :: 0 <= i < |data| - 1 ==> data[i] != data[|data| - 1]
    ensures !Delivers(cfg, c, data, before, reply)
  {
    PartialWriteResult(cfg, c, data, before, reply);
    PartialDiffers(c.wire, data, Wrote(reply, |data|), reply.wouldBlock);
    assert c.wire + c.output == c.wire;
  }

  /** Neither the first part alone nor that part and the first bytes again make up the data. */
  lemma PartialDiffers(wire: seq<byte>, data: seq<byte>, n: nat, again: bool)
    requires 0 < n < |data|
    requires forall i :: 0 <= i < |data| - 1 ==> data[i] != data[|data| - 1]
    ensures wire + data[..n] + (if again then data[..|data| - n] else []) != wire + data
  {
    if again {
      var other := wire + data[..n] + data[..|data| - n];
      assert other[|wire| + |data| - 1] == data[|data| - n - 1];
      assert (wire + data)[|wire| + |data| - 1] == data[|data| - 1];
    } else {
      assert |wire + data[..n] + []| < |wire + data|;
    }
  }

  lemma PartialWriteResult(cfg: Config, c: Conn, data: seq<byte>, before: byte, reply: Reply)
    requires cfg.branch.AsWritten? && !c.state.Disconnected? && Attempts(c)
    requires 0 < Wrote(reply, |data|) < |data|
    ensures var n := Wrote(reply, |data|);
            var r := SendInLoop(cfg, c, data, before, reply);
            r.wire == c.wire + data[..n] && r.output == if reply.wouldBlock then data[..|data| - n] else []
  {
  }

  /* ---------- High-water signals ---------- */

  /** The sizes reported by the high-water signals among the queued functors. */
  function SignalSizes(queued: seq<Functor>): seq<nat> {
    if queued == [] then [] else
      var f := queued[|queued| - 1];
      SignalSizes(queued[..|queued| - 1]) + (if f.HighWaterMark? then [f.size] else [])
  }

  /** The levels reached by going from below the mark to at or above it. */
  function UpCrossings(levels: seq<nat>, mark: nat): seq<nat> {
    if |levels| < 2 then [] else
      var from, to := levels[|levels| - 2], levels[|levels| - 1];
      UpCrossings(levels[..|levels| - 1], mark) + (if from < mark <= to then [to] else [])
  }

  /** The signals queued so far are exactly the upward crossings of the output level, in order. */
  predicate SignalsMatch(cfg: Config, c: Conn) {
    TraceMatches(cfg, c.queued, c.levels, |c.output|)
  }

  predicate TraceMatches(cfg: Config, queued: seq<Functor>, levels: seq<nat>, level: nat) {
    && |levels| > 0
    && levels[|levels| - 1] == level
    && SignalSizes(queued) == if cfg.onHighWater then UpCrossings(levels, cfg.mark) else []
  }

  lemma QueueOne(cfg: Config, queued: seq<Functor>, levels: seq<nat>, level: nat, b: bool, f: Functor)
    requires TraceMatches(cfg, queued, levels, level) && !f.HighWaterMark?
    ensures TraceMatches(cfg, QueuedIf(b, queued, f), levels, level)
  {
    assert (queued + [f])[..|queued|] == queued;
  }

  /** The level moves; a signal is queued just when it crosses the mark upwards. */
  lemma MoveLevel(cfg: Config, queued: seq<Functor>, levels: seq<nat>, level: nat, to: nat)
    requires TraceMatches(cfg, queued, levels, level)
    ensures TraceMatches(cfg, QueuedIf(Signals(cfg, level, to), queued, HighWaterMark(cfg.fd, to)),
                         levels + [to], to)
  {
    assert (queued + [HighWaterMark(cfg.fd, to)])[..|queued|] == queued;
    assert (levels + [to])[..|levels|] == levels;
  }

  lemma QueueOutputSignals(cfg: Config, c: Conn, bytes: seq<byte>)
    requires SignalsMatch(cfg, c)
    ensures SignalsMatch(cfg, QueueOutput(cfg, c, bytes))
  {
    var to := |c.output| + |bytes|;
    MoveLevel(cfg, c.queued, c.levels, |c.output|, to);
    var r := QueueOutput(cfg, c, bytes);
    assert r.queued == QueuedIf(Signals(cfg, |c.output|, to), c.queued, HighWaterMark(cfg.fd, to));
    assert r.levels == c.levels + [to] && |r.output| == to;
  }

  lemma SendSignals(cfg: Config, c: Conn, data: seq<byte>, before: byte, reply: Reply)
    requires SignalsMatch(cfg, c)
    ensures SignalsMatch(cfg, SendInLoop(cfg, c, data, before, reply))
  {
    if !c.state.Disconnected? {
      var c1 := c.(accepted := Accepted(cfg, c, data, reply));
      if Attempts(c) {
        var a := AttemptOf(cfg, |data|, reply);
        QueueOne(cfg, c.queued, c.levels, |c.output|, a.completes, WriteComplete(cfg.fd));
        QueueOutputSignals(cfg, AfterAttempt(cfg, c1, data, reply), Memory(before, data, a.offset, a.remaining));
      } else {
        QueueOutputSignals(cfg, c1, data);
      }
    }
  }

  lemma {:induction false} ActsSignal(cfg: Config, c: Conn, actions: seq<Action>)
    requires SignalsMatch(cfg, c)
    ensures SignalsMatch(cfg, Acts(cfg, c, actions))
    decreases |actions|
  {
    if actions != [] {
      var a := actions[0];
      if a.Send? {
        SendSignals(cfg, c, a.data, a.before, a.reply);
      }
      ActsSignal(cfg, Act(cfg, c, a), actions[1..]);
    }
  }

  lemma WriteFields(cfg: Config, c: Conn, reply: Reply)
    requires Writing(c) && Wrote(reply, |c.output|) > 0
    ensures var n := Wrote(reply, |c.output|);
            var r := HandleWrite(cfg, c, reply);
            && r.levels == c.levels + [|c.output| - n] && |r.output| == |c.output| - n
            && r.queued == QueuedIf(n == |c.output| && cfg.onWriteComplete, c.queued, WriteComplete(cfg.fd))
  {
  }

  lemma WriteSignals(cfg: Config, c: Conn, reply: Reply)
    requires SignalsMatch(cfg, c)
    ensures SignalsMatch(cfg, HandleWrite(cfg, c, reply))
  {
    var n := Wrote(reply, |c.output|);
    if Writing(c) && n > 0 {
      var level := |c.output| - n;
      WriteFields(cfg, c, reply);
      MoveLevel(cfg, c.queued, c.levels, |c.output|, level);
      assert QueuedIf(Signals(cfg, |c.output|, level), c.queued, HighWaterMark(cfg.fd, level)) == c.queued;
      QueueOne(cfg, c.queued, c.levels + [level], level, n == |c.output| && cfg.onWriteComplete, WriteComplete(cfg.fd));
    }
  }

  lemma StepSignals(cfg: Config, c: Conn, event: Event)
    requires SignalsMatch(cfg, c)
    ensures SignalsMatch(cfg, Step(cfg, c, event))
  {
    match event
    case Established(actions) =>
      ActsSignal(cfg, AtCallback(c, event), actions);
    case UserCode(actions) =>
      ActsSignal(cfg, c, actions);
    case QueuedSend(data, before, reply) =>
      SendSignals(cfg, c, data, before, reply);
    case Occurred(revents, arrival, actions, reply) =>
      var c1 := if revents.hup && !revents.in_ then HandleClose(c) else c;
      if RunsMessageCallback(event) {
        ActsSignal(cfg, AtCallback(c, event), actions);
      }
      var c2 := if revents.Meets(READ_EVENT) then HandleRead(cfg, c1, arrival, actions) else c1;
      WriteSignals(cfg, c2, reply);
    case SendCalled(data) =>
      QueueOne(cfg, c.queued, c.levels, |c.output|, c.state.Connected?, LateSend(cfg.fd, data));
    case ShutdownCalled =>
      QueueOne(cfg, c.queued, c.levels, |c.output|, c.state.Connected?, LateShutdown(cfg.fd));
    case _ =>
  }

  /** Over any run, for either branch: one signal for each upward crossing of the mark, reporting
      the level it reached, and no other. */
  lemma {:induction false} RunSignals(cfg: Config, c: Conn, events: seq<Event>)
    requires SignalsMatch(cfg, c)
    ensures SignalsMatch(cfg, RunEvents(cfg, c, events))
    decreases |events|
  {
    if events != [] {
      StepSignals(cfg, c, events[0]);
      RunSignals(cfg, Step(cfg, c, events[0]), events[1..]);
    }
  }
}
