/** Connection.cpp: one TCP connection, with its Filed, its two buffers and the loop it lives on. */
module Connections {
  import opened Registration
  import opened Buffers
  import opened Reactor
  import opened ConnectionModel

  /** What a connection adds to its own list of queued functors it has queued on its loop, one after
      the other and as the loop's own thread. */
  predicate Extends(queued: seq<Functor>, v: LoopState, queued': seq<Functor>, v': LoopState) {
    queued <= queued' && v' == QueueAll(v, queued'[|queued|..])
  }

  lemma ExtendsTwice(q0: seq<Functor>, v0: LoopState, q1: seq<Functor>, v1: LoopState,
                     q2: seq<Functor>, v2: LoopState)
    requires Extends(q0, v0, q1, v1) && Extends(q1, v1, q2, v2)
    ensures Extends(q0, v0, q2, v2)
  {
    assert q2[|q0|..] == q1[|q0|..] + q2[|q1|..];
    QueueAllSplit(v0, q1[|q0|..], q2[|q1|..]);
  }

  lemma ExtendsByOne(q: seq<Functor>, v: LoopState, f: Functor)
    ensures Extends(q, v, q + [f], QueueOne(v, f, true))
  {
    assert (q + [f])[|q|..] == [f] && [f][1..] == [];
    assert QueueAll(QueueOne(v, f, true), []) == QueueOne(v, f, true);
  }

  class Connection {
    const cfg: Config
    const loop: EventLoop
    const filed: Filed
    const inputBuffer: Buffer
    const outputBuffer: Buffer
    var state: State
    /** This connection as the state machine of module ConnectionModel sees it. */
    ghost var model: Conn

    ghost function Repr(): set<object>
      reads this, inputBuffer, outputBuffer
    {
      {this, filed, loop, loop.epoller, inputBuffer, inputBuffer.data, outputBuffer, outputBuffer.data}
    }

    ghost predicate Valid()
      reads Repr(), loop.epoller.known
    {
      && filed.loop == loop && filed.fd == cfg.fd
      && filed.Watched()
      && inputBuffer != outputBuffer && inputBuffer.data != outputBuffer.data
      && inputBuffer.Valid() && outputBuffer.Valid()
      && model.state == state
      && model.entry == filed.Entry()
      && model.input == inputBuffer.Contents()
      && model.output == outputBuffer.Contents()
    }

    /** No other Filed of the loop was touched, and each buffer keeps its array or has a new one. */
    twostate predicate Kept()
      reads this, loop, loop.epoller, inputBuffer, outputBuffer
    {
      && (inputBuffer.data == old(inputBuffer.data) || fresh(inputBuffer.data))
      && (outputBuffer.data == old(outputBuffer.data) || fresh(outputBuffer.data))
      && loop.epoller.OthersKept(filed)
    }

    /** Also, the functors this connection has queued went to the end of the loop's queue, in order, and
        woke the loop only if it was running functors. */
    twostate predicate OnlyMine()
      reads this, loop, loop.epoller, inputBuffer, outputBuffer
    {
      Kept() && Extends(old(model.queued), old(loop.View()), model.queued, loop.View())
    }

    constructor (cfg: Config, loop: EventLoop)
      requires loop.epoller.Valid()
      requires forall f :: f in loop.epoller.known ==> f.fd != cfg.fd
      modifies loop.epoller`known
      ensures Valid() && this.cfg == cfg && this.loop == loop
      ensures model == NEW_CONN && inputBuffer.data.Length == 8 + 1024 && outputBuffer.data.Length == 8 + 1024
      ensures fresh(filed) && loop.epoller.known == old(loop.epoller.known) + {filed}
    {
      this.cfg, this.loop := cfg, loop;
      filed := new Filed(loop, cfg.fd);
      inputBuffer := new Buffer(INITIAL_SIZE);
      outputBuffer := new Buffer(INITIAL_SIZE);
      state := Connecting;
      model := NEW_CONN;
      new;
      loop.epoller.Adopt(filed);
    }

    /* ---------- Single effects ---------- */

    /** Keep the model's logs and counters; the concrete state does not change. */
    ghost method Note(m: Conn)
      requires Valid()
      requires m.state == model.state && m.entry == model.entry && m.queued == model.queued
      requires m.input == model.input && m.output == model.output
      modifies this`model
      ensures Valid() && model == m && Kept()
    {
      model := m;
    }

    method SetState(s: State)
      requires Valid()
      modifies this`model, this`state
      ensures Valid() && model == old(model).(state := s) && Kept()
    {
      state := s;
      model := model.(state := s);
    }

    method Queue(f: Functor, onLoopThread: bool)
      requires Valid()
      modifies this`model, loop`pendFuncs, loop`wakeupCounter, loop`enqueued
      ensures Valid() && model == old(model).(queued := old(model.queued) + [f]) && Kept()
      ensures onLoopThread ==> OnlyMine()
      ensures loop.View() == QueueOne(old(loop.View()), f, onLoopThread)
    {
      ExtendsByOne(model.queued, loop.View(), f);
      loop.QueueInLoop(f, onLoopThread);
      model := model.(queued := model.queued + [f]);
    }

    method AppendOutput(bytes: seq<byte>)
      requires Valid()
      modifies this`model, outputBuffer, outputBuffer.data
      ensures Valid() && Kept()
      ensures var was := old(model);
              model == was.(output := was.output + bytes, levels := was.levels + [|was.output| + |bytes|])
    {
      model := model.(output := model.output + bytes, levels := model.levels + [|model.output| + |bytes|]);
      outputBuffer.Append(bytes);
    }

    method RetrieveOutput(n: nat)
      requires Valid() && n <= |model.output|
      modifies this`model, outputBuffer`reader, outputBuffer`writer
      ensures Valid() && Kept()
      ensures var was := old(model);
              model == was.(wire := was.wire + was.output[..n], output := was.output[n..],
                            levels := was.levels + [|was.output| - n])
    {
      model := model.(wire := model.wire + model.output[..n], output := model.output[n..],
                      levels := model.levels + [|model.output| - n]);
      outputBuffer.Retrieve(n);
    }

    method AskForWriting()
      requires Valid()
      modifies this`model, filed`events, filed`index, loop.epoller`fileds, loop.epoller`kernel, loop.epoller`ctlErrors
      ensures Valid() && model == old(model).(entry := Apply(old(model.entry), WriteOn)) && Kept()
    {
      filed.EnableWriting();
      model := model.(entry := Apply(model.entry, WriteOn));
    }

    method StopWriting()
      requires Valid()
      modifies this`model, filed`events, filed`index, loop.epoller`fileds, loop.epoller`kernel, loop.epoller`ctlErrors
      ensures Valid() && model == old(model).(entry := Apply(old(model.entry), WriteOff)) && Kept()
    {
      filed.DisableWriting();
      model := model.(entry := Apply(model.entry, WriteOff));
    }

    method StartReading()
      requires Valid()
      modifies this`model, filed`events, filed`index, loop.epoller`fileds, loop.epoller`kernel, loop.epoller`ctlErrors
      ensures Valid() && model == old(model).(entry := Apply(old(model.entry), ReadOn)) && Kept()
    {
      filed.EnableReading();
      model := model.(entry := Apply(model.entry, ReadOn));
    }

    method StopAll()
      requires Valid()
      modifies this`model, filed`events, filed`index, loop.epoller`fileds, loop.epoller`kernel, loop.epoller`ctlErrors
      ensures Valid() && model == old(model).(entry := Apply(old(model.entry), AllOff)) && Kept()
    {
      filed.DisableAll();
      model := model.(entry := Apply(model.entry, AllOff));
    }

    method RemoveFiled()
      requires Valid()
      modifies this`model, filed`index, loop.epoller`fileds, loop.epoller`kernel, loop.epoller`ctlErrors
      ensures Valid() && model == old(model).(entry := Apply(old(model.entry), Removal)) && Kept()
    {
      filed.Remove();
      model := model.(entry := Apply(model.entry, Removal));
    }

    /* ---------- Sending ---------- */

    /** Queue a functor if the condition holds. */
    method QueueIf(b: bool, f: Functor)
      requires Valid()
      modifies this`model, loop`pendFuncs, loop`wakeupCounter, loop`enqueued
      ensures Valid() && model == old(model).(queued := QueuedIf(b, old(model.queued), f)) && OnlyMine()
    {
      if b {
        Queue(f, true);
      }
    }

    method AwaitWriting()
      requires Valid()
      modifies this`model, filed`events, filed`index, loop.epoller`fileds, loop.epoller`kernel, loop.epoller`ctlErrors
      ensures Valid() && Kept()
      ensures model == if Writing(old(model)) then old(model)
                       else old(model).(entry := Apply(old(model.entry), WriteOn))
    {
      if !IsWriting(filed.events) {
        AskForWriting();
      }
    }

    method QueueOutput(bytes: seq<byte>)
      requires Valid()
      modifies this`model, outputBuffer, outputBuffer.data
      modifies filed`events, filed`index, loop.epoller`fileds, loop.epoller`kernel, loop.epoller`ctlErrors
      modifies loop`pendFuncs, loop`wakeupCounter, loop`enqueued
      ensures Valid() && OnlyMine()
      ensures model == ConnectionModel.QueueOutput(cfg, old(model), bytes)
    {
      var oldLen := outputBuffer.ReadableBytes();
      QueueIf(Signals(cfg, oldLen, oldLen + |bytes|), HighWaterMark(cfg.fd, oldLen + |bytes|));
      AppendOutput(bytes);
      AwaitWriting();
    }

    /** The direct write of sendinLoop, and what its branches make of the outcome. */
    method DirectWrite(data: seq<byte>, reply: Reply) returns (remaining: nat, nwrote: int, fault: bool)
      requires Valid()
      modifies this`model, loop`pendFuncs, loop`wakeupCounter, loop`enqueued
      ensures Valid() && OnlyMine()
      ensures var a := AttemptOf(cfg, |data|, reply);
              && remaining == a.remaining && nwrote == a.offset && fault == a.fault
              && model == AfterAttempt(cfg, old(model), data, reply)
    {
      nwrote, remaining, fault := Wrote(reply, |data|), |data|, false;
      Note(model.(wire := if nwrote > 0 then model.wire + data[..nwrote] else model.wire));
      if cfg.branch.AsWritten? {
        if nwrote > 0 {
          remaining := |data| - nwrote;
          if remaining == 0 && cfg.onWriteComplete {
            Queue(WriteComplete(cfg.fd), true);
          } else {
            nwrote := 0;
            if !reply.wouldBlock {
              fault := true;
            }
          }
        }
      } else {
        if nwrote > 0 {
          remaining := |data| - nwrote;
          if remaining == 0 && cfg.onWriteComplete {
            Queue(WriteComplete(cfg.fd), true);
          }
        } else {
          nwrote := 0;
          if !reply.wouldBlock {
            fault := true;
          }
        }
      }
    }

    /** The head of sendinLoop: write at once if nothing is queued or awaited. */
    method TryDirect(data: seq<byte>, reply: Reply) returns (remaining: nat, nwrote: int, fault: bool)
      requires Valid()
      modifies this`model
      modifies loop`pendFuncs, loop`wakeupCounter, loop`enqueued
      ensures Valid() && OnlyMine()
      ensures var a := if Attempts(old(model)) then AttemptOf(cfg, |data|, reply) else Attempt(|data|, 0, false, false);
              remaining == a.remaining && nwrote == a.offset && fault == a.fault
      ensures model == if Attempts(old(model)) then AfterAttempt(cfg, old(model), data, reply) else old(model)
    {
      remaining, nwrote, fault := |data|, 0, false;
      var readable := outputBuffer.ReadableBytes();
      if !IsWriting(filed.events) && readable == 0 {
        remaining, nwrote, fault := DirectWrite(data, reply);
      }
    }

    /** The tail of sendinLoop: keep what is left for the next writable event. */
    method QueueRest(data: seq<byte>, before: byte, remaining: nat, nwrote: int, fault: bool)
      requires Valid() && -1 <= nwrote && nwrote + remaining <= |data|
      modifies this`model, outputBuffer, outputBuffer.data
      modifies filed`events, filed`index, loop.epoller`fileds, loop.epoller`kernel, loop.epoller`ctlErrors
      modifies loop`pendFuncs, loop`wakeupCounter, loop`enqueued
      ensures Valid() && OnlyMine()
      ensures model == if !fault && remaining > 0
                       then ConnectionModel.QueueOutput(cfg, old(model), Memory(before, data, nwrote, remaining))
                       else old(model)
    {
      if !fault && remaining > 0 {
        QueueOutput(Memory(before, data, nwrote, remaining));
      }
    }

    method SendInLoop(data: seq<byte>, before: byte, reply: Reply)
      requires Valid()
      modifies this`model, outputBuffer, outputBuffer.data
      modifies filed`events, filed`index, loop.epoller`fileds, loop.epoller`kernel, loop.epoller`ctlErrors
      modifies loop`pendFuncs, loop`wakeupCounter, loop`enqueued
      ensures Valid() && OnlyMine()
      ensures model == ConnectionModel.SendInLoop(cfg, old(model), data, before, reply)
    {
      if !state.Disconnected? {
        ghost var q0, p0 := model.queued, loop.View();
        Note(model.(accepted := Accepted(cfg, model, data, reply)));
        var remaining, nwrote, fault := TryDirect(data, reply);
        ghost var q1, p1 := model.queued, loop.View();
        assert Memory(before, data, 0, |data|) == data;
        QueueRest(data, before, remaining, nwrote, fault);
        ExtendsTwice(q0, p0, q1, p1, model.queued, loop.View());
      }
    }

    /** send: written at once on the loop's own thread, queued from any other. */
    method Send(data: seq<byte>, before: byte, reply: Reply, onLoopThread: bool)
      requires Valid()
      modifies this`model, outputBuffer, outputBuffer.data
      modifies filed`events, filed`index, loop.epoller`fileds, loop.epoller`kernel, loop.epoller`ctlErrors
      modifies loop`pendFuncs, loop`wakeupCounter, loop`enqueued
      ensures Valid() && Kept() && (onLoopThread ==> OnlyMine())
      ensures model == if onLoopThread then Act(cfg, old(model), ConnectionModel.Send(data, before, reply))
                       else SendFromOther(cfg, old(model), data)
      ensures !onLoopThread ==>
        loop.View() == if state.Connected? then QueueOne(old(loop.View()), LateSend(cfg.fd, data), false)
                       else old(loop.View())
    {
      if state.Connected? {
        if onLoopThread {
          SendInLoop(data, before, reply);
        } else {
          Queue(LateSend(cfg.fd, data), false);
        }
      }
    }

    /* ---------- Shutting down ---------- */

    method ShutdownInLoop()
      requires Valid()
      modifies this`model
      ensures Valid() && Kept()
      ensures model == ConnectionModel.ShutdownInLoop(old(model))
    {
      if !IsWriting(filed.events) {
        Note(model.(halfCloses := model.halfCloses + 1));
      }
    }

    /** shutdown: shutdownInLoop runs at once on the loop's own thread, and is queued from any other. */
    method Shutdown(onLoopThread: bool)
      requires Valid()
      modifies this`model, this`state
      modifies loop`pendFuncs, loop`wakeupCounter, loop`enqueued
      ensures Valid() && Kept() && (onLoopThread ==> OnlyMine())
      ensures model == if onLoopThread then Act(cfg, old(model), ConnectionModel.Shutdown)
                       else ShutdownFromOther(cfg, old(model))
      ensures !onLoopThread ==>
        loop.View() == if old(state).Connected? then QueueOne(old(loop.View()), LateShutdown(cfg.fd), false)
                       else old(loop.View())
    {
      if state.Connected? {
        SetState(Disconnecting);
        if onLoopThread {
          ShutdownInLoop();
        } else {
          Note(model.(owed := true));
          Queue(LateShutdown(cfg.fd), false);
        }
      }
    }

    /** The queued shutdownInLoop, when its turn comes. */
    method RunLateShutdown()
      requires Valid()
      modifies this`model
      ensures Valid() && Kept()
      ensures model == Step(cfg, old(model), QueuedShutdown)
    {
      Note(model.(owed := false));
      ShutdownInLoop();
    }

    /* ---------- User callbacks ---------- */

    method Consume(len: nat)
      requires Valid()
      modifies this`model, inputBuffer
      ensures Valid() && Kept()
      ensures model == Act(cfg, old(model), ConnectionModel.Consume(len))
    {
      model := Act(cfg, model, ConnectionModel.Consume(len));
      inputBuffer.Retrieve(len);
    }

    /** Take the whole input as a string. */
    method TakeInput() returns (msg: seq<byte>)
      requires Valid()
      modifies this`model, inputBuffer
      ensures Valid() && Kept() && msg == old(model.input)
      ensures model == Act(cfg, old(model), ConnectionModel.Consume(|old(model.input)|))
    {
      model := Act(cfg, model, ConnectionModel.Consume(|model.input|));
      msg := inputBuffer.RetrieveAllAsString();
    }

    method RunAction(action: Action)
      requires Valid()
      modifies this`model, this`state, inputBuffer, inputBuffer.data, outputBuffer, outputBuffer.data
      modifies filed`events, filed`index, loop.epoller`fileds, loop.epoller`kernel, loop.epoller`ctlErrors
      modifies loop`pendFuncs, loop`wakeupCounter, loop`enqueued
      ensures Valid() && OnlyMine()
      ensures model == Act(cfg, old(model), action)
    {
      match action
      case Send(data, before, reply) => Send(data, before, reply, true);
      case Shutdown => Shutdown(true);
      case Consume(len) => Consume(len);
    }

    /** A callback's body: what it does with this connection, in order. */
    method RunCallback(actions: seq<Action>)
      requires Valid()
      modifies this`model, this`state, inputBuffer, inputBuffer.data, outputBuffer, outputBuffer.data
      modifies filed`events, filed`index, loop.epoller`fileds, loop.epoller`kernel, loop.epoller`ctlErrors
      modifies loop`pendFuncs, loop`wakeupCounter, loop`enqueued
      ensures Valid() && OnlyMine()
      ensures model == Acts(cfg, old(model), actions)
      decreases |actions|
    {
      if actions != [] {
        ghost var q0, p0 := model.queued, loop.View();
        RunAction(actions[0]);
        ghost var q1, p1 := model.queued, loop.View();
        RunCallback(actions[1..]);
        ExtendsTwice(q0, p0, q1, p1, model.queued, loop.View());
      }
    }

    /* ---------- Events ---------- */

    method HandleClose()
      requires Valid()
      modifies this`model, this`state
      modifies filed`events, filed`index, loop.epoller`fileds, loop.epoller`kernel, loop.epoller`ctlErrors
      ensures Valid() && Kept()
      ensures model == ConnectionModel.HandleClose(old(model))
    {
      SetState(Disconnected);
      StopAll();
      Note(model.(downs := model.downs + 1, closes := model.closes + 1));
    }

    method Receive(arrival: ReadResult) returns (n: int)
      requires Valid()
      requires arrival.Arrived? ==> |arrival.bytes| <= Offered(inputBuffer.data.Length - inputBuffer.writer)
      modifies this`model, inputBuffer, inputBuffer.data
      ensures Valid() && Kept()
      ensures n == if arrival.Arrived? then |arrival.bytes| else -1
      ensures model == if arrival.Arrived?
                       then old(model).(input := old(model.input) + arrival.bytes,
                                        received := old(model.received) + arrival.bytes)
                       else old(model)
    {
      ghost var q := inputBuffer.Abs();
      n := inputBuffer.ReadFd(arrival);
      if arrival.Arrived? {
        ReceivedBytes(q, arrival.bytes);
        model := model.(input := model.input + arrival.bytes, received := model.received + arrival.bytes);
      }
    }

    method HandleRead(arrival: ReadResult, actions: seq<Action>)
      requires Valid()
      requires arrival.Arrived? ==> |arrival.bytes| <= Offered(inputBuffer.data.Length - inputBuffer.writer)
      modifies this`model, this`state, inputBuffer, inputBuffer.data, outputBuffer, outputBuffer.data
      modifies filed`events, filed`index, loop.epoller`fileds, loop.epoller`kernel, loop.epoller`ctlErrors
      modifies loop`pendFuncs, loop`wakeupCounter, loop`enqueued
      ensures Valid() && OnlyMine()
      ensures model == ConnectionModel.HandleRead(cfg, old(model), arrival, actions)
    {
      ghost var was := model;
      var n := Receive(arrival);
      if n > 0 {
        RunCallback(actions);
      } else if n == 0 {
        assert arrival.bytes == [] && model == was;
        HandleClose();
      }
    }

    /** The output buffer has just drained. */
    method Drained()
      requires Valid()
      modifies this`model
      modifies filed`events, filed`index, loop.epoller`fileds, loop.epoller`kernel, loop.epoller`ctlErrors
      modifies loop`pendFuncs, loop`wakeupCounter, loop`enqueued
      ensures Valid() && OnlyMine()
      ensures model == ConnectionModel.Drained(cfg, old(model))
    {
      StopWriting();
      QueueIf(cfg.onWriteComplete, WriteComplete(cfg.fd));
      if state.Disconnecting? {
        ShutdownInLoop();
      }
    }

    /** The kernel has taken the first n bytes of the output. */
    method Written(n: nat, ghost reply: Reply)
      requires Valid() && Writing(model) && n > 0 && n == Wrote(reply, |model.output|)
      modifies this`model, outputBuffer
      modifies filed`events, filed`index, loop.epoller`fileds, loop.epoller`kernel, loop.epoller`ctlErrors
      modifies loop`pendFuncs, loop`wakeupCounter, loop`enqueued
      ensures Valid() && OnlyMine()
      ensures model == ConnectionModel.HandleWrite(cfg, old(model), reply)
    {
      RetrieveOutput(n);
      var readable := outputBuffer.ReadableBytes();
      if readable == 0 {
        Drained();
      }
    }

    method HandleWrite(reply: Reply)
      requires Valid()
      modifies this`model, outputBuffer
      modifies filed`events, filed`index, loop.epoller`fileds, loop.epoller`kernel, loop.epoller`ctlErrors
      modifies loop`pendFuncs, loop`wakeupCounter, loop`enqueued
      ensures Valid() && OnlyMine()
      ensures model == ConnectionModel.HandleWrite(cfg, old(model), reply)
    {
      if IsWriting(filed.events) {
        var readable := outputBuffer.ReadableBytes();
        var n := Wrote(reply, readable);
        if n > 0 {
          Written(n, reply);
        }
      }
    }

    /** The three branches of Filed::handleEvent that do more than log. */
    method OnHangUp()
      requires Valid()
      modifies this`model, this`state
      modifies filed`events, filed`index, loop.epoller`fileds, loop.epoller`kernel, loop.epoller`ctlErrors
      ensures Valid() && Kept()
      ensures model == if filed.revents.hup && !filed.revents.in_
                       then ConnectionModel.HandleClose(old(model)) else old(model)
    {
      if filed.revents.hup && !filed.revents.in_ {
        HandleClose();
      }
    }

    method OnInput(arrival: ReadResult, actions: seq<Action>)
      requires Valid()
      requires arrival.Arrived? ==> |arrival.bytes| <= Offered(inputBuffer.data.Length - inputBuffer.writer)
      modifies this`model, this`state, inputBuffer, inputBuffer.data, outputBuffer, outputBuffer.data
      modifies filed`events, filed`index, loop.epoller`fileds, loop.epoller`kernel, loop.epoller`ctlErrors
      modifies loop`pendFuncs, loop`wakeupCounter, loop`enqueued
      ensures Valid() && OnlyMine()
      ensures model == if filed.revents.Meets(READ_EVENT)
                       then ConnectionModel.HandleRead(cfg, old(model), arrival, actions) else old(model)
    {
      if filed.revents.Meets(READ_EVENT) {
        HandleRead(arrival, actions);
      }
    }

    method OnOutput(reply: Reply)
      requires Valid()
      modifies this`model, this`state, inputBuffer, inputBuffer.data, outputBuffer, outputBuffer.data
      modifies filed`events, filed`index, loop.epoller`fileds, loop.epoller`kernel, loop.epoller`ctlErrors
      modifies loop`pendFuncs, loop`wakeupCounter, loop`enqueued
      ensures Valid() && OnlyMine()
      ensures model == if filed.revents.out then ConnectionModel.HandleWrite(cfg, old(model), reply) else old(model)
    {
      if filed.revents.out {
        HandleWrite(reply);
      }
    }

    /** Filed::handleEvent of this connection's Filed. */
    method HandleEvent(arrival: ReadResult, actions: seq<Action>, reply: Reply)
      requires Valid() && filed.tied
      requires arrival.Arrived? ==> |arrival.bytes| <= Offered(inputBuffer.data.Length - inputBuffer.writer)
      modifies this`model, this`state, inputBuffer, inputBuffer.data, outputBuffer, outputBuffer.data
      modifies filed`events, filed`index, loop.epoller`fileds, loop.epoller`kernel, loop.epoller`ctlErrors
      modifies loop`pendFuncs, loop`wakeupCounter, loop`enqueued
      ensures Valid() && OnlyMine()
      ensures model == ConnectionModel.HandleEvent(cfg, old(model), filed.revents, arrival, actions, reply)
    {
      ghost var q0, p0 := model.queued, loop.View();
      OnHangUp();
      OnInput(arrival, actions);
      ghost var q1, p1 := model.queued, loop.View();
      OnOutput(reply);
      ExtendsTwice(q0, p0, q1, p1, model.queued, loop.View());
    }

    /** connectEstablished up to its callback. */
    method ComeUp()
      requires Valid()
      modifies this`model, this`state, filed`tied
      modifies filed`events, filed`index, loop.epoller`fileds, loop.epoller`kernel, loop.epoller`ctlErrors
      ensures Valid() && Kept() && filed.tied
      ensures var was := old(model);
              model == was.(state := Connected, entry := Apply(was.entry, ReadOn), ups := was.ups + 1)
    {
      SetState(Connected);
      filed.Tie();
      StartReading();
      Note(model.(ups := model.ups + 1));
    }

    method ConnectEstablished(actions: seq<Action>)
      requires Valid()
      modifies this`model, this`state, inputBuffer, inputBuffer.data, outputBuffer, outputBuffer.data
      modifies filed`events, filed`index, loop.epoller`fileds, loop.epoller`kernel, loop.epoller`ctlErrors, filed`tied
      modifies loop`pendFuncs, loop`wakeupCounter, loop`enqueued
      ensures Valid() && OnlyMine() && filed.tied
      ensures model == ConnectionModel.ConnectEstablished(cfg, old(model), actions)
    {
      ComeUp();
      RunCallback(actions);
    }

    /** The part of connectDestroyed that runs only on a connection still up. */
    method GoDown()
      requires Valid()
      modifies this`model, this`state
      modifies filed`events, filed`index, loop.epoller`fileds, loop.epoller`kernel, loop.epoller`ctlErrors
      ensures Valid() && Kept()
      ensures var was := old(model);
              model == if was.state.Connected?
                       then was.(state := Disconnected, entry := Apply(was.entry, AllOff), downs := was.downs + 1)
                       else was
    {
      if state.Connected? {
        SetState(Disconnected);
        StopAll();
        Note(model.(downs := model.downs + 1));
      }
    }

    method ConnectDestroyed()
      requires Valid()
      modifies this`model, this`state
      modifies filed`events, filed`index, loop.epoller`fileds, loop.epoller`kernel, loop.epoller`ctlErrors
      ensures Valid() && Kept()
      ensures model == ConnectionModel.ConnectDestroyed(old(model))
    {
      GoDown();
      RemoveFiled();
      Note(model.(destroyed := true));
    }
  }
}
