/** The reactor's objects: Filed (a descriptor and its event mask), Epoller (the registrations)
    and EventLoop (the functor queue and the eventfd that wakes the loop). */
module Reactor {
  import opened Registration
  import Buffers

  /** What can be queued on a loop: the connection callbacks of Connection.cpp, by descriptor; what
      other threads have Connection.cpp do later; and any other functor, by number. */
  datatype Functor =
    | WriteComplete(fd: int)
    | HighWaterMark(fd: int, size: nat)
    | LateSend(fd: int, data: seq<Buffers.byte>)
    | LateShutdown(fd: int)
    | OtherFunctor(id: nat)

  /** One row of the kernel's interest table: the mask and the user pointer. */
  datatype Interested = Interested(filed: Filed, mask: Mask)

  class Filed {
    const fd: int
    const loop: EventLoop
    var events: Mask
    var revents: Mask
    var index: Index
    var tied: bool

    constructor (loop: EventLoop, fd: int)
      ensures this.loop == loop && this.fd == fd
      ensures events == NONE_EVENT && revents == NONE_EVENT && index == New && !tied
    {
      this.loop, this.fd := loop, fd;
      events, revents := NONE_EVENT, NONE_EVENT;
      index, tied := New, false;
    }

    ghost predicate Watched()
      reads this, loop, loop.epoller, loop.epoller.known
    {
      loop.epoller.Valid() && this in loop.epoller.known
    }

    /** The registration of this Filed, as the automaton of module Registration sees it. */
    ghost function Entry(): Entry
      reads this, loop, loop.epoller
    {
      loop.epoller.EntryOf(this)
    }

    method EnableReading()
      requires Watched()
      modifies this`events, this`index, loop.epoller`fileds, loop.epoller`kernel, loop.epoller`ctlErrors
      ensures Watched() && Entry() == Apply(old(Entry()), ReadOn)
      ensures events == old(events).(in_ := true, pri := true)
      ensures loop.epoller.OthersKept(this)
    {
      ReadBits(events);
      ApplyUnfolds(Entry(), ReadOn);
      events := events.Or(READ_EVENT);
      Update();
    }

    method DisableReading()
      requires Watched()
      modifies this`events, this`index, loop.epoller`fileds, loop.epoller`kernel, loop.epoller`ctlErrors
      ensures Watched() && Entry() == Apply(old(Entry()), ReadOff)
      ensures events == old(events).(in_ := false, pri := false)
      ensures loop.epoller.OthersKept(this)
    {
      ReadBits(events);
      ApplyUnfolds(Entry(), ReadOff);
      events := events.AndNot(READ_EVENT);
      Update();
    }

    method EnableWriting()
      requires Watched()
      modifies this`events, this`index, loop.epoller`fileds, loop.epoller`kernel, loop.epoller`ctlErrors
      ensures Watched() && Entry() == Apply(old(Entry()), WriteOn)
      ensures events == old(events).(out := true)
      ensures loop.epoller.OthersKept(this)
    {
      WriteBits(events);
      ApplyUnfolds(Entry(), WriteOn);
      events := events.Or(WRITE_EVENT);
      Update();
    }

    method DisableWriting()
      requires Watched()
      modifies this`events, this`index, loop.epoller`fileds, loop.epoller`kernel, loop.epoller`ctlErrors
      ensures Watched() && Entry() == Apply(old(Entry()), WriteOff)
      ensures events == old(events).(out := false)
      ensures loop.epoller.OthersKept(this)
    {
      WriteBits(events);
      ApplyUnfolds(Entry(), WriteOff);
      events := events.AndNot(WRITE_EVENT);
      Update();
    }

    method DisableAll()
      requires Watched()
      modifies this`events, this`index, loop.epoller`fileds, loop.epoller`kernel, loop.epoller`ctlErrors
      ensures Watched() && Entry() == Apply(old(Entry()), AllOff)
      ensures events == Mask(false, false, false, false, false)
      ensures loop.epoller.OthersKept(this)
    {
      ApplyUnfolds(Entry(), AllOff);
      events := NONE_EVENT;
      Update();
    }

    method Remove()
      requires Watched()
      modifies this`index, loop.epoller`fileds, loop.epoller`kernel, loop.epoller`ctlErrors
      ensures Watched() && Entry() == Apply(old(Entry()), Removal)
      ensures index == New && fd !in loop.epoller.fileds && fd !in loop.epoller.kernel
      ensures loop.epoller.OthersKept(this)
    {
      ApplyUnfolds(Entry(), Removal);
      loop.epoller.Remove(this);
    }

    method Tie()
      modifies this`tied
      ensures tied
    {
      tied := true;
    }

    /** Ask the loop's Epoller to act on the mask just changed. */
    method Update()
      requires this in loop.epoller.known && loop.epoller.ValidBut(this)
      modifies this`index, loop.epoller`fileds, loop.epoller`kernel, loop.epoller`ctlErrors
      ensures Watched() && Entry() == Registration.Update(old(Entry()))
      ensures loop.epoller.OthersKept(this)
    {
      loop.epoller.Update(this);
    }
  }

  class Epoller {
    var fileds: map<int, Filed>
    var kernel: map<int, Interested>
    var ctlErrors: nat
    ghost var known: set<Filed>

    constructor ()
      ensures Valid() && fileds == map[] && kernel == map[] && ctlErrors == 0 && known == {}
    {
      fileds, kernel, ctlErrors, known := map[], map[], 0, {};
    }

    ghost function EntryOf(f: Filed): Entry
      reads this, f
    {
      Entry(f.events, f.index,
            f.fd in fileds && fileds[f.fd] == f,
            if f.fd in kernel && kernel[f.fd].filed == f then Some(kernel[f.fd].mask) else None,
            ctlErrors)
    }

    /** The Fileds alive on this loop have distinct descriptors, and both tables hold only them. */
    ghost predicate Tables()
      reads this, known
    {
      && (forall f, g :: f in known && g in known && f.fd == g.fd ==> f == g)
      && (forall f :: f in known ==> f.loop.epoller == this)
      && (forall fd :: fd in fileds ==> fileds[fd] in known && fileds[fd].fd == fd)
      && (forall fd :: fd in kernel ==> kernel[fd].filed in known && kernel[fd].filed.fd == fd)
    }

    /** Valid, except that f's mask has changed and the Epoller has not yet acted on it. */
    ghost predicate ValidBut(f: Filed)
      reads this, known, f
    {
      && Tables()
      && ctlErrors == 0
      && (forall g :: g in known && g != f ==> Agrees(EntryOf(g)))
      && Registered(EntryOf(f))
    }

    /** Every live Filed agrees with both tables, and the kernel has never rejected a call. */
    ghost predicate Valid()
      reads this, known
    {
      && Tables()
      && ctlErrors == 0
      && (forall g :: g in known ==> Agrees(EntryOf(g)))
    }

    /** Neither table changed at any descriptor but f's. */
    twostate predicate OthersKept(f: Filed)
      reads this
    {
      && fileds - {f.fd} == old(fileds) - {f.fd}
      && kernel - {f.fd} == old(kernel) - {f.fd}
    }

    /** So the registration of every other live Filed is as it was. */
    twostate lemma OtherEntryKept(f: Filed, g: Filed)
      requires old(Valid()) && known == old(known) && ctlErrors == old(ctlErrors)
      requires OthersKept(f) && f in known && g in known && g != f && unchanged(g)
      ensures EntryOf(g) == old(EntryOf(g))
    {
      assert g.fd in fileds <==> g.fd in fileds - {f.fd};
      assert g.fd in kernel <==> g.fd in kernel - {f.fd};
      assert g.fd in fileds ==> fileds[g.fd] == (fileds - {f.fd})[g.fd];
      assert g.fd in kernel ==> kernel[g.fd] == (kernel - {f.fd})[g.fd];
      assert g.fd in old(fileds) ==> old(fileds)[g.fd] == (old(fileds) - {f.fd})[g.fd];
      assert g.fd in old(kernel) ==> old(kernel)[g.fd] == (old(kernel) - {f.fd})[g.fd];
    }

    /** epoll_ctl: the kernel's table changes unless the call is rejected. */
    method Ctl(op: CtlOp, f: Filed) returns (ok: bool)
      modifies this`kernel
      ensures ok == CtlLegal(if f.fd in old(kernel) then Some(old(kernel)[f.fd].mask) else None, op)
      ensures kernel == if !ok then old(kernel)
                        else if op.CtlDel? then old(kernel) - {f.fd}
                        else old(kernel)[f.fd := Interested(f, f.events)]
    {
      ok := op.CtlAdd? <==> f.fd !in kernel;
      if ok {
        kernel := if op.CtlDel? then kernel - {f.fd} else kernel[f.fd := Interested(f, f.events)];
      }
    }

    method UpdateHelper(op: CtlOp, f: Filed)
      modifies this`kernel, this`ctlErrors
      ensures var legal := CtlLegal(if f.fd in old(kernel) then Some(old(kernel)[f.fd].mask) else None, op);
              && ctlErrors == old(ctlErrors) + (if legal then 0 else 1)
              && kernel == if !legal then old(kernel)
                           else if op.CtlDel? then old(kernel) - {f.fd}
                           else old(kernel)[f.fd := Interested(f, f.events)]
    {
      var ok := Ctl(op, f);
      if !ok {
        ctlErrors := ctlErrors + 1;
      }
    }

    method Update(f: Filed)
      requires f in known && ValidBut(f)
      modifies this`fileds, this`kernel, this`ctlErrors, f`index
      ensures Valid() && EntryOf(f) == Registration.Update(old(EntryOf(f)))
      ensures OthersKept(f)
    {
      UpdateAgrees(EntryOf(f));
      if f.index == New || f.index == Deleted {
        if f.index == New {
          fileds := fileds[f.fd := f];
        } else {
          assert f.fd in fileds;
          assert fileds[f.fd] == f;
        }
        f.index := Added;
        UpdateHelper(CtlAdd, f);
      } else if f.events == NONE_EVENT {
        UpdateHelper(CtlDel, f);
        f.index := Deleted;
      } else {
        UpdateHelper(CtlMod, f);
      }
      assert EntryOf(f) == Registration.Update(old(EntryOf(f)));
      assert forall g :: g in known && g != f ==> EntryOf(g) == old(EntryOf(g));
    }

    method Remove(f: Filed)
      requires f in known && Valid()
      modifies this`fileds, this`kernel, this`ctlErrors, f`index
      ensures Valid() && EntryOf(f) == Registration.Remove(old(EntryOf(f)))
      ensures OthersKept(f)
    {
      fileds := fileds - {f.fd};
      if f.index == Added {
        UpdateHelper(CtlDel, f);
      }
      f.index := New;
    }

    /** Every kernel row is that of a live Filed which the Epoller has added. */
    lemma KernelRow(fd: int)
      requires Valid() && fd in kernel
      ensures var f := kernel[fd].filed;
              f in known && f.fd == fd && f.index == Added && fd in fileds && fileds[fd] == f
    {
      var f := kernel[fd].filed;
      assert f in known && f.fd == fd;
      assert Agrees(EntryOf(f));
    }

    /** fillActiveFileds: each reported row's Filed gets its events and joins the active list,
        in the kernel's order. */
    method FillActiveFileds(ready: seq<(int, Mask)>) returns (active: seq<Filed>)
      requires Valid()
      requires forall i :: 0 <= i < |ready| ==> ready[i].0 in kernel
      requires forall i, j :: 0 <= i < j < |ready| ==> ready[i].0 != ready[j].0
      modifies set i | 0 <= i < |ready| :: kernel[ready[i].0].filed`revents
      ensures |active| == |ready| && Valid()
      ensures forall i :: 0 <= i < |active| ==>
        active[i] in known && active[i].fd == ready[i].0 && active[i].revents == ready[i].1
        && active[i].index == Added && active[i].fd in fileds && fileds[active[i].fd] == active[i]
    {
      active := [];
      for i := 0 to |ready|
        invariant |active| == i && Valid()
        invariant forall k :: 0 <= k < i ==>
          active[k] == kernel[ready[k].0].filed && active[k].revents == ready[k].1
      {
        var f := kernel[ready[i].0].filed;
        f.revents := ready[i].1;
        active := active + [f];
      }
      forall i | 0 <= i < |active|
        ensures active[i] in known && active[i].fd == ready[i].0
        ensures active[i].index == Added && active[i].fd in fileds && fileds[active[i].fd] == active[i]
      {
        KernelRow(ready[i].0);
      }
    }

    /** A new Filed may join when its descriptor is not that of a live one. */
    ghost method Adopt(f: Filed)
      requires Valid() && f.loop.epoller == this && f.index == New && f.events == NONE_EVENT
      requires forall g :: g in known ==> g.fd != f.fd
      modifies this`known
      ensures Valid() && known == old(known) + {f} && EntryOf(f) == FRESH
    {
      known := known + {f};
    }

    /** A Filed may die only once it is in neither table, and then its descriptor is free again. */
    ghost method Retire(f: Filed)
      requires Valid() && f in known && f.index == New
      modifies this`known
      ensures Valid() && known == old(known) - {f}
      ensures f.fd !in fileds && f.fd !in kernel
    {
      assert Agrees(EntryOf(f));
      known := known - {f};
    }
  }

  datatype WakeupHandler = Drain | AddOne

  /** The eventfd counter never exceeds this value: a write that would pass it is refused. */
  const EVENTFD_MAX: nat := 0xFFFF_FFFF_FFFF_FFFE

  function WriteOne(counter: nat): (r: nat)
    ensures counter < 0xFFFF_FFFF_FFFF_FFFE ==> r == counter + 1
    ensures counter >= 0xFFFF_FFFF_FFFF_FFFE ==> r == counter
  {
    if counter >= EVENTFD_MAX then counter else counter + 1
  }

  /** The wakeup descriptor's read handler: `AddOne` is what EventLoop.cpp does, `Drain` reads. */
  function HandleWakeup(counter: nat, handler: WakeupHandler): nat {
    if handler.Drain? then 0 else WriteOne(counter)
  }

  function Flatten<T>(parts: seq<seq<T>>): seq<T> {
    if parts == [] then [] else parts[0] + Flatten(parts[1..])
  }

  /** The queue of a loop, its flag and its eventfd, with everything ever queued and everything run. */
  datatype LoopState = LoopState(
    pend: seq<Functor>, flag: bool, counter: nat, log: seq<Functor>, executed: seq<Functor>)

  /** queueinLoop: the wakeup is for other threads and for functors that are being run. */
  function QueueOne(v: LoopState, f: Functor, onLoopThread: bool): LoopState {
    v.(pend := v.pend + [f], log := v.log + [f],
       counter := if !onLoopThread || v.flag then WriteOne(v.counter) else v.counter)
  }

  function QueueAll(v: LoopState, fs: seq<Functor>): LoopState
    decreases |fs|
  {
    if fs == [] then v else QueueAll(QueueOne(v, fs[0], true), fs[1..])
  }

  lemma {:induction false} QueueAllSplit(v: LoopState, a: seq<Functor>, b: seq<Functor>)
    ensures QueueAll(v, a + b) == QueueAll(QueueAll(v, a), b)
    decreases |a|
  {
    if a == [] {
      assert a + b == b;
    } else {
      assert (a + b)[1..] == a[1..] + b;
      QueueAllSplit(QueueOne(v, a[0], true), a[1..], b);
    }
  }

  /** Run one functor, which queues `script` on its own loop. */
  function RunOne(v: LoopState, f: Functor, script: seq<Functor>): LoopState {
    QueueAll(v.(executed := v.executed + [f]), script)
  }

  function RunBatch(v: LoopState, batch: seq<Functor>, scripts: seq<seq<Functor>>): LoopState
    requires |batch| == |scripts|
    decreases |batch|
  {
    if batch == [] then v else RunBatch(RunOne(v, batch[0], scripts[0]), batch[1..], scripts[1..])
  }

  function DoPend(v: LoopState, scripts: seq<seq<Functor>>): LoopState
    requires |scripts| == |v.pend|
  {
    RunBatch(v.(flag := true, pend := []), v.pend, scripts).(flag := false)
  }

  /** The functor joins the end of the queue. A wakeup is written for a functor of another thread, and
      for one queued by a functor being run; the loop's own thread needs none otherwise, as it will
      come to its functors before it polls. */
  lemma QueueOneLaw(v: LoopState, f: Functor, onLoopThread: bool)
    ensures var r := QueueOne(v, f, onLoopThread);
            && r.pend == v.pend + [f] && r.log == v.log + [f] && r.executed == v.executed && r.flag == v.flag
            && (onLoopThread && !v.flag ==> r.counter == v.counter)
            && (!onLoopThread || v.flag ==> r.counter > 0 && v.counter <= r.counter <= v.counter + 1)
  {
  }

  /** Where the functors go, and that there is a wakeup for them. */
  lemma {:induction false} QueueAllAdds(v: LoopState, fs: seq<Functor>)
    requires v.flag
    ensures var r := QueueAll(v, fs);
            && r == v.(pend := v.pend + fs, log := v.log + fs, counter := r.counter)
            && r.counter >= v.counter && (fs != [] ==> r.counter > 0)
            && (v.counter <= EVENTFD_MAX ==> r.counter <= EVENTFD_MAX)
    decreases |fs|
  {
    if fs == [] {
      assert v.pend + fs == v.pend && v.log + fs == v.log;
    } else {
      QueueAllAdds(QueueOne(v, fs[0], true), fs[1..]);
      assert v.pend + [fs[0]] + fs[1..] == v.pend + fs;
      assert v.log + [fs[0]] + fs[1..] == v.log + fs;
    }
  }

  lemma {:induction false} RunBatchAdds(v: LoopState, batch: seq<Functor>, scripts: seq<seq<Functor>>)
    requires v.flag && |batch| == |scripts|
    ensures var r := RunBatch(v, batch, scripts);
            && r.flag && r.executed == v.executed + batch
            && r.pend == v.pend + Flatten(scripts) && r.log == v.log + Flatten(scripts)
            && r.counter >= v.counter && (Flatten(scripts) != [] ==> r.counter > 0)
            && (v.counter <= EVENTFD_MAX ==> r.counter <= EVENTFD_MAX)
    decreases |batch|
  {
    if batch == [] {
      assert v.executed + batch == v.executed;
      assert v.pend + Flatten(scripts) == v.pend && v.log + Flatten(scripts) == v.log;
    } else {
      var v1 := v.(executed := v.executed + [batch[0]]);
      QueueAllAdds(v1, scripts[0]);
      RunBatchAdds(QueueAll(v1, scripts[0]), batch[1..], scripts[1..]);
      assert v.executed + [batch[0]] + batch[1..] == v.executed + batch;
      assert v.pend + scripts[0] + Flatten(scripts[1..]) == v.pend + Flatten(scripts);
      assert v.log + scripts[0] + Flatten(scripts[1..]) == v.log + Flatten(scripts);
    }
  }

  /** One doPendFunc runs exactly the functors present at its swap, once and in order; what they
      queue is all that waits afterwards, in order, with a wakeup pending. */
  lemma DoPendRuns(v: LoopState, scripts: seq<seq<Functor>>)
    requires |scripts| == |v.pend|
    ensures var r := DoPend(v, scripts);
            && !r.flag && r.executed == v.executed + v.pend && r.pend == Flatten(scripts)
            && r.log == v.log + r.pend
            && r.counter >= v.counter && (r.pend != [] ==> r.counter > 0)
            && (v.counter <= EVENTFD_MAX ==> r.counter <= EVENTFD_MAX)
  {
    RunBatchAdds(v.(flag := true, pend := []), v.pend, scripts);
    assert [] + Flatten(scripts) == Flatten(scripts);
  }

  class EventLoop {
    const epoller: Epoller
    var pendFuncs: seq<Functor>
    var isCallPendFunc: bool
    var wakeupCounter: nat
    ghost var enqueued: seq<Functor>
    ghost var executed: seq<Functor>

    constructor (epoller: Epoller)
      ensures this.epoller == epoller
      ensures pendFuncs == enqueued == executed == [] && !isCallPendFunc && wakeupCounter == 0
      ensures Settled()
    {
      this.epoller := epoller;
      pendFuncs, isCallPendFunc, wakeupCounter := [], false, 0;
      enqueued, executed := [], [];
    }

    ghost function View(): LoopState
      reads this
    {
      LoopState(pendFuncs, isCallPendFunc, wakeupCounter, enqueued, executed)
    }

    /** Outside doPendFunc: what was queued is what has run followed by what waits, in order. */
    ghost predicate Settled()
      reads this
    {
      !isCallPendFunc && enqueued == executed + pendFuncs && wakeupCounter <= EVENTFD_MAX
    }

    method Wakeup()
      modifies this`wakeupCounter
      ensures wakeupCounter == WriteOne(old(wakeupCounter)) && wakeupCounter > 0
    {
      if wakeupCounter < EVENTFD_MAX {
        wakeupCounter := wakeupCounter + 1;
      }
    }

    method HandleWakeupRead(handler: WakeupHandler)
      modifies this`wakeupCounter
      ensures wakeupCounter == HandleWakeup(old(wakeupCounter), handler)
      ensures handler.Drain? ==> wakeupCounter == 0
      ensures handler.AddOne? && old(wakeupCounter) < EVENTFD_MAX ==> wakeupCounter == old(wakeupCounter) + 1
    {
      if handler.Drain? {
        wakeupCounter := 0;
      } else if wakeupCounter < EVENTFD_MAX {
        wakeupCounter := wakeupCounter + 1;
      }
    }

    method QueueInLoop(f: Functor, onLoopThread: bool)
      modifies this`pendFuncs, this`wakeupCounter, this`enqueued
      ensures View() == QueueOne(old(View()), f, onLoopThread)
      ensures pendFuncs == old(pendFuncs) + [f] && isCallPendFunc == old(isCallPendFunc)
      ensures onLoopThread && !isCallPendFunc ==> wakeupCounter == old(wakeupCounter)
      ensures !onLoopThread || isCallPendFunc ==> wakeupCounter > 0
    {
      pendFuncs := pendFuncs + [f];
      enqueued := enqueued + [f];
      if !onLoopThread || isCallPendFunc {
        Wakeup();
      }
    }

    /** Run one functor; `script` is what its body queues on this same loop. */
    method RunFunctor(f: Functor, script: seq<Functor>)
      requires isCallPendFunc
      modifies this`pendFuncs, this`wakeupCounter, this`enqueued, this`executed
      ensures View() == RunOne(old(View()), f, script)
    {
      executed := executed + [f];
      for i := 0 to |script|
        invariant QueueAll(View(), script[i..]) == RunOne(old(View()), f, script)
      {
        assert script[i..][1..] == script[i + 1..];
        QueueInLoop(script[i], true);
      }
    }

    /** One doPendFunc: `scripts[i]` is what the i-th functor of the swapped-out vector queues. */
    method DoPendFunc(scripts: seq<seq<Functor>>)
      requires Settled() && |scripts| == |pendFuncs|
      modifies this`pendFuncs, this`isCallPendFunc, this`wakeupCounter, this`enqueued, this`executed
      ensures View() == DoPend(old(View()), scripts)
      ensures Settled()
      ensures executed == old(executed) + old(pendFuncs) && pendFuncs == Flatten(scripts)
      ensures pendFuncs != [] ==> wakeupCounter > 0
    {
      ghost var start := View();
      isCallPendFunc := true;
      var functors := pendFuncs;
      pendFuncs := [];
      for i := 0 to |functors|
        invariant isCallPendFunc
        invariant RunBatch(View(), functors[i..], scripts[i..]).(flag := false) == DoPend(start, scripts)
      {
        assert functors[i..][1..] == functors[i + 1..] && scripts[i..][1..] == scripts[i + 1..];
        QueueAllAdds(View().(executed := executed + [functors[i]]), scripts[i]);
        RunFunctor(functors[i], scripts[i]);
      }
      isCallPendFunc := false;
      DoPendRuns(start, scripts);
    }
  }
}
