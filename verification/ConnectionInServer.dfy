/** The server machine of module Ownership reduces a connection to a small record. Here: whatever
    one connection does, in the detail of module ConnectionModel, the machine does too. */
module ConnectionInServer {
  import opened Registration
  import opened Buffers
  import Model = ConnectionModel
  import opened ConnectionRuns
  import opened Ownership
  import opened OwnershipInvariant
  import OwnershipSteps
  import OwnershipTheorems

  /** The record of a connection. */
  function Seen(l: nat, cfg: Model.Config, c: Model.Conn): Rec {
    Rec(l, cfg.fd, c.state, c.entry.events, c.entry.index, c.ups, c.downs, c.closes)
  }

  predicate Maps(table: map<int, ConnId>, fd: int, id: ConnId) {
    fd in table && table[fd] == id
  }

  /** The server's state shows connection `id`, on loop l, as the detailed model has it. */
  predicate Pictures(s: Sys, id: ConnId, l: nat, cfg: Model.Config, c: Model.Conn) {
    && l < |s.loops| && id in s.recs && s.recs[id] == Seen(l, cfg, c)
    && (c.entry.mapped <==> Maps(s.loops[l].fileds, cfg.fd, id))
    && (c.entry.kernel.Some? <==> Maps(s.loops[l].kernel, cfg.fd, id))
  }

  /** The loop's thread runs user code that holds the connection. */
  predicate CanAct(s: Sys, id: ConnId, l: nat) {
    l < |s.loops| && (s.loops[l].phase.Dispatching? || s.loops[l].phase.Draining?) && Held(s, id)
  }

  /** The loop's thread has come to the point at which it runs this event of the connection. */
  predicate At(s: Sys, id: ConnId, l: nat, event: Model.Event) {
    match event
    case Established(_) => CanRun(s, l) && TaskOf(s, l) == Establish(id)
    case Destroyed => CanRun(s, l) && TaskOf(s, l) == Destroy(id)
    case Occurred(_, _, _, _) => InHandler(s, l) && Current(s, l) == id
    case UserCode(_) => CanAct(s, id, l)
    case QueuedSend(_, _, _) => CanAct(s, id, l) && s.loops[l].phase.Draining?
    case QueuedShutdown => CanAct(s, id, l)
    case SendCalled(_) => Held(s, id)
    case ShutdownCalled => Held(s, id)
  }

  /* ---------- The steps of one connection ---------- */

  function MaskSteps(id: ConnId, l: nat, c: Model.Conn, d: Model.Conn): seq<Step> {
    if d.entry == c.entry then [] else [ChangeMask(l, id, d.entry.events)]
  }

  /** A sendinLoop queued by another thread, which may come after connectDestroyed. */
  function QueuedSendSteps(id: ConnId, l: nat, c: Model.Conn, d: Model.Conn): seq<Step> {
    if c.destroyed && d.entry != c.entry then [LateSend(l, id)] else MaskSteps(id, l, c, d)
  }

  function ActSteps(id: ConnId, l: nat, cfg: Model.Config, c: Model.Conn, action: Model.Action): seq<Step> {
    if action.Shutdown? then (if c.state.Connected? then [StartShutdown(id)] else [])
    else MaskSteps(id, l, c, Model.Act(cfg, c, action))
  }

  function ActsSteps(id: ConnId, l: nat, cfg: Model.Config, c: Model.Conn, actions: seq<Model.Action>): seq<Step>
    decreases |actions|
  {
    if actions == [] then []
    else ActSteps(id, l, cfg, c, actions[0]) + ActsSteps(id, l, cfg, Model.Act(cfg, c, actions[0]), actions[1..])
  }

  function ReadSteps(id: ConnId, l: nat, cfg: Model.Config, c: Model.Conn, arrival: ReadResult,
                     actions: seq<Model.Action>): seq<Step>
  {
    if arrival.ReadError? then []
    else if arrival.bytes == [] then [Close(l)]
    else ActsSteps(id, l, cfg, c.(input := c.input + arrival.bytes, received := c.received + arrival.bytes), actions)
  }

  /** handleEvent: the steps of its hang-up, input and output branches. */
  function OccurredSteps(id: ConnId, l: nat, cfg: Model.Config, c: Model.Conn, event: Model.Event): seq<Step>
    requires event.Occurred?
  {
    var hangsUp := event.revents.hup && !event.revents.in_;
    var readable := event.revents.Meets(READ_EVENT);
    var c1 := if hangsUp then Model.HandleClose(c) else c;
    var c2 := if readable then Model.HandleRead(cfg, c1, event.arrival, event.actions) else c1;
    (if hangsUp then [Close(l)] else [])
    + (if readable then ReadSteps(id, l, cfg, c1, event.arrival, event.actions) else [])
    + (if event.revents.out then MaskSteps(id, l, c2, Model.HandleWrite(cfg, c2, event.reply)) else [])
  }

  /** What the server machine does for an event of the connection. */
  function EventSteps(id: ConnId, l: nat, cfg: Model.Config, c: Model.Conn, event: Model.Event): seq<Step> {
    match event
    case Established(actions) => [RunTask(l)] + ActsSteps(id, l, cfg, AtCallback(c, event), actions)
    case UserCode(actions) => ActsSteps(id, l, cfg, c, actions)
    case SendCalled(_) => []
    case QueuedSend(data, before, reply) => QueuedSendSteps(id, l, c, Model.SendInLoop(cfg, c, data, before, reply))
    case ShutdownCalled => if c.state.Connected? then [StartShutdown(id)] else []
    case QueuedShutdown => []
    case Occurred(_, _, _, _) => OccurredSteps(id, l, cfg, c, event)
    case Destroyed => [RunTask(l)]
  }

  /** These steps can be taken, and lead to a state that shows the connection as d. */
  predicate Reaches(s: Sys, steps: seq<Step>, id: ConnId, l: nat, cfg: Model.Config, d: Model.Conn) {
    EnabledRun(s, steps) && Pictures(Run(s, steps), id, l, cfg, d)
  }

  /** Also, the loop is still where it was, up to the number of closes. */
  predicate Leads(s: Sys, steps: seq<Step>, id: ConnId, l: nat, cfg: Model.Config, d: Model.Conn) {
    && Reaches(s, steps, id, l, cfg, d)
    && CanAct(Run(s, steps), id, l)
    && l < |s.loops|
    && (InHandler(s, l) ==> InHandler(Run(s, steps), l) && Current(Run(s, steps), l) == Current(s, l))
  }

  lemma LeadsOn(s: Sys, a: seq<Step>, b: seq<Step>, id: ConnId, l: nat, cfg: Model.Config, c: Model.Conn, d: Model.Conn)
    requires Leads(s, a, id, l, cfg, c) && Leads(Run(s, a), b, id, l, cfg, d)
    ensures Leads(s, a + b, id, l, cfg, d)
  {
    OwnershipSteps.RunSplit(s, a, b);
  }

  /* ---------- Single effects ---------- */

  /** One call on the Filed, with any change of the record's other fields. */
  lemma UpdatePictures(s: Sys, id: ConnId, l: nat, cfg: Model.Config, c: Model.Conn, call: Call, d: Model.Conn)
    requires Pictures(s, id, l, cfg, c) && Agrees(c.entry)
    requires !call.Removal? && d.entry == Apply(c.entry, call)
    ensures Pictures(UpdateRec(s, id, Seen(l, cfg, d).(index := c.entry.index)), id, l, cfg, d)
  {
    ApplyUnfolds(c.entry, call);
  }

  lemma RemovePictures(s: Sys, id: ConnId, l: nat, cfg: Model.Config, c: Model.Conn, d: Model.Conn)
    requires Pictures(s, id, l, cfg, c) && Agrees(c.entry)
    requires d == c.(entry := Apply(c.entry, Removal), destroyed := true)
    ensures Pictures(RemoveFiled(s, id), id, l, cfg, d)
  {
    ApplyUnfolds(c.entry, Removal);
  }

  /** A call on the Filed that asks for writing or stops asking is one ChangeMask step. */
  lemma MaskLeads(s: Sys, id: ConnId, l: nat, cfg: Model.Config, c: Model.Conn, call: Call, d: Model.Conn)
    requires Pictures(s, id, l, cfg, c) && CanAct(s, id, l) && Coherent(c) && Live(c)
    requires call.WriteOn? || call.WriteOff?
    requires d.entry == Apply(c.entry, call) && Seen(l, cfg, d) == Seen(l, cfg, c.(entry := d.entry))
    ensures Leads(s, [ChangeMask(l, id, d.entry.events)], id, l, cfg, d)
  {
    ApplyAgrees(c.entry, call);
    var step := ChangeMask(l, id, d.entry.events);
    var r := s.recs[id].(events := d.entry.events);
    assert r == Seen(l, cfg, d).(index := c.entry.index);
    UpdatePictures(s, id, l, cfg, c, call, d);
    OwnershipTheorems.UpdateHolders(s, id, r, id);
    OwnershipSteps.UpdateQuiet(s, id, r);
    assert Enabled(s, step);
    OwnershipSteps.RunOne(s, step);
  }

  /** What a send can do to what the server sees of the connection. */
  lemma SendSeen(cfg: Model.Config, c: Model.Conn, data: seq<byte>, before: byte, reply: Model.Reply)
    ensures var d := Model.SendInLoop(cfg, c, data, before, reply);
            && (d.entry == c.entry || d.entry == Apply(c.entry, WriteOn))
            && d == c.(entry := d.entry, output := d.output, queued := d.queued, accepted := d.accepted,
                       wire := d.wire, levels := d.levels)
            && (c.state.Disconnected? ==> d == c)
  {
  }

  lemma NothingLeads(s: Sys, id: ConnId, l: nat, cfg: Model.Config, c: Model.Conn, d: Model.Conn)
    requires Pictures(s, id, l, cfg, c) && CanAct(s, id, l) && d.entry == c.entry && Seen(l, cfg, d) == Seen(l, cfg, c)
    ensures Leads(s, [], id, l, cfg, d)
  {
  }

  lemma SendLeads(s: Sys, id: ConnId, l: nat, cfg: Model.Config, c: Model.Conn,
                  data: seq<byte>, before: byte, reply: Model.Reply)
    requires Pictures(s, id, l, cfg, c) && CanAct(s, id, l) && Coherent(c) && !c.state.Connecting? && !c.destroyed
    ensures var d := Model.SendInLoop(cfg, c, data, before, reply);
            Leads(s, MaskSteps(id, l, c, d), id, l, cfg, d)
  {
    var d := Model.SendInLoop(cfg, c, data, before, reply);
    SendSeen(cfg, c, data, before, reply);
    if d.entry == c.entry {
      NothingLeads(s, id, l, cfg, c, d);
    } else {
      MaskLeads(s, id, l, cfg, c, WriteOn, d);
    }
  }

  lemma QueuedSendLeads(s: Sys, id: ConnId, l: nat, cfg: Model.Config, c: Model.Conn,
                        data: seq<byte>, before: byte, reply: Model.Reply)
    requires Pictures(s, id, l, cfg, c) && CanAct(s, id, l) && s.loops[l].phase.Draining?
    requires Coherent(c) && !c.state.Connecting?
    ensures var d := Model.SendInLoop(cfg, c, data, before, reply);
            Reaches(s, QueuedSendSteps(id, l, c, d), id, l, cfg, d)
  {
    var d := Model.SendInLoop(cfg, c, data, before, reply);
    SendSeen(cfg, c, data, before, reply);
    if !c.destroyed {
      SendLeads(s, id, l, cfg, c, data, before, reply);
    } else if d.entry == c.entry {
      NothingLeads(s, id, l, cfg, c, d);
    } else {
      LateSendLeads(s, id, l, cfg, c, d);
    }
  }

  lemma LateSendLeads(s: Sys, id: ConnId, l: nat, cfg: Model.Config, c: Model.Conn, d: Model.Conn)
    requires Pictures(s, id, l, cfg, c) && Held(s, id) && s.loops[l].phase.Draining?
    requires Agrees(c.entry) && c.entry.index.New? && c.state.Disconnecting? && !Model.Writing(c)
    requires d.entry == Apply(c.entry, WriteOn) && Seen(l, cfg, d) == Seen(l, cfg, c.(entry := d.entry))
    ensures Reaches(s, [LateSend(l, id)], id, l, cfg, d)
  {
    ApplyAgrees(c.entry, WriteOn);
    var r := s.recs[id].(events := s.recs[id].events.Or(WRITE_EVENT));
    assert r == Seen(l, cfg, d).(index := c.entry.index);
    UpdatePictures(s, id, l, cfg, c, WriteOn, d);
    OwnershipSteps.RunOne(s, LateSend(l, id));
  }

  /** The one step of shutdown that the server sees, whoever calls it. */
  lemma ShutdownLeads(s: Sys, id: ConnId, l: nat, cfg: Model.Config, c: Model.Conn, d: Model.Conn)
    requires Pictures(s, id, l, cfg, c) && Held(s, id) && c.state.Connected?
    requires d.entry == c.entry && Seen(l, cfg, d) == Seen(l, cfg, c.(state := Model.Disconnecting))
    ensures Reaches(s, [StartShutdown(id)], id, l, cfg, d)
    ensures CanAct(s, id, l) ==> Leads(s, [StartShutdown(id)], id, l, cfg, d)
  {
    OwnershipTheorems.ShutdownHolders(s, id, id);
    OwnershipSteps.RunOne(s, StartShutdown(id));
  }

  lemma ActLeads(s: Sys, id: ConnId, l: nat, cfg: Model.Config, c: Model.Conn, action: Model.Action)
    requires Pictures(s, id, l, cfg, c) && CanAct(s, id, l) && Coherent(c) && !c.state.Connecting?
    ensures Leads(s, ActSteps(id, l, cfg, c, action), id, l, cfg, Model.Act(cfg, c, action))
  {
    var d := Model.Act(cfg, c, action);
    if c.state.Connected? && action.Send? {
      SendLeads(s, id, l, cfg, c, action.data, action.before, action.reply);
    } else if c.state.Connected? && action.Shutdown? {
      ShutdownLeads(s, id, l, cfg, c, d);
    } else {
      NothingLeads(s, id, l, cfg, c, d);
    }
  }

  lemma {:induction false} ActsLead(s: Sys, id: ConnId, l: nat, cfg: Model.Config, c: Model.Conn,
                                    actions: seq<Model.Action>)
    requires Pictures(s, id, l, cfg, c) && CanAct(s, id, l) && Coherent(c) && !c.state.Connecting?
    ensures Leads(s, ActsSteps(id, l, cfg, c, actions), id, l, cfg, Model.Acts(cfg, c, actions))
    decreases |actions|
  {
    if actions == [] {
      NothingLeads(s, id, l, cfg, c, c);
    } else {
      var c1 := Model.Act(cfg, c, actions[0]);
      var first := ActSteps(id, l, cfg, c, actions[0]);
      ActLeads(s, id, l, cfg, c, actions[0]);
      ActCoherent(cfg, c, actions[0]);
      ActsLead(Run(s, first), id, l, cfg, c1, actions[1..]);
      LeadsOn(s, first, ActsSteps(id, l, cfg, c1, actions[1..]), id, l, cfg, c1, Model.Acts(cfg, c, actions));
    }
  }

  /* ---------- Events ---------- */

  /** handleClose is one Close step of the loop that handles the connection. */
  lemma CloseLeads(s: Sys, id: ConnId, l: nat, cfg: Model.Config, c: Model.Conn)
    requires Pictures(s, id, l, cfg, c) && Agrees(c.entry) && InHandler(s, l) && Current(s, l) == id
    ensures Leads(s, [Close(l)], id, l, cfg, Model.HandleClose(c))
  {
    var d := Model.HandleClose(c);
    var s1 := MarkClosed(s, l);
    assert Pictures(s1, id, l, cfg, c);
    assert Down(s1.recs[id], 1) == Seen(l, cfg, d).(index := c.entry.index);
    UpdatePictures(s1, id, l, cfg, c, AllOff, d);
    OwnershipSteps.UpdateQuiet(s1, id, Down(s1.recs[id], 1));
    var s2 := UpdateRec(s1, id, Down(s1.recs[id], 1));
    assert Guarded(s2.loops[l], id);
    var t := HandleClose(s, l);
    assert t.recs == s2.recs && t.loops[l] == s2.loops[l].(queue := t.loops[l].queue);
    assert HeldBy(t.loops[l], id);
    OwnershipSteps.RunOne(s, Close(l));
  }

  lemma ReadLeads(s: Sys, id: ConnId, l: nat, cfg: Model.Config, c: Model.Conn, arrival: ReadResult,
                  actions: seq<Model.Action>)
    requires Pictures(s, id, l, cfg, c) && InHandler(s, l) && Current(s, l) == id
    requires Coherent(c) && !c.state.Connecting? && !c.destroyed
    ensures var d := Model.HandleRead(cfg, c, arrival, actions);
            && Leads(s, ReadSteps(id, l, cfg, c, arrival, actions), id, l, cfg, d)
            && Coherent(d) && !d.state.Connecting? && !d.destroyed
  {
    assert HeldBy(s.loops[l], id);
    if arrival.ReadError? {
      NothingLeads(s, id, l, cfg, c, c);
    } else if arrival.bytes == [] {
      CloseLeads(s, id, l, cfg, c);
      CloseCoherent(c);
    } else {
      var c1 := c.(input := c.input + arrival.bytes, received := c.received + arrival.bytes);
      ActsLead(s, id, l, cfg, c1, actions);
      ActsCoherent(cfg, c1, actions);
    }
  }

  lemma WriteLeads(s: Sys, id: ConnId, l: nat, cfg: Model.Config, c: Model.Conn, reply: Model.Reply)
    requires Pictures(s, id, l, cfg, c) && CanAct(s, id, l)
    requires Coherent(c) && !c.state.Connecting? && !c.destroyed
    ensures var d := Model.HandleWrite(cfg, c, reply);
            Leads(s, MaskSteps(id, l, c, d), id, l, cfg, d)
  {
    var d := Model.HandleWrite(cfg, c, reply);
    assert Seen(l, cfg, d) == Seen(l, cfg, c.(entry := d.entry));
    if d.entry == c.entry {
      NothingLeads(s, id, l, cfg, c, d);
    } else {
      assert Model.Writing(c) && d.entry == Apply(c.entry, WriteOff);
      MaskLeads(s, id, l, cfg, c, WriteOff, d);
    }
  }

  lemma OccurredLeads(s: Sys, id: ConnId, l: nat, cfg: Model.Config, c: Model.Conn, event: Model.Event)
    requires event.Occurred? && Pictures(s, id, l, cfg, c) && At(s, id, l, event)
    requires Coherent(c) && Model.Enabled(c, event)
    ensures Leads(s, OccurredSteps(id, l, cfg, c, event), id, l, cfg, Model.Step(cfg, c, event))
  {
    assert HeldBy(s.loops[l], id);
    var a, b, w := [], [], [];
    var c1 := c;
    NothingLeads(s, id, l, cfg, c, c);
    if event.revents.hup && !event.revents.in_ {
      a, c1 := [Close(l)], Model.HandleClose(c);
      CloseLeads(s, id, l, cfg, c);
      CloseCoherent(c);
    }
    var s1 := Run(s, a);
    var c2 := c1;
    NothingLeads(s1, id, l, cfg, c1, c1);
    if event.revents.Meets(READ_EVENT) {
      c2 := Model.HandleRead(cfg, c1, event.arrival, event.actions);
      b := ReadSteps(id, l, cfg, c1, event.arrival, event.actions);
      ReadLeads(s1, id, l, cfg, c1, event.arrival, event.actions);
    }
    LeadsOn(s, a, b, id, l, cfg, c1, c2);
    var s2 := Run(s, a + b);
    NothingLeads(s2, id, l, cfg, c2, c2);
    if event.revents.out {
      w := MaskSteps(id, l, c2, Model.HandleWrite(cfg, c2, event.reply));
      WriteLeads(s2, id, l, cfg, c2, event.reply);
    }
    LeadsOn(s, a + b, w, id, l, cfg, c2, Model.Step(cfg, c, event));
  }

  lemma EstablishedLeads(s: Sys, id: ConnId, l: nat, cfg: Model.Config, c: Model.Conn, actions: seq<Model.Action>)
    requires Pictures(s, id, l, cfg, c) && CanRun(s, l) && TaskOf(s, l) == Establish(id)
    requires Coherent(c) && c.state.Connecting?
    ensures var event := Model.Established(actions);
            Leads(s, EventSteps(id, l, cfg, c, event), id, l, cfg, Model.Step(cfg, c, event))
  {
    var up := AtCallback(c, Model.Established(actions));
    UpLeads(s, id, l, cfg, c, up);
    StepCoherent(cfg, c, Model.Established([]));
    assert Model.Step(cfg, c, Model.Established([])) == up;
    ActsLead(Run(s, [RunTask(l)]), id, l, cfg, up, actions);
    LeadsOn(s, [RunTask(l)], ActsSteps(id, l, cfg, up, actions), id, l, cfg, up,
            Model.ConnectEstablished(cfg, c, actions));
  }

  lemma UpLeads(s: Sys, id: ConnId, l: nat, cfg: Model.Config, c: Model.Conn, up: Model.Conn)
    requires Pictures(s, id, l, cfg, c) && CanRun(s, l) && TaskOf(s, l) == Establish(id) && Agrees(c.entry)
    requires up == AtCallback(c, Model.Established([]))
    ensures Leads(s, [RunTask(l)], id, l, cfg, up)
  {
    var s1 := Popped(s, l);
    assert Pictures(s1, id, l, cfg, c);
    assert Ownership.Established(s1.recs[id]) == Seen(l, cfg, up).(index := c.entry.index);
    UpdatePictures(s1, id, l, cfg, c, ReadOn, up);
    OwnershipSteps.UpdateQuiet(s1, id, Ownership.Established(s1.recs[id]));
    OwnershipSteps.RunOne(s, RunTask(l));
    TaskHolds(s, l, Run(s, [RunTask(l)]), id);
  }

  /** A functor that runs stays in doPendFunc's vector, and so keeps its connection. */
  lemma TaskHolds(s: Sys, l: nat, t: Sys, id: ConnId)
    requires CanRun(s, l) && TaskOf(s, l).conn == id && l < |t.loops|
    requires t.loops[l].local == s.loops[l].local && t.loops[l].phase.Draining?
    ensures CanAct(t, id, l)
  {
    assert Mentions(t.loops[l].local, id);
    assert HeldBy(t.loops[l], id);
  }

  lemma DestroyPictures(s: Sys, id: ConnId, l: nat, cfg: Model.Config, c: Model.Conn)
    requires Pictures(s, id, l, cfg, c) && Agrees(c.entry)
    ensures Pictures(DestroyConn(s, id), id, l, cfg, Model.ConnectDestroyed(c))
  {
    if c.state.Connected? {
      var c1 := c.(state := Model.Disconnected, entry := Apply(c.entry, AllOff), downs := c.downs + 1);
      assert Down(s.recs[id], 0) == Seen(l, cfg, c1).(index := c.entry.index);
      UpdatePictures(s, id, l, cfg, c, AllOff, c1);
      ApplyAgrees(c.entry, AllOff);
      RemovePictures(UpdateRec(s, id, Down(s.recs[id], 0)), id, l, cfg, c1, Model.ConnectDestroyed(c));
    } else {
      RemovePictures(s, id, l, cfg, c, Model.ConnectDestroyed(c));
    }
  }

  lemma DestroyedLeads(s: Sys, id: ConnId, l: nat, cfg: Model.Config, c: Model.Conn)
    requires Pictures(s, id, l, cfg, c) && CanRun(s, l) && TaskOf(s, l) == Destroy(id) && Agrees(c.entry)
    ensures Leads(s, [RunTask(l)], id, l, cfg, Model.ConnectDestroyed(c))
  {
    var s1 := Popped(s, l);
    assert Pictures(s1, id, l, cfg, c);
    DestroyPictures(s1, id, l, cfg, c);
    OwnershipSteps.DestroyQuiet(s1, id);
    OwnershipSteps.RunOne(s, RunTask(l));
    TaskHolds(s, l, Run(s, [RunTask(l)]), id);
  }

  /** Whatever an event makes one connection do, when its loop's thread comes to that event: the
      server machine has steps that do the same to the connection's record and to both tables. */
  lemma EventSimulated(s: Sys, id: ConnId, l: nat, cfg: Model.Config, c: Model.Conn, event: Model.Event)
    requires Pictures(s, id, l, cfg, c) && At(s, id, l, event)
    requires Coherent(c) && Model.Enabled(c, event)
    ensures Reaches(s, EventSteps(id, l, cfg, c, event), id, l, cfg, Model.Step(cfg, c, event))
  {
    match event
    case Established(actions) => EstablishedLeads(s, id, l, cfg, c, actions);
    case UserCode(actions) =>
      if c.state.Connecting? {
        IdleSteps(id, l, cfg, actions);
      } else {
        ActsLead(s, id, l, cfg, c, actions);
      }
    case SendCalled(_) =>
    case QueuedSend(data, before, reply) => QueuedSendLeads(s, id, l, cfg, c, data, before, reply);
    case ShutdownCalled =>
      if c.state.Connected? {
        ShutdownLeads(s, id, l, cfg, c, Model.Step(cfg, c, event));
      }
    case QueuedShutdown =>
    case Occurred(_, _, _, _) => OccurredLeads(s, id, l, cfg, c, event);
    case Destroyed => DestroyedLeads(s, id, l, cfg, c);
  }

  /** User code does nothing to a connection that has not been established. */
  lemma {:induction false} IdleSteps(id: ConnId, l: nat, cfg: Model.Config, actions: seq<Model.Action>)
    ensures ActsSteps(id, l, cfg, Model.NEW_CONN, actions) == []
    ensures Model.Acts(cfg, Model.NEW_CONN, actions) == Model.NEW_CONN
    decreases |actions|
  {
    if actions != [] {
      assert Model.Act(cfg, Model.NEW_CONN, actions[0]) == Model.NEW_CONN;
      IdleSteps(id, l, cfg, actions[1..]);
    }
  }

  /** ~Server's connectDestroyed of a connection of the base loop, which runs at once. */
  lemma BaseDestroyed(s: Sys, id: ConnId, cfg: Model.Config, c: Model.Conn)
    requires Pictures(s, id, 0, cfg, c) && Enabled(s, DestroyItem(id)) && Agrees(c.entry)
    ensures Reaches(s, [DestroyItem(id)], id, 0, cfg, Model.ConnectDestroyed(c))
  {
    var s1 := Erased(s, id);
    assert Pictures(s1, id, 0, cfg, c);
    DestroyPictures(s1, id, 0, cfg, c);
    OwnershipSteps.RunOne(s, DestroyItem(id));
  }

  /* ---------- Everything else that happens ---------- */

  /** Does this step act on the record or the Filed of the connection? */
  predicate ActsOn(s: Sys, step: Step, id: ConnId)
    requires Enabled(s, step)
  {
    match step
    case ChangeMask(_, c, _) => c == id
    case LateSend(_, c) => c == id
    case StartShutdown(c) => c == id
    case Close(l) => Current(s, l) == id
    case RunTask(l) => TaskOf(s, l).conn == id && !TaskOf(s, l).Remove?
    case DestroyItem(c) => c == id && s.recs[c].loop == 0
    case _ => false
  }

  /** The connection's entries, if it has any, are not at d's descriptor. */
  predicate Clear(s: Sys, id: ConnId, l: nat, d: ConnId) {
    && l < |s.loops| && id in s.recs && d in s.recs && d != id
    && (Maps(s.loops[l].fileds, s.recs[id].fd, id) || Maps(s.loops[l].kernel, s.recs[id].fd, id) ==>
          s.recs[d].fd != s.recs[id].fd)
  }

  lemma HeldIsClear(s: Sys, id: ConnId, l: nat, d: ConnId)
    requires Inv(s) && l < |s.loops| && id in s.recs && d in s.recs && d != id && Held(s, d)
    ensures Clear(s, id, l, d)
  {
    AloneAtFd(s, d);
    var fd := s.recs[id].fd;
    assert Maps(s.loops[l].fileds, fd, id) ==> InFileds(s, l, fd, id);
    assert Maps(s.loops[l].kernel, fd, id) ==> InKernel(s, l, fd, id);
  }

  lemma UpdateOther(s: Sys, id: ConnId, l: nat, cfg: Model.Config, c: Model.Conn, d: ConnId, r: Rec)
    requires Pictures(s, id, l, cfg, c) && Clear(s, id, l, d) && Known(s, d) && SameSeat(s.recs[d], r)
    ensures Pictures(UpdateRec(s, d, r), id, l, cfg, c) && Clear(UpdateRec(s, d, r), id, l, d)
  {
  }

  lemma RemoveOther(s: Sys, id: ConnId, l: nat, cfg: Model.Config, c: Model.Conn, d: ConnId)
    requires Pictures(s, id, l, cfg, c) && Clear(s, id, l, d) && Known(s, d)
    ensures Pictures(RemoveFiled(s, d), id, l, cfg, c)
  {
  }

  lemma DestroyOther(s: Sys, id: ConnId, l: nat, cfg: Model.Config, c: Model.Conn, d: ConnId)
    requires Pictures(s, id, l, cfg, c) && Clear(s, id, l, d) && Known(s, d)
    ensures Pictures(DestroyConn(s, d), id, l, cfg, c)
  {
    if s.recs[d].state.Connected? {
      UpdateOther(s, id, l, cfg, c, d, Down(s.recs[d], 0));
      OwnershipSteps.UpdateQuiet(s, d, Down(s.recs[d], 0));
      RemoveOther(UpdateRec(s, d, Down(s.recs[d], 0)), id, l, cfg, c, d);
    } else {
      RemoveOther(s, id, l, cfg, c, d);
    }
  }

  /** Only queues, phases and the server's map change. */
  ghost predicate SameTables(s: Sys, t: Sys) {
    && |t.loops| == |s.loops| && t.recs == s.recs
    && forall k :: 0 <= k < |s.loops| ==>
         t.loops[k].fileds == s.loops[k].fileds && t.loops[k].kernel == s.loops[k].kernel
  }

  lemma PushSameTables(s: Sys, k: nat, task: Task)
    requires k < |s.loops|
    ensures SameTables(s, Push(s, k, task))
  {
  }

  lemma PhaseSameTables(s: Sys, k: nat, p: Phase)
    requires k < |s.loops|
    ensures SameTables(s, WithPhase(s, k, p))
  {
  }

  lemma RemoveInLoopSameTables(s: Sys, d: ConnId)
    requires Known(s, d)
    ensures SameTables(s, RemoveInLoop(s, d))
  {
    PushSameTables(Erased(s, d), s.recs[d].loop, Destroy(d));
  }

  lemma SamePicture(s: Sys, t: Sys, id: ConnId, l: nat, cfg: Model.Config, c: Model.Conn)
    requires SameTables(s, t)
    ensures Pictures(t, id, l, cfg, c) <==> Pictures(s, id, l, cfg, c)
    ensures forall d :: Clear(t, id, l, d) <==> Clear(s, id, l, d)
  {
  }

  lemma AcceptOther(s: Sys, id: ConnId, l: nat, cfg: Model.Config, c: Model.Conn, fd: int, k: nat)
    requires Inv(s) && Enabled(s, Accept(fd, k)) && Pictures(s, id, l, cfg, c)
    ensures Pictures(Next(s, Accept(fd, k)), id, l, cfg, c)
  {
    var s1 := Created(s, fd, k);
    assert Pictures(s1, id, l, cfg, c);
    if k == 0 {
      assert Maps(s.loops[l].fileds, cfg.fd, id) ==> InFileds(s, l, cfg.fd, id);
      assert Maps(s.loops[l].kernel, cfg.fd, id) ==> InKernel(s, l, cfg.fd, id);
      if !s.recs[id].index.New? {
        RegisteredIsHeld(s, id);
      }
      UpdateOther(s1, id, l, cfg, c, s.nextId, Ownership.Established(s1.recs[s.nextId]));
    }
  }

  lemma CloseOther(s: Sys, id: ConnId, l: nat, cfg: Model.Config, c: Model.Conn, k: nat)
    requires Inv(s) && InHandler(s, k) && Known(s, Current(s, k)) && Current(s, k) != id && Pictures(s, id, l, cfg, c)
    ensures Pictures(HandleClose(s, k), id, l, cfg, c)
  {
    var d := Current(s, k);
    assert HeldBy(s.loops[k], d);
    HeldIsClear(s, id, l, d);
    var s1 := MarkClosed(s, k);
    PhaseSameTables(s, k, s1.loops[k].phase);
    SamePicture(s, s1, id, l, cfg, c);
    var s2 := UpdateRec(s1, d, Down(s1.recs[d], 1));
    UpdateOther(s1, id, l, cfg, c, d, Down(s1.recs[d], 1));
    OwnershipSteps.UpdateQuiet(s1, d, Down(s1.recs[d], 1));
    RemoveInLoopSameTables(s2, d);
    PushSameTables(s2, 0, Remove(d));
    SamePicture(s2, HandleClose(s, k), id, l, cfg, c);
  }

  lemma RunOther(s: Sys, id: ConnId, l: nat, cfg: Model.Config, c: Model.Conn, k: nat)
    requires Inv(s) && CanRun(s, k) && Known(s, TaskOf(s, k).conn) && Pictures(s, id, l, cfg, c)
    requires TaskOf(s, k).conn != id || TaskOf(s, k).Remove?
    ensures Pictures(RunFunctor(s, k), id, l, cfg, c)
  {
    var d := TaskOf(s, k).conn;
    var s1 := Popped(s, k);
    PhaseSameTables(s, k, s1.loops[k].phase);
    SamePicture(s, s1, id, l, cfg, c);
    if TaskOf(s, k).Remove? {
      RemoveInLoopSameTables(s1, d);
      SamePicture(s1, RemoveInLoop(s1, d), id, l, cfg, c);
    } else {
      assert Mentions(s.loops[k].local, d) && HeldBy(s.loops[k], d);
      HeldIsClear(s, id, l, d);
      RunClear(s1, id, l, cfg, c, d);
    }
  }

  lemma RunClear(s: Sys, id: ConnId, l: nat, cfg: Model.Config, c: Model.Conn, d: ConnId)
    requires Pictures(s, id, l, cfg, c) && Clear(s, id, l, d) && Known(s, d)
    ensures Pictures(EstablishConn(s, d), id, l, cfg, c) && Pictures(DestroyConn(s, d), id, l, cfg, c)
  {
    UpdateOther(s, id, l, cfg, c, d, Ownership.Established(s.recs[d]));
    DestroyOther(s, id, l, cfg, c, d);
  }

  lemma DestroyItemOther(s: Sys, id: ConnId, l: nat, cfg: Model.Config, c: Model.Conn, d: ConnId)
    requires Inv(s) && Known(s, d) && InMap(s, d) && (d != id || s.recs[d].loop != 0) && Pictures(s, id, l, cfg, c)
    ensures Pictures(DestroyOne(s, d), id, l, cfg, c)
  {
    var s1 := Erased(s, d);
    SamePicture(s, s1, id, l, cfg, c);
    if s.recs[d].loop == 0 {
      HeldIsClear(s, id, l, d);
      DestroyOther(s1, id, l, cfg, c, d);
    } else {
      PushSameTables(s1, s.recs[d].loop, Destroy(d));
      SamePicture(s1, Push(s1, s.recs[d].loop, Destroy(d)), id, l, cfg, c);
    }
  }

  lemma MaskOther(s: Sys, id: ConnId, l: nat, cfg: Model.Config, c: Model.Conn, step: Step)
    requires step.ChangeMask? && Inv(s) && Enabled(s, step) && step.c != id && Pictures(s, id, l, cfg, c)
    ensures Pictures(Next(s, step), id, l, cfg, c)
  {
    HeldIsClear(s, id, l, step.c);
    UpdateOther(s, id, l, cfg, c, step.c, s.recs[step.c].(events := step.events));
  }

  lemma LateSendOther(s: Sys, id: ConnId, l: nat, cfg: Model.Config, c: Model.Conn, step: Step)
    requires step.LateSend? && Inv(s) && Enabled(s, step) && step.c != id && Pictures(s, id, l, cfg, c)
    ensures Pictures(Next(s, step), id, l, cfg, c)
  {
    HeldIsClear(s, id, l, step.c);
    UpdateOther(s, id, l, cfg, c, step.c, s.recs[step.c].(events := s.recs[step.c].events.Or(WRITE_EVENT)));
  }

  /** The steps at which a loop only moves on, and those of user code holding pointers. */
  predicate Quiet(step: Step) {
    step.PollReturns? || step.BeginHandle? || step.EndHandle? || step.StartDrain? || step.EndDrain?
    || step.StopBase? || step.Pin? || step.Unpin?
  }

  lemma QuietOther(s: Sys, id: ConnId, l: nat, cfg: Model.Config, c: Model.Conn, step: Step)
    requires Quiet(step) && Enabled(s, step) && Pictures(s, id, l, cfg, c)
    ensures Pictures(Next(s, step), id, l, cfg, c)
  {
    assert SameTables(s, Next(s, step));
    SamePicture(s, Next(s, step), id, l, cfg, c);
  }

  /** Nothing that happens elsewhere disturbs the picture. */
  lemma OthersKeepPicture(s: Sys, id: ConnId, l: nat, cfg: Model.Config, c: Model.Conn, step: Step)
    requires Inv(s) && Enabled(s, step) && !ActsOn(s, step, id) && Pictures(s, id, l, cfg, c)
    ensures Pictures(Next(s, step), id, l, cfg, c)
  {
    if Quiet(step) {
      QuietOther(s, id, l, cfg, c, step);
    } else {
      match step
      case Accept(fd, k) => AcceptOther(s, id, l, cfg, c, fd, k);
      case ChangeMask(_, _, _) => MaskOther(s, id, l, cfg, c, step);
      case LateSend(_, _) => LateSendOther(s, id, l, cfg, c, step);
      case StartShutdown(_) =>
      case Close(k) => CloseOther(s, id, l, cfg, c, k);
      case RunTask(k) => RunOther(s, id, l, cfg, c, k);
      case DestroyItem(d) => DestroyItemOther(s, id, l, cfg, c, d);
    }
  }

  /* ---------- Whole runs ---------- */

  /** What happens next, seen from one connection: a step of the server that is not about it, one of
      its own events, or the end of a connection of the base loop at ~Server's hands. */
  datatype Item = Elsewhere(step: Step) | Here(event: Model.Event) | EndHere

  function ItemSteps(id: ConnId, l: nat, cfg: Model.Config, c: Model.Conn, item: Item): seq<Step> {
    match item
    case Elsewhere(step) => [step]
    case Here(event) => EventSteps(id, l, cfg, c, event)
    case EndHere => [DestroyItem(id)]
  }

  function AfterItem(cfg: Model.Config, c: Model.Conn, item: Item): Model.Conn {
    match item
    case Elsewhere(_) => c
    case Here(event) => Model.Step(cfg, c, event)
    case EndHere => Model.Step(cfg, c, Model.Destroyed)
  }

  /** The item can come next. */
  predicate Possible(s: Sys, id: ConnId, l: nat, c: Model.Conn, item: Item) {
    match item
    case Elsewhere(step) => Enabled(s, step) && !ActsOn(s, step, id)
    case Here(event) => At(s, id, l, event) && Model.Enabled(c, event)
    case EndHere => l == 0 && Enabled(s, DestroyItem(id)) && Model.Enabled(c, Model.Destroyed)
  }

  /** A send comes late, to this connection or to another. */
  predicate ComesLate(cfg: Model.Config, c: Model.Conn, item: Item) {
    (item.Elsewhere? && item.step.LateSend?) || (item.Here? && RevivingEvent(cfg, c, item.event))
  }

  /** Each item can come next where it stands, as far as its predecessors could be carried out; and
      the story is told up to the first late send, which it includes. */
  predicate Story(s: Sys, id: ConnId, l: nat, cfg: Model.Config, c: Model.Conn, items: seq<Item>)
    decreases |items|
  {
    items == [] ||
    (var steps := ItemSteps(id, l, cfg, c, items[0]);
     && Possible(s, id, l, c, items[0])
     && (ComesLate(cfg, c, items[0]) ==> |items| == 1)
     && (EnabledRun(s, steps) ==> Story(Run(s, steps), id, l, cfg, AfterItem(cfg, c, items[0]), items[1..])))
  }

  function StorySteps(id: ConnId, l: nat, cfg: Model.Config, c: Model.Conn, items: seq<Item>): seq<Step>
    decreases |items|
  {
    if items == [] then []
    else ItemSteps(id, l, cfg, c, items[0]) + StorySteps(id, l, cfg, AfterItem(cfg, c, items[0]), items[1..])
  }

  /** The connection's own events among the items. */
  function Events(items: seq<Item>): seq<Model.Event> {
    if items == [] then []
    else
      var rest := Events(items[1..]);
      match items[0]
      case Elsewhere(_) => rest
      case Here(event) => [event] + rest
      case EndHere => [Model.Destroyed] + rest
  }

  lemma ItemSimulated(s: Sys, id: ConnId, l: nat, cfg: Model.Config, c: Model.Conn, item: Item)
    requires Inv(s) && Pictures(s, id, l, cfg, c) && Coherent(c) && Possible(s, id, l, c, item)
    ensures Reaches(s, ItemSteps(id, l, cfg, c, item), id, l, cfg, AfterItem(cfg, c, item))
    ensures !ComesLate(cfg, c, item) ==> Coherent(AfterItem(cfg, c, item))
  {
    match item {
      case Elsewhere(step) =>
        OwnershipSteps.RunOne(s, step);
        OthersKeepPicture(s, id, l, cfg, c, step);
      case Here(event) =>
        EventSimulated(s, id, l, cfg, c, event);
        StepCoherent(cfg, c, event);
      case EndHere =>
        BaseDestroyed(s, id, cfg, c);
        StepCoherent(cfg, c, Model.Destroyed);
    }
  }

  lemma ItemInv(s: Sys, id: ConnId, l: nat, cfg: Model.Config, c: Model.Conn, item: Item)
    requires Inv(s) && EnabledRun(s, ItemSteps(id, l, cfg, c, item)) && !ComesLate(cfg, c, item)
    requires Coherent(c) && (item.Here? ==> Model.Enabled(c, item.event))
    ensures Inv(Run(s, ItemSteps(id, l, cfg, c, item)))
  {
    if item.Here? {
      EventComesInTime(id, l, cfg, c, item.event);
    }
    OwnershipSteps.RunInv(s, ItemSteps(id, l, cfg, c, item));
  }

  /** The only late step among those of an event is that of a reviving send. */
  lemma EventComesInTime(id: ConnId, l: nat, cfg: Model.Config, c: Model.Conn, event: Model.Event)
    requires Coherent(c) && Model.Enabled(c, event) && !RevivingEvent(cfg, c, event)
    ensures OwnershipSteps.NoLateSends(EventSteps(id, l, cfg, c, event))
  {
    match event
    case Established(actions) => ActsComeInTime(id, l, cfg, AtCallback(c, event), actions);
    case UserCode(actions) => ActsComeInTime(id, l, cfg, c, actions);
    case Occurred(revents, arrival, actions, _) =>
      var c1 := if revents.hup && !revents.in_ then Model.HandleClose(c) else c;
      if arrival.Arrived? {
        var c2 := c1.(input := c1.input + arrival.bytes, received := c1.received + arrival.bytes);
        ActsComeInTime(id, l, cfg, c2, actions);
      }
    case _ =>
  }

  lemma {:induction false} ActsComeInTime(id: ConnId, l: nat, cfg: Model.Config, c: Model.Conn,
                                          actions: seq<Model.Action>)
    ensures OwnershipSteps.NoLateSends(ActsSteps(id, l, cfg, c, actions))
    decreases |actions|
  {
    if actions != [] {
      ActsComeInTime(id, l, cfg, Model.Act(cfg, c, actions[0]), actions[1..]);
    }
  }

  /** Over any run: a connection's events, in the detailed model, interleaved with anything that
      happens to other connections on any loop, are a run of the server machine, which shows the
      connection at the end as its own events alone have made it. */
  lemma {:induction false} RunSimulated(s: Sys, id: ConnId, l: nat, cfg: Model.Config, c: Model.Conn, items: seq<Item>)
    requires Inv(s) && Pictures(s, id, l, cfg, c) && Coherent(c) && Story(s, id, l, cfg, c, items)
    ensures Reaches(s, StorySteps(id, l, cfg, c, items), id, l, cfg, Model.RunEvents(cfg, c, Events(items)))
    ensures Model.EnabledRun(cfg, c, Events(items))
    decreases |items|
  {
    if items != [] {
      var steps := ItemSteps(id, l, cfg, c, items[0]);
      var c1 := AfterItem(cfg, c, items[0]);
      var rest := items[1..];
      ItemSimulated(s, id, l, cfg, c, items[0]);
      if ComesLate(cfg, c, items[0]) {
        assert rest == [];
      } else {
        ItemInv(s, id, l, cfg, c, items[0]);
        RunSimulated(Run(s, steps), id, l, cfg, c1, rest);
      }
      OwnershipSteps.RunSplit(s, steps, StorySteps(id, l, cfg, c1, rest));
      EventsUnfold(cfg, c, items);
    }
  }

  lemma EventsUnfold(cfg: Model.Config, c: Model.Conn, items: seq<Item>)
    requires items != [] && (items[0].Here? ==> Model.Enabled(c, items[0].event))
    requires items[0].EndHere? ==> Model.Enabled(c, Model.Destroyed)
    requires Model.EnabledRun(cfg, AfterItem(cfg, c, items[0]), Events(items[1..]))
    ensures Model.EnabledRun(cfg, c, Events(items))
    ensures Model.RunEvents(cfg, c, Events(items))
         == Model.RunEvents(cfg, AfterItem(cfg, c, items[0]), Events(items[1..]))
  {
    var rest := Events(items[1..]);
    assert items[0].Here? ==> Events(items) == [items[0].event] + rest && Events(items)[1..] == rest;
    assert items[0].EndHere? ==> Events(items) == [Model.Destroyed] + rest && Events(items)[1..] == rest;
  }

  /** A connection just accepted: already established if it stays on the base loop. */
  function Started(cfg: Model.Config, l: nat): Model.Conn {
    if l == 0 then Model.ConnectEstablished(cfg, Model.NEW_CONN, []) else Model.NEW_CONN
  }

  /** Accepting starts the picture. */
  lemma AcceptedPictures(s: Sys, fd: int, l: nat, cfg: Model.Config)
    requires Inv(s) && Enabled(s, Accept(fd, l)) && cfg.fd == fd
    ensures Pictures(Next(s, Accept(fd, l)), s.nextId, l, cfg, Started(cfg, l))
  {
    var s1 := Created(s, fd, l);
    assert fd in s.loops[l].fileds ==> InFileds(s, l, fd, s.loops[l].fileds[fd]);
    assert fd in s.loops[l].kernel ==> InKernel(s, l, fd, s.loops[l].kernel[fd]);
    assert Pictures(s1, s.nextId, l, cfg, Model.NEW_CONN);
    if l == 0 {
      var up := Model.ConnectEstablished(cfg, Model.NEW_CONN, []);
      assert up == AtCallback(Model.NEW_CONN, Model.Established([]));
      UpdatePictures(s1, s.nextId, l, cfg, Model.NEW_CONN, ReadOn, up);
      assert Ownership.Established(s1.recs[s.nextId]) == Seen(l, cfg, up).(index := New);
    }
  }

  lemma AcceptedStarts(s: Sys, fd: int, l: nat, cfg: Model.Config)
    requires Inv(s) && Enabled(s, Accept(fd, l)) && cfg.fd == fd
    ensures var t := Next(s, Accept(fd, l));
            Inv(t) && Pictures(t, s.nextId, l, cfg, Started(cfg, l)) && Coherent(Started(cfg, l))
  {
    OwnershipSteps.StepInv(s, Accept(fd, l));
    AcceptedPictures(s, fd, l, cfg);
    StartedCoherent(cfg, l);
  }

  lemma StartedCoherent(cfg: Model.Config, l: nat)
    ensures Coherent(Started(cfg, l))
  {
    StepCoherent(cfg, Model.NEW_CONN, Model.Established([]));
  }

  /** From its accept on, on whichever loop. */
  lemma AcceptedRunSimulated(s: Sys, fd: int, l: nat, cfg: Model.Config, items: seq<Item>)
    requires Inv(s) && Enabled(s, Accept(fd, l)) && cfg.fd == fd
    requires Story(Next(s, Accept(fd, l)), s.nextId, l, cfg, Started(cfg, l), items)
    ensures var steps := StorySteps(s.nextId, l, cfg, Started(cfg, l), items);
            Reaches(Next(s, Accept(fd, l)), steps, s.nextId, l, cfg,
                    Model.RunEvents(cfg, Started(cfg, l), Events(items)))
  {
    AcceptedStarts(s, fd, l, cfg);
    RunSimulated(Next(s, Accept(fd, l)), s.nextId, l, cfg, Started(cfg, l), items);
  }
}
