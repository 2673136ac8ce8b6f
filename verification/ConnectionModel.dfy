/** One connection as a state machine: what each method of Connection.cpp does to its state, its
    buffers, its registration, the functors it queues and the bytes on the wire. */
module ConnectionModel {
  import opened Registration
  import opened Buffers
  import opened Reactor

  datatype State = Connecting | Connected | Disconnecting | Disconnected

  /** sendinLoop has an `else` that its comment and its braces attach to different conditions:
      `AsWritten` follows the braces, `Intended` the comment. */
  datatype Branch = AsWritten | Intended

  datatype Config = Config(fd: int, mark: nat, onWriteComplete: bool, onHighWater: bool, branch: Branch)

  /** The kernel's answer to a write: how much it has room for (negative: the call fails), and
      whether errno reads EWOULDBLOCK afterwards. A successful write leaves errno as it was. */
  datatype Reply = Reply(room: int, wouldBlock: bool)

  function Wrote(reply: Reply, len: nat): int {
    if reply.room < 0 then -1 else if reply.room < len then reply.room else len
  }

  /** What user code does with the connection from the loop's thread: `before` stands for the byte
      that happens to precede `data` in memory. */
  datatype Action =
    | Send(data: seq<byte>, before: byte, reply: Reply)
    | Shutdown
    | Consume(len: nat)

  /** `received`, `accepted` and `wire` log the bytes read from the peer, the bytes sendinLoop
      undertook to deliver and the bytes the kernel took; `levels` logs the output length after each
      change; `ups`, `downs`, `closes` and `halfCloses` count callbacks and shutdownWrite calls; `owed`
      says that a shutdownInLoop queued by another thread has yet to run. */
  datatype Conn = Conn(
    state: State, entry: Entry, input: seq<byte>, output: seq<byte>, queued: seq<Functor>,
    destroyed: bool, ups: nat, downs: nat, closes: nat, halfCloses: nat, owed: bool,
    received: seq<byte>, accepted: seq<byte>, wire: seq<byte>, levels: seq<nat>)

  const NEW_CONN := Conn(Connecting, FRESH, [], [], [], false, 0, 0, 0, 0, false, [], [], [], [0])

  predicate Writing(c: Conn) {
    IsWriting(c.entry.events)
  }

  /** sendinLoop writes directly only when nothing is queued or awaited. */
  predicate Attempts(c: Conn) {
    !Writing(c) && c.output == []
  }

  /** The len bytes of memory from data + offset on; an offset of -1 reaches the byte before. */
  function Memory(before: byte, data: seq<byte>, offset: int, len: nat): seq<byte>
    requires -1 <= offset && offset + len <= |data|
  {
    if offset >= 0 then data[offset..offset + len]
    else if len == 0 then []
    else [before] + data[..len - 1]
  }

  function QueuedIf(b: bool, queued: seq<Functor>, f: Functor): seq<Functor> {
    if b then queued + [f] else queued
  }

  predicate Signals(cfg: Config, from: nat, to: nat) {
    to >= cfg.mark && from < cfg.mark && cfg.onHighWater
  }

  /** Queue the bytes sendinLoop could not write, and ask for EPOLLOUT. */
  function QueueOutput(cfg: Config, c: Conn, bytes: seq<byte>): Conn {
    var from, to := |c.output|, |c.output| + |bytes|;
    c.(queued := QueuedIf(Signals(cfg, from, to), c.queued, HighWaterMark(cfg.fd, to)),
       output := c.output + bytes,
       levels := c.levels + [to],
       entry := if Writing(c) then c.entry else Apply(c.entry, WriteOn))
  }

  /** The locals of sendinLoop after its direct attempt. */
  datatype Attempt = Attempt(remaining: nat, offset: int, fault: bool, completes: bool)

  function AttemptOf(cfg: Config, len: nat, reply: Reply): (a: Attempt)
    ensures -1 <= a.offset && a.offset + a.remaining <= len
  {
    var n := Wrote(reply, len);
    var completes := n == len && cfg.onWriteComplete;
    if n > 0 then
      if cfg.branch.Intended? then Attempt(len - n, n, false, completes)
      else if completes then Attempt(0, n, false, true)
      else Attempt(len - n, 0, !reply.wouldBlock, false)
    else
      if cfg.branch.Intended? then Attempt(len, 0, !reply.wouldBlock, false)
      else Attempt(len, n, false, false)
  }

  /** Does sendinLoop give the data up, having written none of it? */
  predicate Refused(cfg: Config, c: Conn, len: nat, reply: Reply) {
    cfg.branch.Intended? && Attempts(c) && Wrote(reply, len) <= 0 && !reply.wouldBlock
  }

  function Accepted(cfg: Config, c: Conn, data: seq<byte>, reply: Reply): seq<byte> {
    if Refused(cfg, c, |data|, reply) then c.accepted else c.accepted + data
  }

  /** The connection after the direct write. */
  function AfterAttempt(cfg: Config, c: Conn, data: seq<byte>, reply: Reply): Conn {
    var n := Wrote(reply, |data|);
    c.(wire := if n > 0 then c.wire + data[..n] else c.wire,
       queued := QueuedIf(AttemptOf(cfg, |data|, reply).completes, c.queued, WriteComplete(cfg.fd)))
  }

  function SendInLoop(cfg: Config, c: Conn, data: seq<byte>, before: byte, reply: Reply): Conn {
    if c.state.Disconnected? then c
    else
      var c1 := c.(accepted := Accepted(cfg, c, data, reply));
      if Attempts(c) then
        var a := AttemptOf(cfg, |data|, reply);
        var c2 := AfterAttempt(cfg, c1, data, reply);
        if !a.fault && a.remaining > 0
        then QueueOutput(cfg, c2, Memory(before, data, a.offset, a.remaining))
        else c2
      else
        if |data| > 0 then QueueOutput(cfg, c1, data) else c1
  }

  function ShutdownInLoop(c: Conn): Conn {
    if Writing(c) then c else c.(halfCloses := c.halfCloses + 1)
  }

  /** send and shutdown when another thread calls them: sendinLoop and shutdownInLoop are queued. */
  function SendFromOther(cfg: Config, c: Conn, data: seq<byte>): Conn {
    c.(queued := QueuedIf(c.state.Connected?, c.queued, LateSend(cfg.fd, data)))
  }

  function ShutdownFromOther(cfg: Config, c: Conn): Conn {
    if c.state.Connected?
    then c.(state := Disconnecting, owed := true, queued := c.queued + [LateShutdown(cfg.fd)])
    else c
  }

  function Act(cfg: Config, c: Conn, action: Action): Conn {
    match action
    case Send(data, before, reply) =>
      if c.state.Connected? then SendInLoop(cfg, c, data, before, reply) else c
    case Shutdown =>
      if c.state.Connected? then ShutdownInLoop(c.(state := Disconnecting)) else c
    case Consume(len) =>
      c.(input := if len < |c.input| then c.input[len..] else [])
  }

  function Acts(cfg: Config, c: Conn, actions: seq<Action>): Conn
    decreases |actions|
  {
    if actions == [] then c else Acts(cfg, Act(cfg, c, actions[0]), actions[1..])
  }

  function HandleClose(c: Conn): Conn {
    c.(state := Disconnected, entry := Apply(c.entry, AllOff), downs := c.downs + 1, closes := c.closes + 1)
  }

  /** `actions` is what the message callback does. */
  function HandleRead(cfg: Config, c: Conn, arrival: ReadResult, actions: seq<Action>): Conn {
    if arrival.ReadError? then c
    else if arrival.bytes == [] then HandleClose(c)
    else Acts(cfg, c.(input := c.input + arrival.bytes, received := c.received + arrival.bytes), actions)
  }

  /** The output has just drained: stop asking for EPOLLOUT, report, finish a shutdown. */
  function Drained(cfg: Config, c: Conn): Conn {
    var c1 := c.(entry := Apply(c.entry, WriteOff),
                 queued := QueuedIf(cfg.onWriteComplete, c.queued, WriteComplete(cfg.fd)));
    if c.state.Disconnecting? then ShutdownInLoop(c1) else c1
  }

  function HandleWrite(cfg: Config, c: Conn, reply: Reply): Conn {
    var n := Wrote(reply, |c.output|);
    if !Writing(c) || n <= 0 then c
    else
      var c1 := c.(wire := c.wire + c.output[..n], output := c.output[n..], levels := c.levels + [|c.output| - n]);
      if n == |c.output| then Drained(cfg, c1) else c1
  }

  /** Filed::handleEvent: hang-up, then error (logged only), then input, then output. */
  function HandleEvent(cfg: Config, c: Conn, revents: Mask, arrival: ReadResult, actions: seq<Action>,
                       reply: Reply): Conn
  {
    var c1 := if revents.hup && !revents.in_ then HandleClose(c) else c;
    var c2 := if revents.Meets(READ_EVENT) then HandleRead(cfg, c1, arrival, actions) else c1;
    if revents.out then HandleWrite(cfg, c2, reply) else c2
  }

  /** `actions` is what the connection callback does. */
  function ConnectEstablished(cfg: Config, c: Conn, actions: seq<Action>): Conn {
    Acts(cfg, c.(state := Connected, entry := Apply(c.entry, ReadOn), ups := c.ups + 1), actions)
  }

  function ConnectDestroyed(c: Conn): Conn {
    var c1 := if c.state.Connected?
              then c.(state := Disconnected, entry := Apply(c.entry, AllOff), downs := c.downs + 1)
              else c;
    c1.(entry := Apply(c1.entry, Removal), destroyed := true)
  }

  datatype Event =
    | Established(actions: seq<Action>)
    | UserCode(actions: seq<Action>)
    | SendCalled(data: seq<byte>)
    | QueuedSend(data: seq<byte>, before: byte, reply: Reply)
    | ShutdownCalled
    | QueuedShutdown
    | Occurred(revents: Mask, arrival: ReadResult, actions: seq<Action>, reply: Reply)
    | Destroyed

  /** When each event can happen. A descriptor is reported only while the kernel's table holds it;
      a send queued by another thread had found the connection up, and is taken to run any number of
      times, in any order, also after connectDestroyed. */
  predicate Enabled(c: Conn, event: Event) {
    match event
    case Established(_) => c.state.Connecting?
    case UserCode(_) => true
    case SendCalled(_) => true
    case QueuedSend(_, _, _) => !c.state.Connecting?
    case ShutdownCalled => true
    case QueuedShutdown => c.owed
    case Occurred(_, _, _, _) => c.entry.kernel.Some?
    case Destroyed => !c.state.Connecting?
  }

  function Step(cfg: Config, c: Conn, event: Event): Conn {
    match event
    case Established(actions) => ConnectEstablished(cfg, c, actions)
    case UserCode(actions) => Acts(cfg, c, actions)
    case SendCalled(data) => SendFromOther(cfg, c, data)
    case QueuedSend(data, before, reply) => SendInLoop(cfg, c, data, before, reply)
    case ShutdownCalled => ShutdownFromOther(cfg, c)
    case QueuedShutdown => ShutdownInLoop(c.(owed := false))
    case Occurred(revents, arrival, actions, reply) => HandleEvent(cfg, c, revents, arrival, actions, reply)
    case Destroyed => ConnectDestroyed(c)
  }

  predicate EnabledRun(cfg: Config, c: Conn, events: seq<Event>)
    decreases |events|
  {
    events == [] || (Enabled(c, events[0]) && EnabledRun(cfg, Step(cfg, c, events[0]), events[1..]))
  }

  function RunEvents(cfg: Config, c: Conn, events: seq<Event>): Conn
    decreases |events|
  {
    if events == [] then c else RunEvents(cfg, Step(cfg, c, events[0]), events[1..])
  }
}
