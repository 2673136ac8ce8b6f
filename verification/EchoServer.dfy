/** The EchoServer of testcode/test.cpp: its message callback, on a real connection. */
module EchoServers {
  import opened Buffers
  import opened ConnectionModel
  import opened Connections
  import Endings = ConnectionEndings

  /** onMessage: take the whole input as a string and send it back. */
  method OnMessage(conn: Connection, before: byte, reply: Reply)
    requires conn.Valid()
    modifies conn`model, conn.inputBuffer, conn.outputBuffer, conn.outputBuffer.data
    modifies conn.filed`events, conn.filed`index
    modifies conn.loop.epoller`fileds, conn.loop.epoller`kernel, conn.loop.epoller`ctlErrors
    modifies conn.loop`pendFuncs, conn.loop`wakeupCounter, conn.loop`enqueued
    ensures conn.Valid() && conn.OnlyMine() && conn.inputBuffer.Contents() == []
    ensures conn.model == Acts(conn.cfg, old(conn.model), Endings.EchoActions(old(conn.model.input), before, reply))
  {
    ghost var was := conn.model;
    var msg := conn.TakeInput();
    conn.Send(msg, before, reply, true);
    ghost var acts := Endings.EchoActions(was.input, before, reply);
    assert acts[1..] == [acts[1]];
    assert Acts(conn.cfg, Act(conn.cfg, was, acts[0]), [acts[1]]) == Acts(conn.cfg, conn.model, []);
  }
}
