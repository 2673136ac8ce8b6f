/** The class Server does to its map, and sends to its loops, what the server machine of module
    Ownership does in its steps. */
module ServerMirrors {
  import opened ConnectionNames
  import opened Ownership
  import OwnershipInvariant
  import OwnershipSteps
  import opened Servers

  /** The machine's map and counter are the class's, entry by entry. */
  ghost predicate Mirrors(connections: map<string, ConnRef>, nextConnId: nat, s: Sys) {
    && s.nextId == nextConnId && s.connections.Keys == connections.Keys
    && forall n :: n in connections ==> Refers(connections[n], s.connections[n], s)
  }

  predicate Refers(conn: ConnRef, id: ConnId, s: Sys) {
    conn.id == id && id in s.recs && s.recs[id].fd == conn.fd && s.recs[id].loop == conn.loop
  }

  /** What becomes of a functor that the base loop's thread sends: runinLoop runs it at once on the
      base loop itself. */
  function Delivered(s: Sys, sent: Sent): Sys
    requires sent.loop < |s.loops| && Known(s, sent.task.conn) && !sent.task.Remove?
  {
    if sent.QueueInLoop? || sent.loop != 0 then Push(s, sent.loop, sent.task)
    else if sent.task.Establish? then EstablishConn(s, sent.task.conn)
    else DestroyConn(s, sent.task.conn)
  }

  /** Delivering a functor does not touch the server's map. */
  lemma DeliveredMirrors(connections: map<string, ConnRef>, nextConnId: nat, s: Sys, sent: Sent)
    requires sent.loop < |s.loops| && Known(s, sent.task.conn) && !sent.task.Remove?
    requires Mirrors(connections, nextConnId, s)
    ensures Mirrors(connections, nextConnId, Delivered(s, sent))
  {
    var c := sent.task.conn;
    OwnershipSteps.UpdateQuiet(s, c, Established(s.recs[c]));
    OwnershipSteps.DestroyQuiet(s, c);
    var t := Delivered(s, sent);
    forall n | n in connections
      ensures Refers(connections[n], t.connections[n], t)
    {
      assert Refers(connections[n], s.connections[n], s);
    }
  }

  /** Server.NewConnection is the machine's Accept: the same new entry, and the functor it sends
      delivered. */
  lemma NewConnectionMirrors(connections: map<string, ConnRef>, conn: ConnRef, s: Sys)
    requires OwnershipInvariant.MapOk(s) && Mirrors(connections, conn.id, s)
    requires conn.loop < |s.loops|
    ensures var s1 := Created(s, conn.fd, conn.loop);
            && Known(s1, conn.id)
            && NewConnection(s, conn.fd, conn.loop) == Delivered(s1, RunInLoop(conn.loop, Establish(conn.id)))
            && Mirrors(connections[ConnName(s.server, s.ipPort, conn.id) := conn], conn.id + 1,
                       NewConnection(s, conn.fd, conn.loop))
  {
    var s1 := Created(s, conn.fd, conn.loop);
    var entries := connections[ConnName(s.server, s.ipPort, conn.id) := conn];
    forall n | n in entries
      ensures Refers(entries[n], s1.connections[n], s1)
    {
      if n in connections {
        assert Refers(connections[n], s.connections[n], s);
      }
    }
    assert s1.connections.Keys == entries.Keys;
    DeliveredMirrors(entries, conn.id + 1, s1, RunInLoop(conn.loop, Establish(conn.id)));
  }

  lemma ErasedMirrors(connections: map<string, ConnRef>, nextConnId: nat, s: Sys, c: ConnId)
    requires Mirrors(connections, nextConnId, s)
    ensures Mirrors(connections - {Name(s, c)}, nextConnId, Erased(s, c))
  {
    var t := Erased(s, c);
    forall n | n in connections - {Name(s, c)}
      ensures Refers(connections[n], t.connections[n], t)
    {
      assert Refers(connections[n], s.connections[n], s);
    }
    assert t.connections.Keys == (connections - {Name(s, c)}).Keys;
  }

  /** Server.RemoveConnectionInLoop is the machine's RemoveInLoop. */
  lemma RemoveConnectionMirrors(connections: map<string, ConnRef>, nextConnId: nat, conn: ConnRef, s: Sys)
    requires Mirrors(connections, nextConnId, s) && Refers(conn, conn.id, s) && conn.loop < |s.loops|
    ensures var s1 := Erased(s, conn.id);
            && RemoveInLoop(s, conn.id) == Delivered(s1, QueueInLoop(conn.loop, Destroy(conn.id)))
            && Mirrors(connections - {Name(s, conn.id)}, nextConnId, RemoveInLoop(s, conn.id))
  {
    ErasedMirrors(connections, nextConnId, s, conn.id);
    DeliveredMirrors(connections - {Name(s, conn.id)}, nextConnId, Erased(s, conn.id),
                     QueueInLoop(conn.loop, Destroy(conn.id)));
  }

  /** One item of Server.DestroyAll is the machine's DestroyItem. */
  lemma DestroyItemMirrors(connections: map<string, ConnRef>, nextConnId: nat, conn: ConnRef, s: Sys)
    requires Mirrors(connections, nextConnId, s) && Refers(conn, conn.id, s) && conn.loop < |s.loops|
    ensures var s1 := Erased(s, conn.id);
            && DestroyOne(s, conn.id) == Delivered(s1, Farewell(conn))
            && Mirrors(connections - {Name(s, conn.id)}, nextConnId, DestroyOne(s, conn.id))
  {
    ErasedMirrors(connections, nextConnId, s, conn.id);
    DeliveredMirrors(connections - {Name(s, conn.id)}, nextConnId, Erased(s, conn.id), Farewell(conn));
  }
}
