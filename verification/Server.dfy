/** Server.cpp on the base loop: the map of connections, and the functors each change sends off. */
module Servers {
  import opened ConnectionNames
  import opened ManagerPools
  import Ownership

  /** What the server keeps of a connection: a pointer, here its id, descriptor and loop. */
  datatype ConnRef = ConnRef(id: nat, fd: int, loop: LoopId)

  /** A functor on its way to a loop: through runinLoop or through queueinLoop. */
  datatype Sent =
    | RunInLoop(loop: LoopId, task: Ownership.Task)
    | QueueInLoop(loop: LoopId, task: Ownership.Task)

  class Server {
    const name: string
    const ipPort: string
    const pool: ManagerPool
    var nextConnId: nat
    var connections: map<string, ConnRef>
    ghost var accepted: nat
    ghost var removed: nat

    ghost function NameOf(id: nat): string {
      ConnName(name, ipPort, id)
    }

    ghost predicate Valid()
      reads this, pool
    {
      && pool.Valid() && |ipPort| <= 21 && 1 <= nextConnId < ID_LIMIT
      && (forall n :: n in connections ==> n == NameOf(connections[n].id) && connections[n].id < nextConnId)
      && |connections| + removed == accepted
      && accepted == nextConnId - 1
    }

    /** Is this connection, and not another, in the map under its name? */
    ghost predicate Holds(conn: ConnRef)
      reads this
    {
      NameOf(conn.id) in connections && connections[NameOf(conn.id)] == conn
    }

    constructor (name: string, ipPort: string, pool: ManagerPool)
      requires pool.Valid() && |ipPort| <= 21
      ensures Valid() && connections == map[] && nextConnId == 1
      ensures this.name == name && this.ipPort == ipPort && this.pool == pool
    {
      this.name, this.ipPort, this.pool := name, ipPort, pool;
      nextConnId, connections := 1, map[];
      accepted, removed := 0, 0;
    }

    /** Two connections with the same name are the same id: a lookup by name is a lookup by id. */
    lemma SameName(i: nat, j: nat)
      requires |ipPort| <= 21 && i < ID_LIMIT && j < ID_LIMIT
      ensures NameOf(i) == NameOf(j) <==> i == j
    {
      if NameOf(i) == NameOf(j) {
        NamesDistinct(name, ipPort, i, j);
      }
    }

    /** A new connection takes a loop in turn and a name nobody has; no entry is overwritten. */
    method NewConnection(sockfd: int) returns (conn: ConnRef, sent: Sent)
      requires Valid() && nextConnId + 1 < ID_LIMIT
      modifies this`nextConnId, this`connections, this`accepted, pool`nextLoop
      ensures Valid() && nextConnId == old(nextConnId) + 1
      ensures conn.id == old(nextConnId) && conn.fd == sockfd
      ensures conn.loop == if pool.loops == [] then pool.baseLoop else pool.loops[old(pool.nextLoop)]
      ensures NameOf(conn.id) !in old(connections)
      ensures connections == old(connections)[NameOf(conn.id) := conn]
      ensures |connections| == |old(connections)| + 1
      ensures sent == RunInLoop(conn.loop, Ownership.Establish(conn.id))
    {
      forall n | n in connections
        ensures n != NameOf(nextConnId)
      {
        SameName(connections[n].id, nextConnId);
      }
      var ioLoop := pool.GetNextLoop();
      conn := ConnRef(nextConnId, sockfd, ioLoop);
      var connName := ConnName(name, ipPort, nextConnId);
      nextConnId := nextConnId + 1;
      connections := connections[connName := conn];
      accepted := accepted + 1;
      sent := RunInLoop(ioLoop, Ownership.Establish(conn.id));
    }

    /** Erasing by name takes out this connection if it is there, and never another; its
        connectDestroyed goes to its own loop either way. */
    method RemoveConnectionInLoop(conn: ConnRef) returns (sent: Sent)
      requires Valid() && conn.id < nextConnId
      modifies this`connections, this`removed
      ensures Valid() && connections == old(connections) - {NameOf(conn.id)}
      ensures forall n :: n in old(connections) && old(connections)[n].id != conn.id ==>
        n in connections && connections[n] == old(connections)[n]
      ensures !Holds(conn)
      ensures |connections| == |old(connections)| - (if NameOf(conn.id) in old(connections) then 1 else 0)
      ensures sent == QueueInLoop(conn.loop, Ownership.Destroy(conn.id))
    {
      var connName := ConnName(name, ipPort, conn.id);
      forall n | n in connections && connections[n].id != conn.id
        ensures n != connName
      {
        SameName(connections[n].id, conn.id);
      }
      Without(connections, connName);
      removed := removed + (if connName in connections then 1 else 0);
      connections := connections - {connName};
      sent := QueueInLoop(conn.loop, Ownership.Destroy(conn.id));
    }

    /** Let go of one map entry. */
    method Reset(n: string) returns (conn: ConnRef)
      requires Valid() && n in connections
      modifies this`connections, this`removed
      ensures Valid() && conn == old(connections)[n] && connections == old(connections) - {n}
    {
      conn := connections[n];
      Without(connections, n);
      connections, removed := connections - {n}, removed + 1;
    }

    /** ~Server: every pointer in the map is reset, and one connectDestroyed goes to the loop of each
        connection that was in it. `order` is the order in which the map was walked. */
    method DestroyAll() returns (sents: seq<Sent>, ghost order: seq<string>)
      requires Valid()
      modifies this`connections, this`removed
      ensures Valid() && connections == map[]
      ensures |sents| == |order| == |old(connections)|
      ensures forall n :: n in old(connections) ==> n in order
      ensures forall i :: 0 <= i < |sents| ==>
        order[i] in old(connections) && sents[i] == Farewell(old(connections)[order[i]])
    {
      sents, order := [], [];
      while connections != map[]
        invariant Valid() && Notified(old(connections), connections, order, sents)
        decreases |connections|
      {
        var n :| n in connections;
        NotifyNext(old(connections), connections, order, sents, n);
        var conn := Reset(n);
        sents, order := sents + [RunInLoop(conn.loop, Ownership.Destroy(conn.id))], order + [n];
      }
    }
  }

  /** Each connection the map held is still in it or has been sent its connectDestroyed, once. */
  ghost predicate Notified(was: map<string, ConnRef>, left: map<string, ConnRef>, order: seq<string>,
                           sents: seq<Sent>)
  {
    && |sents| == |order| && |sents| + |left| == |was|
    && (forall n :: n in left ==> n in was && left[n] == was[n])
    && (forall n :: n in was ==> n in order || n in left)
    && (forall i :: 0 <= i < |sents| ==> order[i] in was && sents[i] == Farewell(was[order[i]]))
  }

  lemma NotifyNext(was: map<string, ConnRef>, left: map<string, ConnRef>, order: seq<string>,
                   sents: seq<Sent>, n: string)
    requires Notified(was, left, order, sents) && n in left
    ensures Notified(was, left - {n}, order + [n], sents + [Farewell(left[n])])
    ensures |left - {n}| == |left| - 1
  {
    Without(left, n);
    forall k | k in was
      ensures k in order + [n] || k in left - {n}
    {
      assert k in order || k in left;
    }
  }

  function Farewell(conn: ConnRef): Sent {
    RunInLoop(conn.loop, Ownership.Destroy(conn.id))
  }
}
