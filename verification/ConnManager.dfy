/**
 The connection registry as an object (knet/connmanager.go), with connections that can
 be stopped and then deregister themselves. `Server` uses the same operations as steps
 of the whole server.
 */
module ConnManager {

  datatype Lookup = NotFound | Found(conn: Connection)

  /** As much of a connection as the registry deals with: its id and its one-time stop body. */
  class Connection {
    const id: nat
    var closed: bool
    var bodies: nat        // executions of the stop body

    constructor (id: nat)
      ensures this.id == id && !closed && bodies == 0
    {
      this.id := id;
      closed, bodies := false, 0;
    }

    /** The stop body runs once; it ends with taking the connection out of the registry. */
    method Stop(cm: Manager)
      modifies this, cm
      ensures closed && bodies == old(bodies) + if old(closed) then 0 else 1
      ensures cm.connections == if old(closed) then old(cm.connections) else old(cm.connections) - {id}
    {
      if !closed {
        closed, bodies := true, bodies + 1;
        cm.Remove(this);
      }
    }
  }

  predicate Distinct(conns: seq<Connection>) {
    forall i, j :: 0 <= i < j < |conns| ==> conns[i] != conns[j]
  }

  class Manager {
    const maxConn: int
    var connections: map<nat, Connection>

    constructor (maxConn: int)
      ensures this.maxConn == maxConn && connections == map[] && Valid()
    {
      this.maxConn := maxConn;
      connections := map[];
    }

    /** Every connection is registered under its own id. */
    ghost predicate Valid()
      reads this
    {
      forall id :: id in connections ==> connections[id].id == id
    }

    function Get(id: nat): Lookup
      reads this
    {
      if id in connections then Found(connections[id]) else NotFound
    }

    /** Fails, changing nothing, when a positive limit is reached; otherwise Get finds the connection. */
    method Add(conn: Connection) returns (ok: bool)
      requires Valid()
      modifies this
      ensures Valid()
      ensures ok <==> maxConn <= 0 || |old(connections)| < maxConn
      ensures forall id :: Get(id) == if ok && id == conn.id then Found(conn) else old(Get(id))
      ensures maxConn > 0 && |old(connections)| <= maxConn ==> |connections| <= maxConn
    {
      if maxConn > 0 && |connections| >= maxConn {
        return false;
      }
      assert conn.id !in connections ==> |connections[conn.id := conn]| == |connections| + 1;
      assert conn.id in connections ==> connections[conn.id := conn].Keys == connections.Keys;
      connections := connections[conn.id := conn];
      ok := true;
    }

    /** Afterwards Get does not find the connection, and finds everything else as before. */
    method Remove(conn: Connection)
      modifies this
      ensures connections == old(connections) - {conn.id}
      ensures forall id :: Get(id) == if id == conn.id then NotFound else old(Get(id))
      ensures old(Valid()) ==> Valid()
    {
      connections := connections - {conn.id};
    }

    /** The entries of the map, each once, in an order the caller must not rely on. */
    method Snapshot() returns (conns: seq<Connection>)
      requires Valid()
      ensures Distinct(conns)
      ensures forall c :: c in conns <==> c.id in connections && connections[c.id] == c
    {
      conns := [];
      var left := connections.Keys;
      while left != {}
        invariant left <= connections.Keys
        invariant Distinct(conns)
        invariant forall c :: c in conns <==> c.id in connections && connections[c.id] == c && c.id !in left
        decreases left
      {
        var id :| id in left;
        conns := conns + [connections[id]];
        left := left - {id};
      }
    }

    /**
     Visits a snapshot until `f` says stop: each entry at most once, all of them unless
     `f` stopped, and nothing after the entry for which it did.
     */
    method Range(f: (nat, Connection) -> bool) returns (visited: seq<Connection>)
      requires Valid()
      ensures Distinct(visited)
      ensures forall c :: c in visited ==> c.id in connections && connections[c.id] == c
      ensures forall i :: 0 <= i < |visited| - 1 ==> f(visited[i].id, visited[i])
      ensures (visited != [] && !f(visited[|visited| - 1].id, visited[|visited| - 1]))
           || (forall id :: id in connections ==> connections[id] in visited)
    {
      var conns := Snapshot();
      var i := 0;
      while i < |conns|
        invariant 0 <= i <= |conns|
        invariant forall j :: 0 <= j < i ==> f(conns[j].id, conns[j])
      {
        i := i + 1;
        if !f(conns[i - 1].id, conns[i - 1]) {
          return conns[..i];
        }
      }
      visited := conns;
      assert forall id :: id in connections ==> connections[id].id == id;
    }

    /**
     Takes a snapshot, empties the map, then stops the connections one by one; each
     stop removes its own entry again, which must not disturb entries added meanwhile.
     `late` stands for what others register between the two halves.
     */
    method ClearConn(late: map<nat, Connection>)
      requires Valid() && connections.Keys !! late.Keys
      modifies this, connections.Values
      ensures connections == late
      ensures forall id :: id in old(connections) ==>
                var c := old(connections)[id];
                c.closed && c.bodies == old(c.bodies) + if old(c.closed) then 0 else 1
    {
      var conns := Snapshot();
      ghost var before := connections;
      assert forall id :: id in before ==> before[id].id == id && before[id] in conns;
      label taken:
      connections := map[];
      connections := late;
      for i := 0 to |conns|
        invariant connections == late
        invariant forall j :: 0 <= j < i ==>
                    && conns[j].closed
                    && conns[j].bodies == old@taken(conns[j].bodies) + if old@taken(conns[j].closed) then 0 else 1
        invariant forall j :: i <= j < |conns| ==>
                    conns[j].closed == old@taken(conns[j].closed) && conns[j].bodies == old@taken(conns[j].bodies)
      {
        assert conns[i] in conns && conns[i].id !in late;
        conns[i].Stop(this);
        assert late - {conns[i].id} == late;
      }
    }
  }
}
