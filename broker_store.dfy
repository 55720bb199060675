/**
 * The handlers of backend/server.py as in-place updates of two collections, in the order the
 * source writes them. Each method's result and new state are those of the matching function
 * of module Broker, so the lemmas proved there (the status invariant above all) hold of it;
 * `Valid()` carries that invariant from one call to the next.
 */
module BrokerStore {
  import opened Wrappers
  import opened Broker

  function Min(a: int, b: int): int {
    if a <= b then a else b
  }

  /** The ids of the documents a query selects. */
  function Matching<T>(docs: map<string, T>, keep: T -> bool): set<string> {
    set k | k in docs && keep(docs[k])
  }

  /**
   * `collection.find(query).to_list(limit)`: up to `limit` of the selected documents, each
   * once, in an order the store chooses; all of them when there are no more than `limit`.
   * `ids` names the document each entry came from.
   */
  method FindToList<T>(docs: map<string, T>, keep: T -> bool, limit: nat) returns (r: seq<T>, ids: seq<string>)
    ensures |r| == |ids| == Min(|Matching(docs, keep)|, limit)
    ensures forall i :: 0 <= i < |ids| ==> ids[i] in docs && keep(docs[ids[i]]) && r[i] == docs[ids[i]]
    ensures forall i, j :: 0 <= i < j < |ids| ==> ids[i] != ids[j]
    ensures |Matching(docs, keep)| <= limit ==> forall k :: k in docs && keep(docs[k]) ==> k in ids
  {
    var pending := Matching(docs, keep);
    r, ids := [], [];
    while pending != {} && |r| < limit
      invariant |r| == |ids| <= limit
      invariant pending <= Matching(docs, keep)
      invariant forall i :: 0 <= i < |ids| ==> ids[i] in docs && keep(docs[ids[i]]) && r[i] == docs[ids[i]]
      invariant forall i :: 0 <= i < |ids| ==> ids[i] !in pending
      invariant forall i, j :: 0 <= i < j < |ids| ==> ids[i] != ids[j]
      invariant forall k :: k in Matching(docs, keep) ==> k in pending || k in ids
      invariant |ids| + |pending| == |Matching(docs, keep)|
      decreases pending
    {
      var k :| k in pending;
      r, ids := r + [docs[k]], ids + [k];
      pending := pending - {k};
    }
  }

  /** The database the API serves: the `rdp_servers` and `rdp_connections` collections. */
  class RdpDatabase {
    var servers: map<string, Server>
    var connections: map<string, Connection>

    function State(): Db
      reads this
    {
      Db(servers, connections)
    }

    ghost predicate Valid()
      reads this
    {
      Invariant(State())
    }

    constructor ()
      ensures Valid() && servers == map[] && connections == map[]
    {
      servers, connections := map[], map[];
    }

    /** `root`: the health check. */
    method Root() returns (message: string)
      ensures message == "RDP Manager API is running"
    {
      message := HealthMessage;
    }

    /** `create_rdp_server`. */
    method CreateRdpServer(req: ServerCreate, id: string, now: int) returns (s: Server)
      requires Valid() && FreshServerId(State(), id)
      modifies this
      ensures Valid()
      ensures (State(), s) == Broker.CreateServer(old(State()), req, id, now)
    {
      ghost var before := State();
      s := NewServer(req, id, now);
      servers := servers[id := s];
      CreateServerKeepsInvariant(before, req, id, now);
    }

    /** `get_rdp_servers`: at most 1000 stored servers, each once. */
    method GetRdpServers() returns (r: seq<Server>)
      requires Valid()
      ensures |r| == Min(|servers|, 1000)
      ensures forall i :: 0 <= i < |r| ==> r[i].id in servers && servers[r[i].id] == r[i]
      ensures forall i, j :: 0 <= i < j < |r| ==> r[i].id != r[j].id
      ensures |servers| <= 1000 ==> forall k :: k in servers ==> servers[k] in r
    {
      var ids;
      r, ids := FindToList(servers, (s: Server) => true, ListLimit);
      assert Matching(servers, (s: Server) => true) == servers.Keys;
      assert |servers.Keys| == |servers|;
      if |servers| <= 1000 {
        forall k | k in servers
          ensures servers[k] in r
        {
          var i :| 0 <= i < |ids| && ids[i] == k;
          assert r[i] == servers[k];
        }
      }
    }

    /** `get_rdp_server`. */
    method GetRdpServer(id: string) returns (r: Outcome<Server>)
      requires Valid()
      ensures r == Broker.GetServer(State(), id)
      ensures r.Ok? <==> id in servers
      ensures r.Ok? ==> r.value.id == id
    {
      if id !in servers {
        return Err(NotFound(ServerNotFound));
      }
      r := Ok(servers[id]);
    }

    /** `update_rdp_server`. */
    method UpdateRdpServer(id: string, u: ServerUpdate, now: int) returns (r: Outcome<Server>)
      requires Valid()
      modifies this
      ensures Valid()
      ensures (State(), r) == Broker.UpdateServer(old(State()), id, u, now)
    {
      ghost var before := State();
      if id !in servers {
        return Err(NotFound(ServerNotFound));
      }
      if !NoFieldsSet(u) {
        servers := servers[id := ApplyUpdate(servers[id], u, now)];
      } else {
        assert servers[id := ApplyUpdate(servers[id], u, now)] == servers;
      }
      r := Ok(servers[id]);
      UpdateServerKeepsInvariant(before, id, u, now);
    }

    /** `delete_rdp_server`. */
    method DeleteRdpServer(id: string) returns (r: Outcome<string>)
      requires Valid()
      modifies this
      ensures Valid()
      ensures (State(), r) == Broker.DeleteServer(old(State()), id)
    {
      if id !in servers {
        return Err(NotFound(ServerNotFound));
      }
      servers := servers - {id};
      r := Ok(ServerDeleted);
    }

    /** `create_connection`: no check for an existing live connection to the server. */
    method CreateConnection(serverId: string, connectionId: string, sessionId: string, now: int)
      returns (r: Outcome<Connection>)
      requires Valid() && FreshConnection(State(), connectionId, sessionId)
      modifies this
      ensures Valid()
      ensures (State(), r) == Broker.CreateConnection(old(State()), serverId, connectionId, sessionId, now)
    {
      ghost var before := State();
      if serverId !in servers {
        return Err(NotFound(ServerNotFound));
      }
      var c := Connection(connectionId, serverId, sessionId, Connecting, now, None);
      connections := connections[connectionId := c];
      servers := servers[serverId := servers[serverId].(status := Active, updatedAt := now)];
      r := Ok(c);
      CreateConnectionKeepsInvariant(before, serverId, connectionId, sessionId, now);
    }

    /** `get_connections`: at most 1000 stored connections, each once. */
    method GetConnections() returns (r: seq<Connection>)
      requires Valid()
      ensures |r| == Min(|connections|, 1000)
      ensures forall i :: 0 <= i < |r| ==> r[i].id in connections && connections[r[i].id] == r[i]
      ensures forall i, j :: 0 <= i < j < |r| ==> r[i].id != r[j].id
      ensures |connections| <= 1000 ==> forall k :: k in connections ==> connections[k] in r
    {
      var ids;
      r, ids := FindToList(connections, (c: Connection) => true, ListLimit);
      assert Matching(connections, (c: Connection) => true) == connections.Keys;
      assert |connections.Keys| == |connections|;
      if |connections| <= 1000 {
        forall k | k in connections
          ensures connections[k] in r
        {
          var i :| 0 <= i < |ids| && ids[i] == k;
          assert r[i] == connections[k];
        }
      }
    }

    /** `get_active_connections`: the `active` or `connecting` connections, at most 1000, each once. */
    method GetActiveConnections() returns (r: seq<Connection>)
      requires Valid()
      ensures |r| == Min(|set k | k in connections && IsLive(connections[k].status)|, 1000)
      ensures forall i :: 0 <= i < |r| ==>
                r[i].id in connections && connections[r[i].id] == r[i] && IsLive(r[i].status)
      ensures forall i, j :: 0 <= i < j < |r| ==> r[i].id != r[j].id
      ensures |set k | k in connections && IsLive(connections[k].status)| <= 1000 ==>
                forall k :: k in connections && IsLive(connections[k].status) ==> connections[k] in r
    {
      var ids;
      var live := (c: Connection) => IsLive(c.status);
      r, ids := FindToList(connections, live, ListLimit);
      assert Matching(connections, live) == set k | k in connections && IsLive(connections[k].status);
      if |Matching(connections, live)| <= 1000 {
        forall k | k in connections && IsLive(connections[k].status)
          ensures connections[k] in r
        {
          var i :| 0 <= i < |ids| && ids[i] == k;
          assert r[i] == connections[k];
        }
      }
    }

    /**
     * `end_connection`: update the connection, count the live connections of its server,
     * and reset the server when the count is zero.
     */
    method EndConnection(connectionId: string, now: int) returns (r: Outcome<string>)
      requires Valid()
      modifies this
      ensures Valid()
      ensures (State(), r) == Broker.EndConnection(old(State()), connectionId, now)
    {
      ghost var before := State();
      if connectionId !in connections {
        return Err(NotFound(ConnectionNotFound));
      }
      var c := connections[connectionId];
      connections := connections[connectionId := c.(status := Inactive, endedAt := Some(now))];
      var live := set k | k in connections && connections[k].serverId == c.serverId && IsLive(connections[k].status);
      if |live| == 0 && c.serverId in servers {
        servers := servers[c.serverId := servers[c.serverId].(status := Inactive, updatedAt := now)];
      }
      assert (|live| == 0) == !HasLive(connections, c.serverId) by {
        if HasLive(connections, c.serverId) {
          var k :| k in connections && connections[k].serverId == c.serverId && IsLive(connections[k].status);
          assert k in live;
        }
      }
      r := Ok(ConnectionEnded);
      EndConnectionKeepsInvariant(before, connectionId, now);
    }
  }
}
