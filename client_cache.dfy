/**
 * The browser's copy of the back end's state (frontend/src/context/RDPContext.js): the
 * server list, the active connection list, a loading flag and an error message, updated by
 * the six operations the provider exposes. Each HTTP call's outcome is an input: the
 * response data on success or a rejected request. Request bodies are not modelled.
 */
module ClientCache {
  import opened Wrappers
  import opened Broker

  /** The settled promise an axios call returns. */
  datatype Http<T> = Ok(data: T) | Failed

  /** How an async operation ends for its caller: its return value, or the error rethrown. */
  datatype Completion<T> = Returned(value: T) | Rethrown

  const FetchServersFailed := "Failed to fetch servers"
  const CreateServerFailed := "Failed to create server"
  const DeleteServerFailed := "Failed to delete server"
  const ConnectFailed := "Failed to connect to server"
  const DisconnectFailed := "Failed to disconnect from server"

  /** `prev.filter(x => idOf(x) !== id)`. */
  function RemoveById<T>(s: seq<T>, idOf: T -> string, id: string): (r: seq<T>)
    ensures |r| <= |s|
  {
    if s == [] then []
    else (if idOf(s[0]) == id then [] else [s[0]]) + RemoveById(s[1..], idOf, id)
  }

  /** The filter keeps exactly the elements with another id, and drops every one with this id. */
  lemma {:induction false} RemoveByIdMembers<T>(s: seq<T>, idOf: T -> string, id: string, x: T)
    ensures x in RemoveById(s, idOf, id) <==> x in s && idOf(x) != id
  {
    if s != [] {
      RemoveByIdMembers(s[1..], idOf, id, x);
      assert s == [s[0]] + s[1..];
    }
  }

  /** Filtering a concatenation filters each part in place: the kept elements keep their order. */
  lemma {:induction false} RemoveByIdAppend<T>(a: seq<T>, b: seq<T>, idOf: T -> string, id: string)
    ensures RemoveById(a + b, idOf, id) == RemoveById(a, idOf, id) + RemoveById(b, idOf, id)
  {
    if a == [] {
      assert a + b == b;
    } else {
      assert (a + b)[0] == a[0];
      assert (a + b)[1..] == a[1..] + b;
      RemoveByIdAppend(a[1..], b, idOf, id);
    }
  }

  /** A list with no element of that id is returned unchanged. */
  lemma {:induction false} RemoveByIdAbsent<T>(s: seq<T>, idOf: T -> string, id: string)
    requires forall i :: 0 <= i < |s| ==> idOf(s[i]) != id
    ensures RemoveById(s, idOf, id) == s
  {
    if s != [] {
      RemoveByIdAbsent(s[1..], idOf, id);
    }
  }

  /** Filtering twice is filtering once. */
  lemma RemoveByIdIdempotent<T>(s: seq<T>, idOf: T -> string, id: string)
    ensures RemoveById(RemoveById(s, idOf, id), idOf, id) == RemoveById(s, idOf, id)
  {
    var r := RemoveById(s, idOf, id);
    forall i | 0 <= i < |r|
      ensures idOf(r[i]) != id
    {
      RemoveByIdMembers(s, idOf, id, r[i]);
    }
    RemoveByIdAbsent(r, idOf, id);
  }

  function ServerId(s: Server): string {
    s.id
  }

  function ConnectionId(c: Connection): string {
    c.id
  }

  /** The state the RDPProvider holds. */
  class RdpCache {
    var servers: seq<Server>
    var connections: seq<Connection>
    var loading: bool
    var error: Option<string>

    constructor ()
      ensures servers == [] && connections == [] && !loading && error == None
    {
      servers, connections, loading, error := [], [], false, None;
    }

    /** `fetchServers`: replace the list and clear the error, or record the failure; never throws. */
    method FetchServers(response: Http<seq<Server>>)
      modifies this
      ensures !loading
      ensures connections == old(connections)
      ensures response.Ok? ==> servers == response.data && error == None
      ensures response.Failed? ==> servers == old(servers) && error == Some(FetchServersFailed)
    {
      loading := true;
      if response.Ok? {
        servers := response.data;
        error := None;
      } else {
        error := Some(FetchServersFailed);
      }
      loading := false;
    }

    /** `fetchConnections`: replace the list on success; a failure is only logged. */
    method FetchConnections(response: Http<seq<Connection>>)
      modifies this
      ensures connections == (if response.Ok? then response.data else old(connections))
      ensures servers == old(servers) && loading == old(loading) && error == old(error)
    {
      if response.Ok? {
        connections := response.data;
      }
    }

    /** `createServer`: append the returned record, or record the failure and rethrow. */
    method CreateServer(response: Http<Server>) returns (r: Completion<Server>)
      modifies this
      ensures !loading
      ensures connections == old(connections)
      ensures response.Ok? ==> r == Returned(response.data) && servers == old(servers) + [response.data] && error == None
      ensures response.Failed? ==> r == Rethrown && servers == old(servers) && error == Some(CreateServerFailed)
    {
      loading := true;
      if response.Ok? {
        servers := servers + [response.data];
        error := None;
        r := Returned(response.data);
      } else {
        error := Some(CreateServerFailed);
        r := Rethrown;
      }
      loading := false;
    }

    /** `deleteServer`: drop every server with that id, or record the failure and rethrow. */
    method DeleteServer(serverId: string, response: Http<()>) returns (r: Completion<()>)
      modifies this
      ensures connections == old(connections) && loading == old(loading)
      ensures response.Ok? ==> r == Returned(()) && servers == RemoveById(old(servers), ServerId, serverId) && error == None
      ensures response.Failed? ==> r == Rethrown && servers == old(servers) && error == Some(DeleteServerFailed)
    {
      if response.Ok? {
        servers := RemoveById(servers, ServerId, serverId);
        error := None;
        r := Returned(());
      } else {
        error := Some(DeleteServerFailed);
        r := Rethrown;
      }
    }

    /**
     * `connectToServer`: append the returned connection, then refresh the servers (whose own
     * failure is absorbed by `fetchServers`); on failure record the error and rethrow.
     */
    method ConnectToServer(response: Http<Connection>, refresh: Http<seq<Server>>) returns (r: Completion<Connection>)
      modifies this
      ensures response.Ok? ==>
        && r == Returned(response.data)
        && connections == old(connections) + [response.data]
        && !loading
        && servers == (if refresh.Ok? then refresh.data else old(servers))
        && error == (if refresh.Ok? then None else Some(FetchServersFailed))
      ensures response.Failed? ==>
        && r == Rethrown
        && connections == old(connections) && servers == old(servers) && loading == old(loading)
        && error == Some(ConnectFailed)
    {
      if response.Ok? {
        connections := connections + [response.data];
        FetchServers(refresh);
        r := Returned(response.data);
      } else {
        error := Some(ConnectFailed);
        r := Rethrown;
      }
    }

    /** `disconnectFromServer`: drop the connection, then refresh the servers; on failure rethrow. */
    method DisconnectFromServer(connectionId: string, response: Http<()>, refresh: Http<seq<Server>>)
      returns (r: Completion<()>)
      modifies this
      ensures response.Ok? ==>
        && r == Returned(())
        && connections == RemoveById(old(connections), ConnectionId, connectionId)
        && !loading
        && servers == (if refresh.Ok? then refresh.data else old(servers))
        && error == (if refresh.Ok? then None else Some(FetchServersFailed))
      ensures response.Failed? ==>
        && r == Rethrown
        && connections == old(connections) && servers == old(servers) && loading == old(loading)
        && error == Some(DisconnectFailed)
    {
      if response.Ok? {
        connections := RemoveById(connections, ConnectionId, connectionId);
        FetchServers(refresh);
        r := Returned(());
      } else {
        error := Some(DisconnectFailed);
        r := Rethrown;
      }
    }
  }
}
