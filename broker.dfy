/**
 * The RDP Manager back end (backend/server.py): a registry of RDP servers and a table of
 * connections to them, kept as two collections keyed by id. This module holds the records,
 * the effect of each HTTP handler as a function from the old collections to the new ones
 * and its response, and the lemmas about them. The class in BrokerStore performs the same
 * handlers as in-place updates and is proved equal to these functions.
 *
 * Generated ids (uuid4) and clock readings (datetime.utcnow) are parameters.
 */
module Broker {
  import opened Wrappers

  // ---------------------------------------------------------------------------
  // Records
  // ---------------------------------------------------------------------------

  /** RDPStatus: the status of a server or of a connection. */
  datatype Status = Active | Inactive | Connecting | Error

  /** OSType. */
  datatype OsType = Windows | Linux | MacOs

  /** The string each status is stored and sent as. */
  function StatusName(s: Status): string {
    match s
    case Active => "active"
    case Inactive => "inactive"
    case Connecting => "connecting"
    case Error => "error"
  }

  /** The string each OS type is stored and sent as. */
  function OsTypeName(o: OsType): string {
    match o
    case Windows => "windows"
    case Linux => "linux"
    case MacOs => "macos"
  }

  const DefaultPort: int := 3389
  /** Size passed to `to_list`: no listing returns more documents than this. */
  const ListLimit: nat := 1000

  const HealthMessage := "RDP Manager API is running"
  const ServerNotFound := "RDP Server not found"
  const ConnectionNotFound := "Connection not found"
  const ServerDeleted := "RDP Server deleted successfully"
  const ConnectionEnded := "Connection ended successfully"

  /** A stored RDPServer document; timestamps are clock readings. */
  datatype Server = Server(
    id: string,
    name: string,
    host: string,
    port: int,
    username: string,
    password: string,
    domain: Option<string>,
    osType: OsType,
    description: Option<string>,
    status: Status,
    createdAt: int,
    updatedAt: int)

  /** RDPServerCreate: the body of a create request; None marks a field the client left out. */
  datatype ServerCreate = ServerCreate(
    name: string,
    host: string,
    port: Option<int>,
    username: string,
    password: string,
    domain: Option<string>,
    osType: Option<OsType>,
    description: Option<string>)

  /**
   * RDPServerUpdate after `dict(exclude_unset=True)`: None marks a field the client did not
   * send. `domain` and `description` may be sent as null, hence their inner Option.
   */
  datatype ServerUpdate = ServerUpdate(
    name: Option<string>,
    host: Option<string>,
    port: Option<int>,
    username: Option<string>,
    password: Option<string>,
    domain: Option<Option<string>>,
    osType: Option<OsType>,
    description: Option<Option<string>>)

  /** The update carries no field at all (`update_data` is empty). */
  predicate NoFieldsSet(u: ServerUpdate) {
    u.name.None? && u.host.None? && u.port.None? && u.username.None? && u.password.None?
    && u.domain.None? && u.osType.None? && u.description.None?
  }

  /** A stored RDPConnection document. */
  datatype Connection = Connection(
    id: string,
    serverId: string,
    sessionId: string,
    status: Status,
    startedAt: int,
    endedAt: Option<int>)

  /** HTTPException(status_code=404, detail=...). */
  datatype ApiError = NotFound(detail: string)

  type Outcome<T> = Result<T, ApiError>

  /** The two collections, `rdp_servers` and `rdp_connections`, keyed by document id. */
  datatype Db = Db(servers: map<string, Server>, connections: map<string, Connection>)

  // ---------------------------------------------------------------------------
  // The invariant
  // ---------------------------------------------------------------------------

  /** The statuses `end_connection` and the active listing count as a live connection. */
  predicate IsLive(s: Status) {
    s == Active || s == Connecting
  }

  /** Some live connection references the server. */
  predicate HasLive(connections: map<string, Connection>, serverId: string) {
    exists k :: k in connections && connections[k].serverId == serverId && IsLive(connections[k].status)
  }

  /** Every document is stored under its own id, and no two connections share a session id. */
  predicate KeysMatchIds(db: Db) {
    && (forall k :: k in db.servers ==> db.servers[k].id == k)
    && (forall k :: k in db.connections ==> db.connections[k].id == k)
    && (forall k1, k2 :: k1 in db.connections && k2 in db.connections && k1 != k2 ==>
          db.connections[k1].sessionId != db.connections[k2].sessionId)
  }

  /** A server is `active` exactly when a live connection references it, and `inactive` otherwise. */
  predicate StatusReflectsConnections(db: Db) {
    forall k :: k in db.servers ==> db.servers[k].status == (if HasLive(db.connections, k) then Active else Inactive)
  }

  predicate Invariant(db: Db) {
    KeysMatchIds(db) && StatusReflectsConnections(db)
  }

  /** A uuid4 for a new server: no document of either collection mentions it. */
  predicate FreshServerId(db: Db, id: string) {
    id !in db.servers && forall k :: k in db.connections ==> db.connections[k].serverId != id
  }

  /** Two uuid4 values for a new connection: its id and its session id are unused. */
  predicate FreshConnection(db: Db, connectionId: string, sessionId: string) {
    connectionId !in db.connections && forall k :: k in db.connections ==> db.connections[k].sessionId != sessionId
  }

  // ---------------------------------------------------------------------------
  // Handlers
  // ---------------------------------------------------------------------------

  /** `RDPServer(**server.dict())` with the model's defaults filled in. */
  function NewServer(req: ServerCreate, id: string, now: int): Server {
    Server(id, req.name, req.host, req.port.GetOr(DefaultPort), req.username, req.password,
           req.domain, req.osType.GetOr(Windows), req.description, Inactive, now, now)
  }

  /** `create_rdp_server`: insert the new document and return it. */
  function CreateServer(db: Db, req: ServerCreate, id: string, now: int): (Db, Server) {
    var s := NewServer(req, id, now);
    (db.(servers := db.servers[id := s]), s)
  }

  /** `get_rdp_server`. */
  function GetServer(db: Db, id: string): Outcome<Server> {
    if id in db.servers then Ok(db.servers[id]) else Err(NotFound(ServerNotFound))
  }

  /** The `$set` of the supplied fields, with `updated_at`; an empty update writes nothing. */
  function ApplyUpdate(s: Server, u: ServerUpdate, now: int): Server {
    if NoFieldsSet(u) then s
    else s.(name := u.name.GetOr(s.name),
            host := u.host.GetOr(s.host),
            port := u.port.GetOr(s.port),
            username := u.username.GetOr(s.username),
            password := u.password.GetOr(s.password),
            domain := u.domain.GetOr(s.domain),
            osType := u.osType.GetOr(s.osType),
            description := u.description.GetOr(s.description),
            updatedAt := now)
  }

  /** `update_rdp_server`: NotFound for an unknown id, otherwise the re-read document. */
  function UpdateServer(db: Db, id: string, u: ServerUpdate, now: int): (Db, Outcome<Server>) {
    if id !in db.servers then (db, Err(NotFound(ServerNotFound)))
    else
      var s := ApplyUpdate(db.servers[id], u, now);
      (db.(servers := db.servers[id := s]), Ok(s))
  }

  /** `delete_rdp_server`: removes only the server document. */
  function DeleteServer(db: Db, id: string): (Db, Outcome<string>) {
    if id !in db.servers then (db, Err(NotFound(ServerNotFound)))
    else (db.(servers := db.servers - {id}), Ok(ServerDeleted))
  }

  /** `create_connection`: insert a `connecting` connection, then mark the server `active`. */
  function CreateConnection(db: Db, serverId: string, connectionId: string, sessionId: string, now: int)
    : (Db, Outcome<Connection>)
  {
    if serverId !in db.servers then (db, Err(NotFound(ServerNotFound)))
    else
      var c := Connection(connectionId, serverId, sessionId, Connecting, now, None);
      var s := db.servers[serverId].(status := Active, updatedAt := now);
      (Db(db.servers[serverId := s], db.connections[connectionId := c]), Ok(c))
  }

  /**
   * `end_connection`: mark the connection `inactive` with an end time, then count the live
   * connections of its server and mark the server `inactive` when there are none. The
   * server write matches nothing when the server has been deleted.
   */
  function EndConnection(db: Db, connectionId: string, now: int): (Db, Outcome<string>) {
    if connectionId !in db.connections then (db, Err(NotFound(ConnectionNotFound)))
    else
      var c := db.connections[connectionId];
      var connections := db.connections[connectionId := c.(status := Inactive, endedAt := Some(now))];
      var servers :=
        if !HasLive(connections, c.serverId) && c.serverId in db.servers
        then db.servers[c.serverId := db.servers[c.serverId].(status := Inactive, updatedAt := now)]
        else db.servers;
      (Db(servers, connections), Ok(ConnectionEnded))
  }

  // ---------------------------------------------------------------------------
  // What each handler does
  // ---------------------------------------------------------------------------

  /** A created server is `inactive`, has port 3389 and OS windows unless given, and is stored under the fresh id. */
  lemma CreateServerDefaults(db: Db, req: ServerCreate, id: string, now: int)
    requires FreshServerId(db, id)
    ensures var s := CreateServer(db, req, id, now).1;
      && s.id == id && s.status == Inactive
      && s.port == (if req.port.Some? then req.port.value else 3389)
      && s.osType == (if req.osType.Some? then req.osType.value else Windows)
      && s.name == req.name && s.host == req.host && s.username == req.username
      && s.password == req.password && s.domain == req.domain && s.description == req.description
      && s.createdAt == now && s.updatedAt == now
    ensures var (db', s) := CreateServer(db, req, id, now);
      && db'.servers.Keys == db.servers.Keys + {id} && |db'.servers| == |db.servers| + 1
      && db'.servers[id] == s
      && (forall k :: k in db.servers ==> db'.servers[k] == db.servers[k])
      && db'.connections == db.connections
  {
    var servers' := CreateServer(db, req, id, now).0.servers;
    assert servers'.Keys == db.servers.Keys + {id};
  }

  /** Every handler given an unknown server id answers NotFound and changes nothing. */
  lemma UnknownServerIsNotFound(db: Db, id: string, u: ServerUpdate, connectionId: string, sessionId: string, now: int)
    requires id !in db.servers
    ensures GetServer(db, id) == Err(NotFound("RDP Server not found"))
    ensures UpdateServer(db, id, u, now) == (db, Err(NotFound("RDP Server not found")))
    ensures DeleteServer(db, id) == (db, Err(NotFound("RDP Server not found")))
    ensures CreateConnection(db, id, connectionId, sessionId, now) == (db, Err(NotFound("RDP Server not found")))
  {
  }

  /** Ending an unknown connection answers NotFound and changes nothing. */
  lemma UnknownConnectionIsNotFound(db: Db, connectionId: string, now: int)
    requires connectionId !in db.connections
    ensures EndConnection(db, connectionId, now) == (db, Err(NotFound("Connection not found")))
  {
  }

  /** A known server id is found with the stored document. */
  lemma GetKnownServer(db: Db, id: string)
    requires id in db.servers
    ensures GetServer(db, id) == Ok(db.servers[id])
  {
  }

  /**
   * An update writes exactly the supplied fields (and `updated_at`), never the status, id or
   * creation time, and touches no other document; an empty update leaves the record as it was.
   */
  lemma UpdateChangesOnlySuppliedFields(db: Db, id: string, u: ServerUpdate, now: int)
    requires id in db.servers
    ensures var (db', r) := UpdateServer(db, id, u, now);
      var before := db.servers[id];
      r.Ok? && id in db'.servers && r.value == db'.servers[id]
      && var after := r.value;
      && after.id == before.id && after.status == before.status && after.createdAt == before.createdAt
      && after.name == (if u.name.Some? then u.name.value else before.name)
      && after.host == (if u.host.Some? then u.host.value else before.host)
      && after.port == (if u.port.Some? then u.port.value else before.port)
      && after.username == (if u.username.Some? then u.username.value else before.username)
      && after.password == (if u.password.Some? then u.password.value else before.password)
      && after.domain == (if u.domain.Some? then u.domain.value else before.domain)
      && after.osType == (if u.osType.Some? then u.osType.value else before.osType)
      && after.description == (if u.description.Some? then u.description.value else before.description)
      && (NoFieldsSet(u) ==> after == before)
      && (!NoFieldsSet(u) ==> after.updatedAt == now)
      && db'.servers.Keys == db.servers.Keys
      && (forall k :: k in db.servers && k != id ==> db'.servers[k] == db.servers[k])
      && db'.connections == db.connections
  {
  }

  /** Deleting a server removes that document only; connections that reference it stay. */
  lemma DeleteKeepsConnections(db: Db, id: string)
    requires id in db.servers
    ensures var (db', r) := DeleteServer(db, id);
      && r == Ok("RDP Server deleted successfully")
      && db'.servers.Keys == db.servers.Keys - {id}
      && (forall k :: k in db'.servers ==> db'.servers[k] == db.servers[k])
      && db'.connections == db.connections
  {
  }

  /**
   * A new connection is one more document, `connecting`, started now, with the fresh session
   * id; its server becomes `active` with `updated_at` now and no other field or server changes.
   */
  lemma CreateConnectionEffect(db: Db, serverId: string, connectionId: string, sessionId: string, now: int)
    requires serverId in db.servers && FreshConnection(db, connectionId, sessionId)
    ensures var (db', r) := CreateConnection(db, serverId, connectionId, sessionId, now);
      && r.Ok?
      && r.value.id == connectionId && r.value.serverId == serverId && r.value.sessionId == sessionId
      && r.value.status == Connecting && r.value.endedAt == None
      && db'.connections.Keys == db.connections.Keys + {connectionId}
      && |db'.connections| == |db.connections| + 1
      && db'.connections[connectionId] == r.value
      && (forall k :: k in db.connections ==> db'.connections[k] == db.connections[k])
      && (forall k :: k in db.connections ==> db'.connections[k].sessionId != sessionId)
      && db'.servers.Keys == db.servers.Keys
      && db'.servers[serverId].status == Active
      && db'.servers[serverId] == db.servers[serverId].(status := Active, updatedAt := now)
      && r.value.startedAt == now
      && (forall k :: k in db.servers && k != serverId ==> db'.servers[k] == db.servers[k])
  {
  }

  /**
   * Ending a connection makes it `inactive` with an end time. Its server is reset to
   * `inactive` exactly when no other connection of that server is still live; otherwise it
   * stays `active`. Nothing else changes.
   */
  lemma EndConnectionEffect(db: Db, connectionId: string, now: int)
    requires Invariant(db) && connectionId in db.connections
    ensures var (db', r) := EndConnection(db, connectionId, now);
      var c := db.connections[connectionId];
      var othersLive := exists k :: k in db.connections && k != connectionId
                          && db.connections[k].serverId == c.serverId && IsLive(db.connections[k].status);
      && r == Ok("Connection ended successfully")
      && db'.connections.Keys == db.connections.Keys
      && db'.connections[connectionId] == c.(status := Inactive, endedAt := Some(now))
      && (forall k :: k in db.connections && k != connectionId ==> db'.connections[k] == db.connections[k])
      && db'.servers.Keys == db.servers.Keys
      && (c.serverId in db.servers ==>
            db'.servers[c.serverId].status == (if othersLive then Active else Inactive))
      && (c.serverId in db.servers ==>
            db'.servers[c.serverId] == (if othersLive then db.servers[c.serverId]
                                        else db.servers[c.serverId].(status := Inactive, updatedAt := now)))
      && (forall k :: k in db.servers && k != c.serverId ==> db'.servers[k] == db.servers[k])
  {
    var (db', r) := EndConnection(db, connectionId, now);
    var c := db.connections[connectionId];
    var othersLive := exists k :: k in db.connections && k != connectionId
                        && db.connections[k].serverId == c.serverId && IsLive(db.connections[k].status);
    if othersLive {
      var k :| k in db.connections && k != connectionId
               && db.connections[k].serverId == c.serverId && IsLive(db.connections[k].status);
      assert db'.connections[k] == db.connections[k];
      assert HasLive(db'.connections, c.serverId);
      if c.serverId in db.servers {
        assert HasLive(db.connections, c.serverId);
      }
    } else {
      assert !HasLive(db'.connections, c.serverId);
    }
  }

  // ---------------------------------------------------------------------------
  // The invariant is kept by every handler
  // ---------------------------------------------------------------------------

  lemma CreateServerKeepsInvariant(db: Db, req: ServerCreate, id: string, now: int)
    requires Invariant(db) && FreshServerId(db, id)
    ensures Invariant(CreateServer(db, req, id, now).0)
  {
    var db' := CreateServer(db, req, id, now).0;
    assert !HasLive(db'.connections, id);
  }

  lemma UpdateServerKeepsInvariant(db: Db, id: string, u: ServerUpdate, now: int)
    requires Invariant(db)
    ensures Invariant(UpdateServer(db, id, u, now).0)
  {
  }

  lemma DeleteServerKeepsInvariant(db: Db, id: string)
    requires Invariant(db)
    ensures Invariant(DeleteServer(db, id).0)
  {
  }

  /** Adding a connection leaves every other server's set of live connections as it was. */
  lemma AddConnectionHasLive(connections: map<string, Connection>, c: Connection, serverId: string)
    requires c.id !in connections
    ensures HasLive(connections[c.id := c], serverId)
            == (HasLive(connections, serverId) || (c.serverId == serverId && IsLive(c.status)))
  {
    var connections' := connections[c.id := c];
    if HasLive(connections, serverId) {
      var k :| k in connections && connections[k].serverId == serverId && IsLive(connections[k].status);
      assert connections'[k] == connections[k];
    }
    if c.serverId == serverId && IsLive(c.status) {
      assert connections'[c.id] == c;
    }
  }

  lemma CreateConnectionKeepsInvariant(db: Db, serverId: string, connectionId: string, sessionId: string, now: int)
    requires Invariant(db) && FreshConnection(db, connectionId, sessionId)
    ensures Invariant(CreateConnection(db, serverId, connectionId, sessionId, now).0)
  {
    if serverId in db.servers {
      var db' := CreateConnection(db, serverId, connectionId, sessionId, now).0;
      var c := db'.connections[connectionId];
      forall k | k in db.servers
        ensures HasLive(db'.connections, k) == (HasLive(db.connections, k) || k == serverId)
      {
        AddConnectionHasLive(db.connections, c, k);
      }
    }
  }

  /** Marking one connection `inactive` can only remove live connections, and only of its server. */
  lemma EndConnectionHasLive(connections: map<string, Connection>, connectionId: string, now: int, serverId: string)
    requires connectionId in connections
    ensures var c := connections[connectionId];
      var connections' := connections[connectionId := c.(status := Inactive, endedAt := Some(now))];
      && (HasLive(connections', serverId) ==> HasLive(connections, serverId))
      && (serverId != c.serverId ==> HasLive(connections', serverId) == HasLive(connections, serverId))
  {
    var c := connections[connectionId];
    var connections' := connections[connectionId := c.(status := Inactive, endedAt := Some(now))];
    if HasLive(connections', serverId) {
      var k :| k in connections' && connections'[k].serverId == serverId && IsLive(connections'[k].status);
      assert k != connectionId;
      assert connections[k] == connections'[k];
    }
    if serverId != c.serverId && HasLive(connections, serverId) {
      var k :| k in connections && connections[k].serverId == serverId && IsLive(connections[k].status);
      assert connections'[k] == connections[k];
    }
  }

  lemma EndConnectionKeepsInvariant(db: Db, connectionId: string, now: int)
    requires Invariant(db)
    ensures Invariant(EndConnection(db, connectionId, now).0)
  {
    if connectionId in db.connections {
      var db' := EndConnection(db, connectionId, now).0;
      forall k | k in db.servers
        ensures (HasLive(db'.connections, k) ==> HasLive(db.connections, k))
        ensures k != db.connections[connectionId].serverId ==> HasLive(db'.connections, k) == HasLive(db.connections, k)
      {
        EndConnectionHasLive(db.connections, connectionId, now, k);
      }
    }
  }

  /** Under the invariant no server is ever `connecting` or `error`. */
  lemma ServerStatusIsActiveOrInactive(db: Db, id: string)
    requires Invariant(db) && id in db.servers
    ensures db.servers[id].status == Active || db.servers[id].status == Inactive
    ensures db.servers[id].status != Connecting && db.servers[id].status != Error
  {
  }

  // ---------------------------------------------------------------------------
  // Sequences of requests
  // ---------------------------------------------------------------------------

  /** One state-changing request to the back end, with the ids and time it is served with. */
  datatype Request =
    | CreateServerRequest(req: ServerCreate, id: string, now: int)
    | UpdateServerRequest(id: string, update: ServerUpdate, now: int)
    | DeleteServerRequest(id: string)
    | CreateConnectionRequest(serverId: string, connectionId: string, sessionId: string, now: int)
    | EndConnectionRequest(connectionId: string, now: int)

  /** The generated ids a request carries are fresh for the state it meets. */
  predicate FreshFor(db: Db, r: Request) {
    match r
    case CreateServerRequest(_, id, _) => FreshServerId(db, id)
    case CreateConnectionRequest(_, connectionId, sessionId, _) => FreshConnection(db, connectionId, sessionId)
    case _ => true
  }

  function Apply(db: Db, r: Request): Db {
    match r
    case CreateServerRequest(req, id, now) => CreateServer(db, req, id, now).0
    case UpdateServerRequest(id, u, now) => UpdateServer(db, id, u, now).0
    case DeleteServerRequest(id) => DeleteServer(db, id).0
    case CreateConnectionRequest(serverId, connectionId, sessionId, now) =>
      CreateConnection(db, serverId, connectionId, sessionId, now).0
    case EndConnectionRequest(connectionId, now) => EndConnection(db, connectionId, now).0
  }

  /** The requests, served one after another from `db`, each meet fresh ids. */
  predicate FreshRun(db: Db, rs: seq<Request>)
    decreases |rs|
  {
    rs == [] || (FreshFor(db, rs[0]) && FreshRun(Apply(db, rs[0]), rs[1..]))
  }

  function Run(db: Db, rs: seq<Request>): Db
    decreases |rs|
  {
    if rs == [] then db else Run(Apply(db, rs[0]), rs[1..])
  }

  lemma StepKeepsInvariant(db: Db, r: Request)
    requires Invariant(db) && FreshFor(db, r)
    ensures Invariant(Apply(db, r))
  {
    match r
    case CreateServerRequest(req, id, now) => CreateServerKeepsInvariant(db, req, id, now);
    case UpdateServerRequest(id, u, now) => UpdateServerKeepsInvariant(db, id, u, now);
    case DeleteServerRequest(id) => DeleteServerKeepsInvariant(db, id);
    case CreateConnectionRequest(serverId, connectionId, sessionId, now) =>
      CreateConnectionKeepsInvariant(db, serverId, connectionId, sessionId, now);
    case EndConnectionRequest(connectionId, now) => EndConnectionKeepsInvariant(db, connectionId, now);
  }

  /**
   * After any sequence of requests served from the empty store, every server is `active`
   * exactly when a live connection references it, and `inactive` otherwise.
   */
  lemma {:induction false} RunKeepsInvariant(db: Db, rs: seq<Request>)
    requires Invariant(db) && FreshRun(db, rs)
    ensures Invariant(Run(db, rs))
    decreases |rs|
  {
    if rs != [] {
      StepKeepsInvariant(db, rs[0]);
      RunKeepsInvariant(Apply(db, rs[0]), rs[1..]);
    }
  }

  lemma EmptyStoreInvariant()
    ensures Invariant(Db(map[], map[]))
  {
  }

  /**
   * The handler does not refuse a second connection to a server that already has a live one:
   * both are stored, both live, and the server stays `active`.
   */
  lemma SecondConnectionIsAccepted(db: Db, serverId: string, c1: string, s1: string, c2: string, s2: string, now: int)
    requires Invariant(db) && serverId in db.servers
    requires FreshConnection(db, c1, s1) && c1 != c2 && s1 != s2
    requires FreshConnection(db, c2, s2)
    ensures var (db1, r1) := CreateConnection(db, serverId, c1, s1, now);
      var (db2, r2) := CreateConnection(db1, serverId, c2, s2, now);
      && r1.Ok? && r2.Ok?
      && c1 in db2.connections && c2 in db2.connections
      && IsLive(db2.connections[c1].status) && IsLive(db2.connections[c2].status)
      && db2.servers[serverId].status == Active
      && Invariant(db2)
  {
    var (db1, r1) := CreateConnection(db, serverId, c1, s1, now);
    CreateConnectionKeepsInvariant(db, serverId, c1, s1, now);
    assert FreshConnection(db1, c2, s2);
    CreateConnectionKeepsInvariant(db1, serverId, c2, s2, now);
  }
}
