/**
 * The server list page (frontend/src/components/RDPServers.js): the status colour and OS icon
 * of each card, the capitalised status badge, the connect button (disabled flag, label and
 * style), and the connect and delete handlers with the dialogs they raise.
 */
module ServerViews {
  import opened Wrappers
  import opened Text
  import opened Broker
  import opened ClientCache

  // ---------------------------------------------------------------------------
  // Display mappings
  // ---------------------------------------------------------------------------

  const Green := "text-green-400"
  const Gray := "text-gray-400"
  const Yellow := "text-yellow-400"
  const Red := "text-red-400"

  /** `getStatusColor`. */
  function StatusColor(status: string): string {
    if status == "active" then Green
    else if status == "inactive" then Gray
    else if status == "connecting" then Yellow
    else if status == "error" then Red
    else Gray
  }

  /** Each stored status has its own colour except that an unknown one looks inactive. */
  lemma StatusColors(status: string)
    ensures StatusColor(StatusName(Active)) == "text-green-400"
    ensures StatusColor(StatusName(Inactive)) == "text-gray-400"
    ensures StatusColor(StatusName(Connecting)) == "text-yellow-400"
    ensures StatusColor(StatusName(Error)) == "text-red-400"
    ensures (forall s: Status :: status != StatusName(s)) ==> StatusColor(status) == StatusColor("inactive")
    ensures forall s: Status, t: Status :: s != t ==> StatusColor(StatusName(s)) != StatusColor(StatusName(t))
  {
    assert StatusName(Inactive) == "inactive";
  }

  const WindowsIcon := "\U{1FA9F}"
  const LinuxIcon := "\U{1F427}"
  const MacIcon := "\U{1F34E}"
  const ComputerIcon := "\U{1F4BB}"

  /** `getOSIcon`. */
  function OsIcon(osType: string): string {
    if osType == "windows" then WindowsIcon
    else if osType == "linux" then LinuxIcon
    else if osType == "macos" then MacIcon
    else ComputerIcon
  }

  /** The three stored OS types have three different icons; anything else shows a computer. */
  lemma OsIcons(osType: string)
    ensures OsIcon(OsTypeName(Windows)) == WindowsIcon
    ensures OsIcon(OsTypeName(Linux)) == LinuxIcon
    ensures OsIcon(OsTypeName(MacOs)) == MacIcon
    ensures forall o: OsType, p: OsType :: o != p ==> OsIcon(OsTypeName(o)) != OsIcon(OsTypeName(p))
    ensures (forall o: OsType :: osType != OsTypeName(o)) ==> OsIcon(osType) == ComputerIcon
    ensures forall o: OsType :: OsIcon(OsTypeName(o)) != ComputerIcon
  {
    assert OsTypeName(Windows) == "windows" && OsTypeName(Linux) == "linux" && OsTypeName(MacOs) == "macos";
  }

  /** The status badge: `status.charAt(0).toUpperCase() + status.slice(1)`. */
  function StatusBadge(status: string): string {
    Capitalize(status)
  }

  /** The badges of the four stored statuses. */
  lemma StatusBadges()
    ensures StatusBadge(StatusName(Active)) == "Active"
    ensures StatusBadge(StatusName(Inactive)) == "Inactive"
    ensures StatusBadge(StatusName(Connecting)) == "Connecting"
    ensures StatusBadge(StatusName(Error)) == "Error"
  {
    CapitalizeTo("active", "Active");
    CapitalizeTo("inactive", "Inactive");
    CapitalizeTo("connecting", "Connecting");
    CapitalizeTo("error", "Error");
  }

  // ---------------------------------------------------------------------------
  // The connect button
  // ---------------------------------------------------------------------------

  /** `connecting === server.id || server.status === "active"`; `None` is `null`. */
  predicate ConnectDisabled(connecting: Option<string>, id: string, status: string) {
    connecting == Some(id) || status == "active"
  }

  /** The label: a connect in progress takes precedence over an active server. */
  function ConnectLabel(connecting: Option<string>, id: string, status: string): string {
    if connecting == Some(id) then "Connecting..."
    else if status == "active" then "Connected"
    else "Connect"
  }

  const ActiveStyle := "bg-green-600 text-white cursor-not-allowed"
  const PendingStyle := "bg-yellow-600 text-white cursor-not-allowed"
  const ReadyStyle := "bg-blue-600 hover:bg-blue-700 text-white"

  /** The style: here an active server takes precedence over a connect in progress. */
  function ConnectStyle(connecting: Option<string>, id: string, status: string): string {
    if status == "active" then ActiveStyle
    else if connecting == Some(id) then PendingStyle
    else ReadyStyle
  }

  /**
   * The button reads 'Connect' and has the ready style exactly when it is enabled; when it is
   * disabled it reads 'Connecting...' or 'Connected'.
   */
  lemma ConnectButton(connecting: Option<string>, id: string, status: string)
    ensures ConnectLabel(connecting, id, status) == "Connect" <==> !ConnectDisabled(connecting, id, status)
    ensures ConnectStyle(connecting, id, status) == ReadyStyle <==> !ConnectDisabled(connecting, id, status)
    ensures ConnectLabel(connecting, id, status) == "Connecting..." <==> connecting == Some(id)
    ensures ConnectLabel(connecting, id, status) == "Connected" <==> connecting != Some(id) && status == "active"
  {
  }

  /** The two precedences differ: an active server being connected again reads 'Connecting...' in green. */
  lemma LabelAndStyleDisagree(id: string)
    ensures ConnectLabel(Some(id), id, "active") == "Connecting..."
    ensures ConnectStyle(Some(id), id, "active") == ActiveStyle
  {
  }

  /** No server card is disabled by another server's connect: only the id `connecting` names. */
  lemma OnlyOneCardConnecting(servers: seq<Server>, connecting: Option<string>, i: int, j: int)
    requires 0 <= i < |servers| && 0 <= j < |servers|
    requires forall a, b :: 0 <= a < b < |servers| ==> servers[a].id != servers[b].id
    requires ConnectLabel(connecting, servers[i].id, StatusName(servers[i].status)) == "Connecting..."
    requires ConnectLabel(connecting, servers[j].id, StatusName(servers[j].status)) == "Connecting..."
    ensures i == j
  {
  }

  // ---------------------------------------------------------------------------
  // Handlers
  // ---------------------------------------------------------------------------

  const ConnectInitiated := "RDP connection initiated! (Demo mode - would open RDP client)"
  const ConnectFailedAlert := "Failed to connect to server"
  const DeleteFailedAlert := "Failed to delete server"

  /** The question `handleDelete` asks before deleting a server. */
  function DeleteQuestion(serverName: string): string {
    "Are you sure you want to delete server \"" + serverName + "\"?"
  }

  /** A browser dialog the page raises: `confirm` or `alert`. */
  datatype Dialog = Confirm(question: string) | Alert(message: string)

  class ServerList {
    /** The id of the server being connected, or `null`. */
    var connecting: Option<string>
    var dialogs: seq<Dialog>

    constructor ()
      ensures connecting == None && dialogs == []
    {
      connecting, dialogs := None, [];
    }

    /**
     * `handleConnect`: mark the server as connecting, ask the cache to connect, tell the user
     * how it went, and clear the mark whatever happened.
     */
    method HandleConnect(serverId: string, cache: RdpCache, response: Http<Connection>, refresh: Http<seq<Server>>)
      modifies this, cache
      ensures connecting == None
      ensures dialogs == old(dialogs) + [Alert(if response.Ok? then ConnectInitiated else ConnectFailedAlert)]
      ensures response.Ok? ==>
        && cache.connections == old(cache.connections) + [response.data]
        && !cache.loading
        && cache.servers == (if refresh.Ok? then refresh.data else old(cache.servers))
        && cache.error == (if refresh.Ok? then None else Some(FetchServersFailed))
      ensures response.Failed? ==>
        && cache.connections == old(cache.connections) && cache.servers == old(cache.servers)
        && cache.loading == old(cache.loading) && cache.error == Some(ConnectFailed)
    {
      connecting := Some(serverId);
      var r := cache.ConnectToServer(response, refresh);
      if r.Returned? {
        dialogs := dialogs + [Alert(ConnectInitiated)];
      } else {
        dialogs := dialogs + [Alert(ConnectFailedAlert)];
      }
      connecting := None;
    }

    /** `handleDelete`: ask first; delete only when confirmed, and report a failed delete. */
    method HandleDelete(serverId: string, serverName: string, confirmed: bool, cache: RdpCache, response: Http<()>)
      modifies this, cache
      ensures connecting == old(connecting)
      ensures !confirmed ==> dialogs == old(dialogs) + [Confirm(DeleteQuestion(serverName))] && unchanged(cache)
      ensures confirmed && response.Ok? ==>
        && dialogs == old(dialogs) + [Confirm(DeleteQuestion(serverName))]
        && cache.servers == RemoveById(old(cache.servers), ServerId, serverId) && cache.error == None
      ensures confirmed && response.Failed? ==>
        && dialogs == old(dialogs) + [Confirm(DeleteQuestion(serverName)), Alert(DeleteFailedAlert)]
        && cache.servers == old(cache.servers) && cache.error == Some(DeleteServerFailed)
      ensures confirmed ==> cache.connections == old(cache.connections) && cache.loading == old(cache.loading)
    {
      dialogs := dialogs + [Confirm(DeleteQuestion(serverName))];
      if confirmed {
        var r := cache.DeleteServer(serverId, response);
        if r.Rethrown? {
          dialogs := dialogs + [Alert(DeleteFailedAlert)];
        }
      }
    }
  }
}
