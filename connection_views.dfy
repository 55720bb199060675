/**
 * The active connections page (frontend/src/components/ActiveConnections.js): the elapsed
 * time of each connection, the server it belongs to (with the 'Unknown Server' fallback), the
 * capitalised status and OS type, and the confirm-gated disconnect. The time difference
 * `now - start` is an integer number of milliseconds given as a parameter.
 */
module ConnectionViews {
  import opened Wrappers
  import opened Text
  import opened Broker
  import opened ClientCache
  import ServerViews

  // ---------------------------------------------------------------------------
  // Durations
  // ---------------------------------------------------------------------------

  const MsPerHour := 3600000
  const MsPerMinute := 60000

  /** JavaScript's `a % b` for a positive `b`: the remainder takes the sign of `a`. */
  function JsRem(a: int, b: int): (r: int)
    requires b > 0
    ensures a >= 0 ==> r == a % b
    ensures a < 0 ==> r == (if a % b == 0 then 0 else a % b - b)
    ensures -b < r < b && (a < 0 ==> r <= 0)
  {
    if a >= 0 then a % b else NegatedRemainder(a, b); -((-a) % b)
  }

  /** `a == q * b + m` with `0 <= m < b` determines Dafny's (Euclidean) `a % b` as `m`. */
  lemma RemainderUnique(a: int, b: int, q: int, m: int)
    requires b > 0 && a == q * b + m && 0 <= m < b
    ensures a % b == m
  {
    var d := q - a / b;
    assert d * b == a % b - m;
  }

  /** For a negative dividend, the truncated remainder `-((-a) % b)` against `a % b`. */
  lemma NegatedRemainder(a: int, b: int)
    requires b > 0 && a < 0
    ensures -((-a) % b) == (if a % b == 0 then 0 else a % b - b)
  {
    var q, m := (-a) / b, (-a) % b;
    assert -a == q * b + m;
    if m == 0 {
      RemainderUnique(a, b, -q, 0);
    } else {
      RemainderUnique(a, b, -q - 1, b - m);
    }
  }

  /** `Math.floor(diff / (1000 * 60 * 60))`; Dafny's `/` by a positive divisor rounds down too. */
  function Hours(diff: int): int {
    diff / MsPerHour
  }

  /** `Math.floor((diff % (1000 * 60 * 60)) / (1000 * 60))`. */
  function Minutes(diff: int): int {
    JsRem(diff, MsPerHour) / MsPerMinute
  }

  /** `formatDuration`: hours and minutes when at least an hour has passed, else minutes only. */
  function FormatDuration(diff: int): string {
    if Hours(diff) > 0 then IntToString(Hours(diff)) + "h " + IntToString(Minutes(diff)) + "m"
    else IntToString(Minutes(diff)) + "m"
  }

  /** For a start in the past, hours and minutes are the whole hours and the whole minutes left over. */
  lemma DurationBounds(diff: int)
    requires diff >= 0
    ensures Hours(diff) >= 0 && 0 <= Minutes(diff) <= 59
    ensures Hours(diff) * MsPerHour + Minutes(diff) * MsPerMinute <= diff
    ensures diff < Hours(diff) * MsPerHour + (Minutes(diff) + 1) * MsPerMinute
  {
    var h, r := diff / MsPerHour, diff % MsPerHour;
    assert diff == h * MsPerHour + r && 0 <= r < MsPerHour;
    var m, q := r / MsPerMinute, r % MsPerMinute;
    assert r == m * MsPerMinute + q && 0 <= q < MsPerMinute;
  }

  /**
   * A start in the future (a server clock ahead of the browser's) shows only minutes, none
   * positive; the truncating `%` then rounding down reaches -60 just short of an hour ahead.
   */
  lemma FutureStartShowsMinutes(diff: int)
    requires diff < 0
    ensures Hours(diff) < 0 && -60 <= Minutes(diff) <= 0
    ensures FormatDuration(diff) == IntToString(Minutes(diff)) + "m"
    ensures Minutes(-3599999) == -60 && Minutes(-1) == -1
  {
    var r := JsRem(diff, MsPerHour);
    assert -MsPerHour < r <= 0;
  }

  /** `<n><unit>` read back as `n`. */
  function ReadUnit(piece: string, unit: char): Option<int> {
    if piece != [] && piece[|piece| - 1] == unit then ParseIntPrefix(piece[..|piece| - 1]) else None
  }

  /** Read a rendered duration back as hours (0 when absent) and minutes. */
  function ParseDuration(s: string): Option<(int, int)> {
    var parts := Split(s, ' ');
    if |parts| == 1 then
      match ReadUnit(parts[0], 'm')
      case Some(m) => Some((0, m))
      case None => None
    else if |parts| == 2 then
      match (ReadUnit(parts[0], 'h'), ReadUnit(parts[1], 'm'))
      case (Some(h), Some(m)) => Some((h, m))
      case _ => None
    else None
  }

  lemma NoSpaceInNumber(n: int)
    ensures ' ' !in IntToString(n)
  {
    var digits := NatToString(if n < 0 then -n else n);
    assert forall i :: 0 <= i < |digits| ==> IsDigit(digits[i]);
    if n < 0 {
      assert IntToString(n) == "-" + digits;
      assert forall i :: 1 <= i < |IntToString(n)| ==> IntToString(n)[i] == digits[i - 1];
    }
  }

  lemma ReadUnitOf(n: int, unit: char)
    ensures ReadUnit(IntToString(n) + [unit], unit) == Some(n)
  {
    var piece := IntToString(n) + [unit];
    assert piece[..|piece| - 1] == IntToString(n);
    ParseIntRoundTrip(n);
  }

  /** An hour or more renders as `<hours>h <minutes>m`. */
  lemma HoursAndMinutesRoundTrip(h: int, m: int)
    ensures ParseDuration(IntToString(h) + "h " + IntToString(m) + "m") == Some((h, m))
  {
    var hoursPiece := IntToString(h) + "h";
    var minutesPiece := IntToString(m) + "m";
    NoSpaceInNumber(h);
    NoSpaceInNumber(m);
    assert IntToString(h) + "h " + IntToString(m) + "m" == hoursPiece + [' '] + minutesPiece;
    SplitTwo(hoursPiece, minutesPiece, ' ');
    ReadUnitOf(h, 'h');
    ReadUnitOf(m, 'm');
  }

  /** Less than an hour renders as `<minutes>m`. */
  lemma MinutesRoundTrip(m: int)
    ensures ParseDuration(IntToString(m) + "m") == Some((0, m))
  {
    NoSpaceInNumber(m);
    SplitNoSep(IntToString(m) + "m", ' ');
    ReadUnitOf(m, 'm');
  }

  /** The rendered duration determines the hours shown and the minutes. */
  lemma DurationRoundTrip(diff: int)
    ensures ParseDuration(FormatDuration(diff)) == Some((if Hours(diff) > 0 then Hours(diff) else 0, Minutes(diff)))
  {
    if Hours(diff) > 0 {
      HoursAndMinutesRoundTrip(Hours(diff), Minutes(diff));
    } else {
      MinutesRoundTrip(Minutes(diff));
    }
  }

  /** Ninety minutes read as 1h 30m; a minute and a half as 1m. */
  lemma DurationExamples()
    ensures Hours(5400000) == 1 && Minutes(5400000) == 30
    ensures Hours(90000) == 0 && Minutes(90000) == 1
    ensures FormatDuration(90000) == IntToString(1) + "m"
  {
  }

  // ---------------------------------------------------------------------------
  // Server lookup and labels
  // ---------------------------------------------------------------------------

  /** `servers.find(s => s.id === serverId)`: the first server with that id. */
  function FindServer(servers: seq<Server>, serverId: string): (r: Option<Server>)
    ensures r.None? <==> forall i :: 0 <= i < |servers| ==> servers[i].id != serverId
    ensures r.Some? ==> exists i :: 0 <= i < |servers| && servers[i] == r.value && r.value.id == serverId
                                    && forall j :: 0 <= j < i ==> servers[j].id != serverId
  {
    if servers == [] then None
    else if servers[0].id == serverId then Some(servers[0])
    else FindServer(servers[1..], serverId)
  }

  /** With ids distinct, the server found is the one with that id. */
  lemma FindServerUnique(servers: seq<Server>, serverId: string, i: int)
    requires forall a, b :: 0 <= a < b < |servers| ==> servers[a].id != servers[b].id
    requires 0 <= i < |servers| && servers[i].id == serverId
    ensures FindServer(servers, serverId) == Some(servers[i])
  {
    var r := FindServer(servers, serverId);
    var k :| 0 <= k < |servers| && servers[k] == r.value && r.value.id == serverId
             && forall j :: 0 <= j < k ==> servers[j].id != serverId;
  }

  const UnknownServer := "Unknown Server"

  /**
   * `server?.name || 'Unknown Server'`: the name of the first server with the id, where a
   * missing server and an empty name both fall back.
   */
  function ServerName(servers: seq<Server>, serverId: string): (name: string)
    ensures name != ""
    ensures (forall i :: 0 <= i < |servers| ==> servers[i].id != serverId) ==> name == UnknownServer
    ensures name != UnknownServer ==> exists i :: 0 <= i < |servers| && servers[i].id == serverId && servers[i].name == name
    ensures forall i :: 0 <= i < |servers| && servers[i].id == serverId
                        && (forall j :: 0 <= j < i ==> servers[j].id != serverId)
                        ==> name == (if servers[i].name == "" then UnknownServer else servers[i].name)
  {
    match FindServer(servers, serverId)
    case None => UnknownServer
    case Some(s) => if s.name == "" then UnknownServer else s.name
  }

  /**
   * `server?.os_type?.charAt(0).toUpperCase() + server?.os_type?.slice(1) || 'Unknown'`: with
   * no server the sum is NaN and with an empty type it is "", both falsy.
   */
  function OsLabel(osType: Option<string>): string {
    if osType.None? || osType.value == "" then "Unknown" else Capitalize(osType.value)
  }

  /** The OS column of a connection's card. */
  function ConnectionOsLabel(servers: seq<Server>, serverId: string): string {
    OsLabel(match FindServer(servers, serverId) case None => None case Some(s) => Some(OsTypeName(s.osType)))
  }

  /** A known server shows its capitalised OS type; a missing one shows 'Unknown'. */
  lemma ConnectionOsLabels(servers: seq<Server>, serverId: string)
    ensures FindServer(servers, serverId).None? ==> ConnectionOsLabel(servers, serverId) == "Unknown"
    ensures (FindServer(servers, serverId).Some? && FindServer(servers, serverId).value.osType == Windows)
              ==> ConnectionOsLabel(servers, serverId) == "Windows"
    ensures (FindServer(servers, serverId).Some? && FindServer(servers, serverId).value.osType == Linux)
              ==> ConnectionOsLabel(servers, serverId) == "Linux"
    ensures (FindServer(servers, serverId).Some? && FindServer(servers, serverId).value.osType == MacOs)
              ==> ConnectionOsLabel(servers, serverId) == "Macos"
  {
    CapitalizeTo("windows", "Windows");
    CapitalizeTo("linux", "Linux");
    CapitalizeTo("macos", "Macos");
  }

  /** The connection's status badge changes only the first letter of the stored status. */
  lemma ConnectionStatusBadge(c: Connection)
    ensures |ServerViews.StatusBadge(StatusName(c.status))| == |StatusName(c.status)|
    ensures ServerViews.StatusBadge(StatusName(c.status))[1..] == StatusName(c.status)[1..]
    ensures !IsLower(ServerViews.StatusBadge(StatusName(c.status))[0])
  {
  }

  // ---------------------------------------------------------------------------
  // Disconnecting
  // ---------------------------------------------------------------------------

  const DisconnectFailedAlert := "Failed to disconnect from server"

  function DisconnectQuestion(serverName: string): string {
    "Are you sure you want to disconnect from \"" + serverName + "\"?"
  }

  class ConnectionsPage {
    var dialogs: seq<ServerViews.Dialog>

    constructor ()
      ensures dialogs == []
    {
      dialogs := [];
    }

    /** `handleDisconnect`: ask first; disconnect only when confirmed, and report a failure. */
    method HandleDisconnect(connectionId: string, serverName: string, confirmed: bool,
                            cache: RdpCache, response: Http<()>, refresh: Http<seq<Server>>)
      modifies this, cache
      ensures !confirmed ==> dialogs == old(dialogs) + [ServerViews.Confirm(DisconnectQuestion(serverName))] && unchanged(cache)
      ensures confirmed && response.Ok? ==>
        && dialogs == old(dialogs) + [ServerViews.Confirm(DisconnectQuestion(serverName))]
        && cache.connections == RemoveById(old(cache.connections), ConnectionId, connectionId)
        && cache.servers == (if refresh.Ok? then refresh.data else old(cache.servers))
        && cache.error == (if refresh.Ok? then None else Some(FetchServersFailed))
        && !cache.loading
      ensures confirmed && response.Failed? ==>
        && dialogs == old(dialogs) + [ServerViews.Confirm(DisconnectQuestion(serverName)), ServerViews.Alert(DisconnectFailedAlert)]
        && cache.connections == old(cache.connections) && cache.servers == old(cache.servers)
        && cache.error == Some(DisconnectFailed) && cache.loading == old(cache.loading)
    {
      dialogs := dialogs + [ServerViews.Confirm(DisconnectQuestion(serverName))];
      if confirmed {
        var r := cache.DisconnectFromServer(connectionId, response, refresh);
        if r.Rethrown? {
          dialogs := dialogs + [ServerViews.Alert(DisconnectFailedAlert)];
        }
      }
    }
  }
}
