/**
 * The remote desktop view (frontend/src/components/GuacamoleClient.js): it authenticates with
 * the gateway, fetches the connection details, creates the gateway client, connects it with a
 * connect string, shows the client's state as a status label, and forwards keyboard and mouse
 * input. The gateway library is foreign code: its client states are an enumeration, and every
 * call made on it (and the `onClose` callback) is an entry of an ordered effect log.
 */
module SessionClient {
  import opened Wrappers
  import opened Text

  // ---------------------------------------------------------------------------
  // Client states and their labels
  // ---------------------------------------------------------------------------

  /** `Guacamole.Client` states; any other value the library reports is `Unrecognised`. */
  datatype ClientState = Idle | Connecting | Waiting | Connected | Disconnecting | Disconnected | Unrecognised(code: int)

  /** The `onstatechange` switch. */
  function StateLabel(s: ClientState): string {
    match s
    case Idle => "Ready"
    case Connecting => "Connecting to server..."
    case Waiting => "Waiting for server..."
    case Connected => "Connected"
    case Disconnecting => "Disconnecting..."
    case Disconnected => "Disconnected"
    case Unrecognised(_) => "Unknown state"
  }

  /** Which known state a label shows, if any: the inverse of `StateLabel` on the known states. */
  function LabelState(text: string): Option<ClientState> {
    if text == "Ready" then Some(Idle)
    else if text == "Connecting to server..." then Some(Connecting)
    else if text == "Waiting for server..." then Some(Waiting)
    else if text == "Connected" then Some(Connected)
    else if text == "Disconnecting..." then Some(Disconnecting)
    else if text == "Disconnected" then Some(Disconnected)
    else None
  }

  /** Each known state has its own label, and every other state shows 'Unknown state', which names none. */
  lemma StateLabelRoundTrip(s: ClientState)
    ensures LabelState(StateLabel(s)) == if s.Unrecognised? then None else Some(s)
    ensures s.Unrecognised? <==> StateLabel(s) == "Unknown state"
  {
  }

  // ---------------------------------------------------------------------------
  // The connect string
  // ---------------------------------------------------------------------------

  const TokenKey := "token="
  const DataSourceAndId := "&GUAC_DATA_SOURCE=postgresql&GUAC_ID="

  /** `token=${token}&GUAC_DATA_SOURCE=postgresql&GUAC_ID=${connection_id}`. */
  function ConnectString(token: string, connectionId: string): string {
    TokenKey + token + DataSourceAndId + connectionId
  }

  /** Read a token and a connection id back out of a connect string. */
  function ParseConnectString(s: string): Option<(string, string)> {
    if !(TokenKey <= s) then None
    else
      var rest := s[|TokenKey|..];
      var token := TakeUntil(rest, '&');
      var tail := rest[|token|..];
      if DataSourceAndId <= tail then Some((token, tail[|DataSourceAndId|..])) else None
  }

  /** The connect string determines the token (free of '&', as a uuid is) and the connection id. */
  lemma {:induction false} ConnectStringRoundTrip(token: string, connectionId: string)
    requires '&' !in token
    ensures ParseConnectString(ConnectString(token, connectionId)) == Some((token, connectionId))
  {
    var s := ConnectString(token, connectionId);
    assert TokenKey <= s;
    var rest := s[|TokenKey|..];
    assert rest == token + (DataSourceAndId + connectionId);
    TakeUntilOf(token, DataSourceAndId + connectionId, '&');
    var tail := rest[|token|..];
    assert tail == DataSourceAndId + connectionId;
    assert tail[|DataSourceAndId|..] == connectionId;
  }

  // ---------------------------------------------------------------------------
  // Input forwarding
  // ---------------------------------------------------------------------------

  /** A `Guacamole.Mouse.State`: position and buttons. */
  datatype MouseState = MouseState(x: int, y: int, left: bool, middle: bool, right: bool, up: bool, down: bool)

  /** What the keyboard and mouse handlers receive. */
  datatype InputEvent = KeyDown(keysym: int) | KeyUp(keysym: int) | MouseDown(mouse: MouseState) | MouseUp(mouse: MouseState) | MouseMove(mouse: MouseState)

  /** A call on the gateway client, or the parent's `onClose` callback. */
  datatype Effect = Connect(connectString: string) | SendKey(pressed: int, keysym: int) | SendMouse(state: MouseState) | Disconnect | Close

  /** The one call each handler makes. */
  function SendFor(e: InputEvent): Effect {
    match e
    case KeyDown(k) => SendKey(1, k)
    case KeyUp(k) => SendKey(0, k)
    case MouseDown(m) => SendMouse(m)
    case MouseUp(m) => SendMouse(m)
    case MouseMove(m) => SendMouse(m)
  }

  /** The calls a stream of events produces, one per event. */
  function ForwardAll(es: seq<InputEvent>): (sends: seq<Effect>)
    ensures |sends| == |es|
    ensures forall i :: 0 <= i < |es| ==> sends[i] == SendFor(es[i])
  {
    if es == [] then [] else [SendFor(es[0])] + ForwardAll(es[1..])
  }

  /** Forwarding is per event: the sends of a longer stream extend those of its prefix, in order. */
  lemma ForwardAllAppend(a: seq<InputEvent>, b: seq<InputEvent>)
    ensures ForwardAll(a + b) == ForwardAll(a) + ForwardAll(b)
  {
    assert forall i :: 0 <= i < |a| ==> (a + b)[i] == a[i];
    assert forall i :: |a| <= i < |a| + |b| ==> (a + b)[i] == b[i - |a|];
  }

  /** Key-down and key-up of one key are told apart; a mouse event sends its state unchanged. */
  lemma SendForDistinguishes(k: int, m: MouseState)
    ensures SendFor(KeyDown(k)) == SendKey(1, k) && SendFor(KeyUp(k)) == SendKey(0, k)
    ensures SendFor(KeyDown(k)) != SendFor(KeyUp(k))
    ensures SendFor(MouseDown(m)) == SendFor(MouseUp(m)) == SendFor(MouseMove(m)) == SendMouse(m)
  {
  }

  /** Key down A, key up A, a move to (10, 10) reach the gateway in that order. */
  lemma ForwardingExample(a: int, m: MouseState)
    requires m.x == 10 && m.y == 10
    ensures ForwardAll([KeyDown(a), KeyUp(a), MouseMove(m)]) == [SendKey(1, a), SendKey(0, a), SendMouse(m)]
  {
  }

  // ---------------------------------------------------------------------------
  // The component
  // ---------------------------------------------------------------------------

  /** A settled `fetch`: a 2xx response with its decoded body, another status, or a rejection. */
  datatype Fetch<T> = Ok(body: T) | NotOk | Rejected(message: string)

  const AuthFailed := "Failed to authenticate with Guacamole"
  const DetailsFailed := "Failed to get connection details"
  const InitFailed := "Failed to initialize"
  const ErrorPrefix := "Connection error: "

  /** The message `onerror` records. */
  function ClientErrorText(message: Option<string>): (text: string)
    ensures |text| > |ErrorPrefix| && text[..|ErrorPrefix|] == ErrorPrefix
  {
    ErrorPrefix + (if message.Some? && message.value != "" then message.value else "Unknown error")
  }

  /**
   * Two different non-empty messages are reported as two different texts, and a missing or
   * empty message is reported exactly like the message "Unknown error".
   */
  lemma ClientErrorTextInjective(a: Option<string>, b: Option<string>)
    requires a.Some? && a.value != "" && b.Some? && b.value != ""
    ensures ClientErrorText(a) == ClientErrorText(b) <==> a == b
    ensures ClientErrorText(None) == ClientErrorText(Some("")) == ClientErrorText(Some("Unknown error"))
  {
    if ClientErrorText(a) == ClientErrorText(b) {
      assert a.value == ClientErrorText(a)[|ErrorPrefix|..];
      assert b.value == ClientErrorText(b)[|ErrorPrefix|..];
    }
  }

  /** The error message the failing step of the initialisation throws. */
  function FailureMessage<T>(f: Fetch<T>, notOk: string): string
    requires !f.Ok?
  {
    if f.Rejected? then f.message else notOk
  }

  class RemoteSession {
    var status: string
    var authToken: Option<string>
    var error: Option<string>
    /** `clientRef.current` is set. */
    var hasClient: bool
    /** The keyboard and mouse handlers are installed on the display. */
    var inputAttached: bool
    var log: seq<Effect>

    constructor ()
      ensures status == "Initializing..." && authToken == None && error == None
      ensures !hasClient && !inputAttached && log == []
    {
      status, authToken, error := "Initializing...", None, None;
      hasClient, inputAttached, log := false, false, [];
    }

    /** The effect run for `serverId`: it initialises only when the id is truthy. */
    method Mount(serverId: string, auth: Fetch<string>, details: Fetch<string>, displayMounted: bool)
      modifies this
      ensures serverId == "" ==>
        status == old(status) && authToken == old(authToken) && error == old(error)
        && hasClient == old(hasClient) && inputAttached == old(inputAttached) && log == old(log)
      ensures serverId != "" ==> Initialized(old(log), old(authToken), old(error), old(hasClient), old(inputAttached), auth, details, displayMounted)
    {
      if serverId != "" {
        InitializeConnection(auth, details, displayMounted);
      }
    }

    /**
     * The state `initializeConnection` leaves: a failed step records its message and
     * 'Failed to initialize' with no client and no call made; success records the token,
     * creates the client and calls `connect` once with the connect string.
     */
    ghost predicate Initialized(log0: seq<Effect>, token0: Option<string>, error0: Option<string>, client0: bool, input0: bool,
                                auth: Fetch<string>, details: Fetch<string>, displayMounted: bool)
      reads this
    {
      if !auth.Ok? then
        && error == Some(FailureMessage(auth, AuthFailed)) && status == InitFailed
        && authToken == token0 && hasClient == client0 && inputAttached == input0 && log == log0
      else if !details.Ok? then
        && authToken == Some(auth.body)
        && error == Some(FailureMessage(details, DetailsFailed)) && status == InitFailed
        && hasClient == client0 && inputAttached == input0 && log == log0
      else
        && authToken == Some(auth.body) && error == error0
        && status == "Connecting..." && hasClient && inputAttached == displayMounted
        && log == log0 + [Connect(ConnectString(auth.body, details.body))]
    }

    /**
     * `initializeConnection`: authenticate, record the token, fetch the connection details,
     * build the client (attaching input handlers when the display is mounted), then connect.
     */
    method InitializeConnection(auth: Fetch<string>, details: Fetch<string>, displayMounted: bool)
      modifies this
      ensures Initialized(old(log), old(authToken), old(error), old(hasClient), old(inputAttached), auth, details, displayMounted)
    {
      status := "Authenticating...";
      if !auth.Ok? {
        error := Some(FailureMessage(auth, AuthFailed));
        status := InitFailed;
        return;
      }
      var token := auth.body;
      authToken := Some(token);
      if !details.Ok? {
        error := Some(FailureMessage(details, DetailsFailed));
        status := InitFailed;
        return;
      }
      status := "Connecting...";
      hasClient := true;
      inputAttached := displayMounted;
      log := log + [Connect(ConnectString(token, details.body))];
    }

    /** `onstatechange`, installed on the client. */
    method OnStateChange(state: ClientState)
      modifies this
      ensures status == (if old(hasClient) then StateLabel(state) else old(status))
      ensures authToken == old(authToken) && error == old(error) && log == old(log)
      ensures hasClient == old(hasClient) && inputAttached == old(inputAttached)
    {
      if hasClient {
        status := StateLabel(state);
      }
    }

    /** `onerror`, installed on the client. */
    method OnError(message: Option<string>)
      modifies this
      ensures old(hasClient) ==> error == Some(ClientErrorText(message)) && status == "Error"
      ensures !old(hasClient) ==> error == old(error) && status == old(status)
      ensures authToken == old(authToken) && log == old(log)
      ensures hasClient == old(hasClient) && inputAttached == old(inputAttached)
    {
      if hasClient {
        error := Some(ClientErrorText(message));
        status := "Error";
      }
    }

    /** The keyboard and mouse handlers: one send per event while they are installed. */
    method OnInput(e: InputEvent)
      modifies this
      ensures log == old(log) + (if old(inputAttached) then ForwardAll([e]) else [])
      ensures status == old(status) && authToken == old(authToken) && error == old(error)
      ensures hasClient == old(hasClient) && inputAttached == old(inputAttached)
    {
      if inputAttached {
        log := log + [SendFor(e)];
      }
    }

    /** The effect's cleanup: disconnect the client if one was created. */
    method Unmount()
      modifies this
      ensures log == old(log) + (if old(hasClient) then [Disconnect] else [])
      ensures status == old(status) && authToken == old(authToken) && error == old(error)
      ensures hasClient == old(hasClient) && inputAttached == old(inputAttached)
    {
      if hasClient {
        log := log + [Disconnect];
      }
    }

    /** `handleDisconnect`: disconnect the client if one was created, then always call `onClose`. */
    method HandleDisconnect()
      modifies this
      ensures log == old(log) + (if old(hasClient) then [Disconnect, Close] else [Close])
      ensures status == old(status) && authToken == old(authToken) && error == old(error)
      ensures hasClient == old(hasClient) && inputAttached == old(inputAttached)
    {
      if hasClient {
        log := log + [Disconnect];
      }
      log := log + [Close];
    }
  }
}
