/**
 * The development stand-in for the remote desktop gateway (guacamole-mock/server.py): a
 * request handler that answers by verb, path and form parameters. `Handle` is the routing
 * decision; class `MockHandler` writes a response as the source does, one call at a time
 * (status line, each header, end of headers, body), onto an ordered wire log. The fresh
 * uuid a response carries is a parameter, and bodies are records rather than JSON bytes.
 */
module MockGateway {
  import opened Wrappers
  import opened Text

  // ---------------------------------------------------------------------------
  // Form parameters: `urllib.parse.parse_qs`
  // ---------------------------------------------------------------------------

  /** `+` stands for a space in a form-encoded name or value. */
  function Unplus(s: string): string {
    if s == [] then [] else [if s[0] == '+' then ' ' else s[0]] + Unplus(s[1..])
  }

  lemma {:induction false} UnplusIdentity(s: string)
    requires '+' !in s
    ensures Unplus(s) == s
  {
    if s != [] {
      UnplusIdentity(s[1..]);
      assert s == [s[0]] + s[1..];
    }
  }

  /**
   * One `&`-separated piece: name and value split at the first `=`. A piece without `=`,
   * and one whose value is blank, yields nothing (`keep_blank_values` is false).
   */
  function PairOf(piece: string): (p: Option<(string, string)>)
    ensures p.Some? ==> p.value.1 != ""
  {
    var name := TakeUntil(piece, '=');
    if |name| == |piece| then None
    else
      var value := piece[|name| + 1..];
      if value == "" then None else Some((Unplus(name), Unplus(value)))
  }

  function ParsePairs(pieces: seq<string>): (pairs: seq<(string, string)>)
    ensures |pairs| <= |pieces|
    ensures forall i :: 0 <= i < |pairs| ==> pairs[i].1 != ""
  {
    if pieces == [] then []
    else
      var rest := ParsePairs(pieces[1..]);
      match PairOf(pieces[0])
      case None => rest
      case Some(p) => [p] + rest
  }

  /** The name/value pairs of a form body, in order: `parse_qsl`, which `parse_qs` groups by name. */
  function ParseQs(body: string): seq<(string, string)> {
    ParsePairs(Split(body, '&'))
  }

  /** `params[key][0]`: the first value given for `key`, if any. */
  function FirstValue(pairs: seq<(string, string)>, key: string): (r: Option<string>)
    ensures r.Some? <==> exists i :: 0 <= i < |pairs| && pairs[i].0 == key
    ensures r.Some? ==> exists i :: 0 <= i < |pairs| && pairs[i] == (key, r.value)
                                    && forall j :: 0 <= j < i ==> pairs[j].0 != key
  {
    if pairs == [] then None
    else if pairs[0].0 == key then Some(pairs[0].1)
    else
      FirstValue(pairs[1..], key)
  }

  /** `key in params`: the key was given with a non-blank value. */
  predicate HasParam(body: string, key: string) {
    FirstValue(ParseQs(body), key).Some?
  }

  /** A form body as a browser encodes it, for names and values needing no escapes. */
  function EncodeForm(pairs: seq<(string, string)>): string {
    Join(EncodePieces(pairs), '&')
  }

  function EncodePieces(pairs: seq<(string, string)>): (pieces: seq<string>)
    ensures |pieces| == |pairs|
  {
    if pairs == [] then [] else [pairs[0].0 + "=" + pairs[0].1] + EncodePieces(pairs[1..])
  }

  /** Names free of `&`, `=` and `+`; values non-blank and free of `&` and `+`. */
  predicate PlainForm(pairs: seq<(string, string)>) {
    forall i :: 0 <= i < |pairs| ==>
      && '&' !in pairs[i].0 && '=' !in pairs[i].0 && '+' !in pairs[i].0
      && '&' !in pairs[i].1 && '+' !in pairs[i].1 && pairs[i].1 != ""
  }

  lemma PairOfPiece(name: string, value: string)
    requires '=' !in name && '+' !in name && '+' !in value && value != ""
    ensures PairOf(name + "=" + value) == Some((name, value))
  {
    var piece := name + "=" + value;
    assert piece == name + ("=" + value);
    TakeUntilOf(name, "=" + value, '=');
    assert piece[|name| + 1..] == value;
    UnplusIdentity(name);
    UnplusIdentity(value);
  }

  lemma {:induction false} ParseEncodedPieces(pairs: seq<(string, string)>)
    requires PlainForm(pairs)
    ensures ParsePairs(EncodePieces(pairs)) == pairs
  {
    if pairs != [] {
      PairOfPiece(pairs[0].0, pairs[0].1);
      ParseEncodedPieces(pairs[1..]);
    }
  }

  /** Parsing an encoded form gives back its pairs, in order. */
  lemma {:induction false} FormRoundTrip(pairs: seq<(string, string)>)
    requires PlainForm(pairs)
    ensures ParseQs(EncodeForm(pairs)) == pairs
  {
    var pieces := EncodePieces(pairs);
    if pairs == [] {
      assert Split("", '&') == [""];
      assert PairOf("") == None;
    } else {
      forall i | 0 <= i < |pieces|
        ensures '&' !in pieces[i]
      {
        EncodedPieceAt(pairs, i);
      }
      JoinSplit(pieces, '&');
      ParseEncodedPieces(pairs);
    }
  }

  lemma {:induction false} EncodedPieceAt(pairs: seq<(string, string)>, i: nat)
    requires i < |pairs|
    ensures EncodePieces(pairs)[i] == pairs[i].0 + "=" + pairs[i].1
  {
    if i > 0 {
      EncodedPieceAt(pairs[1..], i - 1);
    }
  }

  // ---------------------------------------------------------------------------
  // Routing
  // ---------------------------------------------------------------------------

  datatype Verb = Get | Post | Delete | Options

  datatype ConnectionInfo = ConnectionInfo(identifier: string, name: string, protocol: string)

  /** The JSON documents the mock sends. */
  datatype Body =
    | TokenIssued(authToken: string, username: string, dataSource: string, availableDataSources: seq<string>)
    | ConnectionCreated(info: ConnectionInfo)
    | ConnectionList(entries: map<string, ConnectionInfo>)

  datatype Response = Response(status: int, headers: seq<(string, string)>, body: Option<Body>)

  const TokensPath := "/guacamole/api/tokens"
  const DataSource := "postgresql"
  const AllowOrigin := ("Access-Control-Allow-Origin", "*")
  const JsonHeaders := [("Content-type", "application/json"), AllowOrigin]
  const PreflightHeaders := [AllowOrigin, ("Access-Control-Allow-Methods", "GET, POST, DELETE, OPTIONS"),
                             ("Access-Control-Allow-Headers", "Content-Type")]
  const MockConnection := ConnectionInfo("mock-connection-1", "Mock Windows Server", "rdp")

  /** A status with no headers and no body. */
  function Bare(status: int): Response {
    Response(status, [], None)
  }

  /** `do_POST`: the token endpoint first, then any path mentioning connections. */
  function HandlePost(path: string, form: string, freshId: string): Response {
    if path == TokensPath then
      var params := ParseQs(form);
      var username := FirstValue(params, "username");
      if username.Some? && FirstValue(params, "password").Some? then
        Response(200, JsonHeaders, Some(TokenIssued(freshId, username.value, DataSource, [DataSource])))
      else Bare(401)
    else if Contains(path, "connections") then
      Response(200, JsonHeaders, Some(ConnectionCreated(ConnectionInfo(freshId, "Mock RDP Connection", "rdp"))))
    else Bare(404)
  }

  /** `do_GET`. */
  function HandleGet(path: string): Response {
    if Contains(path, "connections") then
      Response(200, JsonHeaders, Some(ConnectionList(map[MockConnection.identifier := MockConnection])))
    else Bare(404)
  }

  /** The handler as a whole; `form` is the decoded request body, `freshId` the uuid a POST would draw. */
  function Handle(verb: Verb, path: string, form: string, freshId: string): Response {
    match verb
    case Post => HandlePost(path, form, freshId)
    case Get => HandleGet(path)
    case Delete => Response(204, [AllowOrigin], None)
    case Options => Response(200, PreflightHeaders, None)
  }

  /**
   * A token is issued exactly when both credentials are given with non-blank values; it is
   * the fresh uuid, and the response echoes the first username given. Otherwise the answer is 401.
   */
  lemma TokenRequest(form: string, freshId: string)
    ensures var r := Handle(Post, TokensPath, form, freshId);
      && (r.status == 200 <==> HasParam(form, "username") && HasParam(form, "password"))
      && (r.status == 200 ==>
            && r.headers == JsonHeaders
            && r.body == Some(TokenIssued(freshId, FirstValue(ParseQs(form), "username").value, "postgresql", ["postgresql"])))
      && (r.status != 200 ==> r == Bare(401))
  {
  }

  /** Every credential `parse_qs` keeps has a non-blank value, so a blank one counts as missing. */
  lemma ParamsAreNonBlank(form: string, key: string)
    ensures HasParam(form, key) ==> FirstValue(ParseQs(form), key).value != ""
  {
    var pairs := ParseQs(form);
    if HasParam(form, key) {
      var v := FirstValue(pairs, key).value;
      var i :| 0 <= i < |pairs| && pairs[i] == (key, v) && forall j :: 0 <= j < i ==> pairs[j].0 != key;
      assert pairs[i].1 != "";
    }
  }

  /** A login form `username=<user>&password=<pass>`, as the browser posts it. */
  function LoginForm(user: string, pass: string): string {
    "username=" + user + "&password=" + pass
  }

  lemma LoginFormPieces(user: string, pass: string)
    requires '&' !in user && '&' !in pass
    ensures Split(LoginForm(user, pass), '&') == ["username" + "=" + user, "password" + "=" + pass]
  {
    var first := "username" + "=" + user;
    var second := "password" + "=" + pass;
    assert LoginForm(user, pass) == first + ['&'] + second;
    SplitTwo(first, second, '&');
  }

  /** A login form with plain, non-blank credentials parses to exactly its two pairs. */
  lemma LoginParams(user: string, pass: string)
    requires '&' !in user && '+' !in user && user != ""
    requires '&' !in pass && '+' !in pass && pass != ""
    ensures ParseQs(LoginForm(user, pass)) == [("username", user), ("password", pass)]
  {
    LoginFormPieces(user, pass);
    var pieces := ["username" + "=" + user, "password" + "=" + pass];
    PairOfPiece("username", user);
    PairOfPiece("password", pass);
    assert pieces[1..] == ["password" + "=" + pass];
    assert pieces[1..][1..] == [];
    assert ParsePairs(pieces[1..]) == [("password", pass)];
    assert ParsePairs(pieces) == [("username", user)] + [("password", pass)];
  }

  /** Non-blank credentials obtain a token for that user. */
  lemma LoginIsAccepted(user: string, pass: string, freshId: string)
    requires '&' !in user && '+' !in user && user != ""
    requires '&' !in pass && '+' !in pass && pass != ""
    ensures Handle(Post, TokensPath, LoginForm(user, pass), freshId)
            == Response(200, JsonHeaders, Some(TokenIssued(freshId, user, "postgresql", ["postgresql"])))
  {
    LoginParams(user, pass);
    var pairs := [("username", user), ("password", pass)];
    assert FirstValue(pairs, "username") == Some(user);
    assert FirstValue(pairs, "password") == Some(pass) by {
      assert pairs[1..] == [("password", pass)];
    }
  }

  /** The administrator's own credentials, in particular. */
  lemma AdminLoginIsAccepted(freshId: string)
    ensures Handle(Post, TokensPath, "username=guacadmin&password=guacadmin", freshId)
            == Response(200, JsonHeaders, Some(TokenIssued(freshId, "guacadmin", "postgresql", ["postgresql"])))
  {
    assert LoginForm("guacadmin", "guacadmin") == "username=guacadmin&password=guacadmin";
    LoginIsAccepted("guacadmin", "guacadmin", freshId);
  }

  /** A piece whose value is empty yields nothing. */
  lemma PairOfEmptyValue(name: string)
    requires '=' !in name
    ensures PairOf(name + "=") == None
  {
    TakeUntilOf(name, "=", '=');
  }

  /** A piece with a value yields, if anything, a pair under the piece's own name. */
  lemma PairOfName(name: string, value: string)
    requires '=' !in name && '+' !in name
    ensures PairOf(name + "=" + value).Some? ==> PairOf(name + "=" + value).value.0 == name
  {
    assert name + "=" + value == name + ("=" + value);
    TakeUntilOf(name, "=" + value, '=');
    UnplusIdentity(name);
  }

  /** A login form with a blank username yields at most the password pair. */
  lemma BlankUsernameParams(pass: string)
    requires '&' !in pass
    ensures FirstValue(ParseQs(LoginForm("", pass)), "username").None?
  {
    LoginFormPieces("", pass);
    var pieces := ["username" + "=" + "", "password" + "=" + pass];
    assert "username" + "=" + "" == "username" + "=";
    PairOfEmptyValue("username");
    PairOfName("password", pass);
    assert pieces[1..] == ["password" + "=" + pass];
    assert pieces[1..][1..] == [];
    var rest := ParsePairs(pieces[1..]);
    assert ParseQs(LoginForm("", pass)) == rest;
    assert rest == [] || rest == [PairOf(pieces[1]).value];
  }

  /** A blank username is dropped by the parser, so the login is refused whatever the password. */
  lemma BlankUsernameIsRefused(pass: string, freshId: string)
    requires '&' !in pass
    ensures Handle(Post, TokensPath, LoginForm("", pass), freshId) == Bare(401)
  {
    BlankUsernameParams(pass);
  }

  /**
   * Any other POST creates a connection exactly when the path mentions connections, and
   * gets 404 otherwise; the tokens path is decided first.
   */
  lemma OtherPosts(path: string, form: string, freshId: string)
    requires path != TokensPath
    ensures var r := Handle(Post, path, form, freshId);
      && (r.status == 200 <==> exists i :: OccursAt(path, "connections", i))
      && (r.status == 200 ==> r.body == Some(ConnectionCreated(ConnectionInfo(freshId, "Mock RDP Connection", "rdp"))))
      && (r.status != 200 ==> r == Bare(404))
  {
    ContainsIff(path, "connections");
  }

  /** GET lists the one mock connection exactly when the path mentions connections, and 404 otherwise. */
  lemma GetRequests(path: string, form: string, freshId: string)
    ensures var r := Handle(Get, path, form, freshId);
      && (r.status == 200 <==> exists i :: OccursAt(path, "connections", i))
      && (r.status == 200 ==> r.headers == JsonHeaders && r.body == Some(ConnectionList(map["mock-connection-1" := MockConnection])))
      && (r.status != 200 ==> r == Bare(404))
  {
    ContainsIff(path, "connections");
  }

  /** DELETE and OPTIONS answer every path, the same way, without a body. */
  lemma DeleteAndPreflight(path: string, path2: string, form: string, freshId: string)
    ensures Handle(Delete, path, form, freshId) == Handle(Delete, path2, "", "") == Response(204, [AllowOrigin], None)
    ensures Handle(Options, path, form, freshId) == Handle(Options, path2, "", "")
    ensures Handle(Options, path, form, freshId).status == 200
    ensures ("Access-Control-Allow-Methods", "GET, POST, DELETE, OPTIONS") in Handle(Options, path, form, freshId).headers
  {
  }

  // ---------------------------------------------------------------------------
  // Writing the response
  // ---------------------------------------------------------------------------

  /** One call on the request handler's output. */
  datatype Frame = StatusLine(code: int) | Header(name: string, value: string) | EndHeaders | Write(body: Body)

  /** The frames a response is written as. */
  function Frames(r: Response): (fs: seq<Frame>)
    ensures |fs| == |r.headers| + 2 + (if r.body.Some? then 1 else 0)
    ensures fs[0] == StatusLine(r.status)
    ensures forall i :: 0 <= i < |r.headers| ==> fs[i + 1] == Header(r.headers[i].0, r.headers[i].1)
    ensures fs[|r.headers| + 1] == EndHeaders
    ensures r.body.Some? ==> fs[|r.headers| + 2] == Write(r.body.value)
  {
    [StatusLine(r.status)] + HeaderFrames(r.headers) + [EndHeaders] + (if r.body.Some? then [Write(r.body.value)] else [])
  }

  function HeaderFrames(hs: seq<(string, string)>): (fs: seq<Frame>)
    ensures |fs| == |hs|
    ensures forall i :: 0 <= i < |hs| ==> fs[i] == Header(hs[i].0, hs[i].1)
  {
    if hs == [] then [] else [Header(hs[0].0, hs[0].1)] + HeaderFrames(hs[1..])
  }

  class MockHandler {
    var wire: seq<Frame>

    constructor ()
      ensures wire == []
    {
      wire := [];
    }

    method SendResponse(code: int)
      modifies this
      ensures wire == old(wire) + [StatusLine(code)]
    {
      wire := wire + [StatusLine(code)];
    }

    method SendHeader(name: string, value: string)
      modifies this
      ensures wire == old(wire) + [Header(name, value)]
    {
      wire := wire + [Header(name, value)];
    }

    method EndHeaders()
      modifies this
      ensures wire == old(wire) + [Frame.EndHeaders]
    {
      wire := wire + [Frame.EndHeaders];
    }

    method WriteBody(body: Body)
      modifies this
      ensures wire == old(wire) + [Write(body)]
    {
      wire := wire + [Write(body)];
    }

    /** A 200 answer with the JSON headers and a body: the success branches of POST and GET. */
    method SendJson(body: Body)
      modifies this
      ensures wire == old(wire) + Frames(Response(200, JsonHeaders, Some(body)))
    {
      SendResponse(200);
      SendHeader("Content-type", "application/json");
      SendHeader("Access-Control-Allow-Origin", "*");
      EndHeaders();
      WriteBody(body);
      assert HeaderFrames(JsonHeaders) == [Header("Content-type", "application/json"), Header("Access-Control-Allow-Origin", "*")];
    }

    /** A status line and the end of headers, nothing else: the 401 and 404 answers. */
    method SendBare(code: int)
      modifies this
      ensures wire == old(wire) + Frames(Bare(code))
    {
      SendResponse(code);
      EndHeaders();
    }

    /** `do_POST`. */
    method DoPost(path: string, form: string, freshId: string)
      modifies this
      ensures wire == old(wire) + Frames(Handle(Post, path, form, freshId))
    {
      if path == TokensPath {
        var params := ParseQs(form);
        if FirstValue(params, "username").Some? && FirstValue(params, "password").Some? {
          var response := TokenIssued(freshId, FirstValue(params, "username").value, DataSource, [DataSource]);
          SendJson(response);
        } else {
          SendBare(401);
        }
      } else if Contains(path, "connections") {
        var response := ConnectionCreated(ConnectionInfo(freshId, "Mock RDP Connection", "rdp"));
        SendJson(response);
      } else {
        SendBare(404);
      }
    }

    /** `do_GET`. */
    method DoGet(path: string)
      modifies this
      ensures wire == old(wire) + Frames(HandleGet(path))
    {
      if Contains(path, "connections") {
        var response := ConnectionList(map["mock-connection-1" := ConnectionInfo("mock-connection-1", "Mock Windows Server", "rdp")]);
        SendJson(response);
      } else {
        SendBare(404);
      }
    }

    /** `do_DELETE`. */
    method DoDelete()
      modifies this
      ensures wire == old(wire) + Frames(Handle(Delete, "", "", ""))
    {
      SendResponse(204);
      SendHeader("Access-Control-Allow-Origin", "*");
      EndHeaders();
      assert HeaderFrames([AllowOrigin]) == [Header("Access-Control-Allow-Origin", "*")];
    }

    /** `do_OPTIONS`: the CORS preflight. */
    method DoOptions()
      modifies this
      ensures wire == old(wire) + Frames(Handle(Options, "", "", ""))
    {
      SendResponse(200);
      SendHeader("Access-Control-Allow-Origin", "*");
      SendHeader("Access-Control-Allow-Methods", "GET, POST, DELETE, OPTIONS");
      SendHeader("Access-Control-Allow-Headers", "Content-Type");
      EndHeaders();
      assert HeaderFrames(PreflightHeaders) == [Header("Access-Control-Allow-Origin", "*"),
        Header("Access-Control-Allow-Methods", "GET, POST, DELETE, OPTIONS"), Header("Access-Control-Allow-Headers", "Content-Type")];
    }
  }
}
