# RDP Manager: a Dafny model of its core

RDP Manager keeps a registry of remote desktop servers and the sessions opened to them. This project models its core in Dafny:

- **The broker back end** (`backend/server.py`). It holds two collections, servers and connections. The model covers creating, reading, updating and deleting servers, opening and ending connections, and the rule that sets a server's status from its connections. Module `Broker` gives each handler as a function on a `Db` value and proves the invariant: a server is `active` exactly when some `active` or `connecting` connection references it, and `inactive` otherwise. Every handler keeps this invariant, and so does every sequence of requests. Module `BrokerStore` has the same handlers as methods of class `RdpDatabase`, which updates its two map fields in the order the source writes them. Each method is tied to its `Broker` function. The listings are a loop that takes up to 1000 documents, in whatever order the store returns them.
- **The browser's client-side cache** (`frontend/src/context/RDPContext.js`). Class `ClientCache.RdpCache` holds the server list, the connection list, the loading flag and the error message. It has the six operations the context provider exposes. Each HTTP call's outcome is an input.
- **The remote desktop view** (`frontend/src/components/GuacamoleClient.js`). Class `SessionClient.RemoteSession` covers:
  - authentication, the connection-details fetch and the connect string;
  - the state labels, error reporting and input forwarding;
  - clean-up and disconnect.

  Calls on the gateway library become entries of an ordered effect log.
- **The mock gateway** (`guacamole-mock/server.py`):
  - form parameters as `parse_qs` reads them;
  - routing by verb and path;
  - class `MockGateway.MockHandler`, which writes a response call by call onto a wire log.
- **The three pages**:
  - `AddServer.js` (`AddServerForm`): the form, validation, port parsing and submission;
  - `RDPServers.js` (`ServerViews`): status colours, OS icons, the connect button, and the connect and delete handlers;
  - `ActiveConnections.js` (`ConnectionViews`): durations, server lookup, labels and disconnect.

Generated uuids, clock readings and HTTP outcomes are parameters. Uuid freshness is a precondition. Modules `Wrappers` (Option, Result) and `Text` hold shared definitions:

- JavaScript `trim` white space;
- ASCII upper-casing;
- the digit prefix `parseInt` reads;
- splitting, joining and substring search.

## Model

| member | source | states |
|---|---|---|
| Broker.CreateServerDefaults | backend/server.py:44-66 | a created server is `inactive`, has port 3389 and OS `windows` unless given, copies every other field of the request, and is stored under the fresh id; no other document changes |
| BrokerStore.RdpDatabase.CreateRdpServer | backend/server.py:96-101 | inserts exactly the document `create_rdp_server` builds and returns it; the status invariant still holds |
| Broker.UnknownServerIsNotFound | backend/server.py:108-113 | get, update, delete and connect with an unknown server id answer 404 "RDP Server not found" and change nothing |
| Broker.GetKnownServer | backend/server.py:108-113 | a stored id is found, and the answer is exactly the document stored under it |
| BrokerStore.RdpDatabase.GetRdpServer | backend/server.py:108-113 | succeeds exactly when the id is stored, with that document, and 404 otherwise |
| BrokerStore.FindToList | backend/server.py:105 | `find().to_list(limit)` returns min(matching, limit) distinct selected documents, and all of them when they fit |
| BrokerStore.RdpDatabase.GetRdpServers | backend/server.py:103-106 | at most 1000 stored servers, each once, every one of them when there are no more than 1000 |
| Broker.UpdateChangesOnlySuppliedFields | backend/server.py:115-130 | an update writes exactly the supplied fields and `updated_at`; status, id and creation time stay; an empty update leaves the record untouched; no other document changes |
| BrokerStore.RdpDatabase.UpdateRdpServer | backend/server.py:115-130 | the new state and the answer are those of `Broker.UpdateServer`, and the invariant holds |
| Broker.DeleteKeepsConnections | backend/server.py:132-137 | deleting removes that server document only; connections that reference it stay stored |
| BrokerStore.RdpDatabase.DeleteRdpServer | backend/server.py:132-137 | the new state and answer are those of `Broker.DeleteServer`, and the invariant holds |
| Broker.CreateConnectionEffect | backend/server.py:140-161 | a new, `connecting` connection started now with the fresh session id is added; its server document differs only in `status`, now `active`, and `updated_at`, now the same reading; no other server or connection changes |
| BrokerStore.RdpDatabase.CreateConnection | backend/server.py:140-161 | insert the connection, then set the server `active`: the state of `Broker.CreateConnection`, with the invariant kept |
| Broker.SecondConnectionIsAccepted | backend/server.py:140-161 | a second connection to a server that already has a live one is accepted; both are live and the server stays `active` |
| BrokerStore.RdpDatabase.GetConnections | backend/server.py:163-166 | at most 1000 stored connections, each once, all of them when they fit |
| BrokerStore.RdpDatabase.GetActiveConnections | backend/server.py:168-173 | only `active` or `connecting` connections, each once, at most 1000, all of them when they fit |
| Broker.UnknownConnectionIsNotFound | backend/server.py:175-179 | ending an unknown connection answers 404 "Connection not found" and changes nothing |
| Broker.EndConnectionEffect | backend/server.py:175-199 | the connection becomes `inactive` with an end time; its server becomes `inactive` with `updated_at` set to the end time exactly when no other connection of it is live, and is otherwise left as it was (so it stays `active`); no other field, connection or server changes |
| BrokerStore.RdpDatabase.EndConnection | backend/server.py:175-199 | update, count the live connections of the server, reset it on zero: the state of `Broker.EndConnection`, with the invariant kept |
| BrokerStore.RdpDatabase.Root | backend/server.py:91-93 | the health check answers "RDP Manager API is running" |
| BrokerStore.RdpDatabase.constructor | backend/server.py:18-21 | the empty collections satisfy the invariant |
| Broker.CreateServerKeepsInvariant | backend/server.py:96-101 | creating a server with a fresh id keeps the status invariant |
| Broker.UpdateServerKeepsInvariant | backend/server.py:115-130 | updating keeps the status invariant, because the update never writes the status |
| Broker.DeleteServerKeepsInvariant | backend/server.py:132-137 | deleting keeps the status invariant |
| Broker.AddConnectionHasLive | backend/server.py:153-159 | after adding a connection, a server has a live connection exactly when it had one before or the new one is its own and live |
| Broker.CreateConnectionKeepsInvariant | backend/server.py:140-161 | opening a connection with fresh ids keeps the status invariant |
| Broker.EndConnectionHasLive | backend/server.py:182-191 | ending a connection only removes live connections, and only those of its own server |
| Broker.EndConnectionKeepsInvariant | backend/server.py:175-199 | ending a connection keeps the status invariant |
| Broker.ServerStatusIsActiveOrInactive | backend/server.py:31-35 | under the invariant no stored server is `connecting` or `error` |
| Broker.StepKeepsInvariant | backend/server.py:96-199 | every state-changing request served with fresh ids keeps the invariant |
| Broker.RunKeepsInvariant | backend/server.py:96-199 | any sequence of such requests keeps the invariant |
| Broker.EmptyStoreInvariant | backend/server.py:18-21 | the empty database satisfies the invariant |
| ClientCache.RdpCache.constructor | frontend/src/context/RDPContext.js:18-21 | empty lists, not loading, no error |
| ClientCache.RdpCache.FetchServers | frontend/src/context/RDPContext.js:23-35 | on success the list is replaced and the error cleared; on failure the list stays and "Failed to fetch servers" is recorded; loading ends false; never rethrows; connections untouched |
| ClientCache.RdpCache.FetchConnections | frontend/src/context/RDPContext.js:37-44 | on success the connection list is replaced; a failure changes nothing |
| ClientCache.RdpCache.CreateServer | frontend/src/context/RDPContext.js:46-60 | on success the returned server is appended and returned; on failure the error is recorded and rethrown; loading ends false |
| ClientCache.RdpCache.DeleteServer | frontend/src/context/RDPContext.js:62-72 | on success every server with that id is dropped; on failure the error is recorded and rethrown; loading untouched |
| ClientCache.RdpCache.ConnectToServer | frontend/src/context/RDPContext.js:74-85 | on success the connection is appended and the server list refreshed, whose own failure is absorbed; on failure the error is recorded and rethrown |
| ClientCache.RdpCache.DisconnectFromServer | frontend/src/context/RDPContext.js:87-97 | on success the connection is dropped and the server list refreshed; on failure the error is recorded and rethrown |
| ClientCache.RemoveById | frontend/src/context/RDPContext.js:65 | the filter never lengthens the list |
| ClientCache.RemoveByIdMembers | frontend/src/context/RDPContext.js:65 | the filter keeps exactly the elements with another id |
| ClientCache.RemoveByIdAppend | frontend/src/context/RDPContext.js:90 | filtering distributes over concatenation, so the kept elements keep their order |
| ClientCache.RemoveByIdAbsent | frontend/src/context/RDPContext.js:90 | a list without that id is returned unchanged |
| ClientCache.RemoveByIdIdempotent | frontend/src/context/RDPContext.js:65 | filtering twice is filtering once |
| SessionClient.StateLabelRoundTrip | frontend/src/components/GuacamoleClient.js:49-72 | each known client state has its own label, from which it can be read back; every other state shows "Unknown state", which names none |
| SessionClient.ConnectStringRoundTrip | frontend/src/components/GuacamoleClient.js:106-107 | the connect string determines the token, when it has no `&` as a uuid does, and the connection id |
| SessionClient.ForwardAll | frontend/src/components/GuacamoleClient.js:85-98 | one gateway call per input event, in order |
| SessionClient.ForwardAllAppend | frontend/src/components/GuacamoleClient.js:85-98 | forwarding goes event by event, so the calls for a longer stream extend those for its prefix |
| SessionClient.SendForDistinguishes | frontend/src/components/GuacamoleClient.js:87-98 | key down sends pressed 1 and key up pressed 0; all three mouse events send the mouse state unchanged |
| SessionClient.ForwardingExample | frontend/src/components/GuacamoleClient.js:85-98 | an instance, kept as documentation, of `SessionClient.ForwardAll`: key down A, key up A and a mouse move reach the gateway in that order |
| SessionClient.ClientErrorText | frontend/src/components/GuacamoleClient.js:75-78 | the recorded text always starts with "Connection error: " and never stops there |
| SessionClient.ClientErrorTextInjective | frontend/src/components/GuacamoleClient.js:75-78 | two non-empty messages give the same text exactly when they are equal; a missing or empty message reads like the message "Unknown error" |
| SessionClient.RemoteSession.constructor | frontend/src/components/GuacamoleClient.js:5-9 | "Initializing...", no token, no error, no client |
| SessionClient.RemoteSession.Mount | frontend/src/components/GuacamoleClient.js:115-117 | an empty server id starts nothing; any other runs the initialisation |
| SessionClient.RemoteSession.InitializeConnection | frontend/src/components/GuacamoleClient.js:12-113 | a failed step records its message and "Failed to initialize", with no client and no call made; success records the token, creates the client, attaches input when the display is mounted, and calls `connect` once with the connect string |
| SessionClient.RemoteSession.OnStateChange | frontend/src/components/GuacamoleClient.js:49-72 | once a client exists, the status becomes the label of the reported state; nothing else changes |
| SessionClient.RemoteSession.OnError | frontend/src/components/GuacamoleClient.js:75-78 | once a client exists, the error text is recorded and the status becomes "Error" |
| SessionClient.RemoteSession.OnInput | frontend/src/components/GuacamoleClient.js:85-98 | while the handlers are installed, each event sends exactly its own call |
| SessionClient.RemoteSession.Unmount | frontend/src/components/GuacamoleClient.js:120-124 | clean-up disconnects the client only when one was created |
| SessionClient.RemoteSession.HandleDisconnect | frontend/src/components/GuacamoleClient.js:127-132 | disconnect the client if there is one, then always call `onClose`, in that order |
| Text.TrimEmptyIffBlank | frontend/src/components/AddServer.js:39-53 | `s.trim()` is empty exactly when every character is white space |
| Text.Capitalize | frontend/src/components/RDPServers.js:119 | the result has the same length, its first character is the upper-cased first character, and every later character is unchanged |
| Text.CapitalizeIdempotent | frontend/src/components/RDPServers.js:119 | capitalising a capitalised status changes nothing |
| Text.CapitalizeFixedPoints | frontend/src/components/RDPServers.js:119 | a string is its own capitalisation exactly when it is empty or does not start with a lower-case letter |
| Text.ParseIntRoundTrip | frontend/src/components/AddServer.js:27 | the number `parseInt` reads from a printed integer is that integer |
| Text.SplitJoin | guacamole-mock/server.py:14 | joining the `&`-separated pieces of a body gives the body back |
| Text.JoinSplit | guacamole-mock/server.py:14 | splitting joined pieces that have no separator gives those pieces back |
| Text.TakeUntilOf | guacamole-mock/server.py:14 | a piece's name is everything before its first `=` |
| Text.ContainsIff | guacamole-mock/server.py:32 | `'connections' in path` holds exactly when the word occurs at some position of the path |
| MockGateway.PairOf | guacamole-mock/server.py:14 | a piece yields a pair only with a non-blank value, since blank values are dropped |
| MockGateway.ParsePairs | guacamole-mock/server.py:14 | never more pairs than pieces, and every kept value is non-blank |
| MockGateway.FirstValue | guacamole-mock/server.py:19 | `params[key][0]` exists exactly when some pair has that name, and is the value of the first such pair |
| MockGateway.FormRoundTrip | guacamole-mock/server.py:14 | parsing a form of plain names and non-blank values gives back its pairs, in order |
| MockGateway.TokenRequest | guacamole-mock/server.py:10-30 | a token is issued exactly when both credentials are present; it is the fresh uuid and echoes the first username; otherwise the answer is a bare 401 |
| MockGateway.ParamsAreNonBlank | guacamole-mock/server.py:14-16 | every credential the parser keeps is non-blank, so a blank one counts as missing |
| MockGateway.LoginIsAccepted | guacamole-mock/server.py:10-27 | non-blank credentials get a 200 with a token for that user |
| MockGateway.AdminLoginIsAccepted | guacamole-mock/server.py:10-27 | an instance, kept as documentation, of `MockGateway.LoginIsAccepted`: the administrator's login, as the view posts it, obtains a token |
| MockGateway.BlankUsernameIsRefused | guacamole-mock/server.py:14-30 | a blank username is refused with 401, whatever the password |
| MockGateway.OtherPosts | guacamole-mock/server.py:32-47 | any other POST creates a connection exactly when the path mentions connections, and gets a bare 404 otherwise |
| MockGateway.GetRequests | guacamole-mock/server.py:49-66 | GET lists the one mock connection exactly when the path mentions connections, and gets a bare 404 otherwise |
| MockGateway.DeleteAndPreflight | guacamole-mock/server.py:68-80 | DELETE answers 204 and OPTIONS answers 200 with the CORS headers, for every path and body |
| MockGateway.Frames | guacamole-mock/server.py:23-27 | a response is written as its status line, then each header in order, then the end of headers, then a write of the body if there is one |
| MockGateway.LoginParams | guacamole-mock/server.py:14 | a login form with plain, non-blank credentials parses to exactly its username and password pairs |
| MockGateway.BlankUsernameParams | guacamole-mock/server.py:14-16 | with a blank username the parsed form has no username at all |
| MockGateway.MockHandler.SendJson | guacamole-mock/server.py:23-27 | a success answer is written as the status line, the two JSON headers in order, the end of headers and the body |
| MockGateway.MockHandler.SendBare | guacamole-mock/server.py:29-30 | a refusal is written as its status line and the end of headers only |
| MockGateway.MockHandler.DoPost | guacamole-mock/server.py:9-47 | the calls written are the frames of the routed POST response, in order |
| MockGateway.MockHandler.DoGet | guacamole-mock/server.py:49-66 | the calls written are the frames of the routed GET response |
| MockGateway.MockHandler.DoDelete | guacamole-mock/server.py:68-72 | the calls written are the frames of the 204 response |
| MockGateway.MockHandler.DoOptions | guacamole-mock/server.py:74-80 | the calls written are the frames of the preflight response |
| AddServerForm.PortInput | frontend/src/components/AddServer.js:27 | `parseInt(value) \|\| 3389` is never 0 |
| AddServerForm.PortInputRoundTrip | frontend/src/components/AddServer.js:27 | a typed number is read as itself, except that 0 becomes 3389 |
| AddServerForm.PortInputNotANumber | frontend/src/components/AddServer.js:27 | input that does not start with a number becomes 3389 |
| AddServerForm.WithFieldChangesOneField | frontend/src/components/AddServer.js:25-28 | an edit sets the named field and no other |
| AddServerForm.ErrorKeyIff | frontend/src/components/AddServer.js:36-61 | a field has an error exactly when its own check fails, with its own message: an empty trimmed required field, or a port outside 1..65535 |
| AddServerForm.ValidIffTrimmedFields | frontend/src/components/AddServer.js:39-57 | the form is valid exactly when name, host, username and password are non-empty after trimming and the port is in 1..65535 |
| AddServerForm.ValidIffNoErrors | frontend/src/components/AddServer.js:59-60 | the form is valid exactly when no error is reported |
| AddServerForm.InitialFormErrors | frontend/src/components/AddServer.js:9-18 | the initial form has exactly the four required-field errors |
| AddServerForm.CollectErrorsIsErrorsFor | frontend/src/components/AddServer.js:37-57 | adding the checks one by one gives the same errors as checking every field at once |
| AddServerForm.ClearErrorEffect | frontend/src/components/AddServer.js:31-33 | an edit clears that field's error to "", keeps the other errors and the set of keys, and a second edit changes nothing more |
| AddServerForm.StripOptionalFields | frontend/src/components/AddServer.js:72-78 | domain and description are dropped exactly when they are blank after trimming, and are sent untrimmed otherwise; the other fields are sent as entered |
| AddServerForm.AddServerPage.constructor | frontend/src/components/AddServer.js:9-20 | the initial form and no errors |
| AddServerForm.AddServerPage.HandleChange | frontend/src/components/AddServer.js:23-34 | the field is updated and its error cleared |
| AddServerForm.AddServerPage.ValidateForm | frontend/src/components/AddServer.js:36-61 | the shown errors are exactly the field errors, and the answer is true exactly when the form is valid |
| AddServerForm.AddServerPage.HandleSubmit | frontend/src/components/AddServer.js:63-84 | an invalid form only shows its errors; a valid one is sent with its blank optional fields removed; the page leaves exactly when the cache accepted the server |
| ServerViews.StatusColors | frontend/src/components/RDPServers.js:32-45 | the four statuses have four different colours, and an unknown status looks inactive |
| ServerViews.OsIcons | frontend/src/components/RDPServers.js:47-58 | the three OS types have three different icons, and any other value shows the computer icon |
| ServerViews.StatusBadges | frontend/src/components/RDPServers.js:119 | the badges read Active, Inactive, Connecting and Error |
| ServerViews.ConnectButton | frontend/src/components/RDPServers.js:130-146 | the button reads "Connect", in the ready style, exactly when it is enabled; it reads "Connecting..." exactly when this server is being connected |
| ServerViews.LabelAndStyleDisagree | frontend/src/components/RDPServers.js:133-145 | label and style rank their two conditions in opposite orders: an active server being connected again reads "Connecting..." in green |
| ServerViews.OnlyOneCardConnecting | frontend/src/components/RDPServers.js:141-145 | with distinct ids, at most one card reads "Connecting..." |
| ServerViews.ServerList.constructor | frontend/src/components/RDPServers.js:7 | no server is being connected and no dialog has been shown |
| ServerViews.ServerList.HandleConnect | frontend/src/components/RDPServers.js:9-20 | the cache connects; the user is told it succeeded or failed; the connecting mark is cleared either way |
| ServerViews.ServerList.HandleDelete | frontend/src/components/RDPServers.js:22-30 | the user is asked first; only on confirmation the server is deleted, and a failure is reported |
| ConnectionViews.JsRem | frontend/src/components/ActiveConnections.js:24 | JavaScript's `%`: for a non-negative dividend it equals the Euclidean remainder; for a negative one it is 0 when b divides the dividend and the Euclidean remainder minus b otherwise; it always lies strictly between -b and b |
| ConnectionViews.DurationBounds | frontend/src/components/ActiveConnections.js:18-30 | for a start in the past, the hours and minutes are the whole hours and the leftover whole minutes (0..59) of the difference |
| ConnectionViews.FutureStartShowsMinutes | frontend/src/components/ActiveConnections.js:18-30 | a start in the future shows minutes only, between -60 and 0 |
| ConnectionViews.DurationRoundTrip | frontend/src/components/ActiveConnections.js:26-29 | the rendered duration can be read back as the hours shown and the minutes |
| ConnectionViews.HoursAndMinutesRoundTrip | frontend/src/components/ActiveConnections.js:27 | `<h>h <m>m` reads back as h and m |
| ConnectionViews.MinutesRoundTrip | frontend/src/components/ActiveConnections.js:29 | `<m>m` reads back as m |
| ConnectionViews.DurationExamples | frontend/src/components/ActiveConnections.js:23-24 | instances, kept as documentation, of `ConnectionViews.DurationBounds`: ninety minutes are 1 h 30 m; ninety seconds show 1m |
| ConnectionViews.FindServer | frontend/src/components/ActiveConnections.js:76 | `find` gives nothing exactly when no server has the id, and otherwise the first server with it |
| ConnectionViews.FindServerUnique | frontend/src/components/ActiveConnections.js:76 | with distinct ids, the server found is the one with that id |
| ConnectionViews.ServerName | frontend/src/components/ActiveConnections.js:84 | the name shown is never empty; it is "Unknown Server" for a missing server; otherwise it is the name of the first server with that id, or "Unknown Server" when that name is empty |
| ConnectionViews.ConnectionOsLabels | frontend/src/components/ActiveConnections.js:131 | a known server shows its capitalised OS type; a missing one shows "Unknown" |
| ConnectionViews.ConnectionStatusBadge | frontend/src/components/ActiveConnections.js:125 | the status badge upper-cases only the first letter of the stored status |
| ConnectionViews.ConnectionsPage.HandleDisconnect | frontend/src/components/ActiveConnections.js:8-16 | the user is asked first; only on confirmation the connection is dropped and the servers refreshed, loading ends false and the error is cleared or records the failed refresh; a failure is reported, records "Failed to disconnect from server" and leaves lists and loading as they were |

## Left out

- Persistence, HTTP serving and JSON encoding: MongoDB, FastAPI routing, pydantic validation, the HTTP server loop and the bytes written are not modelled. Stored documents, requests and responses are records.
- Uuids and clock readings are parameters. A fresh uuid is a precondition: it is not a stored key, and no document mentions it.
- One clock reading `now` stands for all the `datetime.utcnow()` calls a handler makes. These are the `created_at` and `updated_at` defaults of a new server, and the `started_at` of a connection together with the `updated_at` written to its server next. The model does not capture that these readings can differ by a few microseconds.
- Concurrency. The async handlers, the browser's interleaving of awaits, and React's batched state updates are not modelled.
  - Each operation runs to completion on the state it finds.
  - Intermediate states are not observable. Examples: `loading` being true during a fetch, and the `connecting` mark of the server list while a request is in flight.
- Broker.UpdateServerKeepsInvariant: an update that sends an explicit `null` for a required field (name, host, port, username, password, OS type) is not modelled. The source would store it and then fail to build the response. `domain` and `description` can be set to `null`.
- The 30-second poll and the initial fetch in `RDPContext.js` (lines 99-110) are a timer. They are modelled only as calls of `FetchServers` and `FetchConnections`.
- Request bodies and URLs the cache sends, and the body of the connect request, are not modelled. Each call's outcome is an input.
- The gateway library (`Guacamole.Client`, tunnel, display, keyboard and mouse objects) is foreign code:
  - client states are an enumeration;
  - the calls made on the library are logged effects;
  - the display, focus and DOM work are left out.
- The two `fetch` calls of the remote desktop view are inputs. Network rejections carry their message. The JSON decoding of their bodies is not modelled.
- `parse_qs`:
  - percent-decoding is left out; `+` is decoded to a space;
  - the `max_num_fields` limit is left out;
  - the `Content-Length` read and the UTF-8 decoding of the body are left out, so the body is a string.
- `parseInt`: only an optional sign and decimal digits after leading white space are read. Prefixes such as `0x` and values beyond 2^53 are not modelled.
- Upper-casing is ASCII only.
- Rendering: markup, class names other than those the handlers and buttons choose, loading spinners, and the buttons disabled while `loading` are left out.
- Dialogs: `window.confirm` is an input and `alert` an entry of a dialog log.
- In the frontend, the endpoints used, such as `/api/guacamole/tokens`, differ from the mock's paths. The view's fetch outcomes are inputs, so the model does not connect the two.
- `create_connection` (`backend/server.py:140-161`) does not refuse a second live session to a server that already has one. The model follows the code, and `Broker.SecondConnectionIsAccepted` shows that a second connection both stores and stays live.
- No status synchroniser, reconnect backoff or error taxonomy exists in these files, so none is modelled.
- `backend_test.py` asserts the health message "RDP Manager API with Guacamole is running". The code answers "RDP Manager API is running", and the model follows the code.
