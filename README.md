# Feedback collector: session coordination core

A Dafny model of the part of the feedback collector that coordinates feedback
sessions. An agent calls the `collect_feedback` tool. The MCP server files a
session under an id, pushes the work summary to a feedback page connected for
that id, and polls once a second, up to `timeout` times, for the page's
reply. A connected page sends `user_feedback`; the server completes the
session and acknowledges with `feedback_received` and then
`session_complete`. An hourly sweep removes sessions older than a threshold.
The web server has its own connection registry, a push endpoint that writes
into the same session store, a form-submission route and a session-summary
route.

Layout:

- `protocol.dfy` (module `Protocol`): the JSON messages as datatypes, the
  connection handle, and the frames written to connections.
- `sessions.dfy` (`Sessions`): `FeedbackSession`, the store and its pure
  updates: create, complete, expire, sweep, project, poll.
- `channels.dfy` (`Channels`): the push registry shared by both servers.
  It covers register, unregister and best-effort delivery. It also extracts
  the session id from a connection path.
- `router.dfy` (`Router`): the inbound-message router, which both servers
  implement with the same steps, and the two receive loops, which differ in
  what they do when a message raises.
- `feedback_text.dfy` (`FeedbackText`): the feedback link and the three tool
  results.
- `coordination.dfy` (`Coordination`): the MCP server state as a value. It
  holds the steps other tasks take, the waiter, the tool, and one whole
  connection.
- `mcp_server.dfy` (`McpServer`): the `ServerState` class. Its methods update
  the state in place. Each state-changing method is proved to leave the state
  a function gives: the `Coordination` functions, and for the sweep
  `Sessions.Sweep`. `GetSessionInfo` changes nothing and returns
  `Sessions.Info`.
- `fastapi_server.dfy` (`WebServer`): the `ConnectionManager` class, the
  web application's routes and its push endpoint.

External inputs are parameters:

- The outcome of each `websocket.send` is a boolean.
- `uuid4()` is a `freshId` argument.
- `datetime.now()` is an integer number of seconds.
- The frames a page sends are a sequence.
- What other tasks do while the waiter sleeps is a sequence of events. Event k
  runs during the k-th one-second sleep. An event is a page connecting, a
  message on an MCP connection, a connection ending, the sweep, another tool
  call filing a session under the same id, another waiter's timeout write,
  the web endpoint's completion write, or several of these in turn.

Every frame the server writes is appended to a `wire` log, so deliveries and
their order can be stated.

In these places the code does what a reader might not expect, and the model
follows the code:

- A caller-supplied id that already exists is overwritten, not refused. A
  reader might expect a second session under a live id to be rejected.
- Completion overwrites any status, including `expired`. A reader might
  expect an expired session to stay expired; the status is not monotonic.
- The waiter's timeout write overwrites any status. A reader might expect
  only a waiting session to be expired.
- The web server's session route answers 500, not 404, for an unknown id.
  A reader might expect the 404 it raises to reach the caller.
- The end of an older connection removes the entry of a newer connection
  for the same id. A reader might expect it to remove only its own.
- A message that raises is skipped by the MCP server's receive loop but ends
  the web server's. A reader might expect the two loops, which route
  messages with the same steps, to treat such a message alike.

The lemmas `CompleteSetsReply`, `ExpireOnlyChangesStatus` and
`CreateFilesOneWaitingSession`, the method `WebServer.WebApp.GetSessionInfo`,
and the lemmas `OlderCloseDropsNewerConnection` and
`HandlersDivergeOnNonObjects` state this behaviour as written.

## Model

| member | source | states |
|---|---|---|
| `Sessions.CreateFilesOneWaitingSession` | backend/mcp_server_fastmcp.py:99-108 | creating files exactly one entry under the id: waiting, no reply, no attachments. It replaces any previous entry, keeps every other id, and the projection then reports "waiting" with zero counts |
| `Sessions.InfoProjects` | backend/mcp_server_fastmcp.py:252-265 | the projection is defined exactly on filed ids. It reports the id, question, status name, creation time, reply and attachment counts of the stored session |
| `Sessions.CompleteSetsReply` | backend/mcp_server_fastmcp.py:213-219 | completion on a known id sets text, images and files from the payload (defaults "", [], []) and status completed, whatever the prior status. Question, creation time and other ids are unchanged; an unknown id changes nothing |
| `Sessions.ExpireOnlyChangesStatus` | backend/mcp_server_fastmcp.py:152-154 | the timeout write changes only that session's status, to expired. It creates nothing for an absent id |
| `Sessions.UpdatesPreserveValid` | backend/mcp_server_fastmcp.py:28-44 | every store update keeps each session filed under its own id. A waiting session stays without a reply and a completed one keeps its text |
| `Sessions.SweepRemovesExactlyStale` | backend/mcp_server_fastmcp.py:267-281 | the sweep keeps exactly the sessions no older than the threshold, untouched. The number removed is the size difference |
| `Sessions.StaleIgnoresStatus` | backend/mcp_server_fastmcp.py:272-275 | whether a session is swept does not depend on its status |
| `Sessions.PollReportsStoredReply` | backend/mcp_server_fastmcp.py:142-150 | a check yields a response iff the session is present and completed. The response carries the stored text, images and files |
| `Channels.RegisterReplaces` | backend/mcp_server_fastmcp.py:184 | registering replaces any connection for the id and leaves other ids and the written frames alone |
| `Channels.UnregisterRemovesOnlyId` | backend/fastapi_server.py:69-72 | unregistering removes exactly that id, is a no-op for an absent id, and is idempotent |
| `Channels.DeliverBestEffort` | backend/mcp_server_fastmcp.py:162-172 | no client: nothing changes. A successful send writes one frame on the registered connection and keeps the map. A failed send removes only that id and writes nothing |
| `Channels.DeliverOnlyShrinksAndAppends` | backend/fastapi_server.py:74-80 | delivery never adds a connection and never rewrites frames already written |
| `Channels.LastSegment` | backend/mcp_server_fastmcp.py:177 | the segment exists iff the path has a slash. It is slash-free, is the end of the path, and is preceded by a slash |
| `Channels.PathSessionIdRoundTrip` | backend/mcp_server_fastmcp.py:177-179 | any path ending in "/" and a non-empty slash-free id yields that id |
| `Channels.PathSessionIdNone` | backend/mcp_server_fastmcp.py:177-181 | a path yields no id exactly when it has no slash or ends with one |
| `Router.RouteIgnoresOthers` | backend/mcp_server_fastmcp.py:207-235 | a message that is not `user_feedback`, is for an unknown session, or has a `data` that is not an object (so `data.get` raises before any write) changes no session, connection or frame |
| `Router.RouteCompletes` | backend/mcp_server_fastmcp.py:210-219 | `user_feedback` with missing or object `data` for a known session completes it with the payload (with defaults) and touches no other session |
| `Router.RouteAcknowledgesInOrder` | backend/mcp_server_fastmcp.py:223-232 | the frames written are a prefix of [`feedback_received`, `session_complete`] on the registered connection. Nothing is written without a connection |
| `Router.RouteIsLocal` | backend/mcp_server_fastmcp.py:207-235 | one routed message never registers a connection, may remove only its own id's entry, only appends frames, keeps the store well formed and touches no other session |
| `Router.ConverseIsLocal` | backend/mcp_server_fastmcp.py:195-201 | the MCP receive loop, which skips messages that raise inside the handler and stops at undecodable text, keeps to the same bounds as one message |
| `Router.WebConverseIsLocal` | backend/fastapi_server.py:219-250 | the web receive loop, which stops at any frame that raises, keeps to the same bounds |
| `Router.LoopsAgreeOnTolerated` | backend/fastapi_server.py:219-250 | on frames that are neither non-object messages nor `user_feedback` with non-object `data`, the web loop and the MCP loop end in the same state |
| `Router.HandlersDivergeOnNonObjects` | backend/mcp_server_fastmcp.py:196-197 | after a non-object message, or a `user_feedback` for a known session whose `data` is not an object, the MCP loop reads on as if the frame had not come (its handler swallows the error at lines 234-235), while the web loop stops with the state unchanged (fastapi_server.py:248-250) |
| `FeedbackText.NatToString` | backend/mcp_server_fastmcp.py:126 | the count text is non-empty, decimal, and without a leading zero |
| `FeedbackText.NatToStringRoundTrip` | backend/mcp_server_fastmcp.py:126 | reading the count text back gives the count |
| `FeedbackText.FeedbackUrlDeterminesId` | backend/mcp_server_fastmcp.py:112 | two ids never share a feedback link |
| `FeedbackText.FeedbackUrlShape` | backend/mcp_server_fastmcp.py:112 | the link starts with "http://" and ends with "/feedback_ui.html?session=" followed by the id |
| `FeedbackText.ResultsEndWithId` | backend/mcp_server_fastmcp.py:126-130 | each of the three results ends with the session-id line |
| `FeedbackText.LinkResultsEmbedUrl` | backend/mcp_server_fastmcp.py:128-130 | the timed-out and started results carry the link right after their first line |
| `FeedbackText.ReceivedEmbedsReply` | backend/mcp_server_fastmcp.py:126 | the received result carries the reply text right after its heading, followed by the image-count label |
| `FeedbackText.OutcomesDistinguishable` | backend/mcp_server_fastmcp.py:126-130 | the three results begin with different characters |
| `Coordination.StepPreservesValid` | backend/mcp_server_fastmcp.py:295-303 | whatever the other tasks do during a sleep (connect, message, close, sweep, another tool call's create, another waiter's expiry, the web endpoint's completion, or several in turn) keeps the store well formed |
| `Coordination.AwaitSpec` | backend/mcp_server_fastmcp.py:136-156 | at most `timeout` checks. A response comes from the first check that sees completed, names the session, is stamped with that check's time, carries the stored reply, and the state is left as the other tasks made it. Otherwise every check is made, none saw completed, and the only change is the status set to expired if the session still exists |
| `Coordination.AwaitNonPositiveTimeout` | backend/mcp_server_fastmcp.py:140-156 | with `timeout <= 0` there is no check. The session is expired at once and nothing is returned |
| `Coordination.AwaitReturnsDeliveredReply` | backend/mcp_server_fastmcp.py:140-150 | a reply delivered during the k-th second to a present session not yet seen completed is returned at check k+1, with exactly that payload |
| `Coordination.AwaitWithoutReplyTimesOut` | backend/mcp_server_fastmcp.py:140-156 | with no other activity, a session not already completed times out and ends expired |
| `Coordination.ChosenIdPrefersCaller` | backend/mcp_server_fastmcp.py:99 | the caller's id is used when given and non-empty; otherwise the fresh id |
| `Coordination.CollectResultNamesSession` | backend/mcp_server_fastmcp.py:122-130 | every tool result ends with the session id. It is the timed-out or started text with that id's link, or a received text |
| `Coordination.CollectStartedLeavesSessionWaiting` | backend/mcp_server_fastmcp.py:99-130 | without awaiting a reply, the tool files one waiting session, keeps the other sessions, and returns the started text with the link |
| `Coordination.CollectTimesOutWithoutReply` | backend/mcp_server_fastmcp.py:121-128 | with no other task acting while the tool waits (no connection, message or sweep), the result is the timed-out text with the link and the created session ends expired |
| `Coordination.DefaultCallTimesOutWithoutReply` | backend/mcp_server_fastmcp.py:77-82 | called with only the work summary (timeout 300, no id, reply required) and no other task acting, the tool files the session under the fresh id and returns the timed-out text with its link. The session ends expired |
| `Coordination.CollectReturnsReply` | backend/mcp_server_fastmcp.py:121-126 | `user_feedback` in the first second yields the received text with exactly that text and those attachments |
| `Coordination.ConnectionWithoutIdIsRefused` | backend/mcp_server_fastmcp.py:177-181 | a path naming no session gets a close frame with code 4000, and nothing is registered |
| `Coordination.ConnectionLifecycle` | backend/mcp_server_fastmcp.py:174-205 | the first frame is the session's question when it exists and the push succeeds. At the end no entry remains under the id, other ids keep theirs, and other sessions are unchanged |
| `Coordination.OlderCloseDropsNewerConnection` | backend/mcp_server_fastmcp.py:202-205 | as written, an older connection's end removes the entry of a newer connection for the same id |
| `McpServer.ServerState.constructor` | backend/mcp_server_fastmcp.py:65-68 | the server starts with no session, no connection and no frame written |
| `McpServer.ServerState.CollectFeedback` | backend/mcp_server_fastmcp.py:77-134 | returns the result and leaves the state that the tool specification `Coordination.Collect` gives, and keeps the store well formed |
| `McpServer.ServerState.WaitForResponse` | backend/mcp_server_fastmcp.py:136-160 | the loop of sleeps and checks returns the response, state and check count of `Coordination.Await` |
| `McpServer.ServerState.SendToWebsocket` | backend/mcp_server_fastmcp.py:162-172 | moves the state as best-effort delivery does, and changes no session |
| `McpServer.ServerState.HandleWebsocketConnection` | backend/mcp_server_fastmcp.py:174-205 | the whole handler, skipping messages that raise inside the message handler, leaves the state of `Coordination.Connection` |
| `McpServer.ServerState.OpenConnection` | backend/mcp_server_fastmcp.py:177-193 | returns the path's session id and performs the refusal or the registration and initial push |
| `McpServer.ServerState.CloseConnection` | backend/mcp_server_fastmcp.py:202-205 | drops the entry under the id, if any |
| `McpServer.ServerState.HandleWebsocketMessage` | backend/mcp_server_fastmcp.py:207-235 | moves the state as the shared router does, changing nothing when `data` is not an object |
| `McpServer.ServerState.GetSessionInfo` | backend/mcp_server_fastmcp.py:252-265 | `None` exactly for an unknown id, and otherwise the projection `Sessions.Info`, whose fields `InfoProjects` gives |
| `McpServer.ServerState.CleanupExpiredSessions` | backend/mcp_server_fastmcp.py:267-281 | removes exactly the stale sessions, changes nothing else, and returns their number |
| `McpServer.StaleIds` | backend/mcp_server_fastmcp.py:269-275 | the first pass lists exactly the stale ids, each once |
| `WebServer.ConnectionManager.constructor` | backend/fastapi_server.py:61-62 | no connection and no frame written |
| `WebServer.ConnectionManager.Connect` | backend/fastapi_server.py:64-67 | registers the connection under the id, replacing any previous one |
| `WebServer.ConnectionManager.Disconnect` | backend/fastapi_server.py:69-72 | removes the id's entry if present |
| `WebServer.ConnectionManager.SendMessage` | backend/fastapi_server.py:74-80 | best-effort delivery; a failed send disconnects the id |
| `WebServer.EndpointLifecycle` | backend/fastapi_server.py:202-250 | the first frame is `agent_message` with the session's question when it exists and the push succeeds. At the end the id's entry is gone, other ids keep theirs, and other sessions are unchanged |
| `WebServer.EndpointMatchesMcpHandler` | backend/fastapi_server.py:219-244 | the web endpoint and the MCP handler, fed the same frames with no non-object message and no non-object `data` in a `user_feedback`, leave the same connections and frames. Their sessions agree except for the attached connection |
| `WebServer.WebApp.GetSessionInfo` | backend/fastapi_server.py:167-181 | a known id yields its summary. An unknown id yields 500, because the generic handler converts the inner 404 |
| `WebServer.WebApp.SubmitFeedback` | backend/fastapi_server.py:183-200 | forwards a `user_feedback` message to the registered connection, if any, and always replies success. The session store is unchanged |
| `WebServer.WebApp.WebsocketEndpoint` | backend/fastapi_server.py:202-250 | the endpoint, leaving its loop at the first frame that raises, leaves the store and registry of `WebServer.Endpoint` and does not touch the MCP server's own registry |

## Left out

- Asynchrony is sequential. Other tasks act only during the waiter's
  one-second sleeps, as the events of `env`. The suspension inside each
  `websocket.send` is not an interleaving point.
- Time is whole seconds. Fractional seconds of `datetime.now()` are dropped,
  and `isoformat()` timestamps are kept as integers.
- `FeedbackSession` is a value. Its in-place field writes become a
  replacement of its store entry. The code reaches a session only through
  the store, so no aliasing is lost.
- JSON encoding and decoding are not modelled. A message is its decoded
  value.
- Undecodable text, a message that is not a JSON object, and a `data` that
  is not an object are modelled; the other shapes of a field are not.
- A `text` entry that is JSON `null` is stored by both handlers as
  `response = None` with status completed (mcp_server_fastmcp.py:216, 219;
  fastapi_server.py:228, 231), and the waiter reports it as "" (line 146).
  The model cannot express it: `Complete` always stores a text, and
  `Sessions.WellFormed` requires a completed session to carry one.
- `images` or `files` entries that are not lists are stored as given. They
  raise only later: in `len()` of `get_session_info` (lines 262-263), or in
  building the `FeedbackResponse` (lines 144-150), where the waiter's
  `except` (158-160) returns nothing and skips the expiry write. The model
  holds attachments as lists, so the `except` branches of the tool (lines
  132-134) and of the waiter are never taken.
- The hourly background task (lines 295-303) is the sweep event
  `Cleanup(DefaultMaxAgeHours)`, with the default of 24 hours, applied
  repeatedly. Server start and stop, `websockets.serve`
  and `uvicorn` are not modelled.
- `websocket.accept()` and the close handshake are not modelled. Logging,
  HTML/React/static routes, CORS and the health route are left out.
- The web server is assumed to share the MCP server's `server_state`
  instance. The launcher does not arrange this: it runs fastapi_server.py as
  a separate process (scripts/start_servers_fastmcp.py:35-41) and imports
  the MCP module into itself (line 68), so there the web server's import
  builds its own store, into which no session is ever filed.
- `WebServer.WebApp.GetSessionInfo` and `McpServer.ServerState.GetSessionInfo`:
  `created_at` is an integer, not its ISO-8601 text.
- WebServer.EndpointMatchesMcpHandler: holds only for frames without a
  non-object message and without a `user_feedback` whose `data` is not an
  object; on those the MCP loop reads on and the web loop ends, as
  `Router.HandlersDivergeOnNonObjects` states.
