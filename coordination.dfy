/**
 * The MCP server's coordination state as a value: the session store and the
 * push-channel registry of `ServerState`, the steps other tasks take on it,
 * the polling waiter, and the feedback tool built from them.
 *
 * Concurrency is made explicit: the waiter sleeps one second per check, and
 * whatever the other tasks (connection handlers, the hourly sweep) do during
 * the k-th sleep is the event `env[k]`, applied before the k-th check. Time is
 * an integer number of seconds; the waiter starts at `clock` and makes its
 * k-th check (counting from one) at `clock + k`.
 */
module Coordination {
  import opened Wrappers
  import opened Protocol
  import opened Sessions
  import opened Channels
  import opened Router
  import opened FeedbackText

  datatype Hub = Hub(sessions: Store, channels: Registry)

  predicate Valid(h: Hub) {
    Sessions.Valid(h.sessions)
  }

  /** `_send_to_websocket`: best-effort delivery on the session's registered connection. */
  function Send(h: Hub, id: string, msg: OutMessage, ok: bool): Hub {
    h.(channels := Deliver(h.channels, id, msg, ok))
  }

  /**
   * The opening part of `handle_websocket_connection`: a path naming no
   * session is closed with code 4000; otherwise the connection is registered
   * (replacing any previous one), and when the session exists it is attached
   * to the session and the session's question is pushed to it.
   */
  function Open(h: Hub, path: string, conn: Conn, pushOk: bool): Hub {
    match PathSessionId(path)
    case None => h.(channels := Refuse(h.channels, conn))
    case Some(id) =>
      var registered := h.(channels := Register(h.channels, id, conn));
      if id in registered.sessions then
        var s := registered.sessions[id];
        var attached := registered.(sessions := registered.sessions[id := s.(socket := Some(conn))]);
        Send(attached, id, AgentMessage(s.question), pushOk)
      else
        registered
  }

  /** `_handle_websocket_message`: the shared router applied to the server's store and registry. */
  function HandleMessage(h: Hub, id: string, msg: InMessage, ackOk: bool, doneOk: bool): Hub {
    var (s, r) := Route(h.sessions, h.channels, id, msg, ackOk, doneOk);
    Hub(s, r)
  }

  /** The `finally` of `handle_websocket_connection`: drop whatever entry is filed under the id. */
  function CloseConnection(h: Hub, id: string): Hub {
    h.(channels := Unregister(h.channels, id))
  }

  /** One connection from start to end: open, route every frame read, then drop the entry. */
  function Connection(h: Hub, path: string, conn: Conn, pushOk: bool, frames: seq<Inbound>): Hub {
    var started := Open(h, path, conn, pushOk);
    match PathSessionId(path)
    case None => started
    case Some(id) =>
      var (s, r) := Converse(started.sessions, started.channels, id, frames);
      CloseConnection(Hub(s, r), id)
  }

  /**
   * What the other tasks do to the shared state during one second of the
   * waiter's sleep: a page connects, a message arrives on an MCP connection,
   * a connection ends, the sweep runs, another tool call files a session
   * (pushing its summary to a registered page), another waiter times out,
   * the web endpoint completes a session, or several of these in turn.
   */
  datatype Event =
    | Idle
    | Connect(path: string, conn: Conn, pushOk: bool)
    | Message(id: string, msg: InMessage, ackOk: bool, doneOk: bool)
    | Disconnect(id: string)
    | Cleanup(maxAgeHours: int)
    | Recreate(id: string, question: string, pushOk: bool)
    | ExpireWrite(id: string)
    | WebMessage(id: string, msg: InMessage)
    | Then(first: Event, next: Event)

  function Step(h: Hub, e: Event, now: int): Hub
    decreases e
  {
    match e
    case Idle => h
    case Connect(path, conn, pushOk) => Open(h, path, conn, pushOk)
    case Message(id, msg, ackOk, doneOk) => HandleMessage(h, id, msg, ackOk, doneOk)
    case Disconnect(id) => CloseConnection(h, id)
    case Cleanup(maxAgeHours) => h.(sessions := Sweep(h.sessions, now, maxAgeHours))
    case Recreate(id, question, pushOk) =>
      var created := h.(sessions := Create(h.sessions, id, question, now));
      if id in created.channels.conns then Send(created, id, AgentMessage(question), pushOk) else created
    case ExpireWrite(id) => h.(sessions := Expire(h.sessions, id))
    case WebMessage(id, msg) =>
      // the web endpoint acknowledges on its own registry, not on this one
      if IsUserFeedback(msg) && id in h.sessions && !msg.data.NotObject? then
        h.(sessions := Complete(h.sessions, id, PayloadOf(msg)))
      else
        h
    case Then(first, next) => Step(Step(h, first, now), next, now)
  }

  /** The event of the k-th sleep; seconds past the end of `env` are idle. */
  function EventAt(env: seq<Event>, k: nat): Event {
    if k < |env| then env[k] else Idle
  }

  /** The state after the first `k` seconds of other tasks' activity, with no check in between. */
  function RunSteps(h: Hub, env: seq<Event>, clock: int, k: nat): Hub
    decreases k
  {
    if k == 0 then h else Step(RunSteps(h, env, clock, k - 1), EventAt(env, k - 1), clock + k)
  }

  /** `range(timeout)` has no element when `timeout <= 0`. */
  function Bound(timeout: int): nat {
    if timeout > 0 then timeout else 0
  }

  /** What the waiter returns, the state it leaves, and how many checks it made. */
  datatype WaitOutcome = WaitOutcome(response: Option<FeedbackResponse>, hub: Hub, checks: nat)

  /**
   * `_wait_for_response` from its k-th sleep on: sleep, check; return the
   * response at the first check that sees the session completed; after `n`
   * checks, mark the session expired if it is still there.
   */
  function Wait(h: Hub, id: string, k: nat, n: nat, env: seq<Event>, clock: int): WaitOutcome
    decreases n - k
  {
    if k >= n then
      WaitOutcome(None, h.(sessions := Expire(h.sessions, id)), k)
    else
      var h' := Step(h, EventAt(env, k), clock + k + 1);
      var seen := Poll(h'.sessions, id, clock + k + 1);
      if seen.Some? then WaitOutcome(seen, h', k + 1) else Wait(h', id, k + 1, n, env, clock)
  }

  /** `_wait_for_response(session_id, timeout)` started at `clock`. */
  function Await(h: Hub, id: string, timeout: int, env: seq<Event>, clock: int): WaitOutcome {
    Wait(h, id, 0, Bound(timeout), env, clock)
  }

  /** None of the first `k` checks saw the session completed. */
  predicate NoCompletionThrough(h: Hub, id: string, env: seq<Event>, clock: int, k: nat) {
    forall j :: 1 <= j <= k ==> Poll(RunSteps(h, env, clock, j).sessions, id, clock + j).None?
  }

  /** The tool's arguments. */
  datatype FeedbackRequest = FeedbackRequest(
    workSummary: string,
    timeout: int,
    sessionId: Option<string>,
    requireResponse: bool)

  /** The tool's defaults: wait up to 300 seconds, no caller id, a reply required. */
  const DefaultTimeout: int := 300
  const DefaultRequireResponse: bool := true

  /** The tool called with only its work summary. */
  function DefaultRequest(workSummary: string): FeedbackRequest {
    FeedbackRequest(workSummary, DefaultTimeout, None, DefaultRequireResponse)
  }

  /** `cleanup_expired_sessions()`'s default age limit, the one the hourly sweep uses. */
  const DefaultMaxAgeHours: int := 24

  /** `session_id or str(uuid.uuid4())`: a missing or empty id is replaced by the fresh one. */
  function ChosenId(req: FeedbackRequest, freshId: string): string {
    match req.sessionId
    case Some(s) => if s != "" then s else freshId
    case None => freshId
  }

  datatype ToolOutcome = ToolOutcome(result: string, hub: Hub)

  /**
   * `collect_feedback_mcp_feedback_collector`: create the session, push the
   * summary to a connected page, then either wait for the reply or return the
   * link at once.
   */
  function Collect(h: Hub, req: FeedbackRequest, freshId: string, clock: int, pushOk: bool, env: seq<Event>): ToolOutcome {
    var id := ChosenId(req, freshId);
    var created := h.(sessions := Create(h.sessions, id, req.workSummary, clock));
    var url := FeedbackUrl(Host, WebPort, id);
    var pushed := if id in created.channels.conns then Send(created, id, AgentMessage(req.workSummary), pushOk) else created;
    if req.requireResponse then
      var w := Await(pushed, id, req.timeout, env, clock);
      ToolOutcome(if w.response.Some? then ReceivedText(w.response.value, id) else TimedOutText(url, id), w.hub)
    else
      ToolOutcome(StartedText(url, id), pushed)
  }

  // ---------------------------------------------------------------------------
  // Every step keeps the store valid.

  lemma {:induction false} StepPreservesValid(h: Hub, e: Event, now: int)
    requires Valid(h)
    ensures Valid(Step(h, e, now))
    decreases e
  {
    match e
    case Message(id, msg, ackOk, doneOk) =>
      UpdatesPreserveValid(h.sessions, id, "", now, PayloadOf(msg), 0);
    case Cleanup(maxAgeHours) =>
      UpdatesPreserveValid(h.sessions, "", "", now, FeedbackPayload(None, None, None), maxAgeHours);
    case Recreate(id, question, _) =>
      UpdatesPreserveValid(h.sessions, id, question, now, FeedbackPayload(None, None, None), 0);
    case ExpireWrite(id) =>
      UpdatesPreserveValid(h.sessions, id, "", now, FeedbackPayload(None, None, None), 0);
    case WebMessage(id, msg) =>
      UpdatesPreserveValid(h.sessions, id, "", now, PayloadOf(msg), 0);
    case Then(first, next) =>
      StepPreservesValid(h, first, now);
      StepPreservesValid(Step(h, first, now), next, now);
    case _ =>
  }

  lemma {:induction false} RunStepsPreservesValid(h: Hub, env: seq<Event>, clock: int, k: nat)
    requires Valid(h)
    ensures Valid(RunSteps(h, env, clock, k))
    decreases k
  {
    if k > 0 {
      RunStepsPreservesValid(h, env, clock, k - 1);
      StepPreservesValid(RunSteps(h, env, clock, k - 1), EventAt(env, k - 1), clock + k);
    }
  }

  // ---------------------------------------------------------------------------
  // The waiter.

  /**
   * The waiter from its k-th sleep on, when it got there without seeing a
   * completion: a response comes from the first later check that sees the
   * session completed, in the state the other tasks produced; otherwise it
   * makes all `n` checks and expires the session.
   */
  lemma {:induction false} WaitFromSpec(h: Hub, hk: Hub, id: string, k: nat, n: nat, env: seq<Event>, clock: int)
    requires k <= n
    requires hk == RunSteps(h, env, clock, k)
    requires NoCompletionThrough(h, id, env, clock, k)
    ensures var o := Wait(hk, id, k, n, env, clock);
      && k <= o.checks <= n
      && (o.response.Some? ==>
        && k < o.checks
        && o.hub == RunSteps(h, env, clock, o.checks)
        && NoCompletionThrough(h, id, env, clock, o.checks - 1)
        && o.response == Poll(o.hub.sessions, id, clock + o.checks))
      && (o.response.None? ==>
        var last := RunSteps(h, env, clock, n);
        && o.checks == n
        && NoCompletionThrough(h, id, env, clock, n)
        && o.hub == last.(sessions := Expire(last.sessions, id)))
    decreases n - k
  {
    if k < n {
      var h' := Step(hk, EventAt(env, k), clock + k + 1);
      assert h' == RunSteps(h, env, clock, k + 1);
      if Poll(h'.sessions, id, clock + k + 1).None? {
        assert NoCompletionThrough(h, id, env, clock, k + 1);
        WaitFromSpec(h, h', id, k + 1, n, env, clock);
      }
    }
  }

  /**
   * `_wait_for_response` checks at most `timeout` times. When it returns a
   * response, that check saw the session completed, the response is the
   * session's stored reply, the waiter left the state exactly as the other
   * tasks made it, and no earlier check had seen a completion. When it
   * returns nothing, it made every check, none saw a completion, and the only
   * thing it changed is the session's status, to expired, if the session is
   * still there; an absent session is not recreated.
   */
  lemma AwaitSpec(h: Hub, id: string, timeout: int, env: seq<Event>, clock: int)
    ensures var o := Await(h, id, timeout, env, clock);
      && o.checks <= Bound(timeout)
      && (o.response.Some? ==>
        && 1 <= o.checks
        && o.hub == RunSteps(h, env, clock, o.checks)
        && id in o.hub.sessions
        && o.hub.sessions[id].status == Completed
        && o.response.value.sessionId == id
        && o.response.value.timestamp == clock + o.checks
        && o.response.value.text == o.hub.sessions[id].response.GetOr("")
        && o.response.value.images == o.hub.sessions[id].images
        && o.response.value.files == o.hub.sessions[id].files
        && NoCompletionThrough(h, id, env, clock, o.checks - 1))
      && (o.response.None? ==>
        var last := RunSteps(h, env, clock, Bound(timeout));
        && o.checks == Bound(timeout)
        && NoCompletionThrough(h, id, env, clock, Bound(timeout))
        && o.hub.channels == last.channels
        && o.hub.sessions == Expire(last.sessions, id))
  {
    WaitFromSpec(h, h, id, 0, Bound(timeout), env, clock);
  }

  /** With `timeout <= 0` the waiter makes no check: it expires the session at once and returns nothing. */
  lemma AwaitNonPositiveTimeout(h: Hub, id: string, timeout: int, env: seq<Event>, clock: int)
    requires timeout <= 0
    ensures Await(h, id, timeout, env, clock) == WaitOutcome(None, h.(sessions := Expire(h.sessions, id)), 0)
  {
  }

  /**
   * A reply delivered during the k-th second, on a session still present and
   * not seen completed before, is what the waiter returns, at that check and
   * with exactly the delivered payload.
   */
  lemma AwaitReturnsDeliveredReply(h: Hub, id: string, timeout: int, env: seq<Event>, clock: int, k: nat)
    requires k < Bound(timeout)
    requires EventAt(env, k).Message? && EventAt(env, k).id == id && IsUserFeedback(EventAt(env, k).msg)
    requires !EventAt(env, k).msg.data.NotObject?
    requires id in RunSteps(h, env, clock, k).sessions
    requires NoCompletionThrough(h, id, env, clock, k)
    ensures var data := PayloadOf(EventAt(env, k).msg);
      && Await(h, id, timeout, env, clock).checks == k + 1
      && Await(h, id, timeout, env, clock).response
        == Some(FeedbackResponse(id, data.text.GetOr(""), data.images.GetOr([]), data.files.GetOr([]), clock + k + 1))
  {
    var n := Bound(timeout);
    var hk := RunSteps(h, env, clock, k);
    WaitUnfold(h, id, n, env, clock, k);
    var e := EventAt(env, k);
    RouteCompletes(hk.sessions, hk.channels, id, e.msg, e.ackOk, e.doneOk);
  }

  /** Before any check sees a completion, the waiter's run is the other tasks' run. */
  lemma {:induction false} WaitUnfold(h: Hub, id: string, n: nat, env: seq<Event>, clock: int, k: nat)
    requires k <= n
    requires NoCompletionThrough(h, id, env, clock, k)
    ensures Wait(h, id, 0, n, env, clock) == Wait(RunSteps(h, env, clock, k), id, k, n, env, clock)
    decreases k
  {
    if k > 0 {
      WaitUnfold(h, id, n, env, clock, k - 1);
      var prev := RunSteps(h, env, clock, k - 1);
      assert Poll(RunSteps(h, env, clock, k).sessions, id, clock + k).None?;
      assert Step(prev, EventAt(env, k - 1), clock + (k - 1) + 1) == RunSteps(h, env, clock, k);
    }
  }

  /** With no other task acting, a session not already completed times out: nothing is returned and it ends expired. */
  lemma AwaitWithoutReplyTimesOut(h: Hub, id: string, timeout: int, clock: int)
    requires id !in h.sessions || h.sessions[id].status != Completed
    ensures Await(h, id, timeout, [], clock)
      == WaitOutcome(None, h.(sessions := Expire(h.sessions, id)), Bound(timeout))
  {
    IdleRunIsStill(h, clock, Bound(timeout));
    AwaitSpec(h, id, timeout, [], clock);
    var o := Await(h, id, timeout, [], clock);
    if o.response.Some? {
      IdleRunIsStill(h, clock, o.checks);
      assert false;
    }
  }

  lemma {:induction false} IdleRunIsStill(h: Hub, clock: int, k: nat)
    ensures RunSteps(h, [], clock, k) == h
    decreases k
  {
    if k > 0 {
      IdleRunIsStill(h, clock, k - 1);
    }
  }

  // ---------------------------------------------------------------------------
  // The feedback tool.

  /**
   * Whatever happens, the tool result ends with the session id. It is the
   * timed-out or the started result with the feedback link of that id, or a
   * received result built from some reply (which reply is what
   * `AwaitSpec` and `CollectReturnsReply` say).
   */
  lemma CollectResultNamesSession(h: Hub, req: FeedbackRequest, freshId: string, clock: int, pushOk: bool, env: seq<Event>)
    ensures var id := ChosenId(req, freshId);
      var o := Collect(h, req, freshId, clock, pushOk, env);
      var url := FeedbackUrl(Host, WebPort, id);
      && EndsWith(o.result, SessionIdLabel + id)
      && (|| o.result == TimedOutText(url, id)
          || o.result == StartedText(url, id)
          || exists r: FeedbackResponse :: r.sessionId == id && o.result == ReceivedText(r, id))
  {
    var id := ChosenId(req, freshId);
    var url := FeedbackUrl(Host, WebPort, id);
    var o := Collect(h, req, freshId, clock, pushOk, env);
    if req.requireResponse {
      var created := h.(sessions := Create(h.sessions, id, req.workSummary, clock));
      var pushed := if id in created.channels.conns then Send(created, id, AgentMessage(req.workSummary), pushOk) else created;
      var w := Await(pushed, id, req.timeout, env, clock);
      if w.response.Some? {
        ResultsEndWithId(w.response.value, url, id);
        AwaitSpec(pushed, id, req.timeout, env, clock);
        assert w.response.value.sessionId == id && o.result == ReceivedText(w.response.value, id);
      } else {
        ResultsEndWithId(FeedbackResponse(id, "", [], [], 0), url, id);
      }
    } else {
      ResultsEndWithId(FeedbackResponse(id, "", [], [], 0), url, id);
    }
  }

  /**
   * Without awaiting a reply, the tool files exactly one new waiting session
   * under the chosen id (replacing any previous one), changes no other
   * session, and returns the started result with the link; the projection of
   * the session then reports it waiting with no attachments.
   */
  lemma CollectStartedLeavesSessionWaiting(h: Hub, req: FeedbackRequest, freshId: string, clock: int, pushOk: bool, env: seq<Event>)
    requires !req.requireResponse
    ensures var id := ChosenId(req, freshId);
      var o := Collect(h, req, freshId, clock, pushOk, env);
      && o.result == StartedText(FeedbackUrl(Host, WebPort, id), id)
      && o.hub.sessions.Keys == h.sessions.Keys + {id}
      && (forall k :: k in h.sessions && k != id ==> o.hub.sessions[k] == h.sessions[k])
      && Info(o.hub.sessions, id) == Some(SessionInfo(id, req.workSummary, "waiting", clock, None, 0, 0))
  {
  }

  /** The chosen id is the caller's when it is given and not empty, and the fresh one otherwise. */
  lemma ChosenIdPrefersCaller(req: FeedbackRequest, freshId: string)
    ensures req.sessionId.Some? && req.sessionId.value != "" ==> ChosenId(req, freshId) == req.sessionId.value
    ensures req.sessionId.None? || req.sessionId == Some("") ==> ChosenId(req, freshId) == freshId
  {
  }

  /**
   * When no reply ever arrives and no other task acts, the tool returns the
   * timed-out result with the link, and the session it created ends expired.
   */
  lemma CollectTimesOutWithoutReply(h: Hub, req: FeedbackRequest, freshId: string, clock: int, pushOk: bool)
    requires req.requireResponse
    ensures var id := ChosenId(req, freshId);
      var o := Collect(h, req, freshId, clock, pushOk, []);
      && o.result == TimedOutText(FeedbackUrl(Host, WebPort, id), id)
      && id in o.hub.sessions
      && o.hub.sessions[id].status == Expired
      && o.hub.sessions[id].question == req.workSummary
  {
    var id := ChosenId(req, freshId);
    var created := h.(sessions := Create(h.sessions, id, req.workSummary, clock));
    var pushed := if id in created.channels.conns then Send(created, id, AgentMessage(req.workSummary), pushOk) else created;
    assert pushed.sessions == created.sessions;
    AwaitWithoutReplyTimesOut(pushed, id, req.timeout, clock);
  }

  /**
   * Called with only its work summary, the tool uses the fresh id and waits;
   * with no other task acting it returns the timed-out result for that id and
   * leaves the session expired after 300 checks' worth of sleeps.
   */
  lemma DefaultCallTimesOutWithoutReply(h: Hub, workSummary: string, freshId: string, clock: int, pushOk: bool)
    ensures var o := Collect(h, DefaultRequest(workSummary), freshId, clock, pushOk, []);
      && o.result == TimedOutText(FeedbackUrl(Host, WebPort, freshId), freshId)
      && freshId in o.hub.sessions
      && o.hub.sessions[freshId].status == Expired
      && o.hub.sessions[freshId].question == workSummary
  {
    CollectTimesOutWithoutReply(h, DefaultRequest(workSummary), freshId, clock, pushOk);
  }

  /**
   * When the page sends `user_feedback` for the new session during the first
   * second of a positive timeout, the tool returns the received result
   * carrying exactly that text and those attachment counts.
   */
  lemma CollectReturnsReply(h: Hub, req: FeedbackRequest, freshId: string, clock: int, pushOk: bool,
                            msg: InMessage, ackOk: bool, doneOk: bool)
    requires req.requireResponse && req.timeout >= 1
    requires IsUserFeedback(msg) && !msg.data.NotObject?
    ensures var id := ChosenId(req, freshId);
      var data := PayloadOf(msg);
      var o := Collect(h, req, freshId, clock, pushOk, [Message(id, msg, ackOk, doneOk)]);
      o.result == ReceivedText(FeedbackResponse(id, data.text.GetOr(""), data.images.GetOr([]), data.files.GetOr([]), clock + 1), id)
  {
    var id := ChosenId(req, freshId);
    var env := [Message(id, msg, ackOk, doneOk)];
    var created := h.(sessions := Create(h.sessions, id, req.workSummary, clock));
    var pushed := if id in created.channels.conns then Send(created, id, AgentMessage(req.workSummary), pushOk) else created;
    assert id in pushed.sessions;
    AwaitReturnsDeliveredReply(pushed, id, req.timeout, env, clock, 0);
  }

  // ---------------------------------------------------------------------------
  // Connections.

  /** A path naming no session gets a close frame with code 4000, and nothing is registered or changed. */
  lemma ConnectionWithoutIdIsRefused(h: Hub, path: string, conn: Conn, pushOk: bool, frames: seq<Inbound>)
    requires PathSessionId(path) == None
    ensures Connection(h, path, conn, pushOk, frames)
      == h.(channels := h.channels.(wire := h.channels.wire + [Close(conn, MissingIdCode, MissingIdReason)]))
  {
  }

  /**
   * A connection for a named session: its first frame is the session's
   * question when the session exists and the push succeeds; when it ends, no
   * entry is left under its id; the entries of other ids and the other
   * sessions are untouched.
   */
  lemma ConnectionLifecycle(h: Hub, path: string, conn: Conn, pushOk: bool, frames: seq<Inbound>)
    requires Valid(h)
    requires PathSessionId(path).Some?
    ensures var id := PathSessionId(path).value;
      var o := Connection(h, path, conn, pushOk, frames);
      && Valid(o)
      && id !in o.channels.conns
      && (forall k :: k != id ==> (k in o.channels.conns <==> k in h.channels.conns))
      && (forall k :: k in o.channels.conns ==> o.channels.conns[k] == h.channels.conns[k])
      && o.sessions.Keys == h.sessions.Keys
      && (forall k :: k in h.sessions && k != id ==> o.sessions[k] == h.sessions[k])
      && h.channels.wire <= o.channels.wire
      && (id in h.sessions && pushOk ==>
        |o.channels.wire| > |h.channels.wire|
        && o.channels.wire[|h.channels.wire|] == Text(conn, AgentMessage(h.sessions[id].question)))
  {
    var id := PathSessionId(path).value;
    var started := Open(h, path, conn, pushOk);
    assert Valid(started);
    ConverseIsLocal(started.sessions, started.channels, id, frames);
    if id in h.sessions && pushOk {
      assert started.channels.wire == h.channels.wire + [Text(conn, AgentMessage(h.sessions[id].question))];
    }
  }

  /**
   * As written, the end of an older connection drops the entry of a newer
   * connection that replaced it under the same id: the newer page stays open
   * but receives nothing more.
   */
  lemma OlderCloseDropsNewerConnection(h: Hub, id: string, older: Conn, newer: Conn)
    ensures var both := h.(channels := Register(Register(h.channels, id, older), id, newer));
      && both.channels.conns[id] == newer
      && id !in CloseConnection(both, id).channels.conns
  {
  }
}
