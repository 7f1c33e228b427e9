/**
 * The web server: its `ConnectionManager`, the `/ws/{session_id}` endpoint
 * (which writes into the MCP server's session store), the form submission
 * route and the session route.
 */
module WebServer {
  import opened Wrappers
  import opened Protocol
  import opened Sessions
  import opened Channels
  import opened Router
  import opened Coordination
  import McpServer

  /** `ConnectionManager`: the web server's own registry of live connections. */
  class ConnectionManager {
    var activeConnections: map<string, Conn>
    /** Every frame written to a connection so far, in order. */
    var wire: seq<Frame>

    function View(): Registry
      reads this
    {
      Registry(activeConnections, wire)
    }

    constructor ()
      ensures View() == Registry(map[], [])
    {
      activeConnections := map[];
      wire := [];
    }

    /** `connect` (the handshake `websocket.accept()` is not modelled). */
    method Connect(conn: Conn, id: string)
      modifies this
      ensures View() == Register(old(View()), id, conn)
    {
      activeConnections := activeConnections[id := conn];
    }

    /** `disconnect` */
    method Disconnect(id: string)
      modifies this
      ensures View() == Unregister(old(View()), id)
    {
      if id in activeConnections {
        activeConnections := activeConnections - {id};
      }
    }

    /** `send_message`: `ok` is whether `send_json` succeeds. */
    method SendMessage(id: string, msg: OutMessage, ok: bool)
      modifies this
      ensures View() == Deliver(old(View()), id, msg, ok)
    {
      if id in activeConnections {
        if ok {
          wire := wire + [Text(activeConnections[id], msg)];
        } else {
          Disconnect(id);
        }
      }
    }
  }

  /** The body of a form submission: `text` is required, the lists default to empty. */
  datatype FeedbackData = FeedbackData(text: string, images: seq<Attachment>, files: seq<Attachment>)

  /** A JSON reply body `{"status": ..., "message": ...}`. */
  datatype Reply = Reply(status: string, message: string)

  /** The outcome of the session route: the session summary, or an HTTP error status with its detail. */
  datatype RouteResult = Found(info: SessionInfo) | HttpError(code: int, detail: string)

  const NotFoundDetail: string := "会话未找到"
  const InternalErrorDetail: string := "服务器内部错误"
  const SubmittedReply: Reply := Reply("success", "反馈已提交")

  /**
   * `websocket_endpoint` from connect to disconnect: register, push the
   * question of a known session, route every decoded message, and drop the
   * entry once the connection ends or a frame raises.
   */
  function Endpoint(store: Store, reg: Registry, id: string, conn: Conn, pushOk: bool, frames: seq<Inbound>): (Store, Registry) {
    var connected := Register(reg, id, conn);
    var prompted :=
      match Info(store, id)
      case Some(info) => Deliver(connected, id, AgentMessage(info.question), pushOk)
      case None => connected;
    var (s, r) := WebConverse(store, prompted, id, frames);
    (s, Unregister(r, id))
  }

  /**
   * The endpoint's first frame is the session's question when the session
   * exists and the push succeeds; after it ends, no entry is left under its
   * id, other ids keep theirs, and no other session changes.
   */
  lemma EndpointLifecycle(store: Store, reg: Registry, id: string, conn: Conn, pushOk: bool, frames: seq<Inbound>)
    requires Sessions.Valid(store)
    ensures var (s, r) := Endpoint(store, reg, id, conn, pushOk, frames);
      && Sessions.Valid(s)
      && id !in r.conns
      && (forall k :: k != id ==> (k in r.conns <==> k in reg.conns))
      && (forall k :: k in r.conns ==> r.conns[k] == reg.conns[k])
      && s.Keys == store.Keys
      && (forall k :: k in store && k != id ==> s[k] == store[k])
      && reg.wire <= r.wire
      && (id in store && pushOk ==>
        |r.wire| > |reg.wire| && r.wire[|reg.wire|] == Text(conn, AgentMessage(store[id].question)))
  {
    var connected := Register(reg, id, conn);
    var prompted :=
      match Info(store, id)
      case Some(info) => Deliver(connected, id, AgentMessage(info.question), pushOk)
      case None => connected;
    WebConverseIsLocal(store, prompted, id, frames);
    if id in store && pushOk {
      assert prompted.wire == reg.wire + [Text(conn, AgentMessage(store[id].question))];
    }
  }

  /**
   * The web endpoint and the MCP connection handler, started on the same
   * state for the same session and fed the same frames, none of them a
   * non-object message or a `user_feedback` whose `data` is not an object,
   * leave the same connections and write the same frames, and leave every
   * session the same except for the connection the MCP handler attaches to
   * it. (On the frames excluded here they part: see
   * `HandlersDivergeOnNonObjects`.)
   */
  lemma EndpointMatchesMcpHandler(h: Hub, path: string, conn: Conn, pushOk: bool, frames: seq<Inbound>)
    requires PathSessionId(path).Some?
    requires forall i :: 0 <= i < |frames| ==> Tolerated(frames[i])
    ensures var id := PathSessionId(path).value;
      var (s, r) := Endpoint(h.sessions, h.channels, id, conn, pushOk, frames);
      var o := Connection(h, path, conn, pushOk, frames);
      && r == o.channels
      && WithoutSockets(s) == WithoutSockets(o.sessions)
  {
    var id := PathSessionId(path).value;
    var started := Open(h, path, conn, pushOk);
    var connected := Register(h.channels, id, conn);
    var prompted :=
      match Info(h.sessions, id)
      case Some(info) => Deliver(connected, id, AgentMessage(info.question), pushOk)
      case None => connected;
    assert prompted == started.channels;
    assert WithoutSockets(h.sessions) == WithoutSockets(started.sessions);
    LoopsAgreeOnTolerated(h.sessions, prompted, id, frames);
    ConverseIgnoresSockets(h.sessions, started.sessions, prompted, id, frames);
  }

  /** The store with every session's attached connection forgotten. */
  function WithoutSockets(store: Store): Store {
    map k | k in store :: store[k].(socket := None)
  }

  /** The receive loop does not look at attached connections, and does not change them. */
  lemma {:induction false} ConverseIgnoresSockets(a: Store, b: Store, reg: Registry, id: string, frames: seq<Inbound>)
    requires WithoutSockets(a) == WithoutSockets(b)
    ensures Converse(a, reg, id, frames).1 == Converse(b, reg, id, frames).1
    ensures WithoutSockets(Converse(a, reg, id, frames).0) == WithoutSockets(Converse(b, reg, id, frames).0)
    decreases |frames|
  {
    assert a.Keys == WithoutSockets(a).Keys == WithoutSockets(b).Keys == b.Keys;
    if frames != [] && frames[0].NonObject? {
      ConverseIgnoresSockets(a, b, reg, id, frames[1..]);
    } else if frames != [] && frames[0].Json? {
      var Json(msg, ackOk, doneOk) := frames[0];
      var (sa, ra) := Route(a, reg, id, msg, ackOk, doneOk);
      var (sb, rb) := Route(b, reg, id, msg, ackOk, doneOk);
      if IsUserFeedback(msg) && id in a && !msg.data.NotObject? {
        assert a[id].(socket := None) == WithoutSockets(a)[id] == WithoutSockets(b)[id] == b[id].(socket := None);
        assert WithoutSockets(sa) == WithoutSockets(sb);
      }
      ConverseIgnoresSockets(sa, sb, ra, id, frames[1..]);
    }
  }

  /** The FastAPI application's module state: its connection manager and the MCP server's state it imports. */
  class WebApp {
    const store: McpServer.ServerState
    const manager: ConnectionManager

    constructor (store: McpServer.ServerState, manager: ConnectionManager)
      ensures this.store == store && this.manager == manager
    {
      this.store := store;
      this.manager := manager;
    }

    /**
     * `GET /api/session/{session_id}`: the summary of a known session. For an
     * unknown id the 404 raised inside the `try` is caught by its generic
     * handler and re-raised as a 500, so the caller sees 500.
     */
    method GetSessionInfo(id: string) returns (r: RouteResult)
      requires store.Valid()
      ensures r.Found? <==> id in store.sessions
      ensures r.Found? ==> r.info == Info(store.sessions, id).value && r.info.sessionId == id
      ensures r.HttpError? ==> r == HttpError(500, InternalErrorDetail)
    {
      var info := store.GetSessionInfo(id);
      var outcome: RouteResult;
      if info.Some? {
        outcome := Found(info.value);
      } else {
        outcome := HttpError(404, NotFoundDetail);
      }
      if outcome.HttpError? {
        outcome := HttpError(500, InternalErrorDetail);
      }
      r := outcome;
    }

    /**
     * `POST /api/session/{session_id}/feedback`: forward the submission as a
     * `user_feedback` message to the session's connection, if any, and report
     * success whatever happened; the session store is not touched.
     */
    method SubmitFeedback(id: string, feedback: FeedbackData, ok: bool) returns (reply: Reply)
      modifies manager
      ensures reply == SubmittedReply
      ensures manager.View()
        == Deliver(old(manager.View()), id, UserFeedback(FeedbackPayload(Some(feedback.text), Some(feedback.images), Some(feedback.files))), ok)
      ensures store.sessions == old(store.sessions)
    {
      manager.SendMessage(id, UserFeedback(FeedbackPayload(Some(feedback.text), Some(feedback.images), Some(feedback.files))), ok);
      reply := SubmittedReply;
    }

    /** `websocket_endpoint` for one connection, from connect to disconnect. */
    method WebsocketEndpoint(conn: Conn, id: string, pushOk: bool, frames: seq<Inbound>)
      requires store.Valid()
      modifies store, manager
      ensures store.Valid()
      ensures (store.sessions, manager.View())
        == Endpoint(old(store.sessions), old(manager.View()), id, conn, pushOk, frames)
      ensures store.websocketClients == old(store.websocketClients) && store.wire == old(store.wire)
    {
      manager.Connect(conn, id);
      var info := store.GetSessionInfo(id);
      if info.Some? {
        manager.SendMessage(id, AgentMessage(info.value.question), pushOk);
      }
      ghost var startedStore := store.sessions;
      ghost var startedReg := manager.View();
      var i := 0;
      while i < |frames|
        invariant 0 <= i <= |frames|
        invariant store.Valid()
        invariant WebConverse(startedStore, startedReg, id, frames) == WebConverse(store.sessions, manager.View(), id, frames[i..])
        invariant store.websocketClients == old(store.websocketClients) && store.wire == old(store.wire)
      {
        assert frames[i..][1..] == frames[i + 1..];
        if !frames[i].Json? {
          // undecodable text or a non-object message raises out of the loop
          break;
        }
        var Json(data, ackOk, doneOk) := frames[i];
        if data.kind == Some(UserFeedbackType) {
          if id in store.sessions {
            if data.data.NotObject? {
              // `feedback_data.get` raises out of the loop
              break;
            }
            var session := store.sessions[id];
            var feedbackData := PayloadOf(data);
            UpdatesPreserveValid(store.sessions, id, "", 0, feedbackData, 0);
            store.sessions := store.sessions[id := session.(
              response := Some(feedbackData.text.GetOr("")),
              images := feedbackData.images.GetOr([]),
              files := feedbackData.files.GetOr([]),
              status := Completed)];
            manager.SendMessage(id, FeedbackReceived(ThanksText), ackOk);
            manager.SendMessage(id, SessionComplete, doneOk);
          }
        }
        i := i + 1;
      }
      manager.Disconnect(id);
    }
  }
}
