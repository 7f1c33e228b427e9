/**
 * The MCP server's global `ServerState` and the functions that update it in
 * place: the feedback tool, the waiter, delivery, the connection handler, the
 * message handler, the projection and the sweep. Each state-changing method
 * is proved to move the state exactly as a function says (those of module
 * Coordination, and `Sessions.Sweep` for the sweep); the projection returns
 * `Sessions.Info`. The properties are proved about those functions.
 */
module McpServer {
  import opened Wrappers
  import opened Protocol
  import opened Sessions
  import opened Channels
  import opened Router
  import opened FeedbackText
  import opened Coordination

  class ServerState {
    var sessions: Store
    var websocketClients: map<string, Conn>
    /** Every frame written to a connection so far, in order. */
    var wire: seq<Frame>

    ghost predicate Valid()
      reads this
    {
      Sessions.Valid(sessions)
    }

    function View(): Hub
      reads this
    {
      Hub(sessions, Registry(websocketClients, wire))
    }

    constructor ()
      ensures Valid()
      ensures View() == Hub(map[], Registry(map[], []))
    {
      sessions := map[];
      websocketClients := map[];
      wire := [];
    }

    /** `collect_feedback_mcp_feedback_collector` (the `except` branch is not reachable in the model). */
    method CollectFeedback(req: FeedbackRequest, freshId: string, clock: int, pushOk: bool, env: seq<Event>)
      returns (result: string)
      requires Valid()
      modifies this
      ensures Valid()
      ensures ToolOutcome(result, View()) == Collect(old(View()), req, freshId, clock, pushOk, env)
    {
      var id := if req.sessionId.Some? && req.sessionId.value != "" then req.sessionId.value else freshId;
      sessions := sessions[id := NewSession(id, req.workSummary, clock)];
      var url := FeedbackUrl(Host, WebPort, id);
      if id in websocketClients {
        SendToWebsocket(id, AgentMessage(req.workSummary), pushOk);
      }
      if req.requireResponse {
        var response, _ := WaitForResponse(id, req.timeout, clock, env);
        if response.Some? {
          result := ReceivedText(response.value, id);
        } else {
          result := TimedOutText(url, id);
        }
      } else {
        result := StartedText(url, id);
      }
    }

    /**
     * `_wait_for_response`: up to `timeout` rounds of a one-second sleep (during
     * which the other tasks act as `env` says) followed by a check; on
     * timeout the session, if still present, is marked expired.
     */
    method WaitForResponse(id: string, timeout: int, clock: int, env: seq<Event>)
      returns (response: Option<FeedbackResponse>, checks: nat)
      requires Valid()
      modifies this
      ensures Valid()
      ensures WaitOutcome(response, View(), checks) == Await(old(View()), id, timeout, env, clock)
    {
      var n := if timeout > 0 then timeout else 0;
      checks := 0;
      while checks < n
        invariant checks <= n
        invariant Valid()
        invariant Await(old(View()), id, timeout, env, clock) == Wait(View(), id, checks, n, env, clock)
      {
        var e := if checks < |env| then env[checks] else Idle;
        OtherTasks(e, clock + checks + 1);
        checks := checks + 1;
        if id in sessions && sessions[id].status == Completed {
          var s := sessions[id];
          response := Some(FeedbackResponse(id, s.response.GetOr(""), s.images, s.files, clock + checks));
          return;
        }
      }
      if id in sessions {
        sessions := sessions[id := sessions[id].(status := Expired)];
      }
      response := None;
    }

    /** What the other tasks do during one second of the waiter's sleep. */
    method OtherTasks(e: Event, now: int)
      requires Valid()
      modifies this
      ensures Valid()
      ensures View() == Step(old(View()), e, now)
      decreases e
    {
      match e
      case Idle =>
      case Connect(path, conn, pushOk) =>
        var _ := OpenConnection(conn, path, pushOk);
      case Message(id, msg, ackOk, doneOk) =>
        HandleWebsocketMessage(id, msg, ackOk, doneOk);
      case Disconnect(id) =>
        CloseConnection(id);
      case Cleanup(maxAgeHours) =>
        var _ := CleanupExpiredSessions(now, maxAgeHours);
      case Recreate(id, question, pushOk) =>
        // another tool call filing a session under the same id
        sessions := sessions[id := NewSession(id, question, now)];
        if id in websocketClients {
          SendToWebsocket(id, AgentMessage(question), pushOk);
        }
      case ExpireWrite(id) =>
        // another waiter's timeout write
        if id in sessions {
          sessions := sessions[id := sessions[id].(status := Expired)];
        }
      case WebMessage(id, msg) =>
        // the web endpoint's completion write into the shared store
        if msg.kind == Some(UserFeedbackType) && id in sessions && !msg.data.NotObject? {
          var data := PayloadOf(msg);
          var session := sessions[id];
          sessions := sessions[id := session.(
            response := Some(data.text.GetOr("")),
            images := data.images.GetOr([]),
            files := data.files.GetOr([]),
            status := Completed)];
        }
      case Then(first, next) =>
        OtherTasks(first, now);
        OtherTasks(next, now);
    }

    /** `_send_to_websocket`: `ok` is whether `websocket.send` succeeds. */
    method SendToWebsocket(id: string, msg: OutMessage, ok: bool)
      modifies this
      ensures View() == Send(old(View()), id, msg, ok)
    {
      if id in websocketClients {
        var websocket := websocketClients[id];
        if ok {
          wire := wire + [Text(websocket, msg)];
        } else if id in websocketClients {
          websocketClients := websocketClients - {id};
        }
      }
    }

    /**
     * `handle_websocket_connection`: open, handle each decoded message until
     * the connection ends or a frame cannot be decoded, then drop the entry.
     */
    method HandleWebsocketConnection(conn: Conn, path: string, pushOk: bool, frames: seq<Inbound>)
      requires Valid()
      modifies this
      ensures Valid()
      ensures View() == Connection(old(View()), path, conn, pushOk, frames)
    {
      var id := OpenConnection(conn, path, pushOk);
      if id.None? {
        return;
      }
      var sid := id.value;
      ghost var started := View();
      var i := 0;
      while i < |frames| && !frames[i].Malformed?
        invariant 0 <= i <= |frames|
        invariant Valid()
        invariant Converse(started.sessions, started.channels, sid, frames)
          == Converse(sessions, Registry(websocketClients, wire), sid, frames[i..])
      {
        assert frames[i..][1..] == frames[i + 1..];
        match frames[i] {
          case NonObject =>
            // `message.get` raises inside the message handler, which logs it
          case Json(msg, ackOk, doneOk) =>
            HandleWebsocketMessage(sid, msg, ackOk, doneOk);
        }
        i := i + 1;
      }
      CloseConnection(sid);
    }

    /** The opening part of `handle_websocket_connection`: returns the session id, `None` when the connection was refused. */
    method OpenConnection(conn: Conn, path: string, pushOk: bool) returns (id: Option<string>)
      requires Valid()
      modifies this
      ensures Valid()
      ensures id == PathSessionId(path)
      ensures View() == Open(old(View()), path, conn, pushOk)
    {
      var segment := LastSegment(path);
      if segment.None? || segment.value == "" {
        wire := wire + [Close(conn, MissingIdCode, MissingIdReason)];
        return None;
      }
      var sid := segment.value;
      websocketClients := websocketClients[sid := conn];
      if sid in sessions {
        var session := sessions[sid];
        sessions := sessions[sid := session.(socket := Some(conn))];
        SendToWebsocket(sid, AgentMessage(session.question), pushOk);
      }
      id := Some(sid);
    }

    /** The `finally` clause of `handle_websocket_connection`. */
    method CloseConnection(id: string)
      modifies this
      ensures View() == Coordination.CloseConnection(old(View()), id)
    {
      if id in websocketClients {
        websocketClients := websocketClients - {id};
      }
    }

    /** `_handle_websocket_message` */
    method HandleWebsocketMessage(id: string, msg: InMessage, ackOk: bool, doneOk: bool)
      requires Valid()
      modifies this
      ensures Valid()
      ensures View() == HandleMessage(old(View()), id, msg, ackOk, doneOk)
    {
      if msg.kind == Some(UserFeedbackType) {
        var data := PayloadOf(msg);
        if id in sessions {
          if msg.data.NotObject? {
            // `data.get` raises; the handler's `except` logs it and returns
            return;
          }
          var session := sessions[id];
          sessions := sessions[id := session.(
            response := Some(data.text.GetOr("")),
            images := data.images.GetOr([]),
            files := data.files.GetOr([]),
            status := Completed)];
          SendToWebsocket(id, FeedbackReceived(ThanksText), ackOk);
          SendToWebsocket(id, SessionComplete, doneOk);
        }
      }
    }

    /**
     * `get_session_info`: the projection `Info` of the store, which
     * `InfoProjects` shows to be `None` exactly for an unknown id and
     * otherwise the id, question, status name, creation time, reply and
     * attachment counts of the session.
     */
    method GetSessionInfo(id: string) returns (info: Option<SessionInfo>)
      requires Valid()
      ensures info.Some? <==> id in sessions
      ensures info == Info(sessions, id)
    {
      if id in sessions {
        var session := sessions[id];
        return Some(SessionInfo(session.id, session.question, session.status.Name(), session.createdAt,
                                session.response, |session.images|, |session.files|));
      }
      return None;
    }

    /**
     * `cleanup_expired_sessions`: collect the ids of sessions older than
     * `maxAgeHours` hours in one pass, delete them in a second, and return
     * how many there were.
     */
    method CleanupExpiredSessions(now: int, maxAgeHours: int) returns (count: nat)
      requires Valid()
      modifies this
      ensures Valid()
      ensures View() == old(View()).(sessions := Sweep(old(sessions), now, maxAgeHours))
      ensures count == |Stale(old(sessions), now, maxAgeHours)|
    {
      var all := sessions;
      var expired := StaleIds(all, now, maxAgeHours);
      assert all - Elements(expired[..0]) == all;
      for i := 0 to |expired|
        invariant sessions == all - Elements(expired[..i])
        invariant websocketClients == old(websocketClients) && wire == old(wire)
      {
        ElementsPrefixStep(expired, i);
        RemoveOneMore(all, Elements(expired[..i]), expired[i]);
        sessions := sessions - {expired[i]};
      }
      assert expired[..|expired|] == expired;
      UpdatesPreserveValid(all, "", "", now, FeedbackPayload(None, None, None), maxAgeHours);
      count := |expired|;
    }
  }

  /**
   * The first pass of `cleanup_expired_sessions`: the ids of the sessions
   * older than `maxAgeHours` hours, each listed once.
   */
  method StaleIds(all: Store, now: int, maxAgeHours: int) returns (expired: seq<string>)
    ensures Elements(expired) == Stale(all, now, maxAgeHours)
    ensures |expired| == |Stale(all, now, maxAgeHours)|
  {
    expired := [];
    var pending := all.Keys;
    while pending != {}
      invariant pending <= all.Keys
      invariant Elements(expired) == Stale(all, now, maxAgeHours) - pending
      invariant |expired| == |Elements(expired)|
      decreases pending
    {
      var id :| id in pending;
      StaleProgress(all, pending, id, now, maxAgeHours);
      if IsStale(all[id], now, maxAgeHours) {
        ElementsAppend(expired, id);
        expired := expired + [id];
      }
      pending := pending - {id};
    }
  }

  /** The ids listed in a sequence. */
  function Elements(s: seq<string>): set<string> {
    set x | x in s
  }

  /** Settling one pending id adds it to the collected ids exactly when it is stale. */
  lemma StaleProgress(all: Store, pending: set<string>, id: string, now: int, maxAgeHours: int)
    requires id in pending && pending <= all.Keys
    ensures Stale(all, now, maxAgeHours) - (pending - {id})
      == (Stale(all, now, maxAgeHours) - pending) + (if IsStale(all[id], now, maxAgeHours) then {id} else {})
  {
  }

  lemma ElementsPrefixStep(s: seq<string>, i: nat)
    requires i < |s|
    ensures Elements(s[..i + 1]) == Elements(s[..i]) + {s[i]}
  {
    assert s[..i + 1] == s[..i] + [s[i]];
    ElementsAppend(s[..i], s[i]);
  }

  lemma RemoveOneMore(m: Store, gone: set<string>, x: string)
    ensures (m - gone) - {x} == m - (gone + {x})
  {
  }

  lemma ElementsAppend(s: seq<string>, x: string)
    ensures Elements(s + [x]) == Elements(s) + {x}
    ensures x !in Elements(s) ==> |Elements(s + [x])| == |Elements(s)| + 1
  {
    assert forall y :: y in s + [x] <==> y in s || y == x;
  }
}
