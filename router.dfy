/**
 * The inbound message router, which both servers implement with the same
 * steps: the MCP server in `_handle_websocket_message`, the web server in the
 * receive loop of `websocket_endpoint`.
 */
module Router {
  import opened Wrappers
  import opened Protocol
  import opened Sessions
  import opened Channels

  /**
   * The completion write of a `user_feedback` message for a known session
   * raises: its `data` is not an object, so `data.get("text", "")` fails
   * before anything is written.
   */
  predicate Fails(store: Store, id: string, msg: InMessage) {
    IsUserFeedback(msg) && id in store && msg.data.NotObject?
  }

  /**
   * One inbound message on the connection of session `id`. Only a
   * `user_feedback` message for a known session whose `data` is missing or an
   * object changes anything: it completes the session, then sends
   * `feedback_received` and then `session_complete` (`ackOk` and `doneOk` are
   * the outcomes of the two sends). A message that `Fails` changes nothing.
   */
  function Route(store: Store, reg: Registry, id: string, msg: InMessage, ackOk: bool, doneOk: bool): (Store, Registry) {
    if IsUserFeedback(msg) && id in store && !msg.data.NotObject? then
      var acked := Deliver(reg, id, FeedbackReceived(ThanksText), ackOk);
      (Complete(store, id, PayloadOf(msg)), Deliver(acked, id, SessionComplete, doneOk))
    else
      (store, reg)
  }

  /**
   * A frame read from a connection: a decoded JSON object with the outcomes
   * of its two possible sends, a decoded JSON value that is not an object,
   * or undecodable text.
   */
  datatype Inbound = Json(msg: InMessage, ackOk: bool, doneOk: bool) | NonObject | Malformed

  /**
   * The receive loop of `handle_websocket_connection`: route each decoded
   * message in turn. A non-object message, and a message that `Fails`, raise
   * inside `_handle_websocket_message`, whose own `except` swallows the error,
   * so the loop reads on. Undecodable text raises in the loop itself and ends
   * it, so nothing after it is read.
   */
  function Converse(store: Store, reg: Registry, id: string, frames: seq<Inbound>): (Store, Registry)
    decreases |frames|
  {
    if frames == [] then (store, reg)
    else
      match frames[0]
      case Malformed => (store, reg)
      case NonObject => Converse(store, reg, id, frames[1..])
      case Json(msg, ackOk, doneOk) =>
        var (s, r) := Route(store, reg, id, msg, ackOk, doneOk);
        Converse(s, r, id, frames[1..])
  }

  /**
   * The receive loop of the web server's `websocket_endpoint`: route each
   * decoded message in turn. Undecodable text, a non-object message and a
   * message that `Fails` all raise into the endpoint's `except`, which ends
   * the loop.
   */
  function WebConverse(store: Store, reg: Registry, id: string, frames: seq<Inbound>): (Store, Registry)
    decreases |frames|
  {
    if frames == [] then (store, reg)
    else
      match frames[0]
      case Malformed => (store, reg)
      case NonObject => (store, reg)
      case Json(msg, ackOk, doneOk) =>
        if Fails(store, id, msg) then (store, reg)
        else
          var (s, r) := Route(store, reg, id, msg, ackOk, doneOk);
          WebConverse(s, r, id, frames[1..])
  }

  /**
   * Any message other than `user_feedback`, one for an unknown session, or
   * one whose `data` is not an object leaves the store, the registry and the
   * written frames as they were.
   */
  lemma RouteIgnoresOthers(store: Store, reg: Registry, id: string, msg: InMessage, ackOk: bool, doneOk: bool)
    requires !IsUserFeedback(msg) || id !in store || msg.data.NotObject?
    ensures Route(store, reg, id, msg, ackOk, doneOk) == (store, reg)
  {
  }

  /**
   * A `user_feedback` message for a known session completes it with the
   * payload and its defaults, and touches no other session.
   */
  lemma RouteCompletes(store: Store, reg: Registry, id: string, msg: InMessage, ackOk: bool, doneOk: bool)
    requires IsUserFeedback(msg) && id in store && !msg.data.NotObject?
    ensures var (s, _) := Route(store, reg, id, msg, ackOk, doneOk);
      && s.Keys == store.Keys
      && s[id].status == Completed
      && s[id].response == Some(PayloadOf(msg).text.GetOr(""))
      && s[id].images == PayloadOf(msg).images.GetOr([])
      && s[id].files == PayloadOf(msg).files.GetOr([])
      && (forall k :: k in store && k != id ==> s[k] == store[k])
  {
  }

  /**
   * The acknowledgements of a completion go to the session's registered
   * connection, `feedback_received` first and `session_complete` second:
   * what is written is a prefix of that pair, and nothing at all when no
   * connection is registered. A failed first send unregisters the
   * connection, so the second is never written.
   */
  lemma RouteAcknowledgesInOrder(store: Store, reg: Registry, id: string, msg: InMessage, ackOk: bool, doneOk: bool)
    requires IsUserFeedback(msg) && id in store && !msg.data.NotObject?
    ensures var (_, r) := Route(store, reg, id, msg, ackOk, doneOk);
      && (id !in reg.conns ==> r == reg)
      && (id in reg.conns ==>
        var c := reg.conns[id];
        var acks := [Text(c, FeedbackReceived(ThanksText)), Text(c, SessionComplete)];
        && r.wire == reg.wire + (if !ackOk then [] else if !doneOk then acks[..1] else acks)
        && (id in r.conns <==> ackOk && doneOk))
  {
    var acked := Deliver(reg, id, FeedbackReceived(ThanksText), ackOk);
    if id in reg.conns {
      var c := reg.conns[id];
      if ackOk {
        assert acked.conns == reg.conns && acked.wire == reg.wire + [Text(c, FeedbackReceived(ThanksText))];
        if doneOk {
          assert acked.wire + [Text(c, SessionComplete)] == reg.wire + [Text(c, FeedbackReceived(ThanksText)), Text(c, SessionComplete)];
        }
      }
    }
  }

  /**
   * One routed message never registers a connection, only removes the entry
   * of its own id, only appends to the written frames, keeps the store valid,
   * and never touches another session.
   */
  lemma RouteIsLocal(store: Store, reg: Registry, id: string, msg: InMessage, ackOk: bool, doneOk: bool)
    requires Valid(store)
    ensures var (s, r) := Route(store, reg, id, msg, ackOk, doneOk);
      && Valid(s)
      && s.Keys == store.Keys
      && (forall k :: k in store && k != id ==> s[k] == store[k])
      && r.conns.Keys <= reg.conns.Keys
      && (forall k :: k in r.conns ==> r.conns[k] == reg.conns[k])
      && (forall k :: k in reg.conns && k != id ==> k in r.conns)
      && reg.wire <= r.wire
  {
    if IsUserFeedback(msg) && id in store && !msg.data.NotObject? {
      var acked := Deliver(reg, id, FeedbackReceived(ThanksText), ackOk);
      DeliverOnlyShrinksAndAppends(reg, id, FeedbackReceived(ThanksText), ackOk);
      DeliverOnlyShrinksAndAppends(acked, id, SessionComplete, doneOk);
      UpdatesPreserveValid(store, id, "", 0, PayloadOf(msg), 0);
    }
  }

  /** What a receive loop may do to the store and the registry it starts from. */
  predicate LocalTo(store: Store, reg: Registry, id: string, s: Store, r: Registry) {
    && Valid(s)
    && s.Keys == store.Keys
    && (forall k :: k in store && k != id ==> s[k] == store[k])
    && r.conns.Keys <= reg.conns.Keys
    && (forall k :: k in r.conns ==> r.conns[k] == reg.conns[k])
    && (forall k :: k in reg.conns && k != id ==> k in r.conns)
    && reg.wire <= r.wire
  }

  /**
   * The MCP receive loop never registers a connection, only removes the
   * entry of its own id, only appends to the written frames, keeps the store
   * valid, and never touches another session.
   */
  lemma {:induction false} ConverseIsLocal(store: Store, reg: Registry, id: string, frames: seq<Inbound>)
    requires Valid(store)
    ensures var (s, r) := Converse(store, reg, id, frames);
      LocalTo(store, reg, id, s, r)
    decreases |frames|
  {
    if frames != [] && !frames[0].Malformed? {
      var (s1, r1) := if frames[0].Json? then Route(store, reg, id, frames[0].msg, frames[0].ackOk, frames[0].doneOk) else (store, reg);
      if frames[0].Json? {
        RouteIsLocal(store, reg, id, frames[0].msg, frames[0].ackOk, frames[0].doneOk);
      }
      ConverseIsLocal(s1, r1, id, frames[1..]);
    }
  }

  /** The web receive loop keeps to the same bounds as the MCP one. */
  lemma {:induction false} WebConverseIsLocal(store: Store, reg: Registry, id: string, frames: seq<Inbound>)
    requires Valid(store)
    ensures var (s, r) := WebConverse(store, reg, id, frames);
      LocalTo(store, reg, id, s, r)
    decreases |frames|
  {
    if frames != [] && frames[0].Json? && !Fails(store, id, frames[0].msg) {
      var Json(msg, ackOk, doneOk) := frames[0];
      RouteIsLocal(store, reg, id, msg, ackOk, doneOk);
      var (s1, r1) := Route(store, reg, id, msg, ackOk, doneOk);
      WebConverseIsLocal(s1, r1, id, frames[1..]);
    }
  }

  /** A frame both loops treat alike: neither a non-object message nor a `user_feedback` whose `data` is not an object. */
  predicate Tolerated(f: Inbound) {
    !f.NonObject? && !(f.Json? && IsUserFeedback(f.msg) && f.msg.data.NotObject?)
  }

  /** On frames both loops treat alike, the two receive loops end in the same state. */
  lemma {:induction false} LoopsAgreeOnTolerated(store: Store, reg: Registry, id: string, frames: seq<Inbound>)
    requires forall i :: 0 <= i < |frames| ==> Tolerated(frames[i])
    ensures WebConverse(store, reg, id, frames) == Converse(store, reg, id, frames)
    decreases |frames|
  {
    if frames != [] && frames[0].Json? {
      assert Tolerated(frames[0]);
      var Json(msg, ackOk, doneOk) := frames[0];
      var (s1, r1) := Route(store, reg, id, msg, ackOk, doneOk);
      assert forall i :: 0 <= i < |frames[1..]| ==> Tolerated(frames[1..][i]) by {
        forall i | 0 <= i < |frames[1..]| ensures Tolerated(frames[1..][i]) {
          assert frames[1..][i] == frames[i + 1];
        }
      }
      LoopsAgreeOnTolerated(s1, r1, id, frames[1..]);
    } else if frames != [] {
      assert Tolerated(frames[0]);
    }
  }

  /**
   * Where the two loops part: after a non-object message, or a `user_feedback`
   * for a known session whose `data` is not an object, the MCP loop reads the
   * rest as if that frame had not come, while the web loop reads nothing more.
   */
  lemma HandlersDivergeOnNonObjects(store: Store, reg: Registry, id: string, f: Inbound, rest: seq<Inbound>)
    requires f.NonObject? || (f.Json? && Fails(store, id, f.msg))
    ensures Converse(store, reg, id, [f] + rest) == Converse(store, reg, id, rest)
    ensures WebConverse(store, reg, id, [f] + rest) == (store, reg)
  {
    assert ([f] + rest)[1..] == rest;
  }
}
