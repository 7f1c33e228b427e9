/**
 * The push-channel registry: a dictionary from session id to its live
 * connection (`ServerState.websocket_clients` in the MCP server,
 * `ConnectionManager.active_connections` in the web server), together with
 * the log of frames written to connections, which is how the model makes
 * deliveries and their order observable.
 */
module Channels {
  import opened Wrappers
  import opened Protocol

  datatype Registry = Registry(conns: map<string, Conn>, wire: seq<Frame>)

  /** `conns[id] = conn`: a new connection for an id replaces the previous one. */
  function Register(r: Registry, id: string, c: Conn): Registry {
    r.(conns := r.conns[id := c])
  }

  /** Remove the entry for `id` when there is one; otherwise nothing happens. */
  function Unregister(r: Registry, id: string): Registry {
    if id in r.conns then r.(conns := r.conns - {id}) else r
  }

  /**
   * Best-effort delivery. No registered connection: nothing happens. The
   * send succeeds (`ok`): one frame on that connection. The send fails: the
   * entry is unregistered and nothing is written.
   */
  function Deliver(r: Registry, id: string, msg: OutMessage, ok: bool): Registry {
    if id !in r.conns then r
    else if ok then r.(wire := r.wire + [Text(r.conns[id], msg)])
    else Unregister(r, id)
  }

  /** Close a connection whose path names no session, with code 4000. */
  function Refuse(r: Registry, c: Conn): Registry {
    r.(wire := r.wire + [Close(c, MissingIdCode, MissingIdReason)])
  }

  /** Registering replaces any previous connection for the id and leaves other ids untouched. */
  lemma RegisterReplaces(r: Registry, id: string, c: Conn)
    ensures var r' := Register(r, id, c);
      && r'.conns.Keys == r.conns.Keys + {id}
      && r'.conns[id] == c
      && (forall k :: k in r.conns && k != id ==> r'.conns[k] == r.conns[k])
      && r'.wire == r.wire
  {
  }

  /** Unregistering removes exactly that id, is a no-op on an absent id, and is idempotent. */
  lemma UnregisterRemovesOnlyId(r: Registry, id: string)
    ensures var r' := Unregister(r, id);
      && r'.conns.Keys == r.conns.Keys - {id}
      && (forall k :: k in r'.conns ==> r'.conns[k] == r.conns[k])
      && r'.wire == r.wire
      && (id !in r.conns ==> r' == r)
      && Unregister(r', id) == r'
  {
  }

  /**
   * Delivery to an unregistered id does nothing; a successful send writes one
   * frame, on the registered connection, and keeps the map; a failed send
   * removes that id's entry alone and writes nothing.
   */
  lemma DeliverBestEffort(r: Registry, id: string, msg: OutMessage, ok: bool)
    ensures var r' := Deliver(r, id, msg, ok);
      && (id !in r.conns ==> r' == r)
      && (id in r.conns && ok ==> r'.conns == r.conns && r'.wire == r.wire + [Text(r.conns[id], msg)])
      && (id in r.conns && !ok ==> r'.conns == r.conns - {id} && r'.wire == r.wire)
  {
  }

  /** Delivery never adds a connection and never rewrites what was already written. */
  lemma DeliverOnlyShrinksAndAppends(r: Registry, id: string, msg: OutMessage, ok: bool)
    ensures var r' := Deliver(r, id, msg, ok);
      && r'.conns.Keys <= r.conns.Keys
      && (forall k :: k in r'.conns ==> r'.conns[k] == r.conns[k])
      && r.wire <= r'.wire
  {
  }

  /**
   * `path.split('/')[-1] if '/' in path else None`: the text after the last
   * slash, or `None` when the path has no slash.
   */
  function LastSegment(path: string): (seg: Option<string>)
    ensures seg.Some? <==> '/' in path
    ensures seg.Some? ==>
      && |seg.value| < |path|
      && path[|path| - |seg.value| - 1] == '/'
      && path[|path| - |seg.value|..] == seg.value
      && '/' !in seg.value
  {
    if path == [] then None
    else if path[|path| - 1] == '/' then Some([])
    else
      match LastSegment(path[..|path| - 1])
      case None => None
      case Some(s) => Some(s + [path[|path| - 1]])
  }

  /** The session id a connection path names: its last segment, when there is one and it is not empty. */
  function PathSessionId(path: string): Option<string> {
    match LastSegment(path)
    case Some(s) => if s != [] then Some(s) else None
    case None => None
  }

  /** Any path that ends in a slash and a non-empty, slash-free id names that id. */
  lemma {:induction false} PathSessionIdRoundTrip(prefix: string, id: string)
    requires id != [] && '/' !in id
    ensures PathSessionId(prefix + "/" + id) == Some(id)
  {
    LastSegmentOfJoin(prefix, id);
  }

  lemma {:induction false} LastSegmentOfJoin(prefix: string, id: string)
    requires '/' !in id
    ensures LastSegment(prefix + "/" + id) == Some(id)
  {
    var p := prefix + "/" + id;
    if id == [] {
      assert p[|p| - 1] == '/';
    } else {
      var init := id[..|id| - 1];
      assert p[..|p| - 1] == prefix + "/" + init;
      assert p[|p| - 1] == id[|id| - 1];
      LastSegmentOfJoin(prefix, init);
      assert init + [id[|id| - 1]] == id;
    }
  }

  /** A path names an id exactly when it has a slash followed by a non-empty tail. */
  lemma PathSessionIdNone(path: string)
    ensures PathSessionId(path) == None <==> ('/' !in path || path[|path| - 1] == '/')
  {
    if '/' in path {
      var s := LastSegment(path).value;
      if s != [] {
        assert path[|path| - 1] == s[|s| - 1];
        assert s[|s| - 1] in s;
      }
    }
  }
}
