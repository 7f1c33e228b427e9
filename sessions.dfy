/**
 * The session store: `ServerState.sessions`, a dictionary from session id to
 * `FeedbackSession`, and the pure updates the server applies to it.
 */
module Sessions {
  import opened Wrappers
  import opened Protocol

  /** `FeedbackSession.status`. */
  datatype Status = Waiting | Completed | Expired {
    /** The string the server stores and reports. */
    function Name(): string {
      match this
      case Waiting => "waiting"
      case Completed => "completed"
      case Expired => "expired"
    }
  }

  /**
   * A feedback session. `createdAt` is a timestamp in whole seconds; `socket`
   * is the connection the MCP server attached when the page connected.
   */
  datatype Session = Session(
    id: string,
    question: string,
    createdAt: int,
    status: Status,
    response: Option<string>,
    images: seq<Attachment>,
    files: seq<Attachment>,
    socket: Option<Conn>)

  type Store = map<string, Session>

  /** What `get_session_info` returns for a known session. */
  datatype SessionInfo = SessionInfo(
    sessionId: string,
    question: string,
    status: string,
    createdAt: int,
    response: Option<string>,
    imagesCount: nat,
    filesCount: nat)

  /** What the waiter hands back when it sees a completed session; `timestamp` is the time of that check. */
  datatype FeedbackResponse = FeedbackResponse(
    sessionId: string,
    text: string,
    images: seq<Attachment>,
    files: seq<Attachment>,
    timestamp: int)

  /** A waiting session carries no reply, and a completed one always carries its text. */
  predicate WellFormed(s: Session) {
    && (s.status == Waiting ==> s.response == None && s.images == [] && s.files == [])
    && (s.status == Completed ==> s.response.Some?)
  }

  /** Every entry is filed under its own id and is well formed. */
  predicate Valid(store: Store) {
    forall k :: k in store ==> store[k].id == k && WellFormed(store[k])
  }

  /** The `FeedbackSession` constructor with its defaults. */
  function NewSession(id: string, question: string, now: int): Session {
    Session(id, question, now, Waiting, None, [], [], None)
  }

  /** `sessions[session_id] = session`: any session already filed under `id` is replaced. */
  function Create(store: Store, id: string, question: string, now: int): Store {
    store[id := NewSession(id, question, now)]
  }

  /**
   * The completion write of the message handlers: text, images and files from
   * the payload (with their defaults) and status `completed`, whatever the
   * status was. An unknown id leaves the store as it is.
   */
  function Complete(store: Store, id: string, data: FeedbackPayload): Store {
    if id in store then
      store[id := store[id].(
        response := Some(data.text.GetOr("")),
        images := data.images.GetOr([]),
        files := data.files.GetOr([]),
        status := Completed)]
    else
      store
  }

  /** The waiter's timeout write: status `expired` when the id is still present, whatever the status was. */
  function Expire(store: Store, id: string): Store {
    if id in store then store[id := store[id].(status := Expired)] else store
  }

  /** The sweep's test: older than `maxAgeHours` hours, that is, more than `maxAgeHours * 3600` seconds. */
  predicate IsStale(s: Session, now: int, maxAgeHours: int) {
    now - s.createdAt > maxAgeHours * 3600
  }

  /** The ids the sweep collects. */
  function Stale(store: Store, now: int, maxAgeHours: int): set<string> {
    set k | k in store && IsStale(store[k], now, maxAgeHours)
  }

  /** The store after the sweep. */
  function Sweep(store: Store, now: int, maxAgeHours: int): Store {
    store - Stale(store, now, maxAgeHours)
  }

  /** `get_session_info`: the projection of a known session, `None` for an unknown id. */
  function Info(store: Store, id: string): Option<SessionInfo> {
    if id in store then
      var s := store[id];
      Some(SessionInfo(s.id, s.question, s.status.Name(), s.createdAt, s.response, |s.images|, |s.files|))
    else
      None
  }

  /** One check of the waiter at time `now`: a response when the session is present and completed. */
  function Poll(store: Store, id: string, now: int): Option<FeedbackResponse> {
    if id in store && store[id].status == Completed then
      var s := store[id];
      Some(FeedbackResponse(id, s.response.GetOr(""), s.images, s.files, now))
    else
      None
  }

  /**
   * Creating a session files exactly one new entry under `id`, waiting and
   * without a reply, replaces any entry already there, and leaves every other
   * id as it was; the projection then reports it as waiting with no
   * attachments.
   */
  lemma CreateFilesOneWaitingSession(store: Store, id: string, question: string, now: int)
    ensures var r := Create(store, id, question, now);
      && r.Keys == store.Keys + {id}
      && r[id].id == id && r[id].question == question && r[id].createdAt == now
      && r[id].status == Waiting && r[id].response == None
      && r[id].images == [] && r[id].files == []
      && (forall k :: k in store && k != id ==> r[k] == store[k])
      && Info(r, id) == Some(SessionInfo(id, question, "waiting", now, None, 0, 0))
  {
  }

  /** The projection is defined exactly on the filed ids and reports the stored question, status, creation time, reply and counts. */
  lemma InfoProjects(store: Store, id: string)
    requires Valid(store)
    ensures Info(store, id).Some? <==> id in store
    ensures id in store ==>
      && Info(store, id).value.sessionId == id
      && Info(store, id).value.question == store[id].question
      && Info(store, id).value.createdAt == store[id].createdAt
      && Info(store, id).value.status == store[id].status.Name()
      && Info(store, id).value.response == store[id].response
      && Info(store, id).value.imagesCount == |store[id].images|
      && Info(store, id).value.filesCount == |store[id].files|
  {
  }

  /**
   * Completion on a known id sets the reply from the payload with its
   * defaults and marks the session completed, even an expired one; the
   * question, creation time and every other id are unchanged. On an unknown
   * id nothing changes and nothing is created.
   */
  lemma CompleteSetsReply(store: Store, id: string, data: FeedbackPayload)
    ensures var r := Complete(store, id, data);
      && r.Keys == store.Keys
      && (forall k :: k in store && k != id ==> r[k] == store[k])
      && (id in store ==>
        && r[id].status == Completed
        && r[id].response == Some(data.text.GetOr(""))
        && r[id].images == data.images.GetOr([])
        && r[id].files == data.files.GetOr([])
        && r[id].question == store[id].question
        && r[id].createdAt == store[id].createdAt)
      && (id !in store ==> r == store)
  {
  }

  /** Expiry on a known id changes only its status, to expired; on an unknown id nothing is created. */
  lemma ExpireOnlyChangesStatus(store: Store, id: string)
    ensures var r := Expire(store, id);
      && r.Keys == store.Keys
      && (forall k :: k in store && k != id ==> r[k] == store[k])
      && (id in store ==> r[id] == store[id].(status := Expired))
      && (id !in store ==> r == store)
  {
  }

  /** The updates keep every entry filed under its own id and well formed. */
  lemma UpdatesPreserveValid(store: Store, id: string, question: string, now: int, data: FeedbackPayload, maxAgeHours: int)
    requires Valid(store)
    ensures Valid(Create(store, id, question, now))
    ensures Valid(Complete(store, id, data))
    ensures Valid(Expire(store, id))
    ensures Valid(Sweep(store, now, maxAgeHours))
  {
  }

  /**
   * The sweep removes exactly the sessions older than the threshold, whatever
   * their status, leaves every other session untouched, and the number it
   * reports is the number of entries that disappeared.
   */
  lemma SweepRemovesExactlyStale(store: Store, now: int, maxAgeHours: int)
    ensures var r := Sweep(store, now, maxAgeHours);
      && (forall k :: k in r <==> k in store && !IsStale(store[k], now, maxAgeHours))
      && (forall k :: k in r ==> r[k] == store[k])
      && |r| + |Stale(store, now, maxAgeHours)| == |store|
  {
    var r := Sweep(store, now, maxAgeHours);
    var gone := Stale(store, now, maxAgeHours);
    assert r.Keys == store.Keys - gone;
    assert store.Keys == r.Keys + gone;
    assert r.Keys !! gone;
  }

  /** Whether a session is swept depends on its creation time alone, not on its status or reply. */
  lemma StaleIgnoresStatus(s: Session, status: Status, now: int, maxAgeHours: int)
    ensures IsStale(s.(status := status), now, maxAgeHours) == IsStale(s, now, maxAgeHours)
  {
  }

  /** A check finds a response exactly when the session is present and completed, and hands back its stored reply. */
  lemma PollReportsStoredReply(store: Store, id: string, now: int)
    requires Valid(store)
    ensures Poll(store, id, now).Some? <==> id in store && store[id].status == Completed
    ensures Poll(store, id, now).Some? ==>
      && Some(Poll(store, id, now).value.text) == store[id].response
      && Poll(store, id, now).value.images == store[id].images
      && Poll(store, id, now).value.files == store[id].files
      && Poll(store, id, now).value.sessionId == id
  {
  }
}
