/**
 * The JSON messages exchanged with the feedback page over its push connection,
 * as datatypes. `json.loads`/`json.dumps` are not modelled: a message is its
 * decoded value.
 */
module Protocol {
  import opened Wrappers

  /** An attached image or file: the client's JSON object, kept opaque as its string-valued entries. */
  datatype Attachment = Attachment(fields: map<string, string>)

  /**
   * The `data` object of an inbound `user_feedback` message. A key the client
   * left out is `None`; the handlers substitute `""`, `[]` and `[]`.
   */
  datatype FeedbackPayload = FeedbackPayload(
    text: Option<string>,
    images: Option<seq<Attachment>>,
    files: Option<seq<Attachment>>)

  /**
   * The `data` entry of a decoded message: missing, an object, or some other
   * JSON value (`null`, a string, a number, an array), on which `.get` raises.
   */
  datatype DataField = Absent | Object(payload: FeedbackPayload) | NotObject

  /** A decoded JSON object received as a message: its `type` entry, which may be missing, and its `data` entry. */
  datatype InMessage = InMessage(kind: Option<string>, data: DataField)

  const UserFeedbackType: string := "user_feedback"

  /** `message.get("type") == "user_feedback"` */
  predicate IsUserFeedback(m: InMessage) {
    m.kind == Some(UserFeedbackType)
  }

  /**
   * `message.get("data", {})` read as an object: a missing `data` entry reads
   * as an object with no keys. (A `data` that is not an object is never read:
   * the handlers raise on it first.)
   */
  function PayloadOf(m: InMessage): FeedbackPayload {
    if m.data.Object? then m.data.payload else FeedbackPayload(None, None, None)
  }

  /** The acknowledgement text sent with `feedback_received`. */
  const ThanksText: string := "反馈已收到，谢谢！"

  /** Outbound messages: the prompt, the two acknowledgements, and the forwarded form submission. */
  datatype OutMessage =
    | AgentMessage(content: string)
    | FeedbackReceived(message: string)
    | SessionComplete
    | UserFeedback(data: FeedbackPayload)

  /** A live push connection, identified by an opaque handle. */
  datatype Conn = Conn(handle: nat)

  /** What the server writes to a connection: a text frame, or a close frame with a code and a reason. */
  datatype Frame =
    | Text(conn: Conn, msg: OutMessage)
    | Close(conn: Conn, code: int, reason: string)

  /** The close code and reason for a connection whose path names no session. */
  const MissingIdCode: int := 4000
  const MissingIdReason: string := "缺少会话ID"
}
