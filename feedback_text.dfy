/**
 * The text the feedback tool hands back to the agent: the feedback page link
 * and the three result messages (reply received, wait timed out, collection
 * started), with Python's `str` of a count written out as decimal digits.
 */
module FeedbackText {
  import opened Sessions

  /** `ServerState.host` and `ServerState.web_port`, the address the feedback link points at. */
  const Host: string := "localhost"
  const WebPort: nat := 8000

  const Digits: string := "0123456789"

  /** Python's `str(n)` for a non-negative integer: decimal, no leading zero. */
  function NatToString(n: nat): (s: string)
    ensures |s| >= 1
    ensures forall i :: 0 <= i < |s| ==> s[i] in Digits
    ensures s[0] == '0' ==> n == 0
    decreases n
  {
    if n < 10 then [Digits[n]] else NatToString(n / 10) + [Digits[n % 10]]
  }

  /** The value of a string of decimal digits. */
  function DigitsValue(s: string): nat
    requires forall i :: 0 <= i < |s| ==> s[i] in Digits
    decreases |s|
  {
    if s == [] then 0
    else DigitsValue(s[..|s| - 1]) * 10 + (s[|s| - 1] as int - '0' as int)
  }

  /** Reading the digits back gives the number: the decimal text of a count loses nothing. */
  lemma {:induction false} NatToStringRoundTrip(n: nat)
    ensures DigitsValue(NatToString(n)) == n
    decreases n
  {
    var s := NatToString(n);
    if n >= 10 {
      NatToStringRoundTrip(n / 10);
      assert s[..|s| - 1] == NatToString(n / 10);
    }
  }

  const UrlPath: string := "/feedback_ui.html?session="

  /** `f"http://{host}:{web_port}/feedback_ui.html?session={session_id}"` */
  function FeedbackUrl(host: string, port: nat, id: string): string {
    "http://" + host + ":" + NatToString(port) + UrlPath + id
  }

  /** The line every tool result ends with, in front of the session id. */
  const SessionIdLabel: string := "\n\n**会话ID:** "

  const ReceivedHead: string := "用户反馈已收到:\n\n**文本内容:**\n"
  const ImagesLabel: string := "\n\n**图片数量:** "
  const FilesLabel: string := "\n**文件数量:** "
  const TimedOutHead: string := "等待用户响应超时。请访问以下链接提供反馈:\n"
  const StartedHead: string := "反馈收集已启动。用户可以通过以下链接提供反馈:\n"

  /** The result when the reply arrived: its text, the image and file counts, and the session id. */
  function ReceivedText(r: FeedbackResponse, id: string): string {
    ReceivedHead + r.text + ImagesLabel + NatToString(|r.images|) + FilesLabel + NatToString(|r.files|) + SessionIdLabel + id
  }

  /** The result when the wait timed out: the link to the page and the session id. */
  function TimedOutText(url: string, id: string): string {
    TimedOutHead + url + SessionIdLabel + id
  }

  /** The result when no reply is awaited: the link to the page and the session id. */
  function StartedText(url: string, id: string): string {
    StartedHead + url + SessionIdLabel + id
  }

  /** Two sessions never share a link: the link determines the session id. */
  lemma {:induction false} FeedbackUrlDeterminesId(host: string, port: nat, a: string, b: string)
    requires FeedbackUrl(host, port, a) == FeedbackUrl(host, port, b)
    ensures a == b
  {
    var head := "http://" + host + ":" + NatToString(port) + UrlPath;
    assert FeedbackUrl(host, port, a) == head + a;
    assert FeedbackUrl(host, port, b) == head + b;
    assert a == (head + a)[|head|..];
    assert b == (head + b)[|head|..];
  }

  /** The link is addressed to the page on the given host and port and ends with the session query. */
  lemma FeedbackUrlShape(host: string, port: nat, id: string)
    ensures var url := FeedbackUrl(host, port, id);
      && url[..7] == "http://"
      && |url| >= |UrlPath| + |id|
      && url[|url| - |UrlPath| - |id|..] == UrlPath + id
  {
  }

  /** Every result ends with the session-id line, so the agent can always find the id. */
  lemma {:induction false} ResultsEndWithId(r: FeedbackResponse, url: string, id: string)
    ensures var tail := SessionIdLabel + id;
      && EndsWith(ReceivedText(r, id), tail)
      && EndsWith(TimedOutText(url, id), tail)
      && EndsWith(StartedText(url, id), tail)
  {
    var tail := SessionIdLabel + id;
    var a := ReceivedHead + r.text + ImagesLabel + NatToString(|r.images|) + FilesLabel + NatToString(|r.files|);
    assert ReceivedText(r, id) == a + tail;
    assert TimedOutText(url, id) == (TimedOutHead + url) + tail;
    assert StartedText(url, id) == (StartedHead + url) + tail;
  }

  /** `t` ends with `tail`. */
  predicate EndsWith(t: string, tail: string) {
    |tail| <= |t| && t[|t| - |tail|..] == tail
  }

  /** The timed-out and started results carry the link right after their first line. */
  lemma LinkResultsEmbedUrl(url: string, id: string)
    ensures TimedOutText(url, id)[|TimedOutHead|..|TimedOutHead| + |url|] == url
    ensures StartedText(url, id)[|StartedHead|..|StartedHead| + |url|] == url
  {
  }

  /** The received result carries the reply text right after its heading, followed by the image count. */
  lemma ReceivedEmbedsReply(r: FeedbackResponse, id: string)
    ensures var t := ReceivedText(r, id);
      && t[|ReceivedHead|..|ReceivedHead| + |r.text|] == r.text
      && t[|ReceivedHead| + |r.text|..|ReceivedHead| + |r.text| + |ImagesLabel|] == ImagesLabel
  {
  }

  /** The three outcomes begin differently, so the agent can tell them apart from the first character. */
  lemma OutcomesDistinguishable(r: FeedbackResponse, url: string, id: string)
    ensures ReceivedText(r, id)[0] == '用'
    ensures TimedOutText(url, id)[0] == '等'
    ensures StartedText(url, id)[0] == '反'
  {
  }
}
