/**
 * The classification of the one chat-completions call the `/generate`
 * handler makes: every outcome of the call becomes exactly one reply, a
 * status code and a `report` text.
 */
module Upstream {
  import opened Wrappers
  import opened JsValues

  /** An error object thrown inside the `try` block: its `name` and its
      `message` (the empty string when it has none). */
  datatype ErrorValue = ErrorValue(name: string, message: string)

  /** How the call ended.
      - `Threw`: `fetch` rejected (an abort by the 30 s timer among others)
        or reading the ok response as JSON threw.
      - `Answered`: an HTTP response arrived. `text` is what
        `response.text()` resolves to on a non-ok response (None when it
        rejects); `content` is `data.choices[0].message.content` on an ok
        response (None when `choices`, its first element, `message` or
        `content` is missing). */
  datatype Outcome =
    | Threw(error: ErrorValue)
    | Answered(status: nat, statusText: string, text: Option<string>, content: Option<string>)

  /** The reply sent to the client: a status code and the `report` field. */
  datatype Reply = Reply(status: nat, report: string)

  /** `response.ok`: a status in the range 200-299. */
  predicate IsOkStatus(status: nat)
  {
    200 <= status <= 299
  }

  const Warning: string := "\U{26A0}\U{FE0F} "
  const CallFailedPrefix: string := Warning + "OpenAI 호출 실패: HTTP "
  const FormatError: string := Warning + "GPT 응답 형식 오류"
  const InternalPrefix: string := Warning + "서버 내부 오류: "
  const TimeoutMessage: string := "요청 시간 초과"

  /** The most of the upstream body a failure report quotes. */
  const BodyQuoteLimit: nat := 200

  /** `String(err)` for an error object: `Error.prototype.toString`. */
  function ErrorToString(e: ErrorValue): string
  {
    if e.name == "" then e.message
    else if e.message == "" then e.name
    else e.name + ": " + e.message
  }

  /** `err?.name === 'AbortError' ? '요청 시간 초과' : (err?.message || String(err))`. */
  function ErrorMessage(e: ErrorValue): string
  {
    if e.name == "AbortError" then TimeoutMessage
    else if e.message != "" then e.message
    else ErrorToString(e)
  }

  /** The head of the non-ok report, up to the quoted body. */
  function FailureHead(status: nat, statusText: string): string
  {
    CallFailedPrefix + NatToString(status) + " " + statusText + " "
  }

  /** What `response.text().catch(() => '')` yields. */
  function BodyText(text: Option<string>): string
  {
    match text
    case Some(t) => t
    case None => ""
  }

  /** The report of a non-ok response: the head and at most 200 characters
      of the body. */
  function NonOkReport(status: nat, statusText: string, text: Option<string>): string
  {
    FailureHead(status, statusText) + SliceTo(BodyText(text), BodyQuoteLimit)
  }

  /** The reply for each outcome, in the order the handler tests them. */
  function Classify(o: Outcome): Reply
  {
    match o
    case Threw(e) => Reply(500, InternalPrefix + ErrorMessage(e))
    case Answered(status, statusText, text, content) =>
      if !IsOkStatus(status) then
        Reply(502, NonOkReport(status, statusText, text))
      else if content.None? || content.value == "" then
        Reply(500, FormatError)
      else
        Reply(200, content.value)
  }

  /** The kinds of outcome the handler tells apart. */
  datatype Kind = InternalError | HttpFailure | Malformed | Delivered

  /** Which branch of the handler an outcome takes. */
  function KindOf(o: Outcome): Kind
  {
    match o
    case Threw(_) => InternalError
    case Answered(status, _, _, content) =>
      if !IsOkStatus(status) then HttpFailure
      else if content.None? || content.value == "" then Malformed
      else Delivered
  }

  /** The kind a client can read off a reply. */
  function ReplyKind(r: Reply): Kind
  {
    if r.status == 200 then Delivered
    else if r.status == 502 then HttpFailure
    else if r.report == FormatError then Malformed
    else InternalError
  }

  /** The reply alone tells which branch produced it: the status codes differ,
      and the two 500 reports differ from their fourth character on. */
  lemma ReplyRevealsKind(o: Outcome)
    ensures ReplyKind(Classify(o)) == KindOf(o)
  {
    if o.Threw? {
      var r := InternalPrefix + ErrorMessage(o.error);
      assert r[3] == InternalPrefix[3] != FormatError[3];
    }
  }

  /** Every reply carries one of three status codes; 502 comes exactly from a
      non-ok upstream response, 200 exactly from an ok one with content. */
  lemma ClassifyStatus(o: Outcome)
    ensures Classify(o).status in {200, 500, 502}
    ensures Classify(o).status == 502 <==> o.Answered? && !IsOkStatus(o.status)
    ensures Classify(o).status == 200 <==>
      o.Answered? && IsOkStatus(o.status) && o.content.Some? && o.content.value != ""
    ensures Classify(o).status == 500 <==> KindOf(o) in {InternalError, Malformed}
  {
  }

  /** A non-ok response yields 502 whatever the upstream status was; the
      report names the status and status text and quotes the first 200
      characters of the body, or nothing when the body could not be read. */
  lemma NonOkReply(status: nat, statusText: string, text: Option<string>, content: Option<string>)
    requires !IsOkStatus(status)
    ensures var r, head := Classify(Answered(status, statusText, text, content)), FailureHead(status, statusText);
      var body := BodyText(text);
      var quote := r.report[|head|..];
      && r.status == 502
      && |head| <= |r.report| && r.report[..|head|] == head
      && r.report[..|CallFailedPrefix|] == CallFailedPrefix
      && |quote| == (if |body| <= BodyQuoteLimit then |body| else BodyQuoteLimit)
      && quote == body[..|quote|]
      && (text.None? ==> r.report == head)
  {
    var head := FailureHead(status, statusText);
    assert head[..|CallFailedPrefix|] == CallFailedPrefix;
  }

  /** The failure head is the fixed prefix, the status digits, one space,
      the status text and one closing space, in that order. */
  lemma FailureHeadParts(status: nat, statusText: string)
    ensures var h, n, digits := FailureHead(status, statusText), |CallFailedPrefix|, NatToString(status);
      && |h| == n + |digits| + |statusText| + 2
      && h[..n] == CallFailedPrefix
      && h[n..n + |digits|] == digits
      && h[n + |digits|] == ' '
      && h[n + |digits| + 1..n + |digits| + 1 + |statusText|] == statusText
      && h[|h| - 1] == ' '
  {
    PartsAt(CallFailedPrefix, NatToString(status), " ", statusText, " ");
  }

  /** So the non-ok report carries, right after the fixed prefix, the status
      digits (which read back as the upstream status), one space and the
      status text. */
  lemma NonOkReplyNamesStatus(status: nat, statusText: string, text: Option<string>, content: Option<string>)
    requires !IsOkStatus(status)
    ensures var r, n := Classify(Answered(status, statusText, text, content)).report, |CallFailedPrefix|;
      var digits := NatToString(status);
      && n + |digits| + 1 + |statusText| < |r|
      && r[..n] == CallFailedPrefix
      && r[n..n + |digits|] == digits
      && r[n + |digits|] == ' '
      && r[n + |digits| + 1..n + |digits| + 1 + |statusText|] == statusText
      && r[n + |digits| + 1 + |statusText|] == ' '
  {
    var h := FailureHead(status, statusText);
    var quote := SliceTo(BodyText(text), BodyQuoteLimit);
    assert Classify(Answered(status, statusText, text, content)).report == NonOkReport(status, statusText, text) == h + quote;
    FailureHeadParts(status, statusText);
    var n, k := |CallFailedPrefix|, |NatToString(status)|;
    SliceOfPrefix(h, quote, 0, n);
    SliceOfPrefix(h, quote, n, n + k);
    SliceOfPrefix(h, quote, n + k + 1, n + k + 1 + |statusText|);
    assert (h + quote)[n + k] == h[n + k];
    assert (h + quote)[|h| - 1] == h[|h| - 1];
  }

  lemma PartsAt(a: string, b: string, c: string, d: string, e: string)
    requires |c| >= 1 && |e| >= 1
    ensures var s := a + b + c + d + e;
      && s[..|a|] == a
      && s[|a|..|a| + |b|] == b
      && s[|a| + |b|] == c[0]
      && s[|a| + |b| + |c|..|a| + |b| + |c| + |d|] == d
      && s[|s| - 1] == e[|e| - 1]
  {
  }

  lemma SliceOfPrefix(h: string, q: string, i: nat, j: nat)
    requires i <= j <= |h|
    ensures (h + q)[i..j] == h[i..j]
  {
  }

  /** The upstream status is not propagated: two non-ok responses get the
      same status code. */
  lemma StatusNotPropagated(o1: Outcome, o2: Outcome)
    requires o1.Answered? && !IsOkStatus(o1.status)
    requires o2.Answered? && !IsOkStatus(o2.status)
    ensures Classify(o1).status == Classify(o2).status == 502
  {
  }

  /** An ok response yields its content verbatim with 200 when the content is
      a non-empty string, and the fixed format-error report with 500 otherwise. */
  lemma OkReply(status: nat, statusText: string, text: Option<string>, content: Option<string>)
    requires IsOkStatus(status)
    ensures var r := Classify(Answered(status, statusText, text, content));
      && (content.Some? && content.value != "" ==> r == Reply(200, content.value))
      && (content.None? || content.value == "" ==> r == Reply(500, FormatError))
  {
  }

  /** A thrown error yields 500 with the internal-error prefix; the message is
      the timeout text for an AbortError, else the error's message, else its
      name. */
  lemma ThrownReply(e: ErrorValue)
    ensures var r := Classify(Threw(e));
      && r.status == 500
      && |InternalPrefix| <= |r.report| && r.report[..|InternalPrefix|] == InternalPrefix
      && (e.name == "AbortError" ==> r.report == InternalPrefix + TimeoutMessage)
      && (e.name != "AbortError" && e.message != "" ==> r.report == InternalPrefix + e.message)
      && (e.name != "AbortError" && e.message == "" ==> r.report == InternalPrefix + e.name)
  {
  }
}
