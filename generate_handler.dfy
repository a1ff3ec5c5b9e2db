/**
 * The `/generate` handler as a whole: destructure the body, build the
 * prompt, make one chat-completions call and classify its outcome. The
 * provider is a parameter, a function from the request sent to the outcome
 * the handler sees.
 */
module GenerateHandler {
  import opened JsValues
  import opened ReportPrompt
  import opened Upstream

  /** The body of the chat-completions request: the fixed model and one
      user message carrying the prompt. */
  datatype ChatRequest = ChatRequest(model: string, role: string, content: string)

  const ChatModel: string := "gpt-4o"

  function RequestFor(prompt: string): ChatRequest
  {
    ChatRequest(ChatModel, "user", prompt)
  }

  /** What one request to the handler leads to: one upstream request and one
      reply, or a TypeError thrown before the `try` block, in which case the
      handler sends nothing and calls nobody. */
  datatype Handled =
    | Responded(request: ChatRequest, reply: Reply)
    | Rejected(error: BuildError)

  function Generate(body: map<string, JsValue>, c: Clock, provider: ChatRequest -> Outcome): Handled
  {
    match BuildPrompt(Destructure(body), c)
    case Failure(e) => Rejected(e)
    case Success(prompt) =>
      var request := RequestFor(prompt);
      Responded(request, Classify(provider(request)))
  }

  /** The body properties the handler reads. */
  const FieldNames: set<string> := {
    "name", "className", "progress", "homework", "testRange", "score", "weakScore",
    "extraRequest", "teacherName", "attendance", "attitude", "homeworkStatus" }

  /** The handler answers every request exactly once, unless `teacherName` is
      a truthy non-string; the reply is the classification of what the
      provider returned for one `gpt-4o` request whose single user message is
      the built prompt. */
  lemma GenerateRepliesOnce(body: map<string, JsValue>, c: Clock, provider: ChatRequest -> Outcome)
    ensures var t := Lookup(body, "teacherName");
      Generate(body, c, provider).Rejected? <==> Truthy(t) && !t.Str?
    ensures var h := Generate(body, c, provider);
      h.Responded? ==>
        && BuildPrompt(Destructure(body), c).Success?
        && h.request == ChatRequest("gpt-4o", "user", BuildPrompt(Destructure(body), c).value)
        && h.reply == Classify(provider(h.request))
        && h.reply.status in {200, 500, 502}
  {
    BuildPromptGreeting(Destructure(body), c);
    var h := Generate(body, c, provider);
    if h.Responded? {
      ClassifyStatus(provider(h.request));
    }
  }

  /** Nothing but the twelve destructured fields, the clock reading and the
      provider's answer decides the outcome: bodies that agree on those
      fields are handled alike, whatever else they carry. */
  lemma GenerateReadsOnlyFields(b1: map<string, JsValue>, b2: map<string, JsValue>, c: Clock,
                                provider: ChatRequest -> Outcome)
    requires forall k :: k in FieldNames ==> Lookup(b1, k) == Lookup(b2, k)
    ensures Generate(b1, c, provider) == Generate(b2, c, provider)
  {
    assert Destructure(b1) == Destructure(b2) by {
      assert "name" in FieldNames && "className" in FieldNames && "progress" in FieldNames;
      assert "homework" in FieldNames && "testRange" in FieldNames && "score" in FieldNames;
      assert "weakScore" in FieldNames && "extraRequest" in FieldNames && "teacherName" in FieldNames;
      assert "attendance" in FieldNames && "attitude" in FieldNames && "homeworkStatus" in FieldNames;
    }
  }

  /** A request with no fields at all still gets a reply: every field is
      `undefined`, which renders as "undefined" except in the two score
      lines. */
  lemma EmptyBodyStillAnswered(c: Clock, provider: ChatRequest -> Outcome)
    ensures Generate(map[], c, provider).Responded?
    ensures Destructure(map[]) == Fields(Undefined, Undefined, Undefined, Undefined, Undefined, Undefined,
                                         Undefined, Undefined, Undefined, Undefined, Undefined, Undefined)
    ensures Render(Undefined) == "undefined"
    ensures ScoreText(Undefined) == "미응시" && WeakScoreText(Undefined) == "없음"
  {
    BuildPromptGreeting(Destructure(map[]), c);
  }
}
