/**
 * The decision logic of `chatbot_response` in chatbot/views.py. The call to
 * the completion service is the parameter `upstream`: it maps the request the
 * handler sends to what the service does with it, either a completion with its
 * list of choices or an exception with its text (`str(e)`). The handler's
 * result also records the requests it sent, so that what reaches the service
 * can be stated.
 */
module Views {
  import opened Wrappers
  import opened Text

  const ApiKeyMissingError := "OpenAI API key not found in environment variables"
  const QuotaExceededError := "OpenAI API quota exceeded. Please check your billing status."
  /** The marker that sorts an upstream error into the quota case. */
  const QuotaMarker := "insufficient_quota"
  const ModelName := "gpt-3.5-turbo"
  const SystemPrompt := "You are a helpful assistant."
  /** `str(e)` of the IndexError that `choices[0]` raises on an empty list. */
  const EmptyChoicesError := "list index out of range"

  /** One `{"role": …, "content": …}` entry of the prompt. */
  datatype PromptEntry = PromptEntry(role: string, content: string)

  /** The arguments of `client.chat.completions.create`. */
  datatype CompletionRequest = CompletionRequest(model: string, messages: seq<PromptEntry>)

  /** What the completion call does: return the contents of its choices, in
      order, or raise an exception whose text is `errorText`. */
  datatype UpstreamOutcome = Completed(choices: seq<string>) | Raised(errorText: string)

  /** A `JsonResponse`: its status and its JSON object. */
  datatype Response = Response(status: int, body: map<string, string>)

  /** The handler's response together with the requests it sent upstream. */
  datatype Exchange = Exchange(response: Response, sent: seq<CompletionRequest>)

  /** `request.data.get("message", "")`. */
  function UserMessage(body: map<string, string>): (r: string)
    ensures "message" in body ==> r == body["message"]
    ensures "message" !in body ==> r == ""
  {
    if "message" in body then body["message"] else ""
  }

  /** `os.getenv('OPENAI_API_KEY')` is truthy: set, and not the empty string. */
  function KeyConfigured(apiKey: Option<string>): (b: bool)
    ensures b ==> apiKey.Some?
    ensures apiKey == None ==> !b
    ensures apiKey == Some("") ==> !b
    ensures forall k :: apiKey == Some(k) && k != "" ==> b
  {
    apiKey.Some? && apiKey.value != ""
  }

  /** The request the handler sends for `userMessage`. */
  function BuildRequest(userMessage: string): (r: CompletionRequest)
    ensures r.model == ModelName && |r.messages| == 2
    ensures r.messages[0] == PromptEntry("system", SystemPrompt)
    ensures r.messages[1].role == "user" && r.messages[1].content == userMessage
  {
    CompletionRequest(ModelName, [PromptEntry("system", SystemPrompt), PromptEntry("user", userMessage)])
  }

  /** The `except` branch: an error naming the quota marker becomes the fixed
      billing message with status 429; any other error is passed on verbatim
      with status 500. */
  function ErrorResponse(errorMessage: string): (r: Response)
    ensures r.body.Keys == {"error"}
    ensures r.status == 429 || r.status == 500
  {
    if Contains(errorMessage, QuotaMarker) then Response(429, map["error" := QuotaExceededError])
    else Response(500, map["error" := errorMessage])
  }

  /** What the `try` block makes of the upstream outcome. Reading
      `choices[0]` of an empty list raises inside the `try`, so that case
      takes the `except` branch as well. */
  function HandleOutcome(outcome: UpstreamOutcome): (r: Response)
    ensures r.status == 200 <==> outcome.Completed? && |outcome.choices| > 0
    ensures r.status == 200 ==> r.body == map["response" := outcome.choices[0]]
    ensures outcome.Raised? ==> r == ErrorResponse(outcome.errorText)
    ensures outcome == Completed([]) ==> r == ErrorResponse(EmptyChoicesError)
  {
    match outcome
    case Completed(choices) =>
      if |choices| == 0 then ErrorResponse(EmptyChoicesError)
      else Response(200, map["response" := choices[0]])
    case Raised(errorText) => ErrorResponse(errorText)
  }

  /** `chatbot_response`: the key guard, then one upstream call with the
      two-entry prompt, then the outcome turned into a JSON response. */
  function ChatbotResponse(apiKey: Option<string>, body: map<string, string>,
                           upstream: CompletionRequest -> UpstreamOutcome): (r: Exchange)
    ensures r.response.status in {200, 429, 500}
    ensures |r.sent| == if KeyConfigured(apiKey) then 1 else 0
    ensures r.response.status == 200 <==>
      KeyConfigured(apiKey) && upstream(BuildRequest(UserMessage(body))).Completed?
      && |upstream(BuildRequest(UserMessage(body))).choices| > 0
    ensures r.response.body.Keys == if r.response.status == 200 then {"response"} else {"error"}
  {
    if !KeyConfigured(apiKey) then
      Exchange(Response(500, map["error" := ApiKeyMissingError]), [])
    else
      var request := BuildRequest(UserMessage(body));
      Exchange(HandleOutcome(upstream(request)), [request])
  }

  /** Without an API key the handler answers 500 with the fixed message and
      sends nothing upstream. */
  lemma MissingKeyGuard(apiKey: Option<string>, body: map<string, string>,
                        upstream: CompletionRequest -> UpstreamOutcome)
    requires !KeyConfigured(apiKey)
    ensures ChatbotResponse(apiKey, body, upstream) ==
      Exchange(Response(500, map["error" := ApiKeyMissingError]), [])
  {
  }

  /** Without an API key the upstream service is never consulted: the
      result is the same whatever the service would have done. */
  lemma MissingKeyIgnoresUpstream(apiKey: Option<string>, body: map<string, string>,
                                  upstream1: CompletionRequest -> UpstreamOutcome,
                                  upstream2: CompletionRequest -> UpstreamOutcome)
    requires !KeyConfigured(apiKey)
    ensures ChatbotResponse(apiKey, body, upstream1) == ChatbotResponse(apiKey, body, upstream2)
  {
  }

  /** With an API key the handler calls upstream exactly once, with the
      chat model and exactly two prompt entries: the fixed system
      instruction, then the user's text. */
  lemma SingleUpstreamRequest(apiKey: Option<string>, body: map<string, string>,
                              upstream: CompletionRequest -> UpstreamOutcome)
    requires KeyConfigured(apiKey)
    ensures var r := ChatbotResponse(apiKey, body, upstream);
      && |r.sent| == 1
      && r.sent[0].model == ModelName
      && r.sent[0].messages == [PromptEntry("system", SystemPrompt),
                                PromptEntry("user", if "message" in body then body["message"] else "")]
      && r.response == HandleOutcome(upstream(r.sent[0]))
  {
  }

  /** A body without "message", or with an empty one, is not rejected: the
      empty string is forwarded as the user's content. */
  lemma EmptyMessageForwarded(apiKey: Option<string>, body: map<string, string>,
                              upstream: CompletionRequest -> UpstreamOutcome)
    requires KeyConfigured(apiKey)
    requires "message" !in body || body["message"] == ""
    ensures var r := ChatbotResponse(apiKey, body, upstream);
      |r.sent| == 1 && r.sent[0].messages[1] == PromptEntry("user", "")
  {
  }

  /** On success the first choice's content is returned with the default
      status 200. */
  lemma SuccessPassesThrough(apiKey: Option<string>, body: map<string, string>,
                             upstream: CompletionRequest -> UpstreamOutcome, choices: seq<string>)
    requires KeyConfigured(apiKey)
    requires upstream(BuildRequest(UserMessage(body))) == Completed(choices)
    requires |choices| > 0
    ensures ChatbotResponse(apiKey, body, upstream).response == Response(200, map["response" := choices[0]])
  {
  }

  /** A completion without choices fails at `choices[0]`; the IndexError is
      caught like any other error and reported with status 500. */
  lemma EmptyChoicesIsServerError(apiKey: Option<string>, body: map<string, string>,
                                  upstream: CompletionRequest -> UpstreamOutcome)
    requires KeyConfigured(apiKey)
    requires upstream(BuildRequest(UserMessage(body))) == Completed([])
    ensures ChatbotResponse(apiKey, body, upstream).response == Response(500, map["error" := EmptyChoicesError])
  {
    // The marker has an underscore and the IndexError text has none.
    assert QuotaMarker[12] == '_';
    assert '_' !in EmptyChoicesError;
    forall i ensures !OccursAt(EmptyChoicesError, QuotaMarker, i) {
      if OccursAt(EmptyChoicesError, QuotaMarker, i) {
        OccursAtChars(EmptyChoicesError, QuotaMarker, i);
        assert false;
      }
    }
    ContainsIff(EmptyChoicesError, QuotaMarker);
  }

  /** An upstream error whose text contains "insufficient_quota" anywhere
      gives 429 and the fixed billing message, never the raw error text. */
  lemma QuotaErrorIsTooManyRequests(apiKey: Option<string>, body: map<string, string>,
                                    upstream: CompletionRequest -> UpstreamOutcome, errorText: string, i: int)
    requires KeyConfigured(apiKey)
    requires upstream(BuildRequest(UserMessage(body))) == Raised(errorText)
    requires OccursAt(errorText, QuotaMarker, i)
    ensures ChatbotResponse(apiKey, body, upstream).response == Response(429, map["error" := QuotaExceededError])
  {
    ContainsAt(errorText, QuotaMarker, i);
  }

  /** Any other upstream error gives 500 and `str(e)` verbatim. */
  lemma OtherErrorIsServerError(apiKey: Option<string>, body: map<string, string>,
                                upstream: CompletionRequest -> UpstreamOutcome, errorText: string)
    requires KeyConfigured(apiKey)
    requires upstream(BuildRequest(UserMessage(body))) == Raised(errorText)
    requires forall i :: !OccursAt(errorText, QuotaMarker, i)
    ensures ChatbotResponse(apiKey, body, upstream).response == Response(500, map["error" := errorText])
  {
    ContainsIff(errorText, QuotaMarker);
  }

  /** The error classification in one statement: status 429 exactly when
      the marker occurs in the error text. */
  lemma ErrorStatusIff(errorMessage: string)
    ensures ErrorResponse(errorMessage).status == 429 <==> exists i :: OccursAt(errorMessage, QuotaMarker, i)
  {
    ContainsIff(errorMessage, QuotaMarker);
  }
}
