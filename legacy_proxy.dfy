/**
 * The older, non-streaming chat endpoint (`api/chat-proxy.js`): one OpenRouter
 * completion whose parsed JSON is sent back whole. It checks the key before the
 * question and does not look at the HTTP method at all.
 */
module LegacyProxy {
  import opened Wrappers
  import opened JsStrings
  import opened HttpResponse

  /**
   * The parts of the request the handler reads: the method (never looked at), the fields of
   * the body, which is an object, and the Referer header.
   */
  datatype Request = Request(httpMethod: string, question: Option<string>, resumeData: Option<string>, referer: Option<string>)

  /** What the upstream call turns out to be. */
  datatype Upstream =
    | Rejects(message: string)   // `fetch` or `response.json()` rejects with an error
    | NotOk(statusText: string)  // `!response.ok`
    | Ok(document: string)       // the parsed completion

  /** The one upstream request: bearer key, HTTP-Referer header, system message and user message. */
  datatype Call = Call(apiKey: string, referer: string, system: string, user: string)

  datatype Outcome = Outcome(res: Snapshot, call: Option<Call>)

  const MissingKeyMessage := "API key not configured on the server. Contact the site administrator."
  const FallbackMessage := "Failed to process request."
  const NoQuestion := "No question provided."
  const UpstreamErrorPrefix := "OpenRouter API error: "
  const DefaultReferer := "https://jessearmand.com"

  /** A template literal's rendering of a value that may be `undefined`. */
  function Interpolate(v: Option<string>): string {
    v.GetOr("undefined")
  }

  const SystemPreamble := "As a critical and smart thinker, provide answer and consultation to questions based on the following resume: "

  function SystemMessage(resumeData: Option<string>): string {
    SystemPreamble + Interpolate(resumeData)
  }

  /** The default-exported `handler`; `apiKey` is OPENROUTER_API_KEY. */
  function Handle(s: Snapshot, req: Request, apiKey: Option<string>, up: Upstream): Outcome {
    if !Truthy(apiKey) then
      Outcome(OnStatusJson(s, 500, ErrorJson(MissingKeyMessage)), None)
    else if !Truthy(req.question) then
      Outcome(OnStatusJson(s, 400, ErrorJson(NoQuestion)), None)
    else
      var call := Call(apiKey.value, Or(req.referer, DefaultReferer),
                       SystemMessage(req.resumeData), req.question.value);
      match up
      case Rejects(m) => Outcome(OnStatusJson(s, 500, ErrorJson(if m == "" then FallbackMessage else m)), Some(call))
      case NotOk(statusText) => Outcome(OnStatusJson(s, 500, ErrorJson(UpstreamErrorPrefix + statusText)), Some(call))
      case Ok(document) => Outcome(OnStatusJson(s, 200, Relayed(document)), Some(call))
  }

  method HandleRequest(res: Response, req: Request, apiKey: Option<string>, up: Upstream) returns (call: Option<Call>)
    modifies res
    ensures Outcome(res.State(), call) == Handle(old(res.State()), req, apiKey, up)
  {
    if !Truthy(apiKey) {
      res.StatusJson(500, ErrorJson(MissingKeyMessage));
      return None;
    }
    if !Truthy(req.question) {
      res.StatusJson(400, ErrorJson(NoQuestion));
      return None;
    }
    call := Some(Call(apiKey.value, Or(req.referer, DefaultReferer),
                      SystemMessage(req.resumeData), req.question.value));
    match up
    case Rejects(m) =>
      res.StatusJson(500, ErrorJson(if m == "" then FallbackMessage else m));
    case NotOk(statusText) =>
      res.StatusJson(500, ErrorJson(UpstreamErrorPrefix + statusText));
    case Ok(document) =>
      res.StatusJson(200, Relayed(document));
  }

  /** Without a key the answer is 500, whatever the question and the method. */
  lemma KeyCheckedFirst(req: Request, apiKey: Option<string>, up: Upstream)
    requires !Truthy(apiKey)
    ensures var o := Handle(Initial, req, apiKey, up);
      JsonOnly(o.res, 500, ErrorJson(MissingKeyMessage)) && o.call == None
  {
  }

  lemma MissingQuestionIsRejected(req: Request, apiKey: Option<string>, up: Upstream)
    requires Truthy(apiKey) && !Truthy(req.question)
    ensures var o := Handle(Initial, req, apiKey, up);
      JsonOnly(o.res, 400, ErrorJson(NoQuestion)) && o.call == None
  {
  }

  /** With a key and a question, any method reaches the upstream call, which carries the question unchanged. */
  lemma NoMethodCheck(req: Request, apiKey: Option<string>, up: Upstream)
    requires Truthy(apiKey) && Truthy(req.question)
    ensures var o := Handle(Initial, req, apiKey, up);
      o.call.Some? && o.call.value.apiKey == apiKey.value && o.call.value.user == req.question.value
    ensures forall m :: Handle(Initial, req.(httpMethod := m), apiKey, up) == Handle(Initial, req, apiKey, up)
  {
  }

  /** The upstream outcome decides the answer: a failure is a 500 with its message, success relays the document. */
  lemma UpstreamDecides(req: Request, apiKey: Option<string>, up: Upstream)
    requires Truthy(apiKey) && Truthy(req.question)
    ensures var o := Handle(Initial, req, apiKey, up);
      match up
      case Rejects(m) => JsonOnly(o.res, 500, ErrorJson(if m == "" then FallbackMessage else m))
      case NotOk(statusText) => JsonOnly(o.res, 500, ErrorJson(UpstreamErrorPrefix + statusText))
      case Ok(document) => JsonOnly(o.res, 200, Relayed(document))
  {
  }

  /** Every path sends exactly one response. */
  lemma ExactlyOneResponse(req: Request, apiKey: Option<string>, up: Upstream)
    ensures var r := Handle(Initial, req, apiKey, up).res;
      r.json.Some? && JsonOnly(r, r.statusCode, r.json.value)
  {
  }
}
