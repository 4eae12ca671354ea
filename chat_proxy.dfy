/**
 * The streaming chat endpoint (`api/chat-proxy.ts`). A POST carrying a
 * `question` is answered by relaying an upstream chat completion as a
 * Server-Sent Events stream (section 9.2 of the WHATWG HTML Living Standard):
 * either one OpenAI stream with web search, or an OpenRouter stream followed by
 * a best-effort x.ai live-search stream in the same response.
 *
 * The network is replaced by the outcome each upstream call turns out to have
 * (`Upstream`), the environment by an `Env` value and the two markdown pages by
 * their contents. Each function of the source is modelled twice: as a pure
 * function from the response's state to its new state (`Handle`,
 * `OpenaiWebSearch`, `OpenRouterXai`, `XaiSearch`), about which the lemmas at
 * the end are proved, and as a method that drives a `Response` object step by
 * step and is proved to reach exactly that state.
 */
module ChatProxy {
  import opened Wrappers
  import opened JsStrings
  import opened HttpResponse
  import ResumeContext

  /**
   * The parts of the request the handler reads. The body is an object; `question` is `None`
   * when it lacks a truthy string field of that name.
   */
  datatype Request = Request(httpMethod: string, question: Option<string>)

  /** The process environment: SEARCH_PROVIDER and the three API keys. */
  datatype Env = Env(
    searchProvider: Option<string>,
    openaiKey: Option<string>,
    openRouterKey: Option<string>,
    xaiKey: Option<string>)

  /** What one upstream `fetch` turns out to be. */
  datatype Upstream =
    | Rejects(message: string)                              // the fetch itself rejects with an error
    | NotOk(statusText: string, text: string)               // `!res.ok || !res.body`; `text` is what `res.text()` gives
    | Ok(chunks: seq<string>, streamError: Option<string>)  // the body yields `chunks`, then ends, or fails with a message

  /**
   * Everything a request meets besides itself and the résumé text: the
   * environment, and the outcome of the primary call (OpenAI or OpenRouter,
   * whichever the provider setting picks) and of the secondary x.ai call.
   */
  datatype World = World(env: Env, primary: Upstream, secondary: Upstream)

  datatype Provider = OpenAI | OpenRouter | Xai

  /** One upstream request: where it went, the bearer key it carried, and its prompt. */
  datatype Call = Call(provider: Provider, apiKey: string, prompt: string)

  /** Where a streaming function leaves things: the response, the calls it made, and the error it throws, if any. */
  datatype Stage = Stage(res: Snapshot, calls: seq<Call>, thrown: Option<string>)

  /** Where the handler leaves things. */
  datatype Outcome = Outcome(res: Snapshot, calls: seq<Call>)

  const DefaultProvider := "openai_web_search"
  const DualProvider := "openrouter_xai"

  /** `process.env.SEARCH_PROVIDER || 'openai_web_search'`. */
  function SearchProvider(env: Env): string {
    Or(env.searchProvider, DefaultProvider)
  }

  /** The line written between the two providers' streams, as the source spells it (`n\n`, not a blank line). */
  const Separator := "data: {\"choices\":[{\"delta\":{\"content\":\"<br><hr><br>\"}}]}n\n"

  const FallbackMessage := "Failed to process request."
  const MethodNotAllowed := "Method Not Allowed"
  const NoQuestion := "No question provided."
  const OpenaiKeyMissing := "OpenAI API key not configured."
  const OpenRouterKeyMissing := "OpenRouter API key not configured."
  const OpenaiErrorPrefix := "OpenAI API error: "
  const OpenRouterErrorPrefix := "OpenRouter API error: "
  const StreamingErrorPrefix := "data: {\"error\":\"Streaming Error: "
  const OpenRouterStreamErrorPrefix := "data: {\"error\":\"OpenRouter stream error: "
  const EventErrorSuffix := "\"}\n\n"

  function StreamingErrorEvent(message: string): string {
    StreamingErrorPrefix + message + EventErrorSuffix
  }

  function OpenRouterErrorEvent(message: string): string {
    OpenRouterStreamErrorPrefix + message + EventErrorSuffix
  }

  const Instruction := "Be concise, critical, but helpful to answer the question given: "
  const ResumeHeading := "\n\n---\nRésumé for context:\n"
  const XaiSuffix := " @jessearmand on X and github"

  /** The prompt sent to OpenAI and to OpenRouter. */
  function Prompt(question: string, resume: string): string {
    Instruction + question + ResumeHeading + resume
  }

  /** The prompt sent to x.ai, which gets no résumé. */
  function XaiPrompt(question: string): string {
    Instruction + question + XaiSuffix
  }

  /** `streamOpenaiWebSearch`. */
  function OpenaiWebSearch(s: Snapshot, env: Env, question: string, resume: string, up: Upstream): Stage {
    if !Truthy(env.openaiKey) then
      Stage(OnStatusJson(s, 500, ErrorJson(OpenaiKeyMissing)), [], None)
    else
      var calls := [Call(OpenAI, env.openaiKey.value, Prompt(question, resume))];
      match up
      case Rejects(m) => Stage(s, calls, Some(m))
      case NotOk(statusText, text) => Stage(s, calls, Some(OpenaiErrorPrefix + statusText + " - " + text))
      case Ok(chunks, err) =>
        var relayed := OnWrites(OnWriteHead(s, 200, SseHeaders), chunks);
        var reported := if err.Some? then OnWrite(relayed, StreamingErrorEvent(err.value)) else relayed;
        Stage(OnEnd(reported), calls, None)
  }

  /** `streamXaiSearch`: the secondary stage, which ends the response itself. */
  function XaiSearch(s: Snapshot, env: Env, question: string, up: Upstream): Stage {
    if !Truthy(env.xaiKey) then Stage(OnEnd(s), [], None)
    else
      var calls := [Call(Xai, env.xaiKey.value, XaiPrompt(question))];
      match up
      case Rejects(m) => Stage(s, calls, Some(m))
      case NotOk(_, _) => Stage(OnEnd(s), calls, None)
      case Ok(chunks, _) => Stage(OnEnd(OnWrites(s, chunks)), calls, None)
  }

  /** `streamOpenRouterXai`. */
  function OpenRouterXai(s: Snapshot, w: World, question: string, resume: string): Stage {
    if !Truthy(w.env.openRouterKey) then
      Stage(OnStatusJson(s, 500, ErrorJson(OpenRouterKeyMissing)), [], None)
    else
      var calls := [Call(OpenRouter, w.env.openRouterKey.value, Prompt(question, resume))];
      match w.primary
      case Rejects(m) => Stage(s, calls, Some(m))
      case NotOk(statusText, _) => Stage(s, calls, Some(OpenRouterErrorPrefix + statusText))
      case Ok(chunks, err) =>
        var relayed := OnWrites(OnWriteHead(s, 200, SseHeaders), chunks);
        if err.Some? then
          Stage(OnEnd(OnWrite(relayed, OpenRouterErrorEvent(err.value))), calls, None)
        else
          var second := XaiSearch(OnWrite(relayed, Separator), w.env, question, w.secondary);
          Stage(second.res, calls + second.calls, second.thrown)
  }

  /**
   * The `try`/`catch` of `handler`: stream from the configured provider, and
   * answer an error thrown on the way with a 500 only while the response is
   * not ended.
   */
  function Dispatch(s: Snapshot, w: World, question: string, resume: string): Outcome {
    var st :=
      if SearchProvider(w.env) == DualProvider then OpenRouterXai(s, w, question, resume)
      else OpenaiWebSearch(s, w.env, question, resume, w.primary);
    match st.thrown
    case None => Outcome(st.res, st.calls)
    case Some(m) =>
      var guarded := if !st.res.ended then OnStatusJson(st.res, 500, ErrorJson(if m == "" then FallbackMessage else m))
                     else st.res;
      Outcome(guarded, st.calls)
  }

  /**
   * The default-exported `handler`; `resume` is what `getResumeData` gives
   * (`ResumeContext.ResumeData`).
   */
  function Handle(s: Snapshot, req: Request, w: World, resume: string): Outcome {
    if req.httpMethod != "POST" then
      Outcome(OnStatusJson(s, 405, ErrorJson(MethodNotAllowed)), [])
    else if !Truthy(req.question) then
      Outcome(OnStatusJson(s, 400, ErrorJson(NoQuestion)), [])
    else Dispatch(s, w, req.question.value, resume)
  }

  // ---------------------------------------------------------------------------
  // The handler as it runs: methods that change a Response step by step.

  method StreamOpenaiWebSearch(res: Response, env: Env, question: string, resume: string, up: Upstream)
    returns (calls: seq<Call>, thrown: Option<string>)
    modifies res
    ensures Stage(res.State(), calls, thrown) == OpenaiWebSearch(old(res.State()), env, question, resume, up)
  {
    if !Truthy(env.openaiKey) {
      res.StatusJson(500, ErrorJson(OpenaiKeyMissing));
      return [], None;
    }
    calls, thrown := [Call(OpenAI, env.openaiKey.value, Prompt(question, resume))], None;
    match up
    case Rejects(m) =>
      thrown := Some(m);
    case NotOk(statusText, text) =>
      thrown := Some(OpenaiErrorPrefix + statusText + " - " + text);
    case Ok(chunks, err) =>
      res.WriteHead(200, SseHeaders);
      res.Relay(chunks);
      if err.Some? {
        res.Write(StreamingErrorEvent(err.value));
      }
      res.End();
  }

  method StreamXaiSearch(res: Response, env: Env, question: string, up: Upstream)
    returns (calls: seq<Call>, thrown: Option<string>)
    modifies res
    ensures Stage(res.State(), calls, thrown) == XaiSearch(old(res.State()), env, question, up)
  {
    if !Truthy(env.xaiKey) {
      res.End();
      return [], None;
    }
    calls, thrown := [Call(Xai, env.xaiKey.value, XaiPrompt(question))], None;
    match up
    case Rejects(m) =>
      thrown := Some(m);
    case NotOk(_, _) =>
      res.End();
    case Ok(chunks, _) =>
      res.Relay(chunks);
      res.End();
  }

  method StreamOpenRouterXai(res: Response, w: World, question: string, resume: string)
    returns (calls: seq<Call>, thrown: Option<string>)
    modifies res
    ensures Stage(res.State(), calls, thrown) == OpenRouterXai(old(res.State()), w, question, resume)
  {
    if !Truthy(w.env.openRouterKey) {
      res.StatusJson(500, ErrorJson(OpenRouterKeyMissing));
      return [], None;
    }
    calls, thrown := [Call(OpenRouter, w.env.openRouterKey.value, Prompt(question, resume))], None;
    match w.primary
    case Rejects(m) =>
      thrown := Some(m);
    case NotOk(statusText, _) =>
      thrown := Some(OpenRouterErrorPrefix + statusText);
    case Ok(chunks, err) =>
      res.WriteHead(200, SseHeaders);
      res.Relay(chunks);
      if err.Some? {
        res.Write(OpenRouterErrorEvent(err.value));
        res.End();
        return;
      }
      res.Write(Separator);
      var more;
      more, thrown := StreamXaiSearch(res, w.env, question, w.secondary);
      calls := calls + more;
  }

  method DispatchStream(res: Response, w: World, question: string, resume: string) returns (calls: seq<Call>)
    modifies res
    ensures Outcome(res.State(), calls) == Dispatch(old(res.State()), w, question, resume)
  {
    var thrown: Option<string>;
    if SearchProvider(w.env) == DualProvider {
      calls, thrown := StreamOpenRouterXai(res, w, question, resume);
    } else {
      calls, thrown := StreamOpenaiWebSearch(res, w.env, question, resume, w.primary);
    }
    if thrown.Some? && !res.ended {
      res.StatusJson(500, ErrorJson(if thrown.value == "" then FallbackMessage else thrown.value));
    }
  }

  /** The handler; `about` and `summary` are the two pages' contents, `None` where the read fails. */
  method HandleRequest(res: Response, req: Request, w: World, about: Option<string>, summary: Option<string>)
    returns (calls: seq<Call>)
    modifies res
    ensures Outcome(res.State(), calls) == Handle(old(res.State()), req, w, ResumeContext.ResumeData(about, summary))
  {
    if req.httpMethod != "POST" {
      res.StatusJson(405, ErrorJson(MethodNotAllowed));
      return [];
    }
    if !Truthy(req.question) {
      res.StatusJson(400, ErrorJson(NoQuestion));
      return [];
    }
    var resume := ResumeContext.ResumeData(about, summary);
    calls := DispatchStream(res, w, req.question.value, resume);
  }

  // ---------------------------------------------------------------------------
  // What a request gets, starting from a fresh response.

  predicate ValidRequest(req: Request) {
    req.httpMethod == "POST" && Truthy(req.question)
  }

  predicate UsesDualProvider(env: Env) {
    SearchProvider(env) == DualProvider
  }

  /** The key the selected strategy needs before it makes any call. */
  function PrimaryKey(env: Env): Option<string> {
    if UsesDualProvider(env) then env.openRouterKey else env.openaiKey
  }

  /** The request was answered as an event stream carrying `events`, ended exactly once, nothing refused. */
  predicate StreamedOnce(r: Snapshot, events: seq<string>) {
    r.statusCode == 200 && r.headers == SseHeaders && r.json == None && r.events == events
    && r.ended && r.endCount == 1 && r.refused == 0
  }

  /** The first upstream call the request makes, given that it makes one. */
  function PrimaryCall(req: Request, w: World, resume: string): Call
    requires ValidRequest(req) && Truthy(PrimaryKey(w.env))
  {
    Call(if UsesDualProvider(w.env) then OpenRouter else OpenAI, PrimaryKey(w.env).value, Prompt(req.question.value, resume))
  }

  /** The message of the 500 answer when the primary call fails before any header is written. */
  function PrimaryErrorMessage(dual: bool, up: Upstream): string
    requires !up.Ok?
  {
    match up
    case Rejects(m) => if m == "" then FallbackMessage else m
    case NotOk(statusText, text) =>
      if dual then OpenRouterErrorPrefix + statusText else OpenaiErrorPrefix + statusText + " - " + text
  }

  lemma NonPostIsRejected(req: Request, w: World, resume: string)
    requires req.httpMethod != "POST"
    ensures var o := Handle(Initial, req, w, resume);
      JsonOnly(o.res, 405, ErrorJson(MethodNotAllowed)) && o.calls == []
  {
  }

  lemma MissingQuestionIsRejected(req: Request, w: World, resume: string)
    requires req.httpMethod == "POST" && !Truthy(req.question)
    ensures var o := Handle(Initial, req, w, resume);
      JsonOnly(o.res, 400, ErrorJson(NoQuestion)) && o.calls == []
  {
  }

  /**
   * The dual path is taken exactly when SEARCH_PROVIDER is `openrouter_xai`;
   * any other value, or none, sends the question to OpenAI.
   */
  lemma ProviderRouting(req: Request, w: World, resume: string)
    requires ValidRequest(req)
    ensures UsesDualProvider(w.env) <==> w.env.searchProvider == Some(DualProvider)
    ensures var o := Handle(Initial, req, w, resume);
      && (o.calls != [] <==> Truthy(PrimaryKey(w.env)))
      && (o.calls != [] ==> o.calls[0] == PrimaryCall(req, w, resume))
      && (!UsesDualProvider(w.env) ==> forall c | c in o.calls :: c.provider == OpenAI)
  {
  }

  /** Without the selected provider's key the answer is a 500 JSON error and nothing is fetched. */
  lemma MissingKeyIsServerError(req: Request, w: World, resume: string)
    requires ValidRequest(req) && !Truthy(PrimaryKey(w.env))
    ensures var o := Handle(Initial, req, w, resume);
      && o.calls == []
      && JsonOnly(o.res, 500, ErrorJson(
           if UsesDualProvider(w.env) then OpenRouterKeyMissing else OpenaiKeyMissing))
  {
  }

  /** A failed primary call is answered with a 500 JSON error carrying its message; no stream is opened. */
  lemma PrimaryFailureIsServerError(req: Request, w: World, resume: string)
    requires ValidRequest(req) && Truthy(PrimaryKey(w.env)) && !w.primary.Ok?
    ensures var o := Handle(Initial, req, w, resume);
      && o.calls == [PrimaryCall(req, w, resume)]
      && JsonOnly(o.res, 500, ErrorJson(PrimaryErrorMessage(UsesDualProvider(w.env), w.primary)))
  {
  }

  /**
   * The single-provider path relays the upstream chunks in order, adds one
   * error event after them if the stream fails, and ends the response once.
   */
  lemma SingleSearchRelay(req: Request, w: World, resume: string)
    requires ValidRequest(req) && !UsesDualProvider(w.env) && Truthy(w.env.openaiKey) && w.primary.Ok?
    ensures var o := Handle(Initial, req, w, resume);
      && o.calls == [PrimaryCall(req, w, resume)]
      && StreamedOnce(o.res, w.primary.chunks +
           if w.primary.streamError.Some? then [StreamingErrorEvent(w.primary.streamError.value)] else [])
  {
    OnWritesAppends(OnWriteHead(Initial, 200, SseHeaders), w.primary.chunks);
  }

  /** On the dual path a failing OpenRouter stream ends the response after one error event; x.ai is never called. */
  lemma DualPrimaryStreamError(req: Request, w: World, resume: string)
    requires ValidRequest(req) && UsesDualProvider(w.env) && Truthy(w.env.openRouterKey)
    requires w.primary.Ok? && w.primary.streamError.Some?
    ensures var o := Handle(Initial, req, w, resume);
      && o.calls == [PrimaryCall(req, w, resume)]
      && StreamedOnce(o.res, w.primary.chunks + [OpenRouterErrorEvent(w.primary.streamError.value)])
  {
    OnWritesAppends(OnWriteHead(Initial, 200, SseHeaders), w.primary.chunks);
  }

  /** The chunks the secondary stage relays when its fetch does not reject. */
  function SecondaryChunks(w: World): seq<string> {
    if Truthy(w.env.xaiKey) && w.secondary.Ok? then w.secondary.chunks else []
  }

  /** The secondary fetch rejects: the one path on which the catch block sees a started, unended stream. */
  predicate SecondaryFetchRejects(req: Request, w: World) {
    && ValidRequest(req) && UsesDualProvider(w.env) && Truthy(w.env.openRouterKey)
    && w.primary.Ok? && w.primary.streamError.None?
    && Truthy(w.env.xaiKey) && w.secondary.Rejects?
  }

  /**
   * When the OpenRouter stream completes, the body is its chunks, then the
   * separator, then whatever x.ai streams; a missing x.ai key, a non-OK x.ai
   * answer or a failing x.ai stream end the response quietly.
   */
  lemma DualRelayOrder(req: Request, w: World, resume: string)
    requires ValidRequest(req) && UsesDualProvider(w.env) && Truthy(w.env.openRouterKey)
    requires w.primary.Ok? && w.primary.streamError.None? && !SecondaryFetchRejects(req, w)
    ensures var o := Handle(Initial, req, w, resume);
      && o.calls == [PrimaryCall(req, w, resume)] +
           (if Truthy(w.env.xaiKey) then [Call(Xai, w.env.xaiKey.value, XaiPrompt(req.question.value))] else [])
      && StreamedOnce(o.res, w.primary.chunks + [Separator] + SecondaryChunks(w))
  {
    var relayed := OnWrites(OnWriteHead(Initial, 200, SseHeaders), w.primary.chunks);
    OnWritesAppends(OnWriteHead(Initial, 200, SseHeaders), w.primary.chunks);
    OnWritesAppends(OnWrite(relayed, Separator), SecondaryChunks(w));
  }

  /**
   * A rejected x.ai fetch escapes to the handler's catch block, whose guard
   * tests `writableEnded`: it tries to send a 500 JSON body after the SSE
   * headers went out (refused), and nothing ever ends the response.
   */
  lemma SecondaryFetchRejectionLeavesStreamOpen(req: Request, w: World, resume: string)
    requires SecondaryFetchRejects(req, w)
    ensures var o := Handle(Initial, req, w, resume);
      && o.res.statusCode == 200 && o.res.headers == SseHeaders && o.res.json == None
      && o.res.events == w.primary.chunks + [Separator]
      && !o.res.ended && o.res.endCount == 0 && o.res.refused == 1
  {
    OnWritesAppends(OnWriteHead(Initial, 200, SseHeaders), w.primary.chunks);
  }

  /**
   * Every request is answered by exactly one end of the response with no call
   * refused, except when the secondary fetch rejects; never is it ended twice.
   */
  lemma EndsExactlyOnce(req: Request, w: World, resume: string)
    ensures var o := Handle(Initial, req, w, resume);
      && o.res.endCount <= 1
      && (o.res.endCount == 1 && o.res.refused == 0 <==> !SecondaryFetchRejects(req, w))
  {
    if !ValidRequest(req) {
    } else if !Truthy(PrimaryKey(w.env)) {
      MissingKeyIsServerError(req, w, resume);
    } else if !w.primary.Ok? {
      PrimaryFailureIsServerError(req, w, resume);
    } else if !UsesDualProvider(w.env) {
      SingleSearchRelay(req, w, resume);
    } else if w.primary.streamError.Some? {
      DualPrimaryStreamError(req, w, resume);
    } else if SecondaryFetchRejects(req, w) {
      SecondaryFetchRejectionLeavesStreamOpen(req, w, resume);
    } else {
      DualRelayOrder(req, w, resume);
    }
  }
}
