/**
 * The request handler's decisions: which checks a request passes, in which
 * order, what it is answered and whether the completion endpoint is asked.
 * The endpoint is a function from the prompt to what the call produced; the
 * answer records the prompt it was given, if any, so that "the endpoint is
 * not called" is a statement about the answer.
 */
module Handler {
  import opened Wrappers
  import opened JsValues
  import opened Prompt
  import opened Extraction

  /** The JSON body fields; `duration` is already the outcome of `parseInt` (`None` for NaN). */
  datatype RequestBody = RequestBody(
    topic: Option<string>,
    description: Option<string>,
    duration: Option<int>,
    format: Option<string>,
    tone: Option<string>)

  /** An HTTP request: its method (`req.method`) and its parsed body. */
  datatype Request = Request(verb: string, body: RequestBody)

  /** The JSON body of an answer, or none at all. */
  datatype Payload =
    | NoBody
    | Failure(error: string)
    | ConfigFailure(error: string, message: string)
    | UpstreamFailure(error: string, details: string)
    | Script(result: string)

  datatype Response = Response(status: int, payload: Payload)

  /** An HTTP status that the fetch API does not call `ok` (outside 200-299). */
  type FailureStatus = s: int | !(200 <= s < 300) witness 500

  /**
   * What the call to the completion endpoint produced: an exception (the
   * network failed, a body was not JSON, or an ok reply's `content` was not
   * iterable), a non-ok reply with its parsed error body, or an ok reply with
   * its content blocks. A `content` string is iterated character by
   * character; no character has a `type`, so it is `Delivered` of blocks of
   * neither type and gives the empty result.
   */
  datatype Upstream =
    | Threw(message: string)
    | Rejected(status: FailureStatus, details: string)
    | Delivered(content: seq<Block>)

  /** The answer, and the prompt sent to the endpoint if it was called. */
  datatype Outcome = Outcome(response: Response, sent: Option<string>)

  const MethodNotAllowed := "Method not allowed"
  const TopicRequired := "Topic is required"
  const KeyNotConfigured := "API key not configured"
  const KeyGuidance := "Please set MINIMAX_API_KEY in Vercel environment variables"
  const RequestFailed := "API request failed"

  /** The requests for which the handler calls the completion endpoint. */
  predicate ReachesUpstream(req: Request, apiKey: Option<string>) {
    req.verb == "POST" && Truthy(req.body.topic) && Truthy(apiKey)
  }

  /** The prompt a request that reaches the endpoint is turned into. */
  function RequestPrompt(body: RequestBody): string
    requires Truthy(body.topic)
  {
    BuildPrompt(body.topic.value, body.description, body.duration, body.format, body.tone)
  }

  /** How the handler answers the endpoint's reply. */
  function Relay(upstream: Upstream): Response {
    match upstream
    case Threw(message) => Response(500, Failure(message))
    case Rejected(status, details) => Response(status, UpstreamFailure(RequestFailed, details))
    case Delivered(content) => Response(200, Script(Extracted(content)))
  }

  /**
   * The handler: preflight, method, topic and key checks in that order,
   * then one call to the endpoint with the assembled prompt.
   */
  function Handle(req: Request, apiKey: Option<string>, upstream: string -> Upstream): (out: Outcome)
    ensures out.sent.Some? <==> ReachesUpstream(req, apiKey)
    ensures out.sent.Some? ==> out.sent.value == RequestPrompt(req.body)
    ensures out.sent.Some? ==> out.response == Relay(upstream(out.sent.value))
  {
    if req.verb == "OPTIONS" then Outcome(Response(200, NoBody), None)
    else if req.verb != "POST" then Outcome(Response(405, Failure(MethodNotAllowed)), None)
    else if !Truthy(req.body.topic) then Outcome(Response(400, Failure(TopicRequired)), None)
    else if !Truthy(apiKey) then Outcome(Response(500, ConfigFailure(KeyNotConfigured, KeyGuidance)), None)
    else
      var prompt := RequestPrompt(req.body);
      Outcome(Relay(upstream(prompt)), Some(prompt))
  }

  /** A preflight request is answered 200 with no body, whatever else holds. */
  lemma PreflightAlwaysSucceeds(req: Request, apiKey: Option<string>, upstream: string -> Upstream)
    requires req.verb == "OPTIONS"
    ensures Handle(req, apiKey, upstream) == Outcome(Response(200, NoBody), None)
  {
  }

  /** Every method but POST and OPTIONS is refused with 405, before anything else is looked at. */
  lemma OtherMethodsRefused(req: Request, apiKey: Option<string>, upstream: string -> Upstream)
    requires req.verb != "OPTIONS" && req.verb != "POST"
    ensures Handle(req, apiKey, upstream) == Outcome(Response(405, Failure(MethodNotAllowed)), None)
  {
  }

  /**
   * A 400 "Topic is required" answer comes exactly from a POST with a falsy
   * topic, whether or not the key is configured and whatever the endpoint
   * would do.
   */
  lemma TopicCheckedBeforeKey(req: Request, apiKey: Option<string>, upstream: string -> Upstream)
    ensures Handle(req, apiKey, upstream).response == Response(400, Failure(TopicRequired))
            <==> req.verb == "POST" && !Truthy(req.body.topic)
    ensures req.verb == "POST" && !Truthy(req.body.topic) ==> Handle(req, apiKey, upstream).sent.None?
  {
  }

  /** With a topic but no key the answer is the configuration error, and the endpoint is not called. */
  lemma MissingKeyRefused(req: Request, apiKey: Option<string>, upstream: string -> Upstream)
    requires req.verb == "POST" && Truthy(req.body.topic) && !Truthy(apiKey)
    ensures Handle(req, apiKey, upstream)
            == Outcome(Response(500, ConfigFailure(KeyNotConfigured, KeyGuidance)), None)
  {
  }

  /** A non-ok reply's status is the answer's status, with the reply's body as details. */
  lemma UpstreamStatusPassedThrough(req: Request, apiKey: Option<string>, upstream: string -> Upstream)
    requires ReachesUpstream(req, apiKey)
    requires upstream(RequestPrompt(req.body)).Rejected?
    ensures
      var reply := upstream(RequestPrompt(req.body));
      Handle(req, apiKey, upstream).response
        == Response(reply.status, UpstreamFailure(RequestFailed, reply.details))
  {
  }

  /** An exception raised while calling the endpoint or reading its reply is answered 500 with its message. */
  lemma UpstreamExceptionAnswered500(req: Request, apiKey: Option<string>, upstream: string -> Upstream)
    requires ReachesUpstream(req, apiKey)
    requires upstream(RequestPrompt(req.body)).Threw?
    ensures Handle(req, apiKey, upstream).response
            == Response(500, Failure(upstream(RequestPrompt(req.body)).message))
  {
  }

  /** Delivered blocks are answered 200 with their extracted text. */
  lemma DeliveryAnswered200(req: Request, apiKey: Option<string>, upstream: string -> Upstream)
    requires ReachesUpstream(req, apiKey)
    requires upstream(RequestPrompt(req.body)).Delivered?
    ensures Handle(req, apiKey, upstream).response
            == Response(200, Script(Extracted(upstream(RequestPrompt(req.body)).content)))
  {
  }

  /**
   * The answer carries an ok (2xx) status exactly for a preflight and for
   * a delivered reply, which is answered 200.
   */
  lemma OkStatusOnlyForPreflightOrDelivery(req: Request, apiKey: Option<string>, upstream: string -> Upstream)
    ensures
      var out := Handle(req, apiKey, upstream);
      200 <= out.response.status < 300 <==>
        req.verb == "OPTIONS"
        || (ReachesUpstream(req, apiKey) && upstream(RequestPrompt(req.body)).Delivered?)
    ensures
      var out := Handle(req, apiKey, upstream);
      200 <= out.response.status < 300 ==> out.response.status == 200
  {

  }

  /** The delivered blocks [text "A", thinking "B", text "C"] are answered 200 with "ABC". */
  lemma DeliveredExample(req: Request, apiKey: Option<string>, upstream: string -> Upstream)
    requires ReachesUpstream(req, apiKey)
    requires upstream(RequestPrompt(req.body))
             == Delivered([TextBlock("A"), ThinkingBlock("B"), TextBlock("C")])
    ensures Handle(req, apiKey, upstream).response == Response(200, Script("ABC"))
  {
    ExtractedExample();
  }
}
