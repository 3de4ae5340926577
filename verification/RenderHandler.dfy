/**
 * src/gateway/handlers/make-render-handler.js and src/gateway/handlers/handle-error.js: from the
 * outcome of a render to the one response that is sent for it.
 *
 * What the environment, a custom error handler and JSON.stringify do are parameters. Response and
 * logger operations do not throw.
 */
module RenderHandler {
  import opened Common
  import opened ErrorExtraction
  import opened ErrorFormat
  import opened Environment

  // ----- The objects the handlers write to -----

  class Response {
    var status: int
    var headers: map<string, string>
    var sent: seq<string>

    method Status(code: int)
      modifies this`status
      ensures status == code
    {
      status := code;
    }

    method Header(more: map<string, string>)
      modifies this`headers
      ensures headers == old(headers) + more
    {
      headers := headers + more;
    }

    method Send(body: string)
      modifies this`sent
      ensures sent == old(sent) + [body]
    {
      sent := sent + [body];
    }
  }

  /** The render trace: how often it was started and ended, and the labels given to it. */
  class Tracer {
    var started: nat
    var ended: nat
    var resultLabels: Option<(int, map<string, string>)>
  }

  class Logger {
    var errors: seq<LoggedError>
  }

  datatype LoggedError = LoggedError(message: string, error: SimplifiedError, original: Option<SimplifiedError>)

  /** What a custom error handler does: `Declines` is a nullish result. */
  datatype HandlerOutcome =
    | Declines
    | Overrides(body: string, headers: map<string, string>)
    | HandlerThrows(error: Value)

  type ErrorHandler = (string, map<string, string>, SimplifiedError) -> HandlerOutcome

  /** The error metadata that goes into a page. */
  datatype Payload = Simple(error: SimplifiedError) | WithOriginal(inner: SimplifiedError, original: SimplifiedError)

  /** Everything about a request that does not change while it is handled. */
  datatype Context = Context(
    errorHandler: Option<ErrorHandler>,
    defaultErrorResponse: Option<string>,
    requestHeaders: map<string, string>,
    json: Payload -> string,
    heap: Heap)

  datatype Query = NoUrl | OneUrl(url: string) | ManyUrls

  const REDIRECTS := {301, 302, 307, 308}
  const NOT_ALLOWED := "NotAllowed"
  const BAD_REDIRECT := KAError(NOT_ALLOWED, "Render resulted in redirection status without required Location header")

  // ----- What is sent, as values -----

  /** A response: the changes to it so far. */
  datatype Reply = Reply(status: int, headers: map<string, string>, sent: seq<string>)

  function HandlerAnswer(c: Context, url: string, error: SimplifiedError): HandlerOutcome {
    if c.errorHandler.Some? then c.errorHandler.value(url, c.requestHeaders, error) else Declines
  }

  predicate LacksLocation(result: RenderResult) {
    result.status in REDIRECTS && "Location" !in result.headers
  }

  /** What has gone wrong by the time the response would be sent. */
  function Problem(render: Outcome<RenderResult, Thrown>): Option<Thrown> {
    match render
    case Threw(error) => Some(error)
    case Returned(result) => if LacksLocation(result) then Some(BAD_REDIRECT) else None
  }

  /** What `handleError` makes of the response, and what it throws itself. */
  function ErrorReply(c: Context, url: string, r: Reply, error: Thrown): (Reply, Option<Failure>) {
    match ExtractThrown(c.heap, error)
    case Failed(reason) => (r, Some(reason))
    case Extracted(simplified) =>
      match HandlerAnswer(c, url, simplified)
      case Overrides(body, headers) => (Reply(500, r.headers + headers, r.sent + [body]), None)
      case Declines =>
        (Reply(500, r.headers, r.sent + [FormatError(c.defaultErrorResponse, c.json(Simple(simplified)))]), None)
      case HandlerThrows(v) =>
        match ExtractError(c.heap, v)
        case Failed(reason) => (Reply(500, r.headers, r.sent), Some(reason))
        case Extracted(inner) =>
          var page := FormatError(c.defaultErrorResponse, c.json(WithOriginal(inner, simplified)));
          (Reply(500, r.headers, r.sent + [page]), None)
  }

  /** What `handleError` logs. */
  function ErrorLog(overallProblem: string, c: Context, url: string, error: Thrown): seq<LoggedError> {
    match ExtractThrown(c.heap, error)
    case Failed(_) => []
    case Extracted(simplified) =>
      match HandlerAnswer(c, url, simplified)
      case Overrides(_, _) => [LoggedError(overallProblem + "; custom error response generated", simplified, None)]
      case Declines => [LoggedError(overallProblem + "; uncaught error", simplified, None)]
      case HandlerThrows(v) =>
        match ExtractError(c.heap, v)
        case Failed(_) => []
        case Extracted(inner) => [LoggedError(overallProblem + "; custom handler failed", inner, Some(simplified))]
  }

  function RenderReply(c: Context, url: string, r: Reply, render: Outcome<RenderResult, Thrown>)
    : (Reply, Option<Failure>)
  {
    match Problem(render)
    case Some(error) => ErrorReply(c, url, r, error)
    case None => (Reply(render.value.status, r.headers + render.value.headers, r.sent + [render.value.body]), None)
  }

  /** What is sent for a render that may never settle. */
  function ReplyTo(c: Context, url: string, r: Reply, render: Option<Outcome<RenderResult, Thrown>>): Reply {
    match render
    case None => r
    case Some(outcome) => RenderReply(c, url, r, outcome).0
  }

  /** A problem that can be reported: neither the error nor what a custom handler throws defeats the extraction. */
  predicate Reportable(c: Context, url: string, error: Thrown) {
    match ExtractThrown(c.heap, error)
    case Failed(_) => false
    case Extracted(simplified) =>
      var answer := HandlerAnswer(c, url, simplified);
      answer.HandlerThrows? ==> Extractable(c.heap, answer.error)
  }

  /** There is something to send: the result, or a problem that can be reported. */
  predicate Sendable(c: Context, url: string, render: Outcome<RenderResult, Thrown>) {
    Problem(render).None? || Reportable(c, url, Problem(render).value)
  }

  // ----- The handlers -----

  /** How the promise of the handler settles, if it does. */
  datatype HandlerEnd = Pending | Fulfilled | BadQuery(error: Thrown) | HandlingFailed(failure: Failure)

  const INVALID_INPUT := "InvalidInput"

  function QueryError(query: Query): Thrown {
    KAError(INVALID_INPUT, if query.NoUrl? then "Missing url query param" else "More than one url query param given")
  }

  lemma QueryErrorIs()
    ensures QueryError(NoUrl) == Raised("KAInvalidInputError", "Missing url query param")
    ensures QueryError(ManyUrls) == Raised("KAInvalidInputError", "More than one url query param given")
  {
    assert "KA" + INVALID_INPUT + "Error" == "KAInvalidInputError";
  }

  class Exchange {
    const res: Response
    const tracer: Tracer
    const logger: Logger
    var nexts: nat

    constructor (res: Response, tracer: Tracer, logger: Logger)
      ensures this.res == res && this.tracer == tracer && this.logger == logger && nexts == 0
    {
      this.res := res;
      this.tracer := tracer;
      this.logger := logger;
      nexts := 0;
    }

    function Sent(): Reply
      reads res
    {
      Reply(res.status, res.headers, res.sent)
    }

    method Log(e: LoggedError)
      modifies logger
      ensures logger.errors == old(logger.errors) + [e]
    {
      logger.errors := logger.errors + [e];
    }

    method HandleError(overallProblem: string, c: Context, url: string, error: Thrown)
        returns (failure: Option<Failure>)
      modifies res, logger
      ensures (Sent(), failure) == ErrorReply(c, url, old(Sent()), error)
      ensures logger.errors == old(logger.errors) + ErrorLog(overallProblem, c, url, error)
    {
      var simplifiedError;
      match ExtractThrown(c.heap, error) {
        case Failed(reason) => return Some(reason);
        case Extracted(simplified) => simplifiedError := simplified;
      }
      res.Status(500);
      match HandlerAnswer(c, url, simplifiedError) {
        case Overrides(body, headers) =>
          Log(LoggedError(overallProblem + "; custom error response generated", simplifiedError, None));
          res.Header(headers);
          res.Send(body);
          return None;
        case HandlerThrows(v) =>
          var innerError;
          match ExtractError(c.heap, v) {
            case Failed(reason) => return Some(reason);
            case Extracted(inner) => innerError := inner;
          }
          Log(LoggedError(overallProblem + "; custom handler failed", innerError, Some(simplifiedError)));
          res.Send(FormatError(c.defaultErrorResponse, c.json(WithOriginal(innerError, simplifiedError))));
          return None;
        case Declines =>
          Log(LoggedError(overallProblem + "; uncaught error", simplifiedError, None));
          res.Send(FormatError(c.defaultErrorResponse, c.json(Simple(simplifiedError))));
          return None;
      }
    }

    /**
     * `render` is `None` when the render never settles. The promise rejects when the URL is missing or
     * ambiguous, or when the error handling throws.
     */
    method RenderHandler(c: Context, query: Query, render: Option<Outcome<RenderResult, Thrown>>)
      returns (end: HandlerEnd)
      modifies res, logger, tracer
      ensures !query.OneUrl? ==>
                end == BadQuery(QueryError(query)) && unchanged(res) && unchanged(logger) && unchanged(tracer)
      ensures query.OneUrl? ==> Sent() == ReplyTo(c, query.url, old(Sent()), render)
      ensures query.OneUrl? ==> tracer.started == old(tracer.started) + 1
      ensures query.OneUrl? && render.None? ==>
                && end == Pending && unchanged(res) && unchanged(logger)
                && tracer.ended == old(tracer.ended) && tracer.resultLabels == old(tracer.resultLabels)
      ensures query.OneUrl? && render.Some? ==>
                var problem := Problem(render.value);
                && end == (match RenderReply(c, query.url, old(Sent()), render.value).1
                           case Some(failure) => HandlingFailed(failure)
                           case None => Fulfilled)
                && tracer.ended == old(tracer.ended) + 1
                && logger.errors == old(logger.errors) +
                     (if problem.Some? then ErrorLog("Render failed", c, query.url, problem.value) else [])
                && tracer.resultLabels ==
                     (if render.value.Returned? then Some((render.value.value.status, render.value.value.headers))
                      else old(tracer.resultLabels))
    {
      if !query.OneUrl? { return BadQuery(QueryError(query)); }
      tracer.started := tracer.started + 1;
      if render.None? { return Pending; }
      var problem: Option<Thrown> := None;
      match render.value {
        case Threw(error) =>
          problem := Some(error);
        case Returned(result) =>
          tracer.resultLabels := Some((result.status, result.headers));
          if result.status in REDIRECTS && "Location" !in result.headers {
            problem := Some(BAD_REDIRECT);
          } else {
            res.Header(result.headers);
            res.Status(result.status);
            res.Send(result.body);
          }
      }
      var failure: Option<Failure> := None;
      if problem.Some? {
        failure := HandleError("Render failed", c, query.url, problem.value);
      }
      tracer.ended := tracer.ended + 1;
      end := if failure.Some? then HandlingFailed(failure.value) else Fulfilled;
    }

    /** The middleware that `makeRenderHandler` returns: `next` is called once, when and however the handler ends. */
    method Middleware(c: Context, query: Query, render: Option<Outcome<RenderResult, Thrown>>)
      returns (end: HandlerEnd)
      modifies this`nexts, res, logger, tracer
      ensures end.Pending? <==> query.OneUrl? && render.None?
      ensures end.BadQuery? <==> !query.OneUrl?
      ensures nexts == old(nexts) + if end.Pending? then 0 else 1
      ensures Sent() == if query.OneUrl? then ReplyTo(c, query.url, old(Sent()), render) else old(Sent())
      ensures tracer.started == old(tracer.started) + if query.OneUrl? then 1 else 0
      ensures tracer.ended == old(tracer.ended) + if query.OneUrl? && render.Some? then 1 else 0
    {
      end := RenderHandler(c, query, render);
      if !end.Pending? { nexts := nexts + 1; }
    }
  }

  // ----- What follows for the client -----

  lemma ReportableSends(c: Context, url: string, r: Reply, error: Thrown)
    ensures var (reply, failure) := ErrorReply(c, url, r, error);
            && (failure.None? <==> Reportable(c, url, error))
            && |reply.sent| == |r.sent| + (if failure.None? then 1 else 0)
            && (failure.None? ==> reply.status == 500)
  {
    var e := ExtractThrown(c.heap, error);
    if e.Extracted? {
      var answer := HandlerAnswer(c, url, e.simplified);
      assert answer.HandlerThrows? ==>
          (Extractable(c.heap, answer.error) <==> ExtractError(c.heap, answer.error).Extracted?);
    }
  }

  /**
   * A body is sent exactly when the render settles and there is no problem or the problem can be
   * reported, and then exactly one.
   */
  lemma OneBodyIff(c: Context, url: string, r: Reply, render: Option<Outcome<RenderResult, Thrown>>)
    requires r.sent == []
    ensures var reply := ReplyTo(c, url, r, render);
            && |reply.sent| <= 1
            && (|reply.sent| == 1 <==> render.Some? && Sendable(c, url, render.value))
            && (render.Some? ==> (RenderReply(c, url, r, render.value).1.None? <==> |reply.sent| == 1))
  {
    if render.Some? && Problem(render.value).Some? {
      ReportableSends(c, url, r, Problem(render.value).value);
    }
  }

  /** A thrown value that the extraction cannot cope with. */
  ghost predicate Unreportable(h: Heap, v: Value) { Nullish(v) || Revisits(h, v) }

  /** What the custom handler says to an error; nothing, if the error never gets to it. */
  function AnswerTo(c: Context, url: string, error: Thrown): HandlerOutcome {
    match ExtractThrown(c.heap, error)
    case Extracted(simplified) => HandlerAnswer(c, url, simplified)
    case Failed(_) => Declines
  }

  lemma ThrownIsExtractedIff(h: Heap, thrown: Thrown)
    ensures ExtractThrown(h, thrown).Extracted? <==> (thrown.External? ==> !Unreportable(h, thrown.value))
  {
    match thrown {
      case External(v) => ExtractableIff(h, v);
      case Raised(name, message) => RaisedIsExtractable(h, name, message);
    }
  }

  /**
   * Which requests get a body, in terms of what is thrown: the render settles, and when there is a
   * problem, neither it nor what a custom handler throws about it is nullish or has a chain of causes
   * that comes back to a value.
   */
  lemma AnsweredIff(c: Context, url: string, r: Reply, render: Option<Outcome<RenderResult, Thrown>>)
    requires r.sent == []
    ensures |ReplyTo(c, url, r, render).sent| == 1 <==>
              && render.Some?
              && (Problem(render.value).Some? ==>
                    var error := Problem(render.value).value;
                    && (error.External? ==> !Unreportable(c.heap, error.value))
                    && (AnswerTo(c, url, error).HandlerThrows? ==>
                          !Unreportable(c.heap, AnswerTo(c, url, error).error)))
  {
    OneBodyIff(c, url, r, render);
    if render.Some? && Problem(render.value).Some? {
      var error := Problem(render.value).value;
      ThrownIsExtractedIff(c.heap, error);
      if ExtractThrown(c.heap, error).Extracted? {
        var answer := AnswerTo(c, url, error);
        if answer.HandlerThrows? { ExtractableIff(c.heap, answer.error); }
      }
    }
  }

  /** In particular, when the render settles, and it and the handler only throw values that can be reported. */
  lemma OrdinaryThrowsAreAnswered(c: Context, url: string, r: Reply, render: Outcome<RenderResult, Thrown>)
    requires r.sent == []
    requires render.Threw? && render.error.External? ==>
               !Nullish(render.error.value) && !Revisits(c.heap, render.error.value)
    requires forall e :: HandlerAnswer(c, url, e).HandlerThrows? ==>
               !Nullish(HandlerAnswer(c, url, e).error) && !Revisits(c.heap, HandlerAnswer(c, url, e).error)
    ensures |ReplyTo(c, url, r, Some(render)).sent| == 1
  {
    OneBodyIff(c, url, r, Some(render));
    if Problem(render).Some? {
      var error := Problem(render).value;
      match error {
        case External(v) => ExtractableIff(c.heap, v);
        case Raised(name, message) => RaisedIsExtractable(c.heap, name, message);
      }
      var simplified := ExtractThrown(c.heap, error).simplified;
      var answer := HandlerAnswer(c, url, simplified);
      if answer.HandlerThrows? { ExtractableIff(c.heap, answer.error); }
    }
  }

  /**
   * Whatever the environment and the custom handler do: a failed render or a redirect without a
   * Location header is answered with 500 if at all, a good one with its own status, headers and body,
   * and no answer is a redirect without a Location header.
   */
  lemma StatusOfAnswers(c: Context, url: string, r: Reply, render: Outcome<RenderResult, Thrown>)
    requires r.sent == []
    ensures var reply := RenderReply(c, url, r, render).0;
            && (reply.sent != [] && Problem(render).Some? ==> reply.status == 500)
            && (Problem(render).None? ==>
                  && render.Returned? && reply.status == render.value.status && reply.sent == [render.value.body]
                  && forall k :: k in render.value.headers ==>
                       k in reply.headers && reply.headers[k] == render.value.headers[k])
            && (reply.sent != [] && reply.status in REDIRECTS ==> "Location" in reply.headers)
  {
    if Problem(render).Some? { ReportableSends(c, url, r, Problem(render).value); }
  }

  /** The numbers that ask for a Location header. */
  predicate NeedsLocation(status: int) { status == 301 || status == 302 || status == 307 || status == 308 }

  /** What is wrong with a render, in terms of its result. */
  lemma ProblemIs(render: Outcome<RenderResult, Thrown>)
    ensures match render
            case Threw(error) => Problem(render) == Some(error)
            case Returned(x) =>
              if NeedsLocation(x.status) && "Location" !in x.headers then
                Problem(render) == Some(Raised("KANotAllowedError",
                  "Render resulted in redirection status without required Location header"))
              else Problem(render) == None
  {
    assert "KA" + NOT_ALLOWED + "Error" == "KANotAllowedError";
  }

  /** A good result is sent as it is: its status, its body, and its headers over those that were there. */
  lemma GoodResultIsSent(c: Context, url: string, r: Reply, x: RenderResult)
    requires !NeedsLocation(x.status) || "Location" in x.headers
    ensures RenderReply(c, url, r, Returned(x)).1.None?
    ensures var reply := RenderReply(c, url, r, Returned(x)).0;
            && reply.status == x.status && reply.sent == r.sent + [x.body]
            && (forall k :: k in x.headers ==> k in reply.headers && reply.headers[k] == x.headers[k])
            && (forall k :: k in r.headers && k !in x.headers ==>
                  k in reply.headers && reply.headers[k] == r.headers[k])
            && (forall k :: k in reply.headers ==> k in x.headers || k in r.headers)
  {
    ProblemIs(Returned(x));
  }

  /** The page that is sent when no custom handler makes one. */
  function DefaultPage(c: Context, p: Payload): string { FormatError(c.defaultErrorResponse, c.json(p)) }

  /** Without a custom handler, or with one that declines: status 500, the default page, and one line of the log. */
  lemma DefaultErrorIs(problem: string, c: Context, url: string, r: Reply, error: Thrown, e: SimplifiedError)
    requires ExtractThrown(c.heap, error) == Extracted(e)
    requires c.errorHandler.Some? ==> c.errorHandler.value(url, c.requestHeaders, e) == Declines
    ensures ErrorReply(c, url, r, error) == (Reply(500, r.headers, r.sent + [DefaultPage(c, Simple(e))]), None)
    ensures ErrorLog(problem, c, url, error) == [LoggedError(problem + "; uncaught error", e, None)]
  {
  }

  /** A custom handler is given the URL, the headers of the request and the error, and what it says is done. */
  lemma CustomErrorIs(
    problem: string, c: Context, url: string, r: Reply, error: Thrown, e: SimplifiedError, handler: ErrorHandler
  )
    requires ExtractThrown(c.heap, error) == Extracted(e) && c.errorHandler == Some(handler)
    ensures match handler(url, c.requestHeaders, e)
            case Overrides(body, headers) =>
              && ErrorReply(c, url, r, error) == (Reply(500, r.headers + headers, r.sent + [body]), None)
              && ErrorLog(problem, c, url, error)
                   == [LoggedError(problem + "; custom error response generated", e, None)]
            case HandlerThrows(v) =>
              (match ExtractError(c.heap, v)
               case Extracted(inner) =>
                 && ErrorReply(c, url, r, error)
                      == (Reply(500, r.headers, r.sent + [DefaultPage(c, WithOriginal(inner, e))]), None)
                 && ErrorLog(problem, c, url, error)
                      == [LoggedError(problem + "; custom handler failed", inner, Some(e))]
               case Failed(reason) =>
                 ErrorReply(c, url, r, error) == (Reply(500, r.headers, r.sent), Some(reason))
                 && ErrorLog(problem, c, url, error) == [])
            case Declines => true
  {
  }

  /** A redirect without Location, with no custom handler. */
  lemma BadRedirectIsAnError(c: Context, url: string, r: Reply, x: RenderResult)
    requires NeedsLocation(x.status) && "Location" !in x.headers && c.errorHandler.None?
    ensures var message := "Render resulted in redirection status without required Location header";
            var text := "KANotAllowedError: " + message;
            RenderReply(c, url, r, Returned(x))
              == (Reply(500, r.headers, r.sent + [DefaultPage(c, Simple(SimplifiedError(Some(text), None)))]), None)
  {
    ProblemIs(Returned(x));
    var message := "Render resulted in redirection status without required Location header";
    var text := "KANotAllowedError: " + message;
    RaisedIsExtractable(c.heap, "KANotAllowedError", message);
    assert "KANotAllowedError" + ": " == "KANotAllowedError: ";
    DefaultErrorIs("", c, url, r, Problem(Returned(x)).value, SimplifiedError(Some(text), None));
  }

  /** A render that fails is answered with its own error. */
  lemma FailedRenderIsAnError(c: Context, url: string, r: Reply, error: Thrown)
    ensures RenderReply(c, url, r, Threw(error)) == ErrorReply(c, url, r, error)
    ensures ExtractThrown(c.heap, error).Failed? ==> ErrorReply(c, url, r, error).0 == r
  {
  }

  /** The page that is sent is made from this payload. */
  ghost predicate Shows(c: Context, body: string, p: Payload) {
    body == FormatError(c.defaultErrorResponse, c.json(p))
  }

  function RootOf(p: Payload): SimplifiedError {
    match p
    case Simple(error) => error
    case WithOriginal(_, original) => original
  }

  /**
   * A custom handler that fails cannot hide what it was called for: every answered problem is logged
   * once, with the original error in the entry, and the page shows it too unless the handler made the page.
   */
  lemma RootErrorIsNeverLost(overallProblem: string, c: Context, url: string, r: Reply, error: Thrown)
    requires ExtractThrown(c.heap, error).Extracted?
    ensures var root := ExtractThrown(c.heap, error).simplified;
            var (reply, failure) := ErrorReply(c, url, r, error);
            var log := ErrorLog(overallProblem, c, url, error);
            && (failure.None? <==> |log| == 1)
            && (failure.Some? ==> log == [] && reply.sent == r.sent)
            && (failure.None? ==> root == if log[0].original.Some? then log[0].original.value else log[0].error)
            && (failure.None? && !HandlerAnswer(c, url, root).Overrides? ==>
                  |reply.sent| == |r.sent| + 1 && exists p :: RootOf(p) == root && Shows(c, reply.sent[|r.sent|], p))
            && (HandlerAnswer(c, url, root).Overrides? ==> reply.sent == r.sent + [HandlerAnswer(c, url, root).body])
  {
    var root := ExtractThrown(c.heap, error).simplified;
    var (reply, failure) := ErrorReply(c, url, r, error);
    match HandlerAnswer(c, url, root) {
      case Overrides(_, _) =>
      case Declines =>
        assert RootOf(Simple(root)) == root && Shows(c, reply.sent[|r.sent|], Simple(root));
      case HandlerThrows(v) =>
        match ExtractError(c.heap, v) {
          case Failed(_) =>
          case Extracted(inner) =>
            var p := WithOriginal(inner, root);
            assert RootOf(p) == root && Shows(c, reply.sent[|r.sent|], p);
        }
    }
  }

  /** Throwing null is what makes the difference: the handler sends nothing, whatever the configuration, and rejects. */
  lemma NullIsNeverAnswered(c: Context, url: string, r: Reply)
    ensures RenderReply(c, url, r, Threw(External(Null))) == (r, Some(NullishValue))
  {
    ExtractableIff(c.heap, Null);
  }
}
