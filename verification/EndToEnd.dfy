/**
 * From a request to its response: the render handler around a render, for everything that the code
 * around the gateway may do.
 */
module EndToEnd {
  import opened Common
  import opened Environment
  import opened ErrorExtraction
  import Lifecycle
  import opened PlannedRender
  import opened RenderHandler

  /** The render settles: its body ends, and nothing escapes from the tidy-up. */
  predicate Settles(h: Heap, plan: Plan) {
    Ending(plan).Some? && Completes(h, Acquired(plan))
  }

  /** It settles, and there is something to send. */
  predicate GetsAnswer(c: Context, url: string, plan: Plan) {
    Settles(c.heap, plan) && Sendable(c, url, Ending(plan).value)
  }

  /** A result that is no redirect without its Location header. */
  predicate IsGood(render: Outcome<RenderResult, Thrown>) {
    render.Returned? && (NeedsLocation(render.value.status) ==> "Location" in render.value.headers)
  }

  /** In these terms: which renders get an answer at once, and which if their problem can be reported. */
  lemma GetsAnswerIff(c: Context, url: string, plan: Plan)
    ensures GetsAnswer(c, url, plan) <==>
              && Settles(c.heap, plan)
              && (IsGood(Ending(plan).value) || Reportable(c, url,
                    if Ending(plan).value.Threw? then Ending(plan).value.error else BAD_REDIRECT))
  {
    if Ending(plan).Some? { ProblemIs(Ending(plan).value); }
  }

  /**
   * A whole request. For every plan and every context: one body, if and only if the render settles and
   * has a result or a problem that can be reported; the trace ends once and `next` is called once, if
   * and only if it settles.
   */
  method Serve(exchange: Exchange, run: RenderRun, c: Context, url: string, plan: Plan) returns (end: HandlerEnd)
    requires run.closeables == [] && run.calls == [] && run.errors == []
    requires run.hook == Absent && run.scriptsRun == [] && run.invoked == []
    requires exchange.res.sent == []
    modifies run, exchange`nexts, exchange.res, exchange.logger, exchange.tracer
    ensures |exchange.res.sent| == if GetsAnswer(c, url, plan) then 1 else 0
    ensures exchange.tracer.started == old(exchange.tracer.started) + 1
    ensures exchange.tracer.ended == old(exchange.tracer.ended) + if Settles(c.heap, plan) then 1 else 0
    ensures exchange.nexts == old(exchange.nexts) + if Settles(c.heap, plan) then 1 else 0
    ensures end.Pending? <==> !Settles(c.heap, plan)
    ensures run.closeables == if Settles(c.heap, plan) then [] else Acquired(plan)
    ensures exchange.res.sent != [] && NeedsLocation(exchange.res.status) ==> "Location" in exchange.res.headers
    ensures Settles(c.heap, plan) && IsGood(Ending(plan).value) ==>
              var x := Ending(plan).value.value;
              exchange.res.sent == [x.body] && exchange.res.status == x.status
    ensures exchange.res.sent != [] && !IsGood(Ending(plan).value) ==> exchange.res.status == 500
  {
    var settled := run.Render(plan, c.heap);
    ghost var before := exchange.Sent();
    OneBodyIff(c, url, before, settled);
    if settled.Some? {
      StatusOfAnswers(c, url, before, settled.value);
      ProblemIs(settled.value);
    }
    end := exchange.Middleware(c, OneUrl(url), settled);
  }

  /** What a render has settled to. */
  function RenderOf(s: Lifecycle.State): Option<Outcome<RenderResult, Thrown>> {
    if s.phase.Settled? then Some(s.phase.ending) else None
  }

  /**
   * The same over every interleaving of the render with timers, fetches and responses: a body has been
   * sent if and only if the render has settled, and then exactly if the plan with the files that its own
   * fetches gave gets an answer; and when nothing was sent although the render is over, that plan gets none.
   */
  lemma AnswerOfInterleavedRender(
    c: Context, url: string, r: Reply, survives: bool, plan: Plan, list: FileList, es: seq<Lifecycle.Event>
  )
    requires r.sent == [] && UsesOwnObjects(plan) && Follows(plan, list, es)
    ensures var s := Lifecycle.Run(c.heap, Lifecycle.Initial(survives), es);
            var p := PlanFor(plan, list, s.fetching);
            var sent := ReplyTo(c, url, r, RenderOf(s)).sent;
            && |sent| <= 1
            && (|sent| == 1 <==> IsOver(s.phase) && GetsAnswer(c, url, p))
            && (s.phase.Settled? <==> IsOver(s.phase) && Settles(c.heap, p))
    ensures var s := Lifecycle.Run(c.heap, Lifecycle.Initial(survives), es);
            s.phase.Settled? && IsGood(s.phase.ending) ==>
              var reply := ReplyTo(c, url, r, RenderOf(s));
              reply.sent == [s.phase.ending.value.body] && reply.status == s.phase.ending.value.status
  {
    InterleavedRenderIsAsPlanned(c.heap, survives, plan, list, es);
    var s := Lifecycle.Run(c.heap, Lifecycle.Initial(survives), es);
    OneBodyIff(c, url, r, RenderOf(s));
    if s.phase.Settled? { ProblemIs(s.phase.ending); }
  }

  /** A good result is not enough: when a close throws null, nothing is sent and the request stays open. */
  lemma GoodResultWithoutAnswer(c: Context, url: string, plan: Plan)
    requires SetUp(plan) && plan.afterEnv == Resolves(Closes(AfterEnv, Some(Null)))
    ensures !Settles(c.heap, plan) && !GetsAnswer(c, url, plan)
  {
    AcquiredIs(plan);
    Lifecycle.ThrowingNullEscapes(c.heap, AfterEnv);
    assert Escapes(c.heap, Acquired(plan)[3]);
  }
}
