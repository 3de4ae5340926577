/**
 * src/gateway/environments/jsdom-sixteen/jsdom-sixteen-resource-loader.js: a loader that fetches
 * only JavaScript, keeps one agent per protocol, and may be closed while requests are in flight.
 *
 * `LoaderState` is the loader as a value. The class at the end is the object of the source; each
 * of its methods moves its ghost `view` by the step function of the same name.
 */
module ResourceLoader {
  import opened Common
  import opened ErrorExtraction
  import opened UrlFilters

  /** One request made, with the agent it was given. */
  datatype Request = Request(url: string, protocol: string, agent: nat)

  datatype LogLine = FetchAfterClose(name: string) | EmptyResponse(name: string) | NeverUsed(name: string)

  /**
   * Agents are numbered in the order they are made and `destroys` counts the calls of `destroy` on
   * each. `delivered` holds what each settled request gave to its caller: a text, or a rejection.
   */
  datatype LoaderState = LoaderState(
    active: bool,
    agents: map<string, nat>,
    destroys: seq<nat>,
    requests: seq<Request>,
    delivered: map<nat, Outcome<string, Value>>,
    log: seq<LogLine>)

  /**
   * One call of `fetch`: the URL, the protocol that parsing it gives or what parsing throws, and what
   * `request` throws at once, if it does.
   */
  datatype Call = Call(url: string, protocol: Outcome<string, Value>, requestThrows: Option<Value>)

  datatype FetchReply =
    | EmptyBuffer
    | Pending(request: nat)
    | ThrowsOnUrl(error: Value)
    | ThrowsOnProtocol(protocol: string)
    | ThrowsInRequest(error: Value)

  predicate Throws(reply: FetchReply) { reply.ThrowsOnUrl? || reply.ThrowsOnProtocol? || reply.ThrowsInRequest? }

  const NEW_LOADER := LoaderState(true, map[], [], [], map[], [])

  predicate Supported(protocol: string) { protocol == "http:" || protocol == "https:" }

  predicate IsInlineData(url: string) { 5 <= |url| && url[..5] == "data:" }

  function NameForLog(url: string): string { if IsInlineData(url) then "inline data" else url }

  /** `_getAgent`. */
  function GetAgentStep(s: LoaderState, protocol: Outcome<string, Value>): (LoaderState, Outcome<nat, FetchReply>) {
    if protocol.Threw? then (s, Threw(ThrowsOnUrl(protocol.error)))
    else if protocol.value in s.agents then (s, Returned(s.agents[protocol.value]))
    else if !Supported(protocol.value) then (s, Threw(ThrowsOnProtocol(protocol.value)))
    else
      var agent := |s.destroys|;
      (s.(agents := s.agents[protocol.value := agent], destroys := s.destroys + [0]), Returned(agent))
  }

  /** The agent is made before `request` is called, so it stays in the table when that throws. */
  function FetchStep(s: LoaderState, call: Call): (LoaderState, FetchReply) {
    if !s.active then
      (if IsInlineData(call.url) then s else s.(log := s.log + [FetchAfterClose(call.url)]), EmptyBuffer)
    else if !LoaderAccepts(call.url) then
      (s.(log := s.log + [EmptyResponse(NameForLog(call.url))]), EmptyBuffer)
    else
      var (s', agent) := GetAgentStep(s, call.protocol);
      match agent
      case Threw(reply) => (s', reply)
      case Returned(a) =>
        if call.requestThrows.Some? then (s', ThrowsInRequest(call.requestThrows.value))
        else (s'.(requests := s'.requests + [Request(call.url, call.protocol.value, a)]), Pending(|s'.requests|))
  }

  /** What the caller of `fetch` sees of a response or a rejection, with no custom result handler. */
  function Seen(active: bool, outcome: Outcome<string, Value>): Outcome<string, Value> {
    if active || outcome.Threw? then outcome else Returned("")
  }

  /** Request `i` settles. Only the first settling counts. */
  function RespondStep(s: LoaderState, i: nat, outcome: Outcome<string, Value>): LoaderState {
    if i >= |s.requests| || i in s.delivered then s
    else
      var s' := s.(delivered := s.delivered[i := Seen(s.active, outcome)]);
      if s.active || outcome.Threw? then s' else s'.(log := s.log + [NeverUsed(NameForLog(s.requests[i].url))])
  }

  function CloseStep(s: LoaderState): LoaderState {
    s.(active := false, agents := map[],
       destroys := seq(|s.destroys|,
           i requires 0 <= i < |s.destroys| => s.destroys[i] + if i in s.agents.Values then 1 else 0))
  }

  datatype LoaderEvent = FetchUrl(call: Call) | Response(request: nat, outcome: Outcome<string, Value>) | CloseLoader

  function LoaderStep(s: LoaderState, e: LoaderEvent): LoaderState {
    match e
    case FetchUrl(call) => FetchStep(s, call).0
    case Response(request, outcome) => RespondStep(s, request, outcome)
    case CloseLoader => CloseStep(s)
  }

  function LoaderRun(s: LoaderState, es: seq<LoaderEvent>): LoaderState
    decreases |es|
  {
    if es == [] then s else LoaderRun(LoaderStep(s, es[0]), es[1..])
  }

  /** The agents made and not destroyed. */
  ghost function LiveAgents(s: LoaderState): set<nat> {
    set a | 0 <= a < |s.destroys| && s.destroys[a] == 0
  }

  /** What every reachable state satisfies. */
  ghost predicate Sound(s: LoaderState) {
    && s.agents.Values == LiveAgents(s)
    && (forall a :: 0 <= a < |s.destroys| ==> s.destroys[a] <= 1)
    && (forall p, q :: p in s.agents && q in s.agents && s.agents[p] == s.agents[q] ==> p == q)
    && (forall p :: p in s.agents ==> Supported(p))
    && (!s.active ==> s.agents == map[])
    && (forall i :: 0 <= i < |s.requests| ==> s.requests[i].agent < |s.destroys|)
    && (s.active ==> forall i :: 0 <= i < |s.requests| ==>
        s.requests[i].protocol in s.agents && s.agents[s.requests[i].protocol] == s.requests[i].agent)
    && (forall i :: i in s.delivered ==> i < |s.requests|)
  }

  lemma GetAgentIsSound(s: LoaderState, protocol: Outcome<string, Value>)
    requires Sound(s) && s.active
    ensures Sound(GetAgentStep(s, protocol).0)
    ensures var r := GetAgentStep(s, protocol);
            && (r.1.Threw? ==> r.0 == s)
            && (r.1.Returned? ==>
                  && protocol.Returned? && protocol.value in r.0.agents
                  && r.0.agents[protocol.value] == r.1.value < |r.0.destroys|)
  {
    var s' := GetAgentStep(s, protocol).0;
    if protocol.Returned? && protocol.value in s.agents {
      assert s.agents[protocol.value] in s.agents.Values;
    }
    if s' != s {
      var p, a := protocol.value, |s.destroys|;
      assert LiveAgents(s') == LiveAgents(s) + {a};
      forall q | q in s.agents ensures s.agents[q] < a {
        assert s.agents[q] in s.agents.Values;
      }
      assert s'.agents.Values == s.agents.Values + {a} by {
        assert s'.agents[p] == a;
        forall q | q in s.agents ensures s.agents[q] in s'.agents.Values { assert s'.agents[q] == s.agents[q]; }
      }
    }
  }

  lemma CloseIsSound(s: LoaderState)
    requires Sound(s)
    ensures CloseStep(s).requests == s.requests && CloseStep(s).delivered == s.delivered && CloseStep(s).log == s.log
    ensures Sound(CloseStep(s)) && LiveAgents(CloseStep(s)) == {}
    ensures forall a :: 0 <= a < |s.destroys| ==> CloseStep(s).destroys[a] == 1
  {
    forall a | 0 <= a < |s.destroys| ensures CloseStep(s).destroys[a] == 1 {
      assert a in LiveAgents(s) <==> s.destroys[a] == 0;
    }
  }

  lemma StepIsSound(s: LoaderState, e: LoaderEvent)
    requires Sound(s)
    ensures Sound(LoaderStep(s, e))
  {
    match e {
      case FetchUrl(call) =>
        var gets := s.active && LoaderAccepts(call.url);
        if gets { GetAgentIsSound(s, call.protocol); }
        assert LiveAgents(LoaderStep(s, e)) == LiveAgents(if gets then GetAgentStep(s, call.protocol).0 else s);
      case Response(_, _) =>
        assert LiveAgents(LoaderStep(s, e)) == LiveAgents(s);
      case CloseLoader => CloseIsSound(s);
    }
  }

  /**
   * In every state reached by any fetches, responses and closings, in any order: the agents made and
   * not yet destroyed are exactly those in the table, one per protocol, and none is destroyed twice.
   */
  lemma {:induction false} EveryRunIsSound(s: LoaderState, es: seq<LoaderEvent>)
    requires Sound(s)
    ensures Sound(LoaderRun(s, es))
    decreases |es|
  {
    if es != [] {
      StepIsSound(s, es[0]);
      EveryRunIsSound(LoaderStep(s, es[0]), es[1..]);
    }
  }

  lemma NewLoaderRunIsSound(es: seq<LoaderEvent>)
    ensures Sound(LoaderRun(NEW_LOADER, es))
  {
    EveryRunIsSound(NEW_LOADER, es);
  }

  /**
   * When a fetch throws, and what that leaves behind: nothing, unless it is `request` that throws; then
   * the agent for the protocol is in the table, made for this fetch if there was none.
   */
  lemma FetchThrowsIff(s: LoaderState, call: Call)
    requires Sound(s)
    ensures var (s', reply) := FetchStep(s, call);
            && (Throws(reply) <==>
                  && s.active && LoaderAccepts(call.url)
                  && (call.protocol.Threw? || call.protocol.value !in {"http:", "https:"} || call.requestThrows.Some?))
            && (reply.ThrowsInRequest? <==>
                  Throws(reply) && call.protocol.Returned? && call.protocol.value in {"http:", "https:"})
            && (reply.ThrowsOnUrl? || reply.ThrowsOnProtocol? ==> s' == s)
            && (reply.ThrowsInRequest? ==>
                  && s'.requests == s.requests && s'.delivered == s.delivered && s'.active
                  && call.protocol.value in s'.agents
                  && (call.protocol.value in s.agents ==> s' == s)
                  && (call.protocol.value !in s.agents ==> LiveAgents(s') == LiveAgents(s) + {|s.destroys|}))
            && (reply.Pending? <==> |s'.requests| == |s.requests| + 1)
  {
    if s.active && LoaderAccepts(call.url) { GetAgentIsSound(s, call.protocol); }
  }

  /** What an accepted fetch that does not throw adds: one request, on the agent of its protocol. */
  lemma AcceptedFetchRequests(s: LoaderState, call: Call)
    requires Sound(s) && s.active && LoaderAccepts(call.url)
    requires call.protocol == Returned("http:") || call.protocol == Returned("https:")
    requires call.requestThrows.None?
    ensures var (s', reply) := FetchStep(s, call);
            var p := call.protocol.value;
            && reply == Pending(|s.requests|)
            && p in s'.agents && s'.requests == s.requests + [Request(call.url, p, s'.agents[p])]
            && (p in s.agents ==> s'.agents == s.agents && s'.destroys == s.destroys)
            && (p !in s.agents ==> s'.agents == s.agents[p := |s.destroys|] && s'.destroys == s.destroys + [0])
            && s'.active && s'.delivered == s.delivered && s'.log == s.log
  {
  }

  /** What a fetch that is not made leaves behind: one line of the log, unless it is inline data after closing. */
  lemma OtherFetchesLog(s: LoaderState, call: Call)
    requires !s.active || !LoaderAccepts(call.url)
    ensures var (s', reply) := FetchStep(s, call);
            var inline := |call.url| >= 5 && call.url[..5] == "data:";
            && reply == EmptyBuffer
            && s' == s.(log := s'.log)
            && s'.log == s.log +
                 if s.active then [EmptyResponse(if inline then "inline data" else call.url)]
                 else if inline then []
                 else [FetchAfterClose(call.url)]
  {
  }

  lemma AcceptsScript()
    ensures LoaderAccepts("http://a/b.js")
  {
    var url := "http://a/b.js";
    assert url[10..13] == ".js" && ContainsAt(url, ".js", 10);
    LoaderAcceptsIff(url);
  }

  lemma FirstFetchThrows(url: string, error: Value)
    requires LoaderAccepts(url)
    ensures FetchStep(NEW_LOADER, Call(url, Returned("http:"), Some(error)))
         == (NEW_LOADER.(agents := map["http:" := 0], destroys := [0]), ThrowsInRequest(error))
  {
    var none: map<string, nat> := map[];
    assert none["http:" := 0] == map["http:" := 0];
    assert GetAgentStep(NEW_LOADER, Returned("http:")).0 == NEW_LOADER.(agents := map["http:" := 0], destroys := [0]);
  }

  /** A throwing override of `isCacheable`, say, makes the first fetch of a loader throw and leave an agent. */
  lemma ThrowingRequestLeavesAgent()
    ensures var (s, reply) := FetchStep(NEW_LOADER, Call("http://a/b.js", Returned("http:"), Some(Null)));
            reply == ThrowsInRequest(Null) && s.agents == map["http:" := 0] && s.requests == []
  {
    AcceptsScript();
    FirstFetchThrows("http://a/b.js", Null);
  }

  /** Nothing that happens after closing makes an agent, destroys one again, makes a request or delivers any text. */
  ghost predicate Inert(s: LoaderState, later: LoaderState) {
    && !later.active && later.agents == map[]
    && later.destroys == s.destroys
    && later.requests == s.requests
    && (forall i :: i in s.delivered ==> i in later.delivered && later.delivered[i] == s.delivered[i])
    && (forall i :: i in later.delivered && i !in s.delivered ==>
          later.delivered[i].Returned? ==> later.delivered[i].value == "")
  }

  lemma {:induction false} ClosedLoaderIsInert(s: LoaderState, es: seq<LoaderEvent>)
    requires Sound(s) && !s.active
    ensures Inert(s, LoaderRun(s, es))
    decreases |es|
  {
    if es != [] {
      var s' := LoaderStep(s, es[0]);
      StepIsSound(s, es[0]);
      assert s'.destroys == s.destroys;
      ClosedLoaderIsInert(s', es[1..]);
    }
  }

  lemma {:induction false} LoaderRunSplit(s: LoaderState, a: seq<LoaderEvent>, b: seq<LoaderEvent>)
    ensures LoaderRun(s, a + b) == LoaderRun(LoaderRun(s, a), b)
    decreases |a|
  {
    if a == [] {
      assert a + b == b;
    } else {
      assert (a + b)[0] == a[0] && (a + b)[1..] == a[1..] + b;
      LoaderRunSplit(LoaderStep(s, a[0]), a[1..], b);
    }
  }

  /** Event `k` is the first of `es` to settle request `i`. */
  ghost predicate FirstFor(es: seq<LoaderEvent>, i: nat, k: int) {
    && 0 <= k < |es| && es[k].Response? && es[k].request == i
    && forall j :: 0 <= j < k ==> !(es[j].Response? && es[j].request == i)
  }

  /** A request in flight when the loader is closed: a rejection is delivered as it is, a text as no text. */
  lemma {:induction false} DeliveredAfterClose(s: LoaderState, es: seq<LoaderEvent>, i: nat, k: int)
    requires Sound(s) && !s.active && i < |s.requests| && i !in s.delivered && FirstFor(es, i, k)
    ensures i in LoaderRun(s, es).delivered
    ensures LoaderRun(s, es).delivered[i] == if es[k].outcome.Returned? then Returned("") else es[k].outcome
    decreases |es|
  {
    var s' := LoaderStep(s, es[0]);
    StepIsSound(s, es[0]);
    if k == 0 {
      ClosedLoaderIsInert(s', es[1..]);
    } else {
      assert forall j :: 0 <= j < |es| - 1 ==> es[1..][j] == es[j + 1];
      assert !(es[0].Response? && es[0].request == i);
      DeliveredAfterClose(s', es[1..], i, k - 1);
    }
  }

  /**
   * For every run that closes the loader at some point: all agents made before are destroyed once, and
   * what is fetched afterwards makes none; a request still in flight yields no text, or its rejection.
   */
  lemma NothingSurvivesClose(before: seq<LoaderEvent>, after: seq<LoaderEvent>)
    ensures var closed := LoaderRun(NEW_LOADER, before + [CloseLoader]);
            && (forall a :: 0 <= a < |closed.destroys| ==> closed.destroys[a] == 1)
            && Inert(closed, LoaderRun(NEW_LOADER, before + [CloseLoader] + after))
    ensures var closed := LoaderRun(NEW_LOADER, before + [CloseLoader]);
            var later := LoaderRun(NEW_LOADER, before + [CloseLoader] + after);
            forall i: nat, k :: i < |closed.requests| && i !in closed.delivered && FirstFor(after, i, k) ==>
              && i in later.delivered
              && later.delivered[i] == if after[k].outcome.Returned? then Returned("") else after[k].outcome
  {
    NewLoaderRunIsSound(before);
    LoaderRunSplit(NEW_LOADER, before, [CloseLoader]);
    var s := LoaderRun(NEW_LOADER, before);
    assert LoaderRun(s, [CloseLoader]) == LoaderRun(CloseStep(s), [CloseLoader][1..]);
    CloseIsSound(s);
    LoaderRunSplit(NEW_LOADER, before + [CloseLoader], after);
    ClosedLoaderIsInert(CloseStep(s), after);
    forall i: nat, k | i < |s.requests| && i !in s.delivered && FirstFor(after, i, k)
      ensures i in LoaderRun(CloseStep(s), after).delivered
      ensures LoaderRun(CloseStep(s), after).delivered[i]
           == if after[k].outcome.Returned? then Returned("") else after[k].outcome
    {
      DeliveredAfterClose(CloseStep(s), after, i, k);
    }
  }

  lemma LoaderRunSnoc(es: seq<LoaderEvent>, e: LoaderEvent)
    ensures LoaderRun(NEW_LOADER, es + [e]) == LoaderStep(LoaderRun(NEW_LOADER, es), e)
  {
    LoaderRunSplit(NEW_LOADER, es, [e]);
    var s := LoaderRun(NEW_LOADER, es);
    assert LoaderRun(s, [e]) == LoaderRun(LoaderStep(s, e), [e][1..]);
  }

  /** Event `k` is a response to request `i`, which has been made by then. */
  ghost predicate RespondsTo(es: seq<LoaderEvent>, i: nat, k: int) {
    0 <= k < |es| && es[k].Response? && es[k].request == i && i < |LoaderRun(NEW_LOADER, es[..k]).requests|
  }

  /** It is the first such response. */
  ghost predicate Answers(es: seq<LoaderEvent>, i: nat, k: int) {
    RespondsTo(es, i, k) && forall j :: 0 <= j < k ==> !RespondsTo(es, i, j)
  }

  lemma AnswersSnoc(es: seq<LoaderEvent>, e: LoaderEvent, i: nat)
    ensures forall k :: k < |es| ==> (RespondsTo(es + [e], i, k) <==> RespondsTo(es, i, k))
    ensures forall k :: k < |es| ==> (Answers(es + [e], i, k) <==> Answers(es, i, k))
    ensures RespondsTo(es + [e], i, |es|) <==> e.Response? && e.request == i && i < |LoaderRun(NEW_LOADER, es).requests|
  {
    assert forall j :: 0 <= j < |es| ==> (es + [e])[..j] == es[..j] && (es + [e])[j] == es[j];
    assert (es + [e])[..|es|] == es;
  }

  lemma {:induction false} ActiveIff(es: seq<LoaderEvent>)
    ensures LoaderRun(NEW_LOADER, es).active <==> CloseLoader !in es
    decreases |es|
  {
    if es != [] {
      var before, e := es[..|es| - 1], es[|es| - 1];
      assert before + [e] == es;
      ActiveIff(before);
      LoaderRunSnoc(before, e);
    }
  }

  /** A response logs one line exactly when it is a text, the first for its request, and the loader is closed. */
  lemma ResponseLogs(s: LoaderState, i: nat, outcome: Outcome<string, Value>)
    ensures RespondStep(s, i, outcome).log == s.log +
              if i < |s.requests| && i !in s.delivered && !s.active && outcome.Returned?
              then [NeverUsed(NameForLog(s.requests[i].url))] else []
  {
  }

  /** What one event changes for one request. */
  lemma DeliveryStep(s: LoaderState, e: LoaderEvent, i: nat)
    requires Sound(s)
    ensures i in s.delivered ==> i in LoaderStep(s, e).delivered && LoaderStep(s, e).delivered[i] == s.delivered[i]
    ensures i !in s.delivered ==>
              if e.Response? && e.request == i && i < |s.requests|
              then i in LoaderStep(s, e).delivered && LoaderStep(s, e).delivered[i] == Seen(s.active, e.outcome)
              else i !in LoaderStep(s, e).delivered
  {
  }

  lemma {:induction false} FirstAnswer(es: seq<LoaderEvent>, i: nat, j: int) returns (k: int)
    requires RespondsTo(es, i, j)
    ensures Answers(es, i, k)
    decreases j
  {
    if m :| 0 <= m < j && RespondsTo(es, i, m) { k := FirstAnswer(es, i, m); } else { k := j; }
  }

  lemma NoneBefore(es: seq<LoaderEvent>, i: nat)
    requires !exists k :: Answers(es, i, k)
    ensures forall j :: !RespondsTo(es, i, j)
  {
    if j :| RespondsTo(es, i, j) {
      var k := FirstAnswer(es, i, j);
    }
  }

  /**
   * What the caller of each fetch receives, over every run: the first response to its request, text or
   * rejection; only when it is a text and the loader has been closed by then, no text instead.
   */
  lemma {:induction false} DeliveryMeaning(es: seq<LoaderEvent>, i: nat)
    ensures var d := LoaderRun(NEW_LOADER, es).delivered;
            && (i in d <==> exists k :: Answers(es, i, k))
            && (forall k :: Answers(es, i, k) ==>
                  && i in d
                  && d[i] == if es[k].outcome.Returned? && CloseLoader in es[..k] then Returned("") else es[k].outcome)
    decreases |es|
  {
    if es != [] {
      var n := |es| - 1;
      var before, e := es[..n], es[n];
      assert before + [e] == es;
      var s := LoaderRun(NEW_LOADER, before);
      DeliveryMeaning(before, i);
      LoaderRunSnoc(before, e);
      AnswersSnoc(before, e, i);
      NewLoaderRunIsSound(before);
      DeliveryStep(s, e, i);
      ActiveIff(before);
      forall k | Answers(before, i, k) ensures before[..k] == es[..k] && Answers(es, i, k) {}
      if RespondsTo(es, i, n) && i !in s.delivered { NoneBefore(before, i); }
      assert Answers(es, i, n) ==> es[..n] == before;
    }
  }

  // ----- The objects -----

  class Agent {
    ghost const id: nat
    var destroys: nat

    constructor (ghost id: nat)
      ensures this.id == id && destroys == 0
    {
      this.id := id;
      destroys := 0;
    }

    method Destroy()
      modifies this
      ensures destroys == old(destroys) + 1
    {
      destroys := destroys + 1;
    }
  }

  /** One turn of the loop in `close`. */
  function DropAgent(s: LoaderState, key: string): LoaderState
    requires key in s.agents && s.agents[key] < |s.destroys|
  {
    var a := s.agents[key];
    s.(agents := s.agents - {key}, destroys := s.destroys[a := s.destroys[a] + 1])
  }

  /** Part of the way through closing `s`: the agents still in the table are the ones still to be destroyed. */
  ghost predicate Closing(s: LoaderState, now: LoaderState) {
    && now == s.(active := false, agents := now.agents, destroys := now.destroys)
    && (forall p :: p in now.agents ==> p in s.agents && now.agents[p] == s.agents[p])
    && |now.destroys| == |s.destroys|
    && forall a :: 0 <= a < |s.destroys| ==>
         now.destroys[a] == if a in now.agents.Values then s.destroys[a] else CloseStep(s).destroys[a]
  }

  lemma ClosingStep(s: LoaderState, now: LoaderState, key: string)
    requires Sound(s) && Closing(s, now) && key in now.agents
    ensures now.agents[key] < |now.destroys| && Closing(s, DropAgent(now, key))
  {
    var a := now.agents[key];
    assert a in s.agents.Values && a in now.agents.Values;
    var later := DropAgent(now, key);
    forall v | v in now.agents.Values && v != a ensures v in later.agents.Values {
      var p :| p in now.agents && now.agents[p] == v;
      assert later.agents[p] == v;
    }
    forall p | p in later.agents ensures later.agents[p] != a {
      assert s.agents[p] == s.agents[key] ==> p == key;
    }
  }

  lemma ClosingBegins(s: LoaderState)
    requires Sound(s)
    ensures Closing(s, s.(active := false))
  {
    assert LiveAgents(s) == s.agents.Values;
  }

  lemma ClosingEnds(s: LoaderState, now: LoaderState)
    requires Closing(s, now) && now.agents.Keys == {}
    ensures now == CloseStep(s)
  {
    assert now.agents == map[];
    assert now.destroys == CloseStep(s).destroys;
  }

  /** A request in flight, with the agent object it uses. */
  datatype Sent = Sent(url: string, protocol: string, agent: Agent)

  class JSDOMSixteenResourceLoader {
    var active: bool
    var agents: map<string, Agent>
    var sent: seq<Sent>
    var delivered: map<nat, Outcome<string, Value>>
    var log: seq<LogLine>
    ghost var created: seq<Agent>
    ghost var view: LoaderState

    /** The fields are what `view` says. */
    ghost predicate Shows()
      reads this, created
    {
      && active == view.active && delivered == view.delivered && log == view.log
      && agents.Keys == view.agents.Keys
      && (forall p :: p in agents ==> agents[p] in created && agents[p].id == view.agents[p])
      && |created| == |view.destroys|
      && (forall i :: 0 <= i < |created| ==> created[i].id == i && created[i].destroys == view.destroys[i])
      && |sent| == |view.requests|
      && (forall i :: 0 <= i < |sent| ==> view.requests[i] == Request(sent[i].url, sent[i].protocol, sent[i].agent.id))
    }

    ghost predicate Valid()
      reads this, created
    {
      Shows() && Sound(view)
    }

    constructor ()
      ensures Valid() && view == NEW_LOADER && created == []
    {
      active := true;
      agents := map[];
      sent := [];
      delivered := map[];
      log := [];
      created := [];
      view := NEW_LOADER;
    }

    method AddAgent(key: string) returns (agent: Agent)
      requires Shows() && key !in agents
      modifies this`agents, this`created, this`view
      ensures Shows() && fresh(agent) && created == old(created) + [agent]
      ensures var a := |old(view).destroys|;
              && agent.id == a
              && view == old(view).(agents := old(view).agents[key := a], destroys := old(view).destroys + [0])
    {
      agent := new Agent(|created|);
      created := created + [agent];
      agents := agents[key := agent];
      view := view.(agents := view.agents[key := |view.destroys|], destroys := view.destroys + [0]);
    }

    method GetAgent(protocol: Outcome<string, Value>) returns (r: Outcome<Agent, FetchReply>)
      requires Valid() && active
      modifies this`agents, this`created, this`view
      ensures Valid() && old(created) <= created && fresh(created[|old(created)|..])
      ensures var (after, result) := GetAgentStep(old(view), protocol);
              && view == after
              && (r.Returned? ==> r.value in created && result == Returned(r.value.id))
              && (r.Threw? ==> result == Threw(r.error))
    {
      GetAgentIsSound(view, protocol);
      if protocol.Threw? { return Threw(ThrowsOnUrl(protocol.error)); }
      var key := protocol.value;
      if key in agents { return Returned(agents[key]); }
      if !Supported(key) { return Threw(ThrowsOnProtocol(key)); }
      var agent := AddAgent(key);
      return Returned(agent);
    }

    method DestroyAgent(key: string)
      requires Shows() && key in agents && view.agents[key] < |view.destroys|
      modifies this`view, created
      ensures Shows() && agents == old(agents)
      ensures var a := old(view).agents[key];
              view == old(view).(destroys := old(view).destroys[a := old(view).destroys[a] + 1])
    {
      ghost var a := view.agents[key];
      agents[key].Destroy();
      view := view.(destroys := view.destroys[a := view.destroys[a] + 1]);
    }

    method DeleteEntry(key: string)
      requires Shows() && key in agents
      modifies this`agents, this`view
      ensures Shows() && agents == old(agents) - {key}
      ensures view == old(view).(agents := old(view).agents - {key})
    {
      agents := agents - {key};
      view := view.(agents := view.agents - {key});
    }

    method DestroyAndDelete(key: string, ghost s: LoaderState)
      requires Shows() && key in agents
      requires Sound(s) && Closing(s, view)
      modifies this`agents, this`view, created
      ensures Shows() && agents.Keys == old(agents.Keys) - {key}
      ensures Closing(s, view)
    {
      ClosingStep(s, view, key);
      ghost var now := view;
      DestroyAgent(key);
      DeleteEntry(key);
      assert view == DropAgent(now, key);
    }

    method DestroyOne(ghost s: LoaderState)
      requires Shows() && agents.Keys != {}
      requires Sound(s) && Closing(s, view)
      modifies this`agents, this`view, created
      ensures Shows() && agents.Keys < old(agents.Keys)
      ensures Closing(s, view)
    {
      var key :| key in agents.Keys;
      DestroyAndDelete(key, s);
    }

    method DestroyAll(ghost s: LoaderState)
      requires Shows() && Sound(s) && Closing(s, view)
      modifies this`agents, this`view, created
      ensures Shows() && Closing(s, view) && agents.Keys == {}
    {
      while agents.Keys != {}
        invariant Shows()
        invariant Closing(s, view)
        decreases agents.Keys
      {
        DestroyOne(s);
      }
    }

    method Close()
      requires Valid()
      modifies this`active, this`agents, this`view, created
      ensures Valid() && created == old(created)
      ensures view == CloseStep(old(view))
    {
      ghost var s := view;
      ClosingBegins(s);
      active := false;
      view := s.(active := false);
      DestroyAll(s);
      ClosingEnds(s, view);
      CloseIsSound(s);
    }

    method Send(request: Sent)
      requires Shows() && request.agent in created
      modifies this`sent, this`view
      ensures Shows()
      ensures var made := Request(request.url, request.protocol, request.agent.id);
              view == old(view).(requests := old(view).requests + [made])
    {
      sent := sent + [request];
      view := view.(requests := view.requests + [Request(request.url, request.protocol, request.agent.id)]);
    }

    method Fetch(call: Call) returns (reply: FetchReply)
      requires Valid()
      modifies this
      ensures Valid() && old(created) <= created && fresh(created[|old(created)|..])
      ensures (view, reply) == FetchStep(old(view), call)
    {
      ghost var s := view;
      StepIsSound(s, FetchUrl(call));
      if !active {
        if !IsInlineData(call.url) { log := log + [FetchAfterClose(call.url)]; }
        view := view.(log := log);
        return EmptyBuffer;
      }
      if !LoaderAccepts(call.url) {
        log := log + [EmptyResponse(NameForLog(call.url))];
        view := view.(log := log);
        return EmptyBuffer;
      }
      var agent := GetAgent(call.protocol);
      if agent.Threw? { return agent.error; }
      if call.requestThrows.Some? { return ThrowsInRequest(call.requestThrows.value); }
      reply := Pending(|sent|);
      Send(Sent(call.url, call.protocol.value, agent.value));
      assert (view, reply) == FetchStep(s, call);
    }

    /** The handler that `fetch` attaches to its request; a rejection passes it by. */
    method Respond(i: nat, outcome: Outcome<string, Value>)
      requires Valid()
      modifies this`delivered, this`log, this`view
      ensures Valid() && view == RespondStep(old(view), i, outcome)
    {
      StepIsSound(view, Response(i, outcome));
      if i >= |sent| || i in delivered { return; }
      if outcome.Threw? {
        delivered := delivered[i := outcome];
      } else if !active {
        log := log + [NeverUsed(NameForLog(sent[i].url))];
        delivered := delivered[i := Returned("")];
      } else {
        delivered := delivered[i := outcome];
      }
      view := RespondStep(view, i, outcome);
    }
  }
}
