/**
 * The fetches that a render makes for its own files: which requests of the loader they are, and how
 * `Promise.all` over them moves while the loader serves everybody else as well.
 */
module OwnFetches {
  import opened Common
  import opened ErrorExtraction
  import opened FileRetrieval
  import opened ResourceLoader
  import opened UrlFilters

  /** One fetch of a listed file; without a request, its promise was resolved with no text from the start. */
  datatype Own = Own(url: string, request: Option<nat>)

  /** `settled` are the settlements so far, in their order. */
  datatype Fetching = Fetching(own: seq<Own>, all: All, settled: seq<Settlement>)

  // ----- Starting them -----

  const INVALID_INPUT := "InvalidInput"

  /** What a call of `fetch` throws, as an error. */
  function ErrorOf(reply: FetchReply): Thrown
    requires Throws(reply)
  {
    match reply
    case ThrowsOnProtocol(protocol) => KAError(INVALID_INPUT, "Unsupported protocol: " + protocol)
    case ThrowsOnUrl(error) => External(error)
    case ThrowsInRequest(error) => External(error)
  }

  /** One fetch for each call, up to the first that throws. */
  function StartFetches(s: LoaderState, calls: seq<Call>): (LoaderState, seq<Own>, Option<Thrown>)
    decreases |calls|
  {
    if calls == [] then (s, [], None)
    else
      var (s', reply) := FetchStep(s, calls[0]);
      if Throws(reply) then (s', [], Some(ErrorOf(reply)))
      else
        var (s'', rest, error) := StartFetches(s', calls[1..]);
        (s'', [Own(calls[0].url, if reply.Pending? then Some(reply.request) else None)] + rest, error)
  }

  /** The same for an active loader, without looking at the loader. */
  function StartOf(call: Call): FetchStart {
    if !LoaderAccepts(call.url) then Started
    else match call.protocol
      case Threw(error) => ThrowsAtOnce(External(error))
      case Returned(protocol) =>
        if !Supported(protocol) then ThrowsAtOnce(ErrorOf(ThrowsOnProtocol(protocol)))
        else if call.requestThrows.Some? then ThrowsAtOnce(External(call.requestThrows.value))
        else Started
  }

  /** Which fetches start, and what the others throw. */
  lemma StartOfIs(call: Call)
    ensures !LoaderAccepts(call.url) ==> StartOf(call) == Started
    ensures LoaderAccepts(call.url) ==>
              match call.protocol
              case Threw(error) => StartOf(call) == ThrowsAtOnce(External(error))
              case Returned(p) =>
                if p != "http:" && p != "https:" then
                  StartOf(call) == ThrowsAtOnce(Raised("KAInvalidInputError", "Unsupported protocol: " + p))
                else
                  StartOf(call) == match call.requestThrows
                                   case Some(error) => ThrowsAtOnce(External(error))
                                   case None => Started
  {
    assert "KA" + INVALID_INPUT + "Error" == "KAInvalidInputError";
  }

  function StartsOf(calls: seq<Call>): seq<FetchStart> {
    seq(|calls|, i requires 0 <= i < |calls| => StartOf(calls[i]))
  }

  function UrlsOf(calls: seq<Call>): seq<string> {
    seq(|calls|, i requires 0 <= i < |calls| => calls[i].url)
  }

  lemma StartOne(s: LoaderState, call: Call)
    requires Sound(s) && s.active
    ensures var (s', reply) := FetchStep(s, call);
            && Sound(s') && s'.active && s'.delivered == s.delivered
            && StartOf(call) == (if Throws(reply) then ThrowsAtOnce(ErrorOf(reply)) else Started)
            && s.requests <= s'.requests
            && (reply.Pending? ==> reply.request == |s.requests| && |s'.requests| == |s.requests| + 1)
            && (reply.Pending? ==> s'.requests[reply.request].url == call.url)
  {
    StepIsSound(s, FetchUrl(call));
    FetchThrowsIff(s, call);
    if LoaderAccepts(call.url) { GetAgentIsSound(s, call.protocol); }
  }

  /** The fetches of a list are new requests, one for each, and none of them shared with anything before. */
  ghost predicate NewRequests(s: LoaderState, later: LoaderState, own: seq<Own>) {
    && s.requests <= later.requests && later.delivered == s.delivered
    && (forall k :: 0 <= k < |own| && own[k].request.Some? ==>
          && |s.requests| <= own[k].request.value < |later.requests|
          && later.requests[own[k].request.value].url == own[k].url)
    && (forall j, k :: 0 <= j < k < |own| && own[j].request.Some? && own[k].request.Some? ==>
          own[j].request.value < own[k].request.value)
  }

  lemma NewRequestsCons(s: LoaderState, next: LoaderState, later: LoaderState, first: Own, rest: seq<Own>)
    requires NewRequests(next, later, rest) && s.requests <= next.requests && next.delivered == s.delivered
    requires first.request.Some? ==>
               && first.request.value == |s.requests| && |next.requests| == |s.requests| + 1
               && next.requests[|s.requests|].url == first.url
    ensures NewRequests(s, later, [first] + rest)
  {
    var own := [first] + rest;
    forall k | 0 <= k < |own| && own[k].request.Some?
      ensures |s.requests| <= own[k].request.value < |later.requests|
      ensures later.requests[own[k].request.value].url == own[k].url
    {
      if k > 0 { assert own[k] == rest[k - 1]; }
    }
    forall j, k | 0 <= j < k < |own| && own[j].request.Some? && own[k].request.Some?
      ensures own[j].request.value < own[k].request.value
    {
      assert own[k] == rest[k - 1];
      if j > 0 { assert own[j] == rest[j - 1]; }
    }
  }

  lemma StartsOfCons(calls: seq<Call>)
    requires calls != []
    ensures StartsOf(calls)[0] == StartOf(calls[0]) && StartsOf(calls)[1..] == StartsOf(calls[1..])
    ensures FirstNotStarted(StartsOf(calls)) ==
              if StartOf(calls[0]).Started? then 1 + FirstNotStarted(StartsOf(calls[1..])) else 0
  {
    assert StartsOf(calls)[1..] == StartsOf(calls[1..]);
  }

  /** A first fetch that does not throw, and those after it. */
  lemma StartsWithOne(s: LoaderState, calls: seq<Call>)
    requires Sound(s) && s.active && calls != [] && !Throws(FetchStep(s, calls[0]).1)
    requires var s' := FetchStep(s, calls[0]).0;
             var (later, rest, _) := StartFetches(s', calls[1..]);
             NewRequests(s', later, rest)
    ensures var (later, own, error) := StartFetches(s, calls);
            var (later', rest, error') := StartFetches(FetchStep(s, calls[0]).0, calls[1..]);
            && later == later' && error == error' && own[1..] == rest && own[0].url == calls[0].url
            && |own| == |rest| + 1 && NewRequests(s, later, own)
  {
    StartOne(s, calls[0]);
    var (s', reply) := FetchStep(s, calls[0]);
    var (later, rest, error) := StartFetches(s', calls[1..]);
    NewRequestsCons(s, s', later, Own(calls[0].url, if reply.Pending? then Some(reply.request) else None), rest);
  }

  /** Starting the fetches of a list: which one throws, and what it throws, depends on the calls alone. */
  lemma {:induction false} StartingFetches(s: LoaderState, calls: seq<Call>)
    requires Sound(s) && s.active
    ensures var (later, own, error) := StartFetches(s, calls);
            var k := FirstNotStarted(StartsOf(calls));
            && Sound(later) && later.active
            && NewRequests(s, later, own)
            && |own| == k && (forall i :: 0 <= i < k ==> own[i].url == calls[i].url)
            && (error.None? <==> k == |calls|)
            && (error.Some? ==> StartsOf(calls)[k] == ThrowsAtOnce(error.value))
    decreases |calls|
  {
    if calls != [] {
      StartOne(s, calls[0]);
      var (s', reply) := FetchStep(s, calls[0]);
      StartsOfCons(calls);
      if !Throws(reply) {
        StartingFetches(s', calls[1..]);
        StartsWithOne(s, calls);
      }
    }
  }

  // ----- Waiting for them -----

  function Begin(own: seq<Own>): Fetching { Fetching(own, Check(|own|, map[]), []) }

  const NO_FETCHING := Begin([])

  /** The files, when everything has arrived. */
  function FilesOf(f: Fetching): seq<File> {
    seq(|f.own|, i requires 0 <= i < |f.own| =>
      File(if f.all.Fulfilled? && i < |f.all.contents| then f.all.contents[i] else "", f.own[i].url))
  }

  /** Which of the fetches a request belongs to. */
  function OwnIndex(own: seq<Own>, request: nat): (r: Option<nat>)
    ensures r.Some? ==> r.value < |own| && own[r.value].request == Some(request)
    ensures r.None? ==> forall k :: 0 <= k < |own| ==> own[k].request != Some(request)
  {
    if own == [] then None
    else if own[|own| - 1].request == Some(request) then Some(|own| - 1)
    else OwnIndex(own[..|own| - 1], request)
  }

  ghost predicate SettledAt(settled: seq<Settlement>, k: nat) {
    exists m :: 0 <= m < |settled| && settled[m].index == k
  }

  predicate HasSettled(settled: seq<Settlement>, k: nat)
    ensures HasSettled(settled, k) <==> SettledAt(settled, k)
  {
    if settled == [] then false
    else settled[|settled| - 1].index == k || HasSettled(settled[..|settled| - 1], k)
  }

  function SettleOwn(f: Fetching, k: nat, outcome: Outcome<string, Value>): Fetching {
    var s := Settlement(k, outcome);
    f.(all := Settle(|f.own|, f.all, s), settled := f.settled + [s])
  }

  /** A request of the loader has settled, whoever made it. */
  function AfterResponse(f: Fetching, before: LoaderState, after: LoaderState, request: nat): Fetching {
    if request in after.delivered && request !in before.delivered && OwnIndex(f.own, request).Some?
    then SettleOwn(f, OwnIndex(f.own, request).value, after.delivered[request])
    else f
  }

  /** The handlers of a promise that was resolved from the start get their turn. */
  function AfterTurn(f: Fetching, k: nat): Fetching {
    if k < |f.own| && f.own[k].request.None? && !HasSettled(f.settled, k) then SettleOwn(f, k, Returned("")) else f
  }

  /** How a state of the retrieval can follow another: at most one settlement of a fetch of its own is added. */
  ghost predicate Extends(f: Fetching, later: Fetching) {
    later == f || (f.own != [] && exists k, outcome :: later == SettleOwn(f, k, outcome))
  }

  lemma EventsExtend(f: Fetching, before: LoaderState, after: LoaderState, request: nat, k: nat)
    ensures Extends(f, AfterResponse(f, before, after, request)) && Extends(f, AfterTurn(f, k))
  {
    var g := AfterResponse(f, before, after, request);
    if g != f { assert g == SettleOwn(f, OwnIndex(f.own, request).value, after.delivered[request]); }
    var g' := AfterTurn(f, k);
    if g' != f { assert g' == SettleOwn(f, k, Returned("")); }
  }

  /** A settlement that nobody waits for any more does not change the files. */
  lemma LateSettlement(f: Fetching, later: Fetching)
    requires Extends(f, later) && !f.all.Waiting?
    ensures later.all == f.all && later.own == f.own && FilesOf(later) == FilesOf(f)
  {
  }

  /** What a fetch has settled to; `None` while it has not. */
  ghost predicate SettledTo(f: Fetching, loader: LoaderState, k: nat, outcome: Outcome<string, Value>)
    requires k < |f.own|
  {
    match f.own[k].request
    case None => outcome == Returned("")
    case Some(i) => i in loader.delivered && loader.delivered[i] == outcome
  }

  ghost predicate DistinctRequests(own: seq<Own>) {
    forall j, k :: 0 <= j < k < |own| && own[j].request.Some? && own[k].request.Some? ==>
      own[j].request.value < own[k].request.value
  }

  ghost predicate OwnRequests(own: seq<Own>, loader: LoaderState) {
    forall k :: 0 <= k < |own| && own[k].request.Some? ==>
      own[k].request.value < |loader.requests| && loader.requests[own[k].request.value].url == own[k].url
  }

  /** The settlements that a state of the retrieval has recorded are those of its own requests. */
  ghost predicate RecordsOwn(f: Fetching, loader: LoaderState) {
    forall m :: 0 <= m < |f.settled| ==>
      f.settled[m].index < |f.own| && SettledTo(f, loader, f.settled[m].index, f.settled[m].outcome)
  }

  ghost predicate MissesNone(f: Fetching, loader: LoaderState) {
    forall k :: 0 <= k < |f.own| && f.own[k].request.Some? && f.own[k].request.value in loader.delivered ==>
      SettledAt(f.settled, k)
  }

  /** What was delivered before is still delivered. */
  ghost predicate DeliversMore(before: LoaderState, loader: LoaderState) {
    forall i :: i in before.delivered ==> i in loader.delivered && loader.delivered[i] == before.delivered[i]
  }

  /** The bookkeeping follows the loader: every settlement is that of its own request, and none is missed. */
  ghost predicate Tracks(f: Fetching, loader: LoaderState) {
    && f.all == AwaitAll(|f.own|, f.settled)
    && OncePerFetch(|f.own|, f.settled)
    && OwnRequests(f.own, loader)
    && DistinctRequests(f.own)
    && RecordsOwn(f, loader)
    && MissesNone(f, loader)
  }

  lemma NothingTracked(loader: LoaderState)
    ensures Tracks(NO_FETCHING, loader) && NO_FETCHING.all.Fulfilled?
  {
  }

  lemma BeginTracks(s: LoaderState, calls: seq<Call>)
    requires Sound(s) && s.active && StartFetches(s, calls).2.None?
    ensures Tracks(Begin(StartFetches(s, calls).1), StartFetches(s, calls).0)
  {
    StartingFetches(s, calls);
    var (later, own, _) := StartFetches(s, calls);
    forall k | 0 <= k < |own| && own[k].request.Some? ensures own[k].request.value !in later.delivered {
      assert forall i :: i in s.delivered ==> i < |s.requests|;
    }
  }

  /** One more settlement leaves none of the fetches without one that had one. */
  lemma SettledStays(settled: seq<Settlement>, s: Settlement)
    ensures SettledAt(settled + [s], s.index)
    ensures forall k: nat :: SettledAt(settled, k) ==> SettledAt(settled + [s], k)
  {
    var longer := settled + [s];
    assert longer[|settled|] == s;
    forall k: nat | SettledAt(settled, k) ensures SettledAt(longer, k) {
      var m :| 0 <= m < |settled| && settled[m].index == k;
      assert longer[m].index == k;
    }
  }

  lemma SettleRecordsOwn(f: Fetching, before: LoaderState, loader: LoaderState, k: nat, outcome: Outcome<string, Value>)
    requires RecordsOwn(f, before) && DeliversMore(before, loader)
    requires k < |f.own| && SettledTo(f, loader, k, outcome)
    ensures RecordsOwn(SettleOwn(f, k, outcome), loader)
  {
  }

  lemma SettleMissesNone(f: Fetching, before: LoaderState, loader: LoaderState, k: nat, outcome: Outcome<string, Value>)
    requires MissesNone(f, before) && k < |f.own| && DistinctRequests(f.own)
    requires forall i :: i in loader.delivered && i !in before.delivered ==> f.own[k].request == Some(i)
    ensures MissesNone(SettleOwn(f, k, outcome), loader)
  {
    SettledStays(f.settled, Settlement(k, outcome));
    var f' := SettleOwn(f, k, outcome);
    forall j | 0 <= j < |f.own| && f.own[j].request.Some? && f.own[j].request.value in loader.delivered
      ensures SettledAt(f'.settled, j)
    {
      if j != k { assert f.own[j].request != f.own[k].request; }
    }
  }

  lemma OneMore(n: nat, settled: seq<Settlement>, s: Settlement)
    requires OncePerFetch(n, settled) && s.index < n && !SettledAt(settled, s.index)
    ensures OncePerFetch(n, settled + [s])
    ensures AwaitAll(n, settled + [s]) == Settle(n, AwaitAll(n, settled), s)
  {
    var longer := settled + [s];
    assert longer[..|longer| - 1] == settled && longer[|settled|] == s;
    assert forall j :: 0 <= j < |settled| ==> longer[j] == settled[j] && settled[j].index != s.index;
  }

  lemma SettleKeepsTracks(
    f: Fetching, before: LoaderState, loader: LoaderState, k: nat, outcome: Outcome<string, Value>
  )
    requires Tracks(f, before) && k < |f.own| && !SettledAt(f.settled, k)
    requires before.requests <= loader.requests && DeliversMore(before, loader)
    requires forall i :: i in loader.delivered && i !in before.delivered ==> f.own[k].request == Some(i)
    requires SettledTo(f, loader, k, outcome)
    ensures Tracks(SettleOwn(f, k, outcome), loader)
  {
    SettleRecordsOwn(f, before, loader, k, outcome);
    SettleMissesNone(f, before, loader, k, outcome);
    OneMore(|f.own|, f.settled, Settlement(k, outcome));
  }

  lemma ResponseKeepsTracks(f: Fetching, loader: LoaderState, i: nat, outcome: Outcome<string, Value>)
    requires Tracks(f, loader)
    ensures var after := RespondStep(loader, i, outcome);
            Tracks(AfterResponse(f, loader, after, i), after)
  {
    var after := RespondStep(loader, i, outcome);
    var k := OwnIndex(f.own, i);
    if after != loader && k.Some? {
      assert !SettledAt(f.settled, k.value);
      SettleKeepsTracks(f, loader, after, k.value, after.delivered[i]);
    }
  }

  lemma TurnKeepsTracks(f: Fetching, loader: LoaderState, k: nat)
    requires Tracks(f, loader)
    ensures Tracks(AfterTurn(f, k), loader)
  {
    if AfterTurn(f, k) != f { SettleKeepsTracks(f, loader, loader, k, Returned("")); }
  }

  /** A change of the loader that settles nothing, such as a fetch by somebody else, or closing it. */
  lemma OthersKeepTracks(f: Fetching, loader: LoaderState, later: LoaderState)
    requires Tracks(f, loader) && loader.requests <= later.requests && later.delivered == loader.delivered
    ensures Tracks(f, later)
  {
  }

  /** When all files are there, each has the text that its own fetch delivered, and nothing was rejected. */
  lemma ContentsAreOwn(f: Fetching, loader: LoaderState)
    requires Tracks(f, loader) && f.all.Fulfilled?
    ensures |f.all.contents| == |f.own| && NoneFails(f.settled)
    ensures forall k: nat :: k < |f.own| ==> SettledTo(f, loader, k, Returned(f.all.contents[k]))
  {
    FulfilledMeansNoneFails(|f.own|, f.settled);
    CollectedAreDelivered(|f.own|, f.settled);
    forall k: nat | k < |f.own| ensures SettledTo(f, loader, k, Returned(f.all.contents[k])) {
      assert Delivers(f.settled, k, f.all.contents[k]);
      var m :| 0 <= m < |f.settled| && f.settled[m] == Settlement(k, Returned(f.all.contents[k]));
    }
  }

  /** No wake-up is lost: a retrieval waits only while some fetch of its own has not settled. */
  lemma WaitsForOwn(f: Fetching, loader: LoaderState) returns (k: nat)
    requires Tracks(f, loader) && f.all.Waiting?
    ensures k < |f.own| && !SettledAt(f.settled, k)
    ensures f.own[k].request.Some? ==> f.own[k].request.value !in loader.delivered
  {
    FulfilledMeansNoneFails(|f.own|, f.settled);
    CollectedAreDelivered(|f.own|, f.settled);
    k :| k < |f.own| && !Arrived(f.settled, k);
    forall m | 0 <= m < |f.settled| && f.settled[m].index == k ensures Arrived(f.settled, k) {
      assert f.settled[m] == Settlement(k, Returned(f.settled[m].outcome.value));
      assert Delivers(f.settled, k, f.settled[m].outcome.value);
    }
  }
}
