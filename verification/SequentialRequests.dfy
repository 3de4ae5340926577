/**
 * Requests that run one at a time: then the label of src/gateway/requests-from-cache.js is right for
 * every one of them.
 */
module SequentialRequests {
  import opened RequestsFromCache

  datatype Operation = Get(url: string, succeeds: bool) | GetUncached(url: string, succeeds: bool) | Drop(url: string)

  /** All the events of one request, from its start to the reading of its label; failed requests have none to read. */
  function EventsOf(w: World, op: Operation): seq<Event> {
    var i := |w.requests|;
    match op
    case Get(url, succeeds) => [StartCached(url), if succeeds then Arrive(i) else Fail(i), Complete(i), ReadLabel(i)]
    case GetUncached(url, succeeds) =>
      [StartUncached(url), if succeeds then Arrive(i) else Fail(i), Complete(i), ReadLabel(i)]
    case Drop(url) => [Evict(url)]
  }

  function RunSequentially(w: World, ops: seq<Operation>): World
    decreases |ops|
  {
    if ops == [] then w else RunSequentially(Run(w, EventsOf(w, ops[0])), ops[1..])
  }

  /** The four events of one request: two of the network's, the completion handler, the reading of the label. */
  function OneByOne(w: World, first: Event, second: Event): World {
    var i := |w.requests|;
    Step(Step(Step(Step(w, first), second), Complete(i)), ReadLabel(i))
  }

  /** Between requests, everything in the cache has been through a completion handler. */
  ghost predicate Settled(w: World) {
    && (forall url :: url in w.cache ==>
        w.cache[url] < |w.tags| && (w.tags[w.cache[url]] == NotFromCache || w.tags[w.cache[url]] == FromCache))
    && forall k :: 0 <= k < |w.readings| ==> w.readings[k].fromCache == w.readings[k].hit
  }

  lemma HitCompletes(w: World, w1: World, i: nat, obj: nat)
    requires Settled(w) && !w.serialising && obj in w.cache.Values
    requires i == |w.requests| && w1 == Start(w, Resolved(true, obj, true))
    ensures var w' := Step(Step(w1, Complete(i)), ReadLabel(i));
            Settled(w') && !w'.serialising && w'.readings == w.readings + [Entry(i, obj, true, true)]
  {
    var w3 := Step(w1, Complete(i));
    assert w3.requests[i] == Labelled(obj, true, |w.labels|) && w3.tags == w.tags[obj := FromCache];
    var w4 := Step(w3, ReadLabel(i));
    assert w4.tags == w3.tags && w4.cache == w.cache;
  }

  lemma HitSettles(w: World, url: string, second: Event)
    requires Settled(w) && !w.serialising && url in w.cache
    requires second == Arrive(|w.requests|) || second == Fail(|w.requests|)
    ensures var w' := OneByOne(w, StartCached(url), second);
            Settled(w') && !w'.serialising
                && w'.readings == w.readings + [Entry(|w.requests|, w.cache[url], true, true)]
  {
    var i, obj := |w.requests|, w.cache[url];
    var w1 := Step(w, StartCached(url));
    assert w1.requests[i] == Resolved(true, obj, true);
    assert Step(w1, second) == w1;
    HitCompletes(w, w1, i, obj);
  }

  /** A request that goes to the network and succeeds. */
  lemma FetchSettles(w: World, url: string, cached: bool)
    requires Settled(w) && !w.serialising && (cached ==> url !in w.cache)
    ensures var i := |w.requests|;
            var first := if cached then StartCached(url) else StartUncached(url);
            var w' := OneByOne(w, first, Arrive(i));
            Settled(w') && !w'.serialising && w'.readings == w.readings + [Entry(i, |w.tags|, false, false)]
  {
    var i, obj, first := |w.requests|, |w.tags|, if cached then StartCached(url) else StartUncached(url);
    var w1 := Step(w, first);
    assert w1.requests[i] == Waiting(cached, url);
    var w2 := Step(w1, Arrive(i));
    assert w2.requests[i] == Resolved(cached, obj, false)
        && w2.tags == w.tags + [if cached then FreshlyPruned else Untagged];
    var w3 := Step(w2, Complete(i));
    assert w3.requests[i] == Labelled(obj, false, |w.labels|) && w3.tags == w.tags + [NotFromCache];
    assert Step(w3, ReadLabel(i)).tags == w3.tags;
  }

  lemma FailureSettles(w: World, url: string, cached: bool)
    requires Settled(w) && !w.serialising && (cached ==> url !in w.cache)
    ensures var i := |w.requests|;
            var first := if cached then StartCached(url) else StartUncached(url);
            var w' := OneByOne(w, first, Fail(i));
            Settled(w') && !w'.serialising && w'.readings == w.readings
  {
    var i, first := |w.requests|, if cached then StartCached(url) else StartUncached(url);
    assert Step(w, first).requests[i] == Waiting(cached, url);
    assert Step(Step(w, first), Fail(i)).requests[i] == Failed;
  }

  /** What an operation makes of the world, without a sequence of events. */
  function AfterOperation(w: World, op: Operation): World {
    var i := |w.requests|;
    match op
    case Get(url, succeeds) => OneByOne(w, StartCached(url), if succeeds then Arrive(i) else Fail(i))
    case GetUncached(url, succeeds) => OneByOne(w, StartUncached(url), if succeeds then Arrive(i) else Fail(i))
    case Drop(url) => Step(w, Evict(url))
  }

  /** Running the events of an operation. */
  lemma RunOperation(w: World, op: Operation)
    ensures Run(w, EventsOf(w, op)) == AfterOperation(w, op)
  {
    var i := |w.requests|;
    match op {
      case Get(url, succeeds) =>
        RunFour(w, StartCached(url), if succeeds then Arrive(i) else Fail(i), Complete(i), ReadLabel(i));
      case GetUncached(url, succeeds) =>
        RunFour(w, StartUncached(url), if succeeds then Arrive(i) else Fail(i), Complete(i), ReadLabel(i));
      case Drop(url) =>
        assert [Evict(url)][1..] == [];
        assert Run(w, [Evict(url)]) == Run(Step(w, Evict(url)), []);
    }
  }

  /** The label read by a request that succeeds is right, whether it hits or not. */
  lemma OneRequestSettles(w: World, op: Operation)
    requires Settled(w) && !w.serialising
    ensures var w' := Run(w, EventsOf(w, op));
            && Settled(w') && !w'.serialising
            && w.readings <= w'.readings
            && (op.Get? && op.url in w.cache ==>
                |w'.readings| == |w.readings| + 1 && w'.readings[|w.readings|].fromCache)
            && (op.Get? && op.url !in w.cache && op.succeeds ==>
                |w'.readings| == |w.readings| + 1 && !w'.readings[|w.readings|].fromCache)
            && (op.GetUncached? && op.succeeds ==>
                |w'.readings| == |w.readings| + 1 && !w'.readings[|w.readings|].fromCache)
  {
    RunOperation(w, op);
    match op {
      case Get(url, succeeds) =>
        if url in w.cache { HitSettles(w, url, if succeeds then Arrive(|w.requests|) else Fail(|w.requests|)); }
        else if succeeds { FetchSettles(w, url, true); }
        else { FailureSettles(w, url, true); }
      case GetUncached(url, succeeds) =>
        if succeeds { FetchSettles(w, url, false); } else { FailureSettles(w, url, false); }
      case Drop(_) =>
    }
  }

  /**
   * When requests run one at a time, with evictions in between, `isFromCache` tells for every request
   * of every sequence whether its response was in the cache.
   */
  lemma {:induction false} SequentialLabelsAreExact(w: World, ops: seq<Operation>)
    requires Settled(w) && !w.serialising
    ensures Settled(RunSequentially(w, ops)) && w.readings <= RunSequentially(w, ops).readings
    ensures var w' := RunSequentially(w, ops);
            forall k :: 0 <= k < |w'.readings| ==> w'.readings[k].fromCache == w'.readings[k].hit
    decreases |ops|
  {
    if ops != [] {
      OneRequestSettles(w, ops[0]);
      SequentialLabelsAreExact(Run(w, EventsOf(w, ops[0])), ops[1..]);
    }
  }
}
