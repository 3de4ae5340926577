/**
 * src/gateway/request.js with src/gateway/make-request.js: a trace session around every request,
 * and an `abort` that reaches the request through every promise wrapped around it.
 *
 * `makeRequest` can throw at once, because it calls the options' `isCacheable` and `getExpiration`. The
 * trace has been started by then, and nothing ends it.
 */
module Request {
  import opened Common
  import opened UrlFilters
  import opened Regex

  // ----- Which kind of request -----

  datatype RequestKind = Cached | Uncached

  /** `makeRequest`. */
  function MakeRequest(hasCachePlugin: bool, url: string, isCacheable: Option<string -> Option<bool>>): RequestKind {
    if hasCachePlugin && IsCacheable(url, isCacheable) then Cached else Uncached
  }

  /** Which requests go through the cache: the override decides if it has an opinion, and otherwise the URL does. */
  lemma CachedIff(hasCachePlugin: bool, url: string, isCacheable: Option<string -> Option<bool>>)
    ensures MakeRequest(hasCachePlugin, url, isCacheable) == Cached <==>
              && hasCachePlugin
              && ((isCacheable.Some? && isCacheable.value(url) == Some(true))
                  || ((isCacheable.None? || isCacheable.value(url).None?) && OneLine(url)
                      && (EndsIn(url, ".js") || Contains(url, ".js?"))))
  {
    CacheableByDefaultIff(url);
  }

  /** Without an override, a URL goes through the cache only if it is one that an active resource loader fetches. */
  lemma CachedRequestsAreScripts(hasCachePlugin: bool, url: string)
    requires MakeRequest(hasCachePlugin, url, None) == Cached
    ensures hasCachePlugin && LoaderAccepts(url)
  {
    CacheableIsFetched(url);
  }

  // ----- Sessions of concurrent requests -----

  datatype Session = Session(url: string, fromCache: Option<bool>, successful: bool, ended: nat)
  datatype Progress = InFlight | Resolved(fromCache: bool) | Rejected | ThrewAtOnce
  datatype Tracked = Tracked(session: Session, progress: Progress)

  datatype Event = Start(url: string, throws: bool) | Resolve(request: nat, fromCache: bool) | Reject(request: nat)

  function EndSession(s: Session): Session { s.(ended := s.ended + 1) }

  /** The `then` handler and the `finally` handler of `request`. A promise settles once. */
  function Settle(t: Tracked, outcome: Progress): Tracked {
    if !t.progress.InFlight? then t
    else
      var session := if outcome.Resolved? then t.session.(fromCache := Some(outcome.fromCache), successful := true)
          else t.session;
      Tracked(EndSession(session), outcome)
  }

  function Step(all: seq<Tracked>, e: Event): seq<Tracked> {
    match e
    case Start(url, throws) => all + [Tracked(Session(url, None, false, 0), if throws then ThrewAtOnce else InFlight)]
    case Resolve(i, fromCache) => if i < |all| then all[i := Settle(all[i], Resolved(fromCache))] else all
    case Reject(i) => if i < |all| then all[i := Settle(all[i], Rejected)] else all
  }

  function Run(es: seq<Event>): seq<Tracked> {
    if es == [] then [] else Step(Run(es[..|es| - 1]), es[|es| - 1])
  }

  function Starts(es: seq<Event>): seq<Event> {
    if es == [] then [] else Starts(es[..|es| - 1]) + if es[|es| - 1].Start? then [es[|es| - 1]] else []
  }

  /** Request `i` is settled by event `k`: the first of its own, after it was started. */
  ghost predicate SettledBy(es: seq<Event>, i: nat, k: int) {
    && 0 <= k < |es| && (es[k].Resolve? || es[k].Reject?) && es[k].request == i
    && i < |Starts(es[..k])|
    && forall j :: 0 <= j < k && (es[j].Resolve? || es[j].Reject?) && es[j].request == i ==> i >= |Starts(es[..j])|
  }

  function OutcomeOf(e: Event): Progress
    requires e.Resolve? || e.Reject?
  {
    if e.Resolve? then Resolved(e.fromCache) else Rejected
  }

  /** What the session of a request shows, given how far the request has got. */
  predicate Shows(t: Tracked, url: string) {
    t.session == match t.progress
      case InFlight => Session(url, None, false, 0)
      case Resolved(fromCache) => Session(url, Some(fromCache), true, 1)
      case Rejected => Session(url, None, false, 1)
      case ThrewAtOnce => Session(url, None, false, 0)
  }

  lemma {:induction false} StartsGrow(es: seq<Event>, j: nat, k: nat)
    requires j <= k <= |es|
    ensures |Starts(es[..j])| <= |Starts(es[..k])|
    ensures forall e :: e in Starts(es[..k]) ==> e.Start?
    decreases k
  {
    if k > 0 {
      assert es[..k][..k - 1] == es[..k - 1];
      StartsGrow(es, if j < k then j else k - 1, k - 1);
    }
  }

  /** A request is settled by an event of its own, when it has started without throwing. */
  ghost predicate IsSettled(es: seq<Event>, i: nat) {
    exists k :: SettledBy(es, i, k)
  }

  lemma {:induction false} FirstSettling(es: seq<Event>, i: nat, j: nat) returns (k: nat)
    requires j < |es| && (es[j].Resolve? || es[j].Reject?) && es[j].request == i && i < |Starts(es[..j])|
    ensures k <= j && SettledBy(es, i, k)
    decreases j
  {
    if m :| 0 <= m < j && (es[m].Resolve? || es[m].Reject?) && es[m].request == i && i < |Starts(es[..m])| {
      k := FirstSettling(es, i, m);
    } else {
      k := j;
    }
  }

  lemma SettledBySnoc(es: seq<Event>, e: Event, i: nat)
    ensures forall k :: k < |es| ==> (SettledBy(es + [e], i, k) <==> SettledBy(es, i, k))
    ensures SettledBy(es + [e], i, |es|) <==>
        (e.Resolve? || e.Reject?) && e.request == i && i < |Starts(es)| && !IsSettled(es, i)
  {
    var longer := es + [e];
    assert forall j :: 0 <= j <= |es| ==> longer[..j] == es[..j];
    assert forall j :: 0 <= j < |es| ==> longer[j] == es[j];
    assert es[..|es|] == es;
    if IsSettled(es, i) {
      var k :| SettledBy(es, i, k);
      assert longer[k] == es[k];
    } else if j :| 0 <= j < |es| && (es[j].Resolve? || es[j].Reject?) && es[j].request == i && i < |Starts(es[..j])| {
      var k := FirstSettling(es, i, j);
      assert false;
    }
  }

  lemma SettledOnce(es: seq<Event>, i: nat)
    ensures forall j, k :: SettledBy(es, i, j) && SettledBy(es, i, k) ==> j == k
  {
  }

  /**
   * For any interleaving: there is one session for every request started; it is ended once when its
   * own request settles and not before, never if `makeRequest` threw, and says "successful" if and
   * only if that request resolved.
   */
  lemma {:induction false} SessionsAreBalanced(es: seq<Event>)
    ensures |Run(es)| == |Starts(es)|
    ensures forall i: nat :: i < |Run(es)| ==> Starts(es)[i].Start? && Shows(Run(es)[i], Starts(es)[i].url)
    ensures forall i: nat :: i < |Run(es)| ==> (Run(es)[i].progress == ThrewAtOnce <==> Starts(es)[i].throws)
    ensures forall i: nat, k :: i < |Run(es)| && !Starts(es)[i].throws && SettledBy(es, i, k) ==>
        Run(es)[i].progress == OutcomeOf(es[k])
    ensures forall i: nat :: i < |Run(es)| && !Starts(es)[i].throws ==>
        (Run(es)[i].progress == InFlight <==> !IsSettled(es, i))
    decreases |es|
  {
    if es != [] {
      var n := |es| - 1;
      var before, e := es[..n], es[n];
      assert before + [e] == es;
      SessionsAreBalanced(before);
      forall i: nat | i < |Run(es)| && !Starts(es)[i].throws
        ensures forall k :: SettledBy(es, i, k) ==> Run(es)[i].progress == OutcomeOf(es[k])
        ensures Run(es)[i].progress == InFlight <==> !IsSettled(es, i)
      {
        SettledBySnoc(before, e, i);
        if i < |Run(before)| {
          SettledOnce(es, i);
          if k :| SettledBy(before, i, k) { assert SettledBy(es, i, k); }
        } else {
          forall k ensures !SettledBy(es, i, k) {
            if 0 <= k < |es| { StartsGrow(es, k, n); }
          }
        }
      }
    }
  }

  lemma {:induction false} FirstStart(es: seq<Event>)
    requires es != [] && es[0].Start?
    ensures Starts(es) != [] && Starts(es)[0] == es[0]
    decreases |es|
  {
    if |es| > 1 {
      FirstStart(es[..|es| - 1]);
    } else {
      assert es == [es[0]] && es[..0] == [];
    }
  }

  /** A request that throws at once leaves its session open, whatever happens later. */
  lemma ThrownRequestStaysOpen(url: string, later: seq<Event>)
    ensures |Run([Start(url, true)] + later)| >= 1 && Run([Start(url, true)] + later)[0].session.ended == 0
  {
    var es := [Start(url, true)] + later;
    SessionsAreBalanced(es);
    FirstStart(es);
  }

  // ----- Aborting -----

  /**
   * What `abort` does on a promise: the patch that gives every promise a function that does nothing,
   * the abort of a request, or a call of another promise's `abort`.
   */
  datatype Abort = Inherited | OfRequest(request: nat) | OfPromise(promise: nat)

  /** The promise that the resource loader's `fetch` number `i` returned. */
  datatype Fetches = Fetches(promises: seq<Abort>, returned: seq<nat>)

  const NO_FETCHES := Fetches([], [])

  /**
   * One fetch: the promise of `asCachedRequest` or `asUncachedRequest`, that of `request`, and the one
   * with the loader's own handler. `reused` is an earlier fetch whose promise a custom result handler
   * returns instead. The loader copies the second promise's `abort` to what it returns.
   */
  function FetchStep(f: Fetches, reused: Option<nat>): Fetches {
    var inner := |f.promises|;
    var made := f.promises + [OfRequest(|f.returned|), OfPromise(inner), Inherited];
    var reuses := reused.Some? && reused.value < |f.returned| && f.returned[reused.value] < inner;
    var result := if reuses then f.returned[reused.value] else inner + 2;
    Fetches(made[result := made[inner + 1]], f.returned + [result])
  }

  function RunFetches(rs: seq<Option<nat>>): Fetches {
    if rs == [] then NO_FETCHES else FetchStep(RunFetches(rs[..|rs| - 1]), rs[|rs| - 1])
  }

  /** The request that an abort reaches in at most `depth` calls. */
  function Reaches(promises: seq<Abort>, a: Abort, depth: nat): Option<nat>
    decreases depth
  {
    match a
    case Inherited => None
    case OfRequest(request) => Some(request)
    case OfPromise(p) => if depth == 0 || p >= |promises| then None else Reaches(promises, promises[p], depth - 1)
  }

  /** Fetch `j` is the last one that returned this promise. */
  ghost predicate LastToReturn(returned: seq<nat>, promise: nat, j: nat) {
    j < |returned| && returned[j] == promise && forall k :: j < k < |returned| ==> returned[k] != promise
  }

  ghost predicate AbortsInv(f: Fetches) {
    forall i :: 0 <= i < |f.returned| ==>
      var p := f.returned[i];
      p < |f.promises| && f.promises[p].OfPromise? &&
      var q := f.promises[p].promise;
      q < |f.promises| && f.promises[q].OfRequest? && LastToReturn(f.returned, p, f.promises[q].request)
  }

  lemma {:induction false} RunFetchesInv(rs: seq<Option<nat>>)
    ensures AbortsInv(RunFetches(rs)) && |RunFetches(rs).returned| == |rs|
    decreases |rs|
  {
    if rs != [] {
      var f := RunFetches(rs[..|rs| - 1]);
      RunFetchesInv(rs[..|rs| - 1]);
      var f' := RunFetches(rs);
      var inner, result := |f.promises|, f'.returned[|f.returned|];
      assert f'.promises[inner] == OfRequest(|f.returned|) && f'.promises[result] == OfPromise(inner);
      forall i | 0 <= i < |f'.returned|
        ensures var p := f'.returned[i];
                p < |f'.promises| && f'.promises[p].OfPromise? &&
                var q := f'.promises[p].promise;
                q < |f'.promises| && f'.promises[q].OfRequest? && LastToReturn(f'.returned, p, f'.promises[q].request)
      {
        var p := f'.returned[i];
        if p != result {
          assert i < |f.returned| && f.returned[i] == p;
          assert f'.promises[p] == f.promises[p];
          var q := f.promises[p].promise;
          assert f'.promises[q] == f.promises[q];
        }
      }
    }
  }

  /**
   * For any sequence of fetches: aborting what fetch `i` returned reaches its own request, through the
   * promises around it, if and only if no later fetch returned the same promise.
   */
  lemma AbortReachesOwnRequestIff(rs: seq<Option<nat>>, i: nat)
    requires i < |rs|
    ensures var f := RunFetches(rs);
            && |f.returned| == |rs| && f.returned[i] < |f.promises|
            && (Reaches(f.promises, f.promises[f.returned[i]], 2) == Some(i) <==>
                  forall j :: i < j < |rs| ==> f.returned[j] != f.returned[i])
  {
    RunFetchesInv(rs);
    var f := RunFetches(rs);
    var p := f.returned[i];
    var q := f.promises[p].promise;
    assert Reaches(f.promises, f.promises[q], 1) == Some(f.promises[q].request);
  }

  lemma LastReturns(f: Fetches, reused: Option<nat>)
    requires AbortsInv(f)
    ensures var later := FetchStep(f, reused);
            var n := |f.returned|;
            && later.returned[..n] == f.returned && |later.returned| == n + 1
            && (reused.Some? && reused.value < n ==> later.returned[n] == f.returned[reused.value])
            && (reused.None? ==> forall j :: 0 <= j < n ==> f.returned[j] != later.returned[n])
  {
  }

  /** What fetch `i` returns: a promise of its own, unless its handler returns that of an earlier fetch. */
  lemma ReturnsOwnUnlessReused(rs: seq<Option<nat>>, i: nat)
    requires i < |rs|
    ensures var f := RunFetches(rs);
            && |f.returned| == |rs|
            && (rs[i].Some? && rs[i].value < i ==> f.returned[i] == f.returned[rs[i].value])
            && (rs[i].None? ==> forall j :: 0 <= j < i ==> f.returned[j] != f.returned[i])
    decreases |rs|
  {
    var n := |rs| - 1;
    RunFetchesInv(rs[..n]);
    LastReturns(RunFetches(rs[..n]), rs[n]);
    if i < n { ReturnsOwnUnlessReused(rs[..n], i); }
  }

  /** A handler that returns the promise of an earlier fetch redirects the abort of that fetch. */
  lemma ReusedPromiseRedirectsAbort()
    ensures var f := RunFetches([None, Some(0)]);
            && f.returned == [2, 2]
            && Reaches(f.promises, f.promises[2], 2) == Some(1)
  {
    var rs: seq<Option<nat>> := [None, Some(0)];
    assert rs[..1] == [None] && rs[..1][..0] == [];
    var f1 := FetchStep(NO_FETCHES, None);
    assert f1 == Fetches([OfRequest(0), OfPromise(0), OfPromise(0)], [2]);
    assert RunFetches(rs[..1]) == f1;
    var f := FetchStep(f1, Some(0));
    assert f.returned == [2, 2] && f.promises[2] == OfPromise(3) && f.promises[3] == OfRequest(1);
  }
}
