/**
 * What the cache of src/gateway/requests-from-cache.js holds, and what each request finds in it, over
 * any run of requests.
 */
module CacheContents {
  import opened RequestsFromCache

  /** Event `k` stores a response for `url`: it answers a request that waits for it and goes through the cache. */
  ghost predicate Stores(w: World, es: seq<Event>, k: int, url: string) {
    && 0 <= k < |es| && es[k].Arrive?
    && var v := Run(w, es[..k]);
       es[k].request < |v.requests| && v.requests[es[k].request] == Waiting(true, url)
  }

  /** Event `k` is the last to store one, and nothing evicts it afterwards. */
  ghost predicate StoredAt(w: World, es: seq<Event>, k: int, url: string) {
    && Stores(w, es, k, url)
    && forall j :: k < j < |es| ==> !Stores(w, es, j, url) && es[j] != Evict(url)
  }

  lemma {:induction false} RunSnoc(w: World, es: seq<Event>, e: Event)
    ensures Run(w, es + [e]) == Step(Run(w, es), e)
    decreases |es|
  {
    if es == [] {
      assert es + [e] == [e] && [e][1..] == [];
      assert Run(w, [e]) == Run(Step(w, e), []);
    } else {
      assert (es + [e])[0] == es[0] && (es + [e])[1..] == es[1..] + [e];
      RunSnoc(Step(w, es[0]), es[1..], e);
    }
  }

  lemma CacheStep(w: World, e: Event, url: string)
    ensures var w' := Step(w, e);
            var stores := e.Arrive? && e.request < |w.requests| && w.requests[e.request] == Waiting(true, url);
            && (url in w'.cache <==> stores || (url in w.cache && e != Evict(url)))
            && (stores ==> w'.cache[url] == |w.tags|)
            && (!stores && url in w'.cache ==> w'.cache[url] == w.cache[url])
  {
  }

  lemma StoresSnoc(w: World, es: seq<Event>, e: Event, url: string)
    ensures forall k :: k < |es| ==> (Stores(w, es + [e], k, url) <==> Stores(w, es, k, url))
    ensures forall k :: 0 <= k <= |es| ==> (es + [e])[..k] == es[..k]
    ensures Stores(w, es + [e], |es|, url) <==>
              && e.Arrive?
              && var v := Run(w, es); e.request < |v.requests| && v.requests[e.request] == Waiting(true, url)
  {
    assert forall k :: 0 <= k <= |es| ==> (es + [e])[..k] == es[..k];
    assert (es + [e])[..|es|] == es[..|es|] == es;
  }

  /**
   * Over every run of a new cache: a URL is in it if and only if a response for it has been stored and
   * not evicted since, and what it holds is the object made for the last such response.
   */
  lemma {:induction false} CachedIff(es: seq<Event>, serialising: bool, url: string)
    ensures var w := Empty(serialising);
            && (url in Run(w, es).cache <==> exists k :: StoredAt(w, es, k, url))
            && (forall k :: StoredAt(w, es, k, url) ==>
                  url in Run(w, es).cache && Run(w, es).cache[url] == |Run(w, es[..k]).tags|)
    decreases |es|
  {
    if es != [] {
      var w, n := Empty(serialising), |es| - 1;
      var before, e := es[..n], es[n];
      assert before + [e] == es;
      CachedIff(before, serialising, url);
      RunSnoc(w, before, e);
      CacheStep(Run(w, before), e, url);
      StoresSnoc(w, before, e, url);
      assert forall k :: 0 <= k < n ==> before[k] == es[k];
      if Stores(w, es, n, url) {
        assert StoredAt(w, es, n, url);
      } else {
        forall k | k < n ensures StoredAt(w, es, k, url) <==> StoredAt(w, before, k, url) && e != Evict(url) {
          assert StoredAt(w, es, k, url) ==> es[n] != Evict(url);
        }
        assert !StoredAt(w, es, n, url);
      }
    }
  }

  /** A request through a cache that shares its objects is a hit if and only if its URL is in the cache. */
  lemma HitIffCached(w: World, url: string)
    ensures Step(w, StartUncached(url)).requests == w.requests + [Waiting(false, url)]
    ensures url !in w.cache ==> Step(w, StartCached(url)).requests == w.requests + [Waiting(true, url)]
    ensures url in w.cache && !w.serialising ==>
              Step(w, StartCached(url)) == w.(requests := w.requests + [Resolved(true, w.cache[url], true)])
  {
  }

  /** An evicted URL is fetched again. */
  lemma EvictedIsFetched(w: World, url: string)
    ensures Run(w, [Evict(url), StartCached(url)]).requests == w.requests + [Waiting(true, url)]
  {
    var es := [Evict(url), StartCached(url)];
    assert es[1..] == [StartCached(url)] && es[1..][1..] == [];
    assert Run(Step(w, es[0]), es[1..]) == Run(Step(Step(w, es[0]), es[1]), []);
  }

  /** A reading shows the tag at the moment it is made. */
  lemma ReadingShowsTag(w: World, i: nat)
    requires i < |w.requests| && w.requests[i].Labelled? && w.requests[i].obj < |w.tags|
    ensures var r := w.requests[i];
            && Step(w, ReadLabel(i)).readings == w.readings + [Entry(i, r.obj, r.hit, w.tags[r.obj] == FromCache)]
            && Step(w, ReadLabel(i)).tags == w.tags
  {
  }

  /** A completion changes one tag, and its label says what it has become. */
  lemma CompletionLabels(w: World, i: nat)
    requires i < |w.requests| && w.requests[i].Resolved? && w.requests[i].obj < |w.tags|
    ensures var r := w.requests[i];
            var w' := Step(w, Complete(i));
            var fromCache := r.cached && w.tags[r.obj] != FreshlyPruned;
            && w'.tags == w.tags[r.obj := if fromCache then FromCache else NotFromCache]
            && w'.labels == w.labels + [Entry(i, r.obj, r.hit, fromCache)]
            && w'.cache == w.cache
  {
  }
}
