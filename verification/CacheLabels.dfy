/**
 * What the labels of src/gateway/requests-from-cache.js say when requests are interleaved, for a cache
 * that shares its objects and for one that stores copies.
 */
module CacheLabels {
  import opened RequestsFromCache

  /** Two requests have read "not from cache" from one object. */
  predicate BothFresh(a: Entry, b: Entry) {
    a.obj == b.obj && !a.fromCache && !b.fromCache
  }

  /**
   * For any interleaving of requests, arrivals, failures, completions and evictions: a completion
   * handler labels its response "from cache" exactly when an earlier handler saw the same object, and
   * no two requests read "not from cache" from one object.
   */
  lemma LabelsInAnyInterleaving(serialising: bool, es: seq<Event>)
    ensures var w := Run(Empty(serialising), es);
            && (forall i: nat :: i < |w.labels| ==> (w.labels[i].fromCache <==> SeenBefore(w.labels, i)))
            && (forall a, b :: a in w.readings && b in w.readings && BothFresh(a, b) ==> a.request == b.request)
  {
    RunKeepsInv(Empty(serialising), es);
    var w := Run(Empty(serialising), es);
    forall j, k | 0 <= j < |w.readings| && 0 <= k < |w.readings| && BothFresh(w.readings[j], w.readings[k])
      ensures w.readings[j].request == w.readings[k].request
    {
      var a: nat :| IsFirst(w.labels, a, w.readings[j].obj) && w.labels[a].request == w.readings[j].request;
      var b: nat :| IsFirst(w.labels, b, w.readings[k].obj) && w.labels[b].request == w.readings[k].request;
      assert a == b;
    }
  }

  /** No handler of a cache hit runs before the handler of the request that fetched its object. */
  ghost predicate NoOvertaking(labels: seq<Entry>) {
    forall i :: 0 <= i < |labels| && labels[i].hit ==>
      exists j :: 0 <= j < i && labels[j].obj == labels[i].obj && !labels[j].hit
  }

  lemma {:induction false} FirstSeen(labels: seq<Entry>, i: nat) returns (first: nat)
    requires i < |labels| && SeenBefore(labels, i)
    ensures first < i && labels[first].obj == labels[i].obj && !SeenBefore(labels, first)
    decreases i
  {
    var j: nat :| j < i && labels[j].obj == labels[i].obj;
    if SeenBefore(labels, j) { first := FirstSeen(labels, j); } else { first := j; }
  }

  /** The labels of an interleaved run are right exactly when no hit overtakes the fetch it hits. */
  lemma LabelsAgreeIffNoOvertaking(serialising: bool, es: seq<Event>)
    ensures var labels := Run(Empty(serialising), es).labels;
            (forall i :: 0 <= i < |labels| ==> labels[i].fromCache == labels[i].hit) <==> NoOvertaking(labels)
  {
    RunKeepsInv(Empty(serialising), es);
    var w := Run(Empty(serialising), es);
    var labels := w.labels;
    forall i, j | 0 <= i < j < |labels| && !labels[i].hit && !labels[j].hit
      ensures labels[i].obj != labels[j].obj
    {
      assert Fetched(w.requests[labels[i].request]) && Fetched(w.requests[labels[j].request]);
    }
    if NoOvertaking(labels) {
      forall i: nat | i < |labels| && !labels[i].hit ensures !SeenBefore(labels, i) {
        forall j | 0 <= j < i ensures labels[j].obj != labels[i].obj {
          assert labels[j].hit ==> exists k :: 0 <= k < j && labels[k].obj == labels[j].obj && !labels[k].hit;
        }
      }
    }
    if forall i :: 0 <= i < |labels| ==> labels[i].fromCache == labels[i].hit {
      forall i: nat | i < |labels| && labels[i].hit
        ensures exists j :: 0 <= j < i && labels[j].obj == labels[i].obj && !labels[j].hit
      {
        var first := FirstSeen(labels, i);
        assert !labels[first].fromCache;
      }
    }
  }

  /** A request is answered from the cache, and its handler runs before that of the request that filled it. */
  function OvertakingRun(url: string): seq<Event> {
    [StartCached(url), Arrive(0), StartCached(url), Complete(1), Complete(0)]
  }

  lemma OvertakingMislabels(url: string)
    ensures Run(Empty(false), OvertakingRun(url)).labels == [Entry(1, 0, true, false), Entry(0, 0, false, true)]
  {
    var es := OvertakingRun(url);
    var w1 := Step(Empty(false), es[0]);
    var w2 := Step(w1, es[1]);
    var w3 := Step(w2, es[2]);
    var w4 := Step(w3, es[3]);
    var w5 := Step(w4, es[4]);
    assert w3.requests == [Resolved(true, 0, false), Resolved(true, 0, true)] && w3.tags == [FreshlyPruned];
    assert w4.requests[0] == Resolved(true, 0, false) && w4.tags == [NotFromCache];
    assert w5.labels == [Entry(1, 0, true, false), Entry(0, 0, false, true)];
    assert es[1..] == [es[1], es[2], es[3], es[4]];
    RunFour(w1, es[1], es[2], es[3], es[4]);
  }

  // ----- A cache that stores copies -----

  ghost predicate NothingShared(w: World) {
    forall i, j :: 0 <= i < j < |w.requests| && HasObject(w.requests[i]) && HasObject(w.requests[j]) ==>
        w.requests[i].obj != w.requests[j].obj
  }

  /** A step gives at most one request an object it did not have, and that object is new. */
  lemma SerialisingStep(w: World, e: Event, i: nat)
    requires Inv(w) && w.serialising && i < |Step(w, e).requests| && HasObject(Step(w, e).requests[i])
    ensures var r := Step(w, e).requests[i];
            || (i < |w.requests| && HasObject(w.requests[i]) && r.obj == w.requests[i].obj)
            || (r.obj == |w.tags| && (if e.StartCached? then i == |w.requests| else e == Arrive(i)))
  {
  }

  lemma {:induction false} SerialisingSharesNothing(w: World, es: seq<Event>)
    requires Inv(w) && NothingShared(w) && w.serialising
    ensures NothingShared(Run(w, es))
    decreases |es|
  {
    if es != [] {
      var w' := Step(w, es[0]);
      StepKeepsInv(w, es[0]);
      forall i, j | 0 <= i < j < |w'.requests| && HasObject(w'.requests[i]) && HasObject(w'.requests[j])
        ensures w'.requests[i].obj != w'.requests[j].obj
      {
        SerialisingStep(w, es[0], i);
        SerialisingStep(w, es[0], j);
      }
      SerialisingSharesNothing(w', es[1..]);
    }
  }

  /** With a cache that stores copies, no response is ever labelled as coming from the cache. */
  lemma SerialisingCacheNeverLabelsHits(es: seq<Event>)
    ensures forall e :: e in Run(Empty(true), es).labels ==> !e.fromCache
  {
    RunKeepsInv(Empty(true), es);
    SerialisingSharesNothing(Empty(true), es);
    var w := Run(Empty(true), es);
    forall i: nat | i < |w.labels| ensures !w.labels[i].fromCache {
      forall j | 0 <= j < i ensures w.labels[j].obj != w.labels[i].obj {
        var r, q := w.labels[i].request, w.labels[j].request;
        assert HasObject(w.requests[r]) && HasObject(w.requests[q]) && r != q;
      }
    }
  }
}
