/**
 * src/gateway/requests-from-cache.js: telling responses that came from the cache from those that
 * did not, by a property on an object that the cache and every requester share.
 *
 * The cache plugin is seen only through what the source relies on (lines 98-135): a fresh response
 * is pruned before it is stored, and a request resolves with the stored object itself. A plugin
 * that stores copies instead is the case `serialising`.
 */
module RequestsFromCache {
  /** The values the property takes. `Untagged` is a response without it. */
  datatype Tag = Untagged | FreshlyPruned | NotFromCache | FromCache

  class ResponseObject {
    var tag: Tag

    constructor ()
      ensures tag == Untagged
    {
      tag := Untagged;
    }
  }

  /** What the completion handler of `asCachedRequest` makes of the tag it finds. */
  function Relabel(tag: Tag): Tag {
    if tag != FreshlyPruned then FromCache else NotFromCache
  }

  predicate IsFromCache(response: ResponseObject)
    reads response
  {
    response.tag == FromCache
  }

  method Prune(guttedResponse: ResponseObject)
    modifies guttedResponse
    ensures guttedResponse.tag == FreshlyPruned
  {
    guttedResponse.tag := FreshlyPruned;
  }

  method CompleteCached(res: ResponseObject)
    modifies res
    ensures res.tag == Relabel(old(res.tag))
    ensures IsFromCache(res) <==> old(res.tag) != FreshlyPruned
  {
    res.tag := if res.tag != FreshlyPruned then FromCache else NotFromCache;
  }

  method CompleteUncached(res: ResponseObject)
    modifies res
    ensures res.tag == NotFromCache && !IsFromCache(res)
  {
    res.tag := NotFromCache;
  }

  /** One object served any number of times: only the request that it was fetched for sees it as fresh. */
  method ServeMany(res: ResponseObject, n: nat) returns (labels: seq<bool>)
    modifies res
    ensures |labels| == n && forall i :: 0 <= i < n ==> (labels[i] <==> i > 0)
  {
    labels := [];
    Prune(res);
    for i := 0 to n
      invariant |labels| == i && forall j :: 0 <= j < i ==> (labels[j] <==> j > 0)
      invariant res.tag == FreshlyPruned <==> i == 0
    {
      CompleteCached(res);
      labels := labels + [IsFromCache(res)];
    }
  }

  // ----- Many requests at once -----

  /**
   * `hit` records whether the request found its response in the cache; the code has no such flag.
   * `Resolved` means that the completion handler is still to run, `Labelled` that the label is
   * still to be read; `entry` is the place of its completion among all completions.
   */
  datatype Request =
    | Waiting(cached: bool, url: string)
    | Resolved(cached: bool, obj: nat, hit: bool)
    | Labelled(obj: nat, hit: bool, entry: nat)
    | Done(obj: nat, hit: bool, entry: nat)
    | Failed

  datatype Entry = Entry(request: nat, obj: nat, hit: bool, fromCache: bool)

  datatype World = World(
    serialising: bool,
    tags: seq<Tag>,
    cache: map<string, nat>,
    requests: seq<Request>,
    labels: seq<Entry>,
    readings: seq<Entry>)

  datatype Event =
    | StartCached(url: string)
    | StartUncached(url: string)
    | Arrive(request: nat)
    | Fail(request: nat)
    | Complete(request: nat)
    | ReadLabel(request: nat)
    | Evict(url: string)

  function Empty(serialising: bool): World { World(serialising, [], map[], [], [], []) }

  function SetRequest(w: World, i: nat, r: Request): World
    requires i < |w.requests|
  {
    w.(requests := w.requests[i := r])
  }

  function NewObject(w: World, tag: Tag): World { w.(tags := w.tags + [tag]) }

  function Start(w: World, r: Request): World { w.(requests := w.requests + [r]) }

  function CompleteStep(w: World, i: nat, cached: bool, obj: nat, hit: bool): World
    requires i < |w.requests| && obj < |w.tags|
  {
    var tag := if cached then Relabel(w.tags[obj]) else NotFromCache;
    SetRequest(w, i, Labelled(obj, hit, |w.labels|)).(
      tags := w.tags[obj := tag],
      labels := w.labels + [Entry(i, obj, hit, tag == FromCache)])
  }

  function ReadStep(w: World, i: nat, obj: nat, hit: bool, entry: nat): World
    requires i < |w.requests| && obj < |w.tags|
  {
    SetRequest(w, i, Done(obj, hit, entry)).(readings := w.readings + [Entry(i, obj, hit, w.tags[obj] == FromCache)])
  }

  /** Events that do not apply change nothing. */
  function Step(w: World, e: Event): World {
    match e
    case StartCached(url) =>
      if url !in w.cache then Start(w, Waiting(true, url))
      else if w.serialising then NewObject(Start(w, Resolved(true, |w.tags|, true)), FreshlyPruned)
      else Start(w, Resolved(true, w.cache[url], true))
    case StartUncached(url) => Start(w, Waiting(false, url))
    case Arrive(i) =>
      if i < |w.requests| && w.requests[i].Waiting? then
        var Waiting(cached, url) := w.requests[i];
        var tag := if cached then FreshlyPruned else Untagged;
        var w' := NewObject(SetRequest(w, i, Resolved(cached, |w.tags|, false)), tag);
        if cached then w'.(cache := w.cache[url := |w.tags|]) else w'
      else w
    case Fail(i) =>
      if i < |w.requests| && w.requests[i].Waiting? then SetRequest(w, i, Failed) else w
    case Complete(i) =>
      if i < |w.requests| && w.requests[i].Resolved? && w.requests[i].obj < |w.tags| then
        CompleteStep(w, i, w.requests[i].cached, w.requests[i].obj, w.requests[i].hit)
      else w
    case ReadLabel(i) =>
      if i < |w.requests| && w.requests[i].Labelled? && w.requests[i].obj < |w.tags| then
        ReadStep(w, i, w.requests[i].obj, w.requests[i].hit, w.requests[i].entry)
      else w
    case Evict(url) => w.(cache := w.cache - {url})
  }

  function Run(w: World, es: seq<Event>): World
    decreases |es|
  {
    if es == [] then w else Run(Step(w, es[0]), es[1..])
  }

  lemma RunFour(w: World, a: Event, b: Event, c: Event, d: Event)
    ensures Run(w, [a, b, c, d]) == Step(Step(Step(Step(w, a), b), c), d)
  {
    var w1 := Step(w, a);
    var w2 := Step(w1, b);
    var w3 := Step(w2, c);
    assert [a, b, c, d][1..] == [b, c, d];
    assert [b, c, d][1..] == [c, d];
    assert [c, d][1..] == [d];
    assert [d][1..] == [];
    assert Run(w3, [d]) == Run(Step(w3, d), []);
    assert Run(w2, [c, d]) == Run(w3, [d]);
    assert Run(w1, [b, c, d]) == Run(w2, [c, d]);
  }

  predicate HasObject(r: Request) { r.Resolved? || r.Labelled? || r.Done? }

  /** How many completion handlers have seen an object. */
  function Count(labels: seq<Entry>, obj: nat): nat {
    if labels == [] then 0
    else Count(labels[..|labels| - 1], obj) + if labels[|labels| - 1].obj == obj then 1 else 0
  }

  ghost predicate SeenBefore(labels: seq<Entry>, i: nat)
    requires i < |labels|
  {
    exists j :: 0 <= j < i && labels[j].obj == labels[i].obj
  }

  /** The label given to a response says whether some handler had seen that object before. */
  ghost predicate LabelsCount(labels: seq<Entry>) {
    forall i: nat :: i < |labels| ==> (labels[i].fromCache <==> SeenBefore(labels, i))
  }

  /** Entry `i` is the first one for its object. */
  ghost predicate IsFirst(labels: seq<Entry>, i: nat, obj: nat) {
    i < |labels| && labels[i].obj == obj && !SeenBefore(labels, i)
  }

  ghost predicate TagCounts(w: World, obj: nat)
    requires obj < |w.tags|
  {
    match w.tags[obj]
    case NotFromCache => Count(w.labels, obj) == 1
    case FromCache => Count(w.labels, obj) >= 2
    case _ => Count(w.labels, obj) == 0
  }

  ghost predicate ObjectsExist(w: World) {
    && (forall url :: url in w.cache ==> w.cache[url] < |w.tags| && w.tags[w.cache[url]] != Untagged)
    && (forall i :: 0 <= i < |w.requests| && HasObject(w.requests[i]) ==> w.requests[i].obj < |w.tags|)
    && (forall k :: 0 <= k < |w.labels| ==> w.labels[k].obj < |w.tags|)
  }

  predicate Completed(r: Request) { r.Labelled? || r.Done? }

  /** Completions and completed requests correspond one to one, with the same data. */
  ghost predicate EntriesMatch(w: World) {
    && (forall k :: 0 <= k < |w.labels| ==>
          && w.labels[k].request < |w.requests|
          && var r := w.requests[w.labels[k].request];
             Completed(r) && r.entry == k && r.obj == w.labels[k].obj && r.hit == w.labels[k].hit)
    && (forall i :: 0 <= i < |w.requests| && Completed(w.requests[i]) ==>
          w.requests[i].entry < |w.labels| && w.labels[w.requests[i].entry].request == i)
  }

  predicate Fetched(r: Request) { HasObject(r) && !r.hit }

  /** Every object was made for one request only. */
  ghost predicate OneFetchPerObject(w: World) {
    forall i, j :: 0 <= i < j < |w.requests| && Fetched(w.requests[i]) && Fetched(w.requests[j]) ==>
        w.requests[i].obj != w.requests[j].obj
  }

  /** An uncached request that is still to complete has an object that no handler has seen. */
  ghost predicate UncachedUnseen(w: World) {
    forall i :: 0 <= i < |w.requests| && w.requests[i].Resolved? ==>
      && w.requests[i].obj < |w.tags|
      && (w.requests[i].cached <==> w.tags[w.requests[i].obj] != Untagged)
      && (!w.requests[i].cached ==> !w.requests[i].hit)
  }

  /** An object without a tag was never in the cache. */
  ghost predicate HitsAreTagged(w: World) {
    forall i :: 0 <= i < |w.requests| && HasObject(w.requests[i]) && w.requests[i].hit ==>
      w.requests[i].obj < |w.tags| && w.tags[w.requests[i].obj] != Untagged
  }

  ghost predicate ReadsOwnFirst(w: World, k: nat)
    requires k < |w.readings|
  {
    exists i: nat :: IsFirst(w.labels, i, w.readings[k].obj) && w.labels[i].request == w.readings[k].request
  }

  /** Only the first handler's request can go on to read "not from cache". */
  ghost predicate ReadsFirst(w: World) {
    forall k :: 0 <= k < |w.readings| && !w.readings[k].fromCache ==> ReadsOwnFirst(w, k)
  }

  ghost predicate Inv(w: World) {
    && ObjectsExist(w)
    && EntriesMatch(w)
    && OneFetchPerObject(w)
    && UncachedUnseen(w)
    && HitsAreTagged(w)
    && LabelsCount(w.labels)
    && ReadsFirst(w)
    && forall o: nat :: o < |w.tags| ==> TagCounts(w, o)
  }

  lemma {:induction false} CountMeansSeen(labels: seq<Entry>, obj: nat)
    ensures Count(labels, obj) == 0 <==> forall j :: 0 <= j < |labels| ==> labels[j].obj != obj
    ensures Count(labels, obj) == 1 ==>
        exists i: nat :: IsFirst(labels, i, obj) && forall j :: 0 <= j < |labels| && labels[j].obj == obj ==> j == i
  {
    if labels != [] {
      var n := |labels| - 1;
      var shorter := labels[..n];
      CountMeansSeen(shorter, obj);
      assert forall j :: 0 <= j < n ==> shorter[j] == labels[j];
      if Count(labels, obj) == 1 {
        if labels[n].obj == obj {
          assert IsFirst(labels, n, obj);
        } else {
          var i: nat :| IsFirst(shorter, i, obj) && forall j :: 0 <= j < n && shorter[j].obj == obj ==> j == i;
          assert IsFirst(labels, i, obj);
        }
      }
    }
  }

  lemma FirstStaysFirst(labels: seq<Entry>, e: Entry)
    ensures forall i: nat, o :: IsFirst(labels, i, o) ==> IsFirst(labels + [e], i, o)
  {
    var longer := labels + [e];
    forall i: nat, o | IsFirst(labels, i, o) ensures IsFirst(longer, i, o) {
      assert forall j :: 0 <= j <= i ==> longer[j] == labels[j];
    }
  }

  lemma LabelsCountSnoc(labels: seq<Entry>, e: Entry)
    requires LabelsCount(labels)
    requires e.fromCache <==> Count(labels, e.obj) > 0
    ensures LabelsCount(labels + [e])
  {
    var longer := labels + [e];
    CountMeansSeen(labels, e.obj);
    forall i: nat | i < |longer| ensures longer[i].fromCache <==> SeenBefore(longer, i) {
      assert forall j :: 0 <= j < |labels| ==> longer[j] == labels[j];
      if i < |labels| { assert SeenBefore(longer, i) <==> SeenBefore(labels, i); }
    }
  }

  /** One more label, and the tag that goes with it, for one object. */
  lemma LabelKeepsCounts(w: World, w': World, e: Entry)
    requires e.obj < |w.tags| && (forall o: nat :: o < |w.tags| ==> TagCounts(w, o))
    requires w'.labels == w.labels + [e] && |w'.tags| == |w.tags|
    requires forall o: nat :: o < |w.tags| && o != e.obj ==> w'.tags[o] == w.tags[o]
    requires w'.tags[e.obj] == if w.tags[e.obj] == Untagged then NotFromCache else Relabel(w.tags[e.obj])
    ensures forall o: nat :: o < |w'.tags| ==> TagCounts(w', o)
  {
    assert w'.labels[..|w.labels|] == w.labels;
    forall o: nat | o < |w'.tags| ensures TagCounts(w', o) { assert TagCounts(w, o); }
  }

  lemma ReadsFirstStays(w: World, w': World, e: Entry)
    requires ReadsFirst(w) && w'.labels == w.labels + [e] && w'.readings == w.readings
    ensures ReadsFirst(w')
  {
    FirstStaysFirst(w.labels, e);
    forall k | 0 <= k < |w'.readings| && !w'.readings[k].fromCache
      ensures ReadsOwnFirst(w', k)
    {
      var j: nat :| IsFirst(w.labels, j, w.readings[k].obj) && w.labels[j].request == w.readings[k].request;
      assert IsFirst(w'.labels, j, w'.readings[k].obj);
    }
  }

  lemma CompleteKeepsCounts(w: World, i: nat)
    requires Inv(w) && i < |w.requests| && w.requests[i].Resolved?
    ensures var w' := Step(w, Complete(i));
            && LabelsCount(w'.labels)
            && ReadsFirst(w')
            && forall o: nat :: o < |w'.tags| ==> TagCounts(w', o)
  {
    var w' := Step(w, Complete(i));
    var e := w'.labels[|w.labels|];
    assert w'.labels == w.labels + [e];
    assert TagCounts(w, e.obj);
    LabelsCountSnoc(w.labels, e);
    LabelKeepsCounts(w, w', e);
    ReadsFirstStays(w, w', e);
  }

  lemma CompleteKeepsOthers(w: World, i: nat)
    requires ObjectsExist(w) && OneFetchPerObject(w) && UncachedUnseen(w)
    requires i < |w.requests| && w.requests[i].Resolved?
    ensures UncachedUnseen(Step(w, Complete(i))) && OneFetchPerObject(Step(w, Complete(i)))
  {
    var w' := Step(w, Complete(i));
    forall j | 0 <= j < |w'.requests| && w'.requests[j].Resolved?
      ensures w'.requests[j].cached <==> w'.tags[w'.requests[j].obj] != Untagged
    {
      var r, other := w.requests[i], w.requests[j];
      assert other.obj == r.obj && j != i && !r.cached ==> Fetched(other) && Fetched(r);
    }
    assert forall j :: 0 <= j < |w.requests| ==> (Fetched(w'.requests[j]) <==> Fetched(w.requests[j]));
    assert forall j :: 0 <= j < |w.requests| && Fetched(w.requests[j]) ==> w'.requests[j].obj == w.requests[j].obj;
  }

  lemma CompleteKeepsEntries(w: World, i: nat)
    requires ObjectsExist(w) && EntriesMatch(w) && HitsAreTagged(w)
    requires i < |w.requests| && w.requests[i].Resolved?
    ensures var w' := Step(w, Complete(i)); ObjectsExist(w') && EntriesMatch(w') && HitsAreTagged(w')
  {
  }

  lemma CompleteKeepsInv(w: World, i: nat)
    requires Inv(w) && i < |w.requests| && w.requests[i].Resolved?
    ensures Inv(Step(w, Complete(i)))
  {
    CompleteKeepsCounts(w, i);
    CompleteKeepsOthers(w, i);
    CompleteKeepsEntries(w, i);
  }

  lemma ReadKeepsEntries(w: World, i: nat)
    requires ObjectsExist(w) && EntriesMatch(w) && i < |w.requests| && w.requests[i].Labelled?
    ensures ObjectsExist(Step(w, ReadLabel(i))) && EntriesMatch(Step(w, ReadLabel(i)))
  {
  }

  lemma ReadKeepsOthers(w: World, i: nat)
    requires ObjectsExist(w) && OneFetchPerObject(w) && UncachedUnseen(w) && HitsAreTagged(w)
    requires i < |w.requests| && w.requests[i].Labelled?
    ensures var w' := Step(w, ReadLabel(i)); OneFetchPerObject(w') && UncachedUnseen(w') && HitsAreTagged(w')
  {
    var w' := Step(w, ReadLabel(i));
    assert forall j :: 0 <= j < |w.requests| && j != i ==> w'.requests[j] == w.requests[j];
    assert Fetched(w'.requests[i]) <==> Fetched(w.requests[i]);
    assert w'.requests[i].obj == w.requests[i].obj && w'.requests[i].hit == w.requests[i].hit;
  }

  /** A reading of "not from cache" is of an object that only one handler has seen: the reader's own. */
  lemma ReadKeepsFirst(w: World, i: nat)
    requires ObjectsExist(w) && EntriesMatch(w) && ReadsFirst(w)
    requires i < |w.requests| && w.requests[i].Labelled? && TagCounts(w, w.requests[i].obj)
    ensures ReadsFirst(Step(w, ReadLabel(i)))
  {
    var Labelled(obj, hit, entry) := w.requests[i];
    var w' := Step(w, ReadLabel(i));
    CountMeansSeen(w.labels, obj);
    forall k | 0 <= k < |w'.readings| && !w'.readings[k].fromCache
      ensures ReadsOwnFirst(w', k)
    {
      if k == |w.readings| {
        assert w.labels[entry].obj == obj && w.labels[entry].request == i;
        assert IsFirst(w'.labels, entry, obj);
      } else {
        assert w'.readings[k] == w.readings[k];
      }
    }
  }

  lemma ReadKeepsInv(w: World, i: nat)
    requires Inv(w) && i < |w.requests| && w.requests[i].Labelled?
    ensures Inv(Step(w, ReadLabel(i)))
  {
    var w' := Step(w, ReadLabel(i));
    assert TagCounts(w, w.requests[i].obj);
    ReadKeepsEntries(w, i);
    ReadKeepsOthers(w, i);
    ReadKeepsFirst(w, i);
    assert w'.tags == w.tags && w'.labels == w.labels;
    forall o: nat | o < |w'.tags| ensures TagCounts(w', o) { assert TagCounts(w, o); }
  }

  lemma NewObjectKeepsCounts(w: World, w': World, tag: Tag)
    requires Inv(w) && w'.tags == w.tags + [tag] && w'.labels == w.labels
    requires tag == Untagged || tag == FreshlyPruned
    ensures forall o: nat :: o < |w'.tags| ==> TagCounts(w', o)
  {
    CountMeansSeen(w.labels, |w.tags|);
    forall o: nat | o < |w'.tags| ensures TagCounts(w', o) {
      if o < |w.tags| { assert TagCounts(w, o); }
    }
  }

  /** Changing one request that has no object, or adding one, keeps everything that is said about the others. */
  lemma RequestChangeKeepsInv(w: World, w': World, i: nat)
    requires Inv(w) && i < |w'.requests|
    requires w.tags <= w'.tags && w'.labels == w.labels && w'.readings == w.readings
    requires forall o: nat :: o < |w'.tags| ==> TagCounts(w', o)
    requires forall url :: url in w'.cache ==> w'.cache[url] < |w'.tags| && w'.tags[w'.cache[url]] != Untagged
    requires |w.requests| <= |w'.requests| <= |w.requests| + 1
        && (i == |w.requests| || (i < |w.requests| == |w'.requests| && !HasObject(w.requests[i])))
    requires forall j :: 0 <= j < |w.requests| && j != i ==> w'.requests[j] == w.requests[j]
    requires |w'.requests| > |w.requests| ==> i == |w.requests|
    requires var r := w'.requests[i];
             !Completed(r) && (r.Resolved? ==>
               && r.obj < |w'.tags|
               && (r.hit ==> r.cached)
               && (!r.hit ==> r.obj >= |w.tags|)
               && (r.cached <==> w'.tags[r.obj] != Untagged))
    ensures Inv(w')
  {
    forall j, k | 0 <= j < k < |w'.requests| && Fetched(w'.requests[j]) && Fetched(w'.requests[k])
      ensures w'.requests[j].obj != w'.requests[k].obj
    {
      assert j != i ==> w'.requests[j] == w.requests[j] && w'.requests[j].obj < |w.tags|;
      assert k != i ==> w'.requests[k] == w.requests[k] && w'.requests[k].obj < |w.tags|;
    }
    assert EntriesMatch(w');
    assert UncachedUnseen(w') && HitsAreTagged(w') && ObjectsExist(w');
  }

  lemma StartKeepsInv(w: World, e: Event)
    requires Inv(w) && (e.StartCached? || e.StartUncached?)
    ensures Inv(Step(w, e))
  {
    var w' := Step(w, e);
    if w'.tags != w.tags {
      NewObjectKeepsCounts(w, w', FreshlyPruned);
    } else {
      forall o: nat | o < |w'.tags| ensures TagCounts(w', o) { assert TagCounts(w, o); }
    }
    RequestChangeKeepsInv(w, w', |w.requests|);
  }

  lemma ArriveKeepsInv(w: World, i: nat)
    requires Inv(w)
    ensures Inv(Step(w, Arrive(i)))
  {
    var w' := Step(w, Arrive(i));
    if w' != w {
      NewObjectKeepsCounts(w, w', w'.tags[|w.tags|]);
      RequestChangeKeepsInv(w, w', i);
    }
  }

  lemma FailKeepsInv(w: World, i: nat)
    requires Inv(w)
    ensures Inv(Step(w, Fail(i)))
  {
    var w' := Step(w, Fail(i));
    if w' != w {
      forall o: nat | o < |w'.tags| ensures TagCounts(w', o) { assert TagCounts(w, o); }
      RequestChangeKeepsInv(w, w', i);
    }
  }

  lemma StepKeepsInv(w: World, e: Event)
    requires Inv(w)
    ensures Inv(Step(w, e))
  {
    match e {
      case StartCached(_) => StartKeepsInv(w, e);
      case StartUncached(_) => StartKeepsInv(w, e);
      case Arrive(i) => ArriveKeepsInv(w, i);
      case Fail(i) => FailKeepsInv(w, i);
      case Complete(i) =>
        if i < |w.requests| && w.requests[i].Resolved? { CompleteKeepsInv(w, i); }
      case ReadLabel(i) =>
        if i < |w.requests| && w.requests[i].Labelled? { ReadKeepsInv(w, i); }
      case Evict(_) =>
        forall o: nat | o < |w.tags| ensures TagCounts(Step(w, e), o) { assert TagCounts(w, o); }
    }
  }

  lemma {:induction false} RunKeepsInv(w: World, es: seq<Event>)
    requires Inv(w)
    ensures Inv(Run(w, es)) && Run(w, es).serialising == w.serialising
    decreases |es|
  {
    if es != [] {
      StepKeepsInv(w, es[0]);
      RunKeepsInv(Step(w, es[0]), es[1..]);
    }
  }
}
