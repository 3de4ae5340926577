/**
 * `_retrieveTargetFiles` of src/gateway/environments/jsdom-sixteen/jsdom-sixteen-environment.js:
 * fetching the files to run, all at once, and waiting for them in whatever order they come.
 */
module FileRetrieval {
  import opened Common
  import opened ErrorExtraction

  datatype File = File(content: string, url: string)

  /** What `resourceLoader.fetch` does when it is called for one file. */
  datatype FetchStart = Started | ReturnsNull | ThrowsAtOnce(error: Thrown)

  /** The fetch of file `index` settles. A fetch settles at most once. */
  datatype Settlement = Settlement(index: nat, outcome: Outcome<string, Value>)

  /** `Promise.all` (ECMA-262, 6th edition, section 25.4.4.1) while it waits and when it is done. */
  datatype All = Waiting(values: map<nat, string>) | Fulfilled(contents: seq<string>) | Rejected(error: Value)

  function Check(n: nat, values: map<nat, string>): All {
    if forall i :: 0 <= i < n ==> i in values
    then Fulfilled(seq(n, i requires 0 <= i < n && i in values => values[i]))
    else Waiting(values)
  }

  function Settle(n: nat, all: All, s: Settlement): All {
    if !all.Waiting? then all
    else match s.outcome
      case Threw(error) => Rejected(error)
      case Returned(value) => Check(n, all.values[s.index := value])
  }

  function AwaitAll(n: nat, settlements: seq<Settlement>): All {
    if settlements == [] then Check(n, map[])
    else Settle(n, AwaitAll(n, settlements[..|settlements| - 1]), settlements[|settlements| - 1])
  }

  ghost predicate OncePerFetch(n: nat, settlements: seq<Settlement>) {
    && (forall k :: 0 <= k < |settlements| ==> settlements[k].index < n)
    && (forall j, k :: 0 <= j < k < |settlements| ==> settlements[j].index != settlements[k].index)
  }

  ghost predicate NoneFails(settlements: seq<Settlement>) {
    forall k :: 0 <= k < |settlements| ==> settlements[k].outcome.Returned?
  }

  /** Some settlement delivers the content of file `i`. */
  ghost predicate Delivers(settlements: seq<Settlement>, i: nat, content: string) {
    Settlement(i, Returned(content)) in settlements
  }

  ghost predicate Arrived(settlements: seq<Settlement>, i: nat) {
    exists content :: Delivers(settlements, i, content)
  }

  ghost predicate AllDeliver(n: nat, settlements: seq<Settlement>) {
    forall i: nat :: i < n ==> Arrived(settlements, i)
  }

  lemma DeliversSnoc(settlements: seq<Settlement>, s: Settlement)
    ensures forall i: nat, content :: Delivers(settlements + [s], i, content) <==>
        Delivers(settlements, i, content) || s == Settlement(i, Returned(content))
  {
  }

  lemma NotArrivedBefore(n: nat, settlements: seq<Settlement>, m: nat)
    requires OncePerFetch(n, settlements) && m < |settlements|
    ensures !Arrived(settlements[..m], settlements[m].index) && !AllDeliver(n, settlements[..m])
  {
    assert forall k :: 0 <= k < m ==> settlements[..m][k] == settlements[k];
  }

  /** While nothing has failed, the values collected are the ones delivered. */
  lemma {:induction false} CollectedAreDelivered(n: nat, settlements: seq<Settlement>)
    requires OncePerFetch(n, settlements) && NoneFails(settlements)
    ensures var all := AwaitAll(n, settlements);
            && !all.Rejected?
            && (all.Fulfilled? <==> AllDeliver(n, settlements))
            && (all.Fulfilled? ==> |all.contents| == n && forall i: nat :: i < n ==>
                Delivers(settlements, i, all.contents[i]))
            && (all.Waiting? ==> forall i: nat, content :: Delivers(settlements, i, content) <==>
                i in all.values && all.values[i] == content)
            && (all.Waiting? ==> forall i: nat :: i in all.values <==> Arrived(settlements, i))
    decreases |settlements|
  {
    if settlements != [] {
      var m := |settlements| - 1;
      var before, s := settlements[..m], settlements[m];
      assert settlements == before + [s];
      CollectedAreDelivered(n, before);
      DeliversSnoc(before, s);
      var all := AwaitAll(n, before);
      if all.Fulfilled? {
        NotArrivedBefore(n, settlements, m);
        assert false;
      } else {
        NotArrivedBefore(n, settlements, m);
        assert s.index !in all.values;
        var values := all.values[s.index := s.outcome.value];
        forall i: nat, content ensures Delivers(settlements, i, content) <==> i in values && values[i] == content {}
        forall i: nat ensures i in values <==> Arrived(settlements, i) {
          assert i in values ==> Delivers(settlements, i, values[i]);
        }
      }
    } else if n > 0 {
      assert !Arrived(settlements, 0);
      var none: map<nat, string> := map[];
      assert 0 !in none;
    }
  }

  /** The first failure in order of arrival decides, and nothing that comes later changes it. */
  lemma {:induction false} FirstFailureRejects(n: nat, settlements: seq<Settlement>, k: nat)
    requires OncePerFetch(n, settlements)
    requires k < |settlements| && settlements[k].outcome.Threw? && NoneFails(settlements[..k])
    ensures AwaitAll(n, settlements) == Rejected(settlements[k].outcome.error)
    decreases |settlements|
  {
    var m := |settlements| - 1;
    var before := settlements[..m];
    if k < m {
      assert before[..k] == settlements[..k];
      FirstFailureRejects(n, before, k);
    } else {
      CollectedAreDelivered(n, before);
      NotArrivedBefore(n, settlements, m);
    }
  }

  lemma OneContentPerFile(n: nat, settlements: seq<Settlement>, i: nat, c: string, d: string)
    requires OncePerFetch(n, settlements) && Delivers(settlements, i, c) && Delivers(settlements, i, d)
    ensures c == d
  {
    var j :| 0 <= j < |settlements| && settlements[j] == Settlement(i, Returned(c));
    var k :| 0 <= k < |settlements| && settlements[k] == Settlement(i, Returned(d));
    assert j == k;
  }

  /** When no fetch fails, the order in which they settle makes no difference. */
  lemma OrderOfArrivalIsIrrelevant(n: nat, a: seq<Settlement>, b: seq<Settlement>)
    requires OncePerFetch(n, a) && OncePerFetch(n, b)
    requires NoneFails(a) && forall s :: s in a <==> s in b
    ensures AwaitAll(n, a) == AwaitAll(n, b)
  {
    assert forall k :: 0 <= k < |b| ==> b[k] in a;
    CollectedAreDelivered(n, a);
    CollectedAreDelivered(n, b);
    assert forall i: nat, content :: Delivers(a, i, content) <==> Delivers(b, i, content);
    var x, y := AwaitAll(n, a), AwaitAll(n, b);
    forall i: nat ensures Arrived(a, i) <==> Arrived(b, i) {
      if content :| Delivers(a, i, content) { assert Delivers(b, i, content); }
      if content :| Delivers(b, i, content) { assert Delivers(a, i, content); }
    }
    if x.Fulfilled? {
      forall i: nat | i < n ensures x.contents[i] == y.contents[i] {
        OneContentPerFile(n, a, i, x.contents[i], y.contents[i]);
      }
    } else {
      forall i: nat ensures i in x.values <==> i in y.values {
        assert i in x.values ==> Delivers(a, i, x.values[i]);
        assert i in y.values ==> Delivers(b, i, y.values[i]);
      }
      forall i: nat | i in x.values ensures x.values[i] == y.values[i] {
        assert Delivers(b, i, y.values[i]);
      }
    }
  }

  // ----- The retrieval -----

  datatype Retrieval = Files(files: seq<File>, urls: seq<string>) | NoFiles(error: Thrown) | Unsettled

  const TRANSIENT_SERVICE := "TransientService"

  function NullFetchError(url: string): Thrown {
    KAError(TRANSIENT_SERVICE, "Unable to retrieve " + url + ". ResourceLoader returned null.")
  }

  function StartError(url: string, start: FetchStart): Option<Thrown> {
    match start
    case Started => None
    case ReturnsNull => Some(NullFetchError(url))
    case ThrowsAtOnce(error) => Some(error)
  }

  /** The first fetch that does not start. */
  function FirstNotStarted(starts: seq<FetchStart>): (k: nat)
    ensures k <= |starts| && (k < |starts| ==> !starts[k].Started?) && forall i :: 0 <= i < k ==> starts[i].Started?
  {
    if starts == [] || !starts[0].Started? then 0 else 1 + FirstNotStarted(starts[1..])
  }

  lemma {:induction false} FulfilledLength(n: nat, settlements: seq<Settlement>)
    ensures AwaitAll(n, settlements).Fulfilled? ==> |AwaitAll(n, settlements).contents| == n
    decreases |settlements|
  {
    if settlements != [] { FulfilledLength(n, settlements[..|settlements| - 1]); }
  }

  function Collect(urls: seq<string>, settlements: seq<Settlement>): Retrieval {
    match AwaitAll(|urls|, settlements)
    case Waiting(_) => Unsettled
    case Rejected(error) => NoFiles(External(error))
    case Fulfilled(contents) =>
      FulfilledLength(|urls|, settlements);
      Files(seq(|urls|, i requires 0 <= i < |urls| == |contents| => File(contents[i], urls[i])), urls)
  }

  /**
   * `fileList` is what `getFileList` settles to, `starts[i]` what fetching file `i` does at once, and
   * `settlements` the order in which the fetches settle.
   */
  function Retrieve(
    fileList: Awaited<seq<string>, Value>,
    starts: seq<FetchStart>,
    settlements: seq<Settlement>
  ): Retrieval
    requires fileList.Resolves? ==> |starts| == |fileList.value|
  {
    match fileList
    case Hangs => Unsettled
    case Rejects(error) => NoFiles(External(error))
    case Resolves(urls) =>
      var k := FirstNotStarted(starts);
      if k < |urls| then NoFiles(StartError(urls[k], starts[k]).value) else Collect(urls, settlements)
  }

  /** Some fetch throws at once, returns null or fails later. */
  ghost predicate SomeFetchFails(starts: seq<FetchStart>, settlements: seq<Settlement>) {
    (exists i :: 0 <= i < |starts| && !starts[i].Started?) || !NoneFails(settlements)
  }

  lemma {:induction false} FirstFailure(settlements: seq<Settlement>) returns (k: nat)
    requires !NoneFails(settlements)
    ensures k < |settlements| && settlements[k].outcome.Threw? && NoneFails(settlements[..k])
    decreases |settlements|
  {
    var m := |settlements| - 1;
    if NoneFails(settlements[..m]) {
      k := m;
    } else {
      k := FirstFailure(settlements[..m]);
      assert settlements[..m][..k] == settlements[..k];
    }
  }

  /**
   * For every order in which the fetches settle: the files are in the order of the list, each with
   * the content its own fetch delivered, as soon as all have settled; and any fetch that fails or
   * returns null leaves no files at all.
   */
  lemma RetrievalMeaning(urls: seq<string>, starts: seq<FetchStart>, settlements: seq<Settlement>)
    requires |starts| == |urls| && OncePerFetch(|urls|, settlements)
    ensures var r := Retrieve(Resolves(urls), starts, settlements);
            && (r.NoFiles? <==> SomeFetchFails(starts, settlements))
            && (r.Files? <==> !SomeFetchFails(starts, settlements) && AllDeliver(|urls|, settlements))
            && (r.Files? ==> r.urls == urls && |r.files| == |urls|)
            && (r.Files? ==> forall i: nat :: i < |urls| ==>
                r.files[i].url == urls[i] && Delivers(settlements, i, r.files[i].content))
  {
    if FirstNotStarted(starts) == |starts| {
      if NoneFails(settlements) {
        CollectedAreDelivered(|urls|, settlements);
      } else {
        var k := FirstFailure(settlements);
        FirstFailureRejects(|urls|, settlements, k);
      }
    }
  }

  /** Fetch `k` is the first that does not start. */
  ghost predicate FirstToFail(starts: seq<FetchStart>, k: nat) {
    k < |starts| && !starts[k].Started? && forall i :: 0 <= i < k ==> starts[i].Started?
  }

  /** Which error a retrieval ends with: of the list, of the first fetch not to start, or of the first to fail. */
  lemma RetrievalErrorIs(
    urls: seq<string>, starts: seq<FetchStart>, settlements: seq<Settlement>, listError: Value, k: nat
  )
    requires |starts| == |urls| && OncePerFetch(|urls|, settlements)
    ensures Retrieve(Rejects(listError), [], []) == NoFiles(External(listError))
    ensures Retrieve(Hangs, [], []) == Unsettled
    ensures FirstToFail(starts, k) ==>
              match starts[k]
              case ThrowsAtOnce(error) => Retrieve(Resolves(urls), starts, settlements) == NoFiles(error)
              case _ =>
                Retrieve(Resolves(urls), starts, settlements)
                  == NoFiles(Raised("KATransientServiceError",
                                    "Unable to retrieve " + urls[k] + ". ResourceLoader returned null."))
    ensures (forall i :: 0 <= i < |starts| ==> starts[i].Started?)
              && k < |settlements| && settlements[k].outcome.Threw? && NoneFails(settlements[..k]) ==>
              Retrieve(Resolves(urls), starts, settlements) == NoFiles(External(settlements[k].outcome.error))
  {
    assert "KA" + TRANSIENT_SERVICE + "Error" == "KATransientServiceError";
    if FirstToFail(starts, k) {
      assert FirstNotStarted(starts) == k;
    }
    if k < |settlements| && settlements[k].outcome.Threw? && NoneFails(settlements[..k]) {
      FirstFailureRejects(|urls|, settlements, k);
    }
  }

  /** Nothing that arrives after a failure, or after everything has arrived, makes a difference. */
  lemma {:induction false} AwaitedOnce(n: nat, settlements: seq<Settlement>, m: nat)
    requires m <= |settlements| && !AwaitAll(n, settlements[..m]).Waiting?
    ensures AwaitAll(n, settlements) == AwaitAll(n, settlements[..m])
    decreases |settlements|
  {
    if m < |settlements| {
      var before := settlements[..|settlements| - 1];
      assert before[..m] == settlements[..m];
      AwaitedOnce(n, before, m);
    } else {
      assert settlements[..m] == settlements;
    }
  }

  /** Files are only there when nothing has failed. */
  lemma FulfilledMeansNoneFails(n: nat, settlements: seq<Settlement>)
    requires OncePerFetch(n, settlements) && !AwaitAll(n, settlements).Rejected?
    ensures NoneFails(settlements)
  {
    if !NoneFails(settlements) {
      var k := FirstFailure(settlements);
      FirstFailureRejects(n, settlements, k);
    }
  }

  /** The trace session of the retrieval. */
  class TraceSession {
    var fileCount: Option<nat>
    var ended: nat

    constructor ()
      ensures fileCount == None && ended == 0
    {
      fileCount := None;
      ended := 0;
    }
  }

  function Min(a: nat, b: nat): nat { if a <= b then a else b }

  method RetrieveTargetFiles(
    fileList: Awaited<seq<string>, Value>,
    starts: seq<FetchStart>,
    settlements: seq<Settlement>,
    session: TraceSession
  ) returns (r: Retrieval, fetched: seq<string>)
    requires fileList.Resolves? ==> |starts| == |fileList.value|
    modifies session
    ensures r == Retrieve(fileList, starts, settlements)
    ensures session.ended == old(session.ended) + if r.Unsettled? then 0 else 1
    ensures session.fileCount == if fileList.Resolves? then Some(|fileList.value|) else old(session.fileCount)
    ensures !fileList.Resolves? ==> fetched == []
    ensures fileList.Resolves? ==> fetched <= fileList.value && |fetched| == Min(FirstNotStarted(starts) + 1, |starts|)
  {
    fetched := [];
    if fileList.Hangs? { return Unsettled, fetched; }
    if fileList.Rejects? {
      session.ended := session.ended + 1;
      return NoFiles(External(fileList.error)), fetched;
    }
    var urls := fileList.value;
    session.fileCount := Some(|urls|);
    for i := 0 to |urls|
      invariant fetched == urls[..i]
      invariant FirstNotStarted(starts) >= i
      invariant session.ended == old(session.ended) && session.fileCount == Some(|urls|)
    {
      fetched := fetched + [urls[i]];
      if !starts[i].Started? {
        session.ended := session.ended + 1;
        return NoFiles(StartError(urls[i], starts[i]).value), fetched;
      }
    }
    var all := Check(|urls|, map[]);
    assert AwaitAll(|urls|, settlements[..0]) == all;
    for m := 0 to |settlements|
      invariant all == AwaitAll(|urls|, settlements[..m])
      invariant session.ended == old(session.ended) && session.fileCount == Some(|urls|)
    {
      assert settlements[..m + 1][..m] == settlements[..m];
      all := Settle(|urls|, all, settlements[m]);
    }
    assert settlements[..|settlements|] == settlements;
    match all {
      case Waiting(_) => return Unsettled, fetched;
      case Rejected(error) =>
        session.ended := session.ended + 1;
        return NoFiles(External(error)), fetched;
      case Fulfilled(contents) =>
        FulfilledLength(|urls|, settlements);
        session.ended := session.ended + 1;
        var files := seq(|urls|, i requires 0 <= i < |urls| == |contents| => File(contents[i], urls[i]));
        return Files(files, urls), fetched;
    }
  }
}
