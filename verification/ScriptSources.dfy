/**
 * Where the scripts that a render executes come from
 * (src/gateway/environments/jsdom-sixteen/jsdom-sixteen-environment.js:96-122, 301-303): each is the
 * text of the first response to the render's own request for that file, whatever else the loader is
 * asked for and answers meanwhile.
 */
module ScriptSources {
  import opened Common
  import opened ErrorExtraction
  import opened FileRetrieval
  import opened Lifecycle
  import opened OwnFetches
  import ResourceLoader

  function Reached(h: Heap, survives: bool, es: seq<Event>): State { Run(h, Initial(survives), es) }

  /** Event `k` settles request `i`, which has been made by then. */
  ghost predicate RespondsTo(h: Heap, survives: bool, es: seq<Event>, i: nat, k: int) {
    && 0 <= k < |es| && es[k].Response? && es[k].request == i
    && var s := Reached(h, survives, es[..k]);
       !s.phase.ProcessEnded? && s.loader.Some? && i < |s.loader.value.requests|
  }

  /** It is the first event to do so. */
  ghost predicate Answers(h: Heap, survives: bool, es: seq<Event>, i: nat, k: int) {
    RespondsTo(h, survives, es, i, k) && forall j :: 0 <= j < k ==> !RespondsTo(h, survives, es, i, j)
  }

  ghost predicate Answered(h: Heap, survives: bool, es: seq<Event>, i: nat) {
    exists k :: Answers(h, survives, es, i, k)
  }

  lemma AnswersSnoc(h: Heap, survives: bool, es: seq<Event>, e: Event, i: nat)
    ensures forall k :: k < |es| ==> (RespondsTo(h, survives, es + [e], i, k) <==> RespondsTo(h, survives, es, i, k))
    ensures forall k :: k < |es| ==> (Answers(h, survives, es + [e], i, k) <==> Answers(h, survives, es, i, k))
    ensures forall k :: 0 <= k <= |es| ==> (es + [e])[..k] == es[..k]
    ensures RespondsTo(h, survives, es + [e], i, |es|) <==>
              && e.Response? && e.request == i
              && var s := Reached(h, survives, es);
                 !s.phase.ProcessEnded? && s.loader.Some? && i < |s.loader.value.requests|
  {
    assert forall j :: 0 <= j < |es| ==> (es + [e])[..j] == es[..j] && (es + [e])[j] == es[j];
    assert (es + [e])[..|es|] == es;
  }

  lemma {:induction false} FirstAnswer(h: Heap, survives: bool, es: seq<Event>, i: nat, j: int) returns (k: int)
    requires RespondsTo(h, survives, es, i, j)
    ensures Answers(h, survives, es, i, k)
    decreases j
  {
    if m :| 0 <= m < j && RespondsTo(h, survives, es, i, m) {
      k := FirstAnswer(h, survives, es, i, m);
    } else {
      k := j;
    }
  }

  /** What a request has settled to, as seen by whoever made it. */
  function Delivered(s: State, i: nat): Option<Outcome<string, Value>> {
    if s.loader.Some? && i in s.loader.value.delivered then Some(s.loader.value.delivered[i]) else None
  }

  predicate Active(s: State) { s.loader.Some? && s.loader.value.active }

  /** Starting the render's own fetches settles nothing, and closes nothing. */
  lemma StartLeavesDelivered(s: State, calls: seq<ResourceLoader.Call>)
    requires s.loader.Some? && ResourceLoader.Sound(s.loader.value) && s.loader.value.active
    ensures var s' := StartRetrieval(s, s.loader.value, calls);
            s'.loader.Some? && s'.loader.value.delivered == s.loader.value.delivered && s'.loader.value.active
  {
    StartingFetches(s.loader.value, calls);
  }

  lemma FileListDelivers(h: Heap, s: State, e: Event, i: nat)
    requires ListInv(h, s) && e.GotFileList?
    ensures Delivered(Step(h, s, e), i) == Delivered(s, i)
  {
    if s.phase.Listing? && s.loader.Some? && e.list.Returned? { StartLeavesDelivered(s, e.list.value); }
  }

  lemma RenderStepDelivers(h: Heap, s: State, e: Event, i: nat)
    requires ListInv(h, s) && OfRender(e) && !e.GotFileList?
    ensures Delivered(Step(h, s, e), i) == Delivered(s, i)
  {
    if !e.GotLoader? && !e.TidyUpTask? { assert Step(h, s, e).loader == s.loader; }
  }

  lemma OtherStepDelivers(h: Heap, s: State, e: Event, i: nat)
    requires !OfRender(e) && !e.Response?
    ensures Delivered(Step(h, s, e), i) == Delivered(s, i)
  {
    if e.Fetch? && s.loader.Some? { FetchLeaves(s.loader.value, e.call); }
  }

  /** What an event lets a request deliver that has delivered nothing before. */
  function NewlyDelivered(s: State, e: Event, i: nat): Option<Outcome<string, Value>> {
    if !s.phase.ProcessEnded? && e.Response? && e.request == i && s.loader.Some? && i < |s.loader.value.requests|
    then Some(ResourceLoader.Seen(s.loader.value.active, e.outcome))
    else None
  }

  lemma ResponseDelivers(h: Heap, s: State, e: Event, i: nat)
    requires e.Response?
    ensures Delivered(Step(h, s, e), i) == if Delivered(s, i).Some? then Delivered(s, i) else NewlyDelivered(s, e, i)
  {
    if s.loader.Some? && !s.phase.ProcessEnded? {
      var after := ResourceLoader.RespondStep(s.loader.value, e.request, e.outcome);
      assert Step(h, s, e).loader == Some(after);
    }
  }

  lemma DeliveredStep(h: Heap, s: State, e: Event, i: nat)
    requires ListInv(h, s)
    ensures Delivered(Step(h, s, e), i) == if Delivered(s, i).Some? then Delivered(s, i) else NewlyDelivered(s, e, i)
  {
    if e.Response? { ResponseDelivers(h, s, e, i); }
    else if e.GotFileList? { FileListDelivers(h, s, e, i); }
    else if OfRender(e) { RenderStepDelivers(h, s, e, i); }
    else { OtherStepDelivers(h, s, e, i); }
  }

  lemma DeliveredSnoc(h: Heap, survives: bool, es: seq<Event>, e: Event, i: nat)
    ensures var s := Reached(h, survives, es);
            Delivered(Reached(h, survives, es + [e]), i)
              == if Delivered(s, i).Some? then Delivered(s, i) else NewlyDelivered(s, e, i)
  {
    ReachableInv(h, survives, es);
    RunSnoc(h, Initial(survives), es, e);
    DeliveredStep(h, Reached(h, survives, es), e, i);
  }

  /** Over every run, a request has settled if and only if some event settles it, and the first one decides. */
  lemma {:induction false} DeliveredIsFirstAnswer(h: Heap, survives: bool, es: seq<Event>, i: nat)
    ensures Delivered(Reached(h, survives, es), i).Some? <==> Answered(h, survives, es, i)
    ensures forall k :: Answers(h, survives, es, i, k) ==>
              && Reached(h, survives, es[..k]).loader.Some?
              && Delivered(Reached(h, survives, es), i)
                   == Some(if es[k].outcome.Returned? && !Active(Reached(h, survives, es[..k])) then Returned("")
                           else es[k].outcome)
    decreases |es|
  {
    if es != [] {
      var n := |es| - 1;
      var before, e := es[..n], es[n];
      assert before + [e] == es;
      DeliveredIsFirstAnswer(h, survives, before, i);
      AnswersSnoc(h, survives, before, e, i);
      DeliveredSnoc(h, survives, before, e, i);
      if RespondsTo(h, survives, es, i, n) && !Answered(h, survives, before, i) {
        forall j | 0 <= j < n ensures !RespondsTo(h, survives, before, i, j) {
          if RespondsTo(h, survives, before, i, j) { var k := FirstAnswer(h, survives, before, i, j); }
        }
        assert Answers(h, survives, es, i, n);
      }
      if k :| Answers(h, survives, before, i, k) { assert Answers(h, survives, es, i, k); }
    }
  }

  /** No other step of the render touches the loader it has. */
  lemma RenderStepLeavesLoader(h: Heap, s: State, e: Event)
    requires ListInv(h, s) && s.loader.Some? && OfRender(e) && !e.GotFileList? && !e.TidyUpTask?
    ensures Step(h, s, e).loader == s.loader
  {
  }

  lemma ClosedStaysInRender(h: Heap, s: State, e: Event)
    requires ListInv(h, s) && s.loader.Some? && OfRender(e)
    ensures Step(h, s, e).loader.Some? && (Active(Step(h, s, e)) ==> Active(s))
  {
    if e.GotFileList? {
      if s.phase.Listing? && e.list.Returned? { StartLeavesDelivered(s, e.list.value); }
    } else if !e.TidyUpTask? {
      RenderStepLeavesLoader(h, s, e);
    }
  }

  /** A loader that is closed stays closed, and one that is there stays there. */
  lemma ClosedStays(h: Heap, s: State, e: Event)
    requires ListInv(h, s) && s.loader.Some?
    ensures Step(h, s, e).loader.Some? && (Active(Step(h, s, e)) ==> Active(s))
  {
    if OfRender(e) {
      ClosedStaysInRender(h, s, e);
    } else if e.Fetch? {
      FetchLeaves(s.loader.value, e.call);
    } else if e.Response? && !s.phase.ProcessEnded? {
      SettlingIsAdvance(h, s, e.request, e.outcome, 0);
    }
  }

  lemma {:induction false} ActiveEarlier(h: Heap, s: State, es: seq<Event>)
    requires Inv(h, s) && s.loader.Some? && Active(Run(h, s, es))
    ensures Active(s)
    decreases |es|
  {
    if es != [] {
      ClosedStays(h, s, es[0]);
      StepKeepsInv(h, s, es[0]);
      ActiveEarlier(h, Step(h, s, es[0]), es[1..]);
    }
  }

  /** While the loader is active, what a request has settled to is what its first response says. */
  lemma ActiveAnswer(h: Heap, survives: bool, es: seq<Event>, i: nat, k: int)
    requires Answers(h, survives, es, i, k) && Active(Reached(h, survives, es))
    ensures Delivered(Reached(h, survives, es), i) == Some(es[k].outcome)
  {
    DeliveredIsFirstAnswer(h, survives, es, i);
    var s := Reached(h, survives, es[..k]);
    ReachableInv(h, survives, es[..k]);
    assert es == es[..k] + es[k..];
    RunSplit(h, Initial(survives), es[..k], es[k..]);
    ActiveEarlier(h, s, es[k..]);
  }

  /** File `j` of the render's list has the text of the first response to its own request. */
  ghost predicate ComesFromOwn(h: Heap, survives: bool, es: seq<Event>, own: Own, file: File) {
    && file.url == own.url
    && match own.request
       case None => file.content == ""
       case Some(i) => exists k :: Answers(h, survives, es, i, k) && es[k].outcome == Returned(file.content)
  }

  ghost predicate AllFromOwn(h: Heap, survives: bool, es: seq<Event>, f: Fetching) {
    forall j :: 0 <= j < |f.own| ==> ComesFromOwn(h, survives, es, f.own[j], FilesOf(f)[j])
  }

  lemma FilesAreFromOwn(h: Heap, survives: bool, es: seq<Event>)
    requires var s := Reached(h, survives, es);
             Active(s) && s.fetching.all.Fulfilled?
    ensures AllFromOwn(h, survives, es, Reached(h, survives, es).fetching)
  {
    var s := Reached(h, survives, es);
    var f := s.fetching;
    ReachableInv(h, survives, es);
    ContentsAreOwn(f, s.loader.value);
    forall j: nat | j < |f.own| ensures ComesFromOwn(h, survives, es, f.own[j], FilesOf(f)[j]) {
      assert SettledTo(f, s.loader.value, j, Returned(f.all.contents[j]));
      if f.own[j].request.Some? {
        var i := f.own[j].request.value;
        DeliveredIsFirstAnswer(h, survives, es, i);
        var k :| Answers(h, survives, es, i, k);
        ActiveAnswer(h, survives, es, i, k);
      }
    }
  }

  lemma FromOwnStays(h: Heap, survives: bool, es: seq<Event>, e: Event, f: Fetching)
    requires AllFromOwn(h, survives, es, f)
    ensures AllFromOwn(h, survives, es + [e], f)
  {
    forall j: nat | j < |f.own| ensures ComesFromOwn(h, survives, es + [e], f.own[j], FilesOf(f)[j]) {
      assert ComesFromOwn(h, survives, es, f.own[j], FilesOf(f)[j]);
      if f.own[j].request.Some? {
        var i := f.own[j].request.value;
        AnswersSnoc(h, survives, es, e, i);
        var k :| Answers(h, survives, es, i, k) && es[k].outcome == Returned(FilesOf(f)[j].content);
        assert Answers(h, survives, es + [e], i, k) && (es + [e])[k] == es[k];
      }
    }
  }

  /** Only one step executes scripts. */
  lemma OthersExecuteNothing(h: Heap, s: State, e: Event)
    requires !e.RanScripts?
    ensures Step(h, s, e).executed == s.executed
  {
    match e {
      case GotFileList(_) =>
      case Response(_, _) =>
      case Turn(_) =>
      case TidyUpTask =>
      case _ =>
    }
  }

  /** Once scripts have run, the files and the requests they came from stay what they were. */
  lemma ExecutedStays(h: Heap, s: State, e: Event)
    requires FilesInv(s) && s.executed != []
    ensures var s' := Step(h, s, e);
            && s'.executed == s.executed
            && s'.fetching.own == s.fetching.own && FilesOf(s'.fetching) == FilesOf(s.fetching)
  {
    var s' := Step(h, s, e);
    if !e.RanScripts? { OthersExecuteNothing(h, s, e); }
    if e.Response? || e.Turn? {
      if s.loader.Some? {
        var after := if e.Response? then ResourceLoader.RespondStep(s.loader.value, e.request, e.outcome)
            else s.loader.value;
        var request, turn := if e.Response? then e.request else 0, if e.Turn? then e.fetch else 0;
        EventsExtend(s.fetching, s.loader.value, after, request, turn);
      }
      LateSettlement(s.fetching, s'.fetching);
    } else {
      assert s'.fetching == s.fetching;
    }
  }

  lemma ScriptsStart(h: Heap, s: State, e: Event)
    requires Inv(h, s) && s.executed == [] && Step(h, s, e).executed != []
    ensures s.phase.RunningScripts? && Step(h, s, e).fetching == s.fetching
    ensures Active(s) && s.fetching.all.Fulfilled?
  {
    if !e.RanScripts? { OthersExecuteNothing(h, s, e); }
  }

  lemma SameSources(h: Heap, survives: bool, es: seq<Event>, f: Fetching, later: Fetching)
    requires AllFromOwn(h, survives, es, f) && f.own == later.own && FilesOf(f) == FilesOf(later)
    ensures AllFromOwn(h, survives, es, later)
  {
  }

  lemma {:induction false} ExecutedAreFromOwn(h: Heap, survives: bool, es: seq<Event>)
    requires Reached(h, survives, es).executed != []
    ensures AllFromOwn(h, survives, es, Reached(h, survives, es).fetching)
    decreases |es|
  {
    if es != [] {
      var n := |es| - 1;
      var before, e := es[..n], es[n];
      assert before + [e] == es;
      RunSnoc(h, Initial(survives), before, e);
      ReachableInv(h, survives, before);
      var s, s' := Reached(h, survives, before), Reached(h, survives, es);
      if s.executed != [] {
        ExecutedAreFromOwn(h, survives, before);
        ExecutedStays(h, s, e);
      } else {
        ScriptsStart(h, s, e);
        FilesAreFromOwn(h, survives, before);
      }
      FromOwnStays(h, survives, before, e, s.fetching);
      SameSources(h, survives, es, s.fetching, s'.fetching);
    }
  }

  /** Event `k` rejects the request for file `j`. */
  ghost predicate RejectsOwn(h: Heap, survives: bool, es: seq<Event>, own: seq<Own>, j: int, k: int) {
    && 0 <= j < |own| && own[j].request.Some?
    && Answers(h, survives, es, own[j].request.value, k) && es[k].outcome.Threw?
  }

  /** File `j` is one that a retrieval still waits for. */
  ghost predicate IsOutstanding(h: Heap, survives: bool, es: seq<Event>, f: Fetching, j: int) {
    && 0 <= j < |f.own|
    && match f.own[j].request
       case None => !SettledAt(f.settled, j)
       case Some(i) => !Answered(h, survives, es, i)
  }

  /**
   * Over every interleaving: the scripts executed are files of the list, in its order, each with the
   * text of the first response to the render's own request for it; and if any request of its own fails
   * first, no script is executed at all.
   */
  lemma ScriptsAreOwnResponses(h: Heap, survives: bool, es: seq<Event>)
    ensures var s := Reached(h, survives, es);
            var own := s.fetching.own;
            && |s.executed| <= |own|
            && (forall j :: 0 <= j < |s.executed| ==> ComesFromOwn(h, survives, es, own[j], s.executed[j]))
            && ((exists j, k :: RejectsOwn(h, survives, es, own, j, k)) ==> s.executed == [])
            && (s.executed != [] ==> forall j :: 0 <= j < |own| && own[j].request.Some? ==>
                  Answered(h, survives, es, own[j].request.value))
  {
    var s := Reached(h, survives, es);
    ReachableInv(h, survives, es);
    if s.executed != [] {
      ExecutedAreFromOwn(h, survives, es);
      var own := s.fetching.own;
      forall j | 0 <= j < |own| ensures ComesFromOwn(h, survives, es, own[j], FilesOf(s.fetching)[j]) {}
    }
  }

  /**
   * The requests of the list are distinct, they are requests for the listed URLs, and a render that is
   * still retrieving waits for one of them, or for the turn of a promise resolved from the start.
   */
  lemma RetrievalWaitsForOwn(h: Heap, survives: bool, es: seq<Event>)
    ensures var s := Reached(h, survives, es);
            var own := s.fetching.own;
            && (forall j, k :: 0 <= j < k < |own| && own[j].request.Some? ==> own[j].request != own[k].request)
            && (forall j :: 0 <= j < |own| && own[j].request.Some? ==>
                  && s.loader.Some? && own[j].request.value < |s.loader.value.requests|
                  && s.loader.value.requests[own[j].request.value].url == own[j].url)
            && (s.phase.Retrieving? ==> exists j :: IsOutstanding(h, survives, es, s.fetching, j))
  {
    var s := Reached(h, survives, es);
    ReachableInv(h, survives, es);
    if s.phase.Retrieving? {
      var j := WaitsForOwn(s.fetching, s.loader.value);
      if s.fetching.own[j].request.Some? { DeliveredIsFirstAnswer(h, survives, es, s.fetching.own[j].request.value); }
      assert IsOutstanding(h, survives, es, s.fetching, j);
    }
  }
}
