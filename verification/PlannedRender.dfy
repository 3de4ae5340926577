/**
 * A render in the middle of everything else, against the same render on its own: the list, the ending
 * and the scripts of any interleaved run are those of the plan whose files are what the retrieval gives
 * for the order in which the render's own fetches settled in that run.
 */
module PlannedRender {
  import opened Common
  import opened Environment
  import opened ErrorExtraction
  import opened FileRetrieval
  import opened Lifecycle
  import opened OwnFetches
  import ResourceLoader

  type FileList = Awaited<seq<ResourceLoader.Call>, Value>

  // ----- Plans -----

  function Done<T, E>(o: Outcome<T, E>): Outcome<(), E> {
    match o
    case Returned(_) => Returned(())
    case Threw(error) => Threw(error)
  }

  /** The loader, the window and the gate of the plan are the gateway's own; only the window's `close` may throw. */
  predicate UsesOwnObjects(plan: Plan) {
    && (plan.loader.Returned? ==> plan.loader.value == LOADER_CLOSER)
    && (plan.window.Returned? ==> plan.window.value.Closes? && plan.window.value.owner == Window)
    && (plan.gate.Returned? ==> plan.gate.value == GATE_CLOSER)
    && (plan.afterEnv.Resolves? ==> plan.afterEnv.value == UserCloseable(plan.afterEnv.value))
  }

  /** What the code around the gateway does in an event is what the plan and the file list say it does. */
  ghost predicate Agrees(plan: Plan, list: FileList, e: Event)
    requires UsesOwnObjects(plan)
  {
    match e
    case GotLoader(o) => o == Done(plan.loader)
    case GotFileList(o) => list == Settling(o)
    case GotWindow(o) =>
      o == if plan.window.Threw? then Threw(plan.window.error) else Returned(plan.window.value.throws)
    case PatchedTimers(o) => o == if plan.context.Threw? then plan.context else Done(plan.gate)
    case GotAfterEnv(o) => plan.afterEnv == Settling(o)
    case RanScripts(scripts) => scripts == plan.scripts
    case CallbackSettled(id, result) => plan.callback(id) == Settling(result)
    case _ => true
  }

  ghost predicate Follows(plan: Plan, list: FileList, es: seq<Event>)
    requires UsesOwnObjects(plan)
  {
    forall e :: e in es ==> Agrees(plan, list, e)
  }

  function RetrievalOf(list: FileList, settled: seq<Settlement>): Retrieval {
    match list
    case Resolves(calls) => Retrieve(Resolves(UrlsOf(calls)), StartsOf(calls), settled)
    case Rejects(error) => Retrieve(Rejects(error), [], settled)
    case Hangs => Retrieve(Hangs, [], settled)
  }

  /** The plan with the files that the retrieval gives. */
  function PlanFor(plan: Plan, list: FileList, f: Fetching): Plan {
    plan.(files := FilesFrom(RetrievalOf(list, f.settled)))
  }

  // ----- The retrieval -----

  /** The fetches are those of the list, all of them begun. */
  predicate FetchesAll(list: FileList, f: Fetching) {
    && list.Resolves? && |f.own| == |list.value| && FirstNotStarted(StartsOf(list.value)) == |list.value|
    && forall j :: 0 <= j < |f.own| ==> f.own[j].url == list.value[j].url
  }

  /** Or none has begun. */
  predicate FetchesList(list: FileList, f: Fetching) {
    (f.own == [] && f.settled == []) || FetchesAll(list, f)
  }

  /** What the retrieval gives, as far as it has got. */
  lemma RetrievalIs(plan: Plan, list: FileList, f: Fetching)
    requires FetchesAll(list, f) && f.all == AwaitAll(|f.own|, f.settled)
    ensures PlanFor(plan, list, f).files ==
      match f.all
      case Waiting(_) => Hangs
      case Rejected(error) => Rejects(External(error))
      case Fulfilled(_) => Resolves(FilesOf(f))
  {
    FulfilledLength(|f.own|, f.settled);
    assert UrlsOf(list.value) == seq(|f.own|, i requires 0 <= i < |f.own| => f.own[i].url);
    if f.all.Fulfilled? {
      var r := RetrievalOf(list, f.settled);
      assert r.files == FilesOf(f);
    }
  }

  lemma FetchFailsToStart(plan: Plan, list: FileList, f: Fetching, error: Thrown)
    requires list.Resolves?
    requires var k := FirstNotStarted(StartsOf(list.value));
             k < |list.value| && StartsOf(list.value)[k] == ThrowsAtOnce(error)
    ensures PlanFor(plan, list, f).files == Rejects(error)
  {
  }

  /** Once it is over, what settles later changes nothing. */
  lemma PlanIsStable(plan: Plan, list: FileList, f: Fetching, later: Fetching)
    requires FetchesAll(list, f) && f.all == AwaitAll(|f.own|, f.settled) && !f.all.Waiting?
    requires later.own == f.own && later.all == AwaitAll(|f.own|, later.settled) && later.all == f.all
    ensures PlanFor(plan, list, later) == PlanFor(plan, list, f)
  {
    RetrievalIs(plan, list, f);
    RetrievalIs(plan, list, later);
    assert FilesOf(later) == FilesOf(f);
  }

  // ----- Following a plan -----

  /** How far a set-up has come, by how much it has acquired. */
  predicate Acquiring(plan: Plan, cs: seq<Closeable>) {
    && |cs| <= 5
    && (|cs| >= 1 ==> plan.loader.Returned? && cs[0] == plan.loader.value)
    && (|cs| >= 2 ==> plan.files.Resolves? && plan.window.Returned? && cs[1] == plan.window.value)
    && (|cs| >= 3 ==> plan.context.Returned? && plan.gate.Returned? && cs[2] == plan.gate.value)
    && (|cs| >= 4 ==> plan.afterEnv.Resolves? && cs[3] == plan.afterEnv.value)
    && (|cs| >= 5 ==> cs[4] == HOOK_CLOSER)
  }

  /** How the scripts have gone, as far as they have been run. */
  predicate Executed(plan: Plan, executed: seq<File>) {
    if SetUp(plan) then executed == plan.files.value[..CountRun(plan.scripts, |plan.files.value|)] else executed == []
  }

  ghost predicate OnPlan(h: Heap, plan: Plan, s: State) {
    match s.phase
    case AwaitingCallback(id) =>
      && SetUp(plan) && Acquiring(plan, s.closeables) && |s.closeables| == 5 && Executed(plan, s.executed)
      && EndingOfScripts(plan.scripts, |plan.files.value|).None?
      && CallbackOf(plan.scripts, |plan.files.value|) == Some(id)
    case AwaitingTidyUp(ending) =>
      Ending(plan) == Some(ending) && s.closeables == Acquired(plan) && Executed(plan, s.executed)
    case Settled(ending) =>
      SettlingOf(h, plan) == Some(ending) && s.closeables == [] && Executed(plan, s.executed)
    case NeverSettles =>
      Ending(plan).Some? && SettlingOf(h, plan).None? && s.closeables == Acquired(plan) && Executed(plan, s.executed)
    case ProcessEnded =>
      Ending(plan).Some? && SettlingOf(h, plan).None? && s.closeables == Acquired(plan) && Executed(plan, s.executed)
    case _ => Acquiring(plan, s.closeables) && s.executed == []
  }

  ghost predicate FilesOnPlan(plan: Plan, list: FileList, s: State) {
    && FetchesList(list, s.fetching)
    && (s.phase.Retrieving? || HasFiles(s.phase) ==> FetchesAll(list, s.fetching))
    && (HasFiles(s.phase) ==> PlanFor(plan, list, s.fetching).files == Resolves(FilesOf(s.fetching)))
    && (s.fetching.own != [] && !s.phase.Retrieving? ==> !s.fetching.all.Waiting?)
  }

  ghost predicate Planned(h: Heap, plan: Plan, list: FileList, s: State) {
    && FilesOnPlan(plan, list, s)
    && OnPlan(h, PlanFor(plan, list, s.fetching), s)
  }

  lemma AcquiringAll(plan: Plan, cs: seq<Closeable>)
    requires SetUp(plan) && Acquiring(plan, cs) && |cs| == 5
    ensures cs == Acquired(plan)
  {
    AcquiredIs(plan);
  }

  function ValueOf(error: Thrown): Value { if error.External? then error.value else Undefined }

  /** A step of the set-up that throws. */
  lemma FailureOnPlan(h: Heap, plan: Plan, s: State, error: Thrown)
    requires Acquiring(plan, s.closeables) && s.executed == []
    requires match |s.closeables|
             case 0 => plan.loader == Threw(ValueOf(error)) && error.External?
             case 1 => plan.files == Rejects(error)
                       || (plan.files.Resolves? && plan.window == Threw(ValueOf(error)) && error.External?)
             case 2 => error.External? && (plan.context == Threw(ValueOf(error))
                       || (plan.context.Returned? && plan.gate == Threw(ValueOf(error))))
             case 3 => error.External? && plan.afterEnv == Rejects(ValueOf(error))
             case _ => false
    ensures OnPlan(h, plan, Fail(s, error))
  {
    AcquiredIs(plan);
    EndingIs(plan);
  }

  lemma GotLoaderOnPlan(h: Heap, plan: Plan, list: FileList, s: State, o: Outcome<(), Value>)
    requires UsesOwnObjects(plan) && Inv(h, s) && Planned(h, plan, list, s) && s.phase.Starting?
    requires Agrees(plan, list, GotLoader(o))
    ensures Planned(h, plan, list, Step(h, s, GotLoader(o)))
  {
    if o.Threw? { FailureOnPlan(h, PlanFor(plan, list, s.fetching), s, External(o.error)); }
  }

  lemma GotWindowOnPlan(h: Heap, plan: Plan, list: FileList, s: State, o: Outcome<Option<Value>, Value>)
    requires UsesOwnObjects(plan) && Shape(s) && Planned(h, plan, list, s) && s.phase.MakingWindow?
    requires Agrees(plan, list, GotWindow(o))
    ensures Planned(h, plan, list, Step(h, s, GotWindow(o)))
  {
    if o.Threw? { FailureOnPlan(h, PlanFor(plan, list, s.fetching), s, External(o.error)); }
  }

  lemma PatchedTimersOnPlan(h: Heap, plan: Plan, list: FileList, s: State, o: Outcome<(), Value>)
    requires UsesOwnObjects(plan) && Shape(s) && Planned(h, plan, list, s) && s.phase.PatchingTimers?
    requires Agrees(plan, list, PatchedTimers(o))
    ensures Planned(h, plan, list, Step(h, s, PatchedTimers(o)))
  {
    if o.Threw? { FailureOnPlan(h, PlanFor(plan, list, s.fetching), s, External(o.error)); }
  }

  lemma GotAfterEnvOnPlan(h: Heap, plan: Plan, list: FileList, s: State, o: Outcome<Closeable, Value>)
    requires UsesOwnObjects(plan) && Shape(s) && Planned(h, plan, list, s) && s.phase.RunningAfterEnvSetup?
    requires Agrees(plan, list, GotAfterEnv(o))
    ensures Planned(h, plan, list, Step(h, s, GotAfterEnv(o)))
  {
    if o.Threw? { FailureOnPlan(h, PlanFor(plan, list, s.fetching), s, External(o.error)); }
  }

  lemma InstalledHookOnPlan(h: Heap, plan: Plan, list: FileList, s: State)
    requires Shape(s) && Planned(h, plan, list, s) && s.phase.InstallingHook?
    ensures Planned(h, plan, list, Step(h, s, InstalledHook))
  {
  }

  /** The end of the retrieval, whenever it comes. */
  lemma AdvanceOnPlan(h: Heap, plan: Plan, list: FileList, s: State)
    requires s.phase.Retrieving? && s.fetching.all == AwaitAll(|s.fetching.own|, s.fetching.settled)
    requires s.executed == [] && FetchesAll(list, s.fetching)
    requires plan.loader.Returned? && |s.closeables| == 1 && s.closeables[0] == plan.loader.value
    ensures Planned(h, plan, list, Advance(s))
  {
    RetrievalIs(plan, list, s.fetching);
    var p := PlanFor(plan, list, s.fetching);
    if s.fetching.all.Rejected? { FailureOnPlan(h, p, s, External(s.fetching.all.error)); }
  }

  lemma StartOnPlan(h: Heap, plan: Plan, list: FileList, s: State, calls: seq<ResourceLoader.Call>)
    requires Inv(h, s) && Planned(h, plan, list, s) && s.phase.Listing? && s.loader.Some?
    requires list == Resolves(calls)
    ensures Planned(h, plan, list, StartRetrieval(s, s.loader.value, calls))
  {
    var loader := s.loader.value;
    StartingFetches(loader, calls);
    var (later, own, error) := StartFetches(loader, calls);
    if error.Some? {
      FetchFailsToStart(plan, list, s.fetching, error.value);
      FailureOnPlan(h, PlanFor(plan, list, s.fetching), s.(loader := Some(later)), error.value);
    } else {
      AdvanceOnPlan(h, plan, list, s.(loader := Some(later), fetching := Begin(own), phase := Retrieving));
    }
  }

  lemma GotFileListOnPlan(h: Heap, plan: Plan, list: FileList, s: State, o: Outcome<seq<ResourceLoader.Call>, Value>)
    requires UsesOwnObjects(plan) && Inv(h, s) && Planned(h, plan, list, s) && s.phase.Listing?
    requires Agrees(plan, list, GotFileList(o))
    ensures Planned(h, plan, list, Step(h, s, GotFileList(o)))
  {
    match o {
      case Threw(error) =>
        FailureOnPlan(h, PlanFor(plan, list, s.fetching), s, External(error));
      case Returned(calls) =>
        StartOnPlan(h, plan, list, s, calls);
    }
  }

  lemma ScriptsOnPlan(h: Heap, plan: Plan, s: State)
    requires SetUp(plan) && plan.files.value == FilesOf(s.fetching)
    requires Acquiring(plan, s.closeables) && |s.closeables| == 5
    ensures OnPlan(h, plan, RunScripts(s, plan.scripts))
  {
    AcquiringAll(plan, s.closeables);
  }

  lemma RanScriptsOnPlan(h: Heap, plan: Plan, list: FileList, s: State)
    requires Shape(s) && Planned(h, plan, list, s) && s.phase.RunningScripts?
    ensures Planned(h, plan, list, Step(h, s, RanScripts(plan.scripts)))
  {
    ScriptsOnPlan(h, PlanFor(plan, list, s.fetching), s);
  }

  lemma CallbackOnPlan(h: Heap, plan: Plan, list: FileList, s: State, id: nat, result: Outcome<CallbackResult, Value>)
    requires UsesOwnObjects(plan) && Planned(h, plan, list, s) && s.phase == AwaitingCallback(id)
    requires Agrees(plan, list, CallbackSettled(id, result))
    ensures Planned(h, plan, list, Step(h, s, CallbackSettled(id, result)))
  {
    AcquiringAll(PlanFor(plan, list, s.fetching), s.closeables);
  }

  lemma TidyUpOnPlan(h: Heap, plan: Plan, list: FileList, s: State)
    requires Planned(h, plan, list, s) && s.phase.AwaitingTidyUp?
    ensures Planned(h, plan, list, TidyUp(h, s, s.phase.ending))
  {
    TidyUpPhase(h, s, s.phase.ending);
  }

  /** A change of the retrieval's state alone, after the retrieval is over. */
  lemma LateOnPlan(h: Heap, plan: Plan, list: FileList, s: State, later: State)
    requires FilesInv(s) && FilesInv(later) && s.loader.Some? && later.loader.Some?
    requires Planned(h, plan, list, s) && !s.phase.Retrieving?
    requires later.phase == s.phase && later.closeables == s.closeables && later.executed == s.executed
    requires Extends(s.fetching, later.fetching)
    ensures Planned(h, plan, list, later)
  {
    if later.fetching != s.fetching {
      LateSettlement(s.fetching, later.fetching);
      PlanIsStable(plan, list, s.fetching, later.fetching);
    }
  }

  /** A settlement of the render's own, or of somebody else's request, at any time. */
  lemma SettlingOnPlan(h: Heap, plan: Plan, list: FileList, s: State, later: State)
    requires Inv(h, s) && Planned(h, plan, list, s) && s.loader.Some? && later.loader.Some?
    requires later == s.(loader := later.loader, fetching := later.fetching)
    requires Extends(s.fetching, later.fetching) && Tracks(later.fetching, later.loader.value)
    ensures Planned(h, plan, list, Advance(later))
  {
    if s.phase.Retrieving? {
      AdvanceOnPlan(h, plan, list, later);
    } else {
      LateKeepsFiles(s, later);
      LateOnPlan(h, plan, list, s, later);
    }
  }

  lemma ResponseOnPlan(h: Heap, plan: Plan, list: FileList, s: State, i: nat, outcome: Outcome<string, Value>)
    requires Inv(h, s) && Planned(h, plan, list, s) && s.loader.Some? && !s.phase.ProcessEnded?
    ensures Planned(h, plan, list, Step(h, s, Response(i, outcome)))
  {
    var loader := s.loader.value;
    var after := ResourceLoader.RespondStep(loader, i, outcome);
    var f := AfterResponse(s.fetching, loader, after, i);
    EventsExtend(s.fetching, loader, after, i, 0);
    ResponseKeepsTracks(s.fetching, loader, i, outcome);
    SettlingOnPlan(h, plan, list, s, s.(loader := Some(after), fetching := f));
    SettlingIsAdvance(h, s, i, outcome, 0);
  }

  lemma TurnOnPlan(h: Heap, plan: Plan, list: FileList, s: State, k: nat)
    requires Inv(h, s) && Planned(h, plan, list, s) && s.loader.Some? && !s.phase.ProcessEnded?
    ensures Planned(h, plan, list, Step(h, s, Turn(k)))
  {
    EventsExtend(s.fetching, s.loader.value, s.loader.value, 0, k);
    TurnKeepsTracks(s.fetching, s.loader.value, k);
    SettlingOnPlan(h, plan, list, s, s.(fetching := AfterTurn(s.fetching, k)));
    SettlingIsAdvance(h, s, 0, Returned(""), k);
  }

  lemma UnrelatedOnPlan(h: Heap, plan: Plan, list: FileList, s: State, later: State)
    requires Planned(h, plan, list, s)
    requires later.phase == s.phase && later.closeables == s.closeables
    requires later.executed == s.executed && later.fetching == s.fetching
    ensures Planned(h, plan, list, later)
  {
  }

  /** Timers, fetches by anybody, and whatever comes without a loader. */
  lemma UnrelatedStep(h: Heap, s: State, e: Event)
    requires FilesInv(s) && !OfRender(e) && (s.loader.None? || (!e.Response? && !e.Turn?))
    ensures var later := Step(h, s, e);
            && later.phase == s.phase && later.closeables == s.closeables
            && later.executed == s.executed && later.fetching == s.fetching
  {
  }

  lemma SurroundingsOnPlan(h: Heap, plan: Plan, list: FileList, s: State, e: Event)
    requires Inv(h, s) && Planned(h, plan, list, s) && !OfRender(e) && !s.phase.ProcessEnded?
    ensures Planned(h, plan, list, Step(h, s, e))
  {
    if s.loader.None? || (!e.Response? && !e.Turn?) {
      UnrelatedStep(h, s, e);
      UnrelatedOnPlan(h, plan, list, s, Step(h, s, e));
    } else if e.Response? {
      ResponseOnPlan(h, plan, list, s, e.request, e.outcome);
    } else {
      TurnOnPlan(h, plan, list, s, e.fetch);
    }
  }

  /** The phase in which a step of the render happens. */
  predicate Applies(p: Phase, e: Event)
    requires OfRender(e)
  {
    match e
    case GotLoader(_) => p.Starting?
    case GotFileList(_) => p.Listing?
    case GotWindow(_) => p.MakingWindow?
    case PatchedTimers(_) => p.PatchingTimers?
    case GotAfterEnv(_) => p.RunningAfterEnvSetup?
    case InstalledHook => p.InstallingHook?
    case RanScripts(_) => p.RunningScripts?
    case CallbackSettled(id, _) => p == AwaitingCallback(id)
    case TidyUpTask => p.AwaitingTidyUp?
  }

  lemma OnlyInItsPhase(h: Heap, s: State, e: Event)
    requires OfRender(e) && !Applies(s.phase, e)
    ensures Step(h, s, e) == s
  {
  }

  lemma PushOnPlan(h: Heap, plan: Plan, list: FileList, s: State, e: Event)
    requires UsesOwnObjects(plan) && Shape(s) && Planned(h, plan, list, s) && Agrees(plan, list, e)
    requires IsPush(e) && Applies(s.phase, e)
    ensures Planned(h, plan, list, Step(h, s, e))
  {
    match e {
      case GotWindow(o) => GotWindowOnPlan(h, plan, list, s, o);
      case PatchedTimers(o) => PatchedTimersOnPlan(h, plan, list, s, o);
      case GotAfterEnv(o) => GotAfterEnvOnPlan(h, plan, list, s, o);
      case InstalledHook => InstalledHookOnPlan(h, plan, list, s);
    }
  }

  lemma BodyOnPlan(h: Heap, plan: Plan, list: FileList, s: State, e: Event)
    requires UsesOwnObjects(plan) && Inv(h, s) && Planned(h, plan, list, s) && Agrees(plan, list, e)
    requires OfRender(e) && !IsPush(e) && Applies(s.phase, e)
    ensures Planned(h, plan, list, Step(h, s, e))
  {
    match e {
      case GotLoader(o) => GotLoaderOnPlan(h, plan, list, s, o);
      case GotFileList(o) => GotFileListOnPlan(h, plan, list, s, o);
      case RanScripts(_) => RanScriptsOnPlan(h, plan, list, s);
      case CallbackSettled(id, r) => CallbackOnPlan(h, plan, list, s, id, r);
      case TidyUpTask => TidyUpOnPlan(h, plan, list, s);
    }
  }

  lemma RenderStepOnPlan(h: Heap, plan: Plan, list: FileList, s: State, e: Event)
    requires UsesOwnObjects(plan) && Inv(h, s) && Planned(h, plan, list, s) && Agrees(plan, list, e)
    requires OfRender(e) && !s.phase.ProcessEnded?
    ensures Planned(h, plan, list, Step(h, s, e))
  {
    if !Applies(s.phase, e) { OnlyInItsPhase(h, s, e); }
    else if IsPush(e) { PushOnPlan(h, plan, list, s, e); }
    else { BodyOnPlan(h, plan, list, s, e); }
  }

  lemma {:induction false} RunOnPlan(h: Heap, plan: Plan, list: FileList, s: State, es: seq<Event>)
    requires UsesOwnObjects(plan) && Inv(h, s) && Planned(h, plan, list, s) && Follows(plan, list, es)
    ensures Planned(h, plan, list, Run(h, s, es)) && Inv(h, Run(h, s, es))
    decreases |es|
  {
    if es != [] {
      StepKeepsInv(h, s, es[0]);
      assert Agrees(plan, list, es[0]);
      if !s.phase.ProcessEnded? {
        if OfRender(es[0]) { RenderStepOnPlan(h, plan, list, s, es[0]); }
        else { SurroundingsOnPlan(h, plan, list, s, es[0]); }
      }
      RunOnPlan(h, plan, list, Step(h, s, es[0]), es[1..]);
    }
  }

  lemma ReachableOnPlan(h: Heap, survives: bool, plan: Plan, list: FileList, es: seq<Event>)
    requires UsesOwnObjects(plan) && Follows(plan, list, es)
    ensures Planned(h, plan, list, Run(h, Initial(survives), es)) && Inv(h, Run(h, Initial(survives), es))
  {
    ReachableInv(h, survives, []);
    RunOnPlan(h, plan, list, Initial(survives), es);
  }

  // ----- The results -----

  predicate BodyIsOver(p: Phase) { p.AwaitingTidyUp? || p.Settled? || Escaped(p) }

  lemma ExecutedUrls(plan: Plan, executed: seq<File>)
    requires Executed(plan, executed)
    ensures Urls(executed) == ScriptsRun(plan)
  {
  }

  lemma PlannedMeans(h: Heap, plan: Plan, list: FileList, s: State)
    requires Inv(h, s) && Planned(h, plan, list, s)
    ensures list.Resolves? && |s.fetching.own| == |list.value| ==> OncePerFetch(|list.value|, s.fetching.settled)
    ensures BodyIsOver(s.phase) ==> Urls(s.executed) == ScriptsRun(PlanFor(plan, list, s.fetching))
  {
    if BodyIsOver(s.phase) { ExecutedUrls(PlanFor(plan, list, s.fetching), s.executed); }
  }

  /**
   * Over every interleaving in which the code around the gateway behaves as planned: once the body is
   * over, the list, the ending and the scripts are those of the plan whose files are what
   * `_retrieveTargetFiles` gives for the settlements of this run; and the promise settles to that ending
   * if and only if no close throws something that cannot be reported.
   */
  lemma InterleavedRenderIsAsPlanned(h: Heap, survives: bool, plan: Plan, list: FileList, es: seq<Event>)
    requires UsesOwnObjects(plan) && Follows(plan, list, es)
    ensures var s := Run(h, Initial(survives), es);
            var p := PlanFor(plan, list, s.fetching);
            && (list.Resolves? && |s.fetching.own| == |list.value| ==> OncePerFetch(|list.value|, s.fetching.settled))
            && (s.phase.AwaitingTidyUp? ==> Ending(p) == Some(s.phase.ending) && s.closeables == Acquired(p))
            && (s.phase.Settled? ==> SettlingOf(h, p) == Some(s.phase.ending) && s.closeables == [])
            && (Escaped(s.phase) ==> Ending(p).Some? && SettlingOf(h, p).None? && s.closeables == Acquired(p))
            && (BodyIsOver(s.phase) ==> Urls(s.executed) == ScriptsRun(p))
  {
    ReachableOnPlan(h, survives, plan, list, es);
    PlannedMeans(h, plan, list, Run(h, Initial(survives), es));
  }

  /** The same settlements, or the same successful ones in another order. */
  ghost predicate SameSettlements(a: seq<Settlement>, b: seq<Settlement>) {
    a == b || (NoneFails(a) && forall s :: s in a <==> s in b)
  }

  lemma SameFiles(plan: Plan, list: FileList, s: State, t: State)
    requires FilesInv(s) && FilesInv(t) && FetchesList(list, s.fetching) && FetchesList(list, t.fetching)
    requires SameSettlements(s.fetching.settled, t.fetching.settled)
    ensures PlanFor(plan, list, s.fetching) == PlanFor(plan, list, t.fetching)
  {
    var a, b := s.fetching.settled, t.fetching.settled;
    if a != b {
      assert a != [] ==> a[0] in b;
      assert b != [] ==> b[0] in a;
      OrderOfArrivalIsIrrelevant(|list.value|, a, b);
    }
  }

  /**
   * Two runs of one plan, with any timers, fetches and responses around them: if the render's own
   * fetches settle alike, then the endings are the same, and so are the scripts and what is left open.
   */
  lemma SurroundingsDoNotInterfere(h: Heap, survives: bool, plan: Plan, list: FileList, a: seq<Event>, b: seq<Event>)
    requires UsesOwnObjects(plan) && Follows(plan, list, a) && Follows(plan, list, b)
    requires var s, t := Run(h, Initial(survives), a), Run(h, Initial(survives), b);
             && s.phase.Settled? && BodyIsOver(t.phase) && !t.phase.AwaitingTidyUp?
             && SameSettlements(s.fetching.settled, t.fetching.settled)
    ensures var s, t := Run(h, Initial(survives), a), Run(h, Initial(survives), b);
            t.phase == s.phase && t.closeables == s.closeables && Urls(t.executed) == Urls(s.executed)
  {
    var s, t := Run(h, Initial(survives), a), Run(h, Initial(survives), b);
    InterleavedRenderIsAsPlanned(h, survives, plan, list, a);
    InterleavedRenderIsAsPlanned(h, survives, plan, list, b);
    ReachableOnPlan(h, survives, plan, list, a);
    ReachableOnPlan(h, survives, plan, list, b);
    SameFiles(plan, list, s, t);
  }

  // ----- Reaching the end -----

  /** What the body waits for is a promise that, by the plan, never settles. */
  predicate PlanHangs(plan: Plan, list: FileList, p: Phase) {
    match p
    case Listing => list.Hangs?
    case RunningAfterEnvSetup => plan.afterEnv.Hangs?
    case AwaitingCallback(id) => plan.callback(id).Hangs?
    case _ => false
  }

  /** The event that the plan has next, if it is not for the retrieval to go on. */
  function Next(plan: Plan, list: FileList, p: Phase): Event
    requires UsesOwnObjects(plan) && !PlanHangs(plan, list, p)
  {
    match p
    case Starting => GotLoader(Done(plan.loader))
    case Listing => GotFileList(if list.Resolves? then Returned(list.value) else Threw(list.error))
    case MakingWindow =>
      GotWindow(if plan.window.Threw? then Threw(plan.window.error) else Returned(plan.window.value.throws))
    case PatchingTimers => PatchedTimers(if plan.context.Threw? then plan.context else Done(plan.gate))
    case RunningAfterEnvSetup =>
      GotAfterEnv(if plan.afterEnv.Resolves? then Returned(plan.afterEnv.value) else Threw(plan.afterEnv.error))
    case InstallingHook => InstalledHook
    case RunningScripts => RanScripts(plan.scripts)
    case AwaitingCallback(id) =>
      var r := plan.callback(id);
      CallbackSettled(id, if r.Resolves? then Returned(r.value) else Threw(r.error))
    case _ => TidyUpTask
  }

  /** The body is over and nothing is left to happen to the render. */
  predicate IsOver(p: Phase) { p.Settled? || Escaped(p) }

  function Rank(p: Phase): nat {
    match p
    case Starting => 10
    case Listing => 9
    case Retrieving => 8
    case MakingWindow => 7
    case PatchingTimers => 6
    case RunningAfterEnvSetup => 5
    case InstallingHook => 4
    case RunningScripts => 3
    case AwaitingCallback(_) => 2
    case AwaitingTidyUp(_) => 1
    case _ => 0
  }

  /** The fetches of its own that a render still waits for; none are counted after the retrieval. */
  function Outstanding(s: State): int {
    if s.phase.Retrieving? then |s.fetching.own| - |s.fetching.settled| else 0
  }

  lemma SettlesNoMore(f: Fetching)
    requires OncePerFetch(|f.own|, f.settled)
    ensures |f.settled| <= |f.own|
  {
    var indices := seq(|f.settled|, m requires 0 <= m < |f.settled| => f.settled[m].index);
    Pigeonhole(indices, |f.own|);
  }

  lemma ListAdvances(h: Heap, s: State, list: Outcome<seq<ResourceLoader.Call>, Value>)
    requires s.phase.Listing? && s.loader.Some?
    ensures Rank(Step(h, s, GotFileList(list)).phase) < Rank(s.phase)
  {
  }

  lemma TidyUpAdvances(h: Heap, s: State)
    requires s.phase.AwaitingTidyUp?
    ensures Rank(Step(h, s, TidyUpTask).phase) < Rank(s.phase)
  {
  }

  lemma ScriptsAdvance(h: Heap, s: State, scripts: nat -> ScriptRun)
    requires s.phase.RunningScripts?
    ensures Rank(Step(h, s, RanScripts(scripts)).phase) < Rank(s.phase)
  {
  }

  predicate IsSetUp(p: Phase) {
    p.MakingWindow? || p.PatchingTimers? || p.RunningAfterEnvSetup? || p.InstallingHook?
  }

  lemma SetUpAdvances(h: Heap, plan: Plan, list: FileList, s: State)
    requires UsesOwnObjects(plan) && IsSetUp(s.phase) && !PlanHangs(plan, list, s.phase)
    ensures Rank(Step(h, s, Next(plan, list, s.phase)).phase) < Rank(s.phase)
  {
    match s.phase {
      case MakingWindow =>
      case PatchingTimers =>
      case RunningAfterEnvSetup =>
      case InstallingHook =>
    }
  }

  lemma NextAgrees(plan: Plan, list: FileList, p: Phase)
    requires UsesOwnObjects(plan) && !PlanHangs(plan, list, p)
    ensures Agrees(plan, list, Next(plan, list, p))
  {
  }

  /** The planned event takes the body to a later phase. */
  lemma NextAdvances(h: Heap, plan: Plan, list: FileList, s: State)
    requires UsesOwnObjects(plan) && Shape(s) && Before(s.phase)
    requires !s.phase.Retrieving? && !PlanHangs(plan, list, s.phase)
    ensures Rank(Step(h, s, Next(plan, list, s.phase)).phase) < Rank(s.phase)
  {
    match s.phase {
      case Starting =>
      case Listing => ListAdvances(h, s, Next(plan, list, s.phase).list);
      case RunningScripts => ScriptsAdvance(h, s, plan.scripts);
      case AwaitingCallback(_) =>
      case AwaitingTidyUp(_) => TidyUpAdvances(h, s);
      case _ => SetUpAdvances(h, plan, list, s);
    }
  }

  /** A response says what `answers` has for its request. */
  predicate Answering(answers: nat -> Outcome<string, Value>, e: Event) {
    e.Response? ==> e.outcome == answers(e.request)
  }

  /** One more settlement, after which the retrieval is over or waits for one fetch less. */
  lemma SettlementAdvances(s: State, later: State)
    requires s.phase.Retrieving? && later.phase == s.phase && later.fetching.own == s.fetching.own
    requires |later.fetching.settled| == |s.fetching.settled| + 1
    requires OncePerFetch(|later.fetching.own|, later.fetching.settled)
    ensures var s' := Advance(later);
            || Rank(s'.phase) < Rank(s.phase)
            || (s'.phase == s.phase && 0 <= Outstanding(s') < Outstanding(s))
  {
    SettlesNoMore(later.fetching);
  }

  /** The first response to a request of the render's own. */
  lemma OwnResponseAdvances(h: Heap, s: State, i: nat, outcome: Outcome<string, Value>)
    requires s.phase.Retrieving? && s.loader.Some? && Tracks(s.fetching, s.loader.value)
    requires OwnIndex(s.fetching.own, i).Some? && i !in s.loader.value.delivered
    ensures var s' := Step(h, s, Response(i, outcome));
            || Rank(s'.phase) < Rank(s.phase)
            || (s'.phase == s.phase && 0 <= Outstanding(s') < Outstanding(s))
  {
    var loader := s.loader.value;
    ResponseKeepsTracks(s.fetching, loader, i, outcome);
    var after := ResourceLoader.RespondStep(loader, i, outcome);
    var f := AfterResponse(s.fetching, loader, after, i);
    SettlementAdvances(s, s.(loader := Some(after), fetching := f));
    SettlingIsAdvance(h, s, i, outcome, 0);
  }

  /** An event that settles one of the fetches that a retrieval waits for, as `answers` has it. */
  lemma NextSettles(h: Heap, s: State, answers: nat -> Outcome<string, Value>) returns (e: Event)
    requires Inv(h, s) && s.phase.Retrieving?
    ensures Answering(answers, e) && (e.Turn? || e.Response?)
    ensures var s' := Step(h, s, e);
            || Rank(s'.phase) < Rank(s.phase)
            || (s'.phase == s.phase && 0 <= Outstanding(s') < Outstanding(s))
  {
    var loader := s.loader.value;
    var k := WaitsForOwn(s.fetching, loader);
    match s.fetching.own[k].request {
      case None =>
        e := Turn(k);
        TurnKeepsTracks(s.fetching, loader, k);
        SettlementAdvances(s, s.(fetching := AfterTurn(s.fetching, k)));
        SettlingIsAdvance(h, s, 0, Returned(""), k);
      case Some(i) =>
        e := Response(i, answers(i));
        OwnResponseAdvances(h, s, i, answers(i));
    }
  }

  /** One event that goes on, and then the rest. */
  lemma FirstThenRest(h: Heap, s: State, e: Event, rest: seq<Event>)
    ensures Run(h, s, [e] + rest) == Run(h, Step(h, s, e), rest)
  {
    assert ([e] + rest)[0] == e && ([e] + rest)[1..] == rest;
  }

  lemma FollowsCons(plan: Plan, list: FileList, e: Event, rest: seq<Event>, answers: nat -> Outcome<string, Value>)
    requires UsesOwnObjects(plan) && Agrees(plan, list, e) && Follows(plan, list, rest)
    requires Answering(answers, e) && forall x :: x in rest ==> Answering(answers, x)
    ensures Follows(plan, list, [e] + rest) && forall x :: x in [e] + rest ==> Answering(answers, x)
  {
  }

  lemma NextEvent(
    h: Heap, plan: Plan, list: FileList, s: State, answers: nat -> Outcome<string, Value>
  ) returns (e: Event)
    requires UsesOwnObjects(plan) && Inv(h, s) && Before(s.phase) && !PlanHangs(plan, list, s.phase)
    ensures Agrees(plan, list, e) && Answering(answers, e)
    ensures var s' := Step(h, s, e);
            || Rank(s'.phase) < Rank(s.phase)
            || (s'.phase == s.phase && 0 <= Outstanding(s') < Outstanding(s))
  {
    if s.phase.Retrieving? {
      e := NextSettles(h, s, answers);
    } else {
      e := Next(plan, list, s.phase);
      NextAgrees(plan, list, s.phase);
      NextAdvances(h, plan, list, s);
    }
  }

  lemma {:induction false} RunOn(
    h: Heap, plan: Plan, list: FileList, s: State, answers: nat -> Outcome<string, Value>
  ) returns (es: seq<Event>)
    requires UsesOwnObjects(plan) && Inv(h, s)
    ensures Follows(plan, list, es) && forall e :: e in es ==> Answering(answers, e)
    ensures var p := Run(h, s, es).phase; IsOver(p) || PlanHangs(plan, list, p)
    decreases Rank(s.phase), Outstanding(s)
  {
    if IsOver(s.phase) || PlanHangs(plan, list, s.phase) { return []; }
    var e := NextEvent(h, plan, list, s, answers);
    StepKeepsInv(h, s, e);
    var rest := RunOn(h, plan, list, Step(h, s, e), answers);
    es := [e] + rest;
    FirstThenRest(h, s, e, rest);
    FollowsCons(plan, list, e, rest, answers);
  }

  /** What a plan waits for in such a phase, its body waits for. */
  lemma HangingPlanHasNoEnding(h: Heap, plan: Plan, list: FileList, s: State)
    requires Inv(h, s) && Planned(h, plan, list, s) && PlanHangs(plan, list, s.phase)
    ensures Ending(PlanFor(plan, list, s.fetching)).None?
  {
    var p := PlanFor(plan, list, s.fetching);
    if !SetUp(p) { EndingIs(p); }
  }

  lemma PlannedEndIs(h: Heap, plan: Plan, list: FileList, s: State)
    requires Inv(h, s) && Planned(h, plan, list, s) && (IsOver(s.phase) || PlanHangs(plan, list, s.phase))
    ensures IsOver(s.phase) <==> Ending(PlanFor(plan, list, s.fetching)).Some?
    ensures PlanHangs(plan, list, s.phase) <==> Ending(PlanFor(plan, list, s.fetching)).None?
  {
    if PlanHangs(plan, list, s.phase) { HangingPlanHasNoEnding(h, plan, list, s); }
  }

  lemma FollowsBoth(plan: Plan, list: FileList, a: seq<Event>, b: seq<Event>)
    requires UsesOwnObjects(plan) && Follows(plan, list, a) && Follows(plan, list, b)
    ensures Follows(plan, list, a + b)
  {
  }

  /**
   * From every state that a run of the plan reaches, and whatever the requests are answered with, the
   * render can go on to its end, in finitely many steps of its own and of its own fetches; or else to a
   * promise that, by the plan, never settles, and exactly then its plan has no ending.
   */
  lemma EveryRenderEndsOrHangs(
    h: Heap, survives: bool, plan: Plan, list: FileList, before: seq<Event>, answers: nat -> Outcome<string, Value>
  ) returns (es: seq<Event>)
    requires UsesOwnObjects(plan) && Follows(plan, list, before)
    ensures Follows(plan, list, before + es) && forall e :: e in es ==> Answering(answers, e)
    ensures var s := Run(h, Initial(survives), before + es);
            var p := PlanFor(plan, list, s.fetching);
            && (IsOver(s.phase) <==> Ending(p).Some?)
            && (PlanHangs(plan, list, s.phase) <==> Ending(p).None?)
  {
    ReachableOnPlan(h, survives, plan, list, before);
    var s := Run(h, Initial(survives), before);
    es := RunOn(h, plan, list, s, answers);
    RunSplit(h, Initial(survives), before, es);
    FollowsBoth(plan, list, before, es);
    ReachableOnPlan(h, survives, plan, list, before + es);
    PlannedEndIs(h, plan, list, Run(h, Initial(survives), before + es));
  }

  /** In particular, a render ends when nothing that the plan awaits hangs. */
  lemma EveryRenderEnds(
    h: Heap, survives: bool, plan: Plan, list: FileList, before: seq<Event>, answers: nat -> Outcome<string, Value>
  ) returns (es: seq<Event>)
    requires UsesOwnObjects(plan) && Follows(plan, list, before)
    requires !list.Hangs? && !plan.afterEnv.Hangs? && forall id :: !plan.callback(id).Hangs?
    ensures Follows(plan, list, before + es) && IsOver(Run(h, Initial(survives), before + es).phase)
  {
    es := EveryRenderEndsOrHangs(h, survives, plan, list, before, answers);
  }
}
