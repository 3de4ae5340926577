/**
 * One render and everything that can still happen around it.
 *
 * The steps of `render` (src/gateway/environments/jsdom-sixteen/jsdom-sixteen-environment.js:187-356)
 * are interleaved with timers that fire, fetches that are made, by the render or by anybody else, and
 * requests that settle. The loader, the gate, the retrieval and the closing order are those of the
 * modules about them.
 */
module Lifecycle {
  import opened Common
  import opened Environment
  import opened ErrorExtraction
  import opened FileRetrieval
  import opened OwnFetches
  import ResourceLoader
  import TimerGate
  import opened UrlFilters

  /** How far the body of `render` has got; then waiting for the tidy-up task, and after it. */
  datatype Phase =
    | Starting
    | Listing
    | Retrieving
    | MakingWindow
    | PatchingTimers
    | RunningAfterEnvSetup
    | InstallingHook
    | RunningScripts
    | AwaitingCallback(id: nat)
    | AwaitingTidyUp(ending: Outcome<RenderResult, Thrown>)
    | Settled(ending: Outcome<RenderResult, Thrown>)
    | NeverSettles
    | ProcessEnded

  /**
   * `timers` are the callbacks that scripts have set through the patched functions, `fetching` the
   * render's own fetches, and `executed` the files run as scripts. `survives` says whether the process
   * goes on after an exception that nothing catches.
   */
  datatype State = State(
    survives: bool,
    phase: Phase,
    closeables: seq<Closeable>,
    loader: Option<ResourceLoader.LoaderState>,
    gate: Option<TimerGate.GateRun>,
    timers: set<nat>,
    hookInstalled: bool,
    fetching: Fetching,
    executed: seq<File>)

  datatype Event =
    | GotLoader(loader: Outcome<(), Value>)
    | GotFileList(list: Outcome<seq<ResourceLoader.Call>, Value>)
    | GotWindow(windowCloses: Outcome<Option<Value>, Value>)
    | PatchedTimers(patched: Outcome<(), Value>)
    | GotAfterEnv(tidyUp: Outcome<Closeable, Value>)
    | InstalledHook
    | RanScripts(scripts: nat -> ScriptRun)
    | CallbackSettled(id: nat, result: Outcome<CallbackResult, Value>)
    | TidyUpTask
    | Turn(fetch: nat)
    | Fetch(call: ResourceLoader.Call)
    | Response(request: nat, outcome: Outcome<string, Value>)
    | SetTimer(id: nat)
    | TimerFires(name: TimerGate.TimerName, id: nat)

  function Initial(survives: bool): State {
    State(survives, Starting, [], None, None, {}, false, NO_FETCHING, [])
  }

  const LOADER_CLOSER := Closes(Loader, None)
  const GATE_CLOSER := Closes(TimerGate, None)

  /** Whatever `afterEnvSetup` resolves to is closed on its own account. */
  function UserCloseable(c: Closeable): Closeable {
    if c.Closes? then Closes(AfterEnv, c.throws) else c
  }

  function Push(s: State, c: Closeable, next: Phase): State {
    s.(closeables := s.closeables + [c], phase := next)
  }

  function Fail(s: State, error: Thrown): State { s.(phase := AwaitingTidyUp(Threw(error))) }

  /** What awaiting the render's own fetches does, as soon as there is something to do. */
  function Advance(s: State): State {
    if !s.phase.Retrieving? then s
    else match s.fetching.all
      case Waiting(_) => s
      case Rejected(error) => Fail(s, External(error))
      case Fulfilled(_) => s.(phase := MakingWindow)
  }

  function StartRetrieval(s: State, loader: ResourceLoader.LoaderState, calls: seq<ResourceLoader.Call>): State {
    var (later, own, error) := StartFetches(loader, calls);
    if error.Some? then Fail(s.(loader := Some(later)), error.value)
    else Advance(s.(loader := Some(later), fetching := Begin(own), phase := Retrieving))
  }

  function RunScripts(s: State, scripts: nat -> ScriptRun): State {
    var files := FilesOf(s.fetching);
    var n := |files|;
    var s' := s.(executed := files[..CountRun(scripts, n)]);
    match EndingOfScripts(scripts, n)
    case Some(error) => Fail(s', error)
    case None => s'.(phase := AwaitingCallback(CallbackOf(scripts, n).value))
  }

  function TidyUp(h: Heap, s: State, ending: Outcome<RenderResult, Thrown>): State {
    var closed := Closed(h, s.closeables);
    var s' := s.(
      loader := if Loader in closed && s.loader.Some? then Some(ResourceLoader.CloseStep(s.loader.value)) else s.loader,
      gate := if TimerGate in closed && s.gate.Some?
              then Some(TimerGate.GateStep(s.gate.value, TimerGate.CloseGate)) else s.gate,
      hookInstalled := s.hookInstalled && Hook !in closed);
    if Completes(h, s.closeables) then s'.(closeables := [], phase := Settled(ending))
    else s'.(phase := if s.survives then NeverSettles else ProcessEnded)
  }

  /** The events that are steps of `render` itself. */
  predicate OfRender(e: Event) {
    !e.SetTimer? && !e.TimerFires? && !e.Fetch? && !e.Response? && !e.Turn?
  }

  function RenderStep(h: Heap, s: State, e: Event): State
    requires OfRender(e)
  {
    match e
    case GotLoader(o) =>
      if !s.phase.Starting? then s
      else if o.Threw? then Fail(s, External(o.error))
      else Push(s, LOADER_CLOSER, Listing).(loader := Some(ResourceLoader.NEW_LOADER))
    case GotFileList(o) =>
      if !s.phase.Listing? || s.loader.None? then s
      else if o.Threw? then Fail(s, External(o.error))
      else StartRetrieval(s, s.loader.value, o.value)
    case GotWindow(o) =>
      if !s.phase.MakingWindow? then s
      else if o.Threw? then Fail(s, External(o.error))
      else Push(s, Closes(Window, o.value), PatchingTimers)
    case PatchedTimers(o) =>
      if !s.phase.PatchingTimers? then s
      else if o.Threw? then Fail(s, External(o.error))
      else Push(s, GATE_CLOSER, RunningAfterEnvSetup).(gate := Some(TimerGate.FRESH_GATE))
    case GotAfterEnv(o) =>
      if !s.phase.RunningAfterEnvSetup? then s
      else if o.Threw? then Fail(s, External(o.error))
      else Push(s, UserCloseable(o.value), InstallingHook)
    case InstalledHook =>
      if !s.phase.InstallingHook? then s
      else Push(s, HOOK_CLOSER, RunningScripts).(hookInstalled := true)
    case RanScripts(scripts) =>
      if !s.phase.RunningScripts? then s else RunScripts(s, scripts)
    case CallbackSettled(id, result) =>
      if s.phase != AwaitingCallback(id) then s else s.(phase := AwaitingTidyUp(EndingOfCallback(result)))
    case TidyUpTask =>
      if !s.phase.AwaitingTidyUp? then s else TidyUp(h, s, s.phase.ending)
  }

  function OtherStep(s: State, e: Event): State
    requires !OfRender(e)
  {
    match e
    case SetTimer(id) =>
      if s.gate.None? then s else s.(timers := s.timers + {id})
    case TimerFires(name, id) =>
      if s.gate.None? || id !in s.timers then s
      else s.(gate := Some(TimerGate.GateStep(s.gate.value, TimerGate.TimerFires(name, id))))
    case Fetch(call) =>
      if s.loader.None? then s else s.(loader := Some(ResourceLoader.FetchStep(s.loader.value, call).0))
    case Response(request, outcome) =>
      if s.loader.None? then s
      else
        var after := ResourceLoader.RespondStep(s.loader.value, request, outcome);
        Advance(s.(loader := Some(after), fetching := AfterResponse(s.fetching, s.loader.value, after, request)))
    case Turn(k) =>
      Advance(s.(fetching := AfterTurn(s.fetching, k)))
  }

  /** Events that cannot happen in a state change nothing. */
  function Step(h: Heap, s: State, e: Event): State {
    if s.phase.ProcessEnded? then s
    else if OfRender(e) then RenderStep(h, s, e)
    else OtherStep(s, e)
  }

  function Run(h: Heap, s: State, es: seq<Event>): State
    decreases |es|
  {
    if es == [] then s else Run(h, Step(h, s, es[0]), es[1..])
  }

  lemma {:induction false} RunSplit(h: Heap, s: State, a: seq<Event>, b: seq<Event>)
    ensures Run(h, s, a + b) == Run(h, Run(h, s, a), b)
    decreases |a|
  {
    if a == [] {
      assert a + b == b;
    } else {
      assert (a + b)[0] == a[0] && (a + b)[1..] == a[1..] + b;
      RunSplit(h, Step(h, s, a[0]), a[1..], b);
    }
  }

  /** The last event of a run. */
  lemma RunSnoc(h: Heap, s: State, es: seq<Event>, e: Event)
    ensures Run(h, s, es + [e]) == Step(h, Run(h, s, es), e)
  {
    RunSplit(h, s, es, [e]);
    var t := Run(h, s, es);
    assert Run(h, t, [e]) == Run(h, Step(h, t, e), [e][1..]);
  }

  // ----- What every run keeps -----

  predicate Before(p: Phase) { !p.Settled? && !p.NeverSettles? && !p.ProcessEnded? }

  predicate Escaped(p: Phase) { p.NeverSettles? || p.ProcessEnded? }

  predicate BeforeRetrieval(p: Phase) { p.Starting? || p.Listing? }

  predicate HasFiles(p: Phase) {
    p.MakingWindow? || p.PatchingTimers? || p.RunningAfterEnvSetup? || p.InstallingHook? || p.RunningScripts?
    || p.AwaitingCallback?
  }

  predicate AfterScripts(p: Phase) { p.AwaitingCallback? || p.AwaitingTidyUp? || p.Settled? || Escaped(p) }

  /** What the list holds before the tidy-up: the first few of loader, window, gate, user's closeable and hook. */
  ghost predicate Shape(s: State) {
    var cs := s.closeables;
    && |cs| <= 5
    && (|cs| > 0 ==> cs[0] == LOADER_CLOSER)
    && (|cs| > 1 ==> cs[1].Closes? && cs[1].owner == Window)
    && (|cs| > 2 ==> cs[2] == GATE_CLOSER)
    && (|cs| > 3 ==> cs[3] == UserCloseable(cs[3]))
    && (|cs| > 4 ==> cs[4] == HOOK_CLOSER)
    && (s.loader.Some? <==> |cs| > 0)
    && (s.gate.Some? <==> |cs| > 2)
    && (s.hookInstalled <==> |cs| > 4)
    && match s.phase
       case Starting => |cs| == 0
       case Listing => |cs| == 1
       case Retrieving => |cs| == 1
       case MakingWindow => |cs| == 1
       case PatchingTimers => |cs| == 2
       case RunningAfterEnvSetup => |cs| == 3
       case InstallingHook => |cs| == 4
       case RunningScripts => |cs| == 5
       case AwaitingCallback(_) => |cs| == 5
       case _ => true
  }

  /** Neither fetching nor firing a timer does anything any more. */
  predicate Sealed(s: State) {
    && (s.loader.Some? ==> !s.loader.value.active)
    && (s.gate.Some? ==> !s.gate.value.gateOpen)
  }

  /** The list, and what is open and what is closed. */
  ghost predicate ListInv(h: Heap, s: State) {
    && (s.loader.Some? ==> ResourceLoader.Sound(s.loader.value))
    && (Before(s.phase) ==>
          && Shape(s)
          && (s.loader.Some? ==> s.loader.value.active)
          && (s.gate.Some? ==> s.gate.value.gateOpen))
    && (s.phase.Settled? ==> Sealed(s) && s.closeables == [] && !s.hookInstalled)
    && (Escaped(s.phase) ==>
          !Completes(h, s.closeables) && s.loader.Some? && s.loader.value.active && s.survives == s.phase.NeverSettles?)
  }

  /** The retrieval follows the loader, and scripts are run only with all files there. */
  ghost predicate FilesInv(s: State) {
    && (s.loader.Some? ==> Tracks(s.fetching, s.loader.value))
    && (s.loader.None? || BeforeRetrieval(s.phase) ==> s.fetching == NO_FETCHING)
    && (s.phase.Retrieving? ==> s.fetching.all.Waiting?)
    && (HasFiles(s.phase) ==> s.fetching.all.Fulfilled?)
    && (s.executed != [] ==> s.fetching.all.Fulfilled? && AfterScripts(s.phase))
    && s.executed <= FilesOf(s.fetching)
  }

  ghost predicate Inv(h: Heap, s: State) { ListInv(h, s) && FilesInv(s) }

  lemma CompletesShape(h: Heap, s: State)
    requires Before(s.phase) && Shape(s)
    ensures Completes(h, s.closeables) <==>
              && (|s.closeables| > 1 ==> !Escapes(h, s.closeables[1]))
              && (|s.closeables| > 3 ==> !Escapes(h, s.closeables[3]))
  {
    var cs := s.closeables;
    assert forall i :: 0 <= i < |cs| && Escapes(h, cs[i]) ==> i == 1 || i == 3;
  }

  lemma LoaderIsClosedIff(h: Heap, s: State)
    requires Before(s.phase) && Shape(s)
    ensures Loader in Closed(h, s.closeables) <==> |s.closeables| > 0 && Completes(h, s.closeables)
  {
    var cs := s.closeables;
    InClosed(h, cs, Loader);
    assert |cs| > 0 ==> OwnedBy(cs, 0, Loader);
  }

  lemma GateIsClosedIff(h: Heap, s: State)
    requires Before(s.phase) && Shape(s)
    ensures TimerGate in Closed(h, s.closeables) <==>
              |s.closeables| > 2 && !(|s.closeables| > 3 && Escapes(h, s.closeables[3]))
  {
    var cs := s.closeables;
    InClosed(h, cs, TimerGate);
    assert |cs| > 2 ==> OwnedBy(cs, 2, TimerGate);
    assert |cs| > 4 ==> !Escapes(h, cs[4]);
  }

  lemma HookIsClosedIff(h: Heap, s: State)
    requires Before(s.phase) && Shape(s)
    ensures Hook in Closed(h, s.closeables) <==> |s.closeables| > 4
  {
    var cs := s.closeables;
    InClosed(h, cs, Hook);
    assert |cs| > 4 ==> OwnedBy(cs, 4, Hook);
  }

  /** What the tidy-up task does to the loader: it is closed if and only if nothing escapes. */
  lemma TidyUpLoader(h: Heap, s: State, ending: Outcome<RenderResult, Thrown>)
    requires Before(s.phase) && Shape(s)
    ensures TidyUp(h, s, ending).loader ==
      if s.loader.Some? && Completes(h, s.closeables) then Some(ResourceLoader.CloseStep(s.loader.value)) else s.loader
  {
    LoaderIsClosedIff(h, s);
  }

  /** And to the gate: it is closed unless the user's closeable is the one that throws. */
  lemma TidyUpGate(h: Heap, s: State, ending: Outcome<RenderResult, Thrown>)
    requires Before(s.phase) && Shape(s)
    ensures TidyUp(h, s, ending).gate ==
      if s.gate.Some? && !(|s.closeables| > 3 && Escapes(h, s.closeables[3]))
      then Some(TimerGate.GateStep(s.gate.value, TimerGate.CloseGate)) else s.gate
  {
    GateIsClosedIff(h, s);
  }

  lemma TidyUpHook(h: Heap, s: State, ending: Outcome<RenderResult, Thrown>)
    requires Before(s.phase) && Shape(s)
    ensures !TidyUp(h, s, ending).hookInstalled
  {
    HookIsClosedIff(h, s);
  }

  /** What the tidy-up task leaves as it is, and where it takes the render. */
  lemma TidyUpPhase(h: Heap, s: State, ending: Outcome<RenderResult, Thrown>)
    ensures var s' := TidyUp(h, s, ending);
            && s'.fetching == s.fetching && s'.executed == s.executed
            && s'.phase == (if Completes(h, s.closeables) then Settled(ending)
                            else if s.survives then NeverSettles else ProcessEnded)
            && s'.closeables == if Completes(h, s.closeables) then [] else s.closeables
  {
  }

  /**
   * What the tidy-up task does, for every mix of closeables: the loader is closed if and only if no
   * close throws something that cannot be reported, and that is also when the render settles; the
   * gate is closed unless the user's closeable is the one that throws.
   */
  lemma TidyUpIs(h: Heap, s: State)
    requires ListInv(h, s) && s.phase.AwaitingTidyUp?
    ensures var s' := Step(h, s, TidyUpTask);
            && (Sealed(s') <==> Completes(h, s.closeables))
            && s'.loader == (if s.loader.Some? && Completes(h, s.closeables)
                             then Some(ResourceLoader.CloseStep(s.loader.value)) else s.loader)
            && (s.gate.Some? <==> s'.gate.Some?)
            && (s.gate.Some? ==>
                  && (s'.gate.value.gateOpen <==> |s.closeables| > 3 && Escapes(h, s.closeables[3]))
                  && s'.gate.value.ran == s.gate.value.ran)
            && s'.phase == (if Completes(h, s.closeables) then Settled(s.phase.ending)
                            else if s.survives then NeverSettles else ProcessEnded)
            && !s'.hookInstalled
  {
    TidyUpLoader(h, s, s.phase.ending);
    TidyUpGate(h, s, s.phase.ending);
    TidyUpHook(h, s, s.phase.ending);
    CompletesShape(h, s);
    assert Step(h, s, TidyUpTask) == TidyUp(h, s, s.phase.ending);
  }

  /** A change that leaves the retrieval alone. */
  lemma FilesKept(s: State, later: State)
    requires FilesInv(s) && later.fetching == s.fetching && later.executed == s.executed
    requires later.loader == s.loader
             || (s.loader.Some? && later.loader.Some?
                 && s.loader.value.requests <= later.loader.value.requests
                 && later.loader.value.delivered == s.loader.value.delivered)
    requires later.phase.Retrieving? ==> s.phase.Retrieving?
    requires BeforeRetrieval(later.phase) ==> BeforeRetrieval(s.phase)
    requires HasFiles(later.phase) ==> HasFiles(s.phase)
    requires AfterScripts(s.phase) ==> AfterScripts(later.phase)
    ensures FilesInv(later)
  {
    if later.loader != s.loader { OthersKeepTracks(s.fetching, s.loader.value, later.loader.value); }
  }

  lemma TidyUpKeepsList(h: Heap, s: State)
    requires ListInv(h, s) && s.phase.AwaitingTidyUp?
    ensures ListInv(h, TidyUp(h, s, s.phase.ending))
  {
    TidyUpIs(h, s);
    if s.loader.Some? { ResourceLoader.CloseIsSound(s.loader.value); }
  }

  lemma TidyUpKeepsFiles(h: Heap, s: State)
    requires FilesInv(s) && s.phase.AwaitingTidyUp? && Shape(s)
    ensures FilesInv(TidyUp(h, s, s.phase.ending))
  {
    TidyUpLoader(h, s, s.phase.ending);
    FilesKept(s, TidyUp(h, s, s.phase.ending));
  }

  lemma TidyUpKeepsInv(h: Heap, s: State)
    requires Inv(h, s) && s.phase.AwaitingTidyUp?
    ensures Inv(h, Step(h, s, TidyUpTask))
  {
    TidyUpKeepsList(h, s);
    TidyUpKeepsFiles(h, s);
    assert Step(h, s, TidyUpTask) == TidyUp(h, s, s.phase.ending);
  }

  lemma GotLoaderKeepsInv(h: Heap, s: State, e: Event)
    requires Inv(h, s) && e.GotLoader? && s.phase.Starting?
    ensures Inv(h, Step(h, s, e))
  {
    NothingTracked(ResourceLoader.NEW_LOADER);
  }

  lemma AdvanceKeepsInv(h: Heap, s: State)
    requires ListInv(h, s)
    requires FilesInv(s)
             || (s.phase.Retrieving? && s.loader.Some? && Tracks(s.fetching, s.loader.value) && s.executed == [])
    ensures Inv(h, Advance(s))
  {
    var s' := Advance(s);
    assert s'.fetching == s.fetching && s'.loader == s.loader && s'.executed == s.executed;
  }

  lemma StartRetrievalKeepsInv(h: Heap, s: State, calls: seq<ResourceLoader.Call>)
    requires Inv(h, s) && s.phase.Listing? && s.loader.Some?
    ensures Inv(h, StartRetrieval(s, s.loader.value, calls))
  {
    var loader := s.loader.value;
    StartingFetches(loader, calls);
    var (later, own, error) := StartFetches(loader, calls);
    if error.Some? {
      FilesKept(s, Fail(s.(loader := Some(later)), error.value));
    } else {
      BeginTracks(loader, calls);
      AdvanceKeepsInv(h, s.(loader := Some(later), fetching := Begin(own), phase := Retrieving));
    }
  }

  predicate IsPush(e: Event) { e.GotWindow? || e.PatchedTimers? || e.GotAfterEnv? || e.InstalledHook? }

  /** A step that pushes the next entry of the list. */
  lemma PushKeepsShape(h: Heap, s: State, later: State)
    requires ListInv(h, s) && Before(s.phase) && Shape(later) && Before(later.phase)
    requires later.loader == s.loader && (later.gate == s.gate || later.gate == Some(TimerGate.FRESH_GATE))
    ensures ListInv(h, later)
  {
  }

  lemma WindowKeepsList(h: Heap, s: State, e: Event)
    requires ListInv(h, s) && s.phase.MakingWindow? && e.GotWindow?
    ensures ListInv(h, Step(h, s, e))
  {
    PushKeepsShape(h, s, Step(h, s, e));
  }

  lemma TimersKeepList(h: Heap, s: State, e: Event)
    requires ListInv(h, s) && s.phase.PatchingTimers? && e.PatchedTimers?
    ensures ListInv(h, Step(h, s, e))
  {
    PushKeepsShape(h, s, Step(h, s, e));
  }

  lemma AfterEnvKeepsList(h: Heap, s: State, e: Event)
    requires ListInv(h, s) && s.phase.RunningAfterEnvSetup? && e.GotAfterEnv?
    ensures ListInv(h, Step(h, s, e))
  {
    PushKeepsShape(h, s, Step(h, s, e));
  }

  lemma HookKeepsList(h: Heap, s: State)
    requires ListInv(h, s) && s.phase.InstallingHook?
    ensures ListInv(h, Step(h, s, InstalledHook))
  {
    PushKeepsShape(h, s, Step(h, s, InstalledHook));
  }

  /** The steps that only push something. */
  lemma PushKeepsList(h: Heap, s: State, e: Event)
    requires ListInv(h, s) && Before(s.phase) && IsPush(e)
    ensures ListInv(h, Step(h, s, e))
  {
    match e {
      case GotWindow(_) => if s.phase.MakingWindow? { WindowKeepsList(h, s, e); }
      case PatchedTimers(_) => if s.phase.PatchingTimers? { TimersKeepList(h, s, e); }
      case GotAfterEnv(_) => if s.phase.RunningAfterEnvSetup? { AfterEnvKeepsList(h, s, e); }
      case InstalledHook => if s.phase.InstallingHook? { HookKeepsList(h, s); }
    }
  }

  lemma PushKeepsRest(h: Heap, s: State, e: Event)
    requires Before(s.phase) && IsPush(e)
    ensures var s' := Step(h, s, e);
            && s'.fetching == s.fetching && s'.loader == s.loader && s'.executed == s.executed
            && (s' == s || (HasFiles(s.phase) && !s.phase.AwaitingCallback?
                            && (HasFiles(s'.phase) || s'.phase.AwaitingTidyUp?)))
  {
  }

  lemma PushKeepsInv(h: Heap, s: State, e: Event)
    requires Inv(h, s) && IsPush(e)
    ensures Inv(h, Step(h, s, e))
  {
    if Before(s.phase) {
      PushKeepsList(h, s, e);
      PushKeepsRest(h, s, e);
      FilesKept(s, Step(h, s, e));
    }
  }

  /** A body that ends, or waits for its callback, leaves the list alone. */
  lemma ListKept(h: Heap, s: State, later: State)
    requires ListInv(h, s) && Before(s.phase)
    requires later == s.(phase := later.phase, executed := later.executed)
    requires later.phase.AwaitingTidyUp? || (later.phase.AwaitingCallback? && |s.closeables| == 5)
    ensures ListInv(h, later)
  {
  }

  lemma RanScriptsKeepsInv(h: Heap, s: State, scripts: nat -> ScriptRun)
    requires Inv(h, s) && s.phase.RunningScripts?
    ensures Inv(h, RunScripts(s, scripts))
  {
    ListKept(h, s, RunScripts(s, scripts));
  }

  lemma CallbackKeepsInv(h: Heap, s: State, ending: Outcome<RenderResult, Thrown>)
    requires Inv(h, s) && s.phase.AwaitingCallback?
    ensures Inv(h, s.(phase := AwaitingTidyUp(ending)))
  {
    ListKept(h, s, s.(phase := AwaitingTidyUp(ending)));
  }

  lemma ScriptsKeepInv(h: Heap, s: State, e: Event)
    requires Inv(h, s) && (e.RanScripts? || e.CallbackSettled?)
    ensures Inv(h, Step(h, s, e))
  {
    match e {
      case RanScripts(scripts) => if s.phase.RunningScripts? { RanScriptsKeepsInv(h, s, scripts); }
      case CallbackSettled(id, result) =>
        if s.phase == AwaitingCallback(id) { CallbackKeepsInv(h, s, EndingOfCallback(result)); }
    }
  }

  /** The loader has moved on, without being closed. */
  lemma LoaderMovesInList(h: Heap, s: State, later: State)
    requires ListInv(h, s) && s.loader.Some? && later.loader.Some?
    requires ResourceLoader.Sound(later.loader.value) && later.loader.value.active == s.loader.value.active
    requires later == s.(loader := later.loader, fetching := later.fetching)
    ensures ListInv(h, later)
  {
  }

  lemma FetchLeaves(loader: ResourceLoader.LoaderState, call: ResourceLoader.Call)
    ensures var later := ResourceLoader.FetchStep(loader, call).0;
            && later.active == loader.active && later.delivered == loader.delivered
            && loader.requests <= later.requests
  {
  }

  lemma FetchKeepsInv(h: Heap, s: State, call: ResourceLoader.Call)
    requires Inv(h, s) && s.loader.Some? && !s.phase.ProcessEnded?
    ensures Inv(h, Step(h, s, Fetch(call)))
  {
    var loader := s.loader.value;
    ResourceLoader.StepIsSound(loader, ResourceLoader.FetchUrl(call));
    FetchLeaves(loader, call);
    var later := Step(h, s, Fetch(call));
    LoaderMovesInList(h, s, later);
    FilesKept(s, later);
  }

  /** A settling that comes when the files are there or are not waited for. */
  lemma LateKeepsFiles(s: State, later: State)
    requires FilesInv(s) && !s.phase.Retrieving?
    requires later == s.(loader := later.loader, fetching := later.fetching)
    requires s.loader.Some? && later.loader.Some? && Tracks(later.fetching, later.loader.value)
    requires Extends(s.fetching, later.fetching)
    ensures FilesInv(later)
  {
    if !s.fetching.all.Waiting? { LateSettlement(s.fetching, later.fetching); }
  }

  /** What a response and a turn do, in one. */
  lemma SettlingIsAdvance(h: Heap, s: State, i: nat, outcome: Outcome<string, Value>, k: nat)
    requires !s.phase.ProcessEnded? && s.loader.Some?
    ensures var after := ResourceLoader.RespondStep(s.loader.value, i, outcome);
            Step(h, s, Response(i, outcome))
              == Advance(s.(loader := Some(after), fetching := AfterResponse(s.fetching, s.loader.value, after, i)))
    ensures Step(h, s, Turn(k)) == Advance(s.(fetching := AfterTurn(s.fetching, k)))
  {
  }

  lemma ResponseKeepsInv(h: Heap, s: State, i: nat, outcome: Outcome<string, Value>)
    requires Inv(h, s) && s.loader.Some? && !s.phase.ProcessEnded?
    ensures Inv(h, Step(h, s, Response(i, outcome)))
  {
    var loader := s.loader.value;
    ResourceLoader.StepIsSound(loader, ResourceLoader.Response(i, outcome));
    var after := ResourceLoader.RespondStep(loader, i, outcome);
    ResponseKeepsTracks(s.fetching, loader, i, outcome);
    EventsExtend(s.fetching, loader, after, i, 0);
    var later := s.(loader := Some(after), fetching := AfterResponse(s.fetching, loader, after, i));
    assert after.active == loader.active;
    LoaderMovesInList(h, s, later);
    if !s.phase.Retrieving? { LateKeepsFiles(s, later); }
    AdvanceKeepsInv(h, later);
    SettlingIsAdvance(h, s, i, outcome, 0);
  }

  lemma TurnKeepsInv(h: Heap, s: State, k: nat)
    requires Inv(h, s) && s.loader.Some? && !s.phase.ProcessEnded?
    ensures Inv(h, Step(h, s, Turn(k)))
  {
    TurnKeepsTracks(s.fetching, s.loader.value, k);
    EventsExtend(s.fetching, s.loader.value, s.loader.value, 0, k);
    var later := s.(fetching := AfterTurn(s.fetching, k));
    LoaderMovesInList(h, s, later);
    if !s.phase.Retrieving? { LateKeepsFiles(s, later); }
    AdvanceKeepsInv(h, later);
    SettlingIsAdvance(h, s, 0, Returned(""), k);
  }

  /** A change of what timers and the open gate have to do with each other. */
  lemma GateMovesInList(h: Heap, s: State, later: State)
    requires ListInv(h, s) && later == s.(timers := later.timers, gate := later.gate)
    requires s.gate.Some? <==> later.gate.Some?
    requires s.gate.Some? ==> later.gate.value.gateOpen == s.gate.value.gateOpen
    ensures ListInv(h, later)
  {
  }

  lemma TimersKeepInv(h: Heap, s: State, e: Event)
    requires Inv(h, s) && (e.SetTimer? || e.TimerFires?)
    ensures Inv(h, Step(h, s, e))
  {
    GateMovesInList(h, s, Step(h, s, e));
    FilesKept(s, Step(h, s, e));
  }

  lemma OtherKeepsInv(h: Heap, s: State, e: Event)
    requires Inv(h, s) && !OfRender(e) && !s.phase.ProcessEnded?
    ensures Inv(h, Step(h, s, e))
  {
    match e {
      case SetTimer(_) => TimersKeepInv(h, s, e);
      case TimerFires(_, _) => TimersKeepInv(h, s, e);
      case Fetch(call) => if s.loader.Some? { FetchKeepsInv(h, s, call); }
      case Response(i, outcome) => if s.loader.Some? { ResponseKeepsInv(h, s, i, outcome); }
      case Turn(k) => if s.loader.Some? { TurnKeepsInv(h, s, k); }
    }
  }

  lemma StepKeepsInv(h: Heap, s: State, e: Event)
    requires Inv(h, s)
    ensures Inv(h, Step(h, s, e))
  {
    if s.phase.ProcessEnded? { return; }
    match e {
      case GotLoader(_) => if s.phase.Starting? { GotLoaderKeepsInv(h, s, e); }
      case GotFileList(o) => if s.phase.Listing? && o.Returned? { StartRetrievalKeepsInv(h, s, o.value); }
      case GotWindow(_) => PushKeepsInv(h, s, e);
      case PatchedTimers(_) => PushKeepsInv(h, s, e);
      case GotAfterEnv(_) => PushKeepsInv(h, s, e);
      case InstalledHook => PushKeepsInv(h, s, e);
      case RanScripts(_) => ScriptsKeepInv(h, s, e);
      case CallbackSettled(_, _) => ScriptsKeepInv(h, s, e);
      case TidyUpTask => if s.phase.AwaitingTidyUp? { TidyUpKeepsInv(h, s); }
      case _ => OtherKeepsInv(h, s, e);
    }
  }

  lemma {:induction false} RunKeepsInv(h: Heap, s: State, es: seq<Event>)
    requires Inv(h, s)
    ensures Inv(h, Run(h, s, es))
    decreases |es|
  {
    if es != [] {
      StepKeepsInv(h, s, es[0]);
      RunKeepsInv(h, Step(h, s, es[0]), es[1..]);
    }
  }

  lemma ReachableInv(h: Heap, survives: bool, es: seq<Event>)
    ensures Inv(h, Run(h, Initial(survives), es))
  {
    NothingTracked(ResourceLoader.NEW_LOADER);
    RunKeepsInv(h, Initial(survives), es);
  }

  // ----- After the tidy-up -----

  /** Nothing a render left behind does anything: no script, no callback, and the loader is inert. */
  ghost predicate Quiet(s: State, later: State) {
    && later.phase == s.phase && later.executed == s.executed
    && (s.gate.Some? <==> later.gate.Some?)
    && (s.gate.Some? ==> later.gate.value.ran == s.gate.value.ran && !later.gate.value.gateOpen)
    && (s.loader.Some? <==> later.loader.Some?)
    && (s.loader.Some? ==> ResourceLoader.Inert(s.loader.value, later.loader.value))
    && !later.hookInstalled
  }

  lemma OneInertStep(s: ResourceLoader.LoaderState, e: ResourceLoader.LoaderEvent)
    requires ResourceLoader.Sound(s) && !s.active
    ensures ResourceLoader.Inert(s, ResourceLoader.LoaderStep(s, e))
  {
    ResourceLoader.ClosedLoaderIsInert(s, [e]);
    assert [e][1..] == [];
    assert ResourceLoader.LoaderRun(s, [e]) == ResourceLoader.LoaderRun(ResourceLoader.LoaderStep(s, e), []);
  }

  lemma SettledLoaderIsInert(h: Heap, s: State, e: Event)
    requires ListInv(h, s) && s.phase.Settled? && s.loader.Some?
    ensures Step(h, s, e).loader.Some? && ResourceLoader.Inert(s.loader.value, Step(h, s, e).loader.value)
  {
    match e {
      case Fetch(call) => OneInertStep(s.loader.value, ResourceLoader.FetchUrl(call));
      case Response(request, outcome) => OneInertStep(s.loader.value, ResourceLoader.Response(request, outcome));
      case _ => assert Step(h, s, e).loader == s.loader;
    }
  }

  lemma SettledRestIsQuiet(h: Heap, s: State, e: Event)
    requires ListInv(h, s) && s.phase.Settled?
    ensures var later := Step(h, s, e);
            && later.phase == s.phase && later.executed == s.executed && later.hookInstalled == s.hookInstalled
            && (s.loader.None? ==> later.loader.None?)
            && (s.gate.Some? <==> later.gate.Some?)
            && (s.gate.Some? ==> later.gate.value.ran == s.gate.value.ran && !later.gate.value.gateOpen)
  {
  }

  lemma SettledStepIsQuiet(h: Heap, s: State, e: Event)
    requires ListInv(h, s) && s.phase.Settled?
    ensures Quiet(s, Step(h, s, e))
  {
    SettledRestIsQuiet(h, s, e);
    if s.loader.Some? { SettledLoaderIsInert(h, s, e); }
  }

  lemma {:induction false} SettledIsQuiet(h: Heap, s: State, es: seq<Event>)
    requires Inv(h, s) && s.phase.Settled?
    ensures Quiet(s, Run(h, s, es))
    decreases |es|
  {
    if es != [] {
      var s' := Step(h, s, es[0]);
      StepKeepsInv(h, s, es[0]);
      SettledStepIsQuiet(h, s, es[0]);
      SettledIsQuiet(h, s', es[1..]);
    }
  }

  /**
   * Over every interleaving of the steps of a render with timers, fetches and responses: once the
   * render has settled, no script and no callback set through a patched timer runs, no fetch makes an
   * agent or a request, and every text that still comes is replaced by the empty one.
   */
  lemma SafeAfterSettling(h: Heap, survives: bool, es: seq<Event>, later: seq<Event>)
    requires Run(h, Initial(survives), es).phase.Settled?
    ensures Quiet(Run(h, Initial(survives), es), Run(h, Initial(survives), es + later))
  {
    ReachableInv(h, survives, es);
    RunSplit(h, Initial(survives), es, later);
    SettledIsQuiet(h, Run(h, Initial(survives), es), later);
  }

  /** Which renders settle: exactly those whose closeables throw nothing that cannot be reported. */
  lemma SettlesIff(h: Heap, survives: bool, es: seq<Event>)
    requires Run(h, Initial(survives), es).phase.AwaitingTidyUp?
    ensures var s := Run(h, Initial(survives), es);
            var s' := Run(h, Initial(survives), es + [TidyUpTask]);
            && (s'.phase.Settled? <==> Completes(h, s.closeables))
            && (Sealed(s') <==> s'.phase.Settled?)
            && (s'.phase.Settled? ==> s'.phase.ending == s.phase.ending)
  {
    ReachableInv(h, survives, es);
    RunSnoc(h, Initial(survives), es, TidyUpTask);
    TidyUpIs(h, Run(h, Initial(survives), es));
  }

  /** How the body ended is not changed by anything that happens while the tidy-up is pending, or later. */
  lemma {:induction false} EndingIsKept(h: Heap, s: State, es: seq<Event>, ending: Outcome<RenderResult, Thrown>)
    requires s.phase == AwaitingTidyUp(ending) || s.phase == Settled(ending) || Escaped(s.phase)
    ensures var p := Run(h, s, es).phase;
            p == AwaitingTidyUp(ending) || p == Settled(ending) || Escaped(p)
    decreases |es|
  {
    if es != [] { EndingIsKept(h, Step(h, s, es[0]), es[1..], ending); }
  }

  // ----- While a render is under way -----

  /** A fetch by anybody, of a file that the loader accepts, makes one request, as long as the loader is open. */
  lemma FetchMakesRequest(h: Heap, s: State, call: ResourceLoader.Call)
    requires Inv(h, s) && !s.phase.ProcessEnded? && s.loader.Some? && s.loader.value.active
    requires LoaderAccepts(call.url) && call.requestThrows.None?
    requires call.protocol == Returned("http:") || call.protocol == Returned("https:")
    ensures var later := Step(h, s, Fetch(call));
            && later.loader.Some? && later.phase == s.phase
            && call.protocol.value in later.loader.value.agents
            && later.loader.value.requests == s.loader.value.requests
                 + [ResourceLoader.Request(call.url, call.protocol.value,
                                           later.loader.value.agents[call.protocol.value])]
  {
    ResourceLoader.AcceptedFetchRequests(s.loader.value, call);
  }

  /** Before the tidy-up, the loader is open from the moment it is there. */
  lemma LoaderIsOpen(h: Heap, survives: bool, es: seq<Event>)
    requires Before(Run(h, Initial(survives), es).phase)
    ensures var s := Run(h, Initial(survives), es);
            && Inv(h, s)
            && (s.loader.Some? <==> |s.closeables| > 0) && (s.loader.Some? ==> s.loader.value.active)
            && (s.gate.Some? <==> |s.closeables| > 2) && (s.gate.Some? ==> s.gate.value.gateOpen)
  {
    ReachableInv(h, survives, es);
  }

  /** How the callback settles is how the body ends. */
  lemma CallbackEndsBody(h: Heap, s: State, id: nat, result: Outcome<CallbackResult, Value>)
    requires s.phase == AwaitingCallback(id)
    ensures var s' := Step(h, s, CallbackSettled(id, result));
            s' == s.(phase := s'.phase) && s'.phase ==
              match result
              case Returned(WellFormed(r)) => AwaitingTidyUp(Returned(r))
              case Returned(Malformed(json)) =>
                AwaitingTidyUp(Threw(Raised("KAInternalError", "Malformed render result: " + json)))
              case Threw(v) => AwaitingTidyUp(Threw(External(v)))
  {
    assert "KA" + INTERNAL + "Error" == "KAInternalError";
  }

  predicate EndsWith(p: Phase, r: RenderResult) { p == AwaitingTidyUp(Returned(r)) || p == Settled(Returned(r)) }

  /** Event `k` settles the callback that the render waits for with this result. */
  ghost predicate Gives(h: Heap, survives: bool, es: seq<Event>, k: int, r: RenderResult) {
    && 0 <= k < |es| && es[k].CallbackSettled? && es[k].result == Returned(WellFormed(r))
    && Run(h, Initial(survives), es[..k]).phase == AwaitingCallback(es[k].id)
  }

  lemma OnlyCallbacksGive(h: Heap, s: State, e: Event, r: RenderResult)
    requires EndsWith(Step(h, s, e).phase, r) && !EndsWith(s.phase, r)
    ensures e.CallbackSettled? && e.result == Returned(WellFormed(r)) && s.phase == AwaitingCallback(e.id)
  {
    if e.CallbackSettled? {
    } else if OfRender(e) {
    } else {
    }
  }

  /** Every result of a render is what its callback has given. */
  lemma {:induction false} ResultsComeFromCallbacks(h: Heap, survives: bool, es: seq<Event>, r: RenderResult)
    requires EndsWith(Run(h, Initial(survives), es).phase, r)
    ensures exists k :: Gives(h, survives, es, k, r)
    decreases |es|
  {
    var n := |es| - 1;
    var before, e := es[..n], es[n];
    assert before + [e] == es;
    RunSnoc(h, Initial(survives), before, e);
    if EndsWith(Run(h, Initial(survives), before).phase, r) {
      ResultsComeFromCallbacks(h, survives, before, r);
      var k :| Gives(h, survives, before, k, r);
      assert before[..k] == es[..k];
      assert Gives(h, survives, es, k, r);
    } else {
      OnlyCallbacksGive(h, Run(h, Initial(survives), before), e, r);
      assert Gives(h, survives, es, n, r);
    }
  }

  // ----- When an exception escapes from the tidy-up -----

  /** Throwing null is one way. */
  lemma ThrowingNullEscapes(h: Heap, owner: Owner)
    ensures Escapes(h, Closes(owner, Some(Null)))
  {
    ExtractableIff(h, Null);
  }

  lemma EscapingTidyUp(h: Heap, s: State)
    requires ListInv(h, s) && s.phase.AwaitingTidyUp?
    requires |s.closeables| > 3 && Escapes(h, s.closeables[3])
    ensures var s' := Step(h, s, TidyUpTask);
            && s'.phase == (if s.survives then NeverSettles else ProcessEnded)
            && s'.loader == s.loader && s'.gate == s.gate && s'.timers == s.timers
    ensures s.loader.Some? && s.loader.value.active && s.gate.Some? && s.gate.value.gateOpen
  {
    CompletesShape(h, s);
    LoaderIsClosedIff(h, s);
    GateIsClosedIff(h, s);
  }

  lemma OpenGateFires(h: Heap, s: State, name: TimerGate.TimerName, id: nat)
    requires s.phase.NeverSettles? && s.gate.Some? && s.gate.value.gateOpen && id in s.timers
    ensures var later := Step(h, s, TimerFires(name, id));
            later.gate.Some? && later.gate.value.ran == s.gate.value.ran + [id] && later.phase == s.phase
  {
  }

  lemma RunTwo(h: Heap, s: State, a: Event, b: Event)
    ensures Run(h, s, [a, b]) == Step(h, Step(h, s, a), b)
  {
    assert [a, b][1..] == [b] && [b][1..] == [];
    var s' := Step(h, s, a);
    assert Run(h, s', [b]) == Run(h, Step(h, s', b), []);
  }

  /**
   * When the user's closeable throws null, say, and the process survives the exception, everything
   * stays open: timers still run their callbacks, and fetches still make requests.
   */
  lemma EscapeLeavesRenderOpen(h: Heap, s: State, name: TimerGate.TimerName, id: nat, call: ResourceLoader.Call)
    requires Inv(h, s) && s.phase.AwaitingTidyUp? && s.survives
    requires |s.closeables| > 3 && Escapes(h, s.closeables[3])
    requires id in s.timers
    requires LoaderAccepts(call.url) && call.protocol.Returned? && ResourceLoader.Supported(call.protocol.value)
    requires call.requestThrows.None?
    ensures s.loader.Some? && s.gate.Some?
    ensures var later := Run(h, s, [TidyUpTask, TimerFires(name, id)]);
            later.gate.Some? && later.gate.value.ran == s.gate.value.ran + [id]
    ensures var later := Run(h, s, [TidyUpTask, Fetch(call)]);
            later.loader.Some? && |later.loader.value.requests| == |s.loader.value.requests| + 1
  {
    EscapingTidyUp(h, s);
    OpenGateFires(h, Step(h, s, TidyUpTask), name, id);
    RunTwo(h, s, TidyUpTask, TimerFires(name, id));
    RunTwo(h, s, TidyUpTask, Fetch(call));
    ResourceLoader.FetchThrowsIff(s.loader.value, call);
  }

  lemma {:induction false} NothingAfterEnd(h: Heap, s: State, es: seq<Event>)
    requires s.phase.ProcessEnded?
    ensures Run(h, s, es) == s
    decreases |es|
  {
    if es != [] { NothingAfterEnd(h, s, es[1..]); }
  }

  /** When it does not, the render and everything around it is gone. */
  lemma {:induction false} EscapeEndsProcess(h: Heap, s: State, later: seq<Event>)
    requires Inv(h, s) && s.phase.AwaitingTidyUp? && !s.survives && !Completes(h, s.closeables)
    ensures var ended := Step(h, s, TidyUpTask);
            ended.phase.ProcessEnded? && Run(h, ended, later) == ended
  {
    TidyUpIs(h, s);
    NothingAfterEnd(h, Step(h, s, TidyUpTask), later);
  }

  /** The body of such a render, with no files to fetch and a timer set by what runs after the set-up. */
  function EscapingBody(timer: nat): seq<Event> {
    [ GotLoader(Returned(())),
      GotFileList(Returned([])),
      GotWindow(Returned(None)),
      PatchedTimers(Returned(())),
      GotAfterEnv(Returned(Closes(AfterEnv, Some(Null)))),
      SetTimer(timer),
      InstalledHook,
      RanScripts(_ => ScriptRun([], None)) ]
  }

  lemma RunNext(h: Heap, survives: bool, es: seq<Event>, s: State, n: nat)
    requires n < |es| && s == Run(h, Initial(survives), es[..n])
    ensures Run(h, Initial(survives), es[..n + 1]) == Step(h, s, es[n])
  {
    assert es[..n + 1] == es[..n] + [es[n]];
    RunSnoc(h, Initial(survives), es[..n], es[n]);
  }

  /** The retrieval of no files is over at once. */
  lemma EmptyRetrieval(h: Heap, s: State)
    requires s.phase.Listing? && s.loader.Some? && s.closeables == [LOADER_CLOSER]
    ensures Step(h, s, GotFileList(Returned([]))) == s.(phase := MakingWindow, fetching := NO_FETCHING)
  {
  }

  lemma FilesRun(h: Heap, survives: bool, timer: nat) returns (s: State)
    ensures s == Run(h, Initial(survives), EscapingBody(timer)[..2])
    ensures s.phase.MakingWindow? && s.closeables == [LOADER_CLOSER] && s.fetching == NO_FETCHING
    ensures s.timers == {} && s.survives == survives && s.executed == []
  {
    var es := EscapingBody(timer);
    assert es[..0] == [];
    RunNext(h, survives, es, Initial(survives), 0);
    s := Step(h, Initial(survives), GotLoader(Returned(())));
    RunNext(h, survives, es, s, 1);
    EmptyRetrieval(h, s);
    s := s.(phase := MakingWindow, fetching := NO_FETCHING);
  }

  lemma SetUpRun(h: Heap, survives: bool, timer: nat) returns (s: State)
    ensures s == Run(h, Initial(survives), EscapingBody(timer)[..5])
    ensures s.phase.InstallingHook? && s.gate == Some(TimerGate.FRESH_GATE) && s.timers == {} && s.survives == survives
    ensures |s.closeables| == 4 && s.closeables[3] == Closes(AfterEnv, Some(Null)) && s.fetching == NO_FETCHING
    ensures s.executed == []
  {
    var es := EscapingBody(timer);
    s := FilesRun(h, survives, timer);
    RunNext(h, survives, es, s, 2);
    s := Step(h, s, GotWindow(Returned(None)));
    RunNext(h, survives, es, s, 3);
    s := Step(h, s, PatchedTimers(Returned(())));
    RunNext(h, survives, es, s, 4);
    s := Step(h, s, GotAfterEnv(Returned(Closes(AfterEnv, Some(Null)))));
  }

  lemma WholeSequence(es: seq<Event>)
    ensures es[..|es|] == es
  {
  }

  lemma TimerIsSet(h: Heap, s: State, timer: nat)
    requires s.phase.InstallingHook? && s.gate.Some?
    ensures Step(h, s, SetTimer(timer)) == s.(timers := s.timers + {timer})
  {
  }

  lemma HookIsInstalled(h: Heap, s: State)
    requires s.phase.InstallingHook?
    ensures Step(h, s, InstalledHook)
         == s.(closeables := s.closeables + [HOOK_CLOSER], phase := RunningScripts, hookInstalled := true)
  {
  }

  /** Without files there are no scripts, and no callback is registered. */
  lemma NoFilesNoCallback(h: Heap, s: State, scripts: nat -> ScriptRun)
    requires s.phase.RunningScripts? && s.fetching == NO_FETCHING
    ensures Step(h, s, RanScripts(scripts)) == s.(executed := [], phase := AwaitingTidyUp(Threw(NO_CALLBACK)))
  {
    assert FilesOf(s.fetching) == [];
    assert EndingOfScripts(scripts, 0) == Some(NO_CALLBACK);
  }

  lemma HookRun(h: Heap, survives: bool, timer: nat) returns (s: State)
    ensures s == Run(h, Initial(survives), EscapingBody(timer)[..7])
    ensures s.phase.RunningScripts? && s.gate == Some(TimerGate.FRESH_GATE) && s.timers == {timer}
    ensures |s.closeables| == 5 && s.closeables[3] == Closes(AfterEnv, Some(Null)) && s.fetching == NO_FETCHING
    ensures s.survives == survives
  {
    var es := EscapingBody(timer);
    s := SetUpRun(h, survives, timer);
    RunNext(h, survives, es, s, 5);
    TimerIsSet(h, s, timer);
    s := s.(timers := s.timers + {timer});
    RunNext(h, survives, es, s, 6);
    HookIsInstalled(h, s);
    s := s.(closeables := s.closeables + [HOOK_CLOSER], phase := RunningScripts, hookInstalled := true);
  }

  lemma BodyRun(h: Heap, survives: bool, timer: nat) returns (s: State)
    ensures s == Run(h, Initial(survives), EscapingBody(timer))
    ensures s.phase.AwaitingTidyUp? && s.gate == Some(TimerGate.FRESH_GATE) && timer in s.timers
    ensures |s.closeables| == 5 && s.closeables[3] == Closes(AfterEnv, Some(Null)) && s.survives == survives
  {
    var es := EscapingBody(timer);
    s := HookRun(h, survives, timer);
    RunNext(h, survives, es, s, 7);
    NoFilesNoCallback(h, s, es[7].scripts);
    s := s.(executed := [], phase := AwaitingTidyUp(Threw(NO_CALLBACK)));
    WholeSequence(es);
  }

  /** After that body, the tidy-up task ends the process, or a timer runs its callback after it. */
  lemma EscapeIsReachable(h: Heap, survives: bool, timer: nat)
    ensures var after := [TidyUpTask, TimerFires(TimerGate.SetTimeout, timer)];
            var s := Run(h, Initial(survives), EscapingBody(timer) + after);
            && s.phase == (if survives then NeverSettles else ProcessEnded)
            && (survives ==> s.gate.Some? && s.gate.value.ran == [timer])
  {
    var s := BodyRun(h, survives, timer);
    RunSplit(h, Initial(survives), EscapingBody(timer), [TidyUpTask, TimerFires(TimerGate.SetTimeout, timer)]);
    RunTwo(h, s, TidyUpTask, TimerFires(TimerGate.SetTimeout, timer));
    ThrowingNullEscapes(h, AfterEnv);
    ReachableInv(h, survives, EscapingBody(timer));
    EscapingTidyUp(h, s);
    if survives { OpenGateFires(h, Step(h, s, TidyUpTask), TimerGate.SetTimeout, timer); }
  }
}
