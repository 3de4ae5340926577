/**
 * Which timer callbacks run around a render
 * (src/gateway/environments/jsdom-sixteen/patch-against-dangling-timers.js:35-50, and the tidy-up of
 * jsdom-sixteen-environment.js): those set through the patched functions, every time they fire until
 * the tidy-up task closes the gate.
 */
module RenderTimers {
  import opened Common
  import opened Environment
  import opened ErrorExtraction
  import opened Lifecycle
  import TimerGate

  function Reached(h: Heap, survives: bool, es: seq<Event>): State { Run(h, Initial(survives), es) }

  /** The timers are patched, and the process is there. */
  predicate Patched(s: State) { s.gate.Some? && !s.phase.ProcessEnded? }

  // ----- One event -----

  predicate Sets(s: State, e: Event, id: nat) { Patched(s) && e == SetTimer(id) }

  predicate Fires(s: State, e: Event) { Patched(s) && e.TimerFires? }

  /** The tidy-up task gets to the gate: not when the user's closeable, which is closed before it, escapes. */
  predicate Closes(h: Heap, s: State, e: Event) {
    && e.TidyUpTask? && s.phase.AwaitingTidyUp? && s.gate.Some?
    && !(|s.closeables| > 3 && Escapes(h, s.closeables[3]))
  }

  lemma RenderStepLeavesGate(h: Heap, s: State, e: Event)
    requires (Before(s.phase) ==> Shape(s)) && s.gate.Some? && OfRender(e) && !e.TidyUpTask?
    ensures Step(h, s, e).gate == s.gate && Step(h, s, e).timers == s.timers
  {
  }

  lemma TimerEventStep(h: Heap, s: State, e: Event)
    requires Patched(s) && (e.SetTimer? || e.TimerFires?)
    ensures var s' := Step(h, s, e);
            && s'.gate.Some? && s'.gate.value.gateOpen == s.gate.value.gateOpen
            && s'.gate.value.ran == s.gate.value.ran +
                 (if e.TimerFires? && e.id in s.timers && s.gate.value.gateOpen then [e.id] else [])
            && s'.timers == s.timers + (if e.SetTimer? then {e.id} else {})
  {
  }

  lemma TidyUpStep(h: Heap, s: State)
    requires (Before(s.phase) ==> Shape(s)) && Patched(s)
    ensures var s' := Step(h, s, TidyUpTask);
            && s'.gate.Some? && s'.gate.value.ran == s.gate.value.ran && s'.timers == s.timers
            && (s'.gate.value.gateOpen <==> s.gate.value.gateOpen && !Closes(h, s, TidyUpTask))
  {
    if s.phase.AwaitingTidyUp? { TidyUpGate(h, s, s.phase.ending); }
  }

  lemma LoaderEventStep(h: Heap, s: State, e: Event)
    requires e.Fetch? || e.Response? || e.Turn?
    ensures Step(h, s, e).gate == s.gate && Step(h, s, e).timers == s.timers
  {
  }

  /** What an event does when the timers have been patched. */
  lemma PatchedStep(h: Heap, s: State, e: Event)
    requires (Before(s.phase) ==> Shape(s)) && s.gate.Some?
    ensures var s' := Step(h, s, e);
            && s'.gate.Some?
            && (s'.gate.value.gateOpen <==> s.gate.value.gateOpen && !Closes(h, s, e))
            && s'.gate.value.ran == s.gate.value.ran +
                 (if Fires(s, e) && e.id in s.timers && s.gate.value.gateOpen then [e.id] else [])
            && s'.timers == s.timers + (if Patched(s) && e.SetTimer? then {e.id} else {})
  {
    if s.phase.ProcessEnded? {
    } else if e.SetTimer? || e.TimerFires? {
      TimerEventStep(h, s, e);
    } else if e.TidyUpTask? {
      TidyUpStep(h, s);
    } else if OfRender(e) {
      RenderStepLeavesGate(h, s, e);
    } else {
      LoaderEventStep(h, s, e);
    }
  }

  /** And before that. */
  lemma UnpatchedStep(h: Heap, s: State, e: Event)
    requires ListInv(h, s) && s.gate.None?
    ensures var s' := Step(h, s, e);
            (s'.gate.None? || s'.gate.value == TimerGate.FRESH_GATE) && s'.timers == s.timers
  {
  }

  // ----- A run -----

  ghost predicate SetAt(h: Heap, survives: bool, es: seq<Event>, j: int, id: nat) {
    0 <= j < |es| && Sets(Reached(h, survives, es[..j]), es[j], id)
  }

  /** Some event before `k` sets the timer. */
  ghost predicate SetBefore(h: Heap, survives: bool, es: seq<Event>, k: int, id: nat) {
    exists j :: j < k && SetAt(h, survives, es, j, id)
  }

  ghost predicate ClosesAt(h: Heap, survives: bool, es: seq<Event>, j: int) {
    0 <= j < |es| && Closes(h, Reached(h, survives, es[..j]), es[j])
  }

  ghost predicate ClosedBefore(h: Heap, survives: bool, es: seq<Event>, k: int) {
    exists j :: j < k && ClosesAt(h, survives, es, j)
  }

  /** Event `k` is a firing that runs its callback. */
  ghost predicate RunsAt(h: Heap, survives: bool, es: seq<Event>, k: int) {
    && 0 <= k < |es| && Fires(Reached(h, survives, es[..k]), es[k])
    && SetBefore(h, survives, es, k, es[k].id) && !ClosedBefore(h, survives, es, k)
  }

  /** The callbacks that the first `n` events run. */
  ghost function RunBy(h: Heap, survives: bool, es: seq<Event>, n: nat): seq<nat>
    requires n <= |es|
  {
    if n == 0 then []
    else RunBy(h, survives, es, n - 1) + if RunsAt(h, survives, es, n - 1) then [es[n - 1].id] else []
  }

  lemma HistorySnoc(h: Heap, survives: bool, es: seq<Event>, e: Event)
    ensures forall j, id :: j < |es| ==> (SetAt(h, survives, es + [e], j, id) <==> SetAt(h, survives, es, j, id))
    ensures forall j :: j < |es| ==> (ClosesAt(h, survives, es + [e], j) <==> ClosesAt(h, survives, es, j))
    ensures forall id :: SetAt(h, survives, es + [e], |es|, id) <==> Sets(Reached(h, survives, es), e, id)
    ensures ClosesAt(h, survives, es + [e], |es|) <==> Closes(h, Reached(h, survives, es), e)
    ensures forall k :: 0 <= k <= |es| ==> (es + [e])[..k] == es[..k]
  {
    assert forall k :: 0 <= k <= |es| ==> (es + [e])[..k] == es[..k];
    assert (es + [e])[..|es|] == es[..|es|] == es;
  }

  lemma BeforeSnoc(h: Heap, survives: bool, es: seq<Event>, e: Event, k: int)
    ensures k <= |es| ==>
              && (forall id :: SetBefore(h, survives, es + [e], k, id) <==> SetBefore(h, survives, es, k, id))
              && (ClosedBefore(h, survives, es + [e], k) <==> ClosedBefore(h, survives, es, k))
  {
    HistorySnoc(h, survives, es, e);
    if k <= |es| {
      forall id ensures SetBefore(h, survives, es + [e], k, id) <==> SetBefore(h, survives, es, k, id) {
        if j :| j < k && SetAt(h, survives, es, j, id) { assert SetAt(h, survives, es + [e], j, id); }
        if j :| j < k && SetAt(h, survives, es + [e], j, id) { assert SetAt(h, survives, es, j, id); }
      }
      if j :| j < k && ClosesAt(h, survives, es, j) { assert ClosesAt(h, survives, es + [e], j); }
      if j :| j < k && ClosesAt(h, survives, es + [e], j) { assert ClosesAt(h, survives, es, j); }
    }
  }

  lemma LastStepIs(h: Heap, survives: bool, es: seq<Event>, e: Event)
    ensures var s := Reached(h, survives, es);
            var longer, n := es + [e], |es|;
            && (forall id :: SetBefore(h, survives, longer, n + 1, id) <==>
                  SetBefore(h, survives, es, n, id) || Sets(s, e, id))
            && (ClosedBefore(h, survives, longer, n + 1) <==> ClosedBefore(h, survives, es, n) || Closes(h, s, e))
  {
    var longer, n := es + [e], |es|;
    HistorySnoc(h, survives, es, e);
    forall id
      ensures SetBefore(h, survives, longer, n + 1, id) <==>
                SetBefore(h, survives, es, n, id) || Sets(Reached(h, survives, es), e, id)
    {
      if j :| j < n && SetAt(h, survives, es, j, id) { assert SetAt(h, survives, longer, j, id); }
      assert SetAt(h, survives, longer, n, id) <==> Sets(Reached(h, survives, es), e, id);
      if j :| j < n + 1 && SetAt(h, survives, longer, j, id) && j != n { assert SetAt(h, survives, es, j, id); }
    }
    if j :| j < n && ClosesAt(h, survives, es, j) { assert ClosesAt(h, survives, longer, j); }
    if j :| j < n + 1 && ClosesAt(h, survives, longer, j) && j != n { assert ClosesAt(h, survives, es, j); }
  }

  lemma {:induction false} RunBySnoc(h: Heap, survives: bool, es: seq<Event>, e: Event, n: nat)
    requires n <= |es|
    ensures RunBy(h, survives, es + [e], n) == RunBy(h, survives, es, n)
  {
    if n > 0 {
      RunBySnoc(h, survives, es, e, n - 1);
      HistorySnoc(h, survives, es, e);
      BeforeSnoc(h, survives, es, e, n - 1);
    }
  }

  /** What the state of a run says about its history. */
  ghost predicate RemembersTimers(h: Heap, survives: bool, es: seq<Event>) {
    var s := Reached(h, survives, es);
    && (forall id :: id in s.timers <==> SetBefore(h, survives, es, |es|, id))
    && (s.gate.None? ==> s.timers == {})
  }

  ghost predicate RemembersClosing(h: Heap, survives: bool, es: seq<Event>) {
    var s := Reached(h, survives, es);
    if s.gate.Some? then s.gate.value.gateOpen <==> !ClosedBefore(h, survives, es, |es|)
    else !ClosedBefore(h, survives, es, |es|)
  }

  ghost predicate RemembersCallbacks(h: Heap, survives: bool, es: seq<Event>) {
    var s := Reached(h, survives, es);
    RunBy(h, survives, es, |es|) == if s.gate.Some? then s.gate.value.ran else []
  }

  ghost predicate Remembers(h: Heap, survives: bool, es: seq<Event>) {
    RemembersTimers(h, survives, es) && RemembersClosing(h, survives, es) && RemembersCallbacks(h, survives, es)
  }

  /** How the last event of a run changes what is remembered. */
  lemma LastEventIs(h: Heap, survives: bool, es: seq<Event>, e: Event)
    ensures var s, s' := Reached(h, survives, es), Reached(h, survives, es + [e]);
            && s'.timers == s.timers + (if Patched(s) && e.SetTimer? then {e.id} else {})
            && (s.gate.Some? ==>
                  && s'.gate.Some?
                  && (s'.gate.value.gateOpen <==> s.gate.value.gateOpen && !Closes(h, s, e))
                  && s'.gate.value.ran == s.gate.value.ran +
                       (if Fires(s, e) && e.id in s.timers && s.gate.value.gateOpen then [e.id] else []))
            && (s.gate.None? ==> s'.timers == s.timers && (s'.gate.None? || s'.gate.value == TimerGate.FRESH_GATE))
  {
    ReachableInv(h, survives, es);
    RunSnoc(h, Initial(survives), es, e);
    var s := Reached(h, survives, es);
    if s.gate.Some? { PatchedStep(h, s, e); } else { UnpatchedStep(h, s, e); }
  }

  lemma RunByLast(h: Heap, survives: bool, es: seq<Event>, e: Event)
    ensures var s, n := Reached(h, survives, es), |es|;
            RunBy(h, survives, es + [e], n + 1) == RunBy(h, survives, es, n) +
              if Fires(s, e) && SetBefore(h, survives, es, n, e.id) && !ClosedBefore(h, survives, es, n)
              then [e.id] else []
  {
    RunBySnoc(h, survives, es, e, |es|);
    HistorySnoc(h, survives, es, e);
    BeforeSnoc(h, survives, es, e, |es|);
  }

  lemma TimersSnoc(h: Heap, survives: bool, es: seq<Event>, e: Event)
    requires RemembersTimers(h, survives, es)
    ensures RemembersTimers(h, survives, es + [e])
  {
    LastEventIs(h, survives, es, e);
    LastStepIs(h, survives, es, e);
  }

  lemma ClosingSnoc(h: Heap, survives: bool, es: seq<Event>, e: Event)
    requires RemembersClosing(h, survives, es)
    ensures RemembersClosing(h, survives, es + [e])
  {
    LastEventIs(h, survives, es, e);
    LastStepIs(h, survives, es, e);
  }

  lemma CallbacksSnoc(h: Heap, survives: bool, es: seq<Event>, e: Event)
    requires Remembers(h, survives, es)
    ensures RemembersCallbacks(h, survives, es + [e])
  {
    LastEventIs(h, survives, es, e);
    RunByLast(h, survives, es, e);
  }

  lemma RemembersSnoc(h: Heap, survives: bool, es: seq<Event>, e: Event)
    requires Remembers(h, survives, es)
    ensures Remembers(h, survives, es + [e])
  {
    TimersSnoc(h, survives, es, e);
    ClosingSnoc(h, survives, es, e);
    CallbacksSnoc(h, survives, es, e);
  }

  lemma {:induction false} EveryRunRemembers(h: Heap, survives: bool, es: seq<Event>)
    ensures Remembers(h, survives, es)
    decreases |es|
  {
    if es != [] {
      var before, e := es[..|es| - 1], es[|es| - 1];
      assert before + [e] == es;
      EveryRunRemembers(h, survives, before);
      RemembersSnoc(h, survives, before, e);
    }
  }

  /**
   * Over every interleaving: the callbacks run are exactly those of the firings, in order, whose timer had
   * been set through a patched function, and that come before the tidy-up task has closed the gate, or
   * after an exception has kept that task from closing it in a process that survives.
   */
  lemma CallbacksRun(h: Heap, survives: bool, es: seq<Event>)
    ensures var s := Reached(h, survives, es);
            RunBy(h, survives, es, |es|) == if s.gate.Some? then s.gate.value.ran else []
  {
    EveryRunRemembers(h, survives, es);
  }

  /** So in every phase, a set timer that fires while the gate is open runs its callback. */
  lemma OpenGateRuns(h: Heap, survives: bool, es: seq<Event>, name: TimerGate.TimerName, id: nat)
    requires var s := Reached(h, survives, es);
             !s.phase.ProcessEnded? && s.gate.Some? && s.gate.value.gateOpen && id in s.timers
    ensures var s, later := Reached(h, survives, es), Reached(h, survives, es + [TimerFires(name, id)]);
            later.gate.Some? && later.gate.value.ran == s.gate.value.ran + [id] && later.phase == s.phase
  {
    ReachableInv(h, survives, es);
    RunSnoc(h, Initial(survives), es, TimerFires(name, id));
    PatchedStep(h, Reached(h, survives, es), TimerFires(name, id));
  }

  // ----- The warning -----

  /** Event `k` is a firing of a set timer that finds the gate closed. */
  ghost predicate DanglesAt(h: Heap, survives: bool, es: seq<Event>, k: int) {
    && 0 <= k < |es| && Fires(Reached(h, survives, es[..k]), es[k])
    && SetBefore(h, survives, es, k, es[k].id) && ClosedBefore(h, survives, es, k)
  }

  ghost predicate SomeDangle(h: Heap, survives: bool, es: seq<Event>) {
    exists k :: DanglesAt(h, survives, es, k)
  }

  ghost predicate Dangles(s: State, e: Event) {
    Fires(s, e) && s.gate.Some? && e.id in s.timers && !s.gate.value.gateOpen
  }

  lemma WarningStep(h: Heap, s: State, e: Event)
    requires (Before(s.phase) ==> Shape(s)) && s.gate.Some?
    ensures var s' := Step(h, s, e);
            && s'.gate.Some?
            && (s'.gate.value.warned <==> s.gate.value.warned || Dangles(s, e))
            && s'.gate.value.warnings == s.gate.value.warnings
                 + if Dangles(s, e) && !s.gate.value.warned then 1 else 0
  {
    if s.phase.ProcessEnded? {
    } else if e.SetTimer? || e.TimerFires? {
    } else if e.TidyUpTask? {
      if s.phase.AwaitingTidyUp? { TidyUpGate(h, s, s.phase.ending); }
    } else if OfRender(e) {
      RenderStepLeavesGate(h, s, e);
    } else {
      LoaderEventStep(h, s, e);
    }
  }

  lemma DangleSnoc(h: Heap, survives: bool, es: seq<Event>, e: Event)
    ensures SomeDangle(h, survives, es + [e]) <==> SomeDangle(h, survives, es) || Dangles(Reached(h, survives, es), e)
  {
    var n := |es|;
    EveryRunRemembers(h, survives, es);
    HistorySnoc(h, survives, es, e);
    BeforeSnoc(h, survives, es, e, n);
    assert DanglesAt(h, survives, es + [e], n) <==> Dangles(Reached(h, survives, es), e);
    forall k | 0 <= k < n ensures DanglesAt(h, survives, es + [e], k) <==> DanglesAt(h, survives, es, k) {
      BeforeSnoc(h, survives, es, e, k);
    }
    if k :| DanglesAt(h, survives, es, k) { assert DanglesAt(h, survives, es + [e], k); }
  }

  ghost predicate RemembersWarning(h: Heap, survives: bool, es: seq<Event>) {
    var s := Reached(h, survives, es);
    if s.gate.Some? then
      && (s.gate.value.warned <==> SomeDangle(h, survives, es))
      && s.gate.value.warnings == if SomeDangle(h, survives, es) then 1 else 0
    else !SomeDangle(h, survives, es)
  }

  lemma WarningOfLast(h: Heap, survives: bool, es: seq<Event>, e: Event)
    ensures var s, s' := Reached(h, survives, es), Reached(h, survives, es + [e]);
            s.gate.Some? ==>
              && s'.gate.Some?
              && (s'.gate.value.warned <==> s.gate.value.warned || Dangles(s, e))
              && s'.gate.value.warnings == s.gate.value.warnings
                   + if Dangles(s, e) && !s.gate.value.warned then 1 else 0
  {
    ReachableInv(h, survives, es);
    RunSnoc(h, Initial(survives), es, e);
    var s := Reached(h, survives, es);
    if s.gate.Some? { WarningStep(h, s, e); }
  }

  lemma WarningSnoc(h: Heap, survives: bool, es: seq<Event>, e: Event)
    requires RemembersWarning(h, survives, es)
    ensures RemembersWarning(h, survives, es + [e])
  {
    DangleSnoc(h, survives, es, e);
    LastEventIs(h, survives, es, e);
    WarningOfLast(h, survives, es, e);
  }

  /** Over every interleaving: one warning if some set timer fires after the gate was closed, and none otherwise. */
  lemma {:induction false} WarnedOnce(h: Heap, survives: bool, es: seq<Event>)
    ensures RemembersWarning(h, survives, es)
    decreases |es|
  {
    if es != [] {
      var before, e := es[..|es| - 1], es[|es| - 1];
      assert before + [e] == es;
      WarnedOnce(h, survives, before);
      WarningSnoc(h, survives, before, e);
    }
  }
}
