/**
 * src/gateway/environments/jsdom-sixteen/patch-against-dangling-timers.js: timers that stop
 * running their callbacks once a gate is closed.
 *
 * A patched timer function is a closure over a gate, a warn-once flag and the function it
 * replaced. Calling it hands a wrapped callback to the older function, so a callback that reaches
 * the native timer is wrapped once for every patch.
 */
module TimerGate {
  import opened Common

  class Gate {
    var gateOpen: bool

    constructor ()
      ensures gateOpen
    {
      gateOpen := true;
    }

    method Open()
      modifies this
      ensures gateOpen
    {
      gateOpen := true;
    }

    method Close()
      modifies this
      ensures !gateOpen
    {
      gateOpen := false;
    }
  }

  /** The flag that the functions patched by one call share. */
  class WarnOnce {
    var warned: bool

    constructor ()
      ensures !warned
    {
      warned := false;
    }
  }

  class Console {
    var warnings: seq<string>

    method Warn(message: string)
      modifies this
      ensures warnings == old(warnings) + [message]
    {
      warnings := warnings + [message];
    }
  }

  const DANGLING := "Dangling timer(s) detected"

  datatype Layer = Layer(gate: Gate, flag: WarnOnce)
  datatype Callback = User(id: nat) | Gated(layer: Layer, inner: Callback)
  datatype TimerFn = Native | Patched(layer: Layer, previous: TimerFn)
  datatype TimerName = SetTimeout | SetInterval | RequestAnimationFrame

  /** What the native timer is given when `fn` is called with `callback`. */
  function Registered(fn: TimerFn, callback: Callback): Callback {
    match fn
    case Native => callback
    case Patched(layer, previous) => Registered(previous, Gated(layer, callback))
  }

  /** The layers around a callback, outermost first. */
  function Layers(callback: Callback): seq<Layer> {
    match callback
    case User(_) => []
    case Gated(layer, inner) => [layer] + Layers(inner)
  }

  function Target(callback: Callback): nat {
    match callback
    case User(id) => id
    case Gated(_, inner) => Target(inner)
  }

  /** The patches applied to a timer function, earliest first. */
  function Patches(fn: TimerFn): seq<Layer> {
    match fn
    case Native => []
    case Patched(layer, previous) => Patches(previous) + [layer]
  }

  /** The earliest patch wraps outermost, so its gate is asked first. */
  lemma {:induction false} EarliestPatchIsOutermost(fn: TimerFn, callback: Callback)
    ensures Layers(Registered(fn, callback)) == Patches(fn) + Layers(callback)
    ensures Target(Registered(fn, callback)) == Target(callback)
    decreases fn
  {
    if fn.Patched? {
      EarliestPatchIsOutermost(fn.previous, Gated(fn.layer, callback));
      assert Patches(fn) + Layers(callback) == Patches(fn.previous) + ([fn.layer] + Layers(callback));
    }
  }

  /** For two patches: the native timer is given the later wrapper inside the earlier one. */
  lemma TwoPatchesNest(first: Layer, second: Layer, callback: Callback)
    ensures var fn := Patched(second, Patched(first, Native));
            Patches(fn) == [first, second] && Registered(fn, callback) == Gated(first, Gated(second, callback))
  {
    var once := Patched(first, Native);
    var inner := Gated(second, callback);
    assert Patches(Native) == [] && Patches(once) == [first];
    assert Patches(Patched(second, once)) == Patches(once) + [second];
    assert Registered(Native, Gated(first, inner)) == Gated(first, inner);
    assert Registered(once, inner) == Registered(Native, Gated(first, inner));
    assert Registered(Patched(second, once), callback) == Registered(once, inner);
  }

  ghost function Flags(layers: seq<Layer>): set<WarnOnce> {
    set l | l in layers :: l.flag
  }

  ghost predicate AllOpen(layers: seq<Layer>)
    reads set l | l in layers :: l.gate
  {
    forall l :: l in layers ==> l.gate.gateOpen
  }

  /** The first layer whose gate is closed; the number of layers when there is none. */
  ghost function FirstClosed(layers: seq<Layer>): (k: nat)
    reads set l | l in layers :: l.gate
    ensures k <= |layers| && (k == |layers| <==> AllOpen(layers))
    ensures k < |layers| ==> !layers[k].gate.gateOpen
    ensures forall i :: 0 <= i < k ==> layers[i].gate.gateOpen
  {
    if layers == [] || !layers[0].gate.gateOpen then 0 else 1 + FirstClosed(layers[1..])
  }

  ghost function GatesOf(callback: Callback): set<Gate> {
    match callback
    case User(_) => {}
    case Gated(layer, inner) => {layer.gate} + GatesOf(inner)
  }

  ghost function FlagsOf(callback: Callback): set<WarnOnce> {
    match callback
    case User(_) => {}
    case Gated(layer, inner) => {layer.flag} + FlagsOf(inner)
  }

  /** The flag beside the outermost closed gate. */
  ghost function Suppressor(callback: Callback): (r: Option<WarnOnce>)
    reads GatesOf(callback)
    ensures r.Some? ==> r.value in FlagsOf(callback)
  {
    match callback
    case User(_) => None
    case Gated(layer, inner) => if layer.gate.gateOpen then Suppressor(inner) else Some(layer.flag)
  }

  /** None of `flags` has changed but `suppressor`, if there is one, and its first change is reported. */
  twostate predicate OnlyWarns(flags: set<WarnOnce>, suppressor: Option<WarnOnce>, console: Console)
    requires suppressor.Some? ==> suppressor.value in flags
    reads flags, console
  {
    && (forall f :: f in flags ==> f.warned == (old(f.warned) || suppressor == Some(f)))
    && console.warnings == old(console.warnings)
         + if suppressor.Some? && !old(suppressor.value.warned) then ["Dangling timer(s) detected"] else []
  }

  /**
   * The native timer fires: the outermost wrapper decides first. `flags` is any set of flags that covers
   * the wrappers'.
   */
  method Fire(callback: Callback, ghost flags: set<WarnOnce>, console: Console) returns (ran: Option<nat>)
    requires FlagsOf(callback) <= flags
    modifies flags, console
    ensures ran == if Suppressor(callback).None? then Some(Target(callback)) else None
    ensures OnlyWarns(flags, Suppressor(callback), console)
  {
    match callback {
      case User(id) =>
        ran := Some(id);
      case Gated(layer, inner) =>
        if layer.gate.gateOpen {
          ran := Fire(inner, flags, console);
        } else {
          ran := None;
          if !layer.flag.warned {
            layer.flag.warned := true;
            console.Warn(DANGLING);
          }
        }
    }
  }

  lemma {:induction false} FlagsAreOfLayers(callback: Callback)
    ensures FlagsOf(callback) == Flags(Layers(callback))
  {
    if callback.Gated? {
      var layers := Layers(callback);
      assert layers[0] == callback.layer && layers[1..] == Layers(callback.inner);
      FlagsAreOfLayers(callback.inner);
      assert forall l :: l in layers <==> l == callback.layer || l in Layers(callback.inner);
    }
  }

  lemma {:induction false} SuppressorIsFirstClosed(callback: Callback)
    ensures var k := FirstClosed(Layers(callback));
            Suppressor(callback) == if k < |Layers(callback)| then Some(Layers(callback)[k].flag) else None
  {
    if callback.Gated? {
      var layers, inner := Layers(callback), Layers(callback.inner);
      assert layers[0] == callback.layer && layers[1..] == inner;
      if callback.layer.gate.gateOpen {
        SuppressorIsFirstClosed(callback.inner);
        assert FirstClosed(layers) == 1 + FirstClosed(inner);
        assert FirstClosed(inner) < |inner| ==> layers[1 + FirstClosed(inner)] == inner[FirstClosed(inner)];
      } else {
        assert FirstClosed(layers) == 0;
      }
    }
  }

  class TimerApi {
    var setTimeout: TimerFn
    var setInterval: TimerFn
    var requestAnimationFrame: TimerFn

    function Named(name: TimerName): TimerFn
      reads this
    {
      match name
      case SetTimeout => setTimeout
      case SetInterval => setInterval
      case RequestAnimationFrame => requestAnimationFrame
    }
  }

  /** Replaces the three timer functions by ones that share a new gate and a new flag. */
  method PatchAgainstDanglingTimers(objToPatch: TimerApi) returns (gate: Gate, ghost flag: WarnOnce)
    modifies objToPatch
    ensures fresh(gate) && fresh(flag) && gate.gateOpen && !flag.warned
    ensures forall name :: objToPatch.Named(name) == Patched(Layer(gate, flag), old(objToPatch.Named(name)))
  {
    gate := new Gate();
    var warned := new WarnOnce();
    flag := warned;
    objToPatch.setTimeout := Patched(Layer(gate, warned), objToPatch.setTimeout);
    objToPatch.setInterval := Patched(Layer(gate, warned), objToPatch.setInterval);
    objToPatch.requestAnimationFrame := Patched(Layer(gate, warned), objToPatch.requestAnimationFrame);
  }

  /**
   * A timer set through a function patched any number of times fires. `Patches(fn)` lists the
   * patches in the order they were applied.
   */
  method FireThroughPatches(fn: TimerFn, id: nat, ghost flags: set<WarnOnce>, console: Console)
      returns (ran: Option<nat>)
    requires Flags(Patches(fn)) <= flags
    modifies flags, console
    ensures ran == if AllOpen(Patches(fn)) then Some(id) else None
    ensures var k := FirstClosed(Patches(fn));
            OnlyWarns(flags, if k < |Patches(fn)| then Some(Patches(fn)[k].flag) else None, console)
  {
    EarliestPatchIsOutermost(fn, User(id));
    var callback := Registered(fn, User(id));
    assert Layers(callback) == Patches(fn);
    FlagsAreOfLayers(callback);
    SuppressorIsFirstClosed(callback);
    ran := Fire(callback, flags, console);
    SuppressorIsFirstClosed(callback);
  }

  // ----- One patch over a whole run -----

  datatype GateEvent = OpenGate | CloseGate | TimerFires(name: TimerName, id: nat)
  datatype GateRun = GateRun(gateOpen: bool, warned: bool, ran: seq<nat>, warnings: nat)

  const FRESH_GATE := GateRun(true, false, [], 0)

  function GateStep(s: GateRun, e: GateEvent): GateRun {
    match e
    case OpenGate => s.(gateOpen := true)
    case CloseGate => s.(gateOpen := false)
    case TimerFires(_, id) =>
      if s.gateOpen then s.(ran := s.ran + [id])
      else if s.warned then s
      else s.(warned := true, warnings := s.warnings + 1)
  }

  function RunGate(es: seq<GateEvent>): GateRun {
    if es == [] then FRESH_GATE else GateStep(RunGate(es[..|es| - 1]), es[|es| - 1])
  }

  /** The gate is closed just before event `i`: it was closed and not opened again. */
  ghost predicate ClosedBefore(es: seq<GateEvent>, i: int) {
    exists j :: 0 <= j < i <= |es| && es[j] == CloseGate && forall k :: j < k < i ==> es[k] != OpenGate
  }

  /** The firings among the first `n` events that find the gate open. */
  ghost function FiredWhileOpen(es: seq<GateEvent>, n: nat): seq<nat>
    requires n <= |es|
  {
    if n == 0 then []
    else FiredWhileOpen(es, n - 1) + if es[n - 1].TimerFires? && !ClosedBefore(es, n - 1) then [es[n - 1].id] else []
  }

  ghost predicate FiredWhileClosed(es: seq<GateEvent>, i: int) {
    0 <= i < |es| && es[i].TimerFires? && ClosedBefore(es, i)
  }

  ghost predicate Dangling(es: seq<GateEvent>) {
    exists i :: FiredWhileClosed(es, i)
  }

  lemma {:induction false} FiredWhileOpenPrefix(es: seq<GateEvent>, e: GateEvent, n: nat)
    requires n <= |es|
    ensures FiredWhileOpen(es + [e], n) == FiredWhileOpen(es, n)
    ensures forall i :: 0 <= i <= n ==> (ClosedBefore(es + [e], i) <==> ClosedBefore(es, i))
  {
    var longer := es + [e];
    forall i | 0 <= i <= n ensures ClosedBefore(longer, i) <==> ClosedBefore(es, i) {
      assert forall k :: 0 <= k < i ==> longer[k] == es[k];
      if ClosedBefore(longer, i) {
        var j :| 0 <= j < i <= |longer| && longer[j] == CloseGate && forall k :: j < k < i ==> longer[k] != OpenGate;
        assert es[j] == CloseGate;
      }
      if ClosedBefore(es, i) {
        var j :| 0 <= j < i <= |es| && es[j] == CloseGate && forall k :: j < k < i ==> es[k] != OpenGate;
        assert longer[j] == CloseGate;
      }
    }
    if n > 0 { FiredWhileOpenPrefix(es, e, n - 1); }
  }

  lemma ClosedBeforeSnoc(es: seq<GateEvent>, e: GateEvent)
    ensures ClosedBefore(es + [e], |es| + 1) <==> e == CloseGate || (e != OpenGate && ClosedBefore(es, |es|))
  {
    var longer := es + [e];
    FiredWhileOpenPrefix(es, e, |es|);
    if ClosedBefore(longer, |longer|) {
      var j :| 0 <= j < |longer| && longer[j] == CloseGate && forall k :: j < k < |longer| ==> longer[k] != OpenGate;
      assert j < |es| ==> longer[|es|] != OpenGate && ClosedBefore(longer, |es|);
    }
    if e == CloseGate { assert longer[|es|] == CloseGate; }
    if e != OpenGate && ClosedBefore(longer, |es|) {
      var j :| 0 <= j < |es| && longer[j] == CloseGate && forall k :: j < k < |es| ==> longer[k] != OpenGate;
      assert forall k :: j < k < |longer| ==> longer[k] != OpenGate;
    }
  }

  lemma DanglingSnoc(es: seq<GateEvent>, e: GateEvent)
    ensures Dangling(es + [e]) <==> Dangling(es) || (e.TimerFires? && ClosedBefore(es, |es|))
  {
    FiredWhileOpenPrefix(es, e, |es|);
    if i :| FiredWhileClosed(es, i) { assert FiredWhileClosed(es + [e], i); }
    if i :| FiredWhileClosed(es + [e], i) && i < |es| { assert FiredWhileClosed(es, i); }
    assert FiredWhileClosed(es + [e], |es|) <==> e.TimerFires? && ClosedBefore(es, |es|);
  }

  /**
   * For any sequence of openings, closings and firings of any of the three functions: the callbacks
   * run are exactly the firings made while the gate was open, in order, and one warning is given if
   * some firing was made while it was closed, whether or not it was opened again.
   */
  lemma {:induction false} GateRunMeaning(es: seq<GateEvent>)
    ensures RunGate(es).ran == FiredWhileOpen(es, |es|)
    ensures RunGate(es).gateOpen <==> !ClosedBefore(es, |es|)
    ensures RunGate(es).warned <==> Dangling(es)
    ensures RunGate(es).warnings == if Dangling(es) then 1 else 0
  {
    if es == [] {
    } else {
      var n := |es| - 1;
      var before, e := es[..n], es[n];
      assert before + [e] == es;
      GateRunMeaning(before);
      FiredWhileOpenPrefix(before, e, n);
      ClosedBeforeSnoc(before, e);
      DanglingSnoc(before, e);
    }
  }

  /** The objects made by patching an unpatched window, and what they have done so far. */
  class PatchedWindow {
    const api: TimerApi
    const gate: Gate
    const console: Console
    ghost const flag: WarnOnce
    var ran: seq<nat>

    ghost predicate Valid()
      reads this, api
    {
      forall name :: api.Named(name) == Patched(Layer(gate, flag), Native)
    }

    ghost function View(): GateRun
      reads this, gate, flag, console
    {
      GateRun(gate.gateOpen, flag.warned, ran, |console.warnings|)
    }

    constructor (window: TimerApi, console: Console)
      requires forall name :: window.Named(name) == Native
      requires console.warnings == []
      modifies window
      ensures Valid() && View() == FRESH_GATE && this.console == console && api == window && fresh(gate) && fresh(flag)
    {
      var gate, flag := PatchAgainstDanglingTimers(window);
      this.api := window;
      this.gate := gate;
      this.flag := flag;
      this.console := console;
      ran := [];
    }

    method Handle(e: GateEvent)
      requires Valid()
      modifies this, gate, flag, console
      ensures Valid() && View() == GateStep(old(View()), e)
    {
      match e {
        case OpenGate => gate.Open();
        case CloseGate => gate.Close();
        case TimerFires(name, id) =>
          var fn := api.Named(name);
          assert Patches(fn) == [Layer(gate, flag)];
          assert Patches(fn)[0] == Layer(gate, flag);
          var result := FireThroughPatches(fn, id, {flag}, console);
          if result.Some? { ran := ran + [result.value]; }
      }
    }
  }

  /** The three real functions, driven by any sequence of events, do what `GateRunMeaning` says. */
  method Replay(w: PatchedWindow, es: seq<GateEvent>)
    requires w.Valid() && w.View() == FRESH_GATE
    modifies w, w.gate, w.flag, w.console
    ensures w.Valid()
    ensures w.ran == FiredWhileOpen(es, |es|)
    ensures |w.console.warnings| == if Dangling(es) then 1 else 0
  {
    for i := 0 to |es|
      invariant w.Valid() && w.View() == RunGate(es[..i])
    {
      assert es[..i + 1][..i] == es[..i];
      w.Handle(es[i]);
    }
    assert es[..|es|] == es;
    GateRunMeaning(es);
  }
}
