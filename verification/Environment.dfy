/**
 * `render` and `_closeAll` of src/gateway/environments/jsdom-sixteen/jsdom-sixteen-environment.js:
 * setting up an environment step by step, running the scripts, and closing everything again.
 */
module Environment {
  import opened Common
  import opened ErrorExtraction
  import opened FileRetrieval

  // ----- Closing everything -----

  /** Whose `close` it is. */
  datatype Owner = Loader | Window | TimerGate | AfterEnv | Hook

  /** An entry of the list: a nullish value, an object without `close`, or one whose `close` returns or throws. */
  datatype Closeable = Nothing | WithoutClose | Closes(owner: Owner, throws: Option<Value>)

  datatype CloseError = CloseError(message: string, error: SimplifiedError)

  function CloseErrorFor(e: SimplifiedError): CloseError {
    CloseError("Closeable encountered an error: " + (if e.error.Some? then e.error.value else ""), e)
  }

  /** The close throws something that cannot be reported, so the exception leaves the tidy-up task. */
  predicate Escapes(h: Heap, c: Closeable) {
    c.Closes? && c.throws.Some? && !Extractable(h, c.throws.value)
  }

  /** No close throws anything that cannot be reported. */
  predicate Completes(h: Heap, cs: seq<Closeable>) {
    forall i :: 0 <= i < |cs| ==> !Escapes(h, cs[i])
  }

  /** The owners in the list, in list order. */
  function Owners(cs: seq<Closeable>): seq<Owner> {
    if cs == [] then [] else (if cs[0].Closes? then [cs[0].owner] else []) + Owners(cs[1..])
  }

  function ReportedError(h: Heap, c: Closeable): seq<CloseError> {
    if c.Closes? && c.throws.Some? && Extractable(h, c.throws.value)
    then [CloseErrorFor(ExtractError(h, c.throws.value).simplified)] else []
  }

  function ReportedErrors(h: Heap, cs: seq<Closeable>): seq<CloseError> {
    if cs == [] then [] else ReportedError(h, cs[0]) + ReportedErrors(h, cs[1..])
  }

  /** Where the tidy-up ends: it starts at the end of the list and stops where an exception escapes. */
  function LastEscape(h: Heap, cs: seq<Closeable>): (k: nat)
    ensures k <= |cs| && (cs != [] ==> k < |cs|)
    ensures k > 0 ==> Escapes(h, cs[k])
    ensures forall j :: k < j < |cs| ==> !Escapes(h, cs[j])
  {
    if |cs| <= 1 || Escapes(h, cs[|cs| - 1]) then (if cs == [] then 0 else |cs| - 1)
    else LastEscape(h, cs[..|cs| - 1])
  }

  /** The part of the list that the tidy-up gets to. */
  function Reached(h: Heap, cs: seq<Closeable>): seq<Closeable> { cs[LastEscape(h, cs)..] }

  /** The entries of the list in the order in which the tidy-up gets to them. */
  function Order(h: Heap, cs: seq<Closeable>): seq<Closeable> { Reversed(Reached(h, cs)) }

  /** The calls of `close` that the tidy-up makes. */
  function Closed(h: Heap, cs: seq<Closeable>): seq<Owner> { Owners(Order(h, cs)) }

  /** The tidy-up gets to everything when nothing escapes; otherwise to the last escape and what is above it. */
  lemma ReachedIs(h: Heap, cs: seq<Closeable>)
    ensures Completes(h, cs) ==> Reached(h, cs) == cs
    ensures forall k: nat :: k < |cs| && Escapes(h, cs[k]) && Completes(h, cs[k + 1..]) ==> Reached(h, cs) == cs[k..]
  {
    forall k: nat | k < |cs| && Escapes(h, cs[k]) && Completes(h, cs[k + 1..]) ensures LastEscape(h, cs) == k {
      var above := cs[k + 1..];
      assert forall j :: k < j < |cs| ==> cs[j] == above[j - k - 1];
    }
  }

  lemma {:induction false} OwnersConcat(a: seq<Closeable>, b: seq<Closeable>)
    ensures Owners(a + b) == Owners(a) + Owners(b)
  {
    if a == [] {
      assert a + b == b;
    } else {
      assert (a + b)[0] == a[0] && (a + b)[1..] == a[1..] + b;
      OwnersConcat(a[1..], b);
    }
  }

  lemma {:induction false} OwnersReversed(cs: seq<Closeable>)
    ensures Owners(Reversed(cs)) == Reversed(Owners(cs))
  {
    if cs != [] {
      var first := [cs[0]];
      OwnersReversed(cs[1..]);
      OwnersConcat(Reversed(cs[1..]), first);
      OwnersConcat(first, cs[1..]);
      assert first + cs[1..] == cs;
      ReversedConcat(Owners(first), Owners(cs[1..]));
      assert first[1..] == [] && Reversed(Owners(first)) == Owners(first);
    }
  }

  ghost predicate OwnedBy(cs: seq<Closeable>, i: int, owner: Owner) {
    0 <= i < |cs| && cs[i].Closes? && cs[i].owner == owner
  }

  lemma {:induction false} InOwners(cs: seq<Closeable>, owner: Owner)
    ensures owner in Owners(cs) <==> exists i :: OwnedBy(cs, i, owner)
  {
    if cs != [] {
      InOwners(cs[1..], owner);
      if i :| OwnedBy(cs[1..], i, owner) { assert OwnedBy(cs, i + 1, owner); }
      if i :| OwnedBy(cs, i, owner) && i > 0 { assert OwnedBy(cs[1..], i - 1, owner); }
      assert OwnedBy(cs, 0, owner) <==> cs[0].Closes? && cs[0].owner == owner;
    }
  }

  lemma OwnedInTail(cs: seq<Closeable>, k: nat, owner: Owner)
    requires k <= |cs|
    ensures (exists i :: OwnedBy(cs[k..], i, owner)) <==> exists i :: OwnedBy(cs, i, owner) && i >= k
  {
    if i :| OwnedBy(cs[k..], i, owner) { assert OwnedBy(cs, k + i, owner); }
    if i :| OwnedBy(cs, i, owner) && i >= k { assert OwnedBy(cs[k..], i - k, owner); }
  }

  lemma {:induction false} ReversedCounts<T>(s: seq<T>)
    ensures multiset(Reversed(s)) == multiset(s)
  {
    if s != [] {
      ReversedCounts(s[1..]);
      assert s == [s[0]] + s[1..];
    }
  }

  lemma InReversedOwners(cs: seq<Closeable>, owner: Owner)
    ensures owner in Owners(Reversed(cs)) <==> exists i :: OwnedBy(cs, i, owner)
  {
    OwnersReversed(cs);
    ReversedCounts(Owners(cs));
    InOwners(cs, owner);
    assert owner in Reversed(Owners(cs)) <==> owner in multiset(Reversed(Owners(cs)));
  }

  /** An owner is closed exactly when it is in the list at or above the last escape. */
  lemma InClosed(h: Heap, cs: seq<Closeable>, owner: Owner)
    ensures owner in Closed(h, cs) <==> exists i :: OwnedBy(cs, i, owner) && i >= LastEscape(h, cs)
  {
    var k := LastEscape(h, cs);
    var r := cs[k..];
    InReversedOwners(r, owner);
    OwnedInTail(cs, k, owner);
  }

  /** How often an owner is in the list with something to close. */
  function Pushes(cs: seq<Closeable>, owner: Owner): nat {
    if cs == [] then 0 else (if cs[0].Closes? && cs[0].owner == owner then 1 else 0) + Pushes(cs[1..], owner)
  }

  lemma {:induction false} OwnersCount(cs: seq<Closeable>, owner: Owner)
    ensures multiset(Owners(cs))[owner] == Pushes(cs, owner)
  {
    if cs != [] { OwnersCount(cs[1..], owner); }
  }

  /** How many of the entries throw when they are closed. */
  function Throws(cs: seq<Closeable>): nat {
    if cs == [] then 0 else (if cs[0].Closes? && cs[0].throws.Some? then 1 else 0) + Throws(cs[1..])
  }

  lemma {:induction false} ErrorsConcat(h: Heap, a: seq<Closeable>, b: seq<Closeable>)
    ensures ReportedErrors(h, a + b) == ReportedErrors(h, a) + ReportedErrors(h, b)
  {
    if a == [] {
      assert a + b == b;
    } else {
      assert (a + b)[0] == a[0] && (a + b)[1..] == a[1..] + b;
      ErrorsConcat(h, a[1..], b);
    }
  }

  lemma {:induction false} OneErrorPerThrow(h: Heap, cs: seq<Closeable>)
    requires Completes(h, cs)
    ensures |ReportedErrors(h, Reversed(cs))| == Throws(cs)
  {
    if cs != [] {
      assert forall i :: 0 <= i < |cs| - 1 ==> cs[1..][i] == cs[i + 1];
      OneErrorPerThrow(h, cs[1..]);
      ErrorsConcat(h, Reversed(cs[1..]), [cs[0]]);
      assert [cs[0]][1..] == [];
      assert ReportedErrors(h, [cs[0]]) == ReportedError(h, cs[0]);
      assert !Escapes(h, cs[0]);
    }
  }

  /**
   * When nothing escapes, everything that can be closed is closed once for every time it was pushed,
   * in the reverse of the order in which it was pushed, and one error is logged for every throw.
   */
  lemma ClosesEverythingInReverse(h: Heap, cs: seq<Closeable>)
    requires Completes(h, cs)
    ensures Closed(h, cs) == Reversed(Owners(cs))
    ensures forall owner :: multiset(Closed(h, cs))[owner] == Pushes(cs, owner)
    ensures |ReportedErrors(h, Order(h, cs))| == Throws(cs)
  {
    ReachedIs(h, cs);
    OwnersReversed(cs);
    ReversedCounts(Owners(cs));
    forall owner { OwnersCount(cs, owner); }
    OneErrorPerThrow(h, cs);
  }

  // ----- The environment of one render -----

  /** What a script passes to the registration hook. */
  datatype Registration = Function(id: nat) | NotFunction

  datatype HookState = Absent | Installed(registered: Option<Registration>)

  /** A script calls the hook any number of times, and may end by throwing. */
  datatype ScriptRun = ScriptRun(registers: seq<Registration>, throws: Option<Value>)

  datatype RenderResult = RenderResult(body: string, status: int, headers: map<string, string>)

  /** What a callback resolves to: something with a body, a status and headers, or something else. */
  datatype CallbackResult = WellFormed(result: RenderResult) | Malformed(json: string)

  /** How everything that `render` calls behaves. */
  datatype Plan = Plan(
    loader: Outcome<Closeable, Value>,
    files: Awaited<seq<File>, Thrown>,
    window: Outcome<Closeable, Value>,
    context: Outcome<(), Value>,
    gate: Outcome<Closeable, Value>,
    afterEnv: Awaited<Closeable, Value>,
    scripts: nat -> ScriptRun,
    callback: nat -> Awaited<CallbackResult, Value>)

  const INTERNAL := "Internal"
  const NO_CALLBACK := KAError(INTERNAL, "No render callback was registered.")

  function MalformedResult(json: string): Thrown { KAError(INTERNAL, "Malformed render result: " + json) }

  const HOOK_CLOSER := Closes(Hook, None)

  /** One step of the set-up: what it adds to the list, or what it throws, or waiting for ever. */
  datatype SetupStep = Passes(pushes: seq<Closeable>) | Fails(error: Thrown) | Waits

  function Acquire(o: Outcome<Closeable, Value>): SetupStep {
    match o
    case Returned(c) => Passes([c])
    case Threw(v) => Fails(External(v))
  }

  function AwaitFiles(files: Awaited<seq<File>, Thrown>): SetupStep {
    match files
    case Resolves(_) => Passes([])
    case Rejects(error) => Fails(error)
    case Hangs => Waits
  }

  function AwaitCloseable(closeable: Awaited<Closeable, Value>): SetupStep {
    match closeable
    case Resolves(c) => Passes([c])
    case Rejects(v) => Fails(External(v))
    case Hangs => Waits
  }

  function SetupSteps(plan: Plan): seq<SetupStep> {
    [ Acquire(plan.loader),
      AwaitFiles(plan.files),
      Acquire(plan.window),
      if plan.context.Threw? then Fails(External(plan.context.error)) else Passes([]),
      Acquire(plan.gate),
      AwaitCloseable(plan.afterEnv),
      Passes([HOOK_CLOSER]) ]
  }

  /** The first step that does not pass. */
  function FirstStop(steps: seq<SetupStep>): (k: nat)
    ensures k <= |steps| && (k < |steps| ==> !steps[k].Passes?) && forall i :: 0 <= i < k ==> steps[i].Passes?
  {
    if steps == [] || !steps[0].Passes? then 0 else 1 + FirstStop(steps[1..])
  }

  function PushedBy(steps: seq<SetupStep>): seq<Closeable> {
    if steps == [] then []
    else
      var last := steps[|steps| - 1];
      PushedBy(steps[..|steps| - 1]) + if last.Passes? then last.pushes else []
  }

  /**
   * What has been acquired when the set-up ends or stops: whatever was pushed before the first step that
   * does not pass.
   */
  function Acquired(plan: Plan): seq<Closeable> {
    PushedBy(SetupSteps(plan)[..FirstStop(SetupSteps(plan))])
  }

  /** Every step of the set-up passes. */
  predicate SetUp(plan: Plan) {
    && plan.loader.Returned? && plan.files.Resolves? && plan.window.Returned?
    && plan.context.Returned? && plan.gate.Returned? && plan.afterEnv.Resolves?
  }

  /** The first of `n` scripts that throws. */
  function FirstThrow(scripts: nat -> ScriptRun, n: nat): (k: nat)
    ensures k <= n && (k < n ==> scripts(k).throws.Some?) && forall i: nat :: i < k ==> scripts(i).throws.None?
  {
    if n == 0 then 0
    else
      var k := FirstThrow(scripts, n - 1);
      if k < n - 1 || scripts(n - 1).throws.Some? then k else n
  }

  /** Everything that the first `n` scripts register, in order. */
  function AllRegistered(scripts: nat -> ScriptRun, n: nat): seq<Registration> {
    if n == 0 then [] else AllRegistered(scripts, n - 1) + scripts(n - 1).registers
  }

  function LastOf(rs: seq<Registration>): Option<Registration> {
    if rs == [] then None else Some(rs[|rs| - 1])
  }

  function Urls(files: seq<File>): seq<string> {
    seq(|files|, i requires 0 <= i < |files| => files[i].url)
  }

  /** Of `n` scripts, those that run: none after one that throws. */
  function CountRun(scripts: nat -> ScriptRun, n: nat): (k: nat)
    ensures k <= n
  {
    var t := FirstThrow(scripts, n);
    if t < n then t + 1 else n
  }

  /** The callback that `n` scripts leave, when none throws and the last value registered is a function. */
  function CallbackOf(scripts: nat -> ScriptRun, n: nat): Option<nat> {
    if FirstThrow(scripts, n) < n then None
    else match LastOf(AllRegistered(scripts, n))
      case Some(Function(id)) => Some(id)
      case _ => None
  }

  /** The scripts that run: none without a complete set-up. */
  function ScriptsRun(plan: Plan): seq<string> {
    if !SetUp(plan) then [] else Urls(plan.files.value)[..CountRun(plan.scripts, |plan.files.value|)]
  }

  function Callback(plan: Plan): Option<nat> {
    if !SetUp(plan) then None else CallbackOf(plan.scripts, |plan.files.value|)
  }

  /** How running `n` scripts ends the body, if it does: when it does not, their callback is called. */
  function EndingOfScripts(scripts: nat -> ScriptRun, n: nat): Option<Thrown> {
    var t := FirstThrow(scripts, n);
    if t < n then Some(External(scripts(t).throws.value))
    else if CallbackOf(scripts, n).None? then Some(NO_CALLBACK)
    else None
  }

  /** The check of what a callback resolves to. */
  function EndingOfCallback(outcome: Outcome<CallbackResult, Value>): Outcome<RenderResult, Thrown> {
    match outcome
    case Threw(v) => Threw(External(v))
    case Returned(Malformed(json)) => Threw(MalformedResult(json))
    case Returned(WellFormed(result)) => Returned(result)
  }

  lemma StopsIff(plan: Plan)
    ensures SetUp(plan) <==> FirstStop(SetupSteps(plan)) == |SetupSteps(plan)|
  {
    var steps := SetupSteps(plan);
    assert |steps| == 7 && steps[6].Passes?;
    if FirstStop(steps) == 7 {
      assert steps[0].Passes? && steps[1].Passes? && steps[2].Passes?;
      assert steps[3].Passes? && steps[4].Passes? && steps[5].Passes?;
    }
  }

  /** How the body of `render` ends; `None` when it waits for ever. */
  function Ending(plan: Plan): Option<Outcome<RenderResult, Thrown>> {
    if !SetUp(plan) then
      StopsIff(plan);
      match SetupSteps(plan)[FirstStop(SetupSteps(plan))]
      case Fails(error) => Some(Threw(error))
      case _ => None
    else
      var n := |plan.files.value|;
      match EndingOfScripts(plan.scripts, n)
      case Some(error) => Some(Threw(error))
      case None =>
        match plan.callback(CallbackOf(plan.scripts, n).value)
        case Resolves(result) => Some(EndingOfCallback(Returned(result)))
        case Rejects(v) => Some(EndingOfCallback(Threw(v)))
        case Hangs => None
  }

  lemma PushedByStep(steps: seq<SetupStep>)
    requires |steps| == 7
    ensures PushedBy(steps[..0]) == []
    ensures forall i :: 0 <= i < 7 && steps[i].Passes? ==>
        PushedBy(steps[..i + 1]) == PushedBy(steps[..i]) + steps[i].pushes
  {
    assert forall i :: 0 <= i < 7 ==> steps[..i + 1][..i] == steps[..i];
  }

  lemma FirstStopAt(steps: seq<SetupStep>, k: nat)
    requires k < |steps| && !steps[k].Passes? && forall i :: 0 <= i < k ==> steps[i].Passes?
    ensures FirstStop(steps) == k
  {
  }

  /** The number of the step at which a set-up stops. */
  lemma SetupStop(plan: Plan) returns (k: nat)
    requires !SetUp(plan)
    ensures k == FirstStop(SetupSteps(plan)) < 6
    ensures k == if plan.loader.Threw? then 0 else if !plan.files.Resolves? then 1 else if plan.window.Threw? then 2
                 else if plan.context.Threw? then 3 else if plan.gate.Threw? then 4 else 5
  {
    k := if plan.loader.Threw? then 0 else if !plan.files.Resolves? then 1 else if plan.window.Threw? then 2
         else if plan.context.Threw? then 3 else if plan.gate.Threw? then 4 else 5;
    FirstStopAt(SetupSteps(plan), k);
  }

  predicate PassesUpTo(plan: Plan, k: nat) {
    && (k >= 1 ==> plan.loader.Returned?) && (k >= 2 ==> plan.files.Resolves?) && (k >= 3 ==> plan.window.Returned?)
    && (k >= 4 ==> plan.context.Returned?) && (k >= 5 ==> plan.gate.Returned?) && (k >= 6 ==> plan.afterEnv.Resolves?)
  }

  lemma PushedUpTo(plan: Plan, k: nat)
    requires k <= 7 && PassesUpTo(plan, k)
    ensures PushedBy(SetupSteps(plan)[..k]) ==
      if k < 1 then [] else if k < 3 then [plan.loader.value]
      else if k < 5 then [plan.loader.value, plan.window.value]
      else if k < 6 then [plan.loader.value, plan.window.value, plan.gate.value]
      else if k < 7 then [plan.loader.value, plan.window.value, plan.gate.value, plan.afterEnv.value]
      else [plan.loader.value, plan.window.value, plan.gate.value, plan.afterEnv.value, HOOK_CLOSER]
  {
    var steps := SetupSteps(plan);
    PushedByStep(steps);
    if k > 0 {
      PushedUpTo(plan, k - 1);
      assert steps[k - 1].Passes?;
    }
  }

  /** What is acquired, from the first step that does not pass downwards. */
  lemma AcquiredIs(plan: Plan)
    ensures Acquired(plan) ==
      if plan.loader.Threw? then []
      else if !plan.files.Resolves? || plan.window.Threw? then [plan.loader.value]
      else if plan.context.Threw? || plan.gate.Threw? then [plan.loader.value, plan.window.value]
      else if !plan.afterEnv.Resolves? then [plan.loader.value, plan.window.value, plan.gate.value]
      else [plan.loader.value, plan.window.value, plan.gate.value, plan.afterEnv.value, HOOK_CLOSER]
  {
    var steps := SetupSteps(plan);
    StopsIff(plan);
    if !SetUp(plan) {
      var k := SetupStop(plan);
    }
    PushedUpTo(plan, FirstStop(steps));
  }

  /** A set-up that stops ends with the first failure, or waits at the first promise that never settles. */
  lemma EndingIs(plan: Plan)
    requires !SetUp(plan)
    ensures Ending(plan) ==
      if plan.loader.Threw? then Some(Threw(External(plan.loader.error)))
      else if plan.files.Rejects? then Some(Threw(plan.files.error))
      else if plan.files.Hangs? then None
      else if plan.window.Threw? then Some(Threw(External(plan.window.error)))
      else if plan.context.Threw? then Some(Threw(External(plan.context.error)))
      else if plan.gate.Threw? then Some(Threw(External(plan.gate.error)))
      else if plan.afterEnv.Rejects? then Some(Threw(External(plan.afterEnv.error)))
      else None
  {
    var k := SetupStop(plan);
    var stop := SetupSteps(plan)[k];
    assert Ending(plan) == if stop.Fails? then Some(Threw(stop.error)) else None;
  }

  /** What closing changes. */
  datatype Tidy = Tidy(calls: seq<Owner>, errors: seq<CloseError>, hook: HookState)

  function CloseOne(h: Heap, t: Tidy, c: Closeable): Tidy {
    if !c.Closes? then t
    else t.(calls := t.calls + [c.owner],
            errors := t.errors + ReportedError(h, c),
            hook := if c.owner == Hook then Absent else t.hook)
  }

  /** The closing loop. */
  function CloseFromEnd(h: Heap, t: Tidy, cs: seq<Closeable>): Tidy
    decreases |cs|
  {
    if cs == [] then t
    else
      var last := cs[|cs| - 1];
      var t' := CloseOne(h, t, last);
      if Escapes(h, last) then t' else CloseFromEnd(h, t', cs[..|cs| - 1])
  }

  lemma ReachedSnoc(h: Heap, cs: seq<Closeable>, c: Closeable)
    ensures Reached(h, cs + [c]) == if Escapes(h, c) then [c] else Reached(h, cs) + [c]
  {
    var longer := cs + [c];
    assert longer[..|cs|] == cs;
    assert longer[|cs|..] == [c];
    assert cs == [] ==> Reached(h, cs) + [c] == [c];
  }

  lemma OrderSnoc(h: Heap, cs: seq<Closeable>, c: Closeable)
    ensures Order(h, cs + [c]) == [c] + if Escapes(h, c) then [] else Order(h, cs)
  {
    ReachedSnoc(h, cs, c);
    ReversedConcat(Reached(h, cs), [c]);
    assert Reversed([c]) == [c];
  }

  lemma ClosedSnoc(h: Heap, cs: seq<Closeable>, c: Closeable)
    ensures Closed(h, cs + [c]) == (if c.Closes? then [c.owner] else []) + if Escapes(h, c) then [] else Closed(h, cs)
    ensures ReportedErrors(h, Order(h, cs + [c]))
         == ReportedError(h, c) + if Escapes(h, c) then [] else ReportedErrors(h, Order(h, cs))
  {
    OrderSnoc(h, cs, c);
    var order, rest := Order(h, cs + [c]), if Escapes(h, c) then [] else Order(h, cs);
    assert order[0] == c && order[1..] == rest;
    assert Owners(order) == (if c.Closes? then [c.owner] else []) + Owners(rest);
    assert ReportedErrors(h, order) == ReportedError(h, c) + ReportedErrors(h, rest);
  }

  /** What some calls of `close` and some errors make of `t`. */
  function After(t: Tidy, calls: seq<Owner>, errors: seq<CloseError>): Tidy {
    Tidy(t.calls + calls, t.errors + errors, if Hook in calls then Absent else t.hook)
  }

  lemma CloseOneThen(h: Heap, t: Tidy, c: Closeable, calls: seq<Owner>, errors: seq<CloseError>)
    ensures After(CloseOne(h, t, c), calls, errors)
         == After(t, (if c.Closes? then [c.owner] else []) + calls, ReportedError(h, c) + errors)
  {
    var now := if c.Closes? then [c.owner] else [];
    assert (t.calls + now) + calls == t.calls + (now + calls);
    assert (t.errors + ReportedError(h, c)) + errors == t.errors + (ReportedError(h, c) + errors);
  }

  lemma NothingAfter(t: Tidy)
    ensures After(t, [], []) == t
  {
  }

  /** One more entry at the end of the list. */
  lemma AfterSnoc(h: Heap, t: Tidy, cs: seq<Closeable>, c: Closeable)
    ensures After(t, Closed(h, cs + [c]), ReportedErrors(h, Order(h, cs + [c])))
         == if Escapes(h, c) then CloseOne(h, t, c)
            else After(CloseOne(h, t, c), Closed(h, cs), ReportedErrors(h, Order(h, cs)))
  {
    ClosedSnoc(h, cs, c);
    if Escapes(h, c) {
      CloseOneThen(h, t, c, [], []);
      NothingAfter(CloseOne(h, t, c));
    } else {
      CloseOneThen(h, t, c, Closed(h, cs), ReportedErrors(h, Order(h, cs)));
    }
  }

  lemma {:induction false} CloseFromEndMeaning(h: Heap, t: Tidy, cs: seq<Closeable>)
    ensures CloseFromEnd(h, t, cs) == After(t, Closed(h, cs), ReportedErrors(h, Order(h, cs)))
    decreases |cs|
  {
    if cs == [] {
      NothingAfter(t);
    } else {
      var before, c := cs[..|cs| - 1], cs[|cs| - 1];
      assert before + [c] == cs;
      AfterSnoc(h, t, before, c);
      if !Escapes(h, c) { CloseFromEndMeaning(h, CloseOne(h, t, c), before); }
    }
  }

  /** The hook is acquired last, so it is closed first, and nothing can keep it from being closed. */
  lemma HookIsClosed(h: Heap, plan: Plan)
    requires SetUp(plan)
    ensures Hook in Closed(h, Acquired(plan))
  {
    AcquiredIs(plan);
    var others := [plan.loader.value, plan.window.value, plan.gate.value, plan.afterEnv.value];
    assert Acquired(plan) == others + [HOOK_CLOSER];
    OrderSnoc(h, others, HOOK_CLOSER);
    assert Order(h, Acquired(plan))[0] == HOOK_CLOSER;
  }

  /** What the tidy-up of a render leaves behind. */
  lemma TidyingUp(h: Heap, plan: Plan, hook: HookState)
    requires hook == Absent || SetUp(plan)
    ensures CloseFromEnd(h, Tidy([], [], hook), Acquired(plan))
         == Tidy(Closed(h, Acquired(plan)), ReportedErrors(h, Order(h, Acquired(plan))), Absent)
  {
    if SetUp(plan) { HookIsClosed(h, plan); }
    CloseFromEndMeaning(h, Tidy([], [], hook), Acquired(plan));
  }

  /** What the promise that `render` returns settles to, if it does. */
  function SettlingOf(h: Heap, plan: Plan): Option<Outcome<RenderResult, Thrown>> {
    if Completes(h, Acquired(plan)) then Ending(plan) else None
  }

  class RenderRun {
    var closeables: seq<Closeable>
    var calls: seq<Owner>
    var errors: seq<CloseError>
    var hook: HookState
    var scriptsRun: seq<string>
    var invoked: seq<nat>

    constructor ()
      ensures closeables == [] && calls == [] && errors == [] && hook == Absent && scriptsRun == [] && invoked == []
    {
      closeables := [];
      calls := [];
      errors := [];
      hook := Absent;
      scriptsRun := [];
      invoked := [];
    }

    function Tidied(): Tidy
      reads this
    {
      Tidy(calls, errors, hook)
    }

    /** `resolved` is false when an exception leaves the timer task, so that the promise stays pending. */
    method CloseAll(h: Heap) returns (resolved: bool)
      modifies this`closeables, this`calls, this`errors, this`hook
      ensures resolved <==> Completes(h, old(closeables))
      ensures closeables == if resolved then [] else old(closeables)
      ensures Tidied() == CloseFromEnd(h, old(Tidied()), old(closeables))
    {
      ghost var start := Tidied();
      var i := |closeables|;
      assert closeables[..i] == closeables;
      while i > 0
        invariant 0 <= i <= |closeables| && closeables == old(closeables)
        invariant CloseFromEnd(h, Tidied(), closeables[..i]) == CloseFromEnd(h, start, closeables)
        invariant forall j :: i <= j < |closeables| ==> !Escapes(h, closeables[j])
      {
        i := i - 1;
        var c := closeables[i];
        ghost var before := Tidied();
        assert closeables[..i + 1][..i] == closeables[..i] && closeables[..i + 1][i] == c;
        if c.Closes? {
          calls := calls + [c.owner];
          if c.owner == Hook { hook := Absent; }
          if c.throws.Some? {
            match ExtractError(h, c.throws.value) {
              case Extracted(simplified) => errors := errors + [CloseErrorFor(simplified)];
              case Failed(_) => assert Tidied() == CloseOne(h, before, c); return false;
            }
          }
        }
        assert Tidied() == CloseOne(h, before, c);
      }
      closeables := [];
      return true;
    }

    method RunScript(url: string, script: ScriptRun) returns (threw: Option<Value>)
      requires hook.Installed?
      modifies this`hook, this`scriptsRun
      ensures scriptsRun == old(scriptsRun) + [url]
      ensures hook == if script.registers == [] then old(hook) else Installed(LastOf(script.registers))
      ensures threw == script.throws
    {
      scriptsRun := scriptsRun + [url];
      for i := 0 to |script.registers|
        invariant scriptsRun == old(scriptsRun) + [url]
        invariant hook == if i == 0 then old(hook) else Installed(Some(script.registers[i - 1]))
      {
        hook := Installed(Some(script.registers[i]));
      }
      threw := script.throws;
    }

    /** The set-up, up to and including the registration hook. */
    method Prepare(plan: Plan) returns (r: SetupStep)
      requires closeables == []
      modifies this`closeables, this`hook
      ensures closeables == Acquired(plan)
      ensures r.Passes? <==> SetUp(plan)
      ensures r.Fails? ==> Ending(plan) == Some(Threw(r.error))
      ensures r.Waits? ==> Ending(plan) == None
      ensures hook == if r.Passes? then Installed(None) else old(hook)
    {
      AcquiredIs(plan);
      if !SetUp(plan) { EndingIs(plan); }
      if plan.loader.Threw? { return Fails(External(plan.loader.error)); }
      closeables := closeables + [plan.loader.value];
      if !plan.files.Resolves? { return AwaitFiles(plan.files); }
      if plan.window.Threw? { return Fails(External(plan.window.error)); }
      closeables := closeables + [plan.window.value];
      if plan.context.Threw? { return Fails(External(plan.context.error)); }
      if plan.gate.Threw? { return Fails(External(plan.gate.error)); }
      closeables := closeables + [plan.gate.value];
      if !plan.afterEnv.Resolves? { return AwaitCloseable(plan.afterEnv); }
      closeables := closeables + [plan.afterEnv.value];
      hook := Installed(None);
      closeables := closeables + [HOOK_CLOSER];
      return Passes([]);
    }

    /** The scripts, in order, up to the first that throws. */
    method RunScripts(files: seq<File>, scripts: nat -> ScriptRun) returns (threw: Option<Value>)
      requires hook == Installed(None) && scriptsRun == []
      modifies this`hook, this`scriptsRun
      ensures var t := FirstThrow(scripts, |files|);
              threw == if t < |files| then scripts(t).throws else None
      ensures hook.Installed? && (threw.None? ==> hook == Installed(LastOf(AllRegistered(scripts, |files|))))
      ensures scriptsRun == Urls(files)[..CountRun(scripts, |files|)]
    {
      for i := 0 to |files|
        invariant scriptsRun == Urls(files)[..i]
        invariant hook == Installed(LastOf(AllRegistered(scripts, i)))
        invariant FirstThrow(scripts, |files|) >= i
      {
        threw := RunScript(files[i].url, scripts(i));
        if threw.Some? {
          assert FirstThrow(scripts, |files|) == i;
          return threw;
        }
      }
      return None;
    }

    /** The scripts, the check for a callback, the callback and the check of its result. */
    method Perform(plan: Plan) returns (r: Option<Outcome<RenderResult, Thrown>>)
      requires SetUp(plan) && hook == Installed(None) && scriptsRun == [] && invoked == []
      modifies this`hook, this`scriptsRun, this`invoked
      ensures r == Ending(plan) && scriptsRun == ScriptsRun(plan)
      ensures invoked == if Callback(plan).Some? then [Callback(plan).value] else []
      ensures hook.Installed?
    {
      var threw := RunScripts(plan.files.value, plan.scripts);
      if threw.Some? { return Some(Threw(External(threw.value))); }
      match hook.registered {
        case Some(Function(id)) =>
          invoked := invoked + [id];
          match plan.callback(id) {
            case Hangs => return None;
            case Rejects(v) => return Some(Threw(External(v)));
            case Resolves(Malformed(json)) => return Some(Threw(MalformedResult(json)));
            case Resolves(WellFormed(result)) => return Some(Returned(result));
          }
        case _ => return Some(Threw(NO_CALLBACK));
      }
    }

    /** `None` when the promise that `render` returned never settles. */
    method Render(plan: Plan, h: Heap) returns (settled: Option<Outcome<RenderResult, Thrown>>)
      requires closeables == [] && calls == [] && errors == [] && hook == Absent && scriptsRun == [] && invoked == []
      modifies this
      ensures settled == SettlingOf(h, plan)
      ensures calls == if Ending(plan).Some? then Closed(h, Acquired(plan)) else []
      ensures errors == if Ending(plan).Some? then ReportedErrors(h, Order(h, Acquired(plan))) else []
      ensures closeables == if settled.Some? then [] else Acquired(plan)
      ensures hook.Absent? <==> Ending(plan).Some? || !SetUp(plan)
      ensures scriptsRun == ScriptsRun(plan)
      ensures invoked == if Callback(plan).Some? then [Callback(plan).value] else []
    {
      var ending: Option<Outcome<RenderResult, Thrown>>;
      var prepared := Prepare(plan);
      match prepared {
        case Fails(error) => ending := Some(Threw(error));
        case Waits => ending := None;
        case Passes(_) => ending := Perform(plan);
      }
      if ending.None? { return None; }
      TidyingUp(h, plan, hook);
      var resolved := CloseAll(h);
      settled := if resolved then ending else None;
    }
  }

  // ----- What follows for a render -----

  /** The files that a retrieval gives to the render. */
  function FilesFrom(r: Retrieval): Awaited<seq<File>, Thrown> {
    match r
    case Files(files, _) => Resolves(files)
    case NoFiles(error) => Rejects(error)
    case Unsettled => Hangs
  }

  /**
   * From the order in which fetches settle to the scripts: they run in list order, and only when every
   * fetch has delivered; any fetch that fails or returns null rejects the render before any script
   * runs or any callback is called, and while some fetch has neither delivered nor failed it waits.
   */
  lemma ScriptsRunInListOrder(plan: Plan, urls: seq<string>, starts: seq<FetchStart>, settlements: seq<Settlement>)
    requires |starts| == |urls| && OncePerFetch(|urls|, settlements)
    requires plan.files == FilesFrom(Retrieve(Resolves(urls), starts, settlements)) && plan.loader.Returned?
    ensures ScriptsRun(plan) <= urls
    ensures SomeFetchFails(starts, settlements) ==>
              ScriptsRun(plan) == [] && Callback(plan).None? && Ending(plan).Some? && Ending(plan).value.Threw?
    ensures !SomeFetchFails(starts, settlements) && !AllDeliver(|urls|, settlements) ==>
              ScriptsRun(plan) == [] && Callback(plan).None? && Ending(plan).None?
    ensures SetUp(plan) && (forall i: nat :: i < |urls| ==> plan.scripts(i).throws.None?) ==> ScriptsRun(plan) == urls
  {
    RetrievalMeaning(urls, starts, settlements);
    if plan.files.Resolves? {
      assert Urls(plan.files.value) == urls;
    } else {
      EndingIs(plan);
    }
  }

  /** The callback is the last value registered over the whole run, if that is a function. */
  lemma CallbackIsLastRegistered(plan: Plan, id: nat)
    requires SetUp(plan) && forall i: nat :: i < |plan.files.value| ==> plan.scripts(i).throws.None?
    ensures var rs := AllRegistered(plan.scripts, |plan.files.value|);
            && (Callback(plan) == Some(id) <==> rs != [] && rs[|rs| - 1] == Function(id))
            && (Ending(plan) == Some(Threw(NO_CALLBACK)) <==> rs == [] || rs[|rs| - 1] == NotFunction)
  {
    forall json ensures MalformedResult(json) != NO_CALLBACK {
      assert MalformedResult(json).message[0] == 'M' && NO_CALLBACK.message[0] == 'N';
    }
  }

  // ----- How a render ends, script by script -----

  /** Script `k` is the last that registers anything. */
  ghost predicate RegistersLast(scripts: nat -> ScriptRun, n: nat, k: nat) {
    k < n && scripts(k).registers != [] && forall j: nat :: k < j < n ==> scripts(j).registers == []
  }

  lemma {:induction false} NoRegistration(scripts: nat -> ScriptRun, n: nat)
    requires forall j: nat :: j < n ==> scripts(j).registers == []
    ensures AllRegistered(scripts, n) == []
  {
    if n > 0 { NoRegistration(scripts, n - 1); }
  }

  lemma {:induction false} LastRegistration(scripts: nat -> ScriptRun, n: nat, k: nat)
    requires RegistersLast(scripts, n, k)
    ensures LastOf(AllRegistered(scripts, n)) == Some(scripts(k).registers[|scripts(k).registers| - 1])
  {
    var before, rs := AllRegistered(scripts, n - 1), scripts(n - 1).registers;
    if k == n - 1 {
      assert (before + rs)[|before + rs| - 1] == rs[|rs| - 1];
    } else {
      LastRegistration(scripts, n - 1, k);
      assert before + rs == before;
    }
  }

  ghost predicate NoneThrows(scripts: nat -> ScriptRun, n: nat) {
    forall i: nat :: i < n ==> scripts(i).throws.None?
  }

  /** Script `i` is the first that throws, and throws `v`. */
  ghost predicate ThrowsFirst(scripts: nat -> ScriptRun, n: nat, i: nat, v: Value) {
    i < n && scripts(i).throws == Some(v) && NoneThrows(scripts, i)
  }

  /** When a script throws, it is the last one run, and the render ends with what it throws. */
  lemma ScriptsEndAtThrow(plan: Plan, i: nat, v: Value)
    requires SetUp(plan) && ThrowsFirst(plan.scripts, |plan.files.value|, i, v)
    ensures ScriptsRun(plan) == Urls(plan.files.value)[..i + 1]
    ensures Ending(plan) == Some(Threw(External(v)))
    ensures Callback(plan).None?
  {
    assert FirstThrow(plan.scripts, |plan.files.value|) == i;
  }

  /** When none does, all are run; and when none registers a function last, the render fails. */
  lemma ScriptsAllRun(plan: Plan)
    requires SetUp(plan) && NoneThrows(plan.scripts, |plan.files.value|)
    ensures ScriptsRun(plan) == Urls(plan.files.value)
    ensures var n := |plan.files.value|;
            (forall j: nat :: j < n ==> plan.scripts(j).registers == [])
            || (exists k: nat :: RegistersLast(plan.scripts, n, k)
                  && plan.scripts(k).registers[|plan.scripts(k).registers| - 1] == NotFunction) ==>
              Ending(plan) == Some(Threw(Raised("KAInternalError", "No render callback was registered.")))
  {
    var n := |plan.files.value|;
    if forall j: nat :: j < n ==> plan.scripts(j).registers == [] { NoRegistration(plan.scripts, n); }
    forall k: nat | RegistersLast(plan.scripts, n, k) { LastRegistration(plan.scripts, n, k); }
    assert "KA" + INTERNAL + "Error" == "KAInternalError";
  }

  /** When a function is registered last, how it settles decides how the render ends. */
  lemma CallbackEndsRender(plan: Plan, k: nat, id: nat)
    requires SetUp(plan) && NoneThrows(plan.scripts, |plan.files.value|)
    requires RegistersLast(plan.scripts, |plan.files.value|, k)
    requires plan.scripts(k).registers[|plan.scripts(k).registers| - 1] == Function(id)
    ensures Callback(plan) == Some(id)
    ensures match plan.callback(id)
            case Resolves(WellFormed(result)) => Ending(plan) == Some(Returned(result))
            case Resolves(Malformed(json)) =>
              Ending(plan) == Some(Threw(Raised("KAInternalError", "Malformed render result: " + json)))
            case Rejects(v) => Ending(plan) == Some(Threw(External(v)))
            case Hangs => Ending(plan) == None
    ensures forall result ::
              Ending(plan) == Some(Returned(result)) <==> plan.callback(id) == Resolves(WellFormed(result))
  {
    LastRegistration(plan.scripts, |plan.files.value|, k);
    assert "KA" + INTERNAL + "Error" == "KAInternalError";
  }

  // ----- What closing does, entry by entry -----

  /** Which closes end the tidy-up, in terms of what they throw. */
  lemma EscapesIff(h: Heap, c: Closeable)
    ensures Escapes(h, c) <==>
              c.Closes? && c.throws.Some? && (Nullish(c.throws.value) || Revisits(h, c.throws.value))
  {
    if c.Closes? && c.throws.Some? { ExtractableIff(h, c.throws.value); }
  }

  /** One close: it is called, and what it throws is logged with its message, if it can be extracted. */
  lemma CloseOneIs(h: Heap, t: Tidy, c: Closeable)
    ensures !c.Closes? ==> CloseOne(h, t, c) == t
    ensures c.Closes? ==> CloseOne(h, t, c).calls == t.calls + [c.owner]
    ensures c.Closes? && c.throws.None? ==> CloseOne(h, t, c).errors == t.errors
    ensures c.Closes? && c.throws.Some? ==>
              match ExtractError(h, c.throws.value)
              case Failed(_) => CloseOne(h, t, c).errors == t.errors
              case Extracted(e) =>
                CloseOne(h, t, c).errors == t.errors +
                  [CloseError(if e.error.Some? then "Closeable encountered an error: " + e.error.value
                              else "Closeable encountered an error: ", e)]
  {
    assert "Closeable encountered an error: " + "" == "Closeable encountered an error: ";
  }
}
