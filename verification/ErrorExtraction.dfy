/**
 * src/shared/extract-error.js: finding the root cause of an arbitrary thrown value.
 *
 * Thrown values form a graph, possibly a cyclic one, so objects live in a heap
 * and refer to each other by index.
 */
module ErrorExtraction {
  import opened Common

  /** A JavaScript value, as far as the walk can tell values apart. `Prim` is a number or a boolean. */
  datatype Value = Undefined | Null | Str(text: string) | Prim(shown: string, truthy: bool) | Obj(ref: nat)

  /** The properties the walk reads, and what `toString` gives. */
  datatype ErrorObject = ErrorObject(error: Value, response: Value, stack: Option<string>, shown: string)

  /** A reference past the end of the heap denotes an object with none of the properties. */
  type Heap = seq<ErrorObject>

  datatype SimplifiedError = SimplifiedError(error: Option<string>, stack: Option<string>)

  /** `Failed` is an exception out of the extraction itself. */
  datatype Extraction = Extracted(simplified: SimplifiedError) | Failed(reason: Failure)
  datatype Failure = NullishValue | EndlessChain

  const GENERIC_OBJECT := "[object Object]"
  const PLAIN := ErrorObject(Undefined, Undefined, None, GENERIC_OBJECT)

  predicate Nullish(v: Value) { v.Undefined? || v.Null? }

  predicate Truthy(v: Value) {
    match v
    case Undefined => false
    case Null => false
    case Str(text) => text != ""
    case Prim(_, truthy) => truthy
    case Obj(_) => true
  }

  function Deref(h: Heap, v: Value): ErrorObject {
    match v
    case Obj(ref) => if ref < |h| then h[ref] else PLAIN
    case Prim(shown, _) => PLAIN.(shown := shown)
    case _ => PLAIN
  }

  predicate HasResponseError(h: Heap, v: Value) {
    var response := Deref(h, v).response;
    Truthy(response) && Deref(h, response).error.Str?
  }

  /** The value the walk moves on to, if it moves on. */
  function Cause(h: Heap, v: Value): Option<Value> {
    if v.Str? || Nullish(v) || HasResponseError(h, v) then None
    else
      var cause := Deref(h, v).error;
      if Truthy(cause) && v != cause then Some(cause) else None
  }

  /** What the walk gives at a value it does not move on from. */
  function Finish(h: Heap, v: Value): Extraction {
    if v.Str? then Extracted(SimplifiedError(Some(v.text), None))
    else if Nullish(v) then Failed(NullishValue)
    else
      var o := Deref(h, v);
      if HasResponseError(h, v) then
        Extracted(SimplifiedError(Some(Deref(h, o.response).error.text), o.stack))
      else
        Extracted(SimplifiedError(if o.shown == GENERIC_OBJECT then o.stack else Some(o.shown), o.stack))
  }

  /** The value reached after `n` moves; `None` when the chain is shorter. */
  function Walk(h: Heap, v: Value, n: nat): Option<Value>
    decreases n
  {
    if n == 0 then Some(v)
    else match Cause(h, v) case None => None case Some(w) => Walk(h, w, n - 1)
  }

  /** The recursion of the source. `bound` only witnesses that it ends. */
  function ExtractWithin(h: Heap, v: Value, ghost bound: nat): Extraction
    requires Walk(h, v, bound).None?
    decreases bound
  {
    match Cause(h, v)
    case None => Finish(h, v)
    case Some(w) => ExtractWithin(h, w, bound - 1)
  }

  /** A chain that has not ended after as many moves as there are objects never will (`EndlessIffRevisits`). */
  function ExtractError(h: Heap, v: Value): Extraction {
    if Walk(h, v, |h| + 1).None? then ExtractWithin(h, v, |h| + 1) else Failed(EndlessChain)
  }

  ghost predicate Stops(h: Heap, v: Value) {
    exists n: nat :: Walk(h, v, n).None?
  }

  ghost predicate Revisits(h: Heap, v: Value) {
    exists i: nat, j: nat :: i < j && Walk(h, v, i).Some? && Walk(h, v, i) == Walk(h, v, j)
  }

  predicate Extractable(h: Heap, v: Value) {
    ExtractError(h, v).Extracted?
  }

  lemma {:induction false} WalkSplit(h: Heap, v: Value, m: nat, n: nat)
    ensures Walk(h, v, m).None? ==> Walk(h, v, m + n).None?
    ensures Walk(h, v, m).Some? ==> Walk(h, v, m + n) == Walk(h, Walk(h, v, m).value, n)
    decreases m
  {
    if m > 0 && Cause(h, v).Some? {
      WalkSplit(h, Cause(h, v).value, m - 1, n);
    }
  }

  /** A chain that comes back to a value it has seen never ends. */
  lemma {:induction false} RevisitNeverStops(h: Heap, v: Value, i: nat, j: nat, n: nat)
    requires i < j && Walk(h, v, i).Some? && Walk(h, v, i) == Walk(h, v, j)
    ensures Walk(h, v, n).Some?
    decreases n
  {
    if n < j {
      WalkSplit(h, v, n, j - n);
    } else {
      WalkSplit(h, v, j, n - j);
      WalkSplit(h, v, i, n - j);
      RevisitNeverStops(h, v, i, j, i + (n - j));
    }
  }

  /** A chain longer than the heap comes back to a value it has seen. */
  lemma LongChainRevisits(h: Heap, v: Value)
    requires Walk(h, v, |h| + 1).Some?
    ensures Revisits(h, v)
  {
    forall k: nat | k <= |h|
      ensures Walk(h, v, k).Some? && Walk(h, v, k).value.Obj? && Walk(h, v, k).value.ref < |h|
    {
      WalkSplit(h, v, k, |h| + 1 - k);
    }
    var refs := seq(|h| + 1, k requires 0 <= k <= |h| => Walk(h, v, k).value.ref);
    if forall i, j :: 0 <= i < j < |refs| ==> refs[i] != refs[j] {
      Pigeonhole(refs, |h|);
    } else {
      var i, j :| 0 <= i < j < |refs| && refs[i] == refs[j];
      assert Walk(h, v, i) == Walk(h, v, j);
    }
  }

  lemma {:induction false} StoppingPoint(h: Heap, v: Value, bound: nat) returns (k: nat)
    requires Walk(h, v, bound).None?
    ensures k < bound && Walk(h, v, k).Some? && Cause(h, Walk(h, v, k).value).None?
    ensures ExtractWithin(h, v, bound) == Finish(h, Walk(h, v, k).value)
    ensures Walk(h, v, k).value == v || Truthy(Walk(h, v, k).value)
    decreases bound
  {
    match Cause(h, v) {
      case None => k := 0;
      case Some(w) =>
        k := StoppingPoint(h, w, bound - 1);
        k := k + 1;
    }
  }

  /**
   * The extraction ends if and only if its chain never comes back to a value,
   * and the bound on the chain's length decides this.
   */
  lemma EndlessIffRevisits(h: Heap, v: Value)
    ensures Stops(h, v) <==> !Revisits(h, v)
    ensures ExtractError(h, v) == Failed(EndlessChain) <==> Revisits(h, v)
  {
    if Revisits(h, v) {
      var i: nat, j: nat :| i < j && Walk(h, v, i).Some? && Walk(h, v, i) == Walk(h, v, j);
      forall n: nat ensures Walk(h, v, n).Some? { RevisitNeverStops(h, v, i, j, n); }
    } else {
      if Walk(h, v, |h| + 1).Some? { LongChainRevisits(h, v); }
      var _ := StoppingPoint(h, v, |h| + 1);
    }
  }

  /** The chain of causes ends at no more than one place, and error and stack are both taken there. */
  lemma ExtractsAtFirstStop(h: Heap, v: Value, k: nat)
    requires Walk(h, v, k).Some? && Cause(h, Walk(h, v, k).value).None?
    ensures ExtractError(h, v) == Finish(h, Walk(h, v, k).value)
  {
    WalkSplit(h, v, k, 1);
    EndlessIffRevisits(h, v);
    var m := StoppingPoint(h, v, |h| + 1);
    if m < k { WalkSplit(h, v, m, 1); WalkSplit(h, v, m + 1, k - m - 1); }
    if k < m { WalkSplit(h, v, k + 1, m - k - 1); }
  }

  /** An object's `response` has an `error` that is a string. */
  predicate HasErrorText(h: Heap, o: ErrorObject) {
    o.response.Obj? && o.response.ref < |h| && h[o.response.ref].error.Str?
  }

  /** An object with nothing further to look at: its `error` is falsy, or the object itself. */
  predicate NamesNoCause(o: ErrorObject, self: Value) {
    || o.error == Undefined || o.error == Null || o.error == Str("") || o.error == self
    || (o.error.Prim? && !o.error.truthy)
  }

  /** When the walk stops at an object, and where it goes otherwise, by the object's own properties. */
  lemma ObjectStopsIff(h: Heap, r: nat)
    requires r < |h|
    ensures Cause(h, Obj(r)).None? <==> HasErrorText(h, h[r]) || NamesNoCause(h[r], Obj(r))
    ensures Cause(h, Obj(r)).Some? ==> Cause(h, Obj(r)).value == h[r].error
  {
  }

  /** At anything but an object it always stops. */
  lemma OthersStop(h: Heap, v: Value)
    requires v.Obj? ==> v.ref >= |h|
    ensures Cause(h, v).None?
  {
  }

  /**
   * The result in the properties of the value at which the chain stops. For an object: its stack, and
   * the text of its response's error, or else what `toString` gives, or the stack when that is the
   * generic text. A string gives itself and no stack, a number or boolean its text and no stack.
   */
  lemma ExtractionIs(h: Heap, v: Value, k: nat)
    requires Walk(h, v, k).Some? && Cause(h, Walk(h, v, k).value).None?
    ensures match Walk(h, v, k).value
            case Undefined => ExtractError(h, v) == Failed(NullishValue)
            case Null => ExtractError(h, v) == Failed(NullishValue)
            case Str(text) => ExtractError(h, v) == Extracted(SimplifiedError(Some(text), None))
            case Prim(shown, _) =>
              shown != "[object Object]" ==> ExtractError(h, v) == Extracted(SimplifiedError(Some(shown), None))
            case Obj(r) =>
              if r >= |h| then ExtractError(h, v) == Extracted(SimplifiedError(None, None))
              else
                var o := h[r];
                var error := if HasErrorText(h, o) then Some(h[o.response.ref].error.text)
                             else if o.shown == "[object Object]" then o.stack
                             else Some(o.shown);
                ExtractError(h, v) == Extracted(SimplifiedError(error, o.stack))
  {
    ExtractsAtFirstStop(h, v, k);
  }

  /** Exactly which thrown values can be reported. */
  lemma ExtractableIff(h: Heap, v: Value)
    ensures Extractable(h, v) <==> !Nullish(v) && !Revisits(h, v)
    ensures ExtractError(h, v) == Failed(NullishValue) <==> Nullish(v)
  {
    EndlessIffRevisits(h, v);
    if !Revisits(h, v) {
      var k := StoppingPoint(h, v, |h| + 1);
    } else {
      var i: nat, j: nat :| i < j && Walk(h, v, i).Some? && Walk(h, v, i) == Walk(h, v, j);
      RevisitNeverStops(h, v, i, j, 1);
    }
  }

  /** An object that is its own cause is reported, by its stack. */
  predicate EndsAtSelf(stack: Option<string>) {
    ExtractError([PLAIN.(error := Obj(0), stack := stack)], Obj(0)) == Extracted(SimplifiedError(stack, stack))
  }

  /** Two objects that name each other as their cause are never reported: only a self-loop is guarded against. */
  lemma TwoCycleIsEndless()
    ensures var h := [PLAIN.(error := Obj(1)), PLAIN.(error := Obj(0))];
            ExtractError(h, Obj(0)) == Failed(EndlessChain)
    ensures forall stack :: EndsAtSelf(stack)
  {
    var h := [PLAIN.(error := Obj(1)), PLAIN.(error := Obj(0))];
    assert Walk(h, Obj(0), 0) == Walk(h, Obj(0), 2) by {
      assert Cause(h, Obj(0)) == Some(Obj(1));
      assert Walk(h, Obj(1), 1) == Walk(h, Obj(0), 0);
    }
    EndlessIffRevisits(h, Obj(0));
    forall stack ensures EndsAtSelf(stack) {
      ExtractsAtFirstStop([PLAIN.(error := Obj(0), stack := stack)], Obj(0), 0);
    }
  }

  /** The record an extraction returns, as a heap object that can be extracted in its turn. */
  function AsObject(r: SimplifiedError): ErrorObject {
    ErrorObject(if r.error.Some? then Str(r.error.value) else Undefined, Undefined, r.stack, GENERIC_OBJECT)
  }

  /**
   * Extracting a result again always succeeds, and keeps the error exactly when the error is
   * a non-empty string or the same as the stack.
   */
  lemma ReextractionKeepsErrorIff(h: Heap, r: SimplifiedError)
    ensures var again := ExtractError(h + [AsObject(r)], Obj(|h|));
            && again.Extracted?
            && (again.simplified.error == r.error <==> (r.error.Some? && r.error.value != "") || r.error == r.stack)
  {
    var h' := h + [AsObject(r)];
    assert Deref(h', Obj(|h|)) == AsObject(r);
    if r.error.Some? && r.error.value != "" {
      assert Cause(h', Obj(|h|)) == Some(Str(r.error.value));
      assert Walk(h', Obj(|h|), 1) == Some(Str(r.error.value));
      ExtractsAtFirstStop(h', Obj(|h|), 1);
    } else {
      ExtractsAtFirstStop(h', Obj(|h|), 0);
    }
  }

  /** Extracting the empty string twice, say, loses it. */
  lemma EmptyErrorIsLost(h: Heap)
    ensures var r := ExtractError(h, Str("")).simplified;
            && r.error == Some("")
            && ExtractError(h + [AsObject(r)], Obj(|h|)) == Extracted(SimplifiedError(None, None))
  {
    ExtractsAtFirstStop(h, Str(""), 0);
    var r := SimplifiedError(Some(""), None);
    var h' := h + [AsObject(r)];
    assert Deref(h', Obj(|h|)) == AsObject(r);
    ExtractsAtFirstStop(h', Obj(|h|), 0);
  }

  /** Something thrown: a value from code outside the gateway, or an error object that the gateway makes. */
  datatype Thrown = External(value: Value) | Raised(name: string, message: string)

  /** src/shared/ka-error.js. */
  function KAError(kind: string, message: string): Thrown { Raised("KA" + kind + "Error", message) }

  /** An error object on the heap, by what `Error.prototype.toString` gives. Its stack text is not modelled. */
  function RaisedObject(name: string, message: string): ErrorObject {
    PLAIN.(shown := name + ": " + message)
  }

  function ExtractThrown(h: Heap, thrown: Thrown): Extraction {
    match thrown
    case External(v) => ExtractError(h, v)
    case Raised(name, message) => ExtractError([RaisedObject(name, message)], Obj(0))
  }

  /** The gateway can always report its own errors, by name and message. */
  lemma RaisedIsExtractable(h: Heap, name: string, message: string)
    ensures ExtractThrown(h, Raised(name, message)).Extracted?
    ensures ExtractThrown(h, Raised(name, message)).simplified == SimplifiedError(Some(name + ": " + message), None)
  {
    assert RaisedObject(name, message).shown[|name|] == ':';
    assert ':' !in GENERIC_OBJECT;
    ExtractsAtFirstStop([RaisedObject(name, message)], Obj(0), 0);
  }

  /** The name of the gateway's own errors has their kind in it. */
  lemma KAErrorIsExtracted(h: Heap, kind: string, message: string)
    ensures ExtractThrown(h, KAError(kind, message)).Extracted?
    ensures ExtractThrown(h, KAError(kind, message)).simplified.error == Some("KA" + kind + "Error" + ": " + message)
  {
    RaisedIsExtractable(h, "KA" + kind + "Error", message);
  }
}
