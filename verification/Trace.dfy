/**
 * src/shared/trace-impl.js and src/shared/get-delta.js: a trace session that collects labels and
 * logs them, with the memory used, when it ends.
 */
module Trace {
  import opened Common

  /** A numeric property; `None` is NaN. */
  type Memory = map<string, int>
  type Delta = map<string, Option<int>>

  datatype Label = Text(text: string) | MemoryUse(use: Memory) | MemoryDelta(delta: Delta)
  type Labels = map<string, Label>

  /** `second[key] - first[key]`, which is NaN when `second` lacks the key. */
  function Difference(first: Memory, second: Memory, key: string): Option<int>
    requires key in first
  {
    if key in second then Some(second[key] - first[key]) else None
  }

  method GetDelta(first: Memory, second: Memory) returns (result: Delta)
    ensures result.Keys == first.Keys
    ensures forall key :: key in first && key in second ==>
        result[key].Some? && first[key] + result[key].value == second[key]
    ensures forall key :: key in first && key !in second ==> result[key].None?
  {
    result := map[];
    var keys := first.Keys;
    while keys != {}
      invariant keys <= first.Keys && result.Keys == first.Keys - keys
      invariant forall key :: key in result ==> result[key] == Difference(first, second, key)
      decreases keys
    {
      var key :| key in keys;
      result := result[key := Difference(first, second, key)];
      keys := keys - {key};
    }
  }

  // ----- Labels -----

  datatype Entry = Entry(name: string, value: Label)

  /** The object that results from assigning the entries in order. */
  function Fold(entries: seq<Entry>): Labels {
    if entries == [] then map[]
    else Fold(entries[..|entries| - 1])[entries[|entries| - 1].name := entries[|entries| - 1].value]
  }

  /** Entry `i` is the last one with its name. */
  ghost predicate IsLast(entries: seq<Entry>, i: int) {
    0 <= i < |entries| && forall j :: i < j < |entries| ==> entries[j].name != entries[i].name
  }

  lemma LastBefore(entries: seq<Entry>, name: string)
    requires entries != [] && entries[|entries| - 1].name != name
    ensures var before := entries[..|entries| - 1];
            forall i :: 0 <= i < |entries| && entries[i].name == name ==>
              i < |before| && before[i] == entries[i] && (IsLast(before, i) <==> IsLast(entries, i))
  {
    var before := entries[..|entries| - 1];
    assert forall j :: 0 <= j < |before| ==> before[j] == entries[j];
  }

  /** The last write wins: a label has a value if and only if the last entry with that name has it. */
  lemma {:induction false} LastWriteWins(entries: seq<Entry>, name: string, value: Label)
    ensures name in Fold(entries) && Fold(entries)[name] == value <==>
        exists i :: IsLast(entries, i) && entries[i] == Entry(name, value)
    decreases |entries|
  {
    if entries != [] {
      var n := |entries| - 1;
      var before := entries[..n];
      LastWriteWins(before, name, value);
      if entries[n].name == name {
        assert IsLast(entries, n);
        forall i | IsLast(entries, i) && entries[i].name == name ensures i == n {}
      } else {
        LastBefore(entries, name);
      }
    }
  }

  /** What a caller gives to `end`: other data, and a level that may be absent or empty. */
  datatype Info = Info(level: Option<string>, data: Labels)

  const DEFAULT_LEVEL := "debug"

  function LevelOf(info: Option<Info>): string {
    var given := if info.Some? && info.value.level.Some? then info.value.level.value else "";
    if given != "" then given else DEFAULT_LEVEL
  }

  /** `{...defaults, ...labels, ...info, message, level}`. */
  function Metadata(defaults: Labels, labels: Labels, info: Option<Info>, message: string): Labels {
    defaults + labels + (if info.Some? then info.value.data else map[])
      + map["message" := Text(message), "level" := Text(LevelOf(info))]
  }

  /** For every key, the value that is logged is the one from the strongest source that has the key. */
  lemma Precedence(defaults: Labels, labels: Labels, info: Option<Info>, message: string, key: string)
    ensures var m := Metadata(defaults, labels, info, message);
            && m["message"] == Text(message)
            && m["level"] == (if info.Some? && info.value.level.Some? && info.value.level.value != ""
                              then Text(info.value.level.value) else Text("debug"))
            && (key != "message" && key != "level" ==>
                  if info.Some? && key in info.value.data then key in m && m[key] == info.value.data[key]
                  else if key in labels then key in m && m[key] == labels[key]
                  else if key in defaults then key in m && m[key] == defaults[key]
                  else key !in m)
  {
  }

  // ----- The session -----

  class Span {
    var labels: Labels
    var ended: nat

    constructor ()
      ensures labels == map[] && ended == 0
    {
      labels := map[];
      ended := 0;
    }
  }

  /** Profiler entries that have been logged. */
  class Profiler {
    var done: seq<Labels>

    constructor ()
      ensures done == []
    {
      done := [];
    }
  }

  const DELTA := "/memory/delta"
  const FINAL := "/memory/final"

  /** The label that says how much each kind of memory use has grown. */
  ghost predicate IsMemoryDelta(e: Entry, before: Memory, after: Memory) {
    && e.name == "/memory/delta" && e.value.MemoryDelta? && e.value.delta.Keys == before.Keys
    && forall key :: key in before && key in after ==>
         e.value.delta[key].Some? && before[key] + e.value.delta[key].value == after[key]
  }

  class TraceSession {
    const logMessage: string
    const beforeMemory: Memory
    const span: Span?
    const profiler: Profiler
    var profileLabels: Labels
    ghost var added: seq<Entry>

    /** The labels kept for the log and those sent to the span are the fold of everything added. */
    ghost predicate Valid()
      reads this, span
    {
      profileLabels == Fold(added) && (span != null ==> span.labels == Fold(added))
    }

    constructor (action: string, message: string, beforeMemory: Memory, span: Span?, profiler: Profiler)
      requires action != ""
      requires span != null ==> span.labels == map[]
      ensures Valid() && added == [] && this.span == span && this.profiler == profiler
          && this.beforeMemory == beforeMemory
      ensures logMessage == action + (if message != "" then ": " + message else "")
    {
      logMessage := action + (if message != "" then ": " + message else "");
      this.beforeMemory := beforeMemory;
      this.span := span;
      this.profiler := profiler;
      profileLabels := map[];
      added := [];
    }

    method AddLabel(name: string, value: Label)
      requires Valid()
      modifies this, span
      ensures Valid() && added == old(added) + [Entry(name, value)]
      ensures span != null ==> span.ended == old(span.ended)
    {
      profileLabels := profileLabels[name := value];
      if span != null { span.labels := span.labels[name := value]; }
      added := added + [Entry(name, value)];
      assert added[..|added| - 1] == old(added);
    }

    /** The labels that `end` adds itself. */
    method AddMemory(afterMemory: Memory)
      requires Valid()
      modifies this, span
      ensures Valid() && |added| == |old(added)| + 2 && added[..|old(added)|] == old(added)
      ensures IsMemoryDelta(added[|old(added)|], beforeMemory, afterMemory)
      ensures added[|old(added)| + 1] == Entry("/memory/final", MemoryUse(afterMemory))
      ensures span != null ==> span.ended == old(span.ended)
    {
      var delta := GetDelta(beforeMemory, afterMemory);
      AddLabel(DELTA, MemoryDelta(delta));
      AddLabel(FINAL, MemoryUse(afterMemory));
    }

    method End(info: Option<Info>, afterMemory: Memory, defaults: Labels)
      requires Valid()
      modifies this, span, profiler
      ensures Valid()
      ensures |added| == |old(added)| + 2 && added[..|old(added)|] == old(added)
      ensures added[|old(added)| + 1] == Entry("/memory/final", MemoryUse(afterMemory))
      ensures IsMemoryDelta(added[|old(added)|], beforeMemory, afterMemory)
      ensures profiler.done == old(profiler.done) + [Metadata(defaults, Fold(added), info, "TRACED " + logMessage)]
      ensures span != null ==> span.ended == old(span.ended) + 1
    {
      AddMemory(afterMemory);
      profiler.done := profiler.done + [Metadata(defaults, profileLabels, info, "TRACED " + logMessage)];
      if span != null { span.ended := span.ended + 1; }
    }
  }

  /**
   * A whole session: any labels in any order, and the end. What is logged and what the span shows are
   * the same labels.
   */
  method Session(session: TraceSession, entries: seq<Entry>, info: Option<Info>, afterMemory: Memory, defaults: Labels)
    requires session.Valid() && session.added == []
    modifies session, session.span, session.profiler
    ensures |session.added| == |entries| + 2 && session.added[..|entries|] == entries
    ensures session.span != null ==>
        session.span.labels == Fold(session.added) && session.span.ended == old(session.span.ended) + 1
    ensures session.profiler.done == old(session.profiler.done)
         + [Metadata(defaults, Fold(session.added), info, "TRACED " + session.logMessage)]
  {
    for i := 0 to |entries|
      invariant session.Valid() && session.added == entries[..i]
      invariant session.profiler.done == old(session.profiler.done)
      invariant session.span != null ==> session.span.ended == old(session.span.ended)
    {
      session.AddLabel(entries[i].name, entries[i].value);
    }
    assert entries[..|entries|] == entries;
    session.End(info, afterMemory, defaults);
  }
}
