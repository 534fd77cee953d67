/** The persisted details of one execution: the trace with display-only audits and phases around it,
    trimmed as a whole to a byte bound. */
module Details {
  import opened Common
  import opened Json
  import opened Serialized
  import opened Trace
  import opened Trimming
  import opened Validator

  const DETAILS_MAX_BYTES := 512 * 1024

  datatype Details = Details(
    success: bool, trace: Trace, audits: seq<Value>, phases: seq<Text>, speculation: Option<Value>,
    error: Option<Text>, outputFormat: Option<Text>, formatStartLine: Option<nat>, formatLines: Option<nat>)

  function OptionalCount(n: Option<nat>): Option<Value> { if n.Some? then Some(Int(n.value)) else None }

  const DETAILS_MEMBERS := 9

  function DetailsEntry(d: Details, i: nat): Entry
    requires i < DETAILS_MEMBERS
  {
    match i
    case 0 => Entry(Chars("success"), Some(Bool(d.success)))
    case 1 => Entry(Chars("trace"), Some(TraceJson(d.trace)))
    case 2 => Entry(Chars("audits"), Some(Arr(d.audits)))
    case 3 => Entry(Chars("phases"), Some(Arr(Phases(d.phases))))
    case 4 => Entry(Chars("speculation"), d.speculation)
    case 5 => Entry(Chars("error"), OptionalText(d.error))
    case 6 => Entry(Chars("outputFormat"), OptionalText(d.outputFormat))
    case 7 => Entry(Chars("outputFormatStartLine"), OptionalCount(d.formatStartLine))
    case 8 => Entry(Chars("outputFormatLines"), OptionalCount(d.formatLines))
  }

  function DetailsEntries(d: Details): seq<Entry> {
    seq(DETAILS_MEMBERS, i requires 0 <= i < DETAILS_MEMBERS => DetailsEntry(d, i))
  }

  function DetailsJson(d: Details): Value { Obj(Present(DetailsEntries(d))) }

  function DetailsBytes(d: Details): nat { ObjectBytes(DetailsEntries(d)) }

  predicate DetailsFit(d: Details) { DetailsBytes(d) <= DETAILS_MAX_BYTES }

  // ----- trimming -----

  type Test = Details -> bool

  function DropAudit(d: Details): Details
    requires d.audits != []
  {
    d.(audits := d.audits[..|d.audits| - 1])
  }

  function DropOperation(d: Details): Details
    requires d.trace.operations != []
  {
    d.(trace := WithoutLastOperation(d.trace))
  }

  function DropPhase(d: Details): Details
    requires d.phases != []
  {
    d.(phases := d.phases[..|d.phases| - 1])
  }

  function DropTracePhase(d: Details): Details
    requires d.trace.phases != []
  {
    d.(trace := WithoutLastPhase(d.trace))
  }

  /** The last resort also counts a dropped value when the trace had no error to drop. */
  function DropTraceError(d: Details): Details {
    d.(trace := d.trace.(error := None, counts := AddDropped(d.trace, 1, 0, 0)))
  }

  function DropAudits(fits: Test, d: Details): Details
    decreases |d.audits|
  {
    if fits(d) || d.audits == [] then d else DropAudits(fits, DropAudit(d))
  }

  function DropOperations(fits: Test, d: Details): Details
    decreases |d.trace.operations|
  {
    if fits(d) || d.trace.operations == [] then d else DropOperations(fits, DropOperation(d))
  }

  function DropPhases(fits: Test, d: Details): Details
    decreases |d.phases|
  {
    if fits(d) || d.phases == [] then d else DropPhases(fits, DropPhase(d))
  }

  function DropTracePhases(fits: Test, d: Details): Details
    decreases |d.trace.phases|
  {
    if fits(d) || d.trace.phases == [] then d else DropTracePhases(fits, DropTracePhase(d))
  }

  function Popped(fits: Test, d: Details): Details {
    DropTracePhases(fits, DropPhases(fits, DropOperations(fits, DropAudits(fits, d))))
  }

  function Persisted(fits: Test, d: Details): Details {
    var p := Popped(fits, d);
    if fits(p) then p else DropTraceError(p)
  }

  method DropAuditsLoop(fits: Test, input: Details) returns (details: Details)
    ensures details == DropAudits(fits, input)
  {
    details := input;
    while !fits(details) && |details.audits| > 0
      invariant DropAudits(fits, details) == DropAudits(fits, input)
      decreases |details.audits|
    {
      details := details.(audits := details.audits[..|details.audits| - 1]);
    }
  }

  method DropOperationsLoop(fits: Test, input: Details) returns (details: Details)
    ensures details == DropOperations(fits, input)
  {
    details := input;
    while !fits(details) && |details.trace.operations| > 0
      invariant DropOperations(fits, details) == DropOperations(fits, input)
      decreases |details.trace.operations|
    {
      var trace := details.trace;
      details := details.(trace := trace.(
        operations := trace.operations[..|trace.operations| - 1],
        counts := trace.counts.(droppedOperations := trace.counts.droppedOperations + 1)));
    }
  }

  method DropPhasesLoop(fits: Test, input: Details) returns (details: Details)
    ensures details == DropPhases(fits, input)
  {
    details := input;
    while !fits(details) && |details.phases| > 0
      invariant DropPhases(fits, details) == DropPhases(fits, input)
      decreases |details.phases|
    {
      details := details.(phases := details.phases[..|details.phases| - 1]);
    }
  }

  method DropTracePhasesLoop(fits: Test, input: Details) returns (details: Details)
    ensures details == DropTracePhases(fits, input)
  {
    details := input;
    while !fits(details) && |details.trace.phases| > 0
      invariant DropTracePhases(fits, details) == DropTracePhases(fits, input)
      decreases |details.trace.phases|
    {
      var trace := details.trace;
      details := details.(trace := trace.(
        phases := trace.phases[..|trace.phases| - 1],
        counts := trace.counts.(droppedValues := trace.counts.droppedValues + 1)));
    }
  }

  /** The trimming as it runs: display-only audits first, then the functional trace. */
  method TrimWhileTooLarge(fits: Test, input: Details) returns (details: Details)
    ensures details == Persisted(fits, input)
  {
    details := DropAuditsLoop(fits, input);
    details := DropOperationsLoop(fits, details);
    details := DropPhasesLoop(fits, details);
    details := DropTracePhasesLoop(fits, details);
    if !fits(details) {
      var trace := details.trace;
      details := details.(trace := trace.(
        error := None, counts := trace.counts.(droppedValues := trace.counts.droppedValues + 1)));
    }
  }

  method PersistDetails(input: Details) returns (details: Details)
    ensures details == Persisted(DetailsFit, input)
  {
    details := TrimWhileTooLarge(DetailsFit, input);
  }

  // ----- what is kept and counted -----

  lemma {:induction false} DropAuditsLaw(fits: Test, d: Details)
    ensures var r := DropAudits(fits, d);
            && |r.audits| <= |d.audits| && r == d.(audits := d.audits[..|r.audits|])
            && (fits(r) || r.audits == []) && (fits(d) ==> r == d)
    decreases |d.audits|
  {
    if fits(d) || d.audits == [] {
      assert d.audits[..|d.audits|] == d.audits;
    } else {
      var u := DropAudit(d);
      DropAuditsLaw(fits, u);
      assert u.audits[..|DropAudits(fits, u).audits|] == d.audits[..|DropAudits(fits, u).audits|];
    }
  }

  /** The trace with its last operations gone and counted. */
  function KeepOperations(t: Trace, n: nat): Trace
    requires n <= |t.operations|
  {
    t.(operations := t.operations[..n], counts := AddDropped(t, 0, 0, |t.operations| - n))
  }

  function KeepPhases(t: Trace, n: nat): Trace
    requires n <= |t.phases|
  {
    t.(phases := t.phases[..n], counts := AddDropped(t, |t.phases| - n, 0, 0))
  }

  lemma {:induction false} DropOperationsLaw(fits: Test, d: Details)
    ensures var r := DropOperations(fits, d);
            && |r.trace.operations| <= |d.trace.operations|
            && r == d.(trace := KeepOperations(d.trace, |r.trace.operations|))
            && (fits(r) || r.trace.operations == []) && (fits(d) ==> r == d)
    decreases |d.trace.operations|
  {
    if fits(d) || d.trace.operations == [] {
      assert d.trace.operations[..|d.trace.operations|] == d.trace.operations;
    } else {
      var u := DropOperation(d);
      DropOperationsLaw(fits, u);
      var n := |DropOperations(fits, u).trace.operations|;
      assert u.trace.operations[..n] == d.trace.operations[..n];
    }
  }

  lemma {:induction false} DropPhasesLaw(fits: Test, d: Details)
    ensures var r := DropPhases(fits, d);
            && |r.phases| <= |d.phases| && r == d.(phases := d.phases[..|r.phases|])
            && (fits(r) || r.phases == []) && (fits(d) ==> r == d)
    decreases |d.phases|
  {
    if fits(d) || d.phases == [] {
      assert d.phases[..|d.phases|] == d.phases;
    } else {
      var u := DropPhase(d);
      DropPhasesLaw(fits, u);
      assert u.phases[..|DropPhases(fits, u).phases|] == d.phases[..|DropPhases(fits, u).phases|];
    }
  }

  lemma {:induction false} DropTracePhasesLaw(fits: Test, d: Details)
    ensures var r := DropTracePhases(fits, d);
            && |r.trace.phases| <= |d.trace.phases|
            && r == d.(trace := KeepPhases(d.trace, |r.trace.phases|))
            && (fits(r) || r.trace.phases == []) && (fits(d) ==> r == d)
    decreases |d.trace.phases|
  {
    if fits(d) || d.trace.phases == [] {
      assert d.trace.phases[..|d.trace.phases|] == d.trace.phases;
    } else {
      var u := DropTracePhase(d);
      DropTracePhasesLaw(fits, u);
      var n := |DropTracePhases(fits, u).trace.phases|;
      assert u.trace.phases[..n] == d.trace.phases[..n];
    }
  }

  /** Prefixes of every list survive, operations and trace phases that go are counted, and a list is
      touched only once everything less important is gone. */
  lemma PoppedLaw(fits: Test, d: Details)
    ensures var p := Popped(fits, d);
            && |p.audits| <= |d.audits| && |p.phases| <= |d.phases|
            && |p.trace.operations| <= |d.trace.operations| && |p.trace.phases| <= |d.trace.phases|
            && p == d.(audits := d.audits[..|p.audits|], phases := d.phases[..|p.phases|],
                       trace := KeepPhases(KeepOperations(d.trace, |p.trace.operations|), |p.trace.phases|))
            && (|p.trace.operations| < |d.trace.operations| ==> p.audits == [])
            && (|p.phases| < |d.phases| ==> p.audits == [] && p.trace.operations == [])
            && (|p.trace.phases| < |d.trace.phases| ==> p.audits == [] && p.trace.operations == [] && p.phases == [])
            && (fits(p) || (p.audits == [] && p.trace.operations == [] && p.phases == [] && p.trace.phases == []))
            && (fits(d) ==> p == d)
  {
    var a := DropAudits(fits, d);
    DropAuditsLaw(fits, d);
    var o := DropOperations(fits, a);
    DropOperationsLaw(fits, a);
    var h := DropPhases(fits, o);
    DropPhasesLaw(fits, o);
    DropTracePhasesLaw(fits, h);
  }

  /** The persisted trace still accounts for every call the sealed one accounted for, in order. */
  lemma PersistedAccountsForCalls(d: Details)
    ensures var t := Persisted(DetailsFit, d).trace;
            && |t.operations| <= |d.trace.operations|
            && t.operations == d.trace.operations[..|t.operations|]
            && |t.operations| + t.counts.droppedOperations == |d.trace.operations| + d.trace.counts.droppedOperations
            && t.outcome == d.trace.outcome
  {
    PersistedLaw(DetailsFit, d);
  }

  lemma PersistedLaw(fits: Test, d: Details)
    ensures var t := Persisted(fits, d).trace;
            && |t.operations| <= |d.trace.operations|
            && t.operations == d.trace.operations[..|t.operations|]
            && |t.operations| + t.counts.droppedOperations == |d.trace.operations| + d.trace.counts.droppedOperations
            && t.outcome == d.trace.outcome
  {
    PoppedLaw(fits, d);
  }

  // ----- the persisted trace is still readable -----

  lemma CountsGrow(t: Trace)
    ensures Bytes(CountsJson(AddDropped(t, 1, 0, 0))) <= Bytes(CountsJson(t.counts)) + 1
    ensures Bytes(CountsJson(AddDropped(t, 0, 0, 1))) <= Bytes(CountsJson(t.counts)) + 1
  {
    var e := CountsEntries(t.counts);
    DigitsStep(t.counts.droppedValues);
    DigitsStep(t.counts.droppedOperations);
    ObjectBytesUpdate(e, 0, Int(t.counts.droppedValues + 1));
    assert e[0 := Entry(e[0].key, Some(Int(t.counts.droppedValues + 1)))] == CountsEntries(AddDropped(t, 1, 0, 0));
    ObjectBytesUpdate(e, 3, Int(t.counts.droppedOperations + 1));
    assert e[3 := Entry(e[3].key, Some(Int(t.counts.droppedOperations + 1)))] == CountsEntries(AddDropped(t, 0, 0, 1));
  }

  /** What is popped is always larger than the growth of the counter that records it. */
  lemma {:induction false} KeepOperationsShrinks(t: Trace, n: nat)
    requires n <= |t.operations|
    ensures TraceBytes(KeepOperations(t, n)) <= TraceBytes(t)
    decreases |t.operations| - n
  {
    hide TraceBytes;
    if n == |t.operations| {
      assert KeepOperations(t, n) == t;
    } else {
      KeepOperationsShrinks(t, n + 1);
      var u := KeepOperations(t, n + 1);
      assert WithoutLastOperation(u) == KeepOperations(t, n) by { assert u.operations[..n] == t.operations[..n]; }
      PopOperationBytes(u);
      CountsGrow(u);
    }
  }

  lemma {:induction false} KeepPhasesShrinks(t: Trace, n: nat)
    requires n <= |t.phases|
    ensures TraceBytes(KeepPhases(t, n)) <= TraceBytes(t)
    decreases |t.phases| - n
  {
    hide TraceBytes;
    if n == |t.phases| {
      assert KeepPhases(t, n) == t;
    } else {
      KeepPhasesShrinks(t, n + 1);
      var u := KeepPhases(t, n + 1);
      assert WithoutLastPhase(u) == KeepPhases(t, n) by { assert u.phases[..n] == t.phases[..n]; }
      PopPhaseBytes(u);
      CountsGrow(u);
    }
  }

  function WithoutError(t: Trace): Trace { t.(error := None, counts := AddDropped(t, 1, 0, 0)) }

  lemma WithoutErrorShrinks(t: Trace)
    requires t.error.Some?
    ensures TraceBytes(WithoutError(t)) <= TraceBytes(t)
  {
    var e := TraceEntries(t);
    var e1 := e[6 := Entry(e[6].key, None)];
    var counts := CountsJson(AddDropped(t, 1, 0, 0));
    var e2 := e1[5 := Entry(e1[5].key, Some(counts))];
    assert e2 == TraceEntries(WithoutError(t));
    SumEntriesRemove(e, 6);
    ObjectBytesSum(e);
    ObjectBytesSum(e1);
    ObjectBytesUpdate(e1, 5, counts);
    CountsGrow(t);
  }

  /** The counters of a trace if the details trim dropped everything. */
  function WorstPersisted(t: Trace): Counts { AddDropped(t, |t.phases| + 1, 0, |t.operations|) }

  lemma PersistedCountsWithin(fits: Test, d: Details)
    ensures CountsAtMost(d.trace.counts, Persisted(fits, d).trace.counts)
    ensures CountsAtMost(Persisted(fits, d).trace.counts, WorstPersisted(d.trace))
  {
    hide Popped;
    PoppedLaw(fits, d);
  }

  /** Trimming the details never makes a readable trace unreadable, short of a counter leaving the safe
      integers; and none does when they would be safe even with everything dropped. */
  lemma PersistedIsReadable(d: Details)
    requires IsTrace(TraceJson(d.trace))
    ensures var t := Persisted(DetailsFit, d).trace;
            && (IsTrace(TraceJson(t)) <==> CountsSafe(t.counts))
            && (CountsSafe(WorstPersisted(d.trace)) ==> IsTrace(TraceJson(t)))
  {
    hide IsTrace; hide TraceJson; hide Persisted;
    PersistedTraceReadable(DetailsFit, d);
    PersistedCountsWithin(DetailsFit, d);
  }

  lemma PersistedTraceReadable(fits: Test, d: Details)
    requires IsTrace(TraceJson(d.trace))
    ensures var t := Persisted(fits, d).trace; IsTrace(TraceJson(t)) <==> CountsSafe(t.counts)
  {
    TraceAccepted(d.trace);
    PoppedLaw(fits, d);
    var p := Popped(fits, d);
    var n, m := |p.trace.operations|, |p.trace.phases|;
    KeepOperationsShrinks(d.trace, n);
    KeepPhasesShrinks(KeepOperations(d.trace, n), m);
    TraceAccepted(p.trace);
    if !fits(p) {
      var t := WithoutError(p.trace);
      assert Persisted(fits, d).trace == t;
      TraceAccepted(t);
      if CountsSafe(t.counts) {
        if p.trace.error.Some? {
          WithoutErrorShrinks(p.trace);
        } else {
          EmptyTraceBound(t);
        }
      }
    }
  }

  // ----- when the details fit their bound -----

  /** The details with everything poppable gone: what a caller can measure beforehand. */
  function Emptied(d: Details): Details {
    d.(audits := [], phases := [], trace := KeepPhases(KeepOperations(d.trace, 0), 0))
  }

  lemma DetailsBytesChange(d: Details, trace: Trace, audits: seq<Value>, phases: seq<Text>)
    ensures DetailsBytes(d.(trace := trace, audits := audits, phases := phases))
         == DetailsBytes(d)
            + TraceBytes(trace) - TraceBytes(d.trace)
            + Bytes(Arr(audits)) - Bytes(Arr(d.audits))
            + Bytes(Arr(Phases(phases))) - Bytes(Arr(Phases(d.phases)))
  {
    var e := DetailsEntries(d);
    var e1 := e[1 := Entry(e[1].key, Some(TraceJson(trace)))];
    var e2 := e1[2 := Entry(e1[2].key, Some(Arr(audits)))];
    var e3 := e2[3 := Entry(e2[3].key, Some(Arr(Phases(phases))))];
    assert e3 == DetailsEntries(d.(trace := trace, audits := audits, phases := phases));
    ObjectBytesUpdate(e, 1, TraceJson(trace));
    ObjectBytesUpdate(e1, 2, Arr(audits));
    ObjectBytesUpdate(e2, 3, Arr(Phases(phases)));
  }

  lemma EmptiedIsSmallest(d: Details)
    ensures DetailsBytes(Emptied(d)) <= DetailsBytes(d)
  {
    KeepOperationsShrinks(d.trace, 0);
    KeepPhasesShrinks(KeepOperations(d.trace, 0), 0);
    DetailsBytesChange(d, KeepPhases(KeepOperations(d.trace, 0), 0), [], []);
    assert Phases([]) == [];
    assert Bytes(Arr([])) == 2;
  }

  /** The persisted details are within their bound exactly when what cannot be popped is: with the
      trace's error, or at least without it. */
  lemma PersistedFits(d: Details)
    ensures DetailsFit(Persisted(DetailsFit, d))
       <==> DetailsFit(Emptied(d)) || DetailsFit(DropTraceError(Emptied(d)))
    ensures DetailsFit(Persisted(DetailsFit, d)) <==> |Written(DetailsJson(Persisted(DetailsFit, d)))| <= DETAILS_MAX_BYTES
  {
    BytesCountsWritten(DetailsJson(Persisted(DetailsFit, d)));
    PoppedLaw(DetailsFit, d);
    var p := Popped(DetailsFit, d);
    var n, m := |p.trace.operations|, |p.trace.phases|;
    assert Emptied(p) == Emptied(d) by {
      assert p.trace.operations[..0] == d.trace.operations[..0] == [];
      assert p.trace.phases[..0] == d.trace.phases[..0] == [];
    }
    if DetailsFit(p) {
      EmptiedIsSmallest(p);
    } else {
      assert p == Emptied(p) by {
        assert p.trace.operations[..0] == [] && p.trace.phases[..0] == [];
      }
    }
  }

  /** The bound is not unconditional: an execution error this long is never trimmed. */
  lemma LongErrorNeverFits(d: Details)
    requires d.error.Some? && |d.error.value| >= DETAILS_MAX_BYTES
    ensures !DetailsFit(Persisted(DetailsFit, d))
  {
    PoppedLaw(DetailsFit, d);
    var r := Persisted(DetailsFit, d);
    assert r.error == d.error;
    TextEntryAtLeast(DetailsEntry(r, 5), d.error.value);
    SumEntriesAtLeast(DetailsEntries(r), 5);
    ObjectBytesSum(DetailsEntries(r));
  }

  lemma TextEntryAtLeast(e: Entry, text: Text)
    requires e.value == Some(Str(text))
    ensures EntryBytes(e) > |text|
  {
    assert Bytes(Str(text)) == 2 + EscapedBytes(text);
  }
}
