/** What trimming a trace to its byte bound keeps, drops and counts. */
module Trimming {
  import opened Common
  import opened Json
  import opened Serialized
  import opened Trace

  // ----- how many operations still carry a result, or arguments -----

  function WithResult(ops: seq<Operation>): nat {
    if ops == [] then 0
    else WithResult(ops[..|ops| - 1]) + (if ops[|ops| - 1].result.Some? then 1 else 0)
  }

  function WithArgs(ops: seq<Operation>): nat {
    if ops == [] then 0
    else WithArgs(ops[..|ops| - 1]) + (if ops[|ops| - 1].args != [] then 1 else 0)
  }

  lemma {:induction false} CarryUpdate(ops: seq<Operation>, i: nat, op: Operation)
    requires i < |ops|
    ensures WithResult(ops[i := op])
         == WithResult(ops) + (if op.result.Some? then 1 else 0) - (if ops[i].result.Some? then 1 else 0)
    ensures WithArgs(ops[i := op])
         == WithArgs(ops) + (if op.args != [] then 1 else 0) - (if ops[i].args != [] then 1 else 0)
  {
    var n := |ops| - 1;
    if i == n {
      assert ops[i := op][..n] == ops[..n];
    } else {
      assert ops[i := op][..n] == ops[..n][i := op];
      CarryUpdate(ops[..n], i, op);
    }
  }

  predicate Bare(ops: seq<Operation>) {
    forall i :: 0 <= i < |ops| ==> ops[i].result.None? && ops[i].args == []
  }

  lemma {:induction false} BareCarriesNothing(ops: seq<Operation>)
    requires Bare(ops)
    ensures WithResult(ops) == WithArgs(ops) == 0
  {
    if ops != [] {
      BareCarriesNothing(ops[..|ops| - 1]);
    }
  }

  // ----- one stage at a time -----

  /** The operation is the original one, at most without its result and without its arguments. */
  predicate Keeps(op: Operation, original: Operation) {
    && op.(args := original.args, result := original.result) == original
    && (op.result == original.result || op.result.None?)
    && (op.args == original.args || op.args == [])
  }

  lemma {:induction false} StripResultsKeeps(fits: Stop, t: Trace, n: nat)
    requires n <= |t.operations|
    ensures var r := StripResults(fits, t, n);
            && r == t.(operations := r.operations, counts := r.counts)
            && (forall i :: 0 <= i < |r.operations| ==>
                  r.operations[i] == t.operations[i] || r.operations[i] == t.operations[i].(result := None))
            && (fits(r) || forall i :: 0 <= i < n ==> r.operations[i].result.None?)
            && (forall i :: n <= i < |r.operations| ==> r.operations[i] == t.operations[i])
            && (fits(t) ==> r == t)
    decreases n
  {
    if n > 0 && !fits(t) {
      StripResultsKeeps(fits, WithoutResult(t, n - 1), n - 1);
    }
  }

  lemma {:induction false} StripResultsCounts(fits: Stop, t: Trace, n: nat)
    requires n <= |t.operations|
    ensures var r := StripResults(fits, t, n);
            && WithArgs(r.operations) == WithArgs(t.operations)
            && WithResult(r.operations) <= WithResult(t.operations)
            && r.counts == AddDropped(t, WithResult(t.operations) - WithResult(r.operations), 0, 0)
    decreases n
  {
    hide WithResult; hide WithArgs;
    if n > 0 && !fits(t) {
      CarryUpdate(t.operations, n - 1, t.operations[n - 1].(result := None));
      StripResultsCounts(fits, WithoutResult(t, n - 1), n - 1);
    }
  }

  lemma {:induction false} StripArgsKeeps(fits: Stop, t: Trace, n: nat)
    requires n <= |t.operations|
    ensures var r := StripArgs(fits, t, n);
            && r == t.(operations := r.operations, counts := r.counts)
            && (forall i :: 0 <= i < |r.operations| ==>
                  r.operations[i] == t.operations[i] || r.operations[i] == t.operations[i].(args := []))
            && (fits(r) || forall i :: 0 <= i < n ==> r.operations[i].args == [])
            && (forall i :: n <= i < |r.operations| ==> r.operations[i] == t.operations[i])
            && (fits(t) ==> r == t)
    decreases n
  {
    if n > 0 && !fits(t) {
      StripArgsKeeps(fits, WithoutArgs(t, n - 1), n - 1);
    }
  }

  lemma {:induction false} StripArgsCounts(fits: Stop, t: Trace, n: nat)
    requires n <= |t.operations|
    ensures var r := StripArgs(fits, t, n);
            && WithResult(r.operations) == WithResult(t.operations)
            && WithArgs(r.operations) <= WithArgs(t.operations)
            && var emptied := WithArgs(t.operations) - WithArgs(r.operations);
            r.counts == AddDropped(t, emptied, emptied, 0)
    decreases n
  {
    hide WithResult; hide WithArgs;
    if n > 0 && !fits(t) {
      CarryUpdate(t.operations, n - 1, t.operations[n - 1].(args := []));
      StripArgsCounts(fits, WithoutArgs(t, n - 1), n - 1);
    }
  }

  lemma {:induction false} PopOperationsLaw(fits: Stop, t: Trace)
    ensures var r := PopOperations(fits, t);
            && |r.operations| <= |t.operations|
            && r == t.(operations := t.operations[..|r.operations|],
                       counts := AddDropped(t, 0, 0, |t.operations| - |r.operations|))
            && (fits(r) || r.operations == [])
            && (fits(t) ==> r == t)
    decreases |t.operations|
  {
    if t.operations == [] || fits(t) {
      assert t.operations[..|t.operations|] == t.operations;
    } else {
      var u := WithoutLastOperation(t);
      PopOperationsLaw(fits, u);
      assert u.operations[..|PopOperations(fits, u).operations|] == t.operations[..|PopOperations(fits, u).operations|];
    }
  }

  lemma {:induction false} PopPhasesLaw(fits: Stop, t: Trace)
    ensures var r := PopPhases(fits, t);
            && |r.phases| <= |t.phases|
            && r == t.(phases := t.phases[..|r.phases|], counts := AddDropped(t, |t.phases| - |r.phases|, 0, 0))
            && (fits(r) || r.phases == [])
            && (fits(t) ==> r == t)
    decreases |t.phases|
  {
    if t.phases == [] || fits(t) {
      assert t.phases[..|t.phases|] == t.phases;
    } else {
      var u := WithoutLastPhase(t);
      PopPhasesLaw(fits, u);
      assert u.phases[..|PopPhases(fits, u).phases|] == t.phases[..|PopPhases(fits, u).phases|];
    }
  }

  lemma StrippedKeeps(fits: Stop, t: Trace)
    ensures var s := Stripped(fits, t);
            && s == t.(operations := s.operations, counts := s.counts)
            && (forall i :: 0 <= i < |s.operations| ==> Keeps(s.operations[i], t.operations[i]))
            && (fits(s) || Bare(s.operations))
            && (fits(t) ==> s == t)
  {
    var n := |t.operations|;
    StripResultsKeeps(fits, t, n);
    StripArgsKeeps(fits, StripResults(fits, t, n), n);
  }

  lemma StrippedCounts(fits: Stop, t: Trace)
    ensures var s := Stripped(fits, t);
            && WithResult(s.operations) <= WithResult(t.operations)
            && WithArgs(s.operations) <= WithArgs(t.operations)
            && var results := WithResult(t.operations) - WithResult(s.operations);
            var emptied := WithArgs(t.operations) - WithArgs(s.operations);
            && s.counts == AddDropped(t, results + emptied, emptied, 0)
            && (emptied > 0 ==> forall i :: 0 <= i < |s.operations| ==> s.operations[i].result.None?)
  {
    hide WithResult; hide WithArgs; hide StripResults; hide StripArgs;
    var n := |t.operations|;
    var m := StripResults(fits, t, n);
    StripResultsCounts(fits, t, n);
    StripArgsCounts(fits, m, n);
    StripResultsKeeps(fits, t, n);
    StripArgsKeeps(fits, m, n);
  }

  // ----- the whole trimming -----

  predicate CountsSafe(c: Counts) {
    && c.droppedValues <= MAX_SAFE_INTEGER && c.truncatedValues <= MAX_SAFE_INTEGER
    && c.redactedValues <= MAX_SAFE_INTEGER && c.droppedOperations <= MAX_SAFE_INTEGER
  }

  /** Operations stay a prefix of the recorded ones in their order, each whole or stripped, and every
      one that goes is counted. Nothing else changes. */
  lemma TrimmedKeepsOperations(fits: Stop, t: Trace)
    ensures var r := TrimmedWhile(fits, t);
            && |r.operations| <= |t.operations|
            && (forall i :: 0 <= i < |r.operations| ==> Keeps(r.operations[i], t.operations[i]))
            && |r.operations| + r.counts.droppedOperations == |t.operations| + t.counts.droppedOperations
            && |r.phases| <= |t.phases| && r.phases == t.phases[..|r.phases|]
            && r.outcome == t.outcome && r.error == t.error
            && r.counts.redactedValues == t.counts.redactedValues
  {
    hide WithResult; hide WithArgs; hide Stripped; hide PopOperations; hide PopPhases; hide Keeps;
    var s := Stripped(fits, t);
    StrippedKeeps(fits, t);
    StrippedCounts(fits, t);
    PopOperationsLaw(fits, s);
    PopPhasesLaw(fits, PopOperations(fits, s));
    assert t.phases[..|t.phases|] == t.phases;
  }

  /** Every value that goes is counted once: a result, an argument object (which also counts as a
      truncation) or a phase; values that leave with a popped operation were counted before it. */
  lemma TrimmedCountsValues(fits: Stop, t: Trace)
    ensures var r := TrimmedWhile(fits, t);
            && var results := WithResult(t.operations) - WithResult(r.operations);
            && var emptied := WithArgs(t.operations) - WithArgs(r.operations);
            && r.counts.droppedValues == t.counts.droppedValues + results + emptied + |t.phases| - |r.phases|
            && r.counts.truncatedValues == t.counts.truncatedValues + emptied
  {
    hide WithResult; hide WithArgs; hide Stripped; hide PopOperations; hide PopPhases;
    var s := Stripped(fits, t);
    StrippedKeeps(fits, t);
    StrippedCounts(fits, t);
    PopOperationsLaw(fits, s);
    var p := PopOperations(fits, s);
    PopPhasesLaw(fits, p);
    if !fits(s) {
      BareCarriesNothing(s.operations);
      BareCarriesNothing(p.operations);
    }
  }

  /** Content goes in order of importance: a trace that fits is untouched, arguments go only once no
      result is left, operations only once none carries anything, phases only once none is left. */
  lemma TrimmedPriorities(fits: Stop, t: Trace)
    ensures var r := TrimmedWhile(fits, t);
            && (fits(t) ==> r == t)
            && (WithArgs(r.operations) < WithArgs(t.operations) ==>
                  forall i :: 0 <= i < |r.operations| ==> r.operations[i].result.None?)
            && (|r.operations| < |t.operations| ==> Bare(r.operations))
            && (|r.phases| < |t.phases| ==> r.operations == [])
  {
    hide WithResult; hide WithArgs; hide Stripped; hide PopOperations; hide PopPhases; hide Keeps;
    var s := Stripped(fits, t);
    StrippedKeeps(fits, t);
    StrippedCounts(fits, t);
    PopOperationsLaw(fits, s);
    PopPhasesLaw(fits, PopOperations(fits, s));
  }

  lemma TrimmedStops(fits: Stop, t: Trace)
    ensures var r := TrimmedWhile(fits, t); fits(r) || (r.operations == [] && r.phases == [])
  {
    var s := Stripped(fits, t);
    PopOperationsLaw(fits, s);
    PopPhasesLaw(fits, PopOperations(fits, s));
  }

  lemma {:induction false} DigitsBelow(n: nat, k: nat)
    requires k >= 1 && n < Pow10(k)
    ensures Digits(n) <= k
  {
    if n >= 10 {
      DigitsBelow(n / 10, k - 1);
    }
  }

  function Pow10(k: nat): nat { if k == 0 then 1 else 10 * Pow10(k - 1) }

  lemma SafeDigits(n: nat)
    requires n <= MAX_SAFE_INTEGER
    ensures Digits(n) <= 16
  {
    assert Pow10(4) == 10_000;
    assert Pow10(8) == 100_000_000;
    assert Pow10(12) == 1_000_000_000_000;
    assert Pow10(16) == 10_000_000_000_000_000;
    DigitsBelow(n, 16);
  }

  predicate EntryWithin(e: Entry, keyUnits: nat, valueBytes: nat) {
    |e.key| <= keyUnits && (e.value.Some? ==> Bytes(e.value.value) <= valueBytes)
  }

  lemma EntryBound(e: Entry, keyUnits: nat, valueBytes: nat)
    requires EntryWithin(e, keyUnits, valueBytes)
    ensures EntryBytes(e) <= 3 + 6 * keyUnits + valueBytes
  {
  }

  lemma FourEntriesBound(e: seq<Entry>, keyUnits: nat, valueBytes: nat)
    requires |e| == 4 && forall i :: 0 <= i < 4 ==> EntryWithin(e[i], keyUnits, valueBytes)
    ensures SumEntries(e) <= 4 * (3 + 6 * keyUnits + valueBytes) && CountPresent(e) <= 4
  {
    assert e == [e[0], e[1], e[2], e[3]];
    SumEntriesFour(e[0], e[1], e[2], e[3]);
    EntryBound(e[0], keyUnits, valueBytes);
    EntryBound(e[1], keyUnits, valueBytes);
    EntryBound(e[2], keyUnits, valueBytes);
    EntryBound(e[3], keyUnits, valueBytes);
  }

  lemma ThreeEntriesBound(e: seq<Entry>, keyUnits: nat, first: nat, second: nat, third: nat)
    requires |e| == 3 && EntryWithin(e[0], keyUnits, first)
    requires EntryWithin(e[1], keyUnits, second) && EntryWithin(e[2], keyUnits, third)
    ensures SumEntries(e) <= 3 * (3 + 6 * keyUnits) + first + second + third && CountPresent(e) <= 3
  {
    assert e == [e[0]] + ([e[1]] + [e[2]]);
    SumEntriesAppend([e[0]], [e[1]] + [e[2]]);
    SumEntriesAppend([e[1]], [e[2]]);
    SumEntriesOne(e[0]); SumEntriesOne(e[1]); SumEntriesOne(e[2]);
    EntryBound(e[0], keyUnits, first);
    EntryBound(e[1], keyUnits, second);
    EntryBound(e[2], keyUnits, third);
  }

  lemma CountsBound(c: Counts)
    requires CountsSafe(c)
    ensures Bytes(CountsJson(c)) <= 600
  {
    SafeDigits(c.droppedValues);
    SafeDigits(c.truncatedValues);
    SafeDigits(c.redactedValues);
    SafeDigits(c.droppedOperations);
    FourEntriesBound(CountsEntries(c), 17, 16);
    ObjectBytesSum(CountsEntries(c));
  }

  lemma TextBound(t: Text)
    ensures Bytes(Str(t)) <= 2 + 6 * |t|
  {
  }

  /** With its operations and phases gone, what is left of a trace is small. */
  lemma EmptyTraceBound(t: Trace)
    requires t.operations == [] && t.phases == [] && CountsSafe(t.counts)
    requires t.error.Some? ==> Utf8(t.error.value) <= MAX_ERROR_BYTES
    ensures TraceBytes(t) <= 51000
  {
    EmptyTraceHead(t);
    EmptyTraceTail(t);
    var e := TraceEntries(t);
    ObjectBytesSum(e);
    SevenEntriesBound(e, 10, 122, 2, 600, 49154);
  }

  lemma SevenEntriesBound(e: seq<Entry>, keyUnits: nat, rest: nat, fifth: nat, sixth: nat, seventh: nat)
    requires |e| == 7 && (forall i :: 0 <= i < 4 ==> EntryWithin(e[i], keyUnits, rest))
    requires EntryWithin(e[4], keyUnits, fifth) && EntryWithin(e[5], keyUnits, sixth) && EntryWithin(e[6], keyUnits, seventh)
    ensures SumEntries(e) <= 7 * (3 + 6 * keyUnits) + 4 * rest + fifth + sixth + seventh && CountPresent(e) <= 7
  {
    FourEntriesBound(e[..4], keyUnits, rest);
    ThreeEntriesBound(e[4..], keyUnits, fifth, sixth, seventh);
    assert e == e[..4] + e[4..];
    SumEntriesAppend(e[..4], e[4..]);
  }

  lemma EmptyTraceHead(t: Trace)
    requires t.phases == []
    ensures forall i :: 0 <= i < 4 ==> EntryWithin(TraceEntries(t)[i], 10, 122)
  {
    var e := TraceEntries(t);
    forall i | 0 <= i < 4
      ensures EntryWithin(TraceEntries(t)[i], 10, 122)
    {
      if i == 1 {
        VersionEntryWithin(e[i]);
      } else if i == 3 {
        assert Phases(t.phases) == [];
        EmptyEntryWithin(e[i]);
      } else {
        TextEntryWithin(e[i], if i == 0 then TRACE_KIND else OutcomeText(t.outcome));
      }
    }
  }

  lemma EmptyTraceTail(t: Trace)
    requires t.operations == [] && CountsSafe(t.counts)
    requires t.error.Some? ==> Utf8(t.error.value) <= MAX_ERROR_BYTES
    ensures var e := TraceEntries(t);
            EntryWithin(e[4], 10, 2) && EntryWithin(e[5], 10, 600) && EntryWithin(e[6], 10, 49154)
  {
    var e := TraceEntries(t);
    assert Operations(t.operations) == [];
    EmptyEntryWithin(e[4]);
    CountsEntryWithin(e[5], t.counts);
    ErrorEntryWithin(e[6], t.error);
  }

  lemma VersionEntryWithin(e: Entry)
    requires |e.key| <= 10 && e.value == Some(Int(1))
    ensures EntryWithin(e, 10, 122)
  {
  }

  lemma CountsEntryWithin(e: Entry, c: Counts)
    requires |e.key| <= 10 && e.value == Some(CountsJson(c)) && CountsSafe(c)
    ensures EntryWithin(e, 10, 600)
  {
    CountsBound(c);
  }

  lemma ErrorEntryWithin(e: Entry, error: Option<Text>)
    requires |e.key| <= 10 && e.value == OptionalText(error)
    requires error.Some? ==> Utf8(error.value) <= MAX_ERROR_BYTES
    ensures EntryWithin(e, 10, 49154)
  {
    if error.Some? { TextBound(error.value); }
  }

  lemma TextEntryWithin(e: Entry, text: Text)
    requires |e.key| <= 10 && e.value == Some(Str(text)) && |text| <= 20
    ensures EntryWithin(e, 10, 122)
  {
    TextBound(text);
  }

  lemma EmptyEntryWithin(e: Entry)
    requires |e.key| <= 10 && e.value == Some(Arr([]))
    ensures EntryWithin(e, 10, 2)
  {
  }

  /** While the counters are safe integers the sealed trace is within its bound. */
  lemma SafelyTrimmedFits(t: Trace)
    requires CountsSafe(Trimmed(t).counts)
    requires t.error.Some? ==> Utf8(t.error.value) <= MAX_ERROR_BYTES
    ensures Fits(Trimmed(t))
  {
    TrimmedStops(Fits, t);
    TrimmedKeepsOperations(Fits, t);
    if !Fits(Trimmed(t)) {
      EmptyTraceBound(Trimmed(t));
    }
  }

  // ----- bounds on the counters that are known before trimming -----

  /** The counters if everything went. */
  function WorstCounts(t: Trace): Counts { AddDropped(t, 2 * |t.operations| + |t.phases|, |t.operations|, |t.operations|) }

  predicate CountsAtMost(c: Counts, d: Counts) {
    && c.droppedValues <= d.droppedValues && c.truncatedValues <= d.truncatedValues
    && c.redactedValues <= d.redactedValues && c.droppedOperations <= d.droppedOperations
  }

  lemma {:induction false} CarryAtMost(ops: seq<Operation>)
    ensures WithResult(ops) <= |ops| && WithArgs(ops) <= |ops|
  {
    if ops != [] { CarryAtMost(ops[..|ops| - 1]); }
  }

  lemma {:induction false} KeptCarryLess(kept: seq<Operation>, ops: seq<Operation>)
    requires |kept| <= |ops| && forall i :: 0 <= i < |kept| ==> Keeps(kept[i], ops[i])
    ensures WithResult(kept) <= WithResult(ops) && WithArgs(kept) <= WithArgs(ops)
    decreases |ops|
  {
    var n := |ops| - 1;
    if |kept| == |ops| && ops != [] {
      assert Keeps(kept[n], ops[n]);
      KeptCarryLess(kept[..n], ops[..n]);
    } else if ops != [] {
      assert forall i :: 0 <= i < |kept| ==> ops[..n][i] == ops[i];
      KeptCarryLess(kept, ops[..n]);
    }
  }

  /** Trimming only raises the counters, and never beyond what they would be if everything went. */
  lemma TrimmedCountsWithin(fits: Stop, t: Trace)
    ensures CountsAtMost(t.counts, TrimmedWhile(fits, t).counts) && CountsAtMost(TrimmedWhile(fits, t).counts, WorstCounts(t))
  {
    hide WithResult; hide WithArgs; hide TrimmedWhile;
    TrimmedKeepsOperations(fits, t);
    TrimmedCountsValues(fits, t);
    CarryAtMost(t.operations);
    KeptCarryLess(TrimmedWhile(fits, t).operations, t.operations);
  }

  /** What is written of the sealed trace is within its bound whenever the counters would be safe integers even if
      everything went. */
  lemma TrimmedFits(t: Trace)
    requires CountsSafe(WorstCounts(t))
    requires t.error.Some? ==> Utf8(t.error.value) <= MAX_ERROR_BYTES
    ensures Fits(Trimmed(t)) && |Written(TraceJson(Trimmed(t)))| <= TRACE_MAX_BYTES
  {
    hide TrimmedWhile; hide TraceJson; hide Bytes;
    TrimmedCountsWithin(Fits, t);
    SafelyTrimmedFits(t);
    BytesCountsWritten(TraceJson(Trimmed(t)));
  }
}
