/** The durable execution trace, its JSON form, and the trimming that seals it under its byte bound. */
module Trace {
  import opened Common
  import opened Json
  import opened Serialized

  const TRACE_MAX_BYTES := 512 * 1024
  const MAX_ERROR_BYTES := 8 * 1024
  const MAX_SAFE_INTEGER := 9007199254740991

  datatype Outcome = Succeeded | Failed | Aborted | TimedOut

  datatype Stage = Resolve | Prepare | Validate | Approve | Invoke | Guard

  datatype Operation = Operation(
    sequence: nat, ref: Text, provider: Option<Text>, action: Option<Text>, args: seq<Field>,
    outcome: Outcome, failureStage: Option<Stage>, error: Option<Text>, result: Option<Value>,
    resultTruncated: bool)

  datatype Counts = Counts(droppedValues: nat, truncatedValues: nat, redactedValues: nat, droppedOperations: nat)

  datatype Trace = Trace(
    outcome: Outcome, phases: seq<Text>, operations: seq<Operation>, counts: Counts, error: Option<Text>)

  // ----- JSON form -----

  function OutcomeText(o: Outcome): Text {
    match o
    case Succeeded => Chars("succeeded")
    case Failed => Chars("failed")
    case Aborted => Chars("aborted")
    case TimedOut => Chars("timed_out")
  }

  function StageText(s: Stage): Text {
    match s
    case Resolve => Chars("resolve")
    case Prepare => Chars("prepare")
    case Validate => Chars("validate")
    case Approve => Chars("approve")
    case Invoke => Chars("invoke")
    case Guard => Chars("guard")
  }

  function OptionalText(t: Option<Text>): Option<Value> { if t.Some? then Some(Str(t.value)) else None }

  const TYPE_KEY := Chars("type")
  const SEQUENCE_KEY := Chars("sequence")
  const REF_KEY := Chars("ref")
  const PROVIDER_KEY := Chars("provider")
  const ACTION_KEY := Chars("action")
  const ARGS_KEY := Chars("args")
  const OUTCOME_KEY := Chars("outcome")
  const STAGE_KEY := Chars("failureStage")
  const ERROR_KEY := Chars("error")
  const RESULT_KEY := Chars("result")
  const TRUNCATED_KEY := Chars("resultTruncated")
  const KIND_KEY := Chars("kind")
  const VERSION_KEY := Chars("version")
  const PHASES_KEY := Chars("phases")
  const OPERATIONS_KEY := Chars("operations")
  const COUNTS_KEY := Chars("counts")
  const DROPPED_VALUES_KEY := Chars("droppedValues")
  const TRUNCATED_VALUES_KEY := Chars("truncatedValues")
  const REDACTED_VALUES_KEY := Chars("redactedValues")
  const DROPPED_OPERATIONS_KEY := Chars("droppedOperations")

  const CALL: Text := Chars("call")
  const TRACE_KIND: Text := Chars("omp-fabric.execution")
  const TRACE_VERSION := 1

  const OPERATION_MEMBERS := 11

  function OperationEntry(op: Operation, i: nat): Entry
    requires i < OPERATION_MEMBERS
  {
    match i
    case 0 => Entry(TYPE_KEY, Some(Str(CALL)))
    case 1 => Entry(SEQUENCE_KEY, Some(Int(op.sequence)))
    case 2 => Entry(REF_KEY, Some(Str(op.ref)))
    case 3 => Entry(PROVIDER_KEY, OptionalText(op.provider))
    case 4 => Entry(ACTION_KEY, OptionalText(op.action))
    case 5 => Entry(ARGS_KEY, Some(Obj(op.args)))
    case 6 => Entry(OUTCOME_KEY, Some(Str(OutcomeText(op.outcome))))
    case 7 => Entry(STAGE_KEY, if op.failureStage.Some? then Some(Str(StageText(op.failureStage.value))) else None)
    case 8 => Entry(ERROR_KEY, OptionalText(op.error))
    case 9 => Entry(RESULT_KEY, op.result)
    case 10 => Entry(TRUNCATED_KEY, if op.resultTruncated then Some(Bool(true)) else None)
  }

  function OperationEntries(op: Operation): seq<Entry> {
    seq(OPERATION_MEMBERS, i requires 0 <= i < OPERATION_MEMBERS => OperationEntry(op, i))
  }

  function OperationJson(op: Operation): Value { Obj(Present(OperationEntries(op))) }

  const COUNTS_MEMBERS := 4

  function CountsEntry(c: Counts, i: nat): Entry
    requires i < COUNTS_MEMBERS
  {
    match i
    case 0 => Entry(DROPPED_VALUES_KEY, Some(Int(c.droppedValues)))
    case 1 => Entry(TRUNCATED_VALUES_KEY, Some(Int(c.truncatedValues)))
    case 2 => Entry(REDACTED_VALUES_KEY, Some(Int(c.redactedValues)))
    case 3 => Entry(DROPPED_OPERATIONS_KEY, Some(Int(c.droppedOperations)))
  }

  function CountsEntries(c: Counts): seq<Entry> {
    seq(COUNTS_MEMBERS, i requires 0 <= i < COUNTS_MEMBERS => CountsEntry(c, i))
  }

  function CountsJson(c: Counts): Value { Obj(Present(CountsEntries(c))) }

  function Phases(phases: seq<Text>): seq<Value> { seq(|phases|, i requires 0 <= i < |phases| => Str(phases[i])) }

  function Operations(ops: seq<Operation>): seq<Value> {
    seq(|ops|, i requires 0 <= i < |ops| => OperationJson(ops[i]))
  }

  const TRACE_MEMBERS := 7

  function TraceEntry(t: Trace, i: nat): Entry
    requires i < TRACE_MEMBERS
  {
    match i
    case 0 => Entry(KIND_KEY, Some(Str(TRACE_KIND)))
    case 1 => Entry(VERSION_KEY, Some(Int(TRACE_VERSION)))
    case 2 => Entry(OUTCOME_KEY, Some(Str(OutcomeText(t.outcome))))
    case 3 => Entry(PHASES_KEY, Some(Arr(Phases(t.phases))))
    case 4 => Entry(OPERATIONS_KEY, Some(Arr(Operations(t.operations))))
    case 5 => Entry(COUNTS_KEY, Some(CountsJson(t.counts)))
    case 6 => Entry(ERROR_KEY, OptionalText(t.error))
  }

  function TraceEntries(t: Trace): seq<Entry> {
    seq(TRACE_MEMBERS, i requires 0 <= i < TRACE_MEMBERS => TraceEntry(t, i))
  }

  function TraceJson(t: Trace): Value { Obj(Present(TraceEntries(t))) }

  /** The size of the whole trace, serialized afresh. */
  function TraceBytes(t: Trace): nat { Bytes(TraceJson(t)) }

  // ----- trimming, by re-serializing the whole trace at every step -----

  predicate Fits(t: Trace) { TraceBytes(t) <= TRACE_MAX_BYTES }

  // The trimming is a function of the test it stops at.
  type Stop = Trace -> bool

  function AddDropped(t: Trace, values: nat, truncated: nat, operations: nat): Counts {
    Counts(t.counts.droppedValues + values, t.counts.truncatedValues + truncated, t.counts.redactedValues,
           t.counts.droppedOperations + operations)
  }

  function WithoutResult(t: Trace, i: nat): Trace
    requires i < |t.operations|
  {
    if t.operations[i].result.None? then t
    else t.(operations := t.operations[i := t.operations[i].(result := None)], counts := AddDropped(t, 1, 0, 0))
  }

  function WithoutArgs(t: Trace, i: nat): Trace
    requires i < |t.operations|
  {
    if t.operations[i].args == [] then t
    else t.(operations := t.operations[i := t.operations[i].(args := [])], counts := AddDropped(t, 1, 1, 0))
  }

  function WithoutLastOperation(t: Trace): Trace
    requires t.operations != []
  {
    t.(operations := t.operations[..|t.operations| - 1], counts := AddDropped(t, 0, 0, 1))
  }

  function WithoutLastPhase(t: Trace): Trace
    requires t.phases != []
  {
    t.(phases := t.phases[..|t.phases| - 1], counts := AddDropped(t, 1, 0, 0))
  }

  /** Deletes results from operation n - 1 downwards until the trace fits. */
  function StripResults(fits: Stop, t: Trace, n: nat): (r: Trace)
    requires n <= |t.operations|
    ensures |r.operations| == |t.operations|
    decreases n
  {
    if n == 0 || fits(t) then t else StripResults(fits, WithoutResult(t, n - 1), n - 1)
  }

  function StripArgs(fits: Stop, t: Trace, n: nat): (r: Trace)
    requires n <= |t.operations|
    ensures |r.operations| == |t.operations|
    decreases n
  {
    if n == 0 || fits(t) then t else StripArgs(fits, WithoutArgs(t, n - 1), n - 1)
  }

  function PopOperations(fits: Stop, t: Trace): Trace
    decreases |t.operations|
  {
    if t.operations == [] || fits(t) then t else PopOperations(fits, WithoutLastOperation(t))
  }

  function PopPhases(fits: Stop, t: Trace): Trace
    decreases |t.phases|
  {
    if t.phases == [] || fits(t) then t else PopPhases(fits, WithoutLastPhase(t))
  }

  function Stripped(fits: Stop, t: Trace): (r: Trace)
    ensures |r.operations| == |t.operations|
  {
    var s := StripResults(fits, t, |t.operations|);
    StripArgs(fits, s, |s.operations|)
  }

  function TrimmedWhile(fits: Stop, t: Trace): Trace { PopPhases(fits, PopOperations(fits, Stripped(fits, t))) }

  function Trimmed(t: Trace): Trace { TrimmedWhile(Fits, t) }

  // ----- trimming as it runs, tracking the size incrementally -----

  lemma OperationsUpdate(ops: seq<Operation>, i: nat, op: Operation)
    requires i < |ops|
    ensures Bytes(Arr(Operations(ops[i := op])))
         == Bytes(Arr(Operations(ops))) - Bytes(OperationJson(ops[i])) + Bytes(OperationJson(op))
  {
    assert Operations(ops[i := op]) == Operations(ops)[i := OperationJson(op)];
    SumItemsUpdate(Operations(ops), i, OperationJson(op));
  }

  lemma ArrayPop(items: seq<Value>)
    requires items != []
    ensures var n := |items| - 1;
            Bytes(Arr(items[..n])) == Bytes(Arr(items)) - Bytes(items[n]) - (if n > 0 then 1 else 0)
  {
  }

  /** The size of a trace moves by the changes of its phases, its operations and its counts. */
  lemma TraceBytesChange(t: Trace, phases: seq<Text>, operations: seq<Operation>, counts: Counts)
    ensures TraceBytes(t.(phases := phases, operations := operations, counts := counts))
         == TraceBytes(t)
            + Bytes(Arr(Phases(phases))) - Bytes(Arr(Phases(t.phases)))
            + Bytes(Arr(Operations(operations))) - Bytes(Arr(Operations(t.operations)))
            + Bytes(CountsJson(counts)) - Bytes(CountsJson(t.counts))
  {
    var e := TraceEntries(t);
    var u := t.(phases := phases, operations := operations, counts := counts);
    var e1 := e[3 := Entry(PHASES_KEY, Some(Arr(Phases(phases))))];
    var e2 := e1[4 := Entry(OPERATIONS_KEY, Some(Arr(Operations(operations))))];
    var e3 := e2[5 := Entry(COUNTS_KEY, Some(CountsJson(counts)))];
    assert e3 == TraceEntries(u);
    ObjectBytesUpdate(e, 3, Arr(Phases(phases)));
    ObjectBytesUpdate(e1, 4, Arr(Operations(operations)));
    ObjectBytesUpdate(e2, 5, CountsJson(counts));
  }

  /** adjustMutation: one operation rewritten and the counts bumped. */
  lemma MutationBytes(t: Trace, i: nat, op: Operation, counts: Counts)
    requires i < |t.operations|
    ensures TraceBytes(t.(operations := t.operations[i := op], counts := counts))
         == TraceBytes(t) + Bytes(OperationJson(op)) - Bytes(OperationJson(t.operations[i]))
            + Bytes(CountsJson(counts)) - Bytes(CountsJson(t.counts))
  {
    TraceBytesChange(t, t.phases, t.operations[i := op], counts);
    OperationsUpdate(t.operations, i, op);
  }

  lemma PopOperationBytes(t: Trace)
    requires t.operations != []
    ensures
      var n := |t.operations| - 1;
      TraceBytes(WithoutLastOperation(t))
      == TraceBytes(t) - Bytes(OperationJson(t.operations[n])) - (if n > 0 then 1 else 0)
         + Bytes(CountsJson(AddDropped(t, 0, 0, 1))) - Bytes(CountsJson(t.counts))
  {
    var n := |t.operations| - 1;
    TraceBytesChange(t, t.phases, t.operations[..n], AddDropped(t, 0, 0, 1));
    assert Operations(t.operations)[..n] == Operations(t.operations[..n]);
    ArrayPop(Operations(t.operations));
  }

  lemma PopPhaseBytes(t: Trace)
    requires t.phases != []
    ensures
      var n := |t.phases| - 1;
      TraceBytes(WithoutLastPhase(t))
      == TraceBytes(t) - Bytes(Str(t.phases[n])) - (if n > 0 then 1 else 0)
         + Bytes(CountsJson(AddDropped(t, 1, 0, 0))) - Bytes(CountsJson(t.counts))
  {
    var n := |t.phases| - 1;
    TraceBytesChange(t, t.phases[..n], t.operations, AddDropped(t, 1, 0, 0));
    assert Phases(t.phases)[..n] == Phases(t.phases[..n]);
    ArrayPop(Phases(t.phases));
  }

  // In each loop below the running total is the true size after every iteration, so the loop stops
  // exactly where re-serializing the whole trace each time would stop it.

  method StripResultsLoop(full: Trace, fullBytes: int) returns (trace: Trace, traceBytes: int)
    requires fullBytes == TraceBytes(full)
    ensures trace == StripResults(Fits, full, |full.operations|) && traceBytes == TraceBytes(trace)
  {
    trace, traceBytes := full, fullBytes;
    var index := |trace.operations| - 1;
    while traceBytes > TRACE_MAX_BYTES && index >= 0
      invariant -1 <= index < |trace.operations| && |trace.operations| == |full.operations|
      invariant traceBytes == TraceBytes(trace)
      invariant StripResults(Fits, trace, index + 1) == StripResults(Fits, full, |full.operations|)
      decreases index
    {
      var operation := trace.operations[index];
      if operation.result.Some? {
        var stripped := operation.(result := None);
        var counts := AddDropped(trace, 1, 0, 0);
        MutationBytes(trace, index, stripped, counts);
        traceBytes := traceBytes + Bytes(OperationJson(stripped)) - Bytes(OperationJson(operation))
                    + Bytes(CountsJson(counts)) - Bytes(CountsJson(trace.counts));
        trace := trace.(operations := trace.operations[index := stripped], counts := counts);
      }
      index := index - 1;
    }
  }

  method StripArgsLoop(full: Trace, fullBytes: int) returns (trace: Trace, traceBytes: int)
    requires fullBytes == TraceBytes(full)
    ensures trace == StripArgs(Fits, full, |full.operations|) && traceBytes == TraceBytes(trace)
  {
    trace, traceBytes := full, fullBytes;
    var index := |trace.operations| - 1;
    while traceBytes > TRACE_MAX_BYTES && index >= 0
      invariant -1 <= index < |trace.operations| && |trace.operations| == |full.operations|
      invariant traceBytes == TraceBytes(trace)
      invariant StripArgs(Fits, trace, index + 1) == StripArgs(Fits, full, |full.operations|)
      decreases index
    {
      var operation := trace.operations[index];
      if operation.args != [] {
        var stripped := operation.(args := []);
        var counts := AddDropped(trace, 1, 1, 0);
        MutationBytes(trace, index, stripped, counts);
        traceBytes := traceBytes + Bytes(OperationJson(stripped)) - Bytes(OperationJson(operation))
                    + Bytes(CountsJson(counts)) - Bytes(CountsJson(trace.counts));
        trace := trace.(operations := trace.operations[index := stripped], counts := counts);
      }
      index := index - 1;
    }
  }

  method PopOperationsLoop(full: Trace, fullBytes: int) returns (trace: Trace, traceBytes: int)
    requires fullBytes == TraceBytes(full)
    ensures trace == PopOperations(Fits, full) && traceBytes == TraceBytes(trace)
  {
    trace, traceBytes := full, fullBytes;
    while traceBytes > TRACE_MAX_BYTES && |trace.operations| > 0
      invariant traceBytes == TraceBytes(trace)
      invariant PopOperations(Fits, trace) == PopOperations(Fits, full)
      decreases |trace.operations|
    {
      PopOperationBytes(trace);
      var operation := trace.operations[|trace.operations| - 1];
      var counts := AddDropped(trace, 0, 0, 1);
      traceBytes := traceBytes - Bytes(OperationJson(operation));
      if |trace.operations| > 1 { traceBytes := traceBytes - 1; }
      traceBytes := traceBytes + Bytes(CountsJson(counts)) - Bytes(CountsJson(trace.counts));
      trace := trace.(operations := trace.operations[..|trace.operations| - 1], counts := counts);
    }
  }

  method PopPhasesLoop(full: Trace, fullBytes: int) returns (trace: Trace, traceBytes: int)
    requires fullBytes == TraceBytes(full)
    ensures trace == PopPhases(Fits, full) && traceBytes == TraceBytes(trace)
  {
    trace, traceBytes := full, fullBytes;
    while traceBytes > TRACE_MAX_BYTES && |trace.phases| > 0
      invariant traceBytes == TraceBytes(trace)
      invariant PopPhases(Fits, trace) == PopPhases(Fits, full)
      decreases |trace.phases|
    {
      PopPhaseBytes(trace);
      var phase := trace.phases[|trace.phases| - 1];
      var counts := AddDropped(trace, 1, 0, 0);
      traceBytes := traceBytes - Bytes(Str(phase));
      if |trace.phases| > 1 { traceBytes := traceBytes - 1; }
      traceBytes := traceBytes + Bytes(CountsJson(counts)) - Bytes(CountsJson(trace.counts));
      trace := trace.(phases := trace.phases[..|trace.phases| - 1], counts := counts);
    }
  }

  /** The whole trimming, from one serialization of the untrimmed trace. */
  method TrimToFit(full: Trace) returns (trace: Trace)
    ensures trace == Trimmed(full)
    ensures |Written(TraceJson(full))| <= TRACE_MAX_BYTES ==> trace == full
  {
    BytesCountsWritten(TraceJson(full));
    var traceBytes := TraceBytes(full);
    trace, traceBytes := StripResultsLoop(full, traceBytes);
    trace, traceBytes := StripArgsLoop(trace, traceBytes);
    trace, traceBytes := PopOperationsLoop(trace, traceBytes);
    trace, traceBytes := PopPhasesLoop(trace, traceBytes);
  }
}
