/** Reading a trace back: the structural check that decides whether a JSON value is a trace. */
module Validator {
  import opened Common
  import opened Json
  import Serialized
  import opened Trace
  import opened Sanitize
  import opened Trimming

  const OPERATION_KEYS: seq<Text> := [
    TYPE_KEY, SEQUENCE_KEY, REF_KEY, PROVIDER_KEY, ACTION_KEY, ARGS_KEY, OUTCOME_KEY, STAGE_KEY, ERROR_KEY,
    RESULT_KEY, TRUNCATED_KEY]
  const TRACE_KEYS: seq<Text> := [
    KIND_KEY, VERSION_KEY, OUTCOME_KEY, PHASES_KEY, OPERATIONS_KEY, COUNTS_KEY, ERROR_KEY]
  const COUNT_KEYS: seq<Text> := [
    DROPPED_VALUES_KEY, TRUNCATED_VALUES_KEY, REDACTED_VALUES_KEY, DROPPED_OPERATIONS_KEY]

  predicate HasOnlyKeys(fields: seq<Field>, keys: seq<Text>) {
    forall i :: 0 <= i < |fields| ==> fields[i].key in keys
  }

  predicate IsSafeCount(v: Option<Value>) { v.Some? && v.value.Int? && 0 <= v.value.n <= MAX_SAFE_INTEGER }

  predicate IsText(v: Option<Value>) { v.Some? && v.value.Str? }

  predicate IsOptionalText(v: Option<Value>) { v.Some? ==> v.value.Str? }

  predicate IsOutcome(v: Option<Value>) {
    IsText(v) && v.value.text in [OutcomeText(Succeeded), OutcomeText(Failed), OutcomeText(Aborted), OutcomeText(TimedOut)]
  }

  predicate IsOptionalStage(v: Option<Value>) {
    v.Some? ==>
      && v.value.Str?
      && v.value.text in [StageText(Resolve), StageText(Prepare), StageText(Validate), StageText(Approve),
                          StageText(Invoke), StageText(Guard)]
  }

  predicate IsOperationFields(f: seq<Field>) {
    && HasOnlyKeys(f, OPERATION_KEYS)
    && Get(f, TYPE_KEY) == Some(Str(CALL))
    && IsSafeCount(Get(f, SEQUENCE_KEY))
    && IsText(Get(f, REF_KEY))
    && (var args := Get(f, ARGS_KEY); args.Some? && args.value.Obj? && IsJsonValue(args.value, 0))
    && IsOutcome(Get(f, OUTCOME_KEY))
    && IsOptionalText(Get(f, PROVIDER_KEY))
    && IsOptionalText(Get(f, ACTION_KEY))
    && IsOptionalStage(Get(f, STAGE_KEY))
    && IsOptionalText(Get(f, ERROR_KEY))
    && (var cut := Get(f, TRUNCATED_KEY); cut.Some? ==> cut.value.Bool?)
    && (var result := Get(f, RESULT_KEY); result.Some? ==> IsJsonValue(result.value, 0))
  }

  predicate IsOperation(v: Value) { v.Obj? && IsOperationFields(v.fields) }

  predicate IsCounts(v: Option<Value>) {
    && v.Some? && v.value.Obj?
    && HasOnlyKeys(v.value.fields, COUNT_KEYS)
    && forall i :: 0 <= i < |COUNT_KEYS| ==> IsSafeCount(Get(v.value.fields, COUNT_KEYS[i]))
  }

  /** The sequence number an accepted operation carries. */
  function SequenceOf(v: Value): int {
    if v.Obj? then (var s := Get(v.fields, SEQUENCE_KEY); if s.Some? && s.value.Int? then s.value.n else 0) else 0
  }

  predicate IsPhases(v: Option<Value>) {
    v.Some? && v.value.Arr? && forall i :: 0 <= i < |v.value.items| ==> v.value.items[i].Str?
  }

  predicate IsOperations(v: Option<Value>) {
    && v.Some? && v.value.Arr?
    && (forall i :: 0 <= i < |v.value.items| ==> IsOperation(v.value.items[i]))
    && forall i :: 1 <= i < |v.value.items| ==> SequenceOf(v.value.items[i - 1]) < SequenceOf(v.value.items[i])
  }

  predicate IsTraceFields(f: seq<Field>) {
    && HasOnlyKeys(f, TRACE_KEYS)
    && Get(f, KIND_KEY) == Some(Str(TRACE_KIND))
    && Get(f, VERSION_KEY) == Some(Int(TRACE_VERSION))
    && IsOutcome(Get(f, OUTCOME_KEY))
    && IsPhases(Get(f, PHASES_KEY))
    && IsOperations(Get(f, OPERATIONS_KEY))
    && IsCounts(Get(f, COUNTS_KEY))
    && IsOptionalText(Get(f, ERROR_KEY))
  }

  /** isFabricExecutionTraceV1. */
  predicate IsTrace(v: Value) { v.Obj? && IsTraceFields(v.fields) && Bytes(v) <= TRACE_MAX_BYTES }

  function ReadTrace(v: Value): Option<Value> { if IsTrace(v) then Some(v) else None }

  // ----- the members of the trace's objects are told apart by their keys -----

  function KeyCode(key: Text): int { if key == [] then 0 else |key| * 0x10000 + key[0] }

  lemma DistinctByCode(entries: seq<Entry>, codes: seq<int>)
    requires |codes| == |entries|
    requires forall i :: 0 <= i < |entries| ==> KeyCode(entries[i].key) == codes[i]
    requires forall i, j :: 0 <= i < j < |codes| ==> codes[i] != codes[j]
    ensures DistinctKeys(entries)
  {
    forall i, j | 0 <= i < j < |entries|
      ensures entries[i].key != entries[j].key
    {
      assert codes[i] != codes[j];
    }
  }

  const OPERATION_CODES: seq<int> := [
    0x40074, 0x80073, 0x30072, 0x80070, 0x60061, 0x40061, 0x7006F, 0xC0066, 0x50065, 0x60072, 0xF0072]

  lemma OperationKeyCode(op: Operation, i: nat)
    requires i < OPERATION_MEMBERS
    ensures OperationEntry(op, i).key == OPERATION_KEYS[i]
    ensures KeyCode(OPERATION_KEYS[i]) == OPERATION_CODES[i]
  {
  }

  lemma OperationCodesDistinct()
    ensures forall i, j :: 0 <= i < j < |OPERATION_CODES| ==> OPERATION_CODES[i] != OPERATION_CODES[j]
  {
  }

  lemma OperationKeysDistinct(op: Operation)
    ensures DistinctKeys(OperationEntries(op))
  {
    forall i | 0 <= i < OPERATION_MEMBERS
      ensures KeyCode(OperationEntries(op)[i].key) == OPERATION_CODES[i]
    {
      OperationKeyCode(op, i);
    }
    OperationCodesDistinct();
    DistinctByCode(OperationEntries(op), OPERATION_CODES);
  }

  const TRACE_CODES: seq<int> := [0x4006B, 0x70076, 0x7006F, 0x60070, 0xA006F, 0x60063, 0x50065]

  lemma TraceKeyCode(t: Trace, i: nat)
    requires i < |TRACE_CODES|
    ensures TraceEntry(t, i).key == TRACE_KEYS[i] && KeyCode(TRACE_KEYS[i]) == TRACE_CODES[i]
  {
  }

  lemma TraceCodesDistinct()
    ensures forall i, j :: 0 <= i < j < |TRACE_CODES| ==> TRACE_CODES[i] != TRACE_CODES[j]
  {
  }

  lemma TraceKeysDistinct(t: Trace)
    ensures DistinctKeys(TraceEntries(t))
  {
    forall i | 0 <= i < |TRACE_CODES|
      ensures KeyCode(TraceEntries(t)[i].key) == TRACE_CODES[i]
    {
      TraceKeyCode(t, i);
    }
    TraceCodesDistinct();
    DistinctByCode(TraceEntries(t), TRACE_CODES);
  }

  lemma CountsKeysDistinct(c: Counts)
    ensures DistinctKeys(CountsEntries(c))
  {
    DistinctByCode(CountsEntries(c), [
      13 * 0x10000 + 0x64, 15 * 0x10000 + 0x74, 14 * 0x10000 + 0x72, 17 * 0x10000 + 0x64]);
  }

  /** Spreading members never introduces a key that is not listed. */
  lemma OnlyListedKeys(entries: seq<Entry>, keys: seq<Text>)
    requires |keys| == |entries| && forall i :: 0 <= i < |entries| ==> entries[i].key == keys[i]
    ensures HasOnlyKeys(Present(entries), keys)
  {
    PresentKeys(entries);
    forall i | 0 <= i < |Present(entries)|
      ensures Present(entries)[i].key in keys
    {
      assert Present(entries)[i] in Present(entries);
      var e :| e in entries && e.key == Present(entries)[i].key;
      var j :| 0 <= j < |entries| && entries[j] == e;
      assert keys[j] in keys;
    }
  }

  /** Each member reads back as it was written. */
  lemma ReadBack(entries: seq<Entry>)
    requires DistinctKeys(entries)
    ensures forall i :: 0 <= i < |entries| ==> Get(Present(entries), entries[i].key) == entries[i].value
  {
    forall i | 0 <= i < |entries|
      ensures Get(Present(entries), entries[i].key) == entries[i].value
    {
      GetPresent(entries, i);
    }
  }

  // ----- which traces are accepted -----

  predicate OperationWellFormed(op: Operation) {
    && op.sequence <= MAX_SAFE_INTEGER
    && IsJsonValue(Obj(op.args), 0)
    && (op.result.Some? ==> IsJsonValue(op.result.value, 0))
  }

  predicate Increasing(ops: seq<Operation>) {
    forall i :: 1 <= i < |ops| ==> ops[i - 1].sequence < ops[i].sequence
  }

  lemma OperationReadBack(op: Operation)
    ensures var f := Present(OperationEntries(op));
            && HasOnlyKeys(f, OPERATION_KEYS)
            && Get(f, TYPE_KEY) == Some(Str(CALL))
            && Get(f, SEQUENCE_KEY) == Some(Int(op.sequence))
            && Get(f, REF_KEY) == Some(Str(op.ref))
            && Get(f, ARGS_KEY) == Some(Obj(op.args))
            && Get(f, OUTCOME_KEY) == Some(Str(OutcomeText(op.outcome)))
            && Get(f, PROVIDER_KEY) == OptionalText(op.provider)
            && Get(f, ACTION_KEY) == OptionalText(op.action)
            && Get(f, STAGE_KEY) == (if op.failureStage.Some? then Some(Str(StageText(op.failureStage.value))) else None)
            && Get(f, ERROR_KEY) == OptionalText(op.error)
            && Get(f, TRUNCATED_KEY) == (if op.resultTruncated then Some(Bool(true)) else None)
            && Get(f, RESULT_KEY) == op.result
  {
    var e := OperationEntries(op);
    OperationKeysDistinct(op);
    OnlyListedKeys(e, OPERATION_KEYS);
    ReadBack(e);
    assert e[0].key == TYPE_KEY && e[1].key == SEQUENCE_KEY && e[2].key == REF_KEY && e[3].key == PROVIDER_KEY;
    assert e[4].key == ACTION_KEY && e[5].key == ARGS_KEY && e[6].key == OUTCOME_KEY && e[7].key == STAGE_KEY;
    assert e[8].key == ERROR_KEY && e[9].key == RESULT_KEY && e[10].key == TRUNCATED_KEY;
  }

  /** An operation's JSON form is accepted exactly when its number and its JSON contents are. */
  lemma OperationAccepted(op: Operation)
    ensures IsOperation(OperationJson(op)) <==> OperationWellFormed(op)
    ensures SequenceOf(OperationJson(op)) == op.sequence
  {
    hide OperationEntries; hide Present; hide Get; hide HasOnlyKeys; hide IsJsonValue;
    OperationReadBack(op);
  }

  lemma CountsAccepted(c: Counts)
    ensures IsCounts(Some(CountsJson(c))) <==> CountsSafe(c)
  {
    var e := CountsEntries(c);
    var f := Present(e);
    CountsKeysDistinct(c);
    OnlyListedKeys(e, COUNT_KEYS);
    ReadBack(e);
    assert Get(f, COUNT_KEYS[0]) == Some(Int(c.droppedValues)) by { assert e[0].key == COUNT_KEYS[0]; }
    assert Get(f, COUNT_KEYS[1]) == Some(Int(c.truncatedValues)) by { assert e[1].key == COUNT_KEYS[1]; }
    assert Get(f, COUNT_KEYS[2]) == Some(Int(c.redactedValues)) by { assert e[2].key == COUNT_KEYS[2]; }
    assert Get(f, COUNT_KEYS[3]) == Some(Int(c.droppedOperations)) by { assert e[3].key == COUNT_KEYS[3]; }
  }

  lemma OperationsAccepted(ops: seq<Operation>)
    ensures IsOperations(Some(Arr(Operations(ops))))
       <==> (forall i :: 0 <= i < |ops| ==> OperationWellFormed(ops[i])) && Increasing(ops)
  {
    var items := Operations(ops);
    forall i | 0 <= i < |ops|
      ensures IsOperation(items[i]) <==> OperationWellFormed(ops[i])
      ensures SequenceOf(items[i]) == ops[i].sequence
    {
      OperationAccepted(ops[i]);
    }
    if IsOperations(Some(Arr(items))) {
      forall i | 0 <= i < |ops| ensures OperationWellFormed(ops[i]) { assert IsOperation(items[i]); }
    }
  }

  lemma TraceReadBack(t: Trace)
    ensures var f := Present(TraceEntries(t));
            && HasOnlyKeys(f, TRACE_KEYS)
            && Get(f, KIND_KEY) == Some(Str(TRACE_KIND))
            && Get(f, VERSION_KEY) == Some(Int(TRACE_VERSION))
            && Get(f, OUTCOME_KEY) == Some(Str(OutcomeText(t.outcome)))
            && Get(f, PHASES_KEY) == Some(Arr(Phases(t.phases)))
            && Get(f, OPERATIONS_KEY) == Some(Arr(Operations(t.operations)))
            && Get(f, COUNTS_KEY) == Some(CountsJson(t.counts))
            && Get(f, ERROR_KEY) == OptionalText(t.error)
  {
    var e := TraceEntries(t);
    TraceKeysDistinct(t);
    OnlyListedKeys(e, TRACE_KEYS);
    ReadBack(e);
    assert e[0].key == KIND_KEY && e[1].key == VERSION_KEY && e[2].key == OUTCOME_KEY && e[3].key == PHASES_KEY;
    assert e[4].key == OPERATIONS_KEY && e[5].key == COUNTS_KEY && e[6].key == ERROR_KEY;
  }

  predicate TraceWellFormed(t: Trace) {
    && (forall i :: 0 <= i < |t.operations| ==> OperationWellFormed(t.operations[i]))
    && Increasing(t.operations)
    && CountsSafe(t.counts)
  }

  /** What is written of a trace reads back as the trace's JSON form, and that is accepted exactly when its
      operations are well formed and in order, its counts are safe integers and what is written is within
      the byte bound. */
  lemma TraceAccepted(t: Trace)
    ensures Serialized.ReadBack(Serialized.Written(TraceJson(t))) == Some(TraceJson(t))
    ensures IsTrace(TraceJson(t)) <==> TraceWellFormed(t) && Fits(t)
    ensures Fits(t) <==> |Serialized.Written(TraceJson(t))| <= TRACE_MAX_BYTES
  {
    WrittenTrace(t);
    TraceReadBack(t);
    CountsAccepted(t.counts);
    OperationsAccepted(t.operations);
    TraceFieldsAccepted(t, Present(TraceEntries(t)));
  }

  lemma WrittenTrace(t: Trace)
    ensures Serialized.ReadBack(Serialized.Written(TraceJson(t))) == Some(TraceJson(t))
    ensures Fits(t) <==> |Serialized.Written(TraceJson(t))| <= TRACE_MAX_BYTES
  {
    hide TraceJson; hide Bytes;
    Serialized.WrittenReadsBack(TraceJson(t));
    Serialized.BytesCountsWritten(TraceJson(t));
  }

  lemma TraceFieldsAccepted(t: Trace, f: seq<Field>)
    requires HasOnlyKeys(f, TRACE_KEYS)
    requires Get(f, KIND_KEY) == Some(Str(TRACE_KIND)) && Get(f, VERSION_KEY) == Some(Int(TRACE_VERSION))
    requires Get(f, OUTCOME_KEY) == Some(Str(OutcomeText(t.outcome)))
    requires Get(f, PHASES_KEY) == Some(Arr(Phases(t.phases)))
    requires Get(f, ERROR_KEY) == OptionalText(t.error)
    ensures IsTraceFields(f) <==> IsOperations(Get(f, OPERATIONS_KEY)) && IsCounts(Get(f, COUNTS_KEY))
  {
  }

  // ----- which values are accepted -----

  /** A member reads as it would be written; a flag that is not set may also be written out. */
  predicate ReadsAs(f: seq<Field>, g: seq<Field>, key: Text) {
    Get(f, key) == Get(g, key) || (key == TRUNCATED_KEY && Get(f, key) == Some(Bool(false)) && Get(g, key) == None)
  }

  /** The members of two objects read the same, whatever their order. */
  ghost predicate SameMembers(f: seq<Field>, g: seq<Field>) { forall key :: ReadsAs(f, g, key) }

  lemma {:induction false} GetUnlisted(f: seq<Field>, keys: seq<Text>, key: Text)
    requires HasOnlyKeys(f, keys) && key !in keys
    ensures Get(f, key) == None
  {
    if f != [] { GetUnlisted(f[..|f| - 1], keys, key); }
  }

  lemma {:induction false} GetListed(f: seq<Field>, i: nat)
    requires i < |f|
    ensures Get(f, f[i].key).Some?
  {
    if i < |f| - 1 { GetListed(f[..|f| - 1], i); }
  }

  /** Two objects with these keys only have the same members when they agree on these keys. */
  lemma AgreeOnKeys(f: seq<Field>, g: seq<Field>, keys: seq<Text>)
    requires HasOnlyKeys(f, keys) && HasOnlyKeys(g, keys) && forall i :: 0 <= i < |keys| ==> ReadsAs(f, g, keys[i])
    ensures SameMembers(f, g)
  {
    hide HasOnlyKeys; hide Get;
    forall key
      ensures ReadsAs(f, g, key)
    {
      if key !in keys {
        GetUnlisted(f, keys, key);
        GetUnlisted(g, keys, key);
      }
    }
  }

  lemma SameKeys(f: seq<Field>, g: seq<Field>, keys: seq<Text>)
    requires SameMembers(f, g) && HasOnlyKeys(g, keys) && TRUNCATED_KEY in keys
    ensures HasOnlyKeys(f, keys)
  {
    hide Get;
    forall i | 0 <= i < |f|
      ensures f[i].key in keys
    {
      GetListed(f, i);
      assert ReadsAs(f, g, f[i].key);
      if f[i].key !in keys { GetUnlisted(g, keys, f[i].key); }
    }
  }

  ghost predicate RepresentsOperation(v: Value, op: Operation) {
    v.Obj? && SameMembers(v.fields, Present(OperationEntries(op)))
  }

  function OutcomeNamed(text: Text): Outcome {
    if text == OutcomeText(Succeeded) then Succeeded
    else if text == OutcomeText(Failed) then Failed
    else if text == OutcomeText(Aborted) then Aborted
    else TimedOut
  }

  function StageNamed(text: Text): Stage {
    if text == StageText(Resolve) then Resolve
    else if text == StageText(Prepare) then Prepare
    else if text == StageText(Validate) then Validate
    else if text == StageText(Approve) then Approve
    else if text == StageText(Invoke) then Invoke
    else Guard
  }

  function TextOf(v: Option<Value>): Option<Text> { if v.Some? && v.value.Str? then Some(v.value.text) else None }

  /** The operation an accepted object stands for. */
  function OperationOf(f: seq<Field>): Operation
    requires IsOperationFields(f)
  {
    var stage := TextOf(Get(f, STAGE_KEY));
    Operation(Get(f, SEQUENCE_KEY).value.n, Get(f, REF_KEY).value.text, TextOf(Get(f, PROVIDER_KEY)), TextOf(Get(f, ACTION_KEY)),
              Get(f, ARGS_KEY).value.fields, OutcomeNamed(Get(f, OUTCOME_KEY).value.text),
              if stage.Some? then Some(StageNamed(stage.value)) else None, TextOf(Get(f, ERROR_KEY)), Get(f, RESULT_KEY),
              Get(f, TRUNCATED_KEY) == Some(Bool(true)))
  }

  /** The members of an operation, as they are read. */
  predicate HasMembers(f: seq<Field>, op: Operation) {
    && Get(f, TYPE_KEY) == Some(Str(CALL))
    && Get(f, SEQUENCE_KEY) == Some(Int(op.sequence))
    && Get(f, REF_KEY) == Some(Str(op.ref))
    && Get(f, ARGS_KEY) == Some(Obj(op.args))
    && Get(f, OUTCOME_KEY) == Some(Str(OutcomeText(op.outcome)))
    && Get(f, PROVIDER_KEY) == OptionalText(op.provider)
    && Get(f, ACTION_KEY) == OptionalText(op.action)
    && Get(f, STAGE_KEY) == (if op.failureStage.Some? then Some(Str(StageText(op.failureStage.value))) else None)
    && Get(f, ERROR_KEY) == OptionalText(op.error)
    && (if op.resultTruncated then Get(f, TRUNCATED_KEY) == Some(Bool(true))
        else Get(f, TRUNCATED_KEY) == None || Get(f, TRUNCATED_KEY) == Some(Bool(false)))
    && Get(f, RESULT_KEY) == op.result
  }

  lemma OnlyTruncated()
    ensures TRUNCATED_KEY !in [TYPE_KEY, SEQUENCE_KEY, REF_KEY, PROVIDER_KEY, ACTION_KEY, ARGS_KEY, OUTCOME_KEY, STAGE_KEY,
                               ERROR_KEY, RESULT_KEY]
  {
    assert |TRUNCATED_KEY| == 15 && |STAGE_KEY| == 12;
  }

  lemma OperationMembers(f: seq<Field>, op: Operation)
    ensures RepresentsOperation(Obj(f), op) <==> HasOnlyKeys(f, OPERATION_KEYS) && HasMembers(f, op)
  {
    hide Get; hide Present; hide OperationEntries; hide HasOnlyKeys; hide OutcomeText; hide StageText;
    var g := Present(OperationEntries(op));
    OperationReadBack(op);
    OnlyTruncated();
    if SameMembers(f, g) {
      SameKeys(f, g, OPERATION_KEYS);
      assert ReadsAs(f, g, TYPE_KEY) && ReadsAs(f, g, SEQUENCE_KEY) && ReadsAs(f, g, REF_KEY) && ReadsAs(f, g, PROVIDER_KEY);
      assert ReadsAs(f, g, ACTION_KEY) && ReadsAs(f, g, ARGS_KEY) && ReadsAs(f, g, OUTCOME_KEY) && ReadsAs(f, g, STAGE_KEY);
      assert ReadsAs(f, g, ERROR_KEY) && ReadsAs(f, g, RESULT_KEY) && ReadsAs(f, g, TRUNCATED_KEY);
    }
    if HasOnlyKeys(f, OPERATION_KEYS) && HasMembers(f, op) {
      assert forall i :: 0 <= i < |OPERATION_KEYS| ==> ReadsAs(f, g, OPERATION_KEYS[i]);
      AgreeOnKeys(f, g, OPERATION_KEYS);
    }
  }

  lemma OutcomeIsNamed(text: Text)
    requires text in [OutcomeText(Succeeded), OutcomeText(Failed), OutcomeText(Aborted), OutcomeText(TimedOut)]
    ensures OutcomeText(OutcomeNamed(text)) == text
  {
    hide OutcomeText;
  }

  lemma StageIsNamed(text: Text)
    requires text in [StageText(Resolve), StageText(Prepare), StageText(Validate), StageText(Approve), StageText(Invoke), StageText(Guard)]
    ensures StageText(StageNamed(text)) == text
  {
    hide StageText;
  }

  lemma AcceptedHasMembers(f: seq<Field>)
    requires IsOperationFields(f)
    ensures HasMembers(f, OperationOf(f)) && OperationWellFormed(OperationOf(f))
  {
    hide Get; hide HasOnlyKeys; hide OutcomeText; hide StageText; hide IsJsonValue;
    OutcomeIsNamed(Get(f, OUTCOME_KEY).value.text);
    if Get(f, STAGE_KEY).Some? { StageIsNamed(Get(f, STAGE_KEY).value.text); }
  }

  lemma MembersAccepted(f: seq<Field>, op: Operation)
    requires HasOnlyKeys(f, OPERATION_KEYS) && HasMembers(f, op)
    ensures IsOperationFields(f) <==> OperationWellFormed(op)
    ensures SequenceOf(Obj(f)) == op.sequence
  {
    hide Get; hide HasOnlyKeys; hide IsJsonValue;
  }

  lemma RepresentedOperation(v: Value, op: Operation)
    requires RepresentsOperation(v, op)
    ensures IsOperation(v) <==> OperationWellFormed(op)
    ensures SequenceOf(v) == op.sequence
  {
    hide SameMembers; hide HasMembers; hide IsOperationFields; hide HasOnlyKeys; hide SequenceOf;
    OperationMembers(v.fields, op);
    MembersAccepted(v.fields, op);
  }

  /** A value stands for a trace: it has the trace's members, the operations represented one by one. */
  ghost predicate Represents(v: Value, t: Trace) {
    && v.Obj? && HasOnlyKeys(v.fields, TRACE_KEYS)
    && Get(v.fields, KIND_KEY) == Some(Str(TRACE_KIND))
    && Get(v.fields, VERSION_KEY) == Some(Int(TRACE_VERSION))
    && Get(v.fields, OUTCOME_KEY) == Some(Str(OutcomeText(t.outcome)))
    && Get(v.fields, PHASES_KEY) == Some(Arr(Phases(t.phases)))
    && Get(v.fields, ERROR_KEY) == OptionalText(t.error)
    && RepresentsOperations(Get(v.fields, OPERATIONS_KEY), t.operations)
    && RepresentsCounts(Get(v.fields, COUNTS_KEY), t.counts)
  }

  ghost predicate RepresentsOperations(v: Option<Value>, ops: seq<Operation>) {
    v.Some? && v.value.Arr? && |v.value.items| == |ops| && forall i :: 0 <= i < |ops| ==> RepresentsOperation(v.value.items[i], ops[i])
  }

  ghost predicate RepresentsCounts(v: Option<Value>, c: Counts) {
    && v.Some? && v.value.Obj? && HasOnlyKeys(v.value.fields, COUNT_KEYS)
    && Get(v.value.fields, DROPPED_VALUES_KEY) == Some(Int(c.droppedValues))
    && Get(v.value.fields, TRUNCATED_VALUES_KEY) == Some(Int(c.truncatedValues))
    && Get(v.value.fields, REDACTED_VALUES_KEY) == Some(Int(c.redactedValues))
    && Get(v.value.fields, DROPPED_OPERATIONS_KEY) == Some(Int(c.droppedOperations))
  }

  ghost predicate IsSomeTrace(v: Value) { exists t :: Represents(v, t) && TraceWellFormed(t) }

  lemma RepresentedOperations(v: Option<Value>, ops: seq<Operation>)
    requires RepresentsOperations(v, ops)
    ensures IsOperations(v) <==> (forall i :: 0 <= i < |ops| ==> OperationWellFormed(ops[i])) && Increasing(ops)
  {
    hide IsOperation; hide OperationWellFormed; hide SequenceOf; hide RepresentsOperation;
    forall i | 0 <= i < |ops|
      ensures IsOperation(v.value.items[i]) <==> OperationWellFormed(ops[i])
      ensures SequenceOf(v.value.items[i]) == ops[i].sequence
    {
      RepresentedOperation(v.value.items[i], ops[i]);
    }
    if IsOperations(v) {
      forall i | 0 <= i < |ops| ensures OperationWellFormed(ops[i]) { assert IsOperation(v.value.items[i]); }
    }
  }

  lemma RepresentedCounts(v: Option<Value>, c: Counts)
    requires RepresentsCounts(v, c)
    ensures IsCounts(v) <==> CountsSafe(c)
  {
    hide Get; hide HasOnlyKeys;
    if IsCounts(v) {
      assert COUNT_KEYS[0] == DROPPED_VALUES_KEY && COUNT_KEYS[1] == TRUNCATED_VALUES_KEY;
      assert COUNT_KEYS[2] == REDACTED_VALUES_KEY && COUNT_KEYS[3] == DROPPED_OPERATIONS_KEY;
    }
  }

  lemma RepresentedIsAccepted(v: Value, t: Trace)
    requires Represents(v, t)
    ensures IsTraceFields(v.fields) <==> TraceWellFormed(t)
  {
    hide Get; hide HasOnlyKeys; hide IsOperations; hide IsCounts; hide RepresentsOperations; hide RepresentsCounts; hide CountsSafe;
    hide OperationWellFormed; hide Increasing;
    RepresentedOperations(Get(v.fields, OPERATIONS_KEY), t.operations);
    RepresentedCounts(Get(v.fields, COUNTS_KEY), t.counts);
  }

  /** The trace an accepted value stands for. */
  lemma AcceptedRepresents(v: Value) returns (t: Trace)
    requires v.Obj? && IsTraceFields(v.fields)
    ensures Represents(v, t)
  {
    hide Get; hide HasOnlyKeys; hide IsOperationFields; hide OutcomeText; hide SequenceOf; hide RepresentsOperation;
    var f := v.fields;
    var phases, items := Get(f, PHASES_KEY).value.items, Get(f, OPERATIONS_KEY).value.items;
    var counts := Get(f, COUNTS_KEY);
    var texts := seq(|phases|, i requires 0 <= i < |phases| => phases[i].text);
    assert Phases(texts) == phases;
    var ops := seq(|items|, i requires 0 <= i < |items| => OperationOf(items[i].fields));
    forall i | 0 <= i < |items|
      ensures RepresentsOperation(items[i], ops[i])
    {
      assert IsOperation(items[i]);
      AcceptedOperation(items[i].fields);
    }
    OutcomeIsNamed(Get(f, OUTCOME_KEY).value.text);
    t := Trace(OutcomeNamed(Get(f, OUTCOME_KEY).value.text), texts, ops, CountsOf(counts), TextOf(Get(f, ERROR_KEY)));
    CountsAreRead(counts);
  }

  lemma AcceptedOperation(f: seq<Field>)
    requires IsOperationFields(f)
    ensures RepresentsOperation(Obj(f), OperationOf(f))
  {
    hide RepresentsOperation; hide HasMembers; hide Get; hide OperationOf;
    AcceptedHasMembers(f);
    OperationMembers(f, OperationOf(f));
  }

  function CountsOf(v: Option<Value>): Counts
    requires IsCounts(v)
  {
    assert COUNT_KEYS[0] == DROPPED_VALUES_KEY && COUNT_KEYS[1] == TRUNCATED_VALUES_KEY;
    assert COUNT_KEYS[2] == REDACTED_VALUES_KEY && COUNT_KEYS[3] == DROPPED_OPERATIONS_KEY;
    var f := v.value.fields;
    Counts(Get(f, DROPPED_VALUES_KEY).value.n, Get(f, TRUNCATED_VALUES_KEY).value.n, Get(f, REDACTED_VALUES_KEY).value.n,
           Get(f, DROPPED_OPERATIONS_KEY).value.n)
  }

  lemma CountsAreRead(v: Option<Value>)
    requires IsCounts(v)
    ensures RepresentsCounts(v, CountsOf(v))
  {
    hide Get; hide HasOnlyKeys;
    assert COUNT_KEYS[0] == DROPPED_VALUES_KEY && COUNT_KEYS[1] == TRUNCATED_VALUES_KEY;
    assert COUNT_KEYS[2] == REDACTED_VALUES_KEY && COUNT_KEYS[3] == DROPPED_OPERATIONS_KEY;
  }

  /** Whatever the value, it is accepted as a trace exactly when it stands for a well-formed one and what is
      written of it is within the bound. */
  lemma AcceptedExactly(v: Value)
    ensures IsTrace(v) <==> IsSomeTrace(v) && |Serialized.Written(v)| <= TRACE_MAX_BYTES
  {
    hide Represents; hide IsTraceFields; hide TraceWellFormed; hide Bytes;
    Serialized.BytesCountsWritten(v);
    if v.Obj? && IsTraceFields(v.fields) {
      var t := AcceptedRepresents(v);
      RepresentedIsAccepted(v, t);
      assert Represents(v, t) && TraceWellFormed(t);
    }
    if IsSomeTrace(v) {
      var t :| Represents(v, t) && TraceWellFormed(t);
      RepresentedIsAccepted(v, t) by { RepresentsObject(v, t); }
      RepresentsObject(v, t);
    }
  }

  lemma RepresentsObject(v: Value, t: Trace)
    requires Represents(v, t)
    ensures v.Obj?
  {
    hide Get; hide HasOnlyKeys;
  }
}
