/** The execution trace recorder: calls are issued, updated through handles, and sealed once. */
module Recorder {
  import opened Common
  import opened Json
  import opened Truncate
  import opened Sanitize
  import opened Trace
  import opened Trimming
  import opened Validator

  const MAX_IDENTIFIER_BYTES := 1024
  const MAX_PHASE_BYTES := 1024
  const MAX_ARGS_BYTES := 64 * 1024
  const MAX_RESULT_BYTES := 64 * 1024
  const MAX_RECORDED_OPERATIONS := 2048
  const MAX_PHASES := 512
  const SHELL_REF: Text := Chars("omp.bash")

  /** What the audit projection retains of arguments or a result, before sanitizing. */
  datatype Projection = Projection(heap: Heap, value: Js, droppedValues: nat)

  const NOTHING := Tally(0, 0, 0)

  function Plus(t: Tally, droppedValues: nat): Tally { t.(droppedValues := t.droppedValues + droppedValues) }

  // ----- the state of one recorded call -----

  /** The fields of a recorded call that handles and sealing update, with the tallies of what the
      sanitizer left out of them. */
  datatype Recorded = Recorded(
    sequence: nat, ref: Text, shell: bool, provider: Option<Text>, action: Option<Text>, causeSafe: bool,
    args: seq<Field>, argsTally: Tally, outcome: Option<Outcome>, failureStage: Option<Stage>,
    error: Option<Text>, errorTruncated: bool, result: Option<Value>, resultTally: Tally,
    resultTruncated: bool, droppedResultValues: nat)

  function SanitizedArgsOf(p: Projection): (seq<Field>, Tally) {
    SanitizedArgs(p.heap, p.value, MAX_ARGS_BYTES, p.droppedValues)
  }

  function WithPrepared(op: Recorded, p: Projection): Recorded {
    var (args, tally) := SanitizedArgsOf(p);
    op.(args := args, argsTally := tally)
  }

  /** A projected result is sanitized; a result the projection refuses is only counted. */
  function WithReportedResult(op: Recorded, projected: Option<Projection>, reported: bool): Recorded {
    match projected
    case Some(p) =>
      var s := SanitizedRoot(p.heap, p.value, MAX_RESULT_BYTES);
      op.(result := Some(s.value), resultTally := Plus(s.tally, p.droppedValues))
    case None =>
      if reported then op.(droppedResultValues := op.droppedResultValues + 1) else op
  }

  function WithSuccess(op: Recorded, projected: Option<Projection>, reported: bool, cut: bool): Recorded {
    WithReportedResult(op, projected, reported).(outcome := Some(Succeeded), resultTruncated := op.resultTruncated || cut)
  }

  function FailureMessage(stage: Stage, outcome: Outcome, cause: Option<Text>): Text {
    match outcome
    case TimedOut => Chars("Call timed out")
    case Aborted => Chars("Call aborted")
    case _ =>
      var summary := Chars("Call failed during ") + StageText(stage);
      if cause.Some? then summary + Chars(": ") + cause.value else summary
  }

  function WithError(op: Recorded, message: Text): Recorded {
    var bounded := Truncated(message, MAX_ERROR_BYTES);
    op.(error := Some(bounded), errorTruncated := bounded != message)
  }

  /** The cause of a failure is quoted only when it is safe, or comes from a shell command that ran. */
  function QuotedCause(op: Recorded, stage: Stage, safe: bool, cause: Option<Text>, outcome: Outcome): Option<Text> {
    if outcome == Failed && (op.causeSafe || safe || (op.shell && stage == Invoke)) then cause else None
  }

  function WithFailedStage(op: Recorded, stage: Stage, safe: bool, outcome: Outcome, cut: bool): Recorded {
    op.(failureStage := Some(stage), causeSafe := op.causeSafe || safe, outcome := Some(outcome),
        resultTruncated := op.resultTruncated || cut)
  }

  function WithFailure(op: Recorded, stage: Stage, safe: bool, cause: Option<Text>, outcome: Outcome,
                       projected: Option<Projection>, reported: bool, cut: bool): Recorded {
    var message := FailureMessage(stage, outcome, QuotedCause(op, stage, safe, cause, outcome));
    WithReportedResult(WithError(WithFailedStage(op, stage, safe, outcome, cut), message), projected, reported)
  }

  /** A call still open when its run ends takes the run's fate, and a cancelled call of a run that
      timed out has timed out. */
  function Closed(op: Recorded, outcome: Outcome): (c: Recorded)
    ensures c.outcome.Some?
  {
    if op.outcome.None? then
      op.(outcome := Some(if outcome == TimedOut then TimedOut else if outcome == Aborted then Aborted else Failed),
          failureStage := if op.failureStage.None? then Some(Invoke) else op.failureStage)
    else if op.outcome.value == Aborted && outcome == TimedOut then op.(outcome := Some(TimedOut))
    else op
  }

  function ClosingMessage(closed: Recorded): Text
    requires closed.outcome.Some?
  {
    FailureMessage(if closed.failureStage.Some? then closed.failureStage.value else Invoke, closed.outcome.value, None)
  }

  predicate KeepsError(closed: Recorded)
    requires closed.outcome.Some?
  {
    || closed.outcome.value == Succeeded
    || (closed.error.Some? && (closed.causeSafe || (closed.shell && closed.outcome.value == Failed)))
  }

  /** Only a safe cause survives in the error of a call that did not succeed. */
  function Finalized(op: Recorded, outcome: Outcome): Recorded {
    var closed := Closed(op, outcome);
    if KeepsError(closed) then closed else WithError(closed, ClosingMessage(closed))
  }

  function FinalizedAll(ops: seq<Recorded>, outcome: Outcome): (closed: seq<Recorded>)
    ensures |closed| == |ops| && forall i :: 0 <= i < |ops| ==> closed[i] == Finalized(ops[i], outcome)
  {
    seq(|ops|, i requires 0 <= i < |ops| => Finalized(ops[i], outcome))
  }

  /** Everything recorded for a call is bounded JSON, and its error is bounded text. */
  predicate SoundContents(op: Recorded) {
    && IsJsonValue(Obj(op.args), 0)
    && (op.result.Some? ==> IsJsonValue(op.result.value, 0))
    && (op.error.Some? ==> Utf8(op.error.value) <= MAX_ERROR_BYTES)
  }

  predicate Same(a: Recorded, b: Recorded) { a == b }

  /** SoundContents(op), phrased so that a proof unfolds it only where it asks for it. */
  ghost predicate Sound(op: Recorded) {
    forall o :: Same(o, op) ==> SoundContents(o)
  }

  lemma SoundMeans(op: Recorded)
    ensures Sound(op) <==> SoundContents(op)
  {
    assert Same(op, op);
  }

  ghost function EmptyCall(): (op: Recorded)
    ensures Sound(op)
  {
    var op := Recorded(0, [], false, None, None, false, [], NOTHING, None, None, None, false, None, NOTHING, false, 0);
    SoundMeans(op);
    op
  }

  /** A recorded call always satisfies `Sound`. */
  type SoundCall = op: Recorded | Sound(op) ghost witness EmptyCall()

  lemma PreparedSound(op: Recorded, p: Projection)
    requires Sound(op)
    ensures Sound(WithPrepared(op, p))
  {
    SanitizedIsSafe(p.heap, p.value, MAX_ARGS_BYTES);
    SoundMeans(op);
    SoundMeans(WithPrepared(op, p));
  }

  lemma ReportedSound(op: Recorded, projected: Option<Projection>, reported: bool)
    requires Sound(op)
    ensures Sound(WithReportedResult(op, projected, reported))
  {
    if projected.Some? {
      SanitizedIsSafe(projected.value.heap, projected.value.value, MAX_RESULT_BYTES);
    }
    SoundMeans(op);
    SoundMeans(WithReportedResult(op, projected, reported));
  }

  lemma SuccessSound(op: Recorded, projected: Option<Projection>, reported: bool, cut: bool)
    requires Sound(op)
    ensures Sound(WithSuccess(op, projected, reported, cut))
  {
    ReportedSound(op, projected, reported);
    SoundMeans(WithReportedResult(op, projected, reported));
    SoundMeans(WithSuccess(op, projected, reported, cut));
  }

  lemma ErrorSound(op: Recorded, message: Text)
    requires Sound(op)
    ensures Sound(WithError(op, message))
  {
    TruncatedFits(message, MAX_ERROR_BYTES);
    SoundMeans(op);
    SoundMeans(WithError(op, message));
  }

  lemma FailureSound(op: Recorded, stage: Stage, safe: bool, cause: Option<Text>, outcome: Outcome,
                     projected: Option<Projection>, reported: bool, cut: bool)
    requires Sound(op)
    ensures Sound(WithFailure(op, stage, safe, cause, outcome, projected, reported, cut))
  {
    var message := FailureMessage(stage, outcome, QuotedCause(op, stage, safe, cause, outcome));
    var staged := WithFailedStage(op, stage, safe, outcome, cut);
    SoundMeans(op);
    SoundMeans(staged);
    ErrorSound(staged, message);
    ReportedSound(WithError(staged, message), projected, reported);
  }

  lemma FinalizedSound(op: Recorded, outcome: Outcome)
    requires Sound(op)
    ensures Sound(Finalized(op, outcome))
  {
    var closed := Closed(op, outcome);
    SoundMeans(op);
    SoundMeans(closed);
    if !KeepsError(closed) {
      ErrorSound(closed, ClosingMessage(closed));
    }
  }

  /** Sealing closes every call: it ends with an outcome, and a call that did not succeed with an
      error; a cancelled call of a run that timed out is reported as timed out. */
  lemma FinalizedCloses(op: Recorded, outcome: Outcome)
    ensures var f := Finalized(op, outcome);
            && f.outcome.Some?
            && f == op.(outcome := f.outcome, failureStage := f.failureStage, error := f.error, errorTruncated := f.errorTruncated)
            && (f.outcome.value != Succeeded ==> f.error.Some?)
            && (outcome == TimedOut ==> f.outcome.value != Aborted)
            && (op.outcome.Some? && !(op.outcome.value == Aborted && outcome == TimedOut) ==> f.outcome == op.outcome)
  {
    hide Truncated; hide FailureMessage;
  }

  // ----- the trace assembled at sealing -----

  /** An empty identity is left out of the trace. */
  function NonEmpty(text: Option<Text>): Option<Text> { if text == Some([]) then None else text }

  function TraceOperation(op: Recorded): Operation {
    Operation(op.sequence, op.ref, NonEmpty(op.provider), NonEmpty(op.action), op.args,
              if op.outcome.Some? then op.outcome.value else Failed, op.failureStage, op.error,
              op.result, op.resultTruncated)
  }

  function AddTally(c: Counts, t: Tally): Counts {
    c.(droppedValues := c.droppedValues + t.droppedValues, truncatedValues := c.truncatedValues + t.truncatedValues,
       redactedValues := c.redactedValues + t.redactedValues)
  }

  function AddOperationTallies(c: Counts, op: Recorded): Counts {
    var withArgs := AddTally(c, op.argsTally);
    var withDrops := withArgs.(droppedValues := withArgs.droppedValues + op.droppedResultValues);
    var withError := if op.error.Some? && op.errorTruncated
                     then withDrops.(truncatedValues := withDrops.truncatedValues + 1) else withDrops;
    if op.result.Some? then AddTally(withError, op.resultTally) else withError
  }

  function SumTallies(c: Counts, ops: seq<Recorded>): Counts {
    if ops == [] then c else AddOperationTallies(SumTallies(c, ops[..|ops| - 1]), ops[|ops| - 1])
  }

  function BoundedPhases(phases: seq<Text>): seq<Text> {
    seq(Min(|phases|, MAX_PHASES), i requires 0 <= i < Min(|phases|, MAX_PHASES) => Truncated(phases[i], MAX_PHASE_BYTES))
  }

  function CutPhases(phases: seq<Text>): nat {
    if phases == [] then 0
    else CutPhases(phases[..|phases| - 1])
         + (if Truncated(phases[|phases| - 1], MAX_PHASE_BYTES) != phases[|phases| - 1] then 1 else 0)
  }

  function AddPhaseTallies(c: Counts, phases: seq<Text>): Counts {
    var kept := Min(|phases|, MAX_PHASES);
    var cut := c.(truncatedValues := c.truncatedValues + CutPhases(phases[..kept]));
    if |phases| > kept
    then cut.(droppedValues := cut.droppedValues + |phases| - kept, truncatedValues := cut.truncatedValues + 1)
    else cut
  }

  function ExecutionErrorMessage(outcome: Outcome): Option<Text> {
    match outcome
    case Succeeded => None
    case TimedOut => Some(Chars("Execution timed out"))
    case Aborted => Some(Chars("Execution aborted"))
    case Failed => Some(Chars("Execution failed"))
  }

  /** White space and line terminators, as String.prototype.trim (section 22.1.3.32 of ECMA-262) takes them off. */
  predicate IsSpace(u: Unit) {
    || 0x9 <= u <= 0xD || u == 0x20 || u == 0xA0 || u == 0x1680 || 0x2000 <= u <= 0x200A
    || u in {0x2028, 0x2029, 0x202F, 0x205F, 0x3000, 0xFEFF}
  }

  function StripStart(text: Text): (r: Text)
    ensures |r| <= |text| && r == text[|text| - |r|..] && (r != [] ==> !IsSpace(r[0]))
    ensures forall i :: 0 <= i < |text| - |r| ==> IsSpace(text[i])
  {
    if text != [] && IsSpace(text[0]) then StripStart(text[1..]) else text
  }

  function StripEnd(text: Text): (r: Text)
    ensures |r| <= |text| && r == text[..|r|] && (r != [] ==> !IsSpace(r[|r| - 1]))
    ensures forall i :: |r| <= i < |text| ==> IsSpace(text[i])
  {
    if text != [] && IsSpace(text[|text| - 1]) then StripEnd(text[..|text| - 1]) else text
  }

  function Strip(text: Text): Text { StripEnd(StripStart(text)) }

  /** `text` is `inner` with nothing but white space around it. */
  predicate SpaceAround(text: Text, from: nat, inner: Text) {
    && from + |inner| <= |text| && inner == text[from..from + |inner|]
    && (forall i :: 0 <= i < from ==> IsSpace(text[i]))
    && forall i :: from + |inner| <= i < |text| ==> IsSpace(text[i])
  }

  lemma SpaceBehind(text: Text, late: Text, inner: Text)
    requires |late| <= |text| && late == text[|text| - |late|..] && |inner| <= |late| && inner == late[..|inner|]
    requires forall i :: 0 <= i < |text| - |late| ==> IsSpace(text[i])
    requires forall i :: |inner| <= i < |late| ==> IsSpace(late[i])
    ensures SpaceAround(text, |text| - |late|, inner)
  {
    hide IsSpace;
    var from := |text| - |late|;
    forall i | from + |inner| <= i < |text|
      ensures IsSpace(text[i])
    {
      assert text[i] == late[i - from];
    }
  }

  /** Only white space is taken off a text, and none is left at its ends. */
  lemma StripIsInside(text: Text)
    ensures SpaceAround(text, |text| - |StripStart(text)|, Strip(text))
    ensures var r := Strip(text); r != [] ==> !IsSpace(r[0]) && !IsSpace(r[|r| - 1])
  {
    hide IsSpace; hide StripStart; hide StripEnd;
    SpaceBehind(text, StripStart(text), Strip(text));
    hide SpaceAround;
    var late, inner := StripStart(text), Strip(text);
    assert inner != [] ==> inner[0] == late[0];
  }

  function RunError(outcome: Outcome, safeError: Option<Text>): Option<Text> {
    if safeError.Some? && Strip(safeError.value) != [] then Some(Strip(safeError.value)) else ExecutionErrorMessage(outcome)
  }

  /** The trace before trimming, built from the finalized calls. */
  function Assembled(ops: seq<Recorded>, outcome: Outcome, phases: seq<Text>, safeError: Option<Text>,
                     truncatedIdentifiers: nat, droppedOperations: nat): Trace
  {
    var counted := AddPhaseTallies(SumTallies(Counts(0, truncatedIdentifiers, 0, droppedOperations), ops), phases);
    var runError := RunError(outcome, safeError);
    var error := if runError.Some? then Some(Truncated(runError.value, MAX_ERROR_BYTES)) else None;
    var counts := if error != runError then counted.(truncatedValues := counted.truncatedValues + 1) else counted;
    Trace(outcome, BoundedPhases(phases),
          seq(|ops|, i requires 0 <= i < |ops| => TraceOperation(ops[i])), counts, error)
  }

  lemma {:induction false} TalliesKeepDroppedOperations(c: Counts, ops: seq<Recorded>)
    ensures SumTallies(c, ops).droppedOperations == c.droppedOperations
  {
    if ops != [] {
      TalliesKeepDroppedOperations(c, ops[..|ops| - 1]);
    }
  }

  /** What sealing returns for the calls recorded so far. */
  function SealedTrace(ops: seq<Recorded>, outcome: Outcome, phases: seq<Text>, safeError: Option<Text>,
                       truncatedIdentifiers: nat, droppedOperations: nat): Trace
  {
    Trimmed(Assembled(FinalizedAll(ops, outcome), outcome, phases, safeError, truncatedIdentifiers, droppedOperations))
  }

  /** A sealed trace accounts for every issued call, keeps the recorded order, and reports every call
      with an outcome its run allows and, when it did not succeed, with an error. */
  lemma SealedAccountsForCalls(ops: seq<Recorded>, outcome: Outcome, phases: seq<Text>, safeError: Option<Text>,
                               truncatedIdentifiers: nat, droppedOperations: nat)
    requires forall i :: 0 <= i < |ops| ==> ops[i].sequence == i
    ensures var t := SealedTrace(ops, outcome, phases, safeError, truncatedIdentifiers, droppedOperations);
            && |t.operations| + t.counts.droppedOperations == |ops| + droppedOperations
            && |t.operations| <= |ops|
            && forall i :: 0 <= i < |t.operations| ==>
                  && t.operations[i].sequence == i && t.operations[i].ref == ops[i].ref
                  && (t.operations[i].outcome != Succeeded ==> t.operations[i].error.Some?)
                  && (outcome == TimedOut ==> t.operations[i].outcome != Aborted)
  {
    var closed := FinalizedAll(ops, outcome);
    var full := Assembled(closed, outcome, phases, safeError, truncatedIdentifiers, droppedOperations);
    var t := Trimmed(full);
    TalliesKeepDroppedOperations(Counts(0, truncatedIdentifiers, 0, droppedOperations), closed);
    TrimmedKeepsOperations(Fits, full);
    forall i | 0 <= i < |t.operations|
      ensures t.operations[i].sequence == i && t.operations[i].ref == ops[i].ref
      ensures t.operations[i].outcome != Succeeded ==> t.operations[i].error.Some?
      ensures outcome == TimedOut ==> t.operations[i].outcome != Aborted
    {
      FinalizedCloses(ops[i], outcome);
      assert Keeps(t.operations[i], full.operations[i]);
    }
  }

  /** A sealed trace is accepted when read back exactly when its counters are still safe integers. That is
      so whenever the tallies of the calls are small enough for everything to be dropped on top of them,
      and never when they alone are too large already. */
  lemma SealedIsReadable(ops: seq<Recorded>, outcome: Outcome, phases: seq<Text>, safeError: Option<Text>,
                         truncatedIdentifiers: nat, droppedOperations: nat)
    requires forall i :: 0 <= i < |ops| ==> Sound(ops[i]) && ops[i].sequence == i
    requires |ops| <= MAX_RECORDED_OPERATIONS
    ensures var t := SealedTrace(ops, outcome, phases, safeError, truncatedIdentifiers, droppedOperations);
            var full := Assembled(FinalizedAll(ops, outcome), outcome, phases, safeError, truncatedIdentifiers, droppedOperations);
            && (ReadTrace(TraceJson(t)) == Some(TraceJson(t)) <==> CountsSafe(t.counts))
            && (CountsSafe(WorstCounts(full)) ==> ReadTrace(TraceJson(t)) == Some(TraceJson(t)))
            && (!CountsSafe(full.counts) ==> ReadTrace(TraceJson(t)) == None)
  {
    hide Sound; hide Finalized; hide IsTrace; hide TraceJson; hide TrimmedWhile; hide FinalizedAll; hide Assembled;
    var full := Assembled(FinalizedAll(ops, outcome), outcome, phases, safeError, truncatedIdentifiers, droppedOperations);
    TrimmedCountsWithin(Fits, full);
    SealedExactly(ops, outcome, phases, safeError, truncatedIdentifiers, droppedOperations);
  }

  lemma SealedExactly(ops: seq<Recorded>, outcome: Outcome, phases: seq<Text>, safeError: Option<Text>,
                      truncatedIdentifiers: nat, droppedOperations: nat)
    requires forall i :: 0 <= i < |ops| ==> Sound(ops[i]) && ops[i].sequence == i
    requires |ops| <= MAX_RECORDED_OPERATIONS
    ensures var t := SealedTrace(ops, outcome, phases, safeError, truncatedIdentifiers, droppedOperations);
            IsTrace(TraceJson(t)) <==> CountsSafe(t.counts)
  {
    hide Sound; hide Finalized; hide IsTrace; hide TraceJson; hide TrimmedWhile;
    var closed := FinalizedAll(ops, outcome);
    var full := Assembled(closed, outcome, phases, safeError, truncatedIdentifiers, droppedOperations);
    var t := Trimmed(full);
    SealedAccountsForCalls(ops, outcome, phases, safeError, truncatedIdentifiers, droppedOperations);
    TrimmedKeepsOperations(Fits, full);
    forall i | 0 <= i < |t.operations|
      ensures OperationWellFormed(t.operations[i])
    {
      FinalizedSound(ops[i], outcome);
      FinalizedCloses(ops[i], outcome);
      KeptCall(closed[i], t.operations[i]);
    }
    if CountsSafe(t.counts) {
      RunErrorBounded(outcome, safeError);
      SafelyTrimmedFits(full);
    }
    TraceAccepted(t);
  }

  lemma KeptCall(op: Recorded, kept: Operation)
    requires Sound(op) && op.outcome.Some? && op.sequence <= MAX_SAFE_INTEGER && Keeps(kept, TraceOperation(op))
    ensures OperationWellFormed(kept)
  {
    SoundMeans(op);
  }

  lemma RunErrorBounded(outcome: Outcome, safeError: Option<Text>)
    ensures var e := RunError(outcome, safeError); e.Some? ==> Utf8(Truncated(e.value, MAX_ERROR_BYTES)) <= MAX_ERROR_BYTES
  {
    var e := RunError(outcome, safeError);
    if e.Some? { TruncatedFits(e.value, MAX_ERROR_BYTES); }
  }

  // ----- the recorder as it runs -----

  /** Where the provider and the action of a reference are, split at its first dot. */
  function FirstDot(ref: Text): (k: nat)
    ensures k <= |ref|
    ensures (forall i :: 0 <= i < k ==> ref[i] != 0x2E) && (k < |ref| ==> ref[k] == 0x2E)
  {
    if ref == [] || ref[0] == 0x2E then 0 else 1 + FirstDot(ref[1..])
  }

  function LexicalIdentity(ref: Text): (Option<Text>, Option<Text>) {
    var k := FirstDot(ref);
    if k == |ref| || k == 0 || k == |ref| - 1 then (None, None) else (Some(ref[..k]), Some(ref[k + 1..]))
  }

  function BoundedIdentifier(value: Option<Text>): Option<Text> {
    if value.Some? then Some(Truncated(value.value, MAX_IDENTIFIER_BYTES)) else None
  }

  function BoundedIdentity(ref: Text): (Option<Text>, Option<Text>) {
    var (provider, action) := LexicalIdentity(ref);
    (BoundedIdentifier(provider), BoundedIdentifier(action))
  }

  function Cut(value: Text): (n: nat)
    ensures n <= 1
  {
    if Truncated(value, MAX_IDENTIFIER_BYTES) != value then 1 else 0
  }

  /** How many identifiers of a reference are truncated when it is issued. */
  function IssueCuts(ref: Text): (n: nat)
    ensures n <= 3
  {
    var (provider, action) := LexicalIdentity(ref);
    Cut(ref) + (if provider.Some? then Cut(provider.value) else 0) + (if action.Some? then Cut(action.value) else 0)
  }

  /** And how many are truncated, or truncated again, when a call is resolved: only one that changes counts. */
  function ResolveCuts(op: Recorded, provider: Text, action: Text): (n: nat)
    ensures n <= 2
  {
    (if op.provider != BoundedIdentifier(Some(provider)) then Cut(provider) else 0)
    + (if op.action != BoundedIdentifier(Some(action)) then Cut(action) else 0)
  }

  /** A call as it is first recorded. */
  function Issued(sequence: nat, ref: Text, bounded: Text, provider: Option<Text>, action: Option<Text>,
                  projection: Projection): Recorded {
    var (args, tally) := SanitizedArgsOf(projection);
    Recorded(sequence, bounded, ref == SHELL_REF, provider, action, false, args, tally, None, None, None, false, None,
             NOTHING, false, 0)
  }

  lemma IssuedSound(sequence: nat, ref: Text, bounded: Text, provider: Option<Text>, action: Option<Text>,
                    projection: Projection)
    ensures Sound(Issued(sequence, ref, bounded, provider, action, projection))
  {
    SoundMeans(Issued(sequence, ref, bounded, provider, action, projection));
    SanitizedIsSafe(projection.heap, projection.value, MAX_ARGS_BYTES);
  }

  /** A resolved identity takes the place of the lexical one. */
  function WithIdentity(op: Recorded, provider: Text, action: Text): Recorded {
    op.(provider := BoundedIdentifier(Some(provider)), action := BoundedIdentifier(Some(action)))
  }

  lemma IdentitySound(op: Recorded, provider: Text, action: Text)
    requires Sound(op)
    ensures Sound(WithIdentity(op, provider, action))
  {
    SoundMeans(op);
    SoundMeans(WithIdentity(op, provider, action));
  }

  /** One recorded call; the recorder and the handle of the call share it. */
  class MutableOperation {
    var state: SoundCall

    constructor (state: SoundCall)
      ensures this.state == state
    {
      this.state := state;
    }

    method Update(next: SoundCall)
      modifies this
      ensures state == next
    {
      state := next;
    }

    method Finalize(outcome: Outcome)
      modifies this
      ensures state == Finalized(old(state), outcome) && state.sequence == old(state.sequence)
    {
      FinalizedSound(state, outcome);
      FinalizedCloses(state, outcome);
      state := Finalized(state, outcome);
    }
  }

  /** The calls as they are written, with what was left out of them counted call by call. */
  method AssembleCalls(ops: seq<Recorded>, start: Counts) returns (assembled: seq<Operation>, counts: Counts)
    ensures assembled == seq(|ops|, i requires 0 <= i < |ops| => TraceOperation(ops[i])) && counts == SumTallies(start, ops)
  {
    hide AddOperationTallies; hide TraceOperation;
    counts, assembled := start, [];
    for i := 0 to |ops|
      invariant |assembled| == i && forall j :: 0 <= j < i ==> assembled[j] == TraceOperation(ops[j])
      invariant counts == SumTallies(start, ops[..i])
    {
      assert ops[..i + 1][..i] == ops[..i];
      counts := AddOperationTallies(counts, ops[i]);
      assembled := assembled + [TraceOperation(ops[i])];
    }
    assert ops[..|ops|] == ops;
  }

  /** The untrimmed trace. */
  method Assemble(ops: seq<Recorded>, outcome: Outcome, phases: seq<Text>, safeError: Option<Text>,
                  truncatedIdentifiers: nat, droppedOperations: nat) returns (full: Trace)
    ensures full == Assembled(ops, outcome, phases, safeError, truncatedIdentifiers, droppedOperations)
  {
    hide Truncated; hide SumTallies; hide TraceOperation; hide AddPhaseTallies; hide BoundedPhases; hide RunError;
    var assembled, counts := AssembleCalls(ops, Counts(0, truncatedIdentifiers, 0, droppedOperations));
    counts := AddPhaseTallies(counts, phases);
    var runError := RunError(outcome, safeError);
    var error: Option<Text> := None;
    if runError.Some? {
      var bounded := TruncateUtf8(runError.value, MAX_ERROR_BYTES);
      error := Some(bounded);
      if bounded != runError.value { counts := counts.(truncatedValues := counts.truncatedValues + 1); }
    }
    full := Trace(outcome, BoundedPhases(phases), assembled, counts, error);
  }

  /** Assembles the finalized calls and trims the result. */
  method BuildTrace(ghost ops: seq<Recorded>, closed: seq<Recorded>, outcome: Outcome, phases: seq<Text>,
                    safeError: Option<Text>, truncatedIdentifiers: nat, droppedOperations: nat) returns (trace: Trace)
    requires closed == FinalizedAll(ops, outcome)
    requires forall i :: 0 <= i < |ops| ==> ops[i].sequence == i
    ensures trace == SealedTrace(ops, outcome, phases, safeError, truncatedIdentifiers, droppedOperations)
    ensures |trace.operations| + trace.counts.droppedOperations == |ops| + droppedOperations
  {
    SealedAccountsForCalls(ops, outcome, phases, safeError, truncatedIdentifiers, droppedOperations);
    var full := Assemble(closed, outcome, phases, safeError, truncatedIdentifiers, droppedOperations);
    trace := TrimToFit(full);
  }

  class TraceRecorder {
    var operations: seq<MutableOperation>
    var nextSequence: nat
    var droppedOperations: nat
    var truncatedIdentifiers: nat
    var isSealed: bool

    ghost predicate Valid()
      reads this, operations
    {
      && |operations| <= MAX_RECORDED_OPERATIONS
      && nextSequence == |operations| + droppedOperations
      && (droppedOperations > 0 ==> isSealed || |operations| == MAX_RECORDED_OPERATIONS)
      && (forall i, j :: 0 <= i < j < |operations| ==> operations[i] != operations[j])
      && (forall i :: 0 <= i < |operations| ==> operations[i].state.sequence == i)
    }

    /** The recorded calls as values, in the order they were issued. */
    function States(): (states: seq<SoundCall>)
      reads this`operations, operations
      ensures |states| == |operations| && forall i :: 0 <= i < |states| ==> states[i] == operations[i].state
    {
      var calls := operations;
      seq(|calls|, i requires 0 <= i < |calls| reads calls => calls[i].state)
    }

    constructor ()
      ensures Valid() && operations == [] && nextSequence == droppedOperations == truncatedIdentifiers == 0 && !isSealed
    {
      operations := [];
      nextSequence, droppedOperations, truncatedIdentifiers := 0, 0, 0;
      isSealed := false;
    }

    method SnapshotIdentifier(value: Text) returns (bounded: Text)
      modifies this`truncatedIdentifiers
      ensures bounded == Truncated(value, MAX_IDENTIFIER_BYTES)
      ensures truncatedIdentifiers == old(truncatedIdentifiers) + (if bounded != value then 1 else 0)
    {
      bounded := TruncateUtf8(value, MAX_IDENTIFIER_BYTES);
      if bounded != value { truncatedIdentifiers := truncatedIdentifiers + 1; }
    }

    method SnapshotIdentity(ref: Text) returns (bounded: Text, provider: Option<Text>, action: Option<Text>)
      modifies this`truncatedIdentifiers
      ensures bounded == Truncated(ref, MAX_IDENTIFIER_BYTES) && (provider, action) == BoundedIdentity(ref)
      ensures truncatedIdentifiers == old(truncatedIdentifiers) + IssueCuts(ref)
    {
      bounded := SnapshotIdentifier(ref);
      provider, action := None, None;
      var (p, a) := LexicalIdentity(ref);
      if p.Some? {
        var b := SnapshotIdentifier(p.value);
        provider := Some(b);
      }
      if a.Some? {
        var b := SnapshotIdentifier(a.value);
        action := Some(b);
      }
    }

    /** Every issued call takes the next sequence number; it is recorded, or counted as dropped when
        the trace is sealed or full. */
    method IssueCall(ref: Text, projection: Projection) returns (handle: Handle)
      requires Valid()
      modifies this
      ensures Valid() && fresh(handle) && handle.recorder == this && isSealed == old(isSealed)
      ensures nextSequence == old(nextSequence) + 1
      ensures if old(isSealed) || |old(operations)| >= MAX_RECORDED_OPERATIONS then
                handle.operation == null && operations == old(operations) && truncatedIdentifiers == old(truncatedIdentifiers)
              else
                && truncatedIdentifiers == old(truncatedIdentifiers) + IssueCuts(ref)
                && handle.operation != null && fresh(handle.operation)
                && operations == old(operations) + [handle.operation]
                && var (provider, action) := BoundedIdentity(ref);
                   handle.operation.state ==
                   Issued(old(nextSequence), ref, Truncated(ref, MAX_IDENTIFIER_BYTES), provider, action, projection)
    {
      var sequence := nextSequence;
      nextSequence := nextSequence + 1;
      if isSealed || |operations| >= MAX_RECORDED_OPERATIONS {
        droppedOperations := droppedOperations + 1;
        handle := new Handle(this, null);
        return;
      }
      var bounded, provider, action := SnapshotIdentity(ref);
      IssuedSound(sequence, ref, bounded, provider, action, projection);
      var operation := new MutableOperation(Issued(sequence, ref, bounded, provider, action, projection));
      operations := operations + [operation];
      handle := new Handle(this, operation);
    }

    /** Closes the calls still open, in place. */
    method FinalizeCalls(outcome: Outcome)
      requires Valid()
      modifies operations
      ensures Valid() && States() == FinalizedAll(old(States()), outcome)
    {
      hide Sound; hide Finalized;
      ghost var before := States();
      ghost var after := FinalizedAll(before, outcome);
      for i := 0 to |operations|
        invariant forall j :: 0 <= j < i ==> operations[j].state == after[j] && after[j].sequence == j
        invariant forall j :: i <= j < |operations| ==> operations[j].state == before[j]
      {
        operations[i].Finalize(outcome);
      }
    }

    /** Seals the recorder and returns the trace of the calls recorded so far. */
    method Seal(outcome: Outcome, phases: seq<Text>, safeError: Option<Text>) returns (trace: Trace)
      requires Valid()
      modifies this, operations
      ensures Valid() && isSealed && operations == old(operations) && nextSequence == old(nextSequence)
      ensures droppedOperations == old(droppedOperations) && truncatedIdentifiers == old(truncatedIdentifiers)
      ensures States() == FinalizedAll(old(States()), outcome)
      ensures trace == SealedTrace(old(States()), outcome, phases, safeError, truncatedIdentifiers, droppedOperations)
      ensures |trace.operations| + trace.counts.droppedOperations == nextSequence
    {
      hide Sound; hide Finalized; hide Trimmed; hide Assembled;
      ghost var before := States();
      isSealed := true;
      FinalizeCalls(outcome);
      trace := BuildTrace(before, States(), outcome, phases, safeError, truncatedIdentifiers, droppedOperations);
    }
  }

  /** The caller's side of one issued call. Nothing it does after sealing changes the recording. */
  class Handle {
    const recorder: TraceRecorder
    const operation: MutableOperation?

    constructor (recorder: TraceRecorder, operation: MutableOperation?)
      ensures this.recorder == recorder && this.operation == operation
    {
      this.recorder := recorder;
      this.operation := operation;
    }

    ghost predicate Linked()
      reads this, recorder, recorder.operations
    {
      recorder.Valid() && (operation != null ==> operation in recorder.operations)
    }

    predicate Open()
      reads this, recorder
    {
      operation != null && !recorder.isSealed
    }

    /** Only an identity that changes is counted as truncated again. */
    method Resolved(provider: Text, action: Text)
      requires Linked()
      modifies operation, recorder`truncatedIdentifiers
      ensures Linked()
      ensures operation != null && Open() ==> operation.state == WithIdentity(old(operation.state), provider, action)
      ensures operation != null && !Open() ==> operation.state == old(operation.state)
      ensures recorder.truncatedIdentifiers == old(recorder.truncatedIdentifiers)
                + (if old(Open()) then ResolveCuts(old(operation.state), provider, action) else 0)
    {
      hide Sound; hide Utf8; hide Truncated; hide BoundedIdentifier;
      if !Open() { return; }
      if operation.state.provider != BoundedIdentifier(Some(provider)) {
        var snapshot := recorder.SnapshotIdentifier(provider);
      }
      if operation.state.action != BoundedIdentifier(Some(action)) {
        var snapshot := recorder.SnapshotIdentifier(action);
      }
      IdentitySound(operation.state, provider, action);
      operation.Update(WithIdentity(operation.state, provider, action));
    }

    method Prepared(projection: Projection)
      requires Linked()
      modifies operation
      ensures Linked()
      ensures operation != null && Open() ==>
                operation.state == WithPrepared(old(operation.state), projection)
      ensures operation != null && !Open() ==> operation.state == old(operation.state)
    {
      if !Open() { return; }
      PreparedSound(operation.state, projection);
      operation.Update(WithPrepared(operation.state, projection));
    }

    method Succeed(projected: Option<Projection>, reported: bool, cut: bool)
      requires Linked()
      modifies operation
      ensures Linked()
      ensures operation != null && Open() ==>
                operation.state == WithSuccess(old(operation.state), projected, reported, cut)
      ensures operation != null && !Open() ==> operation.state == old(operation.state)
    {
      if !Open() { return; }
      SuccessSound(operation.state, projected, reported, cut);
      operation.Update(WithSuccess(operation.state, projected, reported, cut));
    }

    method Fail(stage: Stage, safe: bool, cause: Option<Text>, outcome: Outcome,
                projected: Option<Projection>, reported: bool, cut: bool)
      requires Linked()
      modifies operation
      ensures Linked()
      ensures operation != null && Open() ==>
                operation.state == WithFailure(old(operation.state), stage, safe, cause, outcome, projected, reported, cut)
      ensures operation != null && !Open() ==> operation.state == old(operation.state)
    {
      if !Open() { return; }
      FailureSound(operation.state, stage, safe, cause, outcome, projected, reported, cut);
      operation.Update(WithFailure(operation.state, stage, safe, cause, outcome, projected, reported, cut));
    }
  }
}
