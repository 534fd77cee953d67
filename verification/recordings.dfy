/** Whole recordings: every call with everything its handle did, sealed and persisted. */
module Recordings {
  import opened Common
  import opened Json
  import opened Truncate
  import opened Sanitize
  import opened Tallies
  import opened Trace
  import opened Trimming
  import opened Validator
  import opened Recorder
  import Details

  datatype Update =
    | Resolve(provider: Text, action: Text)
    | Prepare(projection: Projection)
    | Success(projected: Option<Projection>, reported: bool, cut: bool)
    | Failure(stage: Stage, safe: bool, cause: Option<Text>, outcome: Outcome, projected: Option<Projection>,
              reported: bool, cut: bool)

  /** One issued call and what its handle did before the trace was sealed, in order. */
  datatype Call = Call(ref: Text, projection: Projection, updates: seq<Update>)

  function Updated(op: Recorded, u: Update): Recorded {
    match u
    case Resolve(provider, action) => WithIdentity(op, provider, action)
    case Prepare(projection) => WithPrepared(op, projection)
    case Success(projected, reported, cut) => WithSuccess(op, projected, reported, cut)
    case Failure(stage, safe, cause, outcome, projected, reported, cut) =>
      WithFailure(op, stage, safe, cause, outcome, projected, reported, cut)
  }

  function After(op: Recorded, updates: seq<Update>): Recorded {
    if updates == [] then op else Updated(After(op, updates[..|updates| - 1]), updates[|updates| - 1])
  }

  function Opened(sequence: nat, call: Call): Recorded {
    var (provider, action) := BoundedIdentity(call.ref);
    Issued(sequence, call.ref, Truncated(call.ref, MAX_IDENTIFIER_BYTES), provider, action, call.projection)
  }

  function Recording(sequence: nat, call: Call): Recorded { After(Opened(sequence, call), call.updates) }

  function Recordings(calls: seq<Call>): seq<Recorded> {
    seq(|calls|, i requires 0 <= i < |calls| => Recording(i, calls[i]))
  }

  /** How many identifiers the updates truncate. */
  function UpdateCuts(op: Recorded, updates: seq<Update>): nat {
    if updates == [] then 0
    else
      var init, u := updates[..|updates| - 1], updates[|updates| - 1];
      UpdateCuts(op, init) + (if u.Resolve? then ResolveCuts(After(op, init), u.provider, u.action) else 0)
  }

  function AllCuts(calls: seq<Call>): nat {
    if calls == [] then 0
    else
      var n := |calls| - 1;
      AllCuts(calls[..n]) + IssueCuts(calls[n].ref) + UpdateCuts(Opened(n, calls[n]), calls[n].updates)
  }

  function KeptCalls(calls: seq<Call>): seq<Call> { calls[..Min(|calls|, MAX_RECORDED_OPERATIONS)] }

  /** The trace of a whole run: the first 2048 calls are recorded, the others only counted. */
  function SealedRun(calls: seq<Call>, outcome: Outcome, phases: seq<Text>, safeError: Option<Text>): Trace {
    var kept := KeptCalls(calls);
    SealedTrace(Recordings(kept), outcome, phases, safeError, AllCuts(kept), |calls| - |kept|)
  }

  // ----- inputs of moderate size -----

  predicate ModerateProjection(p: Projection) { Moderate(p.heap) && p.droppedValues <= LONGEST }

  predicate ModerateUpdate(u: Update) {
    match u
    case Resolve(_, _) => true
    case Prepare(projection) => ModerateProjection(projection)
    case Success(projected, _, _) => projected.Some? ==> ModerateProjection(projected.value)
    case Failure(_, _, _, _, projected, _, _) => projected.Some? ==> ModerateProjection(projected.value)
  }

  /** No list, record or number of updates above 2^27, and no projection that leaves out more. */
  predicate ModerateCall(c: Call) {
    ModerateProjection(c.projection) && |c.updates| <= LONGEST && forall u :: u in c.updates ==> ModerateUpdate(u)
  }

  const CALL_TALLY := MAX_TALLY + LONGEST

  /** What is counted for a recorded call after `n` updates. */
  predicate Counted(op: Recorded, n: nat) {
    TallyWithin(op.argsTally, CALL_TALLY) && TallyWithin(op.resultTally, CALL_TALLY) && op.droppedResultValues <= n
  }

  lemma ArgsCounted(p: Projection)
    requires ModerateProjection(p)
    ensures TallyWithin(SanitizedArgsOf(p).1, CALL_TALLY)
  {
    hide SanitizedRoot;
    SanitizeCounts(p.heap, p.value, MAX_ARGS_BYTES);
  }

  lemma ReportedCounted(op: Recorded, projected: Option<Projection>, reported: bool, n: nat)
    requires Counted(op, n) && (projected.Some? ==> ModerateProjection(projected.value))
    ensures Counted(WithReportedResult(op, projected, reported), n + 1)
  {
    hide SanitizedRoot;
    if projected.Some? { SanitizeCounts(projected.value.heap, projected.value.value, MAX_RESULT_BYTES); }
  }

  lemma UpdateCounted(op: Recorded, u: Update, n: nat)
    requires Counted(op, n) && ModerateUpdate(u) && Sound(op)
    ensures Counted(Updated(op, u), n + 1) && Sound(Updated(op, u)) && Updated(op, u).sequence == op.sequence
  {
    hide SanitizedRoot; hide SanitizedArgs; hide Moderate; hide Truncated; hide FailureMessage;
    match u
    case Resolve(provider, action) => IdentitySound(op, provider, action);
    case Prepare(projection) =>
      PreparedSound(op, projection);
      ArgsCounted(projection);
    case Success(projected, reported, cut) =>
      SuccessSound(op, projected, reported, cut);
      ReportedCounted(op, projected, reported, n);
    case Failure(stage, safe, cause, outcome, projected, reported, cut) =>
      FailureSound(op, stage, safe, cause, outcome, projected, reported, cut);
      var message := FailureMessage(stage, outcome, QuotedCause(op, stage, safe, cause, outcome));
      ReportedCounted(WithError(WithFailedStage(op, stage, safe, outcome, cut), message), projected, reported, n);
  }

  lemma {:induction false} AfterCounted(op: Recorded, updates: seq<Update>)
    requires Counted(op, 0) && Sound(op) && forall u :: u in updates ==> ModerateUpdate(u)
    ensures Counted(After(op, updates), |updates|) && Sound(After(op, updates)) && After(op, updates).sequence == op.sequence
  {
    hide Counted; hide Sound; hide ModerateUpdate; hide Updated;
    if updates != [] {
      var init := updates[..|updates| - 1];
      AfterCounted(op, init);
      UpdateCounted(After(op, init), updates[|updates| - 1], |init|);
    }
  }

  lemma RecordingCounted(sequence: nat, call: Call)
    requires ModerateCall(call)
    ensures Counted(Recording(sequence, call), LONGEST) && Sound(Recording(sequence, call))
    ensures Recording(sequence, call).sequence == sequence
  {
    hide Moderate; hide Sound; hide SanitizedArgs;
    var (provider, action) := BoundedIdentity(call.ref);
    IssuedSound(sequence, call.ref, Truncated(call.ref, MAX_IDENTIFIER_BYTES), provider, action, call.projection);
    ArgsCounted(call.projection);
    AfterCounted(Opened(sequence, call), call.updates);
  }

  lemma {:induction false} UpdateCutsBound(op: Recorded, updates: seq<Update>)
    ensures UpdateCuts(op, updates) <= 2 * |updates|
  {
    hide After; hide ResolveCuts;
    if updates != [] { UpdateCutsBound(op, updates[..|updates| - 1]); }
  }

  lemma {:induction false} AllCutsBound(calls: seq<Call>)
    requires forall c :: c in calls ==> ModerateCall(c)
    ensures AllCuts(calls) <= |calls| * (3 + 2 * LONGEST)
  {
    hide ModerateProjection; hide ModerateUpdate; hide Opened; hide IssueCuts; hide UpdateCuts;
    if calls != [] {
      var n := |calls| - 1;
      AllCutsBound(calls[..n]);
      assert calls[n] in calls;
      UpdateCutsBound(Opened(n, calls[n]), calls[n].updates);
    }
  }

  // ----- the counters of the assembled trace -----

  /** What one call can add to a counter. */
  const MAX_PER_CALL := 2 * CALL_TALLY + LONGEST + 1

  predicate Raised(c: Counts, d: Counts, most: nat) {
    && d.droppedValues <= c.droppedValues + most && d.truncatedValues <= c.truncatedValues + most
    && d.redactedValues <= c.redactedValues + most && d.droppedOperations == c.droppedOperations
  }

  lemma FinalizedRaises(c: Counts, op: Recorded, outcome: Outcome)
    requires Counted(op, LONGEST)
    ensures Raised(c, AddOperationTallies(c, Finalized(op, outcome)), MAX_PER_CALL)
  {
    hide Finalized;
    FinalizedCloses(op, outcome);
  }

  lemma {:induction false} TalliesRaise(c: Counts, ops: seq<Recorded>, outcome: Outcome)
    requires forall i :: 0 <= i < |ops| ==> Counted(ops[i], LONGEST)
    ensures Raised(c, SumTallies(c, FinalizedAll(ops, outcome)), |ops| * MAX_PER_CALL)
  {
    hide Counted; hide Finalized; hide AddOperationTallies;
    if ops != [] {
      var init := ops[..|ops| - 1];
      TalliesRaise(c, init, outcome);
      assert FinalizedAll(ops, outcome)[..|ops| - 1] == FinalizedAll(init, outcome);
      FinalizedRaises(SumTallies(c, FinalizedAll(init, outcome)), ops[|ops| - 1], outcome);
    }
  }

  lemma {:induction false} CutPhasesBound(phases: seq<Text>)
    ensures CutPhases(phases) <= |phases|
  {
    hide Truncated;
    if phases != [] { CutPhasesBound(phases[..|phases| - 1]); }
  }

  lemma AssembledRaises(ops: seq<Recorded>, outcome: Outcome, phases: seq<Text>, safeError: Option<Text>,
                        truncatedIdentifiers: nat, droppedOperations: nat, full: Trace)
    requires forall i :: 0 <= i < |ops| ==> Counted(ops[i], LONGEST)
    requires full == Assembled(FinalizedAll(ops, outcome), outcome, phases, safeError, truncatedIdentifiers, droppedOperations)
    ensures Raised(Counts(0, truncatedIdentifiers, 0, droppedOperations), full.counts, |ops| * MAX_PER_CALL + |phases| + 2)
    ensures |full.operations| == |ops| && |full.phases| <= |phases|
  {
    hide Counted; hide Truncated; hide FinalizedAll; hide SumTallies; hide RunError;
    TalliesRaise(Counts(0, truncatedIdentifiers, 0, droppedOperations), ops, outcome);
    CutPhasesBound(phases[..Min(|phases|, MAX_PHASES)]);
  }

  // ----- every run is readable -----

  /** The counters of a run of moderate size are safe integers, even with everything dropped. */
  lemma RunCountsSafe(counts: Counts, calls: nat, kept: nat, cuts: nat, phases: nat)
    requires calls <= MAX_SAFE_INTEGER && kept <= calls && kept <= MAX_RECORDED_OPERATIONS && phases <= LONGEST
    requires cuts <= kept * (3 + 2 * LONGEST)
    requires Raised(Counts(0, cuts, 0, calls - kept), counts, kept * MAX_PER_CALL + phases + 2)
    ensures counts.droppedValues + 3 * kept + 2 * phases + 1 <= MAX_SAFE_INTEGER
    ensures counts.truncatedValues + 2 * kept <= MAX_SAFE_INTEGER && counts.redactedValues <= MAX_SAFE_INTEGER
    ensures counts.droppedOperations + kept <= MAX_SAFE_INTEGER
  {
  }

  /** Every run of calls of moderate size seals to a trace within the bound that is accepted when read
      back; it accounts for every call ever issued, in the order of issue. */
  lemma RunIsReadable(calls: seq<Call>, outcome: Outcome, phases: seq<Text>, safeError: Option<Text>)
    requires |calls| <= MAX_SAFE_INTEGER && |phases| <= LONGEST && forall c :: c in calls ==> ModerateCall(c)
    ensures var t := SealedRun(calls, outcome, phases, safeError);
            && ReadTrace(TraceJson(t)) == Some(TraceJson(t)) && TraceBytes(t) <= TRACE_MAX_BYTES
            && |t.operations| + t.counts.droppedOperations == |calls|
            && forall i :: 0 <= i < |t.operations| ==> t.operations[i].sequence == i
  {
    hide *;
    RunSeals(calls, outcome, phases, safeError);
    RunAccounts(calls, outcome, phases, safeError);
    ReadableFits(SealedRun(calls, outcome, phases, safeError));
  }

  lemma RunAccounts(calls: seq<Call>, outcome: Outcome, phases: seq<Text>, safeError: Option<Text>)
    requires forall c :: c in calls ==> ModerateCall(c)
    ensures var t := SealedRun(calls, outcome, phases, safeError);
            && |t.operations| + t.counts.droppedOperations == |calls|
            && forall i :: 0 <= i < |t.operations| ==> t.operations[i].sequence == i
  {
    hide Sound; hide Counted; hide SealedTrace; hide Recording; hide ModerateCall; hide AllCuts;
    var kept := KeptCalls(calls);
    RunCounts(kept);
    SealedAccountsForCalls(Recordings(kept), outcome, phases, safeError, AllCuts(kept), |calls| - |kept|);
  }

  lemma RunSeals(calls: seq<Call>, outcome: Outcome, phases: seq<Text>, safeError: Option<Text>)
    requires |calls| <= MAX_SAFE_INTEGER && |phases| <= LONGEST && forall c :: c in calls ==> ModerateCall(c)
    ensures var t := SealedRun(calls, outcome, phases, safeError);
            && ReadTrace(TraceJson(t)) == Some(TraceJson(t))
            && t.counts.droppedValues + |t.phases| + 1 <= MAX_SAFE_INTEGER && CountsSafe(t.counts)
  {
    hide Sound; hide Counted; hide Recording; hide ModerateCall; hide AllCuts; hide Assembled;
    hide ReadTrace; hide TraceJson; hide Raised; hide FinalizedAll; hide TrimmedWhile;
    var kept := KeptCalls(calls);
    var ops, cuts, dropped := Recordings(kept), AllCuts(kept), |calls| - |kept|;
    RunCounts(kept);
    var full := Assembled(FinalizedAll(ops, outcome), outcome, phases, safeError, cuts, dropped);
    AssembledRaises(ops, outcome, phases, safeError, cuts, dropped, full);
    RunCountsSafe(full.counts, |calls|, |kept|, cuts, |phases|);
    assert CountsSafe(WorstCounts(full));
    SealedIsReadable(ops, outcome, phases, safeError, cuts, dropped);
    TrimmedCountsWithin(Fits, full);
    TrimmedKeepsOperations(Fits, full);
  }

  /** And the trace persisted with such a run is still accepted and still accounts for every call. */
  lemma PersistedRunIsReadable(calls: seq<Call>, outcome: Outcome, phases: seq<Text>, safeError: Option<Text>, d: Details.Details)
    requires |calls| <= MAX_SAFE_INTEGER && |phases| <= LONGEST && forall c :: c in calls ==> ModerateCall(c)
    requires d.trace == SealedRun(calls, outcome, phases, safeError)
    ensures var t := Details.Persisted(Details.DetailsFit, d).trace;
            && ReadTrace(TraceJson(t)) == Some(TraceJson(t))
            && |t.operations| + t.counts.droppedOperations == |calls|
  {
    hide SealedRun; hide ModerateCall; hide Details.Persisted; hide IsTrace; hide TraceJson;
    RunSeals(calls, outcome, phases, safeError);
    RunAccounts(calls, outcome, phases, safeError);
    Details.PersistedIsReadable(d);
    Details.PersistedAccountsForCalls(d);
  }

  lemma RunCounts(kept: seq<Call>)
    requires |kept| <= MAX_RECORDED_OPERATIONS && forall c :: c in kept ==> ModerateCall(c)
    ensures forall i :: 0 <= i < |kept| ==>
              Sound(Recordings(kept)[i]) && Recordings(kept)[i].sequence == i && Counted(Recordings(kept)[i], LONGEST)
    ensures AllCuts(kept) <= |kept| * (3 + 2 * LONGEST)
  {
    hide Sound; hide Counted; hide ModerateCall; hide Recording;
    forall i | 0 <= i < |kept|
      ensures Sound(Recordings(kept)[i]) && Recordings(kept)[i].sequence == i && Counted(Recordings(kept)[i], LONGEST)
    {
      RecordingCounted(i, kept[i]);
    }
    AllCutsBound(kept);
  }

  lemma ReadableFits(t: Trace)
    requires ReadTrace(TraceJson(t)) == Some(TraceJson(t))
    ensures TraceBytes(t) <= TRACE_MAX_BYTES
  {
    TraceAccepted(t);
  }

  // ----- the recorder as it is used -----

  /** What the host does: it issues calls, and the handle of an issued call reports on it. */
  datatype Action = Issue(ref: Text, projection: Projection) | Report(call: nat, update: Update)

  function Reported(calls: seq<Call>, k: nat, u: Update): (after: seq<Call>)
    requires k < |calls|
    ensures |after| == |calls|
  {
    calls[k := calls[k].(updates := calls[k].updates + [u])]
  }

  function CallsOf(actions: seq<Action>): seq<Call> {
    if actions == [] then []
    else
      var calls := CallsOf(actions[..|actions| - 1]);
      match actions[|actions| - 1]
      case Issue(ref, projection) => calls + [Call(ref, projection, [])]
      case Report(k, u) => if k < |calls| then Reported(calls, k, u) else calls
  }

  function Cuts(op: Recorded, u: Update): nat { if u.Resolve? then ResolveCuts(op, u.provider, u.action) else 0 }

  lemma CutsAfterIssue(calls: seq<Call>, ref: Text, projection: Projection)
    ensures AllCuts(calls + [Call(ref, projection, [])]) == AllCuts(calls) + IssueCuts(ref)
  {
    hide Opened; hide IssueCuts;
    assert (calls + [Call(ref, projection, [])])[..|calls|] == calls;
  }

  lemma SameOpening(sequence: nat, call: Call, updates: seq<Update>)
    ensures Opened(sequence, call.(updates := updates)) == Opened(sequence, call)
  {
    hide SanitizedArgs; hide BoundedIdentity;
  }

  lemma CutsOfOneMore(op: Recorded, updates: seq<Update>, u: Update)
    ensures UpdateCuts(op, updates + [u]) == UpdateCuts(op, updates) + Cuts(After(op, updates), u)
  {
    hide After; hide ResolveCuts;
    assert (updates + [u])[..|updates|] == updates;
  }

  lemma AllCutsSnoc(calls: seq<Call>)
    requires calls != []
    ensures var n := |calls| - 1;
            AllCuts(calls) == AllCuts(calls[..n]) + IssueCuts(calls[n].ref) + UpdateCuts(Opened(n, calls[n]), calls[n].updates)
  {
    hide IssueCuts; hide UpdateCuts; hide Opened;
  }

  lemma {:induction false} CutsAfterReport(calls: seq<Call>, k: nat, u: Update)
    requires k < |calls|
    ensures AllCuts(Reported(calls, k, u)) == AllCuts(calls) + Cuts(Recording(k, calls[k]), u)
  {
    hide Opened; hide IssueCuts; hide UpdateCuts; hide AllCuts; hide Cuts; hide After;
    var n := |calls| - 1;
    AllCutsSnoc(calls);
    AllCutsSnoc(Reported(calls, k, u));
    if k == n {
      assert Reported(calls, k, u)[..n] == calls[..n];
      SameOpening(k, calls[k], calls[k].updates + [u]);
      CutsOfOneMore(Opened(k, calls[k]), calls[k].updates, u);
    } else {
      assert Reported(calls, k, u)[..n] == Reported(calls[..n], k, u);
      CutsAfterReport(calls[..n], k, u);
    }
  }

  lemma RecordingAfterReport(sequence: nat, call: Call, u: Update)
    ensures Recording(sequence, call.(updates := call.updates + [u])) == Updated(Recording(sequence, call), u)
  {
    hide Updated; hide Opened;
    SameOpening(sequence, call, call.updates + [u]);
    assert (call.updates + [u])[..|call.updates|] == call.updates;
  }

  /** A handle reports; it does so in vain when its call was not recorded. */
  method ReportOn(handle: Handle, u: Update)
    requires handle.Linked() && !handle.recorder.isSealed
    modifies handle.operation, handle.recorder`truncatedIdentifiers
    ensures handle.Linked()
    ensures handle.operation != null ==> handle.operation.state == Updated(old(handle.operation.state), u)
    ensures handle.recorder.truncatedIdentifiers == old(handle.recorder.truncatedIdentifiers)
              + (if handle.operation != null then Cuts(old(handle.operation.state), u) else 0)
  {
    hide WithIdentity; hide WithPrepared; hide WithSuccess; hide WithFailure; hide ResolveCuts; hide Sound;
    match u
    case Resolve(provider, action) => handle.Resolved(provider, action);
    case Prepare(projection) => handle.Prepared(projection);
    case Success(projected, reported, cut) => handle.Succeed(projected, reported, cut);
    case Failure(stage, safe, cause, outcome, projected, reported, cut) =>
      handle.Fail(stage, safe, cause, outcome, projected, reported, cut);
  }

  /** What is recorded of the calls made so far, and who may report on them. */
  ghost predicate Records(recorder: TraceRecorder, handles: seq<Handle>, calls: seq<Call>)
    reads recorder, recorder.operations
  {
    && recorder.Valid() && !recorder.isSealed && recorder.nextSequence == |calls| == |handles|
    && |recorder.operations| == |KeptCalls(calls)|
    && (forall k :: 0 <= k < |recorder.operations| ==> recorder.operations[k].state == Recording(k, calls[k]))
    && recorder.truncatedIdentifiers == AllCuts(KeptCalls(calls))
    && forall k :: 0 <= k < |handles| ==>
         && handles[k].recorder == recorder
         && handles[k].operation == if k < |recorder.operations| then recorder.operations[k] else null
  }

  method IssueNext(recorder: TraceRecorder, handles: seq<Handle>, ghost calls: seq<Call>, ref: Text, projection: Projection)
    returns (handle: Handle)
    requires Records(recorder, handles, calls)
    modifies recorder
    ensures Records(recorder, handles + [handle], calls + [Call(ref, projection, [])])
    ensures old(recorder.operations) <= recorder.operations && fresh(recorder.operations[|old(recorder.operations)|..])
  {
    hide Recording; hide AllCuts; hide Issued; hide IssueCuts; hide BoundedIdentity; hide Sound;
    ghost var next := Call(ref, projection, []);
    handle := recorder.IssueCall(ref, projection);
    FirstRecording(|calls|, next);
    KeptAfterIssue(calls, next);
    if |calls| < MAX_RECORDED_OPERATIONS { CutsAfterIssue(calls, ref, projection); }
  }

  lemma FirstRecording(sequence: nat, call: Call)
    requires call.updates == []
    ensures Recording(sequence, call) == Opened(sequence, call)
  {
    hide Opened;
  }

  lemma KeptAfterIssue(calls: seq<Call>, next: Call)
    ensures KeptCalls(calls + [next]) == if |calls| < MAX_RECORDED_OPERATIONS then calls + [next] else KeptCalls(calls)
    ensures |calls| < MAX_RECORDED_OPERATIONS ==> KeptCalls(calls) == calls
  {
  }

  method ReportNext(recorder: TraceRecorder, handles: seq<Handle>, ghost calls: seq<Call>, k: nat, u: Update)
    requires Records(recorder, handles, calls) && k < |handles|
    modifies recorder.operations, recorder`truncatedIdentifiers
    ensures Records(recorder, handles, Reported(calls, k, u))
  {
    hide Recording; hide AllCuts; hide Updated; hide Cuts; hide Sound;
    ReportOn(handles[k], u);
    RecordingAfterReport(k, calls[k], u);
    KeptAfterReport(calls, k, u);
    if k < MAX_RECORDED_OPERATIONS { CutsAfterReport(KeptCalls(calls), k, u); }
  }

  lemma KeptAfterReport(calls: seq<Call>, k: nat, u: Update)
    requires k < |calls|
    ensures KeptCalls(Reported(calls, k, u)) ==
            if k < MAX_RECORDED_OPERATIONS then Reported(KeptCalls(calls), k, u) else KeptCalls(calls)
  {
  }

  /** However the host interleaves its calls and the reports on them, the sealed trace is that of the run. */
  method Replay(actions: seq<Action>, outcome: Outcome, phases: seq<Text>, safeError: Option<Text>) returns (trace: Trace)
    ensures trace == SealedRun(CallsOf(actions), outcome, phases, safeError)
  {
    hide Recording; hide AllCuts; hide SealedTrace; hide Reported; hide Records;
    var recorder := new TraceRecorder();
    var handles: seq<Handle> := [];
    NothingRecorded(recorder);
    for i := 0 to |actions|
      invariant fresh(recorder) && fresh(recorder.operations)
      invariant |handles| == |CallsOf(actions[..i])| && Records(recorder, handles, CallsOf(actions[..i]))
    {
      assert actions[..i + 1][..i] == actions[..i];
      match actions[i]
      case Issue(ref, projection) =>
        ghost var before := recorder.operations;
        var handle := IssueNext(recorder, handles, CallsOf(actions[..i]), ref, projection);
        assert recorder.operations == before + recorder.operations[|before|..];
        handles := handles + [handle];
      case Report(k, u) =>
        if k < |handles| { ReportNext(recorder, handles, CallsOf(actions[..i]), k, u); }
    }
    assert actions[..|actions|] == actions;
    trace := SealRecorded(recorder, handles, CallsOf(actions), outcome, phases, safeError);
  }

  lemma NothingRecorded(recorder: TraceRecorder)
    requires recorder.Valid() && recorder.operations == [] && !recorder.isSealed
    requires recorder.nextSequence == 0 && recorder.truncatedIdentifiers == 0
    ensures Records(recorder, [], [])
  {
  }

  method SealRecorded(recorder: TraceRecorder, ghost handles: seq<Handle>, ghost calls: seq<Call>, outcome: Outcome,
                      phases: seq<Text>, safeError: Option<Text>) returns (trace: Trace)
    requires Records(recorder, handles, calls)
    modifies recorder, recorder.operations
    ensures trace == SealedRun(calls, outcome, phases, safeError)
  {
    hide Recording; hide AllCuts; hide SealedTrace; hide FinalizedAll; hide Sound;
    assert recorder.States() == Recordings(KeptCalls(calls));
    trace := recorder.Seal(outcome, phases, safeError);
  }
}
