/** What a sealed trace says of each call, in terms of what was reported on it; and what it never says. */
module Reports {
  import opened Common
  import opened Json
  import opened Truncate
  import opened Sanitize
  import opened Trace
  import opened Trimming
  import opened Recorder
  import opened Recordings

  // ----- the reports on one call -----

  /** How the last success or failure ended the call. */
  function ReportedOutcome(us: seq<Update>): Option<Outcome> {
    if us == [] then None
    else
      match us[|us| - 1]
      case Success(_, _, _) => Some(Succeeded)
      case Failure(_, _, _, outcome, _, _, _) => Some(outcome)
      case _ => ReportedOutcome(us[..|us| - 1])
  }

  /** The last result a report projected. */
  function ReportedResult(us: seq<Update>): Option<Projection> {
    if us == [] then None
    else
      var u := us[|us| - 1];
      if (u.Success? || u.Failure?) && u.projected.Some? then u.projected else ReportedResult(us[..|us| - 1])
  }

  /** The arguments last prepared, or those the call was issued with. */
  function LastArguments(issued: Projection, us: seq<Update>): Projection {
    if us == [] then issued
    else if us[|us| - 1].Prepare? then us[|us| - 1].projection
    else LastArguments(issued, us[..|us| - 1])
  }

  /** The identity last resolved, or the one its reference spells. */
  function LastIdentity(spelled: (Option<Text>, Option<Text>), us: seq<Update>): (Option<Text>, Option<Text>) {
    if us == [] then spelled
    else if us[|us| - 1].Resolve? then (Some(us[|us| - 1].provider), Some(us[|us| - 1].action))
    else LastIdentity(spelled, us[..|us| - 1])
  }

  function LastStage(us: seq<Update>): Option<Stage> {
    if us == [] then None
    else if us[|us| - 1].Failure? then Some(us[|us| - 1].stage)
    else LastStage(us[..|us| - 1])
  }

  predicate EverCut(us: seq<Update>) { exists u :: u in us && (u.Success? || u.Failure?) && u.cut }

  predicate EverSafe(us: seq<Update>) { exists u :: u in us && u.Failure? && u.safe }

  /** What the last failure says: its cause only when a failure so far was safe, or a shell command ran. */
  function ReportedMessage(shell: bool, us: seq<Update>): Option<Text> {
    if us == [] then None
    else
      var u := us[|us| - 1];
      if !u.Failure? then ReportedMessage(shell, us[..|us| - 1])
      else
        var quoted := u.outcome == Failed && (EverSafe(us) || (shell && u.stage == Invoke));
        Some(FailureMessage(u.stage, u.outcome, if quoted then u.cause else None))
  }

  function ReportedError(shell: bool, us: seq<Update>): Option<Text> {
    match ReportedMessage(shell, us) case None => None case Some(m) => Some(Truncated(m, MAX_ERROR_BYTES))
  }

  predicate ErrorCut(shell: bool, us: seq<Update>) {
    ReportedMessage(shell, us).Some? && ReportedError(shell, us) != ReportedMessage(shell, us)
  }

  /** How many results the projection refused. */
  function Refused(us: seq<Update>): nat {
    if us == [] then 0
    else
      var u := us[|us| - 1];
      Refused(us[..|us| - 1]) + (if (u.Success? || u.Failure?) && u.projected.None? && u.reported then 1 else 0)
  }

  /** What was lost of the last result that was projected. */
  function ResultTally(reported: Option<Projection>): Tally {
    match reported
    case None => NOTHING
    case Some(p) => Plus(SanitizedRoot(p.heap, p.value, MAX_RESULT_BYTES).tally, p.droppedValues)
  }

  /** The state of a recorded call is what was reported last. */
  predicate Reflects(op: Recorded, call: Call) {
    && op.ref == Truncated(call.ref, MAX_IDENTIFIER_BYTES) && op.shell == (call.ref == SHELL_REF)
    && op.outcome == ReportedOutcome(call.updates)
    && op.result == (match ReportedResult(call.updates)
                     case None => None
                     case Some(p) => Some(SanitizedRoot(p.heap, p.value, MAX_RESULT_BYTES).value))
    && op.args == SanitizedArgsOf(LastArguments(call.projection, call.updates)).0
    && (op.provider, op.action) == BoundedPair(LastIdentity(LexicalIdentity(call.ref), call.updates))
    && op.failureStage == LastStage(call.updates)
    && op.error == ReportedError(op.shell, call.updates)
    && op.resultTruncated == EverCut(call.updates) && op.causeSafe == EverSafe(call.updates)
    && op.argsTally == SanitizedArgsOf(LastArguments(call.projection, call.updates)).1
    && op.resultTally == ResultTally(ReportedResult(call.updates)) && op.droppedResultValues == Refused(call.updates)
    && op.errorTruncated == ErrorCut(op.shell, call.updates)
  }

  function BoundedPair(identity: (Option<Text>, Option<Text>)): (Option<Text>, Option<Text>) {
    (BoundedIdentifier(identity.0), BoundedIdentifier(identity.1))
  }

  lemma EverOneMore(us: seq<Update>, u: Update)
    ensures EverSafe(us + [u]) <==> EverSafe(us) || (u.Failure? && u.safe)
    ensures EverCut(us + [u]) <==> EverCut(us) || ((u.Success? || u.Failure?) && u.cut)
  {
    assert forall v :: v in us + [u] <==> v in us || v == u;
  }

  /** What one more update changes of what was reported. */
  lemma OneMore(us: seq<Update>, u: Update, call: Call, shell: bool)
    requires call.updates == us
    ensures var vs := us + [u];
            && (!u.Success? && !u.Failure? ==>
                  ReportedOutcome(vs) == ReportedOutcome(us) && ReportedResult(vs) == ReportedResult(us))
            && (u.Success? || u.Failure? ==>
                  && ReportedOutcome(vs) == Some(if u.Success? then Succeeded else u.outcome)
                  && ReportedResult(vs) == if u.projected.Some? then u.projected else ReportedResult(us))
            && LastArguments(call.projection, vs) == (if u.Prepare? then u.projection else LastArguments(call.projection, us))
            && LastStage(vs) == (if u.Failure? then Some(u.stage) else LastStage(us))
            && (!u.Failure? ==> ReportedMessage(shell, vs) == ReportedMessage(shell, us))
            && Refused(vs) == Refused(us) + (if (u.Success? || u.Failure?) && u.projected.None? && u.reported then 1 else 0)
  {
    hide FailureMessage; hide Truncated; hide EverSafe;
    assert (us + [u])[..|us|] == us;
  }

  lemma OneMoreIdentity(us: seq<Update>, u: Update, spelled: (Option<Text>, Option<Text>))
    ensures LastIdentity(spelled, us + [u])
         == if u.Resolve? then (Some(u.provider), Some(u.action)) else LastIdentity(spelled, us)
  {
    assert (us + [u])[..|us|] == us;
  }

  lemma OneMoreFailure(us: seq<Update>, u: Update, shell: bool)
    requires u.Failure?
    ensures var quoted := u.outcome == Failed && (EverSafe(us) || u.safe || (shell && u.stage == Invoke));
            ReportedMessage(shell, us + [u]) == Some(FailureMessage(u.stage, u.outcome, if quoted then u.cause else None))
  {
    hide FailureMessage; hide Truncated; hide EverSafe;
    EverOneMore(us, u);
  }

  lemma SettingReflects(op: Recorded, call: Call, u: Update)
    requires Reflects(op, call) && (u.Resolve? || u.Prepare?)
    ensures Reflects(Updated(op, u), call.(updates := call.updates + [u]))
  {
    hide SanitizedRoot; hide SanitizedArgsOf; hide Truncated; hide LexicalIdentity; hide EverSafe; hide EverCut;
    hide ReportedOutcome; hide ReportedResult; hide LastArguments; hide LastIdentity; hide LastStage; hide ReportedMessage; hide Refused;
    EverOneMore(call.updates, u);
    OneMore(call.updates, u, call, op.shell);
    OneMoreIdentity(call.updates, u, LexicalIdentity(call.ref));
  }

  lemma SuccessReflects(op: Recorded, call: Call, u: Update)
    requires Reflects(op, call) && u.Success?
    ensures Reflects(Updated(op, u), call.(updates := call.updates + [u]))
  {
    hide SanitizedRoot; hide SanitizedArgsOf; hide Truncated; hide LexicalIdentity; hide EverSafe; hide EverCut;
    hide ReportedOutcome; hide ReportedResult; hide LastArguments; hide LastIdentity; hide LastStage; hide ReportedMessage; hide Refused;
    EverOneMore(call.updates, u);
    OneMore(call.updates, u, call, op.shell);
    OneMoreIdentity(call.updates, u, LexicalIdentity(call.ref));
  }

  lemma FailureReflects(op: Recorded, call: Call, u: Update)
    requires Reflects(op, call) && u.Failure?
    ensures Reflects(Updated(op, u), call.(updates := call.updates + [u]))
  {
    hide SanitizedRoot; hide SanitizedArgsOf; hide Truncated; hide LexicalIdentity; hide FailureMessage; hide EverSafe; hide EverCut;
    hide ReportedOutcome; hide ReportedResult; hide LastArguments; hide LastIdentity; hide LastStage; hide ReportedMessage; hide Refused;
    EverOneMore(call.updates, u);
    OneMore(call.updates, u, call, op.shell);
    OneMoreIdentity(call.updates, u, LexicalIdentity(call.ref));
    OneMoreFailure(call.updates, u, op.shell);
  }

  lemma ReportReflects(op: Recorded, call: Call, u: Update)
    requires Reflects(op, call)
    ensures Reflects(Updated(op, u), call.(updates := call.updates + [u]))
  {
    hide Reflects; hide Updated;
    match u
    case Resolve(_, _) | Prepare(_) => SettingReflects(op, call, u);
    case Success(_, _, _) => SuccessReflects(op, call, u);
    case Failure(_, _, _, _, _, _, _) => FailureReflects(op, call, u);
  }

  lemma NothingReported(sequence: nat, call: Call)
    requires call.updates == []
    ensures Reflects(Opened(sequence, call), call)
  {
    hide SanitizedRoot; hide SanitizedArgs; hide Truncated;
  }

  lemma {:induction false} RecordingReflects(sequence: nat, call: Call)
    ensures Reflects(Recording(sequence, call), call)
    decreases |call.updates|
  {
    hide Reflects; hide Updated; hide Recording;
    if call.updates == [] {
      NothingReported(sequence, call);
      FirstRecording(sequence, call);
    } else {
      var n := |call.updates| - 1;
      var before := call.(updates := call.updates[..n]);
      RecordingReflects(sequence, before);
      ReportReflects(Recording(sequence, before), before, call.updates[n]);
      RecordingAfterReport(sequence, before, call.updates[n]);
      assert before.updates + [call.updates[n]] == call.updates;
    }
  }

  // ----- the sealed trace -----

  /** How a call ends: as it was reported, unless it was cancelled by the end of its time; and a call nobody
      reported on shares the fate of its run, but never its success. */
  function FinalOutcome(reported: Option<Outcome>, run: Outcome): Outcome {
    match reported
    case None => if run == Succeeded then Failed else run
    case Some(o) => if o == Aborted && run == TimedOut then TimedOut else o
  }

  /** What is kept of the error of a call that ended that way. */
  function FinalError(shell: bool, us: seq<Update>, stage: Option<Stage>, final: Outcome): Option<Text> {
    var reported := ReportedError(shell, us);
    if final == Succeeded || (reported.Some? && (EverSafe(us) || (shell && final == Failed))) then reported
    else Some(Truncated(FailureMessage(if stage.Some? then stage.value else Invoke, final, None), MAX_ERROR_BYTES))
  }

  function FinalStage(us: seq<Update>): Option<Stage> {
    if ReportedOutcome(us).None? && LastStage(us).None? then Some(Invoke) else LastStage(us)
  }

  /** A sealed operation tells its call: what was reported last, each value sanitized or left out. */
  predicate Tells(op: Operation, call: Call, run: Outcome) {
    var us, shell := call.updates, call.ref == SHELL_REF;
    && op.ref == Truncated(call.ref, MAX_IDENTIFIER_BYTES)
    && op.outcome == FinalOutcome(ReportedOutcome(us), run)
    && (op.result.None? || (ReportedResult(us).Some? && var p := ReportedResult(us).value;
                              op.result.value == SanitizedRoot(p.heap, p.value, MAX_RESULT_BYTES).value))
    && (op.args == [] || op.args == SanitizedArgsOf(LastArguments(call.projection, us)).0)
    && op.failureStage == FinalStage(us) && op.error == FinalError(shell, us, FinalStage(us), op.outcome)
    && op.resultTruncated == EverCut(us)
    && var identity := BoundedPair(LastIdentity(LexicalIdentity(call.ref), us));
       op.provider == NonEmpty(identity.0) && op.action == NonEmpty(identity.1)
  }

  lemma ClosedEnds(op: Recorded, run: Outcome)
    ensures var final := FinalOutcome(op.outcome, run);
            && Closed(op, run).outcome == Some(final) && Finalized(op, run).outcome == Some(final)
            && Closed(op, run).failureStage == Finalized(op, run).failureStage
            && Finalized(op, run).failureStage ==
                 (if op.outcome.None? && op.failureStage.None? then Some(Invoke) else op.failureStage)
  {
    hide Truncated; hide FailureMessage;
  }

  lemma ClosedSays(op: Recorded, run: Outcome)
    ensures var final, stage := FinalOutcome(op.outcome, run), Finalized(op, run).failureStage;
            Finalized(op, run).error ==
              if final == Succeeded || (op.error.Some? && (op.causeSafe || (op.shell && final == Failed))) then op.error
              else Some(Truncated(FailureMessage(if stage.Some? then stage.value else Invoke, final, None), MAX_ERROR_BYTES))
  {
    hide Truncated; hide FailureMessage; hide FinalOutcome;
    ClosedEnds(op, run);
  }

  lemma ClosedTells(op: Recorded, call: Call, run: Outcome)
    requires Reflects(op, call)
    ensures Tells(TraceOperation(Finalized(op, run)), call, run)
  {
    hide SanitizedRoot; hide SanitizedArgsOf; hide Truncated; hide LexicalIdentity; hide FailureMessage; hide EverSafe; hide EverCut;
    hide ReportedOutcome; hide ReportedResult; hide LastArguments; hide LastIdentity; hide LastStage; hide ReportedMessage; hide Refused;
    hide FinalOutcome; hide Finalized; hide NonEmpty; hide BoundedIdentifier;
    FinalizedCloses(op, run);
    ClosedEnds(op, run);
    ClosedSays(op, run);
  }

  lemma TrimmingTells(op: Operation, original: Operation, call: Call, run: Outcome)
    requires Tells(original, call, run) && Keeps(op, original)
    ensures Tells(op, call, run)
  {
    hide SanitizedRoot; hide SanitizedArgsOf; hide Truncated; hide LexicalIdentity; hide EverCut;
    hide ReportedOutcome; hide ReportedResult; hide LastArguments; hide LastIdentity; hide FinalStage; hide FinalError;
  }

  /** Every operation of a sealed run tells the call it stands for. */
  lemma SealedTellsCalls(calls: seq<Call>, outcome: Outcome, phases: seq<Text>, safeError: Option<Text>, i: nat)
    requires i < |SealedRun(calls, outcome, phases, safeError).operations|
    ensures i < |calls| && Tells(SealedRun(calls, outcome, phases, safeError).operations[i], calls[i], outcome)
  {
    hide Tells; hide Reflects; hide Recording; hide Finalized; hide TrimmedWhile; hide AllCuts; hide TraceOperation;
    hide SumTallies; hide AddPhaseTallies; hide RunError; hide Truncated; hide Keeps;
    var kept := KeptCalls(calls);
    var closed := FinalizedAll(Recordings.Recordings(kept), outcome);
    var full := Assembled(closed, outcome, phases, safeError, AllCuts(kept), |calls| - |kept|);
    TrimmedKeepsOperations(Fits, full);
    RecordingReflects(i, kept[i]);
    ClosedTells(Recording(i, kept[i]), kept[i], outcome);
    TrimmingTells(SealedRun(calls, outcome, phases, safeError).operations[i], full.operations[i], kept[i], outcome);
  }

  /** A sealed trace tells how its run ended, its first phases, and the error the host calls safe or else a
      message of its own. */
  lemma SealedTellsRun(calls: seq<Call>, outcome: Outcome, phases: seq<Text>, safeError: Option<Text>)
    ensures var t := SealedRun(calls, outcome, phases, safeError);
            && t.outcome == outcome && |t.phases| <= Min(|phases|, MAX_PHASES)
            && (forall i :: 0 <= i < |t.phases| ==> t.phases[i] == Truncated(phases[i], MAX_PHASE_BYTES))
            && (safeError.Some? && Strip(safeError.value) != [] ==> t.error == Some(Truncated(Strip(safeError.value), MAX_ERROR_BYTES)))
            && (safeError.None? || Strip(safeError.value) == [] ==> (t.error.None? <==> outcome == Succeeded))
  {
    hide Recording; hide Finalized; hide TrimmedWhile; hide AllCuts; hide TraceOperation; hide FinalizedAll;
    hide SumTallies; hide AddPhaseTallies; hide Truncated; hide Keeps; hide Strip;
    var kept := KeptCalls(calls);
    var full := Assembled(FinalizedAll(Recordings.Recordings(kept), outcome), outcome, phases, safeError, AllCuts(kept), |calls| - |kept|);
    TrimmedKeepsOperations(Fits, full);
  }

  // ----- what is counted -----

  function Total(a: Tally, b: Tally): Tally {
    Tally(a.droppedValues + b.droppedValues, a.truncatedValues + b.truncatedValues, a.redactedValues + b.redactedValues)
  }

  /** What one call contributes to the counters: what was lost of its arguments and of its result, every result
      the projection refused, and a cut of the error that is kept. */
  function CallTally(call: Call, run: Outcome): Tally {
    var us, shell := call.updates, call.ref == SHELL_REF;
    var final := FinalOutcome(ReportedOutcome(us), run);
    var keeps := ReportedError(shell, us).Some? && (final == Succeeded || EverSafe(us) || (shell && final == Failed));
    Total(SanitizedArgsOf(LastArguments(call.projection, us)).1,
          Total(ResultTally(ReportedResult(us)), Tally(Refused(us), if keeps && ErrorCut(shell, us) then 1 else 0, 0)))
  }

  function CallTallies(calls: seq<Call>, run: Outcome): Tally {
    if calls == [] then NOTHING else Total(CallTallies(calls[..|calls| - 1], run), CallTally(calls[|calls| - 1], run))
  }

  lemma MessageFits(stage: Stage, outcome: Outcome)
    ensures var m := FailureMessage(stage, outcome, None); Truncated(m, MAX_ERROR_BYTES) == m
  {
    var m := FailureMessage(stage, outcome, None);
    assert Utf8(m) <= 3 * |m|;
  }

  lemma ClosedCounts(c: Counts, op: Recorded, call: Call, run: Outcome)
    requires Reflects(op, call)
    ensures AddOperationTallies(c, Finalized(op, run)) == AddTally(c, CallTally(call, run))
  {
    hide SanitizedRoot; hide SanitizedArgsOf; hide Truncated; hide LexicalIdentity; hide FailureMessage; hide EverSafe; hide EverCut;
    hide ReportedOutcome; hide ReportedResult; hide LastArguments; hide LastIdentity; hide LastStage; hide ReportedMessage;
    hide FinalOutcome; hide Finalized; hide BoundedIdentifier; hide Refused; hide FinalError;
    FinalizedCloses(op, run);
    ClosedEnds(op, run);
    ClosedCuts(op, run);
  }

  lemma ClosedCuts(op: Recorded, run: Outcome)
    ensures var final := FinalOutcome(op.outcome, run);
            var keeps := final == Succeeded || (op.error.Some? && (op.causeSafe || (op.shell && final == Failed)));
            && (keeps ==> Finalized(op, run).errorTruncated == op.errorTruncated && Finalized(op, run).error == op.error)
            && (!keeps ==> !Finalized(op, run).errorTruncated)
  {
    hide Truncated; hide FailureMessage; hide FinalOutcome;
    ClosedEnds(op, run);
    var closed := Closed(op, run);
    MessageFits(if closed.failureStage.Some? then closed.failureStage.value else Invoke, closed.outcome.value);
  }

  lemma {:induction false} RunCounts(c: Counts, kept: seq<Call>, run: Outcome)
    ensures SumTallies(c, FinalizedAll(Recordings.Recordings(kept), run)) == AddTally(c, CallTallies(kept, run))
  {
    hide Recording; hide Finalized; hide AddOperationTallies; hide CallTally; hide Reflects;
    var ops := FinalizedAll(Recordings.Recordings(kept), run);
    if kept == [] {
      assert ops == [];
    } else {
      var n := |kept| - 1;
      assert ops[..n] == FinalizedAll(Recordings.Recordings(kept[..n]), run);
      RunCounts(c, kept[..n], run);
      RecordingReflects(n, kept[n]);
      ClosedCounts(SumTallies(c, ops[..n]), Recording(n, kept[n]), kept[n], run);
    }
  }

  /** How many calls reported a result, and how many have arguments to show. */
  function Results(calls: seq<Call>): nat {
    if calls == [] then 0
    else Results(calls[..|calls| - 1]) + (if ReportedResult(calls[|calls| - 1].updates).Some? then 1 else 0)
  }

  function Arguments(calls: seq<Call>): nat {
    if calls == [] then 0
    else
      var last := calls[|calls| - 1];
      Arguments(calls[..|calls| - 1]) + (if SanitizedArgsOf(LastArguments(last.projection, last.updates)).0 != [] then 1 else 0)
  }

  function Told(calls: seq<Call>, run: Outcome): (ops: seq<Operation>)
    ensures |ops| == |calls|
  {
    seq(|calls|, i requires 0 <= i < |calls| => TraceOperation(Finalized(Recording(i, calls[i]), run)))
  }

  lemma {:induction false} ToldCarries(calls: seq<Call>, run: Outcome)
    ensures WithResult(Told(calls, run)) == Results(calls) && WithArgs(Told(calls, run)) == Arguments(calls)
  {
    hide Recording; hide Finalized; hide SanitizedArgsOf; hide SanitizedRoot; hide ReportedResult; hide LastArguments; hide LexicalIdentity;
    hide ReportedOutcome; hide LastIdentity; hide LastStage; hide ReportedMessage; hide Refused; hide Truncated; hide EverSafe; hide EverCut;
    if calls == [] {
      assert Told(calls, run) == [];
    } else {
      var n := |calls| - 1;
      assert Told(calls, run)[..n] == Told(calls[..n], run);
      ToldCarries(calls[..n], run);
      RecordingReflects(n, calls[n]);
      FinalizedCloses(Recording(n, calls[n]), run);
    }
  }

  /** Everything that was reported is told or counted. Each counter is exactly what the calls lost, what is
      beyond the limits, what was cut, and what of the reported results, arguments and phases is not told. */
  lemma SealedCounts(calls: seq<Call>, outcome: Outcome, phases: seq<Text>, safeError: Option<Text>)
    ensures var t, kept := SealedRun(calls, outcome, phases, safeError), KeptCalls(calls);
            var lost, shown := CallTallies(kept, outcome), phases[..Min(|phases|, MAX_PHASES)];
            var runError := RunError(outcome, safeError);
            && t.counts.droppedValues == lost.droppedValues + |phases| - |t.phases|
                 + Results(kept) - WithResult(t.operations) + Arguments(kept) - WithArgs(t.operations)
            && t.counts.truncatedValues == lost.truncatedValues + AllCuts(kept) + CutPhases(shown)
                 + (if |phases| > |shown| then 1 else 0) + (if t.error != runError then 1 else 0)
                 + Arguments(kept) - WithArgs(t.operations)
            && t.counts.redactedValues == lost.redactedValues
  {
    hide Recording; hide Finalized; hide TrimmedWhile; hide AllCuts; hide TraceOperation; hide SumTallies; hide WithResult; hide WithArgs;
    hide Truncated; hide Keeps; hide RunError; hide CallTallies; hide CutPhases; hide Results; hide Arguments;
    var kept := KeptCalls(calls);
    var closed := FinalizedAll(Recordings.Recordings(kept), outcome);
    RunCounts(Counts(0, AllCuts(kept), 0, |calls| - |kept|), kept, outcome);
    var full := Assembled(closed, outcome, phases, safeError, AllCuts(kept), |calls| - |kept|);
    assert full.operations == Told(kept, outcome);
    ToldCarries(kept, outcome);
    TrimmedKeepsOperations(Fits, full);
    TrimmedCountsValues(Fits, full);
  }

  // ----- what is never told -----

  /** A call whose errors are somebody else's text: no failure of it is safe, and it is no shell command. */
  predicate Confidential(call: Call) { call.ref != SHELL_REF && !EverSafe(call.updates) }

  function WithoutCause(u: Update): Update { if u.Failure? then u.(cause := None) else u }

  function WithoutCauses(us: seq<Update>): (vs: seq<Update>)
    ensures |vs| == |us| && forall i :: 0 <= i < |us| ==> vs[i] == WithoutCause(us[i])
  {
    seq(|us|, i requires 0 <= i < |us| => WithoutCause(us[i]))
  }

  function Censored(call: Call): Call {
    if Confidential(call) then call.(updates := WithoutCauses(call.updates)) else call
  }

  function CensoredAll(calls: seq<Call>): (cs: seq<Call>)
    ensures |cs| == |calls| && forall i :: 0 <= i < |calls| ==> cs[i] == Censored(calls[i])
  {
    seq(|calls|, i requires 0 <= i < |calls| => Censored(calls[i]))
  }

  predicate Closemouthed(op: Recorded) { !op.shell && !op.causeSafe }

  lemma CauseUnheard(op: Recorded, u: Update)
    requires Closemouthed(op) && !(u.Failure? && u.safe)
    ensures Updated(op, WithoutCause(u)) == Updated(op, u) && Closemouthed(Updated(op, u))
  {
    hide SanitizedRoot; hide SanitizedArgsOf; hide Truncated; hide FailureMessage;
  }

  lemma {:induction false} CausesUnheard(op: Recorded, us: seq<Update>)
    requires Closemouthed(op) && !EverSafe(us)
    ensures After(op, WithoutCauses(us)) == After(op, us) && Closemouthed(After(op, us))
    ensures UpdateCuts(op, WithoutCauses(us)) == UpdateCuts(op, us)
  {
    hide Updated; hide Closemouthed; hide ResolveCuts; hide EverSafe;
    if us != [] {
      var init, u := us[..|us| - 1], us[|us| - 1];
      EverOneMore(init, u);
      assert init + [u] == us;
      assert WithoutCauses(us)[..|us| - 1] == WithoutCauses(init);
      CausesUnheard(op, init);
      CauseUnheard(After(op, init), u);
    }
  }

  lemma CensoredRecording(sequence: nat, call: Call)
    ensures Recording(sequence, Censored(call)) == Recording(sequence, call)
    ensures Opened(sequence, Censored(call)) == Opened(sequence, call)
    ensures UpdateCuts(Opened(sequence, call), Censored(call).updates) == UpdateCuts(Opened(sequence, call), call.updates)
  {
    hide After; hide UpdateCuts; hide EverSafe; hide SanitizedArgsOf; hide BoundedIdentity;
    if Confidential(call) { CausesUnheard(Opened(sequence, call), call.updates); }
  }

  lemma {:induction false} CensoredCuts(calls: seq<Call>)
    ensures AllCuts(CensoredAll(calls)) == AllCuts(calls)
  {
    hide Opened; hide UpdateCuts; hide IssueCuts; hide AllCuts; hide Confidential;
    if calls == [] {
      assert CensoredAll(calls) == calls;
    } else {
      var n := |calls| - 1;
      AllCutsSnoc(calls);
      AllCutsSnoc(CensoredAll(calls));
      assert CensoredAll(calls)[..n] == CensoredAll(calls[..n]);
      CensoredCuts(calls[..n]);
      CensoredRecording(n, calls[n]);
    }
  }

  /** The trace does not depend on the cause of any failure that is neither safe nor a shell command's: with
      those texts taken out of everything that was reported, the sealed trace is the same. */
  lemma CausesStayOut(calls: seq<Call>, outcome: Outcome, phases: seq<Text>, safeError: Option<Text>)
    ensures SealedRun(CensoredAll(calls), outcome, phases, safeError) == SealedRun(calls, outcome, phases, safeError)
  {
    hide Recording; hide SealedTrace; hide AllCuts; hide Censored;
    var kept := KeptCalls(calls);
    assert KeptCalls(CensoredAll(calls)) == CensoredAll(kept);
    CensoredCuts(kept);
    forall i | 0 <= i < |kept|
      ensures Recording(i, Censored(kept[i])) == Recording(i, kept[i])
    {
      CensoredRecording(i, kept[i]);
    }
    assert Recordings.Recordings(CensoredAll(kept)) == Recordings.Recordings(kept);
  }
}
