/** The input queues of a Claude child: steers and follow-ups wait until they may be written, at most one
    kind is held back by the other, and the child's stdin is closed once it has been idle for a while. */
module ClaudeInput {
  import opened Common

  const MAX_CLAUDE_PENDING_INPUTS := 256

  datatype Kind = Initial | Steer | FollowUp

  datatype Input = Input(kind: Kind, message: nat)

  datatype Mode = All | OneAtATime

  /** What a line of the steer file asks for; anything not understood still counts as a command. */
  datatype Command =
    | SteerCommand(message: nat)
    | FollowUpCommand(message: nat)
    | SteeringMode(mode: Mode)
    | FollowUpMode(mode: Mode)
    | Unknown

  /** `sent` is what was written and not yet answered. `written` and the two `accepted` logs are
      history: everything written, and the messages each queue ever took. */
  datatype Inputs = Inputs(
    sent: seq<Input>, steering: seq<nat>, followUps: seq<nat>, steeringMode: Mode, followUpMode: Mode,
    canFollowUp: bool, timer: bool, open: bool, failed: bool, terminal: bool,
    written: seq<Input>, acceptedSteers: seq<nat>, acceptedFollowUps: seq<nat>)

  predicate Sent(sent: seq<Input>, kind: Kind) { exists i :: 0 <= i < |sent| && sent[i].kind == kind }

  function Tagged(kind: Kind, messages: seq<nat>): (inputs: seq<Input>)
    ensures |inputs| == |messages|
  {
    if messages == [] then [] else [Input(kind, messages[0])] + Tagged(kind, messages[1..])
  }

  /** Writing to a closed stdin only disarms the timer. */
  function WriteAll(s: Inputs, kind: Kind, messages: seq<nat>): Inputs {
    if messages == [] then s
    else if !s.open then s.(timer := false)
    else s.(sent := s.sent + Tagged(kind, messages), written := s.written + Tagged(kind, messages),
            canFollowUp := s.canFollowUp && kind != FollowUp, timer := false)
  }

  function FlushSteering(s: Inputs): Inputs {
    if s.steering == [] || (s.steeringMode == OneAtATime && Sent(s.sent, Steer)) then s
    else
      var count := if s.steeringMode == All then |s.steering| else 1;
      WriteAll(s.(steering := s.steering[count..]), Steer, s.steering[..count])
  }

  function FlushFollowUps(s: Inputs): Inputs {
    if s.followUps == [] || s.steering != [] || Sent(s.sent, Steer)
       || (s.followUpMode == OneAtATime && Sent(s.sent, FollowUp)) then s
    else
      var count := if s.followUpMode == All then |s.followUps| else 1;
      WriteAll(s.(followUps := s.followUps[count..]), FollowUp, s.followUps[..count])
  }

  function Pending(s: Inputs): nat { |s.sent| + |s.steering| + |s.followUps| }

  predicate Idle(s: Inputs) { Pending(s) == 0 }

  predicate Full(s: Inputs) { Pending(s) >= MAX_CLAUDE_PENDING_INPUTS }

  /** Follow-ups are only flushed by a command while the child waits for one. */
  function FlushIfIdle(s: Inputs): Inputs { if s.canFollowUp && s.sent == [] then FlushFollowUps(s) else s }

  /** A command disarms the close timer, and joins its queue unless too much is pending. */
  function Taken(s: Inputs, c: Command): Inputs {
    var u := s.(timer := false);
    match c
    case SteerCommand(m) => if Full(u) then u else u.(steering := u.steering + [m], acceptedSteers := u.acceptedSteers + [m])
    case FollowUpCommand(m) =>
      if Full(u) then u else u.(followUps := u.followUps + [m], acceptedFollowUps := u.acceptedFollowUps + [m])
    case SteeringMode(mode) => u.(steeringMode := mode)
    case FollowUpMode(mode) => u.(followUpMode := mode)
    case Unknown => u
  }

  function Commanded(s: Inputs, c: Command): Inputs {
    match c
    case SteerCommand(_) => FlushSteering(Taken(s, c))
    case SteeringMode(_) => FlushSteering(Taken(s, c))
    case FollowUpCommand(_) => FlushIfIdle(Taken(s, c))
    case FollowUpMode(_) => FlushIfIdle(Taken(s, c))
    case Unknown => Taken(s, c)
  }

  /** The oldest input is answered; what waits may follow, and an idle child is about to be closed. */
  function Continued(s: Inputs): Inputs {
    var shifted := FlushSteering(s.(sent := if s.sent == [] then [] else s.sent[1..], canFollowUp := true));
    var flushed := if shifted.sent == [] && shifted.steering == [] then FlushFollowUps(shifted) else shifted;
    if Idle(flushed) then flushed.(timer := true) else flushed
  }

  /** Too many tokens end the child; a failed result drops what waits. */
  function Judged(s: Inputs, failed: bool, overLimit: bool): Inputs {
    var u := if overLimit && !s.terminal then s.(terminal := true, open := false) else s;
    if failed then u.(steering := [], followUps := [], failed := true) else u
  }

  /** A result frame; `overLimit` says that the run's tokens are now too many. */
  function Answered(s: Inputs, failed: bool, overLimit: bool): Inputs {
    var v := Judged(s, failed, overLimit);
    if failed || v.terminal then v.(sent := [], canFollowUp := false, open := false) else Continued(v)
  }

  function TimerFired(s: Inputs): Inputs { if Idle(s) then s.(timer := false, open := false) else s.(timer := false) }

  // ----- steps -----

  datatype Event =
    | Frame(failed: bool, overLimit: bool)
    | Line(command: Command)
    | Timer
    | Terminate
    | CloseStdin

  predicate Enabled(s: Inputs, e: Event) {
    match e
    case Line(_) => !s.terminal
    case Timer => s.timer
    case Frame(_, _) | Terminate | CloseStdin => true
  }

  function Apply(s: Inputs, e: Event): Inputs
    requires Enabled(s, e)
  {
    match e
    case Frame(failed, overLimit) => Answered(s, failed, overLimit)
    case Line(command) => Commanded(s, command)
    case Timer => TimerFired(s)
    case Terminate => s.(terminal := true)
    case CloseStdin => s.(open := false)
  }

  /** The first prompt has just been written. */
  function Started(prompt: nat): Inputs {
    Inputs([Input(Initial, prompt)], [], [], OneAtATime, OneAtATime, false, false, true, false, false,
           [Input(Initial, prompt)], [], [])
  }

  // ----- what every run keeps -----

  function Messages(inputs: seq<Input>, kind: Kind): seq<nat> {
    if inputs == [] then []
    else (if inputs[0].kind == kind then [inputs[0].message] else []) + Messages(inputs[1..], kind)
  }

  lemma {:induction false} MessagesAppend(a: seq<Input>, b: seq<Input>, kind: Kind)
    ensures Messages(a + b, kind) == Messages(a, kind) + Messages(b, kind)
  {
    if a == [] {
      assert a + b == b;
    } else {
      assert (a + b)[0] == a[0] && (a + b)[1..] == a[1..] + b;
      MessagesAppend(a[1..], b, kind);
    }
  }

  lemma {:induction false} TaggedMessages(kind: Kind, messages: seq<nat>, of: Kind)
    ensures Messages(Tagged(kind, messages), of) == if kind == of then messages else []
    ensures forall i :: 0 <= i < |messages| ==> Tagged(kind, messages)[i] == Input(kind, messages[i])
  {
    if messages != [] {
      TaggedMessages(kind, messages[1..], of);
      assert Tagged(kind, messages)[1..] == Tagged(kind, messages[1..]);
    }
  }

  predicate Live(s: Inputs) { s.open && !s.failed && !s.terminal }

  /** Everything accepted was written, in order and once, or still waits behind what was written. */
  predicate Accounted(s: Inputs) {
    && Messages(s.written, Steer) + s.steering == s.acceptedSteers
    && Messages(s.written, FollowUp) + s.followUps == s.acceptedFollowUps
  }

  /** What is in flight is what was written last. */
  predicate InFlightIsLast(s: Inputs) {
    |s.sent| <= |s.written| && s.sent == s.written[|s.written| - |s.sent|..]
  }

  /** Nothing waits on an idle child, and an idle child may be given a follow-up. */
  predicate NeverStuck(s: Inputs) {
    && (s.sent == [] ==> s.steering == [] && s.followUps == [] && s.canFollowUp)
  }

  predicate Inv(s: Inputs) {
    && Pending(s) <= MAX_CLAUDE_PENDING_INPUTS
    && (Live(s) ==> Accounted(s) && InFlightIsLast(s) && NeverStuck(s))
  }

  lemma SuffixAppend(written: seq<Input>, n: nat, more: seq<Input>)
    requires n <= |written|
    ensures (written + more)[|written + more| - (n + |more|)..] == written[|written| - n..] + more
  {
  }

  lemma WriteKeepsFlight(s: Inputs, kind: Kind, messages: seq<nat>)
    requires InFlightIsLast(s)
    ensures InFlightIsLast(WriteAll(s, kind, messages))
  {
    hide Tagged;
    SuffixAppend(s.written, |s.sent|, Tagged(kind, messages));
  }

  lemma WriteKeepsMessages(s: Inputs, kind: Kind, messages: seq<nat>, other: Kind)
    requires s.open
    ensures Messages(WriteAll(s, kind, messages).written, other) == Messages(s.written, other) + (if kind == other then messages else [])
  {
    hide Messages; hide Tagged;
    TaggedMessages(kind, messages, other);
    MessagesAppend(s.written, Tagged(kind, messages), other);
  }

  lemma WriteKeeps(s: Inputs, kind: Kind, messages: seq<nat>)
    requires s.open && InFlightIsLast(s) && kind != Initial
    ensures var t := WriteAll(s, kind, messages);
            && InFlightIsLast(t)
            && Messages(t.written, Steer) == Messages(s.written, Steer) + (if kind == Steer then messages else [])
            && Messages(t.written, FollowUp) == Messages(s.written, FollowUp) + (if kind == FollowUp then messages else [])
            && |t.sent| == |s.sent| + |messages|
            && t.open && t.failed == s.failed && t.terminal == s.terminal && t.steering == s.steering
            && t.followUps == s.followUps && t.acceptedSteers == s.acceptedSteers && t.acceptedFollowUps == s.acceptedFollowUps
            && (kind != FollowUp ==> t.canFollowUp == s.canFollowUp)
  {
    hide Messages; hide Tagged; hide InFlightIsLast;
    WriteKeepsFlight(s, kind, messages);
    WriteKeepsMessages(s, kind, messages, Steer);
    WriteKeepsMessages(s, kind, messages, FollowUp);
  }

  lemma FlushSteeringKeeps(s: Inputs)
    requires s.open && Accounted(s) && InFlightIsLast(s)
    ensures var t := FlushSteering(s);
            && Accounted(t) && InFlightIsLast(t) && Pending(t) == Pending(s) && t.followUps == s.followUps
            && t.canFollowUp == s.canFollowUp && t.open && t.failed == s.failed && t.terminal == s.terminal
            && (t.sent == [] ==> t.steering == [] && s.sent == [])
  {
    hide Messages; hide Tagged; hide WriteAll;
    if s.steering != [] && !(s.steeringMode == OneAtATime && Sent(s.sent, Steer)) {
      var count := if s.steeringMode == All then |s.steering| else 1;
      WriteKeeps(s.(steering := s.steering[count..]), Steer, s.steering[..count]);
      assert s.steering == s.steering[..count] + s.steering[count..];
    }
  }

  lemma FlushFollowUpsKeeps(s: Inputs)
    requires s.open && Accounted(s) && InFlightIsLast(s)
    ensures var t := FlushFollowUps(s);
            && Accounted(t) && InFlightIsLast(t) && Pending(t) == Pending(s) && t.steering == s.steering
            && t.open && t.failed == s.failed && t.terminal == s.terminal
            && (t.sent == [] ==> t.canFollowUp == s.canFollowUp && s.sent == [])
            && (t.sent == [] && s.steering == [] ==> t.followUps == [])
  {
    hide Messages; hide Tagged; hide WriteAll;
    if s.followUps != [] && s.steering == [] && !Sent(s.sent, Steer)
       && !(s.followUpMode == OneAtATime && Sent(s.sent, FollowUp)) {
      var count := if s.followUpMode == All then |s.followUps| else 1;
      WriteKeeps(s.(followUps := s.followUps[count..]), FollowUp, s.followUps[..count]);
      assert s.followUps == s.followUps[..count] + s.followUps[count..];
    }
  }

  /** The child's lights stay as they are. */
  predicate SameLights(s: Inputs, t: Inputs) { t.open == s.open && t.failed == s.failed && t.terminal == s.terminal }

  lemma WriteBounded(s: Inputs, kind: Kind, messages: seq<nat>)
    ensures var t := WriteAll(s, kind, messages);
            && SameLights(s, t) && t.steering == s.steering && t.followUps == s.followUps
            && |s.sent| <= |t.sent| <= |s.sent| + |messages|
  {
    hide Tagged;
  }

  lemma FlushSteeringBounded(s: Inputs)
    ensures SameLights(s, FlushSteering(s)) && Pending(FlushSteering(s)) <= Pending(s)
  {
    hide WriteAll; hide SameLights; hide Sent;
    var count := if s.steeringMode == All then |s.steering| else 1;
    if s.steering != [] {
      SameLightsOf(s, s.(steering := s.steering[count..]));
      WriteBounded(s.(steering := s.steering[count..]), Steer, s.steering[..count]);
      SameLightsThrough(s, s.(steering := s.steering[count..]), WriteAll(s.(steering := s.steering[count..]), Steer, s.steering[..count]));
    }
    SameLightsOf(s, s);
  }

  lemma FlushFollowUpsBounded(s: Inputs)
    ensures SameLights(s, FlushFollowUps(s)) && Pending(FlushFollowUps(s)) <= Pending(s)
  {
    hide WriteAll; hide SameLights; hide Sent;
    var count := if s.followUpMode == All then |s.followUps| else 1;
    if s.followUps != [] {
      SameLightsOf(s, s.(followUps := s.followUps[count..]));
      WriteBounded(s.(followUps := s.followUps[count..]), FollowUp, s.followUps[..count]);
      SameLightsThrough(s, s.(followUps := s.followUps[count..]), WriteAll(s.(followUps := s.followUps[count..]), FollowUp, s.followUps[..count]));
    }
    SameLightsOf(s, s);
  }

  lemma SameLightsOf(s: Inputs, t: Inputs)
    requires t.open == s.open && t.failed == s.failed && t.terminal == s.terminal
    ensures SameLights(s, t)
  {
  }

  lemma SameLightsThrough(s: Inputs, t: Inputs, u: Inputs)
    requires SameLights(s, t) && SameLights(t, u)
    ensures SameLights(s, u)
  {
  }

  lemma FlushesBounded(s: Inputs)
    ensures SameLights(s, FlushSteering(s)) && Pending(FlushSteering(s)) <= Pending(s)
    ensures SameLights(s, FlushFollowUps(s)) && Pending(FlushFollowUps(s)) <= Pending(s)
  {
    hide FlushSteering; hide FlushFollowUps; hide SameLights;
    FlushSteeringBounded(s);
    FlushFollowUpsBounded(s);
  }

  lemma OneMore(written: seq<nat>, waiting: seq<nat>, accepted: seq<nat>, m: nat)
    requires written + waiting == accepted
    ensures written + (waiting + [m]) == accepted + [m]
  {
  }

  lemma TakenKeepsAccounts(s: Inputs, c: Command)
    requires Accounted(s)
    ensures Accounted(Taken(s, c))
  {
    hide Messages;
    if c.SteerCommand? { OneMore(Messages(s.written, Steer), s.steering, s.acceptedSteers, c.message); }
    if c.FollowUpCommand? { OneMore(Messages(s.written, FollowUp), s.followUps, s.acceptedFollowUps, c.message); }
  }

  lemma TakenKeepsFlight(s: Inputs, c: Command)
    requires InFlightIsLast(s)
    ensures InFlightIsLast(Taken(s, c))
  {
    hide InFlightIsLast;
    var q := Taken(s, c);
    assert q.sent == s.sent && q.written == s.written;
    SameFlight(s, q);
  }

  lemma SameFlight(s: Inputs, q: Inputs)
    requires InFlightIsLast(s) && q.sent == s.sent && q.written == s.written
    ensures InFlightIsLast(q)
  {
  }

  /** Taking a command keeps what is accepted accounted for. */
  lemma TakenKeeps(s: Inputs, c: Command)
    requires Inv(s)
    ensures var q := Taken(s, c);
            && SameLights(s, q) && Pending(q) <= MAX_CLAUDE_PENDING_INPUTS && q.sent == s.sent && q.canFollowUp == s.canFollowUp
            && (Live(s) ==> Accounted(q) && InFlightIsLast(q))
            && (!c.SteerCommand? ==> q.steering == s.steering) && (!c.FollowUpCommand? ==> q.followUps == s.followUps)
  {
    hide Messages; hide Accounted; hide InFlightIsLast; hide NeverStuck;
    if Live(s) {
      TakenKeepsAccounts(s, c);
      TakenKeepsFlight(s, c);
    }
  }

  lemma CommandKeepsInv(s: Inputs, c: Command)
    requires Inv(s) && !s.terminal
    ensures Inv(Commanded(s, c))
  {
    hide Messages; hide Tagged; hide FlushSteering; hide FlushFollowUps; hide Taken; hide Accounted; hide InFlightIsLast;
    var q := Taken(s, c);
    TakenKeeps(s, c);
    FlushesBounded(q);
    if Live(s) {
      FlushSteeringKeeps(q);
      FlushFollowUpsKeeps(q);
    }
  }

  lemma AnswerKeepsInv(s: Inputs, failed: bool, overLimit: bool)
    requires Inv(s)
    ensures Inv(Answered(s, failed, overLimit))
  {
    hide Messages; hide Tagged; hide FlushSteering; hide FlushFollowUps;
    if !failed && !s.terminal && !overLimit {
      var v := s.(sent := if s.sent == [] then [] else s.sent[1..], canFollowUp := true);
      FlushesBounded(v);
      FlushesBounded(FlushSteering(v));
      if Live(s) {
        FlushSteeringKeeps(v);
        FlushFollowUpsKeeps(FlushSteering(v));
      }
    }
  }

  /** Every result frame, command, timer and termination keeps the invariant. */
  lemma StepKeepsInv(s: Inputs, e: Event)
    requires Inv(s) && Enabled(s, e)
    ensures Inv(Apply(s, e))
  {
    match e
    case Frame(failed, overLimit) => AnswerKeepsInv(s, failed, overLimit);
    case Line(command) => CommandKeepsInv(s, command);
    case Timer | Terminate | CloseStdin =>
  }

  predicate Runs(s: Inputs, es: seq<Event>)
    decreases es
  {
    es == [] || (Enabled(s, es[0]) && Runs(Apply(s, es[0]), es[1..]))
  }

  function Final(s: Inputs, es: seq<Event>): Inputs
    requires Runs(s, es)
    decreases es
  {
    if es == [] then s else Final(Apply(s, es[0]), es[1..])
  }

  lemma {:induction false} RunKeepsInv(s: Inputs, es: seq<Event>)
    requires Inv(s) && Runs(s, es)
    ensures Inv(Final(s, es))
    decreases es
  {
    if es != [] {
      StepKeepsInv(s, es[0]);
      RunKeepsInv(Apply(s, es[0]), es[1..]);
    }
  }

  /** In every run, as long as the child is live, a waiting message implies one in flight, every accepted
      message was written once and in order within its kind or still waits, and never more than 256
      messages are pending. */
  lemma QueuesNeverDeadlock(prompt: nat, es: seq<Event>)
    requires Runs(Started(prompt), es)
    ensures var t := Final(Started(prompt), es);
            && Pending(t) <= MAX_CLAUDE_PENDING_INPUTS
            && (Live(t) ==>
                  && (t.steering != [] || t.followUps != [] ==> t.sent != [])
                  && Messages(t.written, Steer) + t.steering == t.acceptedSteers
                  && Messages(t.written, FollowUp) + t.followUps == t.acceptedFollowUps
                  && InFlightIsLast(t))
  {
    var s := Started(prompt);
    assert s.written[1..] == [];
    assert Messages(s.written, Steer) == [] + Messages(s.written[1..], Steer);
    assert Messages(s.written, FollowUp) == [] + Messages(s.written[1..], FollowUp);
    RunKeepsInv(s, es);
  }

  // ----- what is accepted, and how much of it is in flight -----

  /** The message a line brings for a queue, if it is one. */
  function Brings(e: Event, kind: Kind): seq<nat> {
    if e.Line? && kind == Steer && e.command.SteerCommand? then [e.command.message]
    else if e.Line? && kind == FollowUp && e.command.FollowUpCommand? then [e.command.message]
    else []
  }

  lemma FlushesAcceptNothing(s: Inputs)
    ensures FlushSteering(s).acceptedSteers == FlushFollowUps(s).acceptedSteers == s.acceptedSteers
    ensures FlushSteering(s).acceptedFollowUps == FlushFollowUps(s).acceptedFollowUps == s.acceptedFollowUps
  {
    hide Tagged; hide Sent;
  }

  lemma LineAccepts(s: Inputs, c: Command)
    ensures var room, t := |s.sent| + |s.steering| + |s.followUps| < 256, Commanded(s, c);
            && t.acceptedSteers == s.acceptedSteers + (if room then Brings(Line(c), Steer) else [])
            && t.acceptedFollowUps == s.acceptedFollowUps + (if room then Brings(Line(c), FollowUp) else [])
  {
    hide FlushSteering; hide FlushFollowUps; hide Taken; hide Brings;
    TakenAccepts(s, c);
    FlushesAcceptNothing(Taken(s, c));
  }

  lemma TakenAccepts(s: Inputs, c: Command)
    ensures var room, t := |s.sent| + |s.steering| + |s.followUps| < 256, Taken(s, c);
            && t.acceptedSteers == s.acceptedSteers + (if room then Brings(Line(c), Steer) else [])
            && t.acceptedFollowUps == s.acceptedFollowUps + (if room then Brings(Line(c), FollowUp) else [])
  {
  }

  lemma FrameAcceptsNothing(s: Inputs, failed: bool, overLimit: bool)
    ensures var t := Answered(s, failed, overLimit);
            t.acceptedSteers == s.acceptedSteers && t.acceptedFollowUps == s.acceptedFollowUps
  {
    hide FlushSteering; hide FlushFollowUps;
    var v := Judged(s, failed, overLimit);
    var shifted := v.(sent := if v.sent == [] then [] else v.sent[1..], canFollowUp := true);
    FlushesAcceptNothing(shifted);
    FlushesAcceptNothing(FlushSteering(shifted));
  }

  /** A message that arrives while fewer than 256 are pending joins the end of its queue; nothing else does,
      and nothing else happens to what was accepted. */
  lemma AcceptedExactly(s: Inputs, e: Event)
    requires Enabled(s, e)
    ensures var room := |s.sent| + |s.steering| + |s.followUps| < 256;
            && Apply(s, e).acceptedSteers == s.acceptedSteers + (if room then Brings(e, Steer) else [])
            && Apply(s, e).acceptedFollowUps == s.acceptedFollowUps + (if room then Brings(e, FollowUp) else [])
  {
    hide Answered; hide Commanded;
    match e
    case Line(c) => LineAccepts(s, c);
    case Frame(failed, overLimit) => FrameAcceptsNothing(s, failed, overLimit);
    case Timer | Terminate | CloseStdin =>
  }

  function Count(sent: seq<Input>, kind: Kind): nat {
    if sent == [] then 0 else (if sent[0].kind == kind then 1 else 0) + Count(sent[1..], kind)
  }

  lemma {:induction false} CountAppend(a: seq<Input>, b: seq<Input>, kind: Kind)
    ensures Count(a + b, kind) == Count(a, kind) + Count(b, kind)
  {
    if a == [] {
      assert a + b == b;
    } else {
      assert (a + b)[1..] == a[1..] + b;
      CountAppend(a[1..], b, kind);
    }
  }

  lemma {:induction false} CountTagged(kind: Kind, messages: seq<nat>, of: Kind)
    ensures Count(Tagged(kind, messages), of) == if kind == of then |messages| else 0
  {
    if messages != [] {
      CountTagged(kind, messages[1..], of);
      assert Tagged(kind, messages)[1..] == Tagged(kind, messages[1..]);
    }
  }

  lemma {:induction false} CountZero(sent: seq<Input>, kind: Kind)
    ensures Count(sent, kind) == 0 <==> !Sent(sent, kind)
  {
    if sent != [] {
      CountZero(sent[1..], kind);
      if Sent(sent[1..], kind) {
        var i :| 0 <= i < |sent[1..]| && sent[1..][i].kind == kind;
        assert sent[i + 1].kind == kind;
      }
      if Sent(sent, kind) && sent[0].kind != kind {
        var i :| 0 <= i < |sent| && sent[i].kind == kind;
        assert sent[1..][i - 1].kind == kind;
      }
    }
  }

  lemma WritesCount(s: Inputs, kind: Kind, messages: seq<nat>, of: Kind)
    ensures Count(WriteAll(s, kind, messages).sent, of)
         == Count(s.sent, of) + (if kind == of && s.open then |messages| else 0)
  {
    hide Tagged; hide Count;
    CountAppend(s.sent, Tagged(kind, messages), of);
    CountTagged(kind, messages, of);
  }

  /** How many of a kind may be in flight after a step whose mode for that kind is one at a time. */
  predicate OneMoreAtMost(s: Inputs, t: Inputs, kind: Kind) { Count(t.sent, kind) <= Max(1, Count(s.sent, kind)) }

  predicate SameModes(s: Inputs, t: Inputs) { t.steeringMode == s.steeringMode && t.followUpMode == s.followUpMode }

  lemma SteeringCounts(s: Inputs)
    ensures var t := FlushSteering(s);
            && SameModes(s, t) && Count(t.sent, FollowUp) == Count(s.sent, FollowUp)
            && (s.steeringMode == OneAtATime ==> OneMoreAtMost(s, t, Steer))
  {
    hide WriteAll; hide Count; hide Sent;
    var count := if s.steeringMode == All then |s.steering| else 1;
    CountZero(s.sent, Steer);
    if s.steering != [] {
      var u := s.(steering := s.steering[count..]);
      WritesCount(u, Steer, s.steering[..count], Steer);
      WritesCount(u, Steer, s.steering[..count], FollowUp);
      WriteKeepsModes(u, Steer, s.steering[..count]);
    }
  }

  lemma FollowUpsCount(s: Inputs)
    ensures var t := FlushFollowUps(s);
            && SameModes(s, t) && Count(t.sent, Steer) == Count(s.sent, Steer)
            && (s.followUpMode == OneAtATime ==> OneMoreAtMost(s, t, FollowUp))
  {
    hide WriteAll; hide Count; hide Sent;
    var count := if s.followUpMode == All then |s.followUps| else 1;
    CountZero(s.sent, FollowUp);
    if s.followUps != [] {
      var u := s.(followUps := s.followUps[count..]);
      WritesCount(u, FollowUp, s.followUps[..count], Steer);
      WritesCount(u, FollowUp, s.followUps[..count], FollowUp);
      WriteKeepsModes(u, FollowUp, s.followUps[..count]);
    }
  }

  lemma WriteKeepsModes(s: Inputs, kind: Kind, messages: seq<nat>)
    ensures SameModes(s, WriteAll(s, kind, messages))
  {
    hide Tagged;
  }

  lemma FrameCounts(s: Inputs, failed: bool, overLimit: bool)
    ensures var t := Answered(s, failed, overLimit);
            && SameModes(s, t)
            && (s.steeringMode == OneAtATime ==> OneMoreAtMost(s, t, Steer))
            && (s.followUpMode == OneAtATime ==> OneMoreAtMost(s, t, FollowUp))
  {
    hide FlushSteering; hide FlushFollowUps;
    var v := Judged(s, failed, overLimit);
    var shifted := v.(sent := if v.sent == [] then [] else v.sent[1..], canFollowUp := true);
    SteeringCounts(shifted);
    FollowUpsCount(FlushSteering(shifted));
  }

  lemma LineCounts(s: Inputs, c: Command)
    ensures var t := Commanded(s, c);
            && (t.steeringMode == OneAtATime ==> OneMoreAtMost(s, t, Steer))
            && (t.followUpMode == OneAtATime ==> OneMoreAtMost(s, t, FollowUp))
            && (t.steeringMode == if c.SteeringMode? then c.mode else s.steeringMode)
            && (t.followUpMode == if c.FollowUpMode? then c.mode else s.followUpMode)
  {
    hide FlushSteering; hide FlushFollowUps; hide Count;
    SteeringCounts(Taken(s, c));
    FollowUpsCount(Taken(s, c));
  }

  /** One at a time, a step never puts a second message of that kind in flight. */
  lemma OneAtATimeSteps(s: Inputs, e: Event)
    requires Enabled(s, e)
    ensures Apply(s, e).steeringMode == OneAtATime ==> OneMoreAtMost(s, Apply(s, e), Steer)
    ensures Apply(s, e).followUpMode == OneAtATime ==> OneMoreAtMost(s, Apply(s, e), FollowUp)
    ensures Apply(s, e).steeringMode == if e.Line? && e.command.SteeringMode? then e.command.mode else s.steeringMode
    ensures Apply(s, e).followUpMode == if e.Line? && e.command.FollowUpMode? then e.command.mode else s.followUpMode
  {
    hide Answered; hide Commanded; hide Count;
    match e
    case Frame(failed, overLimit) => FrameCounts(s, failed, overLimit);
    case Line(c) => LineCounts(s, c);
    case Timer | Terminate | CloseStdin =>
  }

  lemma {:induction false} OneAtATimeThroughout(s: Inputs, es: seq<Event>)
    requires Runs(s, es)
    ensures s.steeringMode == OneAtATime && Count(s.sent, Steer) <= 1 && Line(SteeringMode(All)) !in es ==>
              Count(Final(s, es).sent, Steer) <= 1
    ensures s.followUpMode == OneAtATime && Count(s.sent, FollowUp) <= 1 && Line(FollowUpMode(All)) !in es ==>
              Count(Final(s, es).sent, FollowUp) <= 1
    decreases es
  {
    hide Apply; hide Enabled; hide Count;
    if es != [] {
      OneAtATimeSteps(s, es[0]);
      OneAtATimeThroughout(Apply(s, es[0]), es[1..]);
    }
  }

  /** In every run in which nobody asks for all at once, at most one steer and one follow-up are in flight. */
  lemma OneInFlight(prompt: nat, es: seq<Event>)
    requires Runs(Started(prompt), es)
    ensures Line(SteeringMode(All)) !in es ==> Count(Final(Started(prompt), es).sent, Steer) <= 1
    ensures Line(FollowUpMode(All)) !in es ==> Count(Final(Started(prompt), es).sent, FollowUp) <= 1
  {
    var sent := Started(prompt).sent;
    assert sent[1..] == [];
    assert Count(sent, Steer) == Count(sent[1..], Steer) && Count(sent, FollowUp) == Count(sent[1..], FollowUp);
    OneAtATimeThroughout(Started(prompt), es);
  }

  /** A steer waits only one at a time, behind another steer in flight. */
  predicate SteersFlow(s: Inputs) { s.steering != [] ==> s.steeringMode == OneAtATime && Sent(s.sent, Steer) }

  lemma FlushingLetsFlow(s: Inputs)
    requires s.open
    ensures SteersFlow(FlushSteering(s))
  {
    hide Tagged;
    var count := if s.steeringMode == All then |s.steering| else 1;
    if s.steering != [] && !(s.steeringMode == OneAtATime && Sent(s.sent, Steer)) {
      TaggedKinds(Steer, s.steering[..count]);
      var t := FlushSteering(s);
      assert t.sent[|s.sent|].kind == Steer;
    }
  }

  lemma FollowUpsLetFlow(s: Inputs)
    requires SteersFlow(s)
    ensures SteersFlow(FlushFollowUps(s))
  {
    hide Tagged;
  }

  lemma LineFlows(s: Inputs, c: Command)
    requires Live(s) && SteersFlow(s)
    ensures SteersFlow(Commanded(s, c))
  {
    hide FlushSteering; hide FlushFollowUps; hide Taken; hide SteersFlow;
    var q := Taken(s, c);
    TakenStaysOpen(s, c);
    FlushingLetsFlow(q);
    if !c.SteerCommand? && !c.SteeringMode? {
      TakenLeavesSteers(s, c);
      FollowUpsLetFlow(q);
    }
  }

  lemma TakenStaysOpen(s: Inputs, c: Command)
    ensures SameLights(s, Taken(s, c))
  {
  }

  lemma LineKeepsLights(s: Inputs, c: Command)
    ensures SameLights(s, Commanded(s, c))
  {
    hide FlushSteering; hide FlushFollowUps; hide Taken;
    TakenStaysOpen(s, c);
    FlushesBounded(Taken(s, c));
  }

  lemma FrameFlows(s: Inputs, failed: bool, overLimit: bool)
    requires Live(Answered(s, failed, overLimit))
    ensures Live(s) && SteersFlow(Answered(s, failed, overLimit))
  {
    hide FlushSteering; hide FlushFollowUps; hide Sent;
    var v := Judged(s, failed, overLimit);
    var shifted := v.(sent := if v.sent == [] then [] else v.sent[1..], canFollowUp := true);
    FlushesBounded(shifted);
    FlushesBounded(FlushSteering(shifted));
    FlushingLetsFlow(shifted);
    FollowUpsLetFlow(FlushSteering(shifted));
  }

  lemma FlowStep(s: Inputs, e: Event)
    requires Enabled(s, e) && (Live(s) ==> SteersFlow(s))
    ensures Live(Apply(s, e)) ==> SteersFlow(Apply(s, e))
  {
    hide Answered; hide Commanded; hide Sent;
    match e
    case Line(c) =>
      LineKeepsLights(s, c);
      if Live(s) { LineFlows(s, c); }
    case Frame(failed, overLimit) =>
      if Live(Apply(s, e)) { FrameFlows(s, failed, overLimit); }
    case Timer | Terminate | CloseStdin =>
  }

  lemma TakenLeavesSteers(s: Inputs, c: Command)
    requires !c.SteerCommand? && !c.SteeringMode? && SteersFlow(s)
    ensures SteersFlow(Taken(s, c))
  {
    hide Sent;
  }

  /** Through every run, as long as the child is live, a steer waits only if steers go one at a time and another
      one is in flight: every other accepted steer has been written. */
  lemma {:induction false} SteersFlowThroughout(s: Inputs, es: seq<Event>)
    requires Runs(s, es) && (Live(s) ==> SteersFlow(s))
    ensures Live(Final(s, es)) ==> SteersFlow(Final(s, es))
    decreases es
  {
    hide Apply; hide Enabled; hide SteersFlow; hide Live;
    if es != [] {
      FlowStep(s, es[0]);
      SteersFlowThroughout(Apply(s, es[0]), es[1..]);
    }
  }

  // ----- who goes first -----

  lemma TaggedKinds(kind: Kind, messages: seq<nat>)
    ensures forall i :: 0 <= i < |messages| ==> Tagged(kind, messages)[i].kind == kind
  {
    TaggedMessages(kind, messages, kind);
  }

  lemma FlushSteeringWritesSteers(s: Inputs)
    ensures s.written <= FlushSteering(s).written
    ensures forall i :: |s.written| <= i < |FlushSteering(s).written| ==> FlushSteering(s).written[i].kind == Steer
  {
    if s.steering != [] {
      TaggedKinds(Steer, s.steering[..if s.steeringMode == All then |s.steering| else 1]);
    }
  }

  lemma FlushFollowUpsWaits(s: Inputs)
    ensures s.written <= FlushFollowUps(s).written
    ensures FlushFollowUps(s).written != s.written ==>
              s.steering == [] && !Sent(s.sent, Steer) && !Sent(FlushFollowUps(s).sent, Steer) && FlushFollowUps(s).steering == []
  {
    if s.followUps != [] {
      TaggedKinds(FollowUp, s.followUps[..if s.followUpMode == All then |s.followUps| else 1]);
    }
  }

  lemma LineYields(s: Inputs, c: Command, i: nat)
    requires |s.written| <= i < |Commanded(s, c).written| && Commanded(s, c).written[i].kind == FollowUp
    ensures Commanded(s, c).steering == [] && !Sent(Commanded(s, c).sent, Steer)
  {
    hide FlushSteering; hide FlushFollowUps; hide Taken; hide Sent;
    TakenWritesNothing(s, c);
    FlushSteeringWritesSteers(Taken(s, c));
    FlushFollowUpsWaits(Taken(s, c));
  }

  lemma TakenWritesNothing(s: Inputs, c: Command)
    ensures Taken(s, c).written == s.written
  {
  }

  lemma FrameYields(s: Inputs, failed: bool, overLimit: bool, i: nat)
    requires |s.written| <= i < |Answered(s, failed, overLimit).written|
    requires Answered(s, failed, overLimit).written[i].kind == FollowUp
    ensures Answered(s, failed, overLimit).steering == [] && !Sent(Answered(s, failed, overLimit).sent, Steer)
  {
    hide FlushSteering; hide FlushFollowUps; hide Judged; hide Sent;
    JudgedWritesNothing(s, failed, overLimit);
    var v := Judged(s, failed, overLimit);
    AnsweredYields(v.(sent := if v.sent == [] then [] else v.sent[1..], canFollowUp := true));
  }

  lemma JudgedWritesNothing(s: Inputs, failed: bool, overLimit: bool)
    ensures Judged(s, failed, overLimit).written == s.written
  {
  }

  /** No follow-up is ever written while a steer is queued or in flight. */
  lemma FollowUpsYield(s: Inputs, e: Event, i: nat)
    requires Enabled(s, e) && |s.written| <= i < |Apply(s, e).written| && Apply(s, e).written[i].kind == FollowUp
    ensures Apply(s, e).steering == [] && !Sent(Apply(s, e).sent, Steer)
  {
    hide Answered; hide Commanded; hide Sent;
    match e
    case Frame(failed, overLimit) => FrameYields(s, failed, overLimit, i);
    case Line(c) => LineYields(s, c, i);
    case Timer | Terminate | CloseStdin =>
  }

  lemma AnsweredYields(v: Inputs)
    ensures var t := FlushSteering(v);
            && v.written <= t.written <= FlushFollowUps(t).written
            && (forall i :: |v.written| <= i < |t.written| ==> t.written[i].kind == Steer)
            && (FlushFollowUps(t).written != t.written ==>
                  FlushFollowUps(t).steering == [] && !Sent(FlushFollowUps(t).sent, Steer))
  {
    hide FlushSteering; hide FlushFollowUps; hide Sent;
    FlushSteeringWritesSteers(v);
    FlushFollowUpsWaits(FlushSteering(v));
  }

  // ----- what is in flight when -----

  lemma WritesSent(s: Inputs, kind: Kind, messages: seq<nat>)
    ensures var t := WriteAll(s, kind, messages);
            && t.written == s.written + (if s.open then Tagged(kind, messages) else [])
            && t.sent == s.sent + (if s.open then Tagged(kind, messages) else [])
  {
  }

  lemma FlushesSend(s: Inputs)
    ensures exists more :: FlushSteering(s).written == s.written + more && FlushSteering(s).sent == s.sent + more && (!s.open ==> more == [])
    ensures exists more :: FlushFollowUps(s).written == s.written + more && FlushFollowUps(s).sent == s.sent + more && (!s.open ==> more == [])
  {
    hide WriteAll; hide Tagged; hide Sent;
    assert s.written == s.written + [] && s.sent == s.sent + [];
    if s.steering != [] {
      var count := if s.steeringMode == All then |s.steering| else 1;
      WritesSent(s.(steering := s.steering[count..]), Steer, s.steering[..count]);
    }
    if s.followUps != [] {
      var count := if s.followUpMode == All then |s.followUps| else 1;
      WritesSent(s.(followUps := s.followUps[count..]), FollowUp, s.followUps[..count]);
    }
  }

  /** How many messages have been written and answered. */
  function Settled(s: Inputs): int { |s.written| - |s.sent| }

  lemma FlushesSettleNothing(s: Inputs)
    ensures Settled(FlushSteering(s)) == Settled(FlushFollowUps(s)) == Settled(s)
    ensures !s.open ==> FlushSteering(s).written == FlushFollowUps(s).written == s.written
    ensures |s.sent| <= |FlushSteering(s).sent| && |s.sent| <= |FlushFollowUps(s).sent|
  {
    hide FlushSteering; hide FlushFollowUps;
    FlushesSend(s);
    var more :| FlushSteering(s).written == s.written + more && FlushSteering(s).sent == s.sent + more && (!s.open ==> more == []);
    var most :| FlushFollowUps(s).written == s.written + most && FlushFollowUps(s).sent == s.sent + most && (!s.open ==> most == []);
  }

  lemma FrameSettles(s: Inputs)
    ensures Settled(Continued(s)) == Settled(s) + (if s.sent == [] then 0 else 1)
    ensures !s.open ==> Continued(s).written == s.written
  {
    hide FlushSteering; hide FlushFollowUps;
    var v := s.(sent := if s.sent == [] then [] else s.sent[1..], canFollowUp := true);
    FlushesSettleNothing(v);
    FlushesSettleNothing(FlushSteering(v));
    FlushesBounded(v);
  }

  /** A successful result frame answers the oldest message in flight and no other; nothing else answers any. */
  lemma AnswersOne(s: Inputs, e: Event)
    requires Enabled(s, e) && Live(Apply(s, e))
    ensures Settled(Apply(s, e)) == Settled(s) + (if e.Frame? && s.sent != [] then 1 else 0)
  {
    hide FlushSteering; hide FlushFollowUps; hide Continued;
    match e
    case Line(c) => FlushesSettleNothing(Taken(s, c));
    case Frame(failed, overLimit) =>
      AnsweredStaysLive(s, failed, overLimit);
      FrameSettles(Judged(s, failed, overLimit));
    case Timer | Terminate | CloseStdin =>
  }

  lemma AnsweredStaysLive(s: Inputs, failed: bool, overLimit: bool)
    requires Live(Answered(s, failed, overLimit))
    ensures !failed && Live(s) && Judged(s, failed, overLimit) == s && Answered(s, failed, overLimit) == Continued(s)
  {
    hide FlushSteering; hide FlushFollowUps;
    var v := Judged(s, failed, overLimit);
    var shifted := v.(sent := if v.sent == [] then [] else v.sent[1..], canFollowUp := true);
    FlushesBounded(shifted);
    FlushesBounded(FlushSteering(shifted));
  }

  lemma ClosedLineIsSilent(s: Inputs, c: Command)
    requires !s.open
    ensures Commanded(s, c).written == s.written && !Commanded(s, c).open
  {
    hide FlushSteering; hide FlushFollowUps; hide Taken;
    TakenWritesNothing(s, c);
    TakenStaysOpen(s, c);
    FlushesSettleNothing(Taken(s, c));
    FlushesBounded(Taken(s, c));
  }

  lemma ClosedFrameIsSilent(s: Inputs, failed: bool, overLimit: bool)
    requires !s.open
    ensures Answered(s, failed, overLimit).written == s.written && !Answered(s, failed, overLimit).open
  {
    hide FlushSteering; hide FlushFollowUps;
    var v := Judged(s, failed, overLimit);
    var shifted := v.(sent := if v.sent == [] then [] else v.sent[1..], canFollowUp := true);
    FlushesSettleNothing(shifted);
    FlushesSettleNothing(FlushSteering(shifted));
    FlushesBounded(shifted);
    FlushesBounded(FlushSteering(shifted));
  }

  /** Nothing is written to a child whose stdin is closed, and it is never opened again. */
  lemma ClosedStepIsSilent(s: Inputs, e: Event)
    requires Enabled(s, e) && !s.open
    ensures Apply(s, e).written == s.written && !Apply(s, e).open
  {
    hide Commanded; hide Answered;
    match e
    case Line(c) => ClosedLineIsSilent(s, c);
    case Frame(failed, overLimit) => ClosedFrameIsSilent(s, failed, overLimit);
    case Timer | Terminate | CloseStdin =>
  }

  lemma {:induction false} ClosedIsSilent(s: Inputs, es: seq<Event>)
    requires Runs(s, es) && !s.open
    ensures Final(s, es).written == s.written && !Final(s, es).open
    decreases es
  {
    hide Apply; hide Enabled;
    if es != [] {
      ClosedStepIsSilent(s, es[0]);
      ClosedIsSilent(Apply(s, es[0]), es[1..]);
    }
  }

  /** A failed result, too many tokens, and a timer that finds the child idle each end it: whatever follows,
      nothing more is written to it. */
  lemma EndedIsSilent(s: Inputs, e: Event, es: seq<Event>)
    requires Enabled(s, e) && Runs(Apply(s, e), es)
    requires (e.Frame? && (e.failed || e.overLimit || s.terminal)) || e.CloseStdin? || (e.Timer? && Idle(s))
    ensures Final(Apply(s, e), es).written == s.written && !Final(Apply(s, e), es).open
  {
    hide Continued;
    assert Apply(s, e).written == s.written && !Apply(s, e).open;
    hide Apply;
    ClosedIsSilent(Apply(s, e), es);
  }

  lemma FlushFollowUpsAlone(s: Inputs)
    requires FlushFollowUps(s).written != s.written && s.sent == []
    ensures var t := FlushFollowUps(s);
            s.written <= t.written && t.sent == t.written[|s.written|..] && forall i :: 0 <= i < |t.sent| ==> t.sent[i].kind == FollowUp
  {
    hide WriteAll; hide Sent; hide Tagged;
    var count := if s.followUpMode == All then |s.followUps| else 1;
    WritesSent(s.(followUps := s.followUps[count..]), FollowUp, s.followUps[..count]);
    TaggedKinds(FollowUp, s.followUps[..count]);
  }

  /** A follow-up is written only when nothing else is in flight: everything in flight afterwards was written
      by the same step, and all of it is follow-ups. */
  lemma FollowUpsWaitForIdle(s: Inputs, e: Event, i: nat)
    requires Enabled(s, e) && |s.written| <= i < |Apply(s, e).written| && Apply(s, e).written[i].kind == FollowUp
    ensures var t := Apply(s, e);
            s.written <= t.written && t.sent == t.written[|s.written|..] && forall k :: 0 <= k < |t.sent| ==> t.sent[k].kind == FollowUp
  {
    hide FlushSteering; hide FlushFollowUps; hide Taken; hide Judged;
    match e
    case Line(c) =>
      TakenWritesNothing(s, c);
      FlushSteeringWritesSteers(Taken(s, c));
      if FlushIfIdle(Taken(s, c)).written != s.written { FlushFollowUpsAlone(Taken(s, c)); }
    case Frame(failed, overLimit) =>
      JudgedWritesNothing(s, failed, overLimit);
      var v := Judged(s, failed, overLimit);
      var shifted := v.(sent := if v.sent == [] then [] else v.sent[1..], canFollowUp := true);
      FlushSteeringWritesSteers(shifted);
      FlushesSettleNothing(shifted);
      var flushed := FlushSteering(shifted);
      if flushed.sent == [] && flushed.steering == [] && FlushFollowUps(flushed).written != flushed.written {
        FlushFollowUpsAlone(flushed);
        SilentFlush(shifted);
      }
    case Timer | Terminate | CloseStdin =>
  }

  /** A flush that leaves nothing in flight has written nothing. */
  lemma SilentFlush(s: Inputs)
    requires FlushSteering(s).sent == []
    ensures FlushSteering(s).written == s.written
  {
    hide FlushSteering;
    FlushesSend(s);
    var more :| FlushSteering(s).written == s.written + more && FlushSteering(s).sent == s.sent + more && (!s.open ==> more == []);
  }

  lemma FlushingNothing(s: Inputs)
    requires s.steering == [] && s.followUps == []
    ensures FlushSteering(s) == s && FlushFollowUps(s) == s
  {
  }

  lemma FlushesKeepBusy(s: Inputs)
    requires !Idle(s) && s.open && Accounted(s) && InFlightIsLast(s)
    ensures !Idle(FlushSteering(s)) && !Idle(FlushFollowUps(s))
  {
    hide Messages; hide Tagged; hide FlushSteering; hide FlushFollowUps;
    FlushSteeringKeeps(s);
    FlushFollowUpsKeeps(s);
  }

  lemma BusyStaysBusy(s: Inputs, c: Command)
    requires Inv(s) && Live(s) && !Idle(s)
    ensures !Idle(Commanded(s, c))
  {
    hide Messages; hide Tagged; hide FlushSteering; hide FlushFollowUps;
    FlushesKeepBusy(Taken(s, c));
  }

  /** A live idle child is about to be closed. */
  predicate WillClose(s: Inputs) { Live(s) && Idle(s) ==> s.timer }

  /** An idle child that takes no message stays as it is, without its timer. */
  predicate Disarms(s: Inputs, c: Command) {
    Live(s) && Idle(s) && (c.SteeringMode? || c.FollowUpMode? || c.Unknown?)
  }

  lemma LineLosesTimer(s: Inputs, c: Command)
    requires Inv(s) && !s.terminal && WillClose(s)
    ensures !WillClose(Commanded(s, c)) <==> Disarms(s, c)
  {
    hide Messages; hide Tagged; hide FlushSteering; hide FlushFollowUps; hide Inv;
    var q := Taken(s, c);
    FlushesBounded(q);
    if Live(s) && Idle(s) {
      if c.SteerCommand? || c.FollowUpCommand? {
        InvMeans(s);
        TakenKeeps(s, c);
        FlushesKeepBusy(q);
      } else {
        FlushingNothing(q);
      }
    } else if Live(s) {
      BusyStaysBusy(s, c);
    }
  }

  lemma InvMeans(s: Inputs)
    requires Inv(s) && Live(s)
    ensures Accounted(s) && InFlightIsLast(s) && NeverStuck(s)
  {
  }

  lemma FrameKeepsTimer(s: Inputs, failed: bool, overLimit: bool)
    requires WillClose(s)
    ensures WillClose(Answered(s, failed, overLimit))
  {
    hide FlushSteering; hide FlushFollowUps;
    var v := s.(sent := if s.sent == [] then [] else s.sent[1..], canFollowUp := true);
    FlushesBounded(v);
    FlushesBounded(FlushSteering(v));
  }

  /** The close timer is lost in exactly one way: a command that leaves the child idle disarms it. */
  lemma TimerIsLost(s: Inputs, e: Event)
    requires Inv(s) && Enabled(s, e) && WillClose(s)
    ensures !WillClose(Apply(s, e)) <==>
              Live(s) && Idle(s) && e.Line? && (e.command.SteeringMode? || e.command.FollowUpMode? || e.command.Unknown?)
  {
    hide Commanded; hide Answered; hide Inv;
    match e
    case Line(c) => LineLosesTimer(s, c);
    case Frame(failed, overLimit) => FrameKeepsTimer(s, failed, overLimit);
    case Timer | Terminate | CloseStdin =>
  }

  /** A live idle child that nothing is about to close. */
  predicate Forgotten(s: Inputs) { Live(s) && Idle(s) && !s.timer }

  predicate TakesNoMessage(e: Event) {
    e.Line? && (e.command.SteeringMode? || e.command.FollowUpMode? || e.command.Unknown?)
  }

  lemma Unanswered(s: Inputs, e: Event)
    requires Forgotten(s) && TakesNoMessage(e)
    ensures Enabled(s, e) && Forgotten(Apply(s, e))
  {
    hide FlushSteering; hide FlushFollowUps;
    FlushingNothing(Taken(s, e.command));
  }

  /** However many mode changes and unknown commands follow, the timer is not armed again. */
  lemma {:induction false} TimerStaysLost(s: Inputs, es: seq<Event>)
    requires Forgotten(s) && forall e :: e in es ==> TakesNoMessage(e)
    ensures Runs(s, es) && Forgotten(Final(s, es))
    decreases es
  {
    hide Forgotten; hide TakesNoMessage; hide Apply; hide Enabled;
    if es != [] {
      Unanswered(s, es[0]);
      TimerStaysLost(Apply(s, es[0]), es[1..]);
    }
  }

  /** What arms it again is a successful result frame and nothing else; an idle child waits for none. */
  lemma RearmsExactly(s: Inputs, e: Event)
    requires Forgotten(s) && Enabled(s, e)
    ensures Apply(s, e).timer <==> e == Frame(false, false)
  {
    hide FlushSteering; hide FlushFollowUps; hide Messages;
    match e
    case Frame(_, _) => FlushingNothing(s.(canFollowUp := true));
    case Line(c) => LineArmsNothing(s, c);
    case Timer | Terminate | CloseStdin =>
  }

  lemma FlushesArmNothing(s: Inputs)
    requires !s.timer
    ensures !FlushSteering(s).timer && !FlushFollowUps(s).timer
  {
    hide Tagged; hide Sent;
  }

  lemma LineArmsNothing(s: Inputs, c: Command)
    ensures !Commanded(s, c).timer
  {
    hide FlushSteering; hide FlushFollowUps;
    FlushesArmNothing(Taken(s, c));
  }

  function LostTimerRun(): seq<Event> { [Frame(false, false)] + ([Line(Unknown)] + []) }

  /** It happens: the first prompt is answered, and an unknown command arrives. */
  lemma TimerLostHappens(prompt: nat)
    ensures Runs(Started(prompt), LostTimerRun()) && Forgotten(Final(Started(prompt), LostTimerRun()))
  {
    var s := Started(prompt);
    var idle := Apply(s, Frame(false, false));
    assert idle == s.(sent := [], canFollowUp := true, timer := true);
    Prepend(idle, Line(Unknown), []);
    Prepend(s, Frame(false, false), [Line(Unknown)] + []);
  }

  lemma Prepend(s: Inputs, e: Event, es: seq<Event>)
    requires Enabled(s, e) && Runs(Apply(s, e), es)
    ensures Runs(s, [e] + es) && Final(s, [e] + es) == Final(Apply(s, e), es)
  {
    hide Apply; hide Enabled;
    assert ([e] + es)[1..] == es;
  }

  // ----- the worker's variables -----

  lemma {:induction false} TaggedAppend(kind: Kind, a: seq<nat>, b: seq<nat>)
    ensures Tagged(kind, a + b) == Tagged(kind, a) + Tagged(kind, b)
  {
    if a == [] {
      assert a + b == b;
    } else {
      assert (a + b)[0] == a[0] && (a + b)[1..] == a[1..] + b;
      TaggedAppend(kind, a[1..], b);
    }
  }

  lemma WriteOneMore(s: Inputs, kind: Kind, messages: seq<nat>, m: nat)
    ensures WriteAll(WriteAll(s, kind, messages), kind, [m]) == WriteAll(s, kind, messages + [m])
  {
    TaggedAppend(kind, messages, [m]);
  }

  class ClaudeChild {
    var sent: seq<Input>
    var steering: seq<nat>
    var followUps: seq<nat>
    var steeringMode: Mode
    var followUpMode: Mode
    var canFollowUp: bool
    var closeTimer: bool
    var open: bool
    var failed: bool
    var terminal: bool
    var written: seq<Input>
    var acceptedSteers: seq<nat>
    var acceptedFollowUps: seq<nat>

    function Abs(): Inputs
      reads this
    {
      Inputs(sent, steering, followUps, steeringMode, followUpMode, canFollowUp, closeTimer, open, failed, terminal,
             written, acceptedSteers, acceptedFollowUps)
    }

    constructor (prompt: nat)
      ensures Abs() == Started(prompt)
    {
      sent, written := [Input(Initial, prompt)], [Input(Initial, prompt)];
      steering, followUps, steeringMode, followUpMode := [], [], OneAtATime, OneAtATime;
      canFollowUp, closeTimer, open, failed, terminal := false, false, true, false, false;
      acceptedSteers, acceptedFollowUps := [], [];
    }

    method Write(kind: Kind, message: nat)
      modifies this
      ensures Abs() == WriteAll(old(Abs()), kind, [message])
    {
      assert Tagged(kind, [message]) == [Input(kind, message)] + Tagged(kind, [message][1..]);
      closeTimer := false;
      if !open { return; }
      sent := sent + [Input(kind, message)];
      if kind == FollowUp { canFollowUp := false; }
      written := written + [Input(kind, message)];
    }

    method WriteEach(kind: Kind, messages: seq<nat>)
      modifies this
      ensures Abs() == WriteAll(old(Abs()), kind, messages)
    {
      assert messages[..0] == [];
      for i := 0 to |messages|
        invariant Abs() == WriteAll(old(Abs()), kind, messages[..i])
      {
        assert messages[..i + 1] == messages[..i] + [messages[i]];
        WriteOneMore(old(Abs()), kind, messages[..i], messages[i]);
        Write(kind, messages[i]);
      }
      assert messages[..|messages|] == messages;
    }

    method FlushSteers()
      modifies this
      ensures Abs() == FlushSteering(old(Abs()))
    {
      if steering == [] { return; }
      var alreadySent := IsSent(Steer);
      if steeringMode == OneAtATime && alreadySent { return; }
      var count := if steeringMode == All then |steering| else 1;
      var batch := steering[..count];
      steering := steering[count..];
      WriteEach(Steer, batch);
    }

    method FlushFollows()
      modifies this
      ensures Abs() == FlushFollowUps(old(Abs()))
    {
      if followUps == [] || steering != [] { return; }
      var steerSent := IsSent(Steer);
      if steerSent { return; }
      var alreadySent := IsSent(FollowUp);
      if followUpMode == OneAtATime && alreadySent { return; }
      var count := if followUpMode == All then |followUps| else 1;
      var batch := followUps[..count];
      followUps := followUps[count..];
      WriteEach(FollowUp, batch);
    }

    method IsSent(kind: Kind) returns (found: bool)
      ensures found == Sent(sent, kind)
    {
      for i := 0 to |sent|
        invariant forall j :: 0 <= j < i ==> sent[j].kind != kind
      {
        if sent[i].kind == kind { return true; }
      }
      return false;
    }

    method Take(command: Command)
      modifies this
      ensures Abs() == Taken(old(Abs()), command)
    {
      closeTimer := false;
      var full := |sent| + |steering| + |followUps| >= MAX_CLAUDE_PENDING_INPUTS;
      match command
      case SteerCommand(m) => if !full { steering, acceptedSteers := steering + [m], acceptedSteers + [m]; }
      case FollowUpCommand(m) => if !full { followUps, acceptedFollowUps := followUps + [m], acceptedFollowUps + [m]; }
      case SteeringMode(mode) => steeringMode := mode;
      case FollowUpMode(mode) => followUpMode := mode;
      case Unknown =>
    }

    method OnCommand(command: Command)
      requires !terminal
      modifies this
      ensures Abs() == Commanded(old(Abs()), command)
    {
      hide FlushSteering; hide FlushFollowUps; hide Taken;
      Take(command);
      match command
      case SteerCommand(_) | SteeringMode(_) => FlushSteers();
      case FollowUpCommand(_) | FollowUpMode(_) => if canFollowUp && sent == [] { FlushFollows(); }
      case Unknown =>
    }

    method Continue()
      modifies this
      ensures Abs() == Continued(old(Abs()))
    {
      hide FlushSteering; hide FlushFollowUps;
      if sent != [] { sent := sent[1..]; }
      canFollowUp := true;
      FlushSteers();
      if sent == [] && steering == [] { FlushFollows(); }
      if sent == [] && steering == [] && followUps == [] { closeTimer := true; }
    }

    method Judge(isError: bool, overLimit: bool)
      modifies this
      ensures Abs() == Judged(old(Abs()), isError, overLimit)
    {
      if overLimit && !terminal { terminal, open := true, false; }
      if isError { steering, followUps, failed := [], [], true; }
    }

    method OnResult(isError: bool, overLimit: bool)
      modifies this
      ensures Abs() == Answered(old(Abs()), isError, overLimit)
    {
      hide Continued; hide Judged;
      Judge(isError, overLimit);
      if isError || terminal {
        sent, canFollowUp, open := [], false, false;
        return;
      }
      Continue();
    }

    method OnTimer()
      modifies this
      ensures Abs() == TimerFired(old(Abs()))
    {
      closeTimer := false;
      if sent == [] && steering == [] && followUps == [] { open := false; }
    }
  }
}
