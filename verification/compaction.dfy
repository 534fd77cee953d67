/** Advisory compaction of a child: requests coalesce while they wait, one is in flight at a time, and the
    child's channel is closed once it has settled and nothing is left to do. */
module Compaction {
  import opened Common

  /** The hook that sends a request may throw, with a message that may be empty. */
  datatype Send = Sends | Throws(empty: bool)

  /** A request as it is sent to the child. */
  datatype Frame = Frame(id: nat, instructions: nat)

  datatype Flight = Flight(id: nat, responseSeen: bool, failed: bool)

  /** What is published about the requests; `Completed` and `Failed` end an attempt. */
  datatype Status = Queued | InFlight(id: nat, queued: bool) | Completed(id: nat) | Failed(id: nat)

  /** `pending` holds the instructions of the waiting request. `calls`, `published`, `sent` and `closes`
      are history. */
  datatype Control = Control(
    pending: Option<nat>, inFlight: Option<Flight>, childSettled: bool, closed: bool,
    sequence: nat, attempts: nat, coalesced: nat,
    calls: nat, published: seq<Status>, sent: seq<Frame>, closes: nat)

  datatype Observed = CompactionEnd(aborted: bool, message: bool) | Response(id: nat, success: bool) | Other

  datatype Event = Queue(instructions: nat, send: Send) | ChildSettled(send: Send) | Observe(event: Observed, send: Send)

  function Published(c: Control, status: Status): Control { c.(published := c.published + [status]) }

  function Closed(c: Control): Control { if c.closed then c else c.(closed := true, closes := c.closes + 1) }

  function Waiting(c: Control): nat { if c.pending.Some? then 1 else 0 }

  function Flying(c: Control): nat { if c.inFlight.Some? then 1 else 0 }

  /** Starts the pending request, if there is one and nothing is in flight. */
  function Started(c: Control, send: Send): Control
    decreases 2 * Waiting(c)
  {
    if c.pending.None? || c.inFlight.Some? || c.closed then c
    else
      var id := c.sequence + 1;
      var started := Published(c.(pending := None, sequence := id, inFlight := Some(Flight(id, false, false)),
                                  attempts := c.attempts + 1), InFlight(id, false));
      if send.Sends? then started.(sent := started.sent + [Frame(id, c.pending.value)]) else Finished(started, !send.empty, send)
  }

  /** Ends the attempt in flight; then the pending request starts, or the channel is closed. */
  function Finished(c: Control, failed: bool, send: Send): Control
    decreases 2 * Waiting(c) + 1
  {
    if c.inFlight.None? then c
    else
      var id := c.inFlight.value.id;
      var ended := Published(c.(inFlight := None), if failed then Failed(id) else Completed(id));
      if ended.pending.Some? then Started(ended, send) else Closed(ended)
  }

  function FinishedIfSeen(c: Control, send: Send): Control {
    if c.inFlight.Some? && c.inFlight.value.responseSeen then Finished(c, c.inFlight.value.failed, send) else c
  }

  function Apply(c: Control, e: Event): Control {
    match e
    case Queue(instructions, send) =>
      var queued := c.(calls := c.calls + 1, coalesced := c.coalesced + Waiting(c), pending := Some(instructions));
      if queued.inFlight.Some? then Published(queued, InFlight(queued.inFlight.value.id, true))
      else if queued.childSettled then Started(queued, send)
      else Published(queued, Queued)
    case ChildSettled(send) =>
      var settled := c.(childSettled := true);
      if settled.inFlight.Some? then settled
      else if settled.pending.Some? then Started(settled, send)
      else Closed(settled)
    case Observe(event, send) =>
      if c.inFlight.None? then c
      else
        var flight := c.inFlight.value;
        match event
        case CompactionEnd(aborted, message) =>
          FinishedIfSeen(c.(inFlight := Some(flight.(failed := flight.failed || aborted || message))), send)
        case Response(id, success) =>
          if id != flight.id then c
          else if !success then Finished(c, true, send)
          else FinishedIfSeen(c.(inFlight := Some(flight.(responseSeen := true))), send)
        case Other => c
  }

  const FRESH := Control(None, None, false, false, 0, 0, 0, 0, [], [], 0)

  // ----- what every run keeps -----

  predicate IsTerminal(s: Status) { s.Completed? || s.Failed? }

  function Terminal(published: seq<Status>): nat {
    if published == [] then 0
    else
      var n := |published| - 1;
      Terminal(published[..n]) + (if IsTerminal(published[n]) then 1 else 0)
  }

  predicate Increasing(sent: seq<Frame>, bound: nat) {
    && (forall i :: 0 <= i < |sent| ==> sent[i].id <= bound)
    && forall i, j :: 0 <= i < j < |sent| ==> sent[i].id < sent[j].id
  }

  predicate Inv(c: Control) {
    && c.calls == c.attempts + c.coalesced + Waiting(c)
    && c.sequence == c.attempts
    && Terminal(c.published) + Flying(c) == c.attempts
    && Increasing(c.sent, c.sequence)
    && (c.inFlight.Some? ==> c.childSettled && !c.closed && c.inFlight.value.id == c.sequence)
    && c.closes == (if c.closed then 1 else 0)
    && (c.closed ==> c.childSettled)
    && (c.childSettled && c.inFlight.None? ==> c.closed)
  }

  lemma PublishedTerminal(c: Control, status: Status)
    ensures Terminal(Published(c, status).published) == Terminal(c.published) + (if IsTerminal(status) then 1 else 0)
  {
    assert (c.published + [status])[..|c.published|] == c.published;
  }

  /** As Inv, but something is about to be started or closed. */
  predicate Turning(c: Control) {
    && c.calls == c.attempts + c.coalesced + Waiting(c)
    && c.sequence == c.attempts
    && Terminal(c.published) + Flying(c) == c.attempts
    && Increasing(c.sent, c.sequence)
    && c.childSettled && !c.closed && c.closes == 0
    && (c.inFlight.Some? ==> c.inFlight.value.id == c.sequence)
  }

  lemma CloseKeeps(c: Control)
    requires Turning(c) && c.inFlight.None?
    ensures Inv(Closed(c))
  {
  }

  lemma StartKeeps(c: Control, send: Send)
    requires Turning(c) && c.pending.Some? && c.inFlight.None?
    ensures Inv(Started(c, send))
    decreases 2 * Waiting(c)
  {
    hide Terminal;
    var id := c.sequence + 1;
    var start := c.(pending := None, sequence := id, inFlight := Some(Flight(id, false, false)), attempts := c.attempts + 1);
    PublishedTerminal(start, InFlight(id, false));
    if send.Throws? { FinishKeeps(Published(start, InFlight(id, false)), !send.empty, send); }
  }

  lemma FinishKeeps(c: Control, failed: bool, send: Send)
    requires Turning(c) && c.inFlight.Some?
    ensures Inv(Finished(c, failed, send))
    decreases 2 * Waiting(c) + 1
  {
    hide Terminal;
    var id := c.inFlight.value.id;
    var status := if failed then Failed(id) else Completed(id);
    PublishedTerminal(c.(inFlight := None), status);
    var ended := Published(c.(inFlight := None), status);
    if ended.pending.Some? { StartKeeps(ended, send); } else { CloseKeeps(ended); }
  }

  /** Every call and every observed event keeps the invariant. */
  lemma StepKeepsInv(c: Control, e: Event)
    requires Inv(c)
    ensures Inv(Apply(c, e))
  {
    hide Terminal; hide Started; hide Finished;
    match e
    case Queue(instructions, send) =>
      var queued := c.(calls := c.calls + 1, coalesced := c.coalesced + Waiting(c), pending := Some(instructions));
      if queued.inFlight.Some? {
        PublishedTerminal(queued, InFlight(queued.inFlight.value.id, true));
      } else if queued.childSettled {
        assert Started(queued, send) == queued by { ClosedStartsNothing(queued, send); }
      } else {
        PublishedTerminal(queued, Queued);
      }
    case ChildSettled(send) =>
      var settled := c.(childSettled := true);
      if settled.inFlight.None? && settled.pending.Some? {
        if c.closed { ClosedStartsNothing(settled, send); } else { StartKeeps(settled, send); }
      }
    case Observe(event, send) =>
      if c.inFlight.Some? {
        var flight := c.inFlight.value;
        match event {
          case CompactionEnd(aborted, message) =>
            FinishKeeps(c.(inFlight := Some(flight.(failed := flight.failed || aborted || message))),
                        flight.failed || aborted || message, send);
          case Response(id, success) =>
            FinishKeeps(c, true, send);
            FinishKeeps(c.(inFlight := Some(flight.(responseSeen := true))), flight.failed, send);
          case Other =>
        }
      }
  }

  lemma ClosedStartsNothing(c: Control, send: Send)
    requires c.closed
    ensures Started(c, send) == c
  {
  }

  function Final(c: Control, es: seq<Event>): Control
    decreases es
  {
    if es == [] then c else Final(Apply(c, es[0]), es[1..])
  }

  lemma {:induction false} RunKeepsInv(c: Control, es: seq<Event>)
    requires Inv(c)
    ensures Inv(Final(c, es))
    decreases es
  {
    if es != [] {
      StepKeepsInv(c, es[0]);
      RunKeepsInv(Apply(c, es[0]), es[1..]);
    }
  }

  lemma FreshInv()
    ensures Inv(FRESH)
  {
  }

  /** At all times: every request became an attempt, was coalesced or waits; every attempt but the one in
      flight was ended once; requests are sent once each with increasing ids; the channel is closed at
      most once, and exactly when the child has settled and nothing is in flight. */
  predicate Accounted(c: Control) {
    && c.calls == c.attempts + c.coalesced + Waiting(c)
    && Terminal(c.published) + Flying(c) == c.attempts
    && Increasing(c.sent, c.sequence)
    && c.closes <= 1 && (c.childSettled && c.inFlight.None? <==> c.closes == 1)
  }

  lemma InvAccounts(c: Control)
    requires Inv(c)
    ensures Accounted(c)
  {
    hide Terminal; hide Increasing;
  }

  lemma RequestsAccounted(es: seq<Event>)
    ensures Accounted(Final(FRESH, es))
  {
    hide Inv; hide Accounted; hide Final;
    FreshInv();
    RunKeepsInv(FRESH, es);
    InvAccounts(Final(FRESH, es));
  }

  lemma StartLogs(c: Control, send: Send)
    ensures var t := Started(c, send);
            && c.sent <= t.sent && c.closes <= t.closes <= c.closes + 1
            && (c.closed ==> t == c)
            && (t.closes > c.closes ==> t.pending.None? && t.inFlight.None?)
            && t.childSettled == c.childSettled
    decreases 2 * Waiting(c)
  {
    if c.pending.Some? && c.inFlight.None? && !c.closed && send.Throws? {
      var id := c.sequence + 1;
      FinishLogs(Published(c.(pending := None, sequence := id, inFlight := Some(Flight(id, false, false)),
                              attempts := c.attempts + 1), InFlight(id, false)), !send.empty, send);
    }
  }

  lemma FinishLogs(c: Control, failed: bool, send: Send)
    ensures var t := Finished(c, failed, send);
            && c.sent <= t.sent && c.closes <= t.closes <= c.closes + 1
            && (t.closes > c.closes ==> t.pending.None? && t.inFlight.None?)
            && t.childSettled == c.childSettled
    decreases 2 * Waiting(c) + 1
  {
    if c.inFlight.Some? && c.pending.Some? {
      var id := c.inFlight.value.id;
      StartLogs(Published(c.(inFlight := None), if failed then Failed(id) else Completed(id)), send);
    }
  }

  /** Closing happens only once the child has settled, with nothing pending or in flight, and nothing is
      sent from then on. */
  lemma ClosesLast(c: Control, e: Event)
    requires Inv(c)
    ensures var t := Apply(c, e);
            && (t.closes > c.closes ==> t.childSettled && t.pending.None? && t.inFlight.None?)
            && (c.closed ==> t.closed && t.sent == c.sent)
  {
    hide Terminal; hide Started; hide Finished;
    StepKeepsInv(c, e);
    match e
    case Queue(instructions, send) =>
      StartLogs(c.(calls := c.calls + 1, coalesced := c.coalesced + Waiting(c), pending := Some(instructions)), send);
    case ChildSettled(send) => StartLogs(c.(childSettled := true), send);
    case Observe(event, send) =>
      if c.inFlight.Some? {
        var flight := c.inFlight.value;
        match event {
          case CompactionEnd(aborted, message) =>
            var failed := flight.failed || aborted || message;
            FinishLogs(c.(inFlight := Some(flight.(failed := failed))), failed, send);
          case Response(id, success) =>
            FinishLogs(c, true, send);
            FinishLogs(c.(inFlight := Some(flight.(responseSeen := true))), flight.failed, send);
          case Other =>
        }
      }
  }

  // ----- what is sent -----

  /** The instructions of the last request of a run. */
  function Latest(es: seq<Event>): Option<nat> {
    if es == [] then None
    else if es[|es| - 1].Queue? then Some(es[|es| - 1].instructions)
    else Latest(es[..|es| - 1])
  }

  /** Whatever is sent or still waits is the given request. */
  predicate OnlyThis(before: Control, after: Control, instructions: Option<nat>) {
    && (after.pending.None? || after.pending == instructions)
    && (after.sent == before.sent
        || (instructions.Some? && after.sent == before.sent + [Frame(after.sequence, instructions.value)] && after.pending.None?))
  }

  lemma StartSends(c: Control, send: Send)
    requires c.inFlight.None?
    ensures OnlyThis(c, Started(c, send), c.pending)
  {
    hide Finished;
    if c.pending.Some? && !c.closed && send.Throws? {
      var id := c.sequence + 1;
      var started := Published(c.(pending := None, sequence := id, inFlight := Some(Flight(id, false, false)),
                                  attempts := c.attempts + 1), InFlight(id, false));
      FinishUnfolds(started, !send.empty, send);
    }
  }

  lemma FinishSends(c: Control, failed: bool, send: Send)
    ensures OnlyThis(c, Finished(c, failed, send), c.pending)
  {
    hide Started;
    if c.inFlight.Some? {
      StartSends(Published(c.(inFlight := None), if failed then Failed(c.inFlight.value.id) else Completed(c.inFlight.value.id)), send);
    }
  }

  lemma StepSends(c: Control, e: Event)
    requires Inv(c)
    ensures OnlyThis(c, Apply(c, e), if e.Queue? then Some(e.instructions) else c.pending)
  {
    hide Terminal; hide Started; hide Finished; hide Increasing;
    match e
    case Queue(instructions, send) =>
      var queued := c.(calls := c.calls + 1, coalesced := c.coalesced + Waiting(c), pending := Some(instructions));
      if queued.inFlight.None? { StartSends(queued, send); }
    case ChildSettled(send) =>
      if c.inFlight.None? { StartSends(c.(childSettled := true), send); }
    case Observe(event, send) =>
      if c.inFlight.Some? {
        var flight := c.inFlight.value;
        match event {
          case CompactionEnd(aborted, message) =>
            var failed := flight.failed || aborted || message;
            FinishSends(c.(inFlight := Some(flight.(failed := failed))), failed, send);
          case Response(id, success) =>
            FinishSends(c, true, send);
            FinishSends(c.(inFlight := Some(flight.(responseSeen := true))), flight.failed, send);
          case Other =>
        }
      }
  }

  lemma {:induction false} FinalSnoc(c: Control, es: seq<Event>, e: Event)
    ensures Final(c, es + [e]) == Apply(Final(c, es), e)
    decreases es
  {
    hide Apply;
    if es == [] {
      assert es + [e] == [e] && [e][1..] == [];
    } else {
      assert (es + [e])[0] == es[0] && (es + [e])[1..] == es[1..] + [e];
      FinalSnoc(Apply(c, es[0]), es[1..], e);
    }
  }

  /** In every run the waiting request is the latest one. */
  lemma {:induction false} LatestWaits(es: seq<Event>)
    ensures Final(FRESH, es).pending.None? || Final(FRESH, es).pending == Latest(es)
  {
    hide Apply; hide Inv;
    if es != [] {
      var init, e := es[..|es| - 1], es[|es| - 1];
      LatestWaits(init);
      FreshInv();
      RunKeepsInv(FRESH, init);
      StepSends(Final(FRESH, init), e);
      FinalSnoc(FRESH, init, e);
      assert init + [e] == es;
    }
  }

  /** In every run a step sends at most one request, and what it sends are the instructions of the latest one:
      those of a request that was coalesced are never sent. */
  lemma LatestIsSent(es: seq<Event>, e: Event)
    ensures var c, t := Final(FRESH, es), Final(FRESH, es + [e]);
            t.sent == c.sent
            || (Latest(es + [e]).Some? && t.sent == c.sent + [Frame(t.sequence, Latest(es + [e]).value)] && t.pending.None?)
  {
    hide Apply; hide Inv;
    LatestWaits(es);
    FreshInv();
    RunKeepsInv(FRESH, es);
    StepSends(Final(FRESH, es), e);
    FinalSnoc(FRESH, es, e);
    assert (es + [e])[..|es|] == es;
  }

  // ----- what "completed" means -----

  /** The attempt is answered: by this event, or by an earlier response, without any recorded error. */
  predicate Answers(c: Control, e: Event, id: nat) {
    && e.Observe? && c.inFlight.Some? && c.inFlight.value.id == id && !c.inFlight.value.failed
    && (e.event == Response(id, true) || (e.event == CompactionEnd(false, false) && c.inFlight.value.responseSeen))
  }

  /** The event ends the attempt in flight. */
  predicate Ends(c: Control, e: Event) {
    && e.Observe? && c.inFlight.Some?
    && match e.event
       case CompactionEnd(_, _) => c.inFlight.value.responseSeen
       case Response(id, _) => id == c.inFlight.value.id
       case Other => false
  }

  /** A waiting request is started, and the hook that sends it throws an error with an empty message. */
  predicate ThrowsEmpty(c: Control, e: Event, id: nat) {
    && e.send == Throws(true) && id == c.sequence + 1 && c.pending.Some? && !c.closed
    && ((e.ChildSettled? && c.inFlight.None?) || Ends(c, e))
  }

  predicate Says(before: Control, after: Control, id: nat) {
    |before.published| <= |after.published| && Completed(id) in after.published[|before.published|..]
  }

  lemma StartSays(c: Control, send: Send, id: nat)
    ensures var t := Started(c, send);
            Says(c, t, id) <==> c.pending.Some? && c.inFlight.None? && !c.closed && send == Throws(true) && id == c.sequence + 1
    ensures c.published <= Started(c, send).published
  {
    if c.pending.Some? && c.inFlight.None? && !c.closed {
      var flying := Published(c.(pending := None, sequence := c.sequence + 1, inFlight := Some(Flight(c.sequence + 1, false, false)),
                                 attempts := c.attempts + 1), InFlight(c.sequence + 1, false));
      if send.Throws? {
        var end := if send.empty then Completed(c.sequence + 1) else Failed(c.sequence + 1);
        assert Finished(flying, !send.empty, send).published == c.published + [InFlight(c.sequence + 1, false), end];
        assert (c.published + [InFlight(c.sequence + 1, false), end])[|c.published|..] == [InFlight(c.sequence + 1, false), end];
      } else {
        assert flying.published[|c.published|..] == [InFlight(c.sequence + 1, false)];
      }
    } else {
      assert c.published[|c.published|..] == [];
    }
  }

  lemma SliceAfter(a: seq<Status>, end: Status, b: seq<Status>)
    requires a + [end] <= b
    ensures b[|a|..] == [end] + b[|a| + 1..]
  {
    assert b[|a|] == (a + [end])[|a|];
  }

  lemma FinishUnfolds(c: Control, failed: bool, send: Send)
    requires c.inFlight.Some?
    ensures var id := c.inFlight.value.id;
            var ended := Published(c.(inFlight := None), if failed then Failed(id) else Completed(id));
            Finished(c, failed, send) == if ended.pending.Some? then Started(ended, send) else Closed(ended)
  {
  }

  lemma FinishSays(c: Control, failed: bool, send: Send, id: nat)
    requires c.inFlight.Some?
    ensures var t := Finished(c, failed, send);
            Says(c, t, id) <==>
              (!failed && id == c.inFlight.value.id)
              || (c.pending.Some? && !c.closed && send == Throws(true) && id == c.sequence + 1)
  {
    hide Started; hide Finished;
    var end := if failed then Failed(c.inFlight.value.id) else Completed(c.inFlight.value.id);
    var ended := Published(c.(inFlight := None), end);
    FinishUnfolds(c, failed, send);
    StartSays(ended, send, id);
    SliceAfter(c.published, end, Finished(c, failed, send).published);
  }

  /** "completed" is published for an attempt exactly when it is answered without an error, or when its
      send threw an error whose message is empty: the latter was never answered at all. */
  lemma CompletedExactly(c: Control, e: Event, id: nat)
    requires Inv(c)
    ensures Says(c, Apply(c, e), id) <==> Answers(c, e, id) || ThrowsEmpty(c, e, id)
  {
    hide Terminal; hide Started; hide Finished;
    var t := Apply(c, e);
    assert c.published[|c.published|..] == [];
    match e
    case Queue(instructions, send) =>
      var queued := c.(calls := c.calls + 1, coalesced := c.coalesced + Waiting(c), pending := Some(instructions));
      StartSays(queued, send, id);
      if queued.inFlight.Some? || !queued.childSettled {
        assert t.published[|c.published|..] == [t.published[|c.published|]];
      }
    case ChildSettled(send) => StartSays(c.(childSettled := true), send, id);
    case Observe(event, send) =>
      if c.inFlight.Some? {
        var flight := c.inFlight.value;
        match event {
          case CompactionEnd(aborted, message) =>
            var failed := flight.failed || aborted || message;
            FinishSays(c.(inFlight := Some(flight.(failed := failed))), failed, send, id);
          case Response(_, success) =>
            FinishSays(c, true, send, id);
            FinishSays(c.(inFlight := Some(flight.(responseSeen := true))), flight.failed, send, id);
          case Other =>
        }
      }
  }

  /** It happens: a request waits, and the hook that should send it throws an empty error once the child
      has settled. The attempt is published as completed although nothing was ever sent. */
  lemma EmptyThrowHappens(instructions: nat, send: Send)
    ensures var c := Final(FRESH, [Queue(instructions, send)] + [ChildSettled(Throws(true))]);
            c.published == [Queued, InFlight(1, false), Completed(1)] && c.sent == [] && c.attempts == 1 && c.closed
  {
    var waiting := FRESH.(calls := 1, pending := Some(instructions), published := [Queued]);
    TwoSteps(FRESH, Queue(instructions, send), ChildSettled(Throws(true)));
    assert Apply(FRESH, Queue(instructions, send)) == waiting;
    EmptyThrowCompletes(waiting.(childSettled := true));
  }

  lemma TwoSteps(c: Control, d: Event, e: Event)
    ensures Final(c, [d] + [e]) == Apply(Apply(c, d), e)
  {
    hide Apply;
    assert ([d] + [e])[0] == d && ([d] + [e])[1..] == [e] && [e][1..] == [];
    assert Final(Apply(c, d), [e]) == Final(Apply(Apply(c, d), e), []);
  }

  lemma EmptyThrowCompletes(c: Control)
    requires c.pending.Some? && c.inFlight.None? && !c.closed
    ensures var id := c.sequence + 1;
            Started(c, Throws(true)) ==
            c.(pending := None, sequence := id, attempts := c.attempts + 1, closed := true, closes := c.closes + 1,
               published := c.published + [InFlight(id, false)] + [Completed(id)])
  {
    hide Finished;
    var id := c.sequence + 1;
    FinishUnfolds(Published(c.(pending := None, sequence := id, inFlight := Some(Flight(id, false, false)),
                               attempts := c.attempts + 1), InFlight(id, false)), false, Throws(true));
  }

  // ----- the control object -----

  class ChildCompactControl {
    var pending: Option<nat>
    var inFlight: Option<Flight>
    var childSettled: bool
    var closed: bool
    var sequence: nat
    var attempts: nat
    var coalescedRequests: nat
    var calls: nat
    var published: seq<Status>
    var sent: seq<Frame>
    var closes: nat

    function Abs(): Control
      reads this
    {
      Control(pending, inFlight, childSettled, closed, sequence, attempts, coalescedRequests, calls, published, sent, closes)
    }

    constructor ()
      ensures Abs() == FRESH
    {
      pending, inFlight, childSettled, closed := None, None, false, false;
      sequence, attempts, coalescedRequests := 0, 0, 0;
      calls, published, sent, closes := 0, [], [], 0;
    }

    method Publish(status: Status)
      modifies `published
      ensures Abs() == Published(old(Abs()), status)
    {
      published := published + [status];
    }

    method Close()
      modifies `closed, `closes
      ensures Abs() == Closed(old(Abs()))
    {
      if closed { return; }
      closed, closes := true, closes + 1;
    }

    method StartPending(send: Send)
      modifies this
      ensures Abs() == Started(old(Abs()), send)
      decreases 2 * Waiting(Abs())
    {
      if pending.None? || inFlight.Some? || closed { return; }
      var instructions := pending.value;
      pending, sequence := None, sequence + 1;
      var id := sequence;
      inFlight, attempts := Some(Flight(id, false, false)), attempts + 1;
      Publish(InFlight(id, false));
      if send.Sends? {
        sent := sent + [Frame(id, instructions)];
      } else {
        Finish(!send.empty, send);
      }
    }

    method Finish(failed: bool, send: Send)
      modifies this
      ensures Abs() == Finished(old(Abs()), failed, send)
      decreases 2 * Waiting(Abs()) + 1
    {
      if inFlight.None? { return; }
      var id := inFlight.value.id;
      inFlight := None;
      Publish(if failed then Failed(id) else Completed(id));
      if pending.Some? { StartPending(send); } else { Close(); }
    }

    method QueueRequest(instructions: nat, send: Send)
      modifies this
      ensures Abs() == Apply(old(Abs()), Queue(instructions, send))
    {
      hide Started; hide Finished;
      calls := calls + 1;
      if pending.Some? { coalescedRequests := coalescedRequests + 1; }
      pending := Some(instructions);
      if inFlight.Some? {
        Publish(InFlight(inFlight.value.id, true));
        return;
      }
      if childSettled { StartPending(send); } else { Publish(Queued); }
    }

    method OnChildSettled(send: Send)
      modifies this
      ensures Abs() == Apply(old(Abs()), ChildSettled(send))
    {
      hide Started; hide Finished;
      childSettled := true;
      if inFlight.Some? { return; }
      if pending.Some? { StartPending(send); } else { Close(); }
    }

    method OnEvent(event: Observed, send: Send)
      modifies this
      ensures Abs() == Apply(old(Abs()), Observe(event, send))
    {
      hide Started; hide Finished;
      if inFlight.None? { return; }
      match event
      case CompactionEnd(aborted, message) =>
        if aborted || message { inFlight := Some(inFlight.value.(failed := true)); }
        MaybeFinish(send);
      case Response(id, success) =>
        if id != inFlight.value.id { return; }
        if !success {
          Finish(true, send);
          return;
        }
        inFlight := Some(inFlight.value.(responseSeen := true));
        MaybeFinish(send);
      case Other =>
    }

    method MaybeFinish(send: Send)
      modifies this
      ensures Abs() == FinishedIfSeen(old(Abs()), send)
    {
      hide Started; hide Finished;
      if inFlight.None? || !inFlight.value.responseSeen { return; }
      Finish(inFlight.value.failed, send);
    }
  }
}
