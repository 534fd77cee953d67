/** An actor's mailbox: one queue, one drain loop cut into segments by its awaits, and callers whose
    promises must each be settled exactly once whatever aborts, stops or moves the actor. */
module Mailbox {
  import opened Common

  type Id = nat

  datatype Status = Idle | Queued | Running | Stopped

  /** `ask` marks an item somebody waits for; `key` is the coalesce key of a host event. */
  datatype Item = Item(id: Id, ask: bool, key: Option<nat>, payload: nat)

  /** How a run ended: a message, possibly the stop directive; a failed run of a directive actor, which
      stays silent; or any other failure. */
  datatype Outcome = Completed(stops: bool) | Silent | Failed

  datatype RunResult = Threw | Ran(outcome: Outcome, save: bool)

  datatype Capability = Satisfied | Missing | Unavailable

  /** What follows the cleanup of one activation: the loop goes on or is left. */
  datatype Next = Again | Leave

  /** The await at which the drain loop is suspended. */
  datatype Drain =
    | Off
    | Presence(item: Item)
    | Validity(item: Item)
    | Capabilities(item: Item)
    | Run(item: Item)
    | Save(item: Item, outcome: Outcome)
    | Recheck(item: Item, stops: bool)
    | Publish(item: Item, stops: bool)
    | StalePresence
    | MissPresence
    | Cleanup(next: Next)
    | LastPresence(next: Next)

  datatype Settlement = Settlement(id: Id, resolved: bool)

  /** `controller` is the abort controller, if any, and whether it was aborted. `next`, `issued` and
      `settled` are history: ids are handed out in order, every call of ask() is issued, and every call
      of a promise's resolve or reject is logged. */
  datatype Box = Box(
    queue: seq<Item>, status: Status, drain: Drain, controller: Option<bool>, missing: bool,
    owned: bool, closing: bool, requirements: bool, limit: nat,
    next: Id, issued: seq<Id>, settled: seq<Settlement>)

  datatype Event =
    | Ask(cancelled: bool, payload: nat)
    | Post(key: Option<nat>, payload: nat)
    | AbortAsk(id: Id)
    | Stop | Halt | Dispossess | Reclaim | Close | RetryCapabilities
    | PresenceDone
    | ValidityDone(valid: bool)
    | CapabilityDone(capability: Capability)
    | RunDone(result: RunResult)
    | SaveDone(saved: bool)
    | PublishDone
    | CleanupDone

  // ----- parts of a state -----

  function Asks(items: seq<Item>): seq<Id> {
    if items == [] then [] else (if items[0].ask then [items[0].id] else []) + Asks(items[1..])
  }

  function InFlight(drain: Drain): seq<Item> {
    match drain
    case Presence(item) => [item]
    case Validity(item) => [item]
    case Capabilities(item) => [item]
    case Run(item) => [item]
    case Save(item, _) => [item]
    case Recheck(item, _) => [item]
    case Publish(item, _) => [item]
    case Off | StalePresence | MissPresence | Cleanup(_) | LastPresence(_) => []
  }

  function Settlements(ids: seq<Id>, resolved: bool): seq<Settlement> {
    if ids == [] then [] else [Settlement(ids[0], resolved)] + Settlements(ids[1..], resolved)
  }

  function SettledIds(settled: seq<Settlement>): seq<Id> {
    if settled == [] then [] else [settled[0].id] + SettledIds(settled[1..])
  }

  function Settle(b: Box, items: seq<Item>, resolved: bool): Box {
    b.(settled := b.settled + Settlements(Asks(items), resolved))
  }

  function EmptyQueue(b: Box): Box { Settle(b, b.queue, false).(queue := []) }

  function Aborted(b: Box): Box { if b.controller.Some? then b.(controller := Some(true)) else b }

  function Waiting(b: Box): Status { if b.queue == [] then Idle else Queued }

  function Position(queue: seq<Item>, id: Id): (i: Option<nat>)
    ensures i.Some? ==> i.value < |queue| && queue[i.value].id == id
    ensures i.None? <==> forall j :: 0 <= j < |queue| ==> queue[j].id != id
  {
    if queue == [] then None
    else if queue[0].id == id then Some(0)
    else match Position(queue[1..], id) case None => None case Some(i) => Some(i + 1)
  }

  function KeyPosition(queue: seq<Item>, key: nat): (i: Option<nat>)
    ensures i.Some? ==> i.value < |queue| && queue[i.value].key == Some(key)
    ensures i.None? <==> forall j :: 0 <= j < |queue| ==> queue[j].key != Some(key)
  {
    if queue == [] then None
    else if queue[0].key == Some(key) then Some(0)
    else match KeyPosition(queue[1..], key) case None => None case Some(i) => Some(i + 1)
  }

  // ----- the segments of the drain loop -----

  /** From the loop head to the first await. */
  function LoopHead(b: Box): Box {
    if b.queue != [] && b.status != Stopped && !b.closing && b.owned
    then b.(queue := b.queue[1..], status := Running, controller := Some(false), drain := Presence(b.queue[0]))
    else b.(drain := Off)
  }

  function EnsureDrain(b: Box): Box {
    if b.drain != Off || b.status == Stopped || b.closing || !b.owned then b else LoopHead(b)
  }

  function Refused(b: Box, item: Item): Box { Settle(b, [item], false).(drain := Cleanup(Again)) }

  /** What follows a run whose result was accepted. */
  function AfterRun(b: Box, item: Item, outcome: Outcome): Box {
    match outcome
    case Failed => Refused(b, item)
    case Silent => Settle(b, [item], true).(drain := Cleanup(Again))
    case Completed(stops) => b.(drain := Recheck(item, stops))
  }

  // ----- steps -----

  predicate Enabled(b: Box, e: Event) {
    match e
    case AbortAsk(id) => id in b.issued && id !in SettledIds(b.settled)
    case Stop => b.owned
    case PresenceDone => b.drain.Presence? || b.drain.StalePresence? || b.drain.MissPresence? || b.drain.LastPresence?
    case ValidityDone(_) => b.drain.Validity? || b.drain.Recheck?
    case CapabilityDone(_) => b.drain.Capabilities?
    case RunDone(_) => b.drain.Run?
    case SaveDone(_) => b.drain.Save?
    case PublishDone => b.drain.Publish?
    case CleanupDone => b.drain.Cleanup?
    case Ask(_, _) | Post(_, _) | Halt | Dispossess | Reclaim | Close | RetryCapabilities => true
  }

  predicate Refuses(b: Box) { !b.owned || b.status == Stopped || |b.queue| >= b.limit }

  function Pushed(b: Box, item: Item): Box {
    EnsureDrain(b.(queue := b.queue + [item], status := Queued, next := b.next + 1))
  }

  function AfterAsk(b: Box, cancelled: bool, payload: nat): Box {
    var issued := b.(issued := b.issued + [b.next]);
    var item := Item(b.next, true, None, payload);
    if cancelled || Refuses(b) then Settle(issued, [item], false).(next := b.next + 1) else Pushed(issued, item)
  }

  function AfterPost(b: Box, key: Option<nat>, payload: nat): Box {
    if !b.owned || b.status == Stopped then b
    else
      var position := if key.Some? then KeyPosition(b.queue, key.value) else None;
      if position.Some? then
        EnsureDrain(b.(queue := b.queue[position.value := b.queue[position.value].(payload := payload)]))
      else if |b.queue| >= b.limit then b
      else Pushed(b, Item(b.next, false, key, payload))
  }

  function AfterAbortAsk(b: Box, id: Id): Box {
    var position := Position(b.queue, id);
    if position.None? then Aborted(b)
    else
      var i := position.value;
      var without := Settle(b, [b.queue[i]], false).(queue := b.queue[..i] + b.queue[i + 1..]);
      if without.queue == [] && b.status == Queued then without.(status := Idle, missing := false) else without
  }

  function AfterHalt(b: Box): Box {
    if !b.owned || b.status == Stopped || (b.controller.None? && b.queue == []) then b
    else
      var emptied := EmptyQueue(Aborted(b));
      if b.controller.Some? then emptied else emptied.(status := Idle)
  }

  function AfterPresence(b: Box): Box
    requires Enabled(b, PresenceDone)
  {
    match b.drain
    case Presence(item) => b.(drain := Validity(item))
    case StalePresence => LoopHead(b)
    case MissPresence => b.(drain := Cleanup(Leave))
    case LastPresence(next) => if next.Again? then LoopHead(b) else b.(drain := Off)
  }

  function AfterValidity(b: Box, valid: bool): Box
    requires Enabled(b, ValidityDone(valid))
  {
    match b.drain
    case Validity(item) =>
      if !valid then
        Settle(b, [item], false).(controller := None, status := Waiting(b), drain := StalePresence)
      else b.(drain := if b.requirements then Capabilities(item) else Run(item))
    case Recheck(item, stops) =>
      if !b.owned || !valid then Refused(b, item) else b.(drain := Publish(item, stops))
  }

  function AfterCapability(b: Box, capability: Capability): Box
    requires b.drain.Capabilities?
  {
    match capability
    case Unavailable => Refused(b, b.drain.item)
    case Missing => b.(missing := true, queue := [b.drain.item] + b.queue, status := Queued, drain := MissPresence)
    case Satisfied => b.(missing := false, drain := Run(b.drain.item))
  }

  function AfterPublish(b: Box): Box
    requires b.drain.Publish?
  {
    var resolved := Settle(b, [b.drain.item], true).(drain := Cleanup(Again));
    if b.drain.stops then EmptyQueue(resolved).(status := Stopped) else resolved
  }

  function AfterCleanup(b: Box): Box
    requires b.drain.Cleanup?
  {
    var next := b.drain.next;
    var idle := b.(controller := None, status := if b.status == Stopped then Stopped else Waiting(b));
    if b.owned then idle.(drain := LastPresence(next)) else if next.Again? then LoopHead(idle) else idle.(drain := Off)
  }

  function Apply(b: Box, e: Event): Box
    requires Enabled(b, e)
  {
    match e
    case Ask(cancelled, payload) => AfterAsk(b, cancelled, payload)
    case Post(key, payload) => AfterPost(b, key, payload)
    case AbortAsk(id) => AfterAbortAsk(b, id)
    case Stop => if b.status == Stopped then b else EmptyQueue(Aborted(b)).(status := Stopped)
    case Halt => AfterHalt(b)
    case Dispossess =>
      EmptyQueue(Aborted(b)).(owned := false, status := if b.status == Stopped then Stopped else Idle)
    case Reclaim => b.(owned := true)
    case Close => if b.owned then EmptyQueue(Aborted(b)).(closing := true) else b.(closing := true)
    case RetryCapabilities => if b.missing && b.queue != [] then EnsureDrain(b) else b
    case PresenceDone => AfterPresence(b)
    case ValidityDone(valid) => AfterValidity(b, valid)
    case CapabilityDone(capability) => AfterCapability(b, capability)
    case RunDone(Threw) => Refused(b, b.drain.item)
    case RunDone(Ran(outcome, save)) =>
      if !b.owned then Refused(b, b.drain.item)
      else if save then b.(drain := Save(b.drain.item, outcome))
      else AfterRun(b, b.drain.item, outcome)
    case SaveDone(saved) => if saved then AfterRun(b, b.drain.item, b.drain.outcome) else Refused(b, b.drain.item)
    case PublishDone => AfterPublish(b)
    case CleanupDone => AfterCleanup(b)
  }

  // ----- conservation -----

  lemma {:induction false} AsksAppend(a: seq<Item>, b: seq<Item>)
    ensures Asks(a + b) == Asks(a) + Asks(b)
  {
    if a == [] {
      assert a + b == b;
    } else {
      assert (a + b)[0] == a[0] && (a + b)[1..] == a[1..] + b;
      AsksAppend(a[1..], b);
    }
  }

  lemma {:induction false} SettledConcat(a: seq<Settlement>, b: seq<Settlement>)
    ensures SettledIds(a + b) == SettledIds(a) + SettledIds(b)
  {
    if a == [] {
      assert a + b == b;
    } else {
      assert (a + b)[1..] == a[1..] + b;
      SettledConcat(a[1..], b);
    }
  }

  lemma {:induction false} SettlementIds(ids: seq<Id>, resolved: bool)
    ensures SettledIds(Settlements(ids, resolved)) == ids
  {
    if ids != [] {
      var first, rest := [Settlement(ids[0], resolved)], Settlements(ids[1..], resolved);
      SettlementIds(ids[1..], resolved);
      SettledConcat(first, rest);
      assert SettledIds(first) == [ids[0]] + SettledIds(first[1..]);
    }
  }

  lemma {:induction false} SettlementsAppend(a: seq<Id>, b: seq<Id>, resolved: bool)
    ensures Settlements(a + b, resolved) == Settlements(a, resolved) + Settlements(b, resolved)
  {
    if a == [] {
      assert a + b == b;
    } else {
      assert (a + b)[1..] == a[1..] + b;
      SettlementsAppend(a[1..], b, resolved);
    }
  }

  lemma SettledAppend(a: seq<Settlement>, ids: seq<Id>, resolved: bool)
    ensures SettledIds(a + Settlements(ids, resolved)) == SettledIds(a) + ids
  {
    SettledConcat(a, Settlements(ids, resolved));
    SettlementIds(ids, resolved);
  }

  /** The mailbox seen as a ledger: the line of everything not done with, the activation in flight first. */
  datatype Ledger = Ledger(line: seq<Item>, next: Id, issued: seq<Id>, settled: seq<Settlement>)

  function LedgerOf(b: Box): Ledger { Ledger(InFlight(b.drain) + b.queue, b.next, b.issued, b.settled) }

  /** Every ask ever made is in the line or settled, counted with multiplicity. */
  predicate Conserved(l: Ledger) {
    multiset(l.issued) == multiset(Asks(l.line)) + multiset(SettledIds(l.settled))
  }

  /** The line is in order of arrival. */
  predicate InOrder(l: Ledger) {
    && (forall i :: 0 <= i < |l.line| ==> l.line[i].id < l.next)
    && (forall i, j :: 0 <= i < j < |l.line| ==> l.line[i].id < l.line[j].id)
    && (forall i :: 0 <= i < |l.issued| ==> l.issued[i] < l.next)
    && (forall i, j :: 0 <= i < j < |l.issued| ==> l.issued[i] < l.issued[j])
  }

  /** Everything a step can do to the ledger. */
  datatype Change =
    | Unchanged
    | Joined(item: Item)
    | TurnedAway
    | Finished(resolved: bool)
    | Cleared(kept: nat)
    | Withdrawn(i: nat)
    | Refreshed(i: nat, payload: nat)

  predicate Possible(l: Ledger, c: Change) {
    match c
    case Unchanged | TurnedAway => true
    case Joined(item) => item.id == l.next
    case Finished(_) => l.line != []
    case Cleared(kept) => kept <= |l.line|
    case Withdrawn(i) => i < |l.line|
    case Refreshed(i, _) => i < |l.line|
  }

  function Changed(l: Ledger, c: Change): Ledger
    requires Possible(l, c)
  {
    match c
    case Unchanged => l
    case Joined(item) =>
      l.(line := l.line + [item], next := l.next + 1, issued := if item.ask then l.issued + [item.id] else l.issued)
    case TurnedAway =>
      l.(next := l.next + 1, issued := l.issued + [l.next], settled := l.settled + [Settlement(l.next, false)])
    case Finished(resolved) =>
      l.(line := l.line[1..], settled := l.settled + Settlements(Asks(l.line[..1]), resolved))
    case Cleared(kept) =>
      l.(line := l.line[..kept], settled := l.settled + Settlements(Asks(l.line[kept..]), false))
    case Withdrawn(i) =>
      l.(line := l.line[..i] + l.line[i + 1..], settled := l.settled + Settlements(Asks([l.line[i]]), false))
    case Refreshed(i, payload) =>
      l.(line := l.line[i := l.line[i].(payload := payload)])
  }

  lemma AsksSplit(a: seq<Item>, item: Item, c: seq<Item>)
    ensures Asks(a + [item] + c) == Asks(a) + Asks([item]) + Asks(c)
  {
    AsksAppend(a + [item], c);
    AsksAppend(a, [item]);
  }

  lemma JoinConserves(l: Ledger, item: Item)
    requires Conserved(l) && item.id == l.next
    ensures Conserved(Changed(l, Joined(item)))
  {
    AsksAppend(l.line, [item]);
    assert [item][1..] == [];
  }

  lemma ClearConserves(l: Ledger, kept: nat)
    requires Conserved(l) && kept <= |l.line|
    ensures Conserved(Changed(l, Cleared(kept)))
  {
    assert l.line == l.line[..kept] + l.line[kept..];
    AsksAppend(l.line[..kept], l.line[kept..]);
    SettledAppend(l.settled, Asks(l.line[kept..]), false);
  }

  lemma FinishConserves(l: Ledger, resolved: bool)
    requires Conserved(l) && l.line != []
    ensures Conserved(Changed(l, Finished(resolved)))
  {
    assert l.line == l.line[..1] + l.line[1..];
    AsksAppend(l.line[..1], l.line[1..]);
    SettledAppend(l.settled, Asks(l.line[..1]), resolved);
  }

  lemma WithdrawConserves(l: Ledger, i: nat)
    requires Conserved(l) && i < |l.line|
    ensures Conserved(Changed(l, Withdrawn(i)))
  {
    assert l.line == l.line[..i] + [l.line[i]] + l.line[i + 1..];
    AsksSplit(l.line[..i], l.line[i], l.line[i + 1..]);
    AsksAppend(l.line[..i], l.line[i + 1..]);
    SettledAppend(l.settled, Asks([l.line[i]]), false);
  }

  lemma RefreshConserves(l: Ledger, i: nat, payload: nat)
    requires Conserved(l) && i < |l.line|
    ensures Conserved(Changed(l, Refreshed(i, payload)))
  {
    var item := l.line[i].(payload := payload);
    assert l.line == l.line[..i] + [l.line[i]] + l.line[i + 1..];
    assert l.line[i := item] == l.line[..i] + [item] + l.line[i + 1..];
    AsksSplit(l.line[..i], l.line[i], l.line[i + 1..]);
    AsksSplit(l.line[..i], item, l.line[i + 1..]);
    assert Asks([item]) == Asks([l.line[i]]);
  }

  lemma ChangeConserves(l: Ledger, c: Change)
    requires Conserved(l) && Possible(l, c)
    ensures Conserved(Changed(l, c))
  {
    match c
    case Unchanged =>
    case Joined(item) => JoinConserves(l, item);
    case TurnedAway =>
      SettledAppend(l.settled, [l.next], false);
      assert Settlements([l.next], false) == [Settlement(l.next, false)];
    case Finished(resolved) => FinishConserves(l, resolved);
    case Cleared(kept) => ClearConserves(l, kept);
    case Withdrawn(i) => WithdrawConserves(l, i);
    case Refreshed(i, payload) => RefreshConserves(l, i, payload);
  }

  lemma WithdrawKeepsOrder(l: Ledger, i: nat)
    requires InOrder(l) && i < |l.line|
    ensures InOrder(Changed(l, Withdrawn(i)))
  {
    var line := Changed(l, Withdrawn(i)).line;
    assert forall j :: 0 <= j < |line| ==> line[j] == l.line[if j < i then j else j + 1];
  }

  lemma ChangeKeepsOrder(l: Ledger, c: Change)
    requires InOrder(l) && Possible(l, c)
    ensures InOrder(Changed(l, c))
  {
    if c.Withdrawn? { WithdrawKeepsOrder(l, c.i); }
  }

  // ----- the mailbox keeps the ledger -----

  /** What each event means for the ledger; a publish that stops the actor clears it as well. */
  function ChangeOf(b: Box, e: Event): Change
    requires Enabled(b, e)
  {
    var flying := |InFlight(b.drain)|;
    match e
    case Ask(cancelled, payload) =>
      if cancelled || Refuses(b) then TurnedAway else Joined(Item(b.next, true, None, payload))
    case Post(key, payload) =>
      var position := if key.Some? then KeyPosition(b.queue, key.value) else None;
      if !b.owned || b.status == Stopped then Unchanged
      else if position.Some? then Refreshed(flying + position.value, payload)
      else if Refuses(b) then Unchanged
      else Joined(Item(b.next, false, key, payload))
    case AbortAsk(id) =>
      var position := Position(b.queue, id);
      if position.None? then Unchanged else Withdrawn(flying + position.value)
    case Stop => if b.status == Stopped then Unchanged else Cleared(flying)
    case Halt => if !b.owned || b.status == Stopped then Unchanged else Cleared(flying)
    case Dispossess => Cleared(flying)
    case Close => if b.owned then Cleared(flying) else Unchanged
    case Reclaim | RetryCapabilities | PresenceDone | CleanupDone => Unchanged
    case ValidityDone(valid) => if !valid || (b.drain.Recheck? && !b.owned) then Finished(false) else Unchanged
    case CapabilityDone(capability) => if capability.Unavailable? then Finished(false) else Unchanged
    case RunDone(Threw) => Finished(false)
    case RunDone(Ran(outcome, save)) =>
      if !b.owned then Finished(false) else if save || outcome.Completed? then Unchanged else Finished(outcome.Silent?)
    case SaveDone(saved) =>
      if saved && b.drain.outcome.Completed? then Unchanged else Finished(saved && b.drain.outcome.Silent?)
    case PublishDone => Finished(true)
  }

  function LedgerAfter(b: Box, e: Event): Ledger
    requires Enabled(b, e) && Possible(LedgerOf(b), ChangeOf(b, e))
  {
    var changed := Changed(LedgerOf(b), ChangeOf(b, e));
    if e.PublishDone? && b.drain.stops then Changed(changed, Cleared(0)) else changed
  }

  lemma LoopHeadKeepsLedger(b: Box)
    requires InFlight(b.drain) == []
    ensures LedgerOf(LoopHead(b)) == LedgerOf(b)
  {
    if b.queue != [] { assert b.queue == [b.queue[0]] + b.queue[1..]; }
  }

  lemma EnsureDrainKeepsLedger(b: Box)
    ensures LedgerOf(EnsureDrain(b)) == LedgerOf(b)
  {
    if b.drain == Off { LoopHeadKeepsLedger(b); }
  }

  lemma PushJoins(b: Box, item: Item)
    requires item.id == b.next
    ensures LedgerOf(Pushed(b, item)) == LedgerOf(b).(line := LedgerOf(b).line + [item], next := b.next + 1)
  {
    hide Asks; hide Settlements;
    EnsureDrainKeepsLedger(b.(queue := b.queue + [item], status := Queued, next := b.next + 1));
    assert InFlight(b.drain) + (b.queue + [item]) == InFlight(b.drain) + b.queue + [item];
  }

  lemma EmptyingClears(b: Box)
    ensures LedgerOf(EmptyQueue(b)) == Changed(LedgerOf(b), Cleared(|InFlight(b.drain)|))
  {
    hide Asks; hide Settlements;
    var line := LedgerOf(b).line;
    assert line[|InFlight(b.drain)|..] == b.queue && line[..|InFlight(b.drain)|] == InFlight(b.drain) + [];
  }

  lemma SettlingFinishes(b: Box, resolved: bool, drain: Drain)
    requires InFlight(b.drain) != [] && InFlight(drain) == []
    ensures LedgerOf(Settle(b, [b.drain.item], resolved).(drain := drain)) == Changed(LedgerOf(b), Finished(resolved))
  {
    hide Asks; hide Settlements;
    var line := LedgerOf(b).line;
    assert line[..1] == [b.drain.item] && line[1..] == [] + b.queue;
  }

  lemma RemoveBeyond(a: seq<Item>, b: seq<Item>, i: nat)
    requires i < |b|
    ensures (a + b)[..|a| + i] + (a + b)[|a| + i + 1..] == a + (b[..i] + b[i + 1..]) && (a + b)[|a| + i] == b[i]
  {
  }

  lemma WithdrawnQueue(b: Box, id: Id)
    requires Enabled(b, AbortAsk(id)) && Position(b.queue, id).Some?
    ensures var i, t := Position(b.queue, id).value, AfterAbortAsk(b, id);
            && t.queue == b.queue[..i] + b.queue[i + 1..] && t.drain == b.drain && t.next == b.next && t.issued == b.issued
            && t.settled == b.settled + Settlements(Asks([b.queue[i]]), false)
  {
    hide Asks; hide Settlements; hide SettledIds; hide Position;
  }

  lemma WithdrawingWithdraws(b: Box, id: Id)
    requires Enabled(b, AbortAsk(id)) && Position(b.queue, id).Some?
    ensures LedgerOf(AfterAbortAsk(b, id)) ==
            Changed(LedgerOf(b), Withdrawn(|InFlight(b.drain)| + Position(b.queue, id).value))
  {
    hide Asks; hide Settlements; hide SettledIds; hide AfterAbortAsk; hide InFlight; hide Position;
    WithdrawnQueue(b, id);
    RemoveBeyond(InFlight(b.drain), b.queue, Position(b.queue, id).value);
  }

  lemma RefreshingRefreshes(b: Box, i: nat, payload: nat)
    requires i < |b.queue|
    ensures var queue := b.queue[i := b.queue[i].(payload := payload)];
            LedgerOf(EnsureDrain(b.(queue := queue))) == Changed(LedgerOf(b), Refreshed(|InFlight(b.drain)| + i, payload))
  {
    var n, line := |InFlight(b.drain)|, LedgerOf(b).line;
    var queue := b.queue[i := b.queue[i].(payload := payload)];
    EnsureDrainKeepsLedger(b.(queue := queue));
    assert line[n + i] == b.queue[i];
    assert line[n + i := line[n + i].(payload := payload)] == InFlight(b.drain) + queue;
  }

  predicate Follows(b: Box, e: Event)
    requires Enabled(b, e)
  {
    Possible(LedgerOf(b), ChangeOf(b, e)) && LedgerOf(Apply(b, e)) == LedgerAfter(b, e)
  }

  lemma AskFollows(b: Box, cancelled: bool, payload: nat)
    ensures Follows(b, Ask(cancelled, payload))
  {
    var item := Item(b.next, true, None, payload);
    PushJoins(b.(issued := b.issued + [b.next]), item);
    assert Asks([item]) == [b.next] + Asks([item][1..]);
    assert Settlements([b.next], false) == [Settlement(b.next, false)];
  }

  lemma PostFollows(b: Box, key: Option<nat>, payload: nat)
    ensures Follows(b, Post(key, payload))
  {
    hide Asks; hide Settlements;
    var position := if key.Some? then KeyPosition(b.queue, key.value) else None;
    if position.Some? {
      RefreshingRefreshes(b, position.value, payload);
    } else {
      PushJoins(b, Item(b.next, false, key, payload));
    }
  }

  lemma AbortFollows(b: Box, id: Id)
    requires Enabled(b, AbortAsk(id))
    ensures Follows(b, AbortAsk(id))
  {
    hide Asks; hide Settlements; hide SettledIds; hide Position; hide Settle;
    if Position(b.queue, id).Some? { WithdrawingWithdraws(b, id); }
  }

  lemma ClearingFollows(b: Box, e: Event)
    requires Enabled(b, e) && (e.Stop? || e.Dispossess? || e.Close?)
    ensures Follows(b, e)
  {
    hide Asks; hide Settlements;
    EmptyingClears(Aborted(b));
  }

  lemma HaltFollows(b: Box)
    ensures Follows(b, Halt)
  {
    EmptyingClears(Aborted(b));
    if b.queue == [] { EmptyingClears(b); }
  }

  lemma PresenceFollows(b: Box)
    requires Enabled(b, PresenceDone)
    ensures Follows(b, PresenceDone)
  {
    if InFlight(b.drain) == [] { LoopHeadKeepsLedger(b); }
  }

  lemma CleanupFollows(b: Box)
    requires Enabled(b, CleanupDone)
    ensures Follows(b, CleanupDone)
  {
    LoopHeadKeepsLedger(b.(controller := None, status := if b.status == Stopped then Stopped else Waiting(b)));
  }

  lemma RetryFollows(b: Box)
    ensures Follows(b, RetryCapabilities) && Follows(b, Reclaim)
  {
    EnsureDrainKeepsLedger(b);
  }

  lemma ValidityFollows(b: Box, valid: bool)
    requires Enabled(b, ValidityDone(valid))
    ensures Follows(b, ValidityDone(valid))
  {
    hide Asks; hide Settlements;
    SettlingFinishes(b, false, StalePresence);
    SettlingFinishes(b, false, Cleanup(Again));
  }

  lemma PuttingBackKeepsLedger(b: Box)
    requires b.drain.Capabilities?
    ensures LedgerOf(AfterCapability(b, Missing)) == LedgerOf(b) == LedgerOf(AfterCapability(b, Satisfied))
  {
    assert [] + ([b.drain.item] + b.queue) == InFlight(b.drain) + b.queue;
  }

  lemma CapabilityFollows(b: Box, capability: Capability)
    requires Enabled(b, CapabilityDone(capability))
    ensures Follows(b, CapabilityDone(capability))
  {
    hide LedgerOf; hide InFlight;
    PuttingBackKeepsLedger(b);
    FlightIsFirst(b);
    SettlingFinishes(b, false, Cleanup(Again));
  }

  lemma FlightIsFirst(b: Box)
    requires b.drain.Capabilities?
    ensures InFlight(b.drain) != [] && LedgerOf(b).line != [] && InFlight(Cleanup(Again)) == []
  {
  }

  lemma RunFollows(b: Box, e: Event)
    requires Enabled(b, e) && (e.RunDone? || e.SaveDone?)
    ensures Follows(b, e)
  {
    hide Asks; hide Settlements;
    SettlingFinishes(b, false, Cleanup(Again));
    SettlingFinishes(b, true, Cleanup(Again));
  }

  lemma PublishFollows(b: Box)
    requires Enabled(b, PublishDone)
    ensures Follows(b, PublishDone)
  {
    hide Asks; hide Settlements;
    SettlingFinishes(b, true, Cleanup(Again));
    EmptyingClears(Settle(b, [b.drain.item], true).(drain := Cleanup(Again)));
  }

  /** Whatever a call or a segment of the drain does, it does to the ledger what ChangeOf says. */
  lemma StepFollows(b: Box, e: Event)
    requires Enabled(b, e)
    ensures Follows(b, e)
  {
    match e
    case Ask(cancelled, payload) => AskFollows(b, cancelled, payload);
    case Post(key, payload) => PostFollows(b, key, payload);
    case AbortAsk(id) => AbortFollows(b, id);
    case Stop | Dispossess | Close => ClearingFollows(b, e);
    case Halt => HaltFollows(b);
    case PresenceDone => PresenceFollows(b);
    case CleanupDone => CleanupFollows(b);
    case Reclaim | RetryCapabilities => RetryFollows(b);
    case ValidityDone(valid) => ValidityFollows(b, valid);
    case CapabilityDone(capability) => CapabilityFollows(b, capability);
    case RunDone(_) | SaveDone(_) => RunFollows(b, e);
    case PublishDone => PublishFollows(b);
  }

  // ----- invariants over every run -----

  /** A stopped actor has no queue; an activation in flight has an abort controller; a host that does not
      own the actor queues nothing but items put back for missing capabilities. */
  predicate Sane(b: Box) {
    && (b.status == Stopped ==> b.queue == [])
    && (InFlight(b.drain) != [] ==> b.controller.Some?)
    && (!b.owned && b.queue != [] ==> b.missing)
    && (!b.owned && InFlight(b.drain) != [] ==> b.queue == [])
  }

  lemma EnsureDrainKeepsSane(b: Box)
    requires Sane(b)
    ensures Sane(EnsureDrain(b))
  {
  }

  lemma PostKeepsSane(b: Box, key: Option<nat>, payload: nat)
    requires Sane(b)
    ensures Sane(AfterPost(b, key, payload))
  {
  }

  lemma AskKeepsSane(b: Box, cancelled: bool, payload: nat)
    requires Sane(b)
    ensures Sane(AfterAsk(b, cancelled, payload))
  {
    hide Asks; hide Settlements;
  }

  lemma AbortKeepsSane(b: Box, id: Id)
    requires Sane(b)
    ensures Sane(AfterAbortAsk(b, id))
  {
    hide Asks; hide Settlements;
  }

  lemma ControlKeepsSane(b: Box, e: Event)
    requires Sane(b) && Enabled(b, e) && (e.Stop? || e.Halt? || e.Dispossess? || e.Reclaim? || e.Close?)
    ensures Sane(Apply(b, e))
  {
  }

  lemma LoopKeepsSane(b: Box, e: Event)
    requires Sane(b) && Enabled(b, e) && (e.PresenceDone? || e.CleanupDone?)
    ensures Sane(Apply(b, e))
  {
  }

  lemma ValidityKeepsSane(b: Box, valid: bool)
    requires Sane(b) && Enabled(b, ValidityDone(valid))
    ensures Sane(AfterValidity(b, valid))
  {
  }

  lemma CapabilityKeepsSane(b: Box, capability: Capability)
    requires Sane(b) && b.drain.Capabilities?
    ensures Sane(AfterCapability(b, capability))
  {
  }

  lemma PublishKeepsSane(b: Box)
    requires Sane(b) && b.drain.Publish?
    ensures Sane(AfterPublish(b))
  {
  }

  lemma RunKeepsSane(b: Box, e: Event)
    requires Sane(b) && Enabled(b, e) && e.RunDone?
    ensures Sane(Apply(b, e))
  {
  }

  lemma SaveKeepsSane(b: Box, e: Event)
    requires Sane(b) && Enabled(b, e) && e.SaveDone?
    ensures Sane(Apply(b, e))
  {
  }

  lemma StepKeepsSane(b: Box, e: Event)
    requires Sane(b) && Enabled(b, e)
    ensures Sane(Apply(b, e))
  {
    hide Sane;
    match e
    case Ask(cancelled, payload) => AskKeepsSane(b, cancelled, payload);
    case Post(key, payload) => PostKeepsSane(b, key, payload);
    case AbortAsk(id) => AbortKeepsSane(b, id);
    case RetryCapabilities => EnsureDrainKeepsSane(b);
    case Stop | Halt | Dispossess | Reclaim | Close => ControlKeepsSane(b, e);
    case PresenceDone | CleanupDone => LoopKeepsSane(b, e);
    case ValidityDone(valid) => ValidityKeepsSane(b, valid);
    case CapabilityDone(capability) => CapabilityKeepsSane(b, capability);
    case PublishDone => PublishKeepsSane(b);
    case RunDone(_) => RunKeepsSane(b, e);
    case SaveDone(_) => SaveKeepsSane(b, e);
  }

  predicate Inv(b: Box) { Conserved(LedgerOf(b)) && InOrder(LedgerOf(b)) && Sane(b) }

  /** Every call and every segment of the drain keeps the invariant. */
  lemma StepKeepsInv(b: Box, e: Event)
    requires Inv(b) && Enabled(b, e)
    ensures Inv(Apply(b, e))
  {
    StepFollows(b, e);
    StepKeepsSane(b, e);
    var change := ChangeOf(b, e);
    ChangeConserves(LedgerOf(b), change);
    ChangeKeepsOrder(LedgerOf(b), change);
    var changed := Changed(LedgerOf(b), change);
    ChangeConserves(changed, Cleared(0));
    ChangeKeepsOrder(changed, Cleared(0));
  }

  // ----- runs -----

  predicate Runs(b: Box, es: seq<Event>)
    decreases es
  {
    es == [] || (Enabled(b, es[0]) && Runs(Apply(b, es[0]), es[1..]))
  }

  function Final(b: Box, es: seq<Event>): Box
    requires Runs(b, es)
    decreases es
  {
    if es == [] then b else Final(Apply(b, es[0]), es[1..])
  }

  predicate Opens(b: Box) {
    b.queue == [] && b.drain == Off && b.controller.None? && b.issued == [] && b.settled == []
  }

  lemma {:induction false} RunKeepsInv(b: Box, es: seq<Event>)
    requires Inv(b) && Runs(b, es)
    ensures Inv(Final(b, es))
    decreases es
  {
    if es != [] {
      StepKeepsInv(b, es[0]);
      RunKeepsInv(Apply(b, es[0]), es[1..]);
    }
  }

  lemma {:induction false} AscendingOnce(ids: seq<Id>, id: Id)
    requires forall i, j :: 0 <= i < j < |ids| ==> ids[i] < ids[j]
    ensures multiset(ids)[id] == if id in ids then 1 else 0
  {
    if ids != [] {
      AscendingOnce(ids[1..], id);
      assert ids == [ids[0]] + ids[1..];
      assert ids[0] !in ids[1..];
    }
  }

  lemma OpensInv(b: Box)
    requires Opens(b)
    ensures Inv(b)
  {
    assert LedgerOf(b).line == [];
  }

  /** In every run every ask ever made is in exactly one place: queued, in flight, or settled, and then
      settled once. Nothing that was not asked is ever settled. */
  lemma ExactlyOnePlace(b: Box, es: seq<Event>, id: Id)
    requires Opens(b) && Runs(b, es)
    ensures var t := Final(b, es);
            multiset(Asks(t.queue))[id] + multiset(Asks(InFlight(t.drain)))[id] + multiset(SettledIds(t.settled))[id]
            == if id in t.issued then 1 else 0
  {
    hide Asks; hide SettledIds; hide Runs; hide Final; hide Sane;
    OpensInv(b);
    RunKeepsInv(b, es);
    var t := Final(b, es);
    AsksAppend(InFlight(t.drain), t.queue);
    AscendingOnce(t.issued, id);
    assert (id in t.issued) == (id in multiset(t.issued));
    assert multiset(t.issued)[id] == multiset(Asks(LedgerOf(t).line))[id] + multiset(SettledIds(t.settled))[id];
  }

  lemma {:induction false} AsksAreItems(items: seq<Item>, id: Id)
    ensures id in Asks(items) <==> exists i :: 0 <= i < |items| && items[i].id == id && items[i].ask
  {
    if items != [] {
      AsksAreItems(items[1..], id);
      if id in Asks(items[1..]) {
        var i :| 0 <= i < |items[1..]| && items[1..][i].id == id && items[1..][i].ask;
        assert items[i + 1].id == id;
      }
    }
  }

  /** A pending ask has its place in the line. */
  lemma PendingIsInLine(b: Box, id: Id) returns (k: nat)
    requires Inv(b) && Enabled(b, AbortAsk(id))
    ensures k < |LedgerOf(b).line| && LedgerOf(b).line[k].id == id && LedgerOf(b).line[k].ask
  {
    var line := LedgerOf(b).line;
    assert id in multiset(b.issued);
    assert id in Asks(line);
    AsksAreItems(line, id);
    k :| k < |line| && line[k].id == id && line[k].ask;
  }

  /** Aborting an ask that is no longer queued aborts the controller of its own run, never that of
      another item. */
  lemma AbortHitsItsOwn(b: Box, id: Id)
    requires Inv(b) && Enabled(b, AbortAsk(id)) && Position(b.queue, id).None?
    ensures InFlight(b.drain) != [] && b.drain.item.id == id && b.drain.item.ask
    ensures AfterAbortAsk(b, id) == b.(controller := Some(true))
  {
    var k := PendingIsInLine(b, id);
  }

  lemma ItemAfterFlight(b: Box, i: nat)
    requires i < |b.queue|
    ensures |InFlight(b.drain)| + i < |LedgerOf(b).line| && LedgerOf(b).line[|InFlight(b.drain)| + i] == b.queue[i]
  {
  }

  lemma AskSettles(id: Id, item: Item)
    requires item.ask && item.id == id
    ensures Settlements(Asks([item]), false) == [Settlement(id, false)]
  {
    assert Asks([item]) == [id] + Asks([item][1..]);
    assert Settlements([id], false) == [Settlement(id, false)] + Settlements([id][1..], false);
  }

  /** Aborting a queued ask takes that very item out of the queue and rejects it. */
  lemma AbortWithdraws(b: Box, id: Id)
    requires Inv(b) && Enabled(b, AbortAsk(id)) && Position(b.queue, id).Some?
    ensures var t := AfterAbortAsk(b, id);
            && t.settled == b.settled + [Settlement(id, false)]
            && t.drain == b.drain && t.controller == b.controller
            && exists i :: 0 <= i < |b.queue| && b.queue[i].id == id && t.queue == b.queue[..i] + b.queue[i + 1..]
  {
    hide Asks; hide Settlements; hide Inv; hide InFlight;
    var k := PendingIsInLine(b, id);
    var i := Position(b.queue, id).value;
    ItemAfterFlight(b, i);
    IdsApart(b, k, |InFlight(b.drain)| + i);
    AskSettles(id, b.queue[i]);
  }

  lemma IdsApart(b: Box, i: nat, j: nat)
    requires Inv(b) && i < |LedgerOf(b).line| && j < |LedgerOf(b).line| && LedgerOf(b).line[i].id == LedgerOf(b).line[j].id
    ensures i == j
  {
  }

  // ----- what a drained item can become -----

  lemma EnsureDrainKeepsFlight(b: Box)
    requires b.drain != Off
    ensures EnsureDrain(b) == b
  {
  }

  lemma AskKeepsFlight(b: Box, cancelled: bool, payload: nat)
    requires b.drain != Off
    ensures AfterAsk(b, cancelled, payload).drain == b.drain
  {
    hide EnsureDrain; hide Asks; hide Settlements;
    var item := Item(b.next, true, None, payload);
    EnsureDrainKeepsFlight(b.(issued := b.issued + [b.next], queue := b.queue + [item], status := Queued, next := b.next + 1));
  }

  lemma PostKeepsFlight(b: Box, key: Option<nat>, payload: nat)
    requires b.drain != Off
    ensures AfterPost(b, key, payload).drain == b.drain
  {
    hide LoopHead; hide KeyPosition;
  }

  lemma AbortKeepsFlight(b: Box, id: Id)
    ensures AfterAbortAsk(b, id).drain == b.drain
  {
    hide Position; hide Asks; hide Settlements;
  }

  lemma CallsKeepFlight(b: Box, e: Event)
    requires Enabled(b, e) && !IsSegment(e) && InFlight(b.drain) != []
    ensures Apply(b, e).drain == b.drain
  {
    hide AfterAsk; hide AfterPost; hide AfterAbortAsk; hide EnsureDrain; hide Asks; hide Settlements;
    EnsureDrainKeepsFlight(b);
    match e
    case Ask(cancelled, payload) => AskKeepsFlight(b, cancelled, payload);
    case Post(key, payload) => PostKeepsFlight(b, key, payload);
    case AbortAsk(id) => AbortKeepsFlight(b, id);
    case Stop | Halt | Dispossess | Reclaim | Close | RetryCapabilities =>
  }

  lemma PublishKeepsNothing(b: Box)
    requires b.drain.Publish?
    ensures InFlight(AfterPublish(b).drain) == []
  {
  }

  lemma ValidityKeepsItem(b: Box, valid: bool)
    requires Enabled(b, ValidityDone(valid))
    ensures InFlight(AfterValidity(b, valid).drain) != [] ==> InFlight(AfterValidity(b, valid).drain) == InFlight(b.drain)
    ensures InFlight(AfterValidity(b, valid).drain) == [] ==> !valid || (b.drain.Recheck? && !b.owned)
  {
  }

  lemma CapabilityKeepsItem(b: Box, capability: Capability)
    requires b.drain.Capabilities?
    ensures var t := AfterCapability(b, capability);
            if InFlight(t.drain) != [] then InFlight(t.drain) == InFlight(b.drain)
            else capability.Unavailable? || t.queue == InFlight(b.drain) + b.queue
  {
  }

  lemma EarlySegmentsKeep(b: Box, e: Event)
    requires Enabled(b, e) && InFlight(b.drain) != [] && (e.PresenceDone? || e.ValidityDone? || e.CapabilityDone?)
    ensures InFlight(Apply(b, e).drain) != [] ==> InFlight(Apply(b, e).drain) == InFlight(b.drain)
    ensures InFlight(Apply(b, e).drain) == [] ==>
              Apply(b, e).queue == InFlight(b.drain) + b.queue || ChangeOf(b, e).Finished?
  {
    hide AfterValidity; hide AfterCapability; hide LoopHead;
    match e
    case ValidityDone(valid) => ValidityKeepsItem(b, valid);
    case CapabilityDone(capability) => CapabilityKeepsItem(b, capability);
    case PresenceDone =>
  }

  lemma AfterRunKeeps(b: Box, item: Item, outcome: Outcome)
    ensures InFlight(Refused(b, item).drain) == []
    ensures InFlight(AfterRun(b, item, outcome).drain) == if outcome.Completed? then [item] else []
  {
    hide Asks; hide Settlements;
  }

  lemma RunSegmentsKeep(b: Box, e: Event)
    requires Enabled(b, e) && InFlight(b.drain) != [] && (e.RunDone? || e.SaveDone?)
    ensures InFlight(Apply(b, e).drain) != [] ==> InFlight(Apply(b, e).drain) == InFlight(b.drain)
    ensures InFlight(Apply(b, e).drain) == [] ==> ChangeOf(b, e).Finished?
  {
    hide AfterRun; hide Refused;
    if e.RunDone? {
      AfterRunKeeps(b, b.drain.item, if e.result.Ran? then e.result.outcome else Failed);
    } else {
      AfterRunKeeps(b, b.drain.item, b.drain.outcome);
    }
  }

  /** A drained item stays in flight, is put back at the head of the queue, or is settled. */
  lemma DrainedItemIsKept(b: Box, e: Event)
    requires Enabled(b, e) && InFlight(b.drain) != []
    ensures InFlight(Apply(b, e).drain) != [] ==> InFlight(Apply(b, e).drain) == InFlight(b.drain)
    ensures InFlight(Apply(b, e).drain) == [] ==>
              Apply(b, e).queue == InFlight(b.drain) + b.queue || ChangeOf(b, e).Finished?
  {
    hide Apply;
    if !IsSegment(e) {
      CallsKeepFlight(b, e);
    } else {
      match e
      case PublishDone => PublishKeepsFlight(b);
      case PresenceDone | ValidityDone(_) | CapabilityDone(_) => EarlySegmentsKeep(b, e);
      case RunDone(_) | SaveDone(_) => RunSegmentsKeep(b, e);
    }
  }

  lemma PublishKeepsFlight(b: Box)
    requires Enabled(b, PublishDone)
    ensures InFlight(Apply(b, PublishDone).drain) == [] && ChangeOf(b, PublishDone).Finished?
  {
    hide Asks; hide Settlements; hide SettledIds;
    PublishKeepsNothing(b);
  }

  /** How far the drain is from its end when nobody interferes. */
  function Distance(b: Box): nat {
    match b.drain
    case Off => 0
    case LastPresence(Leave) => 1
    case Cleanup(Leave) => 2
    case MissPresence => 3
    case LastPresence(Again) => 10 * |b.queue| + 1
    case StalePresence => 10 * |b.queue| + 1
    case Cleanup(Again) => 10 * |b.queue| + 2
    case Publish(_, _) => 10 * |b.queue| + 3
    case Recheck(_, _) => 10 * |b.queue| + 4
    case Save(_, _) => 10 * |b.queue| + 5
    case Run(_) => 10 * |b.queue| + 6
    case Capabilities(_) => 10 * |b.queue| + 7
    case Validity(_) => 10 * |b.queue| + 8
    case Presence(_) => 10 * |b.queue| + 9
  }

  predicate IsSegment(e: Event) {
    e.PresenceDone? || e.ValidityDone? || e.CapabilityDone? || e.RunDone? || e.SaveDone? || e.PublishDone? || e.CleanupDone?
  }

  lemma LoopHeadEnds(b: Box)
    requires InFlight(b.drain) == []
    ensures Distance(LoopHead(b)) <= 10 * |b.queue|
  {
  }

  lemma LoopEnds(b: Box, e: Event)
    requires Enabled(b, e) && (e.PresenceDone? || e.CleanupDone?)
    ensures Distance(Apply(b, e)) < Distance(b)
  {
    if e.PresenceDone? && InFlight(b.drain) == [] { LoopHeadEnds(b); }
    if e.CleanupDone? {
      LoopHeadEnds(b.(controller := None, status := if b.status == Stopped then Stopped else Waiting(b)));
    }
  }

  lemma ValidityEnds(b: Box, valid: bool)
    requires Enabled(b, ValidityDone(valid))
    ensures Distance(AfterValidity(b, valid)) < Distance(b)
  {
  }

  lemma CapabilityEnds(b: Box, capability: Capability)
    requires b.drain.Capabilities?
    ensures Distance(AfterCapability(b, capability)) < Distance(b)
  {
  }

  lemma PublishEnds(b: Box)
    requires b.drain.Publish?
    ensures Distance(AfterPublish(b)) < Distance(b)
  {
  }

  lemma AfterRunEnds(b: Box, item: Item, outcome: Outcome)
    ensures Distance(AfterRun(b, item, outcome)) <= 10 * |b.queue| + 4
    ensures Distance(Refused(b, item)) == 10 * |b.queue| + 2
  {
    hide Asks; hide Settlements;
  }

  lemma RunEnds(b: Box, e: Event)
    requires Enabled(b, e) && (e.RunDone? || e.SaveDone?)
    ensures Distance(Apply(b, e)) < Distance(b)
  {
    hide AfterRun; hide Refused;
    if e.RunDone? {
      AfterRunEnds(b, b.drain.item, if e.result.Ran? then e.result.outcome else Failed);
    } else {
      AfterRunEnds(b, b.drain.item, b.drain.outcome);
    }
  }

  /** Every segment brings the drain nearer to its end, so a drain left alone always finishes. */
  lemma DrainEnds(b: Box, e: Event)
    requires Enabled(b, e) && IsSegment(e)
    ensures Distance(Apply(b, e)) < Distance(b)
  {
    hide Distance; hide AfterValidity; hide AfterCapability; hide AfterPublish;
    match e
    case PresenceDone | CleanupDone => LoopEnds(b, e);
    case ValidityDone(valid) => ValidityEnds(b, valid);
    case CapabilityDone(capability) => CapabilityEnds(b, capability);
    case PublishDone => PublishEnds(b);
    case RunDone(_) | SaveDone(_) => RunEnds(b, e);
  }

  // ----- an item without a drain -----

  /** An item nobody will ever look at again unless another one arrives. */
  predicate Stranded(b: Box) { b.queue != [] && b.drain == Off && !b.missing && !b.closing }

  /** The drain leaves for missing capabilities although the mark was cleared while it was leaving. */
  predicate LeavesUnmarked(b: Box, e: Event) {
    && b.queue != [] && !b.missing && !b.closing
    && ((e.PresenceDone? && b.drain == LastPresence(Leave)) || (e.CleanupDone? && b.drain == Cleanup(Leave) && !b.owned))
  }

  lemma LoopHeadStrandsNothing(b: Box)
    requires Sane(b)
    ensures !Stranded(LoopHead(b))
  {
  }

  lemma CallsStrandNothing(b: Box, e: Event)
    requires Sane(b) && Enabled(b, e) && !Stranded(b) && !IsSegment(e)
    ensures !Stranded(Apply(b, e))
  {
  }

  /** Items are stranded in exactly one way. */
  lemma StrandsExactly(b: Box, e: Event)
    requires Sane(b) && Enabled(b, e) && !Stranded(b)
    ensures Stranded(Apply(b, e)) <==> LeavesUnmarked(b, e)
  {
    if IsSegment(e) {
      if e.PresenceDone? { LoopHeadStrandsNothing(b); }
      if e.CleanupDone? {
        LoopHeadStrandsNothing(b.(controller := None, status := if b.status == Stopped then Stopped else Waiting(b)));
      }
    } else {
      CallsStrandNothing(b, e);
    }
  }

  /** Some drain of the run leaves for missing capabilities without a mark. */
  predicate EverUnmarked(b: Box, es: seq<Event>)
    requires Runs(b, es)
    decreases es
  {
    es != [] && (LeavesUnmarked(b, es[0]) || EverUnmarked(Apply(b, es[0]), es[1..]))
  }

  /** In every other run no item is ever stranded. */
  lemma {:induction false} NothingStranded(b: Box, es: seq<Event>)
    requires Sane(b) && !Stranded(b) && Runs(b, es) && !EverUnmarked(b, es)
    ensures !Stranded(Final(b, es))
    decreases es
  {
    hide Sane; hide Stranded; hide LeavesUnmarked; hide Apply;
    if es != [] {
      StrandsExactly(b, es[0]);
      StepKeepsSane(b, es[0]);
      NothingStranded(Apply(b, es[0]), es[1..]);
    }
  }

  /** The last segments of a drain that leaves. */
  function Leaving(): seq<Event> { [PresenceDone] + ([CleanupDone] + ([PresenceDone] + [])) }

  lemma Prepend(b: Box, e: Event, es: seq<Event>)
    requires Enabled(b, e) && Runs(Apply(b, e), es)
    ensures Runs(b, [e] + es) && Final(b, [e] + es) == Final(Apply(b, e), es)
  {
    hide Apply; hide Enabled;
    assert ([e] + es)[1..] == es;
  }

  lemma LeavesAsItIs(b: Box)
    requires b.drain == MissPresence && b.owned
    ensures Runs(b, Leaving())
    ensures var t := Final(b, Leaving());
            t.drain == Off && t.queue == b.queue && t.missing == b.missing && t.closing == b.closing
  {
    var b1 := Apply(b, PresenceDone);
    var b2 := Apply(b1, CleanupDone);
    var b3 := Apply(b2, PresenceDone);
    Prepend(b2, PresenceDone, []);
    Prepend(b1, CleanupDone, [PresenceDone] + []);
    Prepend(b, PresenceDone, [CleanupDone] + ([PresenceDone] + []));
  }

  lemma AbortedWhileLeaving(b: Box)
    requires b.drain == MissPresence && b.status == Queued && |b.queue| == 1 && Enabled(b, AbortAsk(b.queue[0].id))
    ensures var t := Apply(b, AbortAsk(b.queue[0].id));
            t == b.(queue := [], status := Idle, missing := false, settled := t.settled)
  {
    assert Position(b.queue, b.queue[0].id) == Some(0);
  }

  /** It happens: the put-back ask is aborted while its drain is leaving, and another ask arrives. */
  lemma MissRaceStrands(b: Box, payload: nat)
    requires b.drain == MissPresence && b.status == Queued && b.owned && !b.closing && b.limit > 0
    requires |b.queue| == 1 && Enabled(b, AbortAsk(b.queue[0].id))
    ensures var es := [AbortAsk(b.queue[0].id)] + ([Ask(false, payload)] + Leaving());
            Runs(b, es) && Stranded(Final(b, es))
  {
    var b1 := Apply(b, AbortAsk(b.queue[0].id));
    AbortedWhileLeaving(b);
    var b2 := Apply(b1, Ask(false, payload));
    assert b2.queue == [Item(b.next, true, None, payload)] && b2.drain == MissPresence && b2.owned && !b2.missing && !b2.closing;
    LeavesAsItIs(b2);
    Prepend(b1, Ask(false, payload), Leaving());
    Prepend(b, AbortAsk(b.queue[0].id), [Ask(false, payload)] + Leaving());
  }

  lemma FirstAskDrains(b: Box, payload: nat)
    requires Opens(b) && b.owned && b.status != Stopped && !b.closing && b.limit > 0
    ensures Apply(b, Ask(false, payload)) ==
            b.(status := Running, controller := Some(false), drain := Presence(Item(b.next, true, None, payload)),
               next := b.next + 1, issued := [b.next])
  {
    var item := Item(b.next, true, None, payload);
    assert b.queue + [item] == [item] && [item][1..] == b.queue && b.issued + [b.next] == [b.next];
  }

  lemma MissPutsBack(b: Box, item: Item)
    requires b.drain == Presence(item) && b.requirements && b.queue == []
    ensures var es := [PresenceDone] + ([ValidityDone(true)] + ([CapabilityDone(Missing)] + []));
            Runs(b, es) && Final(b, es) == b.(missing := true, queue := [item], status := Queued, drain := MissPresence)
  {
    var b1 := Apply(b, PresenceDone);
    var b2 := Apply(b1, ValidityDone(true));
    assert [item] + b.queue == [item];
    Prepend(b2, CapabilityDone(Missing), []);
    Prepend(b1, ValidityDone(true), [CapabilityDone(Missing)] + []);
    Prepend(b, PresenceDone, [ValidityDone(true)] + ([CapabilityDone(Missing)] + []));
  }

  lemma {:induction false} RunOn(b: Box, es: seq<Event>, fs: seq<Event>)
    requires Runs(b, es) && Runs(Final(b, es), fs)
    ensures Runs(b, es + fs) && Final(b, es + fs) == Final(Final(b, es), fs)
    decreases es
  {
    hide Apply; hide Enabled;
    if es == [] {
      assert es + fs == fs;
    } else {
      assert (es + fs)[1..] == es[1..] + fs;
      RunOn(Apply(b, es[0]), es[1..], fs);
    }
  }

  /** The opening of a run in which capabilities are missing, and then the race. */
  function MissRace(id: Id, first: nat, second: nat): seq<Event> {
    [Ask(false, first)] + (([PresenceDone] + ([ValidityDone(true)] + ([CapabilityDone(Missing)] + [])))
      + ([AbortAsk(id)] + ([Ask(false, second)] + Leaving())))
  }

  /** An actor that has just been created, owned and with requirements, gets there in nine steps. */
  lemma MissRaceHappens(b: Box, first: nat, second: nat)
    requires Opens(b) && b.owned && b.requirements && b.status != Stopped && !b.closing && b.limit > 0
    ensures Runs(b, MissRace(b.next, first, second)) && Stranded(Final(b, MissRace(b.next, first, second)))
  {
    hide Apply; hide Stranded;
    var item := Item(b.next, true, None, first);
    var b1 := Apply(b, Ask(false, first));
    FirstAskDrains(b, first);
    MissPutsBack(b1, item);
    var miss := [PresenceDone] + ([ValidityDone(true)] + ([CapabilityDone(Missing)] + []));
    var b4 := Final(b1, miss);
    assert b4.issued[0] == b.next && SettledIds(b4.settled) == [];
    MissRaceStrands(b4, second);
    RunOn(b1, miss, [AbortAsk(b.next)] + ([Ask(false, second)] + Leaving()));
    Prepend(b, Ask(false, first), miss + ([AbortAsk(b.next)] + ([Ask(false, second)] + Leaving())));
  }

  // ----- interrupting -----

  /** An activation has an abort controller from its first await to its cleanup, and nothing else has. */
  predicate Bound(b: Box) {
    b.controller.Some? <==> InFlight(b.drain) != [] || b.drain.MissPresence? || b.drain.Cleanup?
  }

  /** The calls that interrupt the activation at hand: stopping an actor that is not stopped, halting or closing
      an owned one, moving it away, and cancelling the ask it works on. */
  predicate Interrupts(b: Box, e: Event) {
    match e
    case Stop => b.status != Stopped
    case Halt => b.owned && b.status != Stopped
    case Dispossess => true
    case Close => b.owned
    case AbortAsk(id) => forall i :: 0 <= i < |b.queue| ==> b.queue[i].id != id
    case _ => false
  }

  /** The two ways an activation ends. */
  predicate EndsActivation(b: Box, e: Event) { e.CleanupDone? || (e == ValidityDone(false) && b.drain.Validity?) }

  /** A call leaves the activation as it is, or aborts it exactly when it interrupts. */
  predicate Keeps(b: Box, t: Box, interrupts: bool) {
    t.drain == b.drain && (if b.controller.Some? then t.controller == Some(b.controller.value || interrupts) else t.controller.None?)
  }

  lemma EnsureDrainBinds(b: Box)
    requires Bound(b)
    ensures Bound(EnsureDrain(b)) && (b.drain != Off ==> EnsureDrain(b) == b)
  {
  }

  lemma AskBinds(b: Box, cancelled: bool, payload: nat)
    requires Bound(b)
    ensures Bound(AfterAsk(b, cancelled, payload)) && (b.controller.Some? ==> AfterAsk(b, cancelled, payload).controller == b.controller)
  {
    hide Asks; hide Settlements; hide EnsureDrain;
    EnsureDrainBinds(b.(issued := b.issued + [b.next], queue := b.queue + [Item(b.next, true, None, payload)], status := Queued,
                        next := b.next + 1));
  }

  lemma PostBinds(b: Box, key: Option<nat>, payload: nat)
    requires Bound(b)
    ensures Bound(AfterPost(b, key, payload)) && (b.controller.Some? ==> AfterPost(b, key, payload).controller == b.controller)
  {
    hide EnsureDrain; hide KeyPosition;
    var position := if key.Some? then KeyPosition(b.queue, key.value) else None;
    if position.Some? {
      EnsureDrainBinds(b.(queue := b.queue[position.value := b.queue[position.value].(payload := payload)]));
    } else {
      EnsureDrainBinds(b.(queue := b.queue + [Item(b.next, false, key, payload)], status := Queued, next := b.next + 1));
    }
  }

  lemma AbortBinds(b: Box, id: Id)
    requires Enabled(b, AbortAsk(id))
    ensures Keeps(b, AfterAbortAsk(b, id), Interrupts(b, AbortAsk(id)))
  {
    hide Asks; hide Settlements; hide SettledIds;
  }

  lemma ControlBinds(b: Box, e: Event)
    requires Enabled(b, e) && (e.Stop? || e.Halt? || e.Dispossess? || e.Reclaim? || e.Close?)
    ensures Keeps(b, Apply(b, e), Interrupts(b, e))
  {
    hide Asks; hide Settlements;
  }

  lemma CallsInterrupt(b: Box, e: Event)
    requires Bound(b) && Enabled(b, e) && !IsSegment(e)
    ensures Bound(Apply(b, e))
    ensures b.controller.Some? ==> Apply(b, e).controller == Some(b.controller.value || Interrupts(b, e))
  {
    hide AfterAsk; hide AfterPost; hide AfterAbortAsk; hide EnsureDrain; hide AfterHalt; hide EmptyQueue; hide SettledIds;
    match e
    case Ask(cancelled, payload) => AskBinds(b, cancelled, payload);
    case Post(key, payload) => PostBinds(b, key, payload);
    case AbortAsk(id) => AbortBinds(b, id);
    case Stop | Halt | Dispossess | Reclaim | Close => ControlBinds(b, e);
    case RetryCapabilities => EnsureDrainBinds(b);
  }

  lemma LoopBinds(b: Box, e: Event)
    requires Bound(b) && Enabled(b, e) && (e.PresenceDone? || e.CleanupDone?)
    ensures Bound(Apply(b, e))
    ensures b.controller.Some? && e.PresenceDone? ==> Apply(b, e).controller == b.controller
    ensures e.CleanupDone? ==> Apply(b, e).controller != Some(true)
  {
  }

  lemma ChecksBind(b: Box, e: Event)
    requires Bound(b) && Enabled(b, e) && (e.ValidityDone? || e.CapabilityDone?)
    ensures Bound(Apply(b, e)) && Apply(b, e).controller == if EndsActivation(b, e) then None else b.controller
  {
    hide Asks; hide Settlements;
  }

  lemma RunBinds(b: Box, e: Event)
    requires Bound(b) && Enabled(b, e) && (e.RunDone? || e.SaveDone? || e.PublishDone?)
    ensures Bound(Apply(b, e)) && Apply(b, e).controller == b.controller
  {
    hide Asks; hide Settlements;
  }

  lemma SegmentsKeepAbort(b: Box, e: Event)
    requires Bound(b) && Enabled(b, e) && IsSegment(e)
    ensures Bound(Apply(b, e))
    ensures b.controller.Some? && !EndsActivation(b, e) ==> Apply(b, e).controller == b.controller
    ensures EndsActivation(b, e) ==> Apply(b, e).controller != Some(true)
  {
    hide Bound; hide Enabled; hide Apply;
    if e.PresenceDone? || e.CleanupDone? {
      LoopBinds(b, e);
    } else if e.ValidityDone? || e.CapabilityDone? {
      ChecksBind(b, e);
    } else {
      RunBinds(b, e);
    }
  }

  lemma {:induction false} RunKeepsBound(b: Box, es: seq<Event>)
    requires Bound(b) && Runs(b, es)
    ensures Bound(Final(b, es))
    decreases es
  {
    hide Bound; hide Apply; hide Enabled; hide EndsActivation; hide Interrupts;
    if es != [] {
      if IsSegment(es[0]) { SegmentsKeepAbort(b, es[0]); } else { CallsInterrupt(b, es[0]); }
      RunKeepsBound(Apply(b, es[0]), es[1..]);
    }
  }

  predicate EverEnds(b: Box, es: seq<Event>)
    requires Runs(b, es)
    decreases es
  {
    es != [] && (EndsActivation(b, es[0]) || EverEnds(Apply(b, es[0]), es[1..]))
  }

  predicate EverInterrupts(b: Box, es: seq<Event>)
    requires Runs(b, es)
    decreases es
  {
    es != [] && (Interrupts(b, es[0]) || EverInterrupts(Apply(b, es[0]), es[1..]))
  }

  /** Until an activation ends it is aborted exactly when it was before or something has interrupted it since. */
  lemma {:induction false} AbortedExactly(b: Box, es: seq<Event>)
    requires Bound(b) && b.controller.Some? && Runs(b, es) && !EverEnds(b, es)
    ensures Final(b, es).controller == Some(b.controller.value || EverInterrupts(b, es))
    decreases es
  {
    hide Bound; hide Apply; hide Enabled; hide EndsActivation; hide Interrupts;
    if es != [] {
      if IsSegment(es[0]) { SegmentsKeepAbort(b, es[0]); } else { CallsInterrupt(b, es[0]); }
      assert IsSegment(es[0]) ==> !Interrupts(b, es[0]) by { SegmentsInterruptNothing(b, es[0]); }
      AbortedExactly(Apply(b, es[0]), es[1..]);
    }
  }

  lemma SegmentsInterruptNothing(b: Box, e: Event)
    ensures IsSegment(e) ==> !Interrupts(b, e)
  {
  }

  /** In every run, when something is in flight and the actor is stopped, halted, moved away or closed, that
      activation is aborted and stays so until it ends. */
  lemma InterruptAborts(b: Box, es: seq<Event>, e: Event, fs: seq<Event>)
    requires Opens(b) && Runs(b, es) && InFlight(Final(b, es).drain) != []
    requires var t := Final(b, es); Enabled(t, e) && (e.Stop? || e.Halt? || e.Dispossess? || e.Close?) && Interrupts(t, e)
    requires var u := Apply(Final(b, es), e); Runs(u, fs) && !EverEnds(u, fs)
    ensures Final(Apply(Final(b, es), e), fs).controller == Some(true)
  {
    hide Apply; hide Enabled; hide EndsActivation;
    RunKeepsBound(b, es);
    CallsInterrupt(Final(b, es), e);
    AbortedExactly(Apply(Final(b, es), e), fs);
  }

  // ----- what is started, and what is delivered -----

  predicate Starts(b: Box, e: Event)
    requires Enabled(b, e)
  {
    Apply(b, e).drain.Presence? && !b.drain.Presence?
  }

  /** How an activation begins. */
  predicate Begun(b: Box) { b.status == Running && b.controller == Some(false) }

  lemma LoopHeadStarts(b: Box)
    requires LoopHead(b).drain.Presence?
    ensures b.status != Stopped && !b.closing && b.owned && b.queue != [] && LoopHead(b).drain.item == b.queue[0]
    ensures Begun(LoopHead(b))
  {
  }

  lemma SegmentsStart(b: Box, e: Event)
    requires Enabled(b, e) && IsSegment(e) && Starts(b, e)
    ensures b.status != Stopped && !b.closing && b.owned && b.queue != [] && Apply(b, e).drain == Presence(b.queue[0])
    ensures Begun(Apply(b, e))
  {
    hide LoopHead; hide Asks; hide Settlements;
    if e.PresenceDone? { LoopHeadStarts(b); }
    if e.CleanupDone? {
      LoopHeadStarts(b.(controller := None, status := if b.status == Stopped then Stopped else Waiting(b)));
    }
  }

  lemma EnsureDrainStarts(b: Box)
    ensures var t := EnsureDrain(b);
            && t.requirements == b.requirements
            && (t.drain == b.drain
                || (b.drain == Off && t.drain.Presence? && b.status != Stopped && !b.closing && b.owned && Begun(t)))
  {
  }

  lemma AskDrain(b: Box, cancelled: bool, payload: nat)
    ensures CallDrain(b, AfterAsk(b, cancelled, payload))
  {
    hide EnsureDrain; hide Asks; hide Settlements;
    EnsureDrainStarts(b.(issued := b.issued + [b.next], queue := b.queue + [Item(b.next, true, None, payload)], status := Queued,
                         next := b.next + 1));
  }

  lemma PostDrain(b: Box, key: Option<nat>, payload: nat)
    ensures CallDrain(b, AfterPost(b, key, payload))
  {
    hide EnsureDrain; hide KeyPosition;
    var position := if key.Some? then KeyPosition(b.queue, key.value) else None;
    if position.Some? {
      EnsureDrainStarts(b.(queue := b.queue[position.value := b.queue[position.value].(payload := payload)]));
    }
    EnsureDrainStarts(b.(queue := b.queue + [Item(b.next, false, key, payload)], status := Queued, next := b.next + 1));
  }

  /** A call leaves the drain alone or, if there is none, starts one. */
  predicate CallDrain(b: Box, t: Box) {
    && t.requirements == b.requirements
    && (t.drain == b.drain
        || (b.drain == Off && t.drain.Presence? && b.status != Stopped && !b.closing && b.owned && Begun(t)))
  }

  lemma CallsStart(b: Box, e: Event)
    requires Enabled(b, e) && !IsSegment(e)
    ensures CallDrain(b, Apply(b, e))
  {
    hide AfterAsk; hide AfterPost; hide EnsureDrain; hide EmptyQueue; hide Settle; hide Position; hide SettledIds;
    match e
    case Ask(cancelled, payload) => AskDrain(b, cancelled, payload);
    case Post(key, payload) => PostDrain(b, key, payload);
    case RetryCapabilities => EnsureDrainStarts(b);
    case AbortAsk(_) | Stop | Halt | Dispossess | Reclaim | Close => ControlDrain(b, e);
  }

  lemma ControlDrain(b: Box, e: Event)
    requires Enabled(b, e) && (e.AbortAsk? || e.Stop? || e.Halt? || e.Dispossess? || e.Reclaim? || e.Close?)
    ensures Apply(b, e).drain == b.drain && Apply(b, e).requirements == b.requirements
  {
    hide Asks; hide Settlements; hide SettledIds; hide Position;
    if e.AbortAsk? { AbortDrain(b, e.id); }
    hide AfterAbortAsk;
  }

  lemma AbortDrain(b: Box, id: Id)
    ensures AfterAbortAsk(b, id).drain == b.drain && AfterAbortAsk(b, id).requirements == b.requirements
  {
    hide Asks; hide Settlements; hide Position;
  }

  /** An activation is started only by a host that owns the actor and is not closing, for an actor that is not
      stopped, and for the oldest item of the line; the actor is then running and nothing has aborted it. */
  lemma StartsOnlyIfAllowed(b: Box, e: Event)
    requires Enabled(b, e) && Starts(b, e)
    ensures b.status != Stopped && !b.closing && b.owned && InFlight(b.drain) == []
    ensures var line := LedgerOf(Apply(b, e)).line; line != [] && Apply(b, e).drain == Presence(line[0])
    ensures Begun(Apply(b, e))
  {
    if IsSegment(e) { SegmentsStart(b, e); } else { CallsStart(b, e); }
  }

  /** The awaits that ended since the activation at hand began. */
  function Trail(b: Box, es: seq<Event>, before: seq<Event>): seq<Event>
    requires Runs(b, es)
    decreases es
  {
    if es == [] then before
    else Trail(Apply(b, es[0]), es[1..],
               if Starts(b, es[0]) then [] else if IsSegment(es[0]) then before + [es[0]] else before)
  }

  /** The checks that must have passed before a run, and those between a run and its delivery. */
  function Admission(requirements: bool): seq<Event> {
    [PresenceDone, ValidityDone(true)] + (if requirements then [CapabilityDone(Satisfied)] else [])
  }

  function Acceptance(stops: bool, save: bool): seq<Event> {
    [RunDone(Ran(Completed(stops), save))] + (if save then [SaveDone(true)] else [])
  }

  ghost predicate Accepted(requirements: bool, stops: bool, trail: seq<Event>) {
    trail == Admission(requirements) + Acceptance(stops, true) || trail == Admission(requirements) + Acceptance(stops, false)
  }

  /** What has been passed at every await of an activation. */
  ghost predicate Passed(b: Box, trail: seq<Event>) {
    match b.drain
    case Presence(_) => trail == []
    case Validity(_) => trail == [PresenceDone]
    case Capabilities(_) => b.requirements && trail == [PresenceDone, ValidityDone(true)]
    case Run(_) => trail == Admission(b.requirements)
    case Save(_, outcome) => trail == Admission(b.requirements) + [RunDone(Ran(outcome, true))]
    case Recheck(_, stops) => Accepted(b.requirements, stops, trail)
    case Publish(_, stops) =>
      trail != [] && trail[|trail| - 1] == ValidityDone(true) && Accepted(b.requirements, stops, trail[..|trail| - 1])
    case Off | StalePresence | MissPresence | Cleanup(_) | LastPresence(_) => true
  }

  lemma LoopPasses(b: Box, e: Event, trail: seq<Event>)
    requires Enabled(b, e) && (e.PresenceDone? || e.CleanupDone?) && Passed(b, trail)
    ensures Passed(Apply(b, e), if Starts(b, e) then [] else trail + [e]) && Apply(b, e).requirements == b.requirements
  {
    hide Accepted; hide Admission;
  }

  lemma CheckPasses(b: Box, e: Event, trail: seq<Event>)
    requires Enabled(b, e) && (e.ValidityDone? || e.CapabilityDone?) && Passed(b, trail)
    ensures Passed(Apply(b, e), trail + [e]) && Apply(b, e).requirements == b.requirements && !Starts(b, e)
  {
    hide Asks; hide Settlements; hide Accepted;
    assert (trail + [e])[..|trail|] == trail;
  }

  lemma AfterRunPasses(b: Box, item: Item, outcome: Outcome, save: bool, trail: seq<Event>)
    requires outcome.Completed? ==> trail == Admission(b.requirements) + Acceptance(outcome.stops, save)
    ensures Passed(AfterRun(b, item, outcome), trail) && AfterRun(b, item, outcome).requirements == b.requirements
    ensures !AfterRun(b, item, outcome).drain.Presence?
  {
    hide Asks; hide Settlements; hide Admission; hide Acceptance;
  }

  lemma RunPasses(b: Box, result: RunResult, trail: seq<Event>)
    requires var e := RunDone(result); Enabled(b, e) && Passed(b, trail)
    ensures var e := RunDone(result);
            Passed(Apply(b, e), trail + [e]) && Apply(b, e).requirements == b.requirements && !Starts(b, e)
  {
    hide Asks; hide Settlements; hide Admission; hide AfterRun; hide Accepted;
    if result.Ran? && !result.save {
      if result.outcome.Completed? {
        assert trail + [RunDone(result)] == Admission(b.requirements) + Acceptance(result.outcome.stops, false);
      }
      AfterRunPasses(b, b.drain.item, result.outcome, false, trail + [RunDone(result)]);
    }
  }

  lemma SavePasses(b: Box, e: Event, trail: seq<Event>)
    requires Enabled(b, e) && (e.SaveDone? || e.PublishDone?) && Passed(b, trail)
    ensures Passed(Apply(b, e), trail + [e]) && Apply(b, e).requirements == b.requirements && !Starts(b, e)
  {
    hide Asks; hide Settlements; hide Admission; hide AfterRun; hide Accepted;
    if e == SaveDone(true) {
      if b.drain.outcome.Completed? {
        assert trail + [e] == Admission(b.requirements) + Acceptance(b.drain.outcome.stops, true);
      }
      AfterRunPasses(b, b.drain.item, b.drain.outcome, true, trail + [e]);
    }
  }

  lemma SegmentPasses(b: Box, e: Event, trail: seq<Event>)
    requires Enabled(b, e) && IsSegment(e) && Passed(b, trail)
    ensures Passed(Apply(b, e), if Starts(b, e) then [] else trail + [e]) && Apply(b, e).requirements == b.requirements
  {
    hide Passed; hide Apply; hide Starts; hide Enabled;
    match e
    case RunDone(result) => RunPasses(b, result, trail);
    case SaveDone(_) | PublishDone => SavePasses(b, e, trail);
    case ValidityDone(_) | CapabilityDone(_) => CheckPasses(b, e, trail);
    case PresenceDone | CleanupDone => LoopPasses(b, e, trail);
  }

  lemma CallPasses(b: Box, e: Event, trail: seq<Event>)
    requires Enabled(b, e) && !IsSegment(e) && Passed(b, trail)
    ensures Passed(Apply(b, e), if Starts(b, e) then [] else trail) && Apply(b, e).requirements == b.requirements
  {
    hide Apply; hide Enabled; hide Admission; hide Accepted;
    CallsStart(b, e);
  }

  lemma {:induction false} TrailIsPassed(b: Box, es: seq<Event>, before: seq<Event>)
    requires Runs(b, es) && Passed(b, before)
    ensures Passed(Final(b, es), Trail(b, es, before)) && Final(b, es).requirements == b.requirements
    decreases es
  {
    hide Passed; hide Apply; hide Enabled; hide Starts;
    if es != [] {
      if IsSegment(es[0]) { SegmentPasses(b, es[0], before); } else { CallPasses(b, es[0], before); }
      TrailIsPassed(Apply(b, es[0]), es[1..],
                    if Starts(b, es[0]) then [] else if IsSegment(es[0]) then before + [es[0]] else before);
    }
  }

  /** In every run, what is about to be delivered was still wanted when it began, had its capabilities if it
      requires any, ran to completion, had its session saved if it was to be, and was still wanted afterwards:
      exactly these awaits have ended since the activation began, in this order. */
  lemma DeliveredWasChecked(b: Box, es: seq<Event>)
    requires Opens(b) && Runs(b, es) && Final(b, es).drain.Publish?
    ensures exists save :: Trail(b, es, []) ==
              Admission(b.requirements) + Acceptance(Final(b, es).drain.stops, save) + [ValidityDone(true)]
  {
    hide Apply; hide Enabled; hide Starts; hide Admission; hide Acceptance;
    TrailIsPassed(b, es, []);
    var trail, stops := Trail(b, es, []), Final(b, es).drain.stops;
    assert trail == trail[..|trail| - 1] + [ValidityDone(true)];
    var save := trail[..|trail| - 1] == Admission(b.requirements) + Acceptance(stops, true);
    assert trail == Admission(b.requirements) + Acceptance(stops, save) + [ValidityDone(true)];
  }

  // ----- the status between activations -----

  /** Between activations the status says whether something waits. */
  predicate Truthful(b: Box) {
    b.drain == Off || b.drain.StalePresence? || b.drain.LastPresence? ==>
      b.status != Stopped && !b.closing ==> b.status == if b.queue == [] then Idle else Queued
  }

  lemma EnsureDrainTruthful(b: Box)
    requires Truthful(b)
    ensures Truthful(EnsureDrain(b))
  {
  }

  lemma AskTruthful(b: Box, cancelled: bool, payload: nat)
    requires Truthful(b)
    ensures Truthful(AfterAsk(b, cancelled, payload))
  {
    hide Asks; hide Settlements; hide EnsureDrain;
    EnsureDrainTruthful(b.(issued := b.issued + [b.next], queue := b.queue + [Item(b.next, true, None, payload)], status := Queued,
                           next := b.next + 1));
  }

  lemma PostTruthful(b: Box, key: Option<nat>, payload: nat)
    requires Truthful(b)
    ensures Truthful(AfterPost(b, key, payload))
  {
    hide EnsureDrain; hide KeyPosition;
    var position := if key.Some? then KeyPosition(b.queue, key.value) else None;
    if position.Some? {
      EnsureDrainTruthful(b.(queue := b.queue[position.value := b.queue[position.value].(payload := payload)]));
    }
    EnsureDrainTruthful(b.(queue := b.queue + [Item(b.next, false, key, payload)], status := Queued, next := b.next + 1));
  }

  lemma AbortTruthful(b: Box, id: Id)
    requires Truthful(b)
    ensures Truthful(AfterAbortAsk(b, id))
  {
    hide Asks; hide Settlements; hide Position;
  }

  lemma ControlTruthful(b: Box, e: Event)
    requires Truthful(b) && Bound(b) && Enabled(b, e) && (e.Stop? || e.Halt? || e.Dispossess? || e.Reclaim? || e.Close?)
    ensures Truthful(Apply(b, e))
  {
    hide Asks; hide Settlements;
  }

  lemma LoopTruthful(b: Box, e: Event)
    requires Truthful(b) && Enabled(b, e) && (e.PresenceDone? || e.CleanupDone?)
    ensures Truthful(Apply(b, e))
  {
  }

  lemma CheckTruthful(b: Box, e: Event)
    requires Enabled(b, e) && (e.ValidityDone? || e.CapabilityDone?)
    ensures Truthful(Apply(b, e))
  {
    hide Asks; hide Settlements;
  }

  lemma RunTruthful(b: Box, e: Event)
    requires Enabled(b, e) && (e.RunDone? || e.SaveDone? || e.PublishDone?)
    ensures Truthful(Apply(b, e))
  {
    hide Asks; hide Settlements;
  }

  lemma StepTruthful(b: Box, e: Event)
    requires Truthful(b) && Bound(b) && Sane(b) && Enabled(b, e)
    ensures Truthful(Apply(b, e))
  {
    hide Truthful; hide Bound; hide AfterAsk; hide AfterPost; hide AfterAbortAsk; hide EnsureDrain;
    match e
    case Ask(cancelled, payload) => AskTruthful(b, cancelled, payload);
    case Post(key, payload) => PostTruthful(b, key, payload);
    case AbortAsk(id) => AbortTruthful(b, id);
    case RetryCapabilities => EnsureDrainTruthful(b);
    case Stop | Halt | Dispossess | Reclaim | Close => ControlTruthful(b, e);
    case PresenceDone | CleanupDone => LoopTruthful(b, e);
    case ValidityDone(_) | CapabilityDone(_) => CheckTruthful(b, e);
    case RunDone(_) | SaveDone(_) | PublishDone => RunTruthful(b, e);
  }

  lemma {:induction false} RunStaysTruthful(b: Box, es: seq<Event>)
    requires Truthful(b) && Bound(b) && Sane(b) && Runs(b, es)
    ensures Truthful(Final(b, es))
    decreases es
  {
    hide Truthful; hide Bound; hide Sane; hide Apply; hide Enabled;
    if es != [] {
      StepTruthful(b, es[0]);
      StepKeepsSane(b, es[0]);
      if IsSegment(es[0]) { SegmentsKeepAbort(b, es[0]); } else { CallsInterrupt(b, es[0]); }
      RunStaysTruthful(Apply(b, es[0]), es[1..]);
    }
  }

  /** In every run an actor that is not stopped, while no activation is at work, is idle if nothing waits and
      queued if something does. */
  lemma StatusIsTruthful(b: Box, es: seq<Event>)
    requires Opens(b) && b.status == Idle && Runs(b, es)
    ensures var t := Final(b, es);
            t.controller.None? && t.status != Stopped && !t.closing ==> t.status == if t.queue == [] then Idle else Queued
  {
    hide Apply; hide Enabled;
    RunStaysTruthful(b, es);
    RunKeepsBound(b, es);
  }

  // ----- stopping -----

  lemma CallsKeepStopped(b: Box, e: Event)
    requires Sane(b) && Enabled(b, e) && b.status == Stopped && !IsSegment(e)
    ensures Apply(b, e).status == Stopped
  {
  }

  lemma RunsKeepStopped(b: Box, e: Event)
    requires Enabled(b, e) && b.status == Stopped && (e.RunDone? || e.SaveDone? || e.PublishDone?)
    ensures Apply(b, e).status == Stopped
  {
    hide Asks; hide Settlements;
  }

  lemma LoopKeepsStopped(b: Box, e: Event)
    requires Enabled(b, e) && b.status == Stopped && (e.PresenceDone? || e.CleanupDone?)
    ensures Apply(b, e).status == Stopped
  {
  }

  /** A stopped actor leaves that state exactly when the drain it interrupted was still being checked:
      its activation turns out stale, or its capabilities are missing. */
  lemma StopIsForgotten(b: Box, e: Event)
    requires Sane(b) && Enabled(b, e) && b.status == Stopped
    ensures Apply(b, e).status != Stopped <==>
              (e == ValidityDone(false) && b.drain.Validity?) || e == CapabilityDone(Missing)
  {
    if !IsSegment(e) {
      CallsKeepStopped(b, e);
    } else if e.PresenceDone? || e.CleanupDone? {
      LoopKeepsStopped(b, e);
    } else if e.RunDone? || e.SaveDone? || e.PublishDone? {
      RunsKeepStopped(b, e);
    }
  }

  function StopRun(payload: nat): seq<Event> {
    [Ask(false, payload)] + ([PresenceDone] + ([Stop] + ([ValidityDone(false)] + [])))
  }

  /** It happens: an actor that has just been created is asked, stopped while the activation is checked for
      staleness, and idle again. */
  lemma StopForgottenHappens(b: Box, payload: nat)
    requires Opens(b) && b.owned && b.status != Stopped && !b.closing && b.limit > 0
    ensures Runs(b, StopRun(payload)) && Final(b, StopRun(payload)).status == Idle
  {
    var b1 := Apply(b, Ask(false, payload));
    FirstAskDrains(b, payload);
    var b2 := Apply(b1, PresenceDone);
    var b3 := Apply(b2, Stop);
    assert b3.status == Stopped && b3.queue == [] && b3.drain.Validity?;
    Prepend(b3, ValidityDone(false), []);
    Prepend(b2, Stop, [ValidityDone(false)] + []);
    Prepend(b1, PresenceDone, [Stop] + ([ValidityDone(false)] + []));
    Prepend(b, Ask(false, payload), [PresenceDone] + ([Stop] + ([ValidityDone(false)] + [])));
  }

  /** The first presence of an activation cannot be published: the loop dies with its item. */
  function AfterFailedPresence(b: Box): Box
    requires b.drain.Presence?
  {
    b.(drain := Off)
  }

  /** Then the promise of an ask is never settled: conservation fails exactly for asks. */
  lemma FailedPresenceLosesAsk(b: Box)
    requires Inv(b) && b.drain.Presence?
    ensures Conserved(LedgerOf(AfterFailedPresence(b))) <==> !b.drain.item.ask
  {
    hide Asks; hide Sane; hide InOrder; hide SettledIds;
    var item := b.drain.item;
    AsksAppend([item], b.queue);
    FirstAsk(item);
    assert [] + b.queue == b.queue;
    OneLess(multiset(b.issued), Asks([item]), Asks(b.queue), multiset(SettledIds(b.settled)));
  }

  lemma OneLess(all: multiset<Id>, first: seq<Id>, rest: seq<Id>, settled: multiset<Id>)
    requires all == multiset(first + rest) + settled
    ensures all == multiset(rest) + settled <==> first == []
  {
    if first == [] {
      assert first + rest == rest;
    } else {
      assert |all| == |first + rest| + |settled|;
    }
  }

  lemma FirstAsk(item: Item)
    ensures Asks([item]) == if item.ask then [item.id] else []
  {
    assert [item][1..] == [];
  }

  lemma SettlesNothing(b: Box)
    ensures Settle(b, [], false) == b
  {
  }

  lemma SettlesOneMore(b: Box, items: seq<Item>, item: Item)
    ensures Settle(b, items + [item], false).settled == Settle(b, items, false).settled + Settlements(Asks([item]), false)
  {
    hide Asks; hide Settlements;
    AsksAppend(items, [item]);
    SettlementsAppend(Asks(items), Asks([item]), false);
  }

  /** It happens: the first ask of an actor that has just been created is lost for good, neither queued nor in
      flight nor settled. */
  lemma FailedPresenceHappens(b: Box, payload: nat)
    requires Opens(b) && b.owned && b.status != Stopped && !b.closing && b.limit > 0
    ensures var t := AfterAsk(b, false, payload);
            && t.drain.Presence?
            && var u := AfterFailedPresence(t);
               u.issued == [b.next] && !Conserved(LedgerOf(u)) && Asks(LedgerOf(u).line) == [] && u.settled == []
  {
    hide Sane; hide InOrder;
    OpensInv(b);
    FirstAskDrains(b, payload);
    StepKeepsInv(b, Ask(false, payload));
    FailedPresenceLosesAsk(AfterAsk(b, false, payload));
  }

  // ----- the actor's mutable record -----

  class ManagedActor {
    const requirements: bool
    const limit: nat
    var queue: seq<Item>
    var status: Status
    var draining: bool
    var drain: Drain
    var controller: Option<bool>
    var missing: bool
    var owned: bool
    var closing: bool
    var next: Id
    var issued: seq<Id>
    var settled: seq<Settlement>

    function Abs(): Box
      reads this
    {
      Box(queue, status, drain, controller, missing, owned, closing, requirements, limit, next, issued, settled)
    }

    /** The flag that admits one drain only says whether a drain is suspended somewhere. */
    predicate Valid()
      reads this
    {
      draining <==> drain != Off
    }

    constructor (requirements: bool, limit: nat)
      ensures Valid() && Opens(Abs()) && Abs().requirements == requirements && Abs().limit == limit && owned
    {
      this.requirements, this.limit := requirements, limit;
      queue, status, draining, drain := [], Idle, false, Off;
      controller, missing, owned, closing := None, false, true, false;
      next, issued, settled := 0, [], [];
    }

    method SettleItem(item: Item, resolved: bool)
      modifies `settled
      ensures Abs() == Settle(old(Abs()), [item], resolved)
    {
      assert Asks([item]) == (if item.ask then [item.id] else []) + Asks([item][1..]);
      if item.ask {
        assert Settlements([item.id], resolved) == [Settlement(item.id, resolved)] + Settlements([item.id][1..], resolved);
        settled := settled + [Settlement(item.id, resolved)];
      } else {
        assert settled + Settlements([], resolved) == settled;
      }
    }

    /** Empties the queue and rejects what was in it, oldest first. */
    method RejectQueue()
      modifies `queue, `settled
      ensures Abs() == EmptyQueue(old(Abs()))
    {
      hide Asks; hide Settlements;
      SettlesNothing(Abs());
      var items := queue;
      queue := [];
      var i := 0;
      assert items[..0] == [];
      while i < |items|
        invariant 0 <= i <= |items| && queue == []
        invariant Abs() == Settle(old(Abs()), items[..i], false).(queue := [])
      {
        SettleItem(items[i], false);
        assert items[..i + 1] == items[..i] + [items[i]];
        SettlesOneMore(old(Abs()), items[..i], items[i]);
        i := i + 1;
      }
      assert items[..i] == items;
    }

    /** The loop head: takes the next item, or ends the drain. */
    method Proceed()
      modifies this
      ensures Valid() && Abs() == LoopHead(old(Abs()))
    {
      if queue != [] && status != Stopped && !closing && owned {
        var item := queue[0];
        queue := queue[1..];
        status, controller := Running, Some(false);
        draining, drain := true, Presence(item);
      } else {
        draining, drain := false, Off;
      }
    }

    method StartDrain()
      requires Valid()
      modifies this
      ensures Valid() && Abs() == EnsureDrain(old(Abs()))
    {
      if draining || status == Stopped || closing || !owned { return; }
      Proceed();
    }

    method Enqueue(item: Item)
      requires Valid() && item.id == next
      modifies this
      ensures Valid() && Abs() == Pushed(old(Abs()), item)
    {
      queue, status, next := queue + [item], Queued, next + 1;
      StartDrain();
    }

    method Asked(cancelled: bool, payload: nat)
      requires Valid()
      modifies this
      ensures Valid() && Abs() == Apply(old(Abs()), Ask(cancelled, payload))
    {
      var item := Item(next, true, None, payload);
      issued := issued + [next];
      if !owned || status == Stopped || cancelled || |queue| >= limit {
        SettleItem(item, false);
        next := next + 1;
      } else {
        Enqueue(item);
      }
    }

    method Posted(key: Option<nat>, payload: nat)
      requires Valid()
      modifies this
      ensures Valid() && Abs() == Apply(old(Abs()), Post(key, payload))
    {
      if !owned || status == Stopped { return; }
      if key.Some? {
        var position := KeyPosition(queue, key.value);
        if position.Some? {
          queue := queue[position.value := queue[position.value].(payload := payload)];
          StartDrain();
          return;
        }
      }
      if |queue| >= limit { return; }
      Enqueue(Item(next, false, key, payload));
    }

    method OnAbort(id: Id)
      requires Valid() && Enabled(Abs(), AbortAsk(id))
      modifies this
      ensures Valid() && Abs() == Apply(old(Abs()), AbortAsk(id))
    {
      hide Asks; hide Settlements;
      var position := Position(queue, id);
      if position.Some? {
        var item := queue[position.value];
        queue := queue[..position.value] + queue[position.value + 1..];
        if queue == [] && status == Queued { status, missing := Idle, false; }
        SettleItem(item, false);
      } else {
        AbortRun();
      }
    }

    method AbortRun()
      modifies `controller
      ensures Abs() == Aborted(old(Abs()))
    {
      if controller.Some? { controller := Some(true); }
    }

    method StopActor()
      requires Valid() && owned
      modifies this
      ensures Valid() && Abs() == Apply(old(Abs()), Stop)
    {
      hide Asks; hide Settlements;
      if status == Stopped { return; }
      status := Stopped;
      AbortRun();
      RejectQueue();
    }

    method HaltActor()
      requires Valid()
      modifies this
      ensures Valid() && Abs() == Apply(old(Abs()), Halt)
    {
      hide Asks; hide Settlements;
      if !owned || status == Stopped { return; }
      var inFlight := controller.Some?;
      if !inFlight && queue == [] { return; }
      AbortRun();
      RejectQueue();
      if !inFlight { status := if queue != [] then Queued else Idle; }
    }

    /** Ceding the actor, and losing it to another host. */
    method LoseOwnership()
      requires Valid()
      modifies this
      ensures Valid() && Abs() == Apply(old(Abs()), Dispossess)
    {
      hide Asks; hide Settlements; hide InFlight;
      owned := false;
      AbortRun();
      RejectQueue();
      if status != Stopped { status := Idle; }
    }

    method ReclaimActor()
      requires Valid()
      modifies this
      ensures Valid() && Abs() == Apply(old(Abs()), Reclaim)
    {
      owned := true;
    }

    method CloseActor()
      requires Valid()
      modifies this
      ensures Valid() && Abs() == Apply(old(Abs()), Close)
    {
      closing := true;
      if owned {
        AbortRun();
        RejectQueue();
      }
    }

    method RetryWaiter()
      requires Valid()
      modifies this
      ensures Valid() && Abs() == Apply(old(Abs()), RetryCapabilities)
    {
      if missing && queue != [] { StartDrain(); }
    }

    method OnPresence()
      requires Valid() && Enabled(Abs(), PresenceDone)
      modifies this
      ensures Valid() && Abs() == Apply(old(Abs()), PresenceDone)
    {
      match drain
      case Presence(item) => drain := Validity(item);
      case MissPresence => drain := Cleanup(Leave);
      case LastPresence(Leave) => draining, drain := false, Off;
      case LastPresence(Again) => Proceed();
      case StalePresence => Proceed();
    }

    method OnValidity(valid: bool)
      requires Valid() && drain.Validity?
      modifies this
      ensures Valid() && Abs() == Apply(old(Abs()), ValidityDone(valid))
    {
      hide Asks; hide Settlements; hide InFlight;
      if !valid {
        SettleItem(drain.item, false);
        controller, status := None, if queue != [] then Queued else Idle;
        drain := StalePresence;
      } else if requirements {
        drain := Capabilities(drain.item);
      } else {
        drain := Run(drain.item);
      }
    }

    method OnRecheck(valid: bool)
      requires Valid() && drain.Recheck?
      modifies this
      ensures Valid() && Abs() == Apply(old(Abs()), ValidityDone(valid))
    {
      hide Asks; hide Settlements; hide InFlight;
      if !owned || !valid {
        SettleItem(drain.item, false);
        drain := Cleanup(Again);
      } else {
        drain := Publish(drain.item, drain.stops);
      }
    }

    method OnCapability(capability: Capability)
      requires Valid() && Enabled(Abs(), CapabilityDone(capability))
      modifies this
      ensures Valid() && Abs() == Apply(old(Abs()), CapabilityDone(capability))
    {
      hide Asks; hide Settlements;
      var item := drain.item;
      match capability
      case Unavailable =>
        SettleItem(item, false);
        drain := Cleanup(Again);
      case Missing =>
        missing, queue, status := true, [item] + queue, Queued;
        drain := MissPresence;
      case Satisfied =>
        missing, drain := false, Run(item);
    }

    method Accept(item: Item, outcome: Outcome)
      requires Valid() && draining
      modifies this
      ensures Valid() && Abs() == AfterRun(old(Abs()), item, outcome)
    {
      hide Asks; hide Settlements;
      match outcome
      case Completed(stops) => drain := Recheck(item, stops);
      case Silent =>
        SettleItem(item, true);
        drain := Cleanup(Again);
      case Failed =>
        SettleItem(item, false);
        drain := Cleanup(Again);
    }

    method OnRun(result: RunResult)
      requires Valid() && Enabled(Abs(), RunDone(result))
      modifies this
      ensures Valid() && Abs() == Apply(old(Abs()), RunDone(result))
    {
      hide Asks; hide Settlements;
      var item := drain.item;
      if result.Threw? || !owned {
        SettleItem(item, false);
        drain := Cleanup(Again);
      } else if result.save {
        drain := Save(item, result.outcome);
      } else {
        Accept(item, result.outcome);
      }
    }

    method OnSave(saved: bool)
      requires Valid() && Enabled(Abs(), SaveDone(saved))
      modifies this
      ensures Valid() && Abs() == Apply(old(Abs()), SaveDone(saved))
    {
      hide Asks; hide Settlements;
      var item := drain.item;
      if saved {
        Accept(item, drain.outcome);
      } else {
        SettleItem(item, false);
        drain := Cleanup(Again);
      }
    }

    method OnPublish()
      requires Valid() && Enabled(Abs(), PublishDone)
      modifies this
      ensures Valid() && Abs() == Apply(old(Abs()), PublishDone)
    {
      hide Asks; hide Settlements;
      var stops := drain.stops;
      SettleItem(drain.item, true);
      drain := Cleanup(Again);
      if stops {
        status := Stopped;
        RejectQueue();
      }
    }

    method OnCleanup()
      requires Valid() && Enabled(Abs(), CleanupDone)
      modifies this
      ensures Valid() && Abs() == Apply(old(Abs()), CleanupDone)
    {
      var next := drain.next;
      controller := None;
      if status != Stopped { status := if queue != [] then Queued else Idle; }
      if owned {
        drain := LastPresence(next);
      } else if next.Again? {
        Proceed();
      } else {
        draining, drain := false, Off;
      }
    }
  }
}
