/** Token and cost accounting, from the frames a Claude child prints to the shared budget ledger. */
module Usage {
  import opened Common

  datatype Usage = Usage(input: real, output: real, cacheRead: real, cacheWrite: real, cost: real) {
    function Plus(u: Usage): Usage {
      Usage(input + u.input, output + u.output, cacheRead + u.cacheRead, cacheWrite + u.cacheWrite, cost + u.cost)
    }

    function Minus(u: Usage): Usage {
      Usage(input - u.input, output - u.output, cacheRead - u.cacheRead, cacheWrite - u.cacheWrite, cost - u.cost)
    }

    function Tokens(): real { input + output + cacheRead + cacheWrite }

    predicate Covers(u: Usage) {
      input >= u.input && output >= u.output && cacheRead >= u.cacheRead && cacheWrite >= u.cacheWrite && cost >= u.cost
    }
  }

  const NONE := Usage(0.0, 0.0, 0.0, 0.0, 0.0)

  function Above(x: real): real { if x > 0.0 then x else 0.0 }

  function Sum(us: seq<Usage>): Usage {
    if us == [] then NONE else us[0].Plus(Sum(us[1..]))
  }

  lemma {:induction false} SumAppend(us: seq<Usage>, u: Usage)
    ensures Sum(us + [u]) == Sum(us).Plus(u)
  {
    if us == [] {
      assert [u][1..] == [];
    } else {
      assert (us + [u])[0] == us[0] && (us + [u])[1..] == us[1..] + [u];
      SumAppend(us[1..], u);
    }
  }

  // ----- the worker: frames become attributed deltas -----

  /** An assistant frame reports the tokens of one message, a result frame those of the whole turn, if it
      reports usage at all, and the cost of the turn. */
  datatype Frame = Assistant(tokens: Usage) | Result(reported: Option<Usage>, totalCost: real)

  /** `completed` covers the finished turns and `current` the running one; `emitted` is every delta the
      worker ever emitted. */
  datatype Meter = Meter(completed: Usage, current: Usage, record: Usage, lastEmitted: Usage, emitted: seq<Usage>)

  /** The frame's token counts; costs come only from result frames. */
  function Counted(tokens: Usage): Usage { tokens.(cost := 0.0) }

  function Synced(m: Meter): Meter { m.(record := m.completed.Plus(m.current).(cost := m.completed.cost)) }

  /** Nothing is emitted while the record is what it was at the last emission. */
  function Emitted(m: Meter, delta: Usage): Meter {
    if m.record == m.lastEmitted then m else m.(emitted := m.emitted + [delta], lastEmitted := m.record)
  }

  function AfterFrame(m: Meter, f: Frame): Meter {
    match f
    case Assistant(tokens) => Emitted(Synced(m.(current := m.current.Plus(Counted(tokens)))), Counted(tokens))
    case Result(reported, totalCost) =>
      var turn := if reported.Some? then Counted(reported.value) else m.current.(cost := 0.0);
      var delta := turn.Minus(m.current).(cost := Above(totalCost));
      Emitted(Synced(m.(completed := m.completed.Plus(turn.(cost := Above(totalCost))), current := NONE)), delta)
  }

  function AfterFrames(m: Meter, fs: seq<Frame>): Meter
    decreases fs
  {
    if fs == [] then m else AfterFrames(AfterFrame(m, fs[0]), fs[1..])
  }

  const START := Meter(NONE, NONE, NONE, NONE, [])

  predicate Exact(m: Meter) {
    && Sum(m.emitted) == m.record == m.lastEmitted
    && m.record == m.completed.Plus(m.current)
    && m.current.cost == 0.0
  }

  lemma FrameKeepsExact(m: Meter, f: Frame)
    requires Exact(m)
    ensures Exact(AfterFrame(m, f))
  {
    hide Sum;
    match f
    case Assistant(tokens) => SumAppend(m.emitted, Counted(tokens));
    case Result(reported, totalCost) =>
      var turn := if reported.Some? then Counted(reported.value) else m.current.(cost := 0.0);
      SumAppend(m.emitted, turn.Minus(m.current).(cost := Above(totalCost)));
  }

  lemma {:induction false} FramesKeepExact(m: Meter, fs: seq<Frame>)
    requires Exact(m)
    ensures Exact(AfterFrames(m, fs))
    decreases fs
  {
    if fs != [] {
      FrameKeepsExact(m, fs[0]);
      FramesKeepExact(AfterFrame(m, fs[0]), fs[1..]);
    }
  }

  /** After any frames, corrections included, the deltas emitted so far add up to the recorded usage. */
  lemma EmittedIsRecorded(fs: seq<Frame>)
    ensures Sum(AfterFrames(START, fs).emitted) == AfterFrames(START, fs).record
  {
    FramesKeepExact(START, fs);
  }

  /** Whether the turn at hand ends with a result that reports its tokens. */
  predicate Reports(rest: seq<Frame>) {
    rest != [] && (if rest[0].Result? then rest[0].reported.Some? else Reports(rest[1..]))
  }

  /** What one frame contributes to the recorded usage, given those that follow: the tokens of a message unless
      its turn reports them itself, the tokens a result reports, and the cost of a turn unless it is negative. */
  function Contribution(f: Frame, rest: seq<Frame>): Usage {
    match f
    case Assistant(tokens) => if Reports(rest) then NONE else Counted(tokens)
    case Result(reported, totalCost) => (if reported.Some? then reported.value else NONE).(cost := Above(totalCost))
  }

  function Contributions(fs: seq<Frame>): Usage {
    if fs == [] then NONE else Contribution(fs[0], fs[1..]).Plus(Contributions(fs[1..]))
  }

  lemma {:induction false} FramesContribute(m: Meter, fs: seq<Frame>)
    requires m.record == m.completed.Plus(m.current) && m.current.cost == 0.0
    ensures AfterFrames(m, fs).record
         == m.completed.Plus(if Reports(fs) then NONE else m.current).Plus(Contributions(fs))
    decreases fs
  {
    if fs != [] { FramesContribute(AfterFrame(m, fs[0]), fs[1..]); }
  }

  /** After any frames the recorded usage, cost included, is the sum of what the frames contribute. */
  lemma RecordedExactly(fs: seq<Frame>)
    ensures AfterFrames(START, fs).record == Contributions(fs)
  {
    FramesContribute(START, fs);
  }

  class UsageMeter {
    var completed: Usage
    var current: Usage
    var record: Usage
    var lastEmitted: Usage
    var emitted: seq<Usage>

    function Abs(): Meter
      reads this
    {
      Meter(completed, current, record, lastEmitted, emitted)
    }

    constructor ()
      ensures Abs() == START
    {
      completed, current, record, lastEmitted, emitted := NONE, NONE, NONE, NONE, [];
    }

    method Sync()
      modifies `record
      ensures Abs() == Synced(old(Abs()))
    {
      record := Usage(completed.input + current.input, completed.output + current.output,
                      completed.cacheRead + current.cacheRead, completed.cacheWrite + current.cacheWrite, completed.cost);
    }

    method Emit(delta: Usage)
      modifies `lastEmitted, `emitted
      ensures Abs() == Emitted(old(Abs()), delta)
    {
      if record == lastEmitted { return; }
      emitted := emitted + [delta];
      lastEmitted := record;
    }

    method OnAssistant(tokens: Usage)
      modifies this
      ensures Abs() == AfterFrame(old(Abs()), Assistant(tokens))
    {
      var delta := tokens.(cost := 0.0);
      current := current.Plus(delta);
      Sync();
      Emit(delta);
    }

    /** The result frame supersedes the assistant frames of its turn. */
    method OnResult(reported: Option<Usage>, totalCost: real)
      modifies this
      ensures Abs() == AfterFrame(old(Abs()), Result(reported, totalCost))
    {
      var cost := Above(totalCost);
      var delta := NONE.(cost := cost);
      if reported.Some? {
        delta := reported.value.Minus(current).(cost := cost);
        completed := completed.Plus(reported.value.(cost := cost));
      } else {
        completed := completed.Plus(current.(cost := cost));
      }
      current := NONE;
      Sync();
      Emit(delta);
    }
  }

  // ----- the manager: deltas and the settlement become ledger entries -----

  /** One row of the shared ledger. */
  datatype Entry = Entry(runner: nat, actor: Option<nat>, tokens: real, cost: real)

  datatype Spend = Spend(tokens: real, cost: real) {
    function Plus(s: Spend): Spend { Spend(tokens + s.tokens, cost + s.cost) }
  }

  const NOTHING := Spend(0.0, 0.0)

  function Spent(entries: seq<Entry>): Spend {
    if entries == [] then NOTHING else Spend(entries[0].tokens, entries[0].cost).Plus(Spent(entries[1..]))
  }

  lemma {:induction false} SpentAppend(entries: seq<Entry>, e: Entry)
    ensures Spent(entries + [e]) == Spent(entries).Plus(Spend(e.tokens, e.cost))
  {
    if entries == [] {
      assert [e][1..] == [];
    } else {
      assert (entries + [e])[0] == entries[0] && (entries + [e])[1..] == entries[1..] + [e];
      SpentAppend(entries[1..], e);
    }
  }

  datatype Run = Run(runner: nat, actor: Option<nat>, usageEmitted: Usage, settled: bool, ledger: seq<Entry>)

  /** A row is written unless it would carry neither tokens nor cost. */
  function Appended(r: Run, tokens: real, cost: real): Run {
    if tokens <= 0.0 && cost <= 0.0 then r else r.(ledger := r.ledger + [Entry(r.runner, r.actor, tokens, cost)])
  }

  function Drained(r: Run, delta: Usage): Run {
    Appended(r.(usageEmitted := r.usageEmitted.Plus(delta)), delta.Tokens(), delta.cost)
  }

  function DrainedAll(r: Run, deltas: seq<Usage>): Run
    decreases deltas
  {
    if deltas == [] then r else DrainedAll(Drained(r, deltas[0]), deltas[1..])
  }

  /** What the final usage has beyond what was drained. */
  function Residual(total: Usage, drained: Usage): Usage {
    Usage(Above(total.input - drained.input), Above(total.output - drained.output),
          Above(total.cacheRead - drained.cacheRead), Above(total.cacheWrite - drained.cacheWrite), Above(total.cost - drained.cost))
  }

  function Settled(r: Run, total: Usage): Run {
    if r.settled then r
    else
      var gap := Residual(total, r.usageEmitted);
      Appended(r.(settled := true), gap.Tokens(), gap.cost)
  }

  /** The deltas too small to be written. */
  function Skipped(deltas: seq<Usage>): Spend {
    if deltas == [] then NOTHING
    else
      var rest := Skipped(deltas[1..]);
      if deltas[0].Tokens() <= 0.0 && deltas[0].cost <= 0.0 then rest.Plus(Spend(deltas[0].Tokens(), deltas[0].cost)) else rest
  }

  lemma {:induction false} SkippedIsNegative(deltas: seq<Usage>)
    ensures Skipped(deltas).tokens <= 0.0 && Skipped(deltas).cost <= 0.0
  {
    if deltas != [] { SkippedIsNegative(deltas[1..]); }
  }

  lemma AppendedSpends(r: Run, tokens: real, cost: real)
    ensures var skipped := tokens <= 0.0 && cost <= 0.0;
            var spent := Spent(Appended(r, tokens, cost).ledger);
            && spent.tokens == Spent(r.ledger).tokens + (if skipped then 0.0 else tokens)
            && spent.cost == Spent(r.ledger).cost + (if skipped then 0.0 else cost)
  {
    hide Spent;
    if tokens <= 0.0 && cost <= 0.0 {
    } else {
      SpentAppend(r.ledger, Entry(r.runner, r.actor, tokens, cost));
    }
  }

  lemma PlusAddsUp(a: Usage, b: Usage, c: Usage)
    ensures a.Plus(b).Plus(c) == a.Plus(b.Plus(c)) && b.Plus(c).Tokens() == b.Tokens() + c.Tokens()
    ensures a.Plus(NONE) == a && NONE.Plus(a) == a && NONE.Tokens() == 0.0
  {
  }

  lemma SkippedUnfolds(deltas: seq<Usage>)
    requires deltas != []
    ensures var skipped := deltas[0].Tokens() <= 0.0 && deltas[0].cost <= 0.0;
            && Skipped(deltas).tokens == Skipped(deltas[1..]).tokens + (if skipped then deltas[0].Tokens() else 0.0)
            && Skipped(deltas).cost == Skipped(deltas[1..]).cost + (if skipped then deltas[0].cost else 0.0)
  {
    hide Usage.Tokens;
  }

  lemma {:induction false} DrainedSpends(r: Run, deltas: seq<Usage>)
    ensures var t := DrainedAll(r, deltas);
            && t.usageEmitted == r.usageEmitted.Plus(Sum(deltas)) && t.settled == r.settled
            && t.runner == r.runner && t.actor == r.actor
            && Spent(t.ledger).tokens == Spent(r.ledger).tokens + Sum(deltas).Tokens() - Skipped(deltas).tokens
            && Spent(t.ledger).cost == Spent(r.ledger).cost + Sum(deltas).cost - Skipped(deltas).cost
    decreases deltas
  {
    hide Spent; hide Usage.Tokens; hide Skipped;
    if deltas == [] {
      PlusAddsUp(r.usageEmitted, NONE, NONE);
      assert Skipped([]) == NOTHING by { NothingSkipped(); }
    } else {
      var d, rest := deltas[0], deltas[1..];
      AppendedSpends(r.(usageEmitted := r.usageEmitted.Plus(d)), d.Tokens(), d.cost);
      DrainedSpends(Drained(r, d), rest);
      SkippedUnfolds(deltas);
      PlusAddsUp(r.usageEmitted, d, Sum(rest));
    }
  }

  lemma NothingSkipped()
    ensures Skipped([]) == NOTHING && Spent([]) == NOTHING
  {
  }

  /** Filling the gap makes up for everything but what was drained beyond the final usage. */
  lemma GapFills(total: Usage, drained: Usage)
    ensures drained.Tokens() + Residual(total, drained).Tokens() == total.Tokens() + Residual(drained, total).Tokens()
    ensures drained.cost + Residual(total, drained).cost == total.cost + Residual(drained, total).cost
    ensures Residual(total, drained).Tokens() >= 0.0 && Residual(total, drained).cost >= 0.0
    ensures Residual(drained, total).Tokens() >= 0.0 && Residual(drained, total).cost >= 0.0
    ensures Residual(drained, total).Tokens() == 0.0 && Residual(drained, total).cost == 0.0 <==> total.Covers(drained)
  {
    GapOf(total.input, drained.input);
    GapOf(total.output, drained.output);
    GapOf(total.cacheRead, drained.cacheRead);
    GapOf(total.cacheWrite, drained.cacheWrite);
    GapOf(total.cost, drained.cost);
    hide Above;
  }

  lemma GapOf(total: real, drained: real)
    ensures drained + Above(total - drained) == total + Above(drained - total)
    ensures Above(total - drained) >= 0.0 && Above(drained - total) >= 0.0
    ensures Above(drained - total) == 0.0 <==> total >= drained
  {
  }

  /** The ledger's total for a settled run, whatever was drained: the final usage, plus what was drained
      beyond it in any single component, plus the negative deltas that were never written. */
  lemma LedgerIsExactly(r: Run, deltas: seq<Usage>, total: Usage)
    requires r.usageEmitted == NONE && !r.settled && r.ledger == []
    ensures var spent := Spent(Settled(DrainedAll(r, deltas), total).ledger);
            var over := Residual(Sum(deltas), total);
            && spent.tokens == total.Tokens() + over.Tokens() - Skipped(deltas).tokens
            && spent.cost == total.cost + over.cost - Skipped(deltas).cost
  {
    hide Spent; hide Usage.Tokens; hide Skipped; hide Residual; hide Sum; hide DrainedAll;
    var t := DrainedAll(r, deltas);
    DrainedSpends(r, deltas);
    PlusAddsUp(Sum(deltas), NONE, NONE);
    NothingSkipped();
    var gap := Residual(total, t.usageEmitted);
    GapFills(total, Sum(deltas));
    AppendedSpends(t.(settled := true), gap.Tokens(), gap.cost);
  }

  /** A ledger never undercounts a settled run, and is exact if and only if no component was drained
      beyond its final value and no negative delta was left out. */
  lemma LedgerNeverUndercounts(r: Run, deltas: seq<Usage>, total: Usage)
    requires r.usageEmitted == NONE && !r.settled && r.ledger == []
    ensures var spent := Spent(Settled(DrainedAll(r, deltas), total).ledger);
            && spent.tokens >= total.Tokens() && spent.cost >= total.cost
            && (spent == Spend(total.Tokens(), total.cost) <==> total.Covers(Sum(deltas)) && Skipped(deltas) == NOTHING)
  {
    hide Spent; hide Usage.Tokens; hide Skipped; hide Residual; hide Sum; hide DrainedAll; hide Settled; hide Usage.Covers;
    LedgerIsExactly(r, deltas, total);
    SkippedIsNegative(deltas);
    GapFills(total, Sum(deltas));
  }

  // ----- end to end -----

  predicate NonNegative(us: seq<Usage>) { forall i :: 0 <= i < |us| ==> us[i].Covers(NONE) }

  /** The deltas that were read before the run settled: any of them, in order. */
  function Chosen(us: seq<Usage>, read: seq<bool>): seq<Usage>
    requires |us| == |read|
  {
    if us == [] then [] else (if read[0] then [us[0]] else []) + Chosen(us[1..], read[1..])
  }

  lemma {:induction false} ChosenIsCovered(us: seq<Usage>, read: seq<bool>)
    requires |us| == |read| && NonNegative(us)
    ensures Sum(us).Covers(Sum(Chosen(us, read))) && NonNegative(Chosen(us, read))
  {
    if us != [] {
      ChosenIsCovered(us[1..], read[1..]);
      assert us[0].Covers(NONE);
      var rest := Chosen(us[1..], read[1..]);
      assert ([us[0]] + rest)[1..] == rest && [] + rest == rest;
    }
  }

  lemma {:induction false} NonNegativeSkipsNothing(us: seq<Usage>)
    requires NonNegative(us)
    ensures Skipped(us) == NOTHING
  {
    if us != [] {
      assert us[0].Covers(NONE);
      NonNegativeSkipsNothing(us[1..]);
    }
  }

  /** From any frames without corrections, whichever deltas were read live, the ledger's total for the
      settled run is its final usage. */
  lemma UsageIsConserved(fs: seq<Frame>, read: seq<bool>, runner: nat, actor: Option<nat>)
    requires |read| == |AfterFrames(START, fs).emitted| && NonNegative(AfterFrames(START, fs).emitted)
    ensures var m := AfterFrames(START, fs);
            Spent(Settled(DrainedAll(Run(runner, actor, NONE, false, []), Chosen(m.emitted, read)), m.record).ledger)
            == Spend(m.record.Tokens(), m.record.cost)
  {
    var m := AfterFrames(START, fs);
    EmittedIsRecorded(fs);
    ChosenIsCovered(m.emitted, read);
    NonNegativeSkipsNothing(Chosen(m.emitted, read));
    LedgerNeverUndercounts(Run(runner, actor, NONE, false, []), Chosen(m.emitted, read), m.record);
  }

  lemma CorrectedFrames(tokens: real, fewer: real)
    requires 0.0 < fewer < tokens
    ensures var m := AfterFrames(START, [Assistant(NONE.(input := tokens)), Result(Some(NONE.(input := fewer)), 0.0)]);
            m.record == NONE.(input := fewer) && m.emitted == [NONE.(input := tokens), NONE.(input := fewer - tokens)]
  {
    var a, b := Assistant(NONE.(input := tokens)), Result(Some(NONE.(input := fewer)), 0.0);
    var m1 := AfterFrame(START, a);
    assert m1 == Meter(NONE, NONE.(input := tokens), NONE.(input := tokens), NONE.(input := tokens), [NONE.(input := tokens)]);
    assert [a, b][1..] == [b] && [b][1..] == [];
    assert AfterFrames(m1, [b]) == AfterFrame(m1, b);
  }

  lemma CorrectionSums(tokens: real, fewer: real)
    requires 0.0 < fewer < tokens
    ensures var us := [NONE.(input := tokens), NONE.(input := fewer - tokens)];
            Sum(us) == NONE.(input := fewer) && Skipped(us) == Spend(fewer - tokens, 0.0)
  {
    var up, down := NONE.(input := tokens), NONE.(input := fewer - tokens);
    assert [up, down][1..] == [down] && [down][1..] == [];
    assert Skipped([down]) == Spend(fewer - tokens, 0.0);
    assert Sum([down]) == down;
  }

  /** A correction without cost is recorded but never reaches the ledger, which stays too high. */
  lemma CorrectionIsLost(tokens: real, fewer: real, runner: nat)
    requires 0.0 < fewer < tokens
    ensures var m := AfterFrames(START, [Assistant(NONE.(input := tokens)), Result(Some(NONE.(input := fewer)), 0.0)]);
            && m.record == NONE.(input := fewer)
            && Spent(Settled(DrainedAll(Run(runner, None, NONE, false, []), m.emitted), m.record).ledger) == Spend(tokens, 0.0)
  {
    hide AfterFrames; hide Sum; hide Skipped; hide Spent; hide DrainedAll; hide Settled;
    CorrectedFrames(tokens, fewer);
    CorrectionSums(tokens, fewer);
    var us := [NONE.(input := tokens), NONE.(input := fewer - tokens)];
    LedgerIsExactly(Run(runner, None, NONE, false, []), us, NONE.(input := fewer));
  }

  class ManagedAgent {
    const runner: nat
    const actor: Option<nat>
    var usageEmitted: Usage
    var settled: bool
    var ledger: seq<Entry>

    function Abs(): Run
      reads this
    {
      Run(runner, actor, usageEmitted, settled, ledger)
    }

    constructor (runner: nat, actor: Option<nat>)
      ensures Abs() == Run(runner, actor, NONE, false, [])
    {
      this.runner, this.actor := runner, actor;
      usageEmitted, settled, ledger := NONE, false, [];
    }

    method Append(tokens: real, cost: real)
      modifies `ledger
      ensures Abs() == Appended(old(Abs()), tokens, cost)
    {
      if tokens <= 0.0 && cost <= 0.0 { return; }
      ledger := ledger + [Entry(runner, actor, tokens, cost)];
    }

    method OnTokenUsage(usage: Usage)
      modifies this
      ensures Abs() == Drained(old(Abs()), usage)
    {
      usageEmitted := usageEmitted.Plus(usage);
      Append(usage.input + usage.output + usage.cacheRead + usage.cacheWrite, usage.cost);
    }

    method Settle(total: Usage)
      modifies this
      ensures Abs() == Settled(old(Abs()), total)
    {
      if settled { return; }
      settled := true;
      var gap := Residual(total, usageEmitted);
      Append(gap.input + gap.output + gap.cacheRead + gap.cacheWrite, gap.cost);
    }
  }

  // ----- reading the ledger -----

  /** A line of the ledger file: blank, not JSON, or a row, which may lack what an attributed entry needs. */
  datatype Line = Blank | Malformed | Row(entry: Entry, attributed: bool)

  function Rows(lines: seq<Line>): seq<Entry> {
    if lines == [] then []
    else Rows(lines[..|lines| - 1]) + (if lines[|lines| - 1].Row? then [lines[|lines| - 1].entry] else [])
  }

  function AttributedRows(lines: seq<Line>): seq<Entry> {
    if lines == [] then []
    else
      var last := lines[|lines| - 1];
      AttributedRows(lines[..|lines| - 1]) + (if last.Row? && last.attributed then [last.entry] else [])
  }

  method ReadLedger(lines: seq<Line>) returns (spent: Spend)
    ensures spent == Spent(Rows(lines))
  {
    spent := NOTHING;
    for i := 0 to |lines|
      invariant spent == Spent(Rows(lines[..i]))
    {
      assert lines[..i + 1][..i] == lines[..i];
      if lines[i].Row? {
        SpentAppend(Rows(lines[..i]), lines[i].entry);
        spent := spent.Plus(Spend(lines[i].entry.tokens, lines[i].entry.cost));
      } else {
        assert Rows(lines[..i]) + [] == Rows(lines[..i]);
      }
    }
    assert lines[..|lines|] == lines;
  }

  /** What the entries of one runner, or of one actor, spent. */
  function SpentBy(entries: seq<Entry>, runner: nat): Spend {
    if entries == [] then NOTHING
    else
      var n := |entries| - 1;
      SpentBy(entries[..n], runner).Plus(if entries[n].runner == runner then Spend(entries[n].tokens, entries[n].cost) else NOTHING)
  }

  function SpentFor(entries: seq<Entry>, actor: nat): Spend {
    if entries == [] then NOTHING
    else
      var n := |entries| - 1;
      SpentFor(entries[..n], actor).Plus(
        if entries[n].actor == Some(actor) then Spend(entries[n].tokens, entries[n].cost) else NOTHING)
  }

  predicate RunnersRollUp(entries: seq<Entry>, byRunner: map<nat, Spend>) {
    && (forall e :: e in entries ==> e.runner in byRunner)
    && forall r :: r in byRunner ==> byRunner[r] == SpentBy(entries, r)
  }

  predicate ActorsRollUp(entries: seq<Entry>, byActor: map<nat, Spend>) {
    && (forall e :: e in entries && e.actor.Some? ==> e.actor.value in byActor)
    && forall a :: a in byActor ==> byActor[a] == SpentFor(entries, a)
  }

  function Added(m: map<nat, Spend>, key: nat, s: Spend): map<nat, Spend> {
    m[key := (if key in m then m[key] else NOTHING).Plus(s)]
  }

  lemma {:induction false} NoneBy(entries: seq<Entry>, key: nat)
    ensures (forall e :: e in entries ==> e.runner != key) ==> SpentBy(entries, key) == NOTHING
    ensures (forall e :: e in entries ==> e.actor != Some(key)) ==> SpentFor(entries, key) == NOTHING
  {
    if entries != [] {
      var n := |entries| - 1;
      NoneBy(entries[..n], key);
      assert entries[n] in entries;
      assert forall e :: e in entries[..n] ==> e in entries;
    }
  }

  lemma SpentByAppend(entries: seq<Entry>, e: Entry, key: nat)
    ensures SpentBy(entries + [e], key) == SpentBy(entries, key).Plus(if e.runner == key then Spend(e.tokens, e.cost) else NOTHING)
    ensures SpentFor(entries + [e], key)
         == SpentFor(entries, key).Plus(if e.actor == Some(key) then Spend(e.tokens, e.cost) else NOTHING)
  {
    assert (entries + [e])[..|entries|] == entries;
  }

  lemma RunnersAdd(entries: seq<Entry>, e: Entry, byRunner: map<nat, Spend>)
    requires RunnersRollUp(entries, byRunner)
    ensures RunnersRollUp(entries + [e], Added(byRunner, e.runner, Spend(e.tokens, e.cost)))
  {
    hide SpentBy;
    var more, runners := entries + [e], Added(byRunner, e.runner, Spend(e.tokens, e.cost));
    forall r | r in runners
      ensures runners[r] == SpentBy(more, r)
    {
      SpentByAppend(entries, e, r);
      if r !in byRunner { NoneBy(entries, r); }
    }
  }

  lemma ActorsAdd(entries: seq<Entry>, e: Entry, byActor: map<nat, Spend>)
    requires ActorsRollUp(entries, byActor)
    ensures ActorsRollUp(entries + [e], if e.actor.Some? then Added(byActor, e.actor.value, Spend(e.tokens, e.cost)) else byActor)
  {
    hide SpentFor;
    var more := entries + [e];
    var actors := if e.actor.Some? then Added(byActor, e.actor.value, Spend(e.tokens, e.cost)) else byActor;
    forall a | a in actors
      ensures actors[a] == SpentFor(more, a)
    {
      SpentByAppend(entries, e, a);
      if a !in byActor { NoneBy(entries, a); }
    }
  }

  /** The breakdown: every attributed row is listed, and counted for its runner and for its actor. */
  method ReadLedgerDetailed(lines: seq<Line>)
    returns (spent: Spend, byRunner: map<nat, Spend>, byActor: map<nat, Spend>, entries: seq<Entry>)
    ensures entries == AttributedRows(lines) && spent == Spent(entries)
    ensures RunnersRollUp(entries, byRunner) && ActorsRollUp(entries, byActor)
  {
    hide SpentBy; hide SpentFor; hide Spent; hide RunnersRollUp; hide ActorsRollUp;
    spent, byRunner, byActor, entries := NOTHING, map[], map[], [];
    NothingSkipped();
    NothingRollsUp();
    for i := 0 to |lines|
      invariant entries == AttributedRows(lines[..i]) && spent == Spent(entries)
      invariant RunnersRollUp(entries, byRunner) && ActorsRollUp(entries, byActor)
    {
      assert lines[..i + 1][..i] == lines[..i];
      if lines[i].Row? && lines[i].attributed {
        var e := lines[i].entry;
        var s := Spend(e.tokens, e.cost);
        SpentAppend(entries, e);
        RunnersAdd(entries, e, byRunner);
        ActorsAdd(entries, e, byActor);
        spent := spent.Plus(s);
        entries := entries + [e];
        byRunner := Added(byRunner, e.runner, s);
        if e.actor.Some? { byActor := Added(byActor, e.actor.value, s); }
      }
    }
    assert lines[..|lines|] == lines;
  }

  lemma NothingRollsUp()
    ensures RunnersRollUp([], map[]) && ActorsRollUp([], map[])
  {
  }

  predicate Distinct(keys: seq<nat>) { forall i, j :: 0 <= i < j < |keys| ==> keys[i] != keys[j] }

  function SumBy(entries: seq<Entry>, keys: seq<nat>): Spend {
    if keys == [] then NOTHING else SpentBy(entries, keys[0]).Plus(SumBy(entries, keys[1..]))
  }

  lemma SpendsAddUp(a: Spend, b: Spend, s: Spend)
    ensures a.Plus(s).Plus(b.Plus(NOTHING)) == a.Plus(b).Plus(s)
    ensures a.Plus(NOTHING).Plus(b.Plus(s)) == a.Plus(b).Plus(s)
    ensures a.Plus(NOTHING).Plus(b.Plus(NOTHING)) == a.Plus(b).Plus(NOTHING)
  {
  }

  lemma {:induction false} SumByAppend(entries: seq<Entry>, e: Entry, keys: seq<nat>)
    requires Distinct(keys)
    ensures SumBy(entries + [e], keys) == SumBy(entries, keys).Plus(if e.runner in keys then Spend(e.tokens, e.cost) else NOTHING)
  {
    hide SpentBy; hide Spend.Plus;
    if keys == [] {
      assert NOTHING.Plus(NOTHING) == NOTHING by { NothingAdds(); }
    } else {
      SpentByAppend(entries, e, keys[0]);
      assert keys == [keys[0]] + keys[1..] && keys[0] !in keys[1..];
      SumByAppend(entries, e, keys[1..]);
      SpendsAddUp(SpentBy(entries, keys[0]), SumBy(entries, keys[1..]), Spend(e.tokens, e.cost));
    }
  }

  lemma NothingAdds()
    ensures NOTHING.Plus(NOTHING) == NOTHING
  {
  }

  lemma {:induction false} SumByNothing(keys: seq<nat>)
    ensures SumBy([], keys) == NOTHING
  {
    if keys != [] { SumByNothing(keys[1..]); }
  }

  /** The totals of all runners add up to the total of the ledger. */
  lemma {:induction false} RunnersAddUp(entries: seq<Entry>, keys: seq<nat>)
    requires Distinct(keys) && forall e :: e in entries ==> e.runner in keys
    ensures SumBy(entries, keys) == Spent(entries)
  {
    if entries == [] {
      SumByNothing(keys);
    } else {
      var n := |entries| - 1;
      assert entries == entries[..n] + [entries[n]];
      RunnersAddUp(entries[..n], keys);
      SumByAppend(entries[..n], entries[n], keys);
      SpentAppend(entries[..n], entries[n]);
    }
  }

  /** The plain total and the broken-down one agree on a ledger that only attributed entries were
      appended to. */
  lemma {:induction false} ReadersAgree(lines: seq<Line>)
    requires forall i :: 0 <= i < |lines| && lines[i].Row? ==> lines[i].attributed
    ensures Rows(lines) == AttributedRows(lines)
  {
    if lines != [] { ReadersAgree(lines[..|lines| - 1]); }
  }
}
