/** The worker's steer file tailer: it polls a growing file in bounded chunks, keeps the unfinished line
    between polls, and skips lines that are too long without buffering them. */
module Tailer {
  import opened Common
  import opened Lines

  const STEER_READ_CHUNK_BYTES := 262144
  const MAX_STEER_LINE_BYTES := 65536
  const MAX_STEER_COMMANDS_PER_POLL := 256

  /** Whether a complete line is handed on as a command. */
  predicate IsCommand(line: seq<Byte>) { DecodedLength(line) <= MAX_STEER_LINE_BYTES && !Blank(line) }

  lemma LongLineIsDropped(line: seq<Byte>)
    requires |line| > MAX_STEER_LINE_BYTES
    ensures !IsCommand(line)
  {
  }

  function Kept(lines: seq<seq<Byte>>): seq<seq<Byte>> {
    if lines == [] then [] else (if IsCommand(lines[0]) then [lines[0]] else []) + Kept(lines[1..])
  }

  function FirstCommands(lines: seq<seq<Byte>>): seq<seq<Byte>> {
    lines[..Min(|lines|, MAX_STEER_COMMANDS_PER_POLL)]
  }

  lemma {:induction false} KeptAppend(a: seq<seq<Byte>>, b: seq<seq<Byte>>)
    ensures Kept(a + b) == Kept(a) + Kept(b)
  {
    if a == [] {
      assert a + b == b;
    } else {
      assert (a + b)[1..] == a[1..] + b;
      KeptAppend(a[1..], b);
    }
  }

  // ----- the simple form: a splitter over everything read so far -----

  datatype View = View(offset: nat, processed: seq<seq<Byte>>)

  /** Where a poll starts reading: at the beginning again once the file has become shorter. */
  function Base(offset: nat, file: seq<Byte>): (base: nat)
    ensures base <= |file|
  {
    if |file| < offset then 0 else offset
  }

  /** How many bytes a poll asks for. */
  function Asked(offset: nat, file: seq<Byte>): nat {
    Min(|file| - Base(offset, file), STEER_READ_CHUNK_BYTES)
  }

  /** The lines that the first `to` bytes of the file complete and the first `from` do not. */
  function Completed(file: seq<Byte>, from: nat, to: nat): seq<seq<Byte>>
    requires from <= to <= |file|
  {
    Split(Rest(file[..from]) + file[from..to])
  }

  lemma ReadOn(file: seq<Byte>, from: nat, to: nat)
    requires from <= to <= |file|
    ensures Rest(file[..to]) == Rest(Rest(file[..from]) + file[from..to])
    ensures Split(file[..to]) == Split(file[..from]) + Completed(file, from, to)
  {
    assert file[..to] == file[..from] + file[from..to];
    SplitAppend(file[..from], file[from..to]);
  }

  /** A poll that reads `count` bytes. */
  function Polled(v: View, file: seq<Byte>, count: nat): View
    requires count <= Asked(v.offset, file)
  {
    var base := Base(v.offset, file);
    View(base + count, v.processed + FirstCommands(Kept(Completed(file, base, base + count))))
  }

  // ----- the tailer -----

  class SteerTailer {
    var offset: nat
    var remainder: seq<Byte>
    var skipping: bool
    var processed: seq<seq<Byte>>

    function Abs(): View
      reads this
    {
      View(offset, processed)
    }

    /** The tailer holds the unfinished line, or only knows that it is already too long. */
    predicate Holds(unfinished: seq<Byte>)
      reads this
    {
      && (skipping <==> |unfinished| > MAX_STEER_LINE_BYTES)
      && remainder == if skipping then [] else unfinished
    }

    /** What the tailer remembers of the bytes it has read. */
    predicate Remembers(bytes: seq<Byte>)
      reads this
    {
      Holds(Rest(bytes))
    }

    constructor ()
      ensures Abs() == View(0, []) && Remembers([])
    {
      offset, remainder, skipping, processed := 0, [], false, [];
    }

    /** Keeps what follows the last newline, or starts skipping when it is already too long. */
    method Hold(rest: seq<Byte>)
      requires Newline(rest).None?
      modifies `remainder, `skipping
      ensures Holds(rest)
    {
      if |rest| > MAX_STEER_LINE_BYTES {
        remainder, skipping := [], true;
      } else {
        remainder, skipping := rest, false;
      }
    }

    /** Hands on the commands among the lines, in order, until the limit of one poll is reached. */
    method Dispatch(lines: seq<seq<Byte>>)
      modifies `processed
      ensures processed == old(processed) + FirstCommands(Kept(lines))
    {
      var commands := 0;
      var i := 0;
      while i < |lines| && commands < MAX_STEER_COMMANDS_PER_POLL
        invariant 0 <= i <= |lines|
        invariant commands == |Kept(lines[..i])| <= MAX_STEER_COMMANDS_PER_POLL
        invariant processed == old(processed) + Kept(lines[..i])
      {
        assert lines[..i + 1] == lines[..i] + [lines[i]];
        KeptAppend(lines[..i], [lines[i]]);
        if IsCommand(lines[i]) {
          commands := commands + 1;
          processed := processed + [lines[i]];
        }
        i := i + 1;
      }
      assert lines == lines[..i] + lines[i..];
      KeptAppend(lines[..i], lines[i..]);
    }

    /** Takes in bytes that begin where a line begins. */
    method TakeIn(combined: seq<Byte>)
      modifies `remainder, `skipping, `processed
      ensures Holds(Rest(combined))
      ensures processed == old(processed) + FirstCommands(Kept(Split(combined)))
    {
      var newline := LastNewline(combined);
      LastNewlineSplits(combined);
      RestHasNone(combined);
      if newline.None? {
        Hold(combined);
      } else {
        Hold(combined[newline.value + 1..]);
        Dispatch(Split(combined[..newline.value + 1]));
      }
    }

    /** Takes in the bytes that follow an unfinished line. */
    method Receive(buffer: seq<Byte>, ghost seen: seq<Byte>)
      requires Newline(seen).None? && Holds(seen)
      modifies `remainder, `skipping, `processed
      ensures Holds(Rest(seen + buffer))
      ensures processed == old(processed) + FirstCommands(Kept(Split(seen + buffer)))
    {
      if !skipping {
        TakeIn(remainder + buffer);
      } else {
        NewlineAppend(seen, buffer);
        var end := Newline(buffer);
        if end.None? {
          assert Split(seen + buffer) == [];
          return;
        }
        SkipLine(seen, buffer);
        TakeIn(buffer[end.value + 1..]);
      }
    }

    /** Reads `count` bytes on from where the tailer is. */
    method ReadChunk(file: seq<Byte>, count: nat)
      requires offset + count <= |file| && Remembers(file[..offset])
      modifies `offset, `remainder, `skipping, `processed
      ensures offset == old(offset) + count && Remembers(file[..offset])
      ensures processed == old(processed) + FirstCommands(Kept(Completed(file, old(offset), offset)))
    {
      hide Split; hide Rest; hide Kept; hide Newline;
      ghost var base, seen := offset, Rest(file[..offset]);
      var buffer := file[offset..offset + count];
      RestHasNone(file[..offset]);
      offset := offset + count;
      Receive(buffer, seen);
      ReadOn(file, base, base + count);
    }

    /** One poll of a file of which `count` bytes could be read. It refines the simple form whatever the
        file has become, provided the bytes already read are still its first ones when it has not shrunk. */
    method Poll(file: seq<Byte>, count: nat)
      requires offset <= |file| ==> Remembers(file[..offset])
      requires count <= Asked(offset, file)
      modifies this
      ensures Abs() == Polled(old(Abs()), file, count)
      ensures offset <= |file| && Remembers(file[..offset])
    {
      hide Split; hide Rest; hide Kept; hide Completed;
      assert Rest([]) == [] by { RestOfNothing(); }
      if |file| < offset {
        offset, remainder, skipping := 0, [], false;
        assert file[..0] == [];
      }
      ReadChunk(file, count);
    }
  }

  lemma DropFirst(lines: seq<seq<Byte>>)
    requires lines != [] && !IsCommand(lines[0])
    ensures Kept(lines) == Kept(lines[1..])
  {
  }

  /** A line already known to be too long adds no command, however it ends. */
  lemma SkipLine(seen: seq<Byte>, buffer: seq<Byte>)
    requires Newline(seen).None? && |seen| > MAX_STEER_LINE_BYTES && Newline(buffer).Some?
    ensures Kept(Split(seen + buffer)) == Kept(Split(buffer[Newline(buffer).value + 1..]))
    ensures Rest(seen + buffer) == Rest(buffer[Newline(buffer).value + 1..])
  {
    hide Split; hide Rest; hide Newline;
    var lines, line, after := Split(seen + buffer), seen + buffer[..Newline(buffer).value], Split(buffer[Newline(buffer).value + 1..]);
    SplitPrefixed(seen, buffer, Newline(buffer).value);
    LongLineIsDropped(line);
    assert lines == [line] + after;
    assert lines[1..] == after;
    DropFirst(lines);
  }

  // ----- any number of polls -----

  /** One poll: the size the file had by then, and how many bytes could be read. */
  datatype PollStep = PollStep(size: nat, count: nat)

  /** Polls of one file that is only ever appended to; `file` is all of it. */
  predicate Polls(v: View, file: seq<Byte>, steps: seq<PollStep>)
    decreases steps
  {
    steps == [] ||
    (v.offset <= steps[0].size <= |file| && steps[0].count <= Asked(v.offset, file[..steps[0].size])
     && Polls(Polled(v, file[..steps[0].size], steps[0].count), file, steps[1..]))
  }

  function After(v: View, file: seq<Byte>, steps: seq<PollStep>): View
    requires Polls(v, file, steps)
    decreases steps
  {
    if steps == [] then v else After(Polled(v, file[..steps[0].size], steps[0].count), file, steps[1..])
  }

  /** No poll completes more commands than one poll may take. */
  predicate Unhurried(v: View, file: seq<Byte>, steps: seq<PollStep>)
    requires Polls(v, file, steps)
    decreases steps
  {
    steps == [] ||
    (|Kept(Completed(file[..steps[0].size], v.offset, v.offset + steps[0].count))| <= MAX_STEER_COMMANDS_PER_POLL
     && Unhurried(Polled(v, file[..steps[0].size], steps[0].count), file, steps[1..]))
  }

  lemma CompletedOfPrefix(file: seq<Byte>, size: nat, from: nat, to: nat)
    requires from <= to <= size <= |file|
    ensures Completed(file[..size], from, to) == Completed(file, from, to)
  {
    assert file[..size][..from] == file[..from];
    assert file[..size][from..to] == file[from..to];
  }

  lemma KeptGrows(file: seq<Byte>, from: nat, to: nat)
    requires from <= to <= |file|
    ensures Kept(Split(file[..to])) == Kept(Split(file[..from])) + Kept(Completed(file, from, to))
  {
    ReadOn(file, from, to);
    KeptAppend(Split(file[..from]), Completed(file, from, to));
  }

  lemma PolledOn(v: View, file: seq<Byte>, count: nat)
    requires v.offset <= |file| && count <= Asked(v.offset, file)
    ensures v.offset + count <= |file|
    ensures Polled(v, file, count)
            == View(v.offset + count, v.processed + FirstCommands(Kept(Completed(file, v.offset, v.offset + count))))
  {
  }

  lemma PollGain(v: View, file: seq<Byte>, size: nat, count: nat)
    requires v.offset <= size <= |file| && count <= Asked(v.offset, file[..size])
    ensures v.offset + count <= size
    ensures var kept := Kept(Completed(file[..size], v.offset, v.offset + count));
            && Polled(v, file[..size], count) == View(v.offset + count, v.processed + FirstCommands(kept))
            && Kept(Split(file[..v.offset + count])) == Kept(Split(file[..v.offset])) + kept
  {
    PolledOn(v, file[..size], count);
    CompletedOfPrefix(file, size, v.offset, v.offset + count);
    KeptGrows(file, v.offset, v.offset + count);
  }

  /** How many of the kept lines of what was read have not been processed. */
  function Lost(v: View, file: seq<Byte>): int
    requires v.offset <= |file|
  {
    |Kept(Split(file[..v.offset]))| - |v.processed|
  }

  lemma {:induction false} LossStays(v: View, file: seq<Byte>, steps: seq<PollStep>)
    requires Polls(v, file, steps) && v.offset <= |file|
    ensures var t := After(v, file, steps);
            && t.offset <= |file| && Lost(t, file) >= Lost(v, file)
            && (!Unhurried(v, file, steps) ==> Lost(t, file) > Lost(v, file))
    decreases steps
  {
    if steps != [] {
      PollGain(v, file, steps[0].size, steps[0].count);
      LossStays(Polled(v, file[..steps[0].size], steps[0].count), file, steps[1..]);
    }
  }

  lemma PollLosesNothing(v: View, file: seq<Byte>, step: PollStep)
    requires v.offset <= step.size <= |file| && step.count <= Asked(v.offset, file[..step.size])
    requires v.processed == Kept(Split(file[..v.offset]))
    requires |Kept(Completed(file[..step.size], v.offset, v.offset + step.count))| <= MAX_STEER_COMMANDS_PER_POLL
    ensures var t := Polled(v, file[..step.size], step.count);
            t.offset <= |file| && t.processed == Kept(Split(file[..t.offset]))
  {
    hide Split; hide Rest; hide Kept; hide Completed;
    PollGain(v, file, step.size, step.count);
  }

  lemma {:induction false} UnhurriedLosesNothing(v: View, file: seq<Byte>, steps: seq<PollStep>)
    requires Polls(v, file, steps) && v.offset <= |file| && Unhurried(v, file, steps)
    requires v.processed == Kept(Split(file[..v.offset]))
    ensures var t := After(v, file, steps);
            t.offset <= |file| && t.processed == Kept(Split(file[..t.offset]))
    decreases steps
  {
    if steps != [] {
      PollLosesNothing(v, file, steps[0]);
      UnhurriedLosesNothing(Polled(v, file[..steps[0].size], steps[0].count), file, steps[1..]);
    }
  }

  /** However the file grows and is cut into polls, what is processed is the kept lines of what was
      read, in order and once each, exactly when no poll is flooded; otherwise lines are lost. */
  lemma TailerRefinesSplitter(v: View, file: seq<Byte>, steps: seq<PollStep>)
    requires Polls(v, file, steps) && v.offset <= |file|
    requires v.processed == Kept(Split(file[..v.offset]))
    ensures var t := After(v, file, steps);
            t.offset <= |file| && (t.processed == Kept(Split(file[..t.offset])) <==> Unhurried(v, file, steps))
  {
    LossStays(v, file, steps);
    if Unhurried(v, file, steps) { UnhurriedLosesNothing(v, file, steps); }
  }

  const LETTER: Byte := 65

  /** A file of `n` lines of one letter each. */
  function Flood(n: nat): (file: seq<Byte>)
    ensures |file| == 2 * n
  {
    if n == 0 then [] else [LETTER, LF] + Flood(n - 1)
  }

  lemma FloodLine(rest: seq<Byte>)
    ensures Split([LETTER, LF] + rest) == [[LETTER]] + Split(rest)
  {
    var bytes := [LETTER, LF] + rest;
    assert bytes[1..] == [LF] + rest && bytes[2..] == rest;
    assert Newline(bytes[1..]) == Some(0);
    assert bytes[..1] == [LETTER];
  }

  lemma LetterIsCommand()
    ensures IsCommand([LETTER])
  {
  }

  lemma {:induction false} FloodIsKept(n: nat)
    ensures |Kept(Split(Flood(n)))| == n
  {
    hide IsCommand; hide Split;
    if n == 0 {
      SplitOfNothing();
    } else {
      FloodIsKept(n - 1);
      FloodLine(Flood(n - 1));
      LetterIsCommand();
      assert ([[LETTER]] + Split(Flood(n - 1)))[1..] == Split(Flood(n - 1));
    }
  }

  lemma SplitOfNothing()
    ensures Split([]) == []
  {
  }

  /** A flood happens: more than 256 short lines are appended between two polls and read by one. Some of
      them are never processed. */
  lemma FloodLosesLines(n: nat)
    requires MAX_STEER_COMMANDS_PER_POLL < n && 2 * n <= STEER_READ_CHUNK_BYTES
    ensures var steps := [PollStep(2 * n, 2 * n)];
            && Polls(View(0, []), Flood(n), steps) && !Unhurried(View(0, []), Flood(n), steps)
            && var t := After(View(0, []), Flood(n), steps);
               t.offset == 2 * n && |t.processed| == MAX_STEER_COMMANDS_PER_POLL && Lost(t, Flood(n)) == n - MAX_STEER_COMMANDS_PER_POLL
  {
    hide Kept; hide Split; hide Rest; hide Completed; hide Polled; hide Flood;
    var file, v, step := Flood(n), View(0, []), PollStep(2 * n, 2 * n);
    FloodIsKept(n);
    assert file[..2 * n] == file;
    FromNothing(file);
    PolledOn(v, file, 2 * n);
    assert Asked(0, file) == 2 * n;
    assert Polls(Polled(v, file, 2 * n), file, [step][1..]);
  }

  lemma FromNothing(file: seq<Byte>)
    ensures Completed(file, 0, |file|) == Split(file)
  {
    RestOfNothing();
    assert file[..0] == [] && [] + file[0..|file|] == file;
  }

  lemma FullReadCatchesUp(v: View, file: seq<Byte>)
    requires v.offset <= |file|
    ensures var t := Polled(v, file, Asked(v.offset, file));
            |file| - t.offset == if |file| - v.offset <= STEER_READ_CHUNK_BYTES then 0
                                 else |file| - v.offset - STEER_READ_CHUNK_BYTES
  {
  }

  /** Polls that each read as much as they ask for, of a file that stays as it is. */
  function FullPolls(v: View, file: seq<Byte>, n: nat): View
    decreases n
  {
    if n == 0 then v else FullPolls(Polled(v, file, Asked(v.offset, file)), file, n - 1)
  }

  /** The tailer catches up with a file as soon as the polls together may read what is left of it. */
  lemma {:induction false} FullReadsCatchUp(v: View, file: seq<Byte>, n: nat)
    requires v.offset <= |file| && |file| - v.offset <= n * STEER_READ_CHUNK_BYTES
    ensures FullPolls(v, file, n).offset == |file|
    decreases n
  {
    hide Polled;
    if n > 0 {
      FullReadCatchesUp(v, file);
      FullReadsCatchUp(Polled(v, file, Asked(v.offset, file)), file, n - 1);
    }
  }
}
