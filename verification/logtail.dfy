/** The JSONL pager: pages of a log are read backwards from its end, touching only as many chunks as a
    page needs. */
module LogTail {
  import opened Common
  import opened Lines

  const READ_CHUNK_BYTES := 65536
  const DEFAULT_READ_MAX_BYTES := 8388608
  const CR: Byte := 13

  datatype Record = Record(offset: nat, raw: seq<Byte>)

  datatype Page = Page(lines: seq<Record>, hasMore: bool, before: Option<nat>)

  // ----- the simple form: all records of a file, in order -----

  function Strip(line: seq<Byte>): seq<Byte> {
    if line != [] && line[|line| - 1] == CR then line[..|line| - 1] else line
  }

  /** A line becomes a record unless nothing is left of it. */
  function Entry(offset: nat, line: seq<Byte>): seq<Record> {
    if Strip(line) == [] then [] else [Record(offset, Strip(line))]
  }

  /** The records of bytes that begin a line at `base`; `tail` says whether the unterminated last line
      counts. */
  function Records(bytes: seq<Byte>, base: nat, tail: bool): seq<Record>
    decreases |bytes|
  {
    match Newline(bytes)
    case None => if tail then Entry(base, bytes) else []
    case Some(i) => Entry(base, bytes[..i]) + Records(bytes[i + 1..], base + i + 1, tail)
  }

  function AllRecords(file: seq<Byte>): seq<Record> { Records(file, 0, true) }

  /** No line is empty or a lone carriage return. */
  predicate NoBlanks(bytes: seq<Byte>)
    decreases |bytes|
  {
    match Newline(bytes)
    case None => bytes == [] || Strip(bytes) != []
    case Some(i) => Strip(bytes[..i]) != [] && NoBlanks(bytes[i + 1..])
  }

  function Newlines(bytes: seq<Byte>): (n: nat)
    ensures n <= |bytes|
  {
    if bytes == [] then 0 else (if bytes[0] == LF then 1 else 0) + Newlines(bytes[1..])
  }

  function Last(records: seq<Record>, limit: nat): seq<Record> {
    if |records| <= limit then records else records[|records| - limit..]
  }

  // ----- the pager -----

  /** The records of a buffer that may begin in the middle of a line, which is then left out. */
  function BufferedRecords(buffer: seq<Byte>, start: nat, end: nat): seq<Record> {
    var tail := end == start + |buffer|;
    if start == 0 then Records(buffer, 0, tail)
    else
      match Newline(buffer)
      case None => []
      case Some(i) => Records(buffer[i + 1..], start + i + 1, tail)
  }

  /** Where reading stops: at the beginning, once there are more newlines than lines wanted, or when the
      byte bound is reached. */
  function WindowStart(file: seq<Byte>, end: nat, limit: nat, maxBytes: nat, start: nat): (s: nat)
    requires start <= end <= |file| && end - start <= maxBytes
    ensures s <= start
    decreases start
  {
    if start > 0 && Newlines(file[start..end]) <= limit && end - start < maxBytes
    then WindowStart(file, end, limit, maxBytes, start - ChunkLength(start, end - start, maxBytes))
    else start
  }

  /** How much the next chunk holds. */
  function ChunkLength(start: nat, buffered: nat, maxBytes: nat): (length: nat)
    requires buffered < maxBytes && start > 0
    ensures 1 <= length <= start && buffered + length <= maxBytes
  {
    Min(READ_CHUNK_BYTES, Min(start, maxBytes - buffered))
  }

  lemma WindowUnfolds(file: seq<Byte>, end: nat, limit: nat, maxBytes: nat, start: nat)
    requires start <= end <= |file| && end - start <= maxBytes
    ensures WindowStart(file, end, limit, maxBytes, start) ==
            if start > 0 && Newlines(file[start..end]) <= limit && end - start < maxBytes
            then WindowStart(file, end, limit, maxBytes, start - ChunkLength(start, end - start, maxBytes))
            else start
  {
  }

  function PageFrom(file: seq<Byte>, end: nat, limit: nat, start: nat): Page
    requires start <= end <= |file|
  {
    var records := BufferedRecords(file[start..end], start, end);
    var selected := Last(records, limit);
    var hasMore := selected != [] && (|records| > |selected| || start > 0);
    Page(selected, hasMore, if hasMore then Some(selected[0].offset) else None)
  }

  function FileEnd(size: nat, before: Option<int>): (end: nat)
    ensures end <= size
  {
    if before.Some? then Max(0, Min(before.value, size)) else size
  }

  function ByteBound(maxBytes: Option<int>): nat {
    Max(1, if maxBytes.Some? then maxBytes.value else DEFAULT_READ_MAX_BYTES)
  }

  function PageOf(file: seq<Byte>, limit: int, before: Option<int>, maxBytes: Option<int>): Page {
    var end := FileEnd(|file|, before);
    PageFrom(file, end, Max(1, limit), WindowStart(file, end, Max(1, limit), ByteBound(maxBytes), end))
  }

  lemma {:induction false} NewlinesAppend(a: seq<Byte>, b: seq<Byte>)
    ensures Newlines(a + b) == Newlines(a) + Newlines(b)
  {
    if a == [] {
      assert a + b == b;
    } else {
      assert (a + b)[0] == a[0] && (a + b)[1..] == a[1..] + b;
      NewlinesAppend(a[1..], b);
    }
  }

  method CountNewlines(bytes: seq<Byte>) returns (n: nat)
    ensures n == Newlines(bytes)
  {
    n := 0;
    for i := 0 to |bytes|
      invariant n == Newlines(bytes[..i])
    {
      assert bytes[..i + 1] == bytes[..i] + [bytes[i]];
      NewlinesAppend(bytes[..i], [bytes[i]]);
      if bytes[i] == LF { n := n + 1; }
    }
    assert bytes[..|bytes|] == bytes;
  }

  predicate NoNewline(bytes: seq<Byte>, from: nat, to: nat) {
    from <= to <= |bytes| && forall k :: from <= k < to ==> bytes[k] != LF
  }

  lemma {:induction false} NewlineAt(bytes: seq<Byte>, i: nat)
    requires i < |bytes| && bytes[i] == LF && NoNewline(bytes, 0, i)
    ensures Newline(bytes) == Some(i)
  {
    if i > 0 {
      assert forall k :: 0 <= k < i - 1 ==> bytes[1..][k] == bytes[k + 1];
      NewlineAt(bytes[1..], i - 1);
    }
  }

  lemma NewlineNone(bytes: seq<Byte>)
    requires NoNewline(bytes, 0, |bytes|)
    ensures Newline(bytes) == None
  {
    NewlineIsFirst(bytes);
  }

  lemma NextRecord(buffer: seq<Byte>, start: nat, i: nat, base: nat, tail: bool)
    requires i < |buffer| && buffer[i] == LF && NoNewline(buffer, start, i)
    ensures Records(buffer[start..], base + start, tail)
         == Entry(base + start, buffer[start..i]) + Records(buffer[i + 1..], base + i + 1, tail)
  {
    hide Entry;
    NewlineAt(buffer[start..], i - start);
    assert buffer[start..][..i - start] == buffer[start..i];
    assert buffer[start..][i - start + 1..] == buffer[i + 1..];
  }

  lemma TailRecord(buffer: seq<Byte>, start: nat, base: nat, tail: bool)
    requires NoNewline(buffer, start, |buffer|)
    ensures Records(buffer[start..], base + start, tail)
         == if tail && start < |buffer| then Entry(base + start, buffer[start..]) else []
  {
    NewlineNone(buffer[start..]);
  }

  lemma FirstRecord(buffer: seq<Byte>, start: nat, end: nat, i: nat)
    requires start > 0 && i < |buffer| && buffer[i] == LF && NoNewline(buffer, 0, i)
    ensures BufferedRecords(buffer, start, end) == Records(buffer[i + 1..], start + i + 1, end == start + |buffer|)
  {
    hide Records;
    NewlineAt(buffer, i);
  }

  /** The complete lines of a buffer, scanned byte by byte. */
  method CompleteLines(buffer: seq<Byte>, bufferStart: nat, fileEnd: nat) returns (lines: seq<Record>)
    ensures lines == BufferedRecords(buffer, bufferStart, fileEnd)
    ensures forall r :: r in lines <==> IsRecord(buffer, bufferStart, fileEnd == bufferStart + |buffer|, r)
  {
    hide Entry; hide Records; hide Newline;
    lines := [];
    var start, first := 0, true;
    ghost var tail := fileEnd == bufferStart + |buffer|;
    assert buffer[0..] == buffer;
    for index := 0 to |buffer|
      invariant 0 <= start <= index && NoNewline(buffer, start, index)
      invariant first ==> start == 0 && lines == []
      invariant !first || bufferStart == 0 ==>
                  BufferedRecords(buffer, bufferStart, fileEnd) == lines + Records(buffer[start..], bufferStart + start, tail)
    {
      if buffer[index] == LF {
        if !first || bufferStart == 0 {
          NextRecord(buffer, start, index, bufferStart, tail);
          lines := lines + Entry(bufferStart + start, buffer[start..index]);
        } else {
          FirstRecord(buffer, bufferStart, fileEnd, index);
        }
        first := false;
        start := index + 1;
      }
    }
    TailRecord(buffer, start, bufferStart, tail);
    if first { NewlineNone(buffer); }
    if fileEnd == bufferStart + |buffer| && start < |buffer| {
      if !first || bufferStart == 0 {
        lines := lines + Entry(bufferStart + start, buffer[start..]);
      }
    }
    forall r
      ensures r in lines <==> IsRecord(buffer, bufferStart, tail, r)
    {
      BufferedAreLines(buffer, bufferStart, fileEnd, r);
    }
  }

  // ----- what a record is -----

  /** A line of a buffer that begins at `start` ends at a newline, or at the end of the last line. */
  predicate EndsLine(buffer: seq<Byte>, tail: bool, k: nat) {
    (k < |buffer| && buffer[k] == LF) || (tail && k == |buffer|)
  }

  predicate StartsLine(buffer: seq<Byte>, start: nat, k: nat) {
    k <= |buffer| && if k == 0 then start == 0 else buffer[k - 1] == LF
  }

  /** A record is some bytes of the buffer, where they stand: a line from its first byte on, or all of it but
      the one carriage return at its end. */
  predicate IsRecord(buffer: seq<Byte>, start: nat, tail: bool, r: Record) {
    && r.raw != [] && r.offset >= start
    && var first, stop := r.offset - start, r.offset - start + |r.raw|;
       && stop <= |buffer| && r.raw == buffer[first..stop]
       && StartsLine(buffer, start, first) && NoNewline(buffer, first, stop)
       && ((EndsLine(buffer, tail, stop) && buffer[stop - 1] != CR)
           || (stop < |buffer| && buffer[stop] == CR && EndsLine(buffer, tail, stop + 1)))
  }

  lemma StripSlice(buffer: seq<Byte>, first: nat, end: nat)
    requires first <= end <= |buffer|
    ensures Strip(buffer[first..end]) == buffer[first..if first < end && buffer[end - 1] == CR then end - 1 else end]
  {
  }

  lemma RecordStopsAt(buffer: seq<Byte>, start: nat, tail: bool, first: nat, end: nat, r: Record)
    requires NoNewline(buffer, first, end) && EndsLine(buffer, tail, end)
    requires IsRecord(buffer, start, tail, r) && r.offset == start + first
    ensures first + |r.raw| == if buffer[end - 1] == CR then end - 1 else end
  {
  }

  lemma EntryIsRecord(buffer: seq<Byte>, start: nat, tail: bool, first: nat, end: nat, r: Record)
    requires StartsLine(buffer, start, first) && NoNewline(buffer, first, end) && EndsLine(buffer, tail, end)
    ensures r in Entry(start + first, buffer[first..end]) <==> IsRecord(buffer, start, tail, r) && r.offset == start + first
  {
    hide Strip;
    StripSlice(buffer, first, end);
    if IsRecord(buffer, start, tail, r) && r.offset == start + first { RecordStopsAt(buffer, start, tail, first, end, r); }
  }

  lemma BeginsThereOrLater(buffer: seq<Byte>, start: nat, tail: bool, p: nat, e: nat, r: Record)
    requires NoNewline(buffer, p, e) && IsRecord(buffer, start, tail, r) && r.offset >= start + p
    ensures r.offset == start + p || r.offset > start + e
  {
  }

  lemma {:induction false} RecordsAreLines(buffer: seq<Byte>, start: nat, tail: bool, p: nat, r: Record)
    requires StartsLine(buffer, start, p)
    ensures r in Records(buffer[p..], start + p, tail) <==> IsRecord(buffer, start, tail, r) && r.offset >= start + p
    decreases |buffer| - p
  {
    hide Entry; hide Records; hide Newline; hide IsRecord;
    NewlineIsFirst(buffer[p..]);
    match Newline(buffer[p..])
    case None =>
      assert NoNewline(buffer, p, |buffer|) by { assert forall k :: p <= k < |buffer| ==> buffer[k] == buffer[p..][k - p]; }
      TailRecord(buffer, p, start, tail);
      LastLine(buffer, start, tail, p, r);
    case Some(i) =>
      assert NoNewline(buffer, p, p + i) && buffer[p + i] == LF by {
        assert forall k :: p <= k <= p + i ==> buffer[k] == buffer[p..][k - p];
      }
      NextRecord(buffer, p, p + i, start, tail);
      EntryIsRecord(buffer, start, tail, p, p + i, r);
      RecordsAreLines(buffer, start, tail, p + i + 1, r);
      if IsRecord(buffer, start, tail, r) && r.offset >= start + p { BeginsThereOrLater(buffer, start, tail, p, p + i, r); }
  }

  lemma LastLine(buffer: seq<Byte>, start: nat, tail: bool, p: nat, r: Record)
    requires StartsLine(buffer, start, p) && NoNewline(buffer, p, |buffer|)
    ensures r in (if tail && p < |buffer| then Entry(start + p, buffer[p..]) else [])
       <==> IsRecord(buffer, start, tail, r) && r.offset >= start + p
  {
    hide Entry;
    if IsRecord(buffer, start, tail, r) && r.offset >= start + p { BeginsThereOrLater(buffer, start, tail, p, |buffer|, r); }
    if tail {
      assert buffer[p..|buffer|] == buffer[p..];
      EntryIsRecord(buffer, start, tail, p, |buffer|, r);
    }
  }

  /** What a buffer yields is exactly the lines that begin in it and are known to be complete. */
  lemma BufferedAreLines(buffer: seq<Byte>, start: nat, end: nat, r: Record)
    ensures r in BufferedRecords(buffer, start, end) <==> IsRecord(buffer, start, end == start + |buffer|, r)
  {
    hide Records; hide Newline;
    var tail := end == start + |buffer|;
    if start == 0 {
      assert buffer[0..] == buffer;
      RecordsAreLines(buffer, 0, tail, 0, r);
    } else {
      NewlineIsFirst(buffer);
      match Newline(buffer)
      case None =>
      case Some(i) => RecordsAreLines(buffer, start, tail, i + 1, r);
    }
  }

  /** The chunks are read from the end backwards and joined in reverse. */
  function Joined(chunks: seq<seq<Byte>>): seq<Byte> {
    if chunks == [] then [] else chunks[|chunks| - 1] + Joined(chunks[..|chunks| - 1])
  }

  lemma JoinedPush(chunks: seq<seq<Byte>>, chunk: seq<Byte>)
    ensures Joined(chunks + [chunk]) == chunk + Joined(chunks)
  {
    assert (chunks + [chunk])[..|chunks|] == chunks;
  }

  method ReadPage(file: seq<Byte>, limit: int, before: Option<int>, maxBytes: Option<int>) returns (page: Page)
    ensures page == PageOf(file, limit, before, maxBytes)
    ensures forall r :: r in page.lines <==>
              IsRecord(file[..FileEnd(|file|, before)], 0, true, r) && page.lines != [] && page.lines[0].offset <= r.offset
  {
    hide Newlines; hide Records; hide Newline; hide BufferedRecords; hide WindowStart; hide ChunkLength; hide IsRecord;
    var fileEnd := FileEnd(|file|, before);
    var boundedLimit, boundedBytes := Max(1, limit), ByteBound(maxBytes);
    var chunks: seq<seq<Byte>> := [];
    var bufferStart, bufferedBytes, newlineCount := fileEnd, 0, 0;
    assert Newlines(file[fileEnd..fileEnd]) == 0;
    while bufferStart > 0 && newlineCount <= boundedLimit && bufferedBytes < boundedBytes
      invariant 0 <= bufferStart <= fileEnd && bufferedBytes == fileEnd - bufferStart <= boundedBytes
      invariant Joined(chunks) == file[bufferStart..fileEnd] && newlineCount == Newlines(file[bufferStart..fileEnd])
      invariant WindowStart(file, fileEnd, boundedLimit, boundedBytes, fileEnd)
             == WindowStart(file, fileEnd, boundedLimit, boundedBytes, bufferStart)
    {
      WindowUnfolds(file, fileEnd, boundedLimit, boundedBytes, bufferStart);
      var length := ChunkLength(bufferStart, bufferedBytes, boundedBytes);
      var chunkStart := bufferStart - length;
      var captured := file[chunkStart..bufferStart];
      JoinedPush(chunks, captured);
      chunks := chunks + [captured];
      var newlines := CountNewlines(captured);
      assert file[chunkStart..fileEnd] == captured + file[bufferStart..fileEnd];
      NewlinesAppend(captured, file[bufferStart..fileEnd]);
      newlineCount := newlineCount + newlines;
      bufferedBytes := bufferedBytes + length;
      bufferStart := chunkStart;
    }
    WindowUnfolds(file, fileEnd, boundedLimit, boundedBytes, bufferStart);
    var records := CompleteLines(Joined(chunks), bufferStart, fileEnd);
    var selected := Last(records, boundedLimit);
    var hasMore := selected != [] && (|records| > |selected| || bufferStart > 0);
    page := Page(selected, hasMore, if hasMore then Some(selected[0].offset) else None);
    forall r
      ensures r in page.lines <==>
                IsRecord(file[..fileEnd], 0, true, r) && page.lines != [] && page.lines[0].offset <= r.offset
    {
      PageHoldsLines(file, limit, before, maxBytes, r);
    }
  }

  // ----- pages are suffixes of all the records -----

  lemma UnfoldRecords(bytes: seq<Byte>, f: nat, base: nat, tail: bool)
    requires f < |bytes| && bytes[f] == LF && NoNewline(bytes, 0, f)
    ensures Records(bytes, base, tail) == Entry(base, bytes[..f]) + Records(bytes[f + 1..], base + f + 1, tail)
  {
    hide Entry;
    NewlineAt(bytes, f);
  }

  lemma NoRecords(base: nat, tail: bool)
    ensures Records([], base, tail) == []
  {
  }

  lemma SlicesAt(bytes: seq<Byte>, f: nat, i: nat)
    requires f <= i < |bytes|
    ensures bytes[..i + 1][..f] == bytes[..f]
    ensures bytes[f + 1..][..i - f] == bytes[..i + 1][f + 1..] && bytes[f + 1..][i - f..] == bytes[i + 1..]
  {
  }

  lemma {:induction false} RecordsSplit(bytes: seq<Byte>, i: nat, base: nat, tail: bool)
    requires i < |bytes| && bytes[i] == LF
    ensures Records(bytes, base, tail) == Records(bytes[..i + 1], base, false) + Records(bytes[i + 1..], base + i + 1, tail)
    decreases |bytes|
  {
    hide Entry; hide Records; hide Newline;
    NewlineIsFirst(bytes);
    var f := Newline(bytes).value;
    UnfoldRecords(bytes, f, base, tail);
    UnfoldRecords(bytes[..i + 1], f, base, false);
    SlicesAt(bytes, f, i);
    if f < i {
      RecordsSplit(bytes[f + 1..], i - f - 1, base + f + 1, tail);
    } else {
      assert bytes[..i + 1][f + 1..] == [];
      NoRecords(base + f + 1, false);
    }
  }

  predicate Ordered(records: seq<Record>, from: nat, to: nat) {
    && (forall i :: 0 <= i < |records| ==> from <= records[i].offset < to)
    && forall i, j :: 0 <= i < j < |records| ==> records[i].offset < records[j].offset
  }

  lemma EntryShape(offset: nat, line: seq<Byte>)
    ensures |Entry(offset, line)| <= 1 && forall r :: r in Entry(offset, line) ==> r.offset == offset && line != []
  {
  }

  /** The records of bytes are those of its first line and those of what follows it. */
  lemma FirstLine(bytes: seq<Byte>, base: nat, tail: bool) returns (n: nat, first: seq<Record>, rest: seq<Record>)
    ensures n <= |bytes| && (n > 0 ==> bytes[n - 1] == LF)
    ensures Records(bytes, base, tail) == first + rest && |first| <= 1
    ensures first != [] ==> first[0].offset == base && bytes != []
    ensures rest == if n > 0 then Records(bytes[n..], base + n, tail) else []
  {
    hide Newline; hide Entry;
    NewlineIsFirst(bytes);
    match Newline(bytes)
    case None =>
      n, first, rest := 0, if tail then Entry(base, bytes) else [], [];
      EntryShape(base, bytes);
      assert first != [] ==> first[0] in first;
    case Some(i) =>
      n, first, rest := i + 1, Entry(base, bytes[..i]), Records(bytes[i + 1..], base + i + 1, tail);
      EntryShape(base, bytes[..i]);
      assert first != [] ==> first[0] in first;
  }

  lemma {:induction false} RecordOffsets(bytes: seq<Byte>, base: nat, tail: bool)
    ensures Ordered(Records(bytes, base, tail), base, base + |bytes|)
    decreases |bytes|
  {
    hide Records;
    var n, first, rest := FirstLine(bytes, base, tail);
    if n > 0 { RecordOffsets(bytes[n..], base + n, tail); }
  }

  predicate BeginsLine(bytes: seq<Byte>, k: int) { k == 0 || (0 < k <= |bytes| && bytes[k - 1] == LF) }

  /** Records begin where lines begin. */
  lemma {:induction false} RecordsBeginLines(bytes: seq<Byte>, base: nat, tail: bool, k: nat)
    requires k < |Records(bytes, base, tail)|
    ensures BeginsLine(bytes, Records(bytes, base, tail)[k].offset - base)
    decreases |bytes|
  {
    hide Records;
    var n, first, rest := FirstLine(bytes, base, tail);
    if k >= |first| {
      RecordsBeginLines(bytes[n..], base + n, tail, k - |first|);
      var o := rest[k - |first|].offset - (base + n);
      if o > 0 { assert bytes[n..][o - 1] == bytes[n + o - 1]; }
    }
  }

  /** The records that begin beyond an offset. */
  function Beyond(records: seq<Record>, offset: nat): seq<Record> {
    if records == [] then []
    else if records[0].offset > offset then records
    else Beyond(records[1..], offset)
  }

  lemma {:induction false} BeyondSplit(a: seq<Record>, b: seq<Record>, offset: nat)
    requires forall i :: 0 <= i < |a| ==> a[i].offset <= offset
    requires forall i :: 0 <= i < |b| ==> b[i].offset > offset
    ensures Beyond(a + b, offset) == b
  {
    if a == [] {
      assert a + b == b;
    } else {
      assert (a + b)[0] == a[0] && (a + b)[1..] == a[1..] + b;
      BeyondSplit(a[1..], b, offset);
    }
  }

  lemma FirstNewlineFrom(file: seq<Byte>, start: nat, p: nat)
    requires start <= p < |file| && Newline(file[start..]) == Some(p - start)
    ensures file[p] == LF && NoNewline(file, start, p)
  {
    NewlineIsFirst(file[start..]);
    assert file[start..][p - start] == file[p];
    assert forall k :: start <= k < p ==> file[k] == file[start..][k - start];
  }

  lemma NoNewlineFrom(file: seq<Byte>, start: nat)
    requires start <= |file| && Newline(file[start..]) == None
    ensures NoNewline(file, start, |file|)
  {
    NewlineIsFirst(file[start..]);
    assert forall k :: start <= k < |file| ==> file[k] == file[start..][k - start];
  }

  /** What a buffer yields is the records of the file that begin beyond the buffer's first byte. */
  lemma BufferedIsSuffix(file: seq<Byte>, start: nat)
    requires 0 < start <= |file|
    ensures BufferedRecords(file[start..], start, |file|) == Beyond(AllRecords(file), start)
  {
    hide Records; hide Newline; hide Beyond;
    RecordOffsets(file, 0, true);
    match Newline(file[start..])
    case None =>
      NoNewlineFrom(file, start);
      assert AllRecords(file) + [] == AllRecords(file);
      forall k | 0 <= k < |AllRecords(file)|
        ensures AllRecords(file)[k].offset <= start
      {
        RecordsBeginLines(file, 0, true, k);
      }
      BeyondSplit(AllRecords(file), [], start);
    case Some(i) =>
      var p := start + i;
      FirstNewlineFrom(file, start, p);
      RecordsSplit(file, p, 0, true);
      RecordOffsets(file[..p + 1], 0, false);
      RecordOffsets(file[p + 1..], p + 1, true);
      assert file[start..][i + 1..] == file[p + 1..];
      var early := Records(file[..p + 1], 0, false);
      forall k | 0 <= k < |early|
        ensures early[k].offset <= start
      {
        RecordsBeginLines(file[..p + 1], 0, false, k);
      }
      BeyondSplit(Records(file[..p + 1], 0, false), Records(file[p + 1..], p + 1, true), start);
  }

  lemma {:induction false} WindowStops(file: seq<Byte>, end: nat, limit: nat, maxBytes: nat, start: nat)
    requires start <= end <= |file| && end - start <= maxBytes
    ensures var s := WindowStart(file, end, limit, maxBytes, start);
            && end - s <= maxBytes
            && (s == 0 || Newlines(file[s..end]) > limit || end - s == maxBytes)
    decreases start
  {
    if start > 0 && Newlines(file[start..end]) <= limit && end - start < maxBytes {
      WindowStops(file, end, limit, maxBytes, start - ChunkLength(start, end - start, maxBytes));
    }
  }

  // ----- logs without blank lines -----

  lemma NoBlanksAt(bytes: seq<Byte>, f: nat)
    requires f < |bytes| && bytes[f] == LF && NoNewline(bytes, 0, f)
    ensures NoBlanks(bytes) <==> Strip(bytes[..f]) != [] && NoBlanks(bytes[f + 1..])
  {
    hide Strip;
    NewlineAt(bytes, f);
  }

  lemma NoBlanksEmpty()
    ensures NoBlanks([])
  {
  }

  /** Cutting after a newline leaves no blank line on either side. */
  lemma {:induction false} NoBlanksSplit(bytes: seq<Byte>, i: nat)
    requires i < |bytes| && bytes[i] == LF && NoBlanks(bytes)
    ensures NoBlanks(bytes[..i + 1]) && NoBlanks(bytes[i + 1..])
    decreases |bytes|
  {
    hide NoBlanks; hide Strip; hide Newline;
    NewlineIsFirst(bytes);
    var f := Newline(bytes).value;
    NoBlanksAt(bytes, f);
    SlicesAt(bytes, f, i);
    if f < i {
      NoBlanksSplit(bytes[f + 1..], i - f - 1);
    } else {
      assert bytes[..i + 1][f + 1..] == [];
      NoBlanksEmpty();
    }
    NoBlanksAt(bytes[..i + 1], f);
  }

  lemma {:induction false} NewlinesAt(bytes: seq<Byte>, f: nat)
    requires f < |bytes| && bytes[f] == LF && NoNewline(bytes, 0, f)
    ensures Newlines(bytes) == 1 + Newlines(bytes[f + 1..])
  {
    if f > 0 {
      assert forall k :: 0 <= k < f ==> bytes[1..][k] == bytes[k + 1];
      NewlinesAt(bytes[1..], f - 1);
      assert bytes[1..][f..] == bytes[f + 1..];
    }
  }

  lemma {:induction false} NoNewlines(bytes: seq<Byte>)
    requires NoNewline(bytes, 0, |bytes|)
    ensures Newlines(bytes) == 0
  {
    if bytes != [] {
      assert forall k :: 0 <= k < |bytes| - 1 ==> bytes[1..][k] == bytes[k + 1];
      NoNewlines(bytes[1..]);
    }
  }

  lemma EntryOfLine(offset: nat, line: seq<Byte>)
    requires Strip(line) != []
    ensures |Entry(offset, line)| == 1
  {
  }

  lemma {:induction false} RecordsCount(bytes: seq<Byte>, base: nat, tail: bool)
    requires NoBlanks(bytes)
    ensures |Records(bytes, base, tail)| >= Newlines(bytes)
    decreases |bytes|
  {
    hide NoBlanks; hide Strip; hide Newline; hide Newlines; hide Records; hide Entry;
    NewlineIsFirst(bytes);
    match Newline(bytes)
    case None => NoNewlines(bytes);
    case Some(f) =>
      NoBlanksAt(bytes, f);
      NewlinesAt(bytes, f);
      UnfoldRecords(bytes, f, base, tail);
      EntryOfLine(base, bytes[..f]);
      RecordsCount(bytes[f + 1..], base + f + 1, tail);
  }

  /** The records a page may show: those that begin within the byte bound of the end. */
  function Reachable(records: seq<Record>, end: nat, maxBytes: nat): seq<Record> {
    if end <= maxBytes then records else Beyond(records, end - maxBytes)
  }

  lemma {:induction false} BeyondIsSuffix(records: seq<Record>, offset: nat)
    ensures |Beyond(records, offset)| <= |records|
    ensures Beyond(records, offset) == records[|records| - |Beyond(records, offset)|..]
  {
    if records != [] && records[0].offset <= offset {
      BeyondIsSuffix(records[1..], offset);
      var k := |Beyond(records, offset)|;
      assert records[1..][|records| - 1 - k..] == records[|records| - k..];
    }
  }

  lemma {:induction false} BeyondGrows(records: seq<Record>, near: nat, far: nat)
    requires far <= near
    ensures |Beyond(records, near)| <= |Beyond(records, far)|
  {
    if records != [] {
      if records[0].offset <= far { BeyondGrows(records[1..], near, far); }
      BeyondIsSuffix(records, near);
    }
  }

  lemma LastOfSuffix(records: seq<Record>, from: nat, limit: nat)
    requires from <= |records| && limit <= |records| - from
    ensures Last(records[from..], limit) == Last(records, limit)
  {
  }

  /** Without blank lines a buffer with enough newlines holds enough records, and one that does not
      begin the file leaves earlier records out. */
  lemma BufferedCount(file: seq<Byte>, start: nat)
    requires NoBlanks(file) && 0 < start <= |file|
    ensures var buffered := BufferedRecords(file[start..], start, |file|);
            && |buffered| + 1 >= Newlines(file[start..])
            && (buffered != [] ==> |buffered| < |AllRecords(file)|)
  {
    hide NoBlanks; hide Newline; hide Newlines; hide Records;
    match Newline(file[start..])
    case None =>
      NoNewlineFrom(file, start);
      assert NoNewline(file[start..], 0, |file[start..]|);
      NoNewlines(file[start..]);
    case Some(i) =>
      var p := start + i;
      FirstNewlineFrom(file, start, p);
      assert NoNewline(file[start..], 0, i);
      NewlinesAt(file[start..], i);
      assert file[start..][i + 1..] == file[p + 1..];
      NoBlanksSplit(file, p);
      RecordsSplit(file, p, 0, true);
      RecordsCount(file[p + 1..], p + 1, true);
      RecordsCount(file[..p + 1], 0, false);
      SomeNewline(file[..p + 1], p);
  }

  lemma {:induction false} SomeNewline(bytes: seq<Byte>, i: nat)
    requires i < |bytes| && bytes[i] == LF
    ensures Newlines(bytes) >= 1
  {
    if i > 0 { SomeNewline(bytes[1..], i - 1); }
  }

  lemma PrefixWindow(file: seq<Byte>, start: nat, end: nat)
    requires start <= end <= |file|
    ensures file[..end][start..] == file[start..end]
  {
  }

  /** A suffix with enough records has the same last ones as everything within the byte bound. */
  lemma EnoughSuffices(all: seq<Record>, end: nat, limit: nat, maxBytes: nat, start: nat)
    requires end <= maxBytes || end - maxBytes <= start
    requires |Beyond(all, start)| >= limit
    ensures Last(Beyond(all, start), limit) == Last(Reachable(all, end, maxBytes), limit)
  {
    hide Beyond;
    BeyondIsSuffix(all, start);
    LastOfSuffix(all, |all| - |Beyond(all, start)|, limit);
    if end > maxBytes {
      BeyondIsSuffix(all, end - maxBytes);
      BeyondGrows(all, start, end - maxBytes);
      LastOfSuffix(all, |all| - |Beyond(all, end - maxBytes)|, limit);
    }
  }

  /** The buffer read for a page yields the same last records as everything within the byte bound. */
  lemma WindowSuffices(file: seq<Byte>, end: nat, limit: nat, maxBytes: nat, start: nat)
    requires start <= end <= |file| && end - start <= maxBytes && limit >= 1 && NoBlanks(file[..end])
    requires start == 0 || Newlines(file[start..end]) > limit || end - start == maxBytes
    ensures var all, buffered := AllRecords(file[..end]), BufferedRecords(file[start..end], start, end);
            && Last(buffered, limit) == Last(Reachable(all, end, maxBytes), limit)
            && |buffered| <= |all|
            && (buffered != [] ==> (start > 0 <==> |buffered| < |all|))
            && (start == 0 ==> buffered == all)
  {
    hide NoBlanks; hide Newline; hide Newlines; hide Records; hide Beyond; hide AllRecords; hide BufferedRecords; hide Last;
    var all := AllRecords(file[..end]);
    if start == 0 {
      assert file[0..end] == file[..end];
      FromTheBeginning(file[..end]);
    } else {
      PrefixWindow(file, start, end);
      BufferedIsSuffix(file[..end], start);
      BufferedCount(file[..end], start);
      BeyondIsSuffix(all, start);
      if end - start != maxBytes { EnoughSuffices(all, end, limit, maxBytes, start); }
    }
  }

  lemma FromTheBeginning(file: seq<Byte>)
    ensures BufferedRecords(file, 0, |file|) == AllRecords(file)
  {
  }

  /** Without blank lines a page is the last records within the byte bound, at most `limit` of them,
      and says that there is more exactly when there is, unless it is empty. */
  lemma PageIsLastRecords(file: seq<Byte>, limit: int, before: Option<int>, maxBytes: Option<int>)
    requires NoBlanks(file[..FileEnd(|file|, before)])
    ensures var end := FileEnd(|file|, before);
            var all, page := AllRecords(file[..end]), PageOf(file, limit, before, maxBytes);
            && page.lines == Last(Reachable(all, end, ByteBound(maxBytes)), Max(1, limit))
            && |page.lines| <= |all| && page.lines == all[|all| - |page.lines|..]
            && (page.hasMore <==> page.lines != [] && |page.lines| < |all|)
            && page.before == if page.hasMore then Some(page.lines[0].offset) else None
  {
    hide NoBlanks; hide Newline; hide Newlines; hide Records; hide Beyond; hide AllRecords; hide BufferedRecords;
    var end, bound := FileEnd(|file|, before), ByteBound(maxBytes);
    var all := AllRecords(file[..end]);
    WindowStops(file, end, Max(1, limit), bound, end);
    WindowSuffices(file, end, Max(1, limit), bound, WindowStart(file, end, Max(1, limit), bound, end));
    if end > bound { BeyondIsSuffix(all, end - bound); }
  }

  lemma {:induction false} BeyondEmpty(records: seq<Record>, offset: nat)
    requires records != [] && Ordered(records, 0, records[|records| - 1].offset + 1)
    ensures Beyond(records, offset) == [] <==> records[|records| - 1].offset <= offset
  {
    if |records| > 1 {
      if records[0].offset <= offset { BeyondEmpty(records[1..], offset); }
    }
  }

  /** A page is empty although there are records exactly when the last of them begins too far from the
      end: paging then stops with everything before it unseen. */
  lemma LongLineEndsPaging(file: seq<Byte>, limit: int, before: Option<int>, maxBytes: Option<int>)
    requires NoBlanks(file[..FileEnd(|file|, before)]) && AllRecords(file[..FileEnd(|file|, before)]) != []
    ensures var end, bound := FileEnd(|file|, before), ByteBound(maxBytes);
            var all, page := AllRecords(file[..end]), PageOf(file, limit, before, maxBytes);
            page == Page([], false, None) <==> end - all[|all| - 1].offset >= bound && end > bound
  {
    hide NoBlanks; hide Newline; hide Newlines; hide Records; hide Beyond; hide PageOf;
    var end, bound := FileEnd(|file|, before), ByteBound(maxBytes);
    PageIsLastRecords(file, limit, before, maxBytes);
    RecordOffsets(file[..end], 0, true);
    if end > bound { BeyondEmpty(AllRecords(file[..end]), end - bound); }
  }

  // ----- any log, blank lines included -----

  /** Where the buffer of a page begins. */
  function ReadFrom(file: seq<Byte>, limit: int, before: Option<int>, maxBytes: Option<int>): nat {
    var end := FileEnd(|file|, before);
    WindowStart(file, end, Max(1, limit), ByteBound(maxBytes), end)
  }

  /** The buffer of a page begins behind the beginning of the last record. */
  predicate Stuck(file: seq<Byte>, limit: int, before: Option<int>, maxBytes: Option<int>) {
    var all, start := AllRecords(file[..FileEnd(|file|, before)]), ReadFrom(file, limit, before, maxBytes);
    all != [] && start > 0 && all[|all| - 1].offset <= start
  }

  /** What a page reads is the records beyond the beginning of its buffer. */
  lemma WindowRecords(file: seq<Byte>, end: nat, start: nat)
    requires start <= end <= |file|
    ensures BufferedRecords(file[start..end], start, end)
         == if start == 0 then AllRecords(file[..end]) else Beyond(AllRecords(file[..end]), start)
  {
    hide BufferedRecords; hide AllRecords; hide Beyond;
    PrefixWindow(file, start, end);
    assert |file[..end]| == end;
    if start == 0 {
      assert file[0..end] == file[..end];
      FromTheBeginning(file[..end]);
    } else {
      BufferedIsSuffix(file[..end], start);
    }
  }

  /** Whatever the log, a page is its last records, and says that there is more unless it is empty or
      the whole log was read and shown. */
  lemma PageIsSuffix(file: seq<Byte>, limit: int, before: Option<int>, maxBytes: Option<int>)
    ensures var all, page := AllRecords(file[..FileEnd(|file|, before)]), PageOf(file, limit, before, maxBytes);
            && |page.lines| <= |all| && page.lines == all[|all| - |page.lines|..]
            && (page.hasMore <==> page.lines != [] && (|page.lines| < |all| || ReadFrom(file, limit, before, maxBytes) > 0))
            && page.before == if page.hasMore then Some(page.lines[0].offset) else None
  {
    hide BufferedRecords; hide AllRecords; hide Beyond;
    var end, start := FileEnd(|file|, before), ReadFrom(file, limit, before, maxBytes);
    WindowRecords(file, end, start);
    BeyondIsSuffix(AllRecords(file[..end]), start);
  }

  lemma SuffixMembers(all: seq<Record>, n: nat, to: nat, r: Record)
    requires Ordered(all, 0, to) && n <= |all|
    ensures var last := all[|all| - n..];
            Ordered(last, 0, to) && (r in last <==> r in all && last != [] && last[0].offset <= r.offset)
  {
    var last := all[|all| - n..];
    if r in all && last != [] && last[0].offset <= r.offset {
      var k :| 0 <= k < |all| && all[k] == r;
      assert k >= |all| - n;
      assert r == last[k - (|all| - n)];
    }
    if r in last {
      var k :| 0 <= k < |last| && last[k] == r;
      assert r == all[|all| - n + k];
    }
  }

  /** So a page holds exactly the lines, byte for byte and where they stand, from its first one to the end. */
  lemma PageHoldsLines(file: seq<Byte>, limit: int, before: Option<int>, maxBytes: Option<int>, r: Record)
    ensures var cut, lines := file[..FileEnd(|file|, before)], PageOf(file, limit, before, maxBytes).lines;
            && Ordered(lines, 0, |cut|)
            && (r in lines <==> IsRecord(cut, 0, true, r) && lines != [] && lines[0].offset <= r.offset)
  {
    hide PageOf; hide Records; hide IsRecord; hide Ordered;
    var cut, lines := file[..FileEnd(|file|, before)], PageOf(file, limit, before, maxBytes).lines;
    PageIsSuffix(file, limit, before, maxBytes);
    RecordsAreLines(cut, 0, true, 0, r);
    assert cut[0..] == cut;
    RecordOffsets(cut, 0, true);
    SuffixMembers(AllRecords(cut), |lines|, |cut|, r);
  }

  /** A page is empty although there are records exactly when its buffer begins at or behind the
      beginning of the last of them; it then claims to be the first page of the log. */
  lemma EmptyPageExactly(file: seq<Byte>, limit: int, before: Option<int>, maxBytes: Option<int>)
    ensures AllRecords(file[..FileEnd(|file|, before)]) != [] && PageOf(file, limit, before, maxBytes) == Page([], false, None)
       <==> Stuck(file, limit, before, maxBytes)
  {
    hide BufferedRecords; hide Records; hide Beyond; hide WindowStart;
    var end, start := FileEnd(|file|, before), ReadFrom(file, limit, before, maxBytes);
    WindowRecords(file, end, start);
    RecordOffsets(file[..end], 0, true);
    if AllRecords(file[..end]) != [] { BeyondEmpty(AllRecords(file[..end]), start); }
  }

  // ----- following the pages -----

  /** The next page ends strictly before this one. */
  lemma BeforeDecreases(file: seq<Byte>, limit: int, before: Option<int>, maxBytes: Option<int>)
    requires PageOf(file, limit, before, maxBytes).hasMore
    ensures PageOf(file, limit, before, maxBytes).before.Some?
    ensures PageOf(file, limit, before, maxBytes).before.value < FileEnd(|file|, before)
  {
    hide Newlines; hide Records;
    var end := FileEnd(|file|, before);
    var start := WindowStart(file, end, Max(1, limit), ByteBound(maxBytes), end);
    var buffer := file[start..end];
    if start == 0 {
      RecordOffsets(buffer, 0, true);
    } else if Newline(buffer).Some? {
      RecordOffsets(buffer[Newline(buffer).value + 1..], start + Newline(buffer).value + 1, true);
    }
  }

  /** What a client collects that follows `before` until there is no more. */
  function Follow(file: seq<Byte>, limit: int, before: Option<int>, maxBytes: Option<int>): seq<Record>
    decreases FileEnd(|file|, before)
  {
    var page := PageOf(file, limit, before, maxBytes);
    if page.hasMore then
      BeforeDecreases(file, limit, before, maxBytes);
      Follow(file, limit, Some(page.before.value), maxBytes) + page.lines
    else page.lines
  }

  function NextOffset(records: seq<Record>, end: nat, i: nat): nat {
    if i + 1 < |records| then records[i + 1].offset else end
  }

  /** Every line, with its newline, is shorter than the byte bound of a page; the first line of the file
      may be as long as the bound. */
  predicate LinesFit(records: seq<Record>, end: nat, bound: nat) {
    forall i :: 0 <= i < |records| ==> LineFits(records, end, bound, i)
  }

  predicate LineFits(records: seq<Record>, end: nat, bound: nat, i: nat)
    requires i < |records|
  {
    var length := NextOffset(records, end, i) - records[i].offset;
    length < bound || (length == bound && records[i].offset == 0)
  }

  lemma CutAt(early: seq<Record>, late: seq<Record>, k: nat, o: nat)
    requires k < |early| + |late| && (early + late)[k].offset == o && (k == 0 || (early + late)[k - 1].offset < o)
    requires forall i :: 0 <= i < |early| ==> early[i].offset < o
    requires forall i :: 0 <= i < |late| ==> late[i].offset >= o
    ensures |early| == k
  {
    var all := early + late;
    assert forall i :: 0 <= i < |early| ==> all[i].offset < o;
    assert forall i :: |early| <= i < |all| ==> all[i].offset >= o;
    assert all[k].offset == o && (k > 0 ==> all[k - 1].offset < o);
  }

  /** The lines of a page fit, so whether all lines do is up to the earlier ones. */
  lemma EarlierFit(records: seq<Record>, end: nat, bound: nat, k: nat)
    requires Ordered(records, 0, end + 1) && k < |records|
    requires end <= bound || end - bound < records[k].offset
    ensures LinesFit(records, end, bound) <==> LinesFit(records[..k], records[k].offset, bound)
  {
    forall i | 0 <= i < k
      ensures LineFits(records, end, bound, i) <==> LineFits(records[..k], records[k].offset, bound, i)
    {
      assert NextOffset(records[..k], records[k].offset, i) == NextOffset(records, end, i);
    }
    forall i | k <= i < |records|
      ensures LineFits(records, end, bound, i)
    {
      assert NextOffset(records, end, i) <= end && records[k].offset <= records[i].offset;
    }
  }

  lemma SamePrefix(a: seq<Record>, b: seq<Record>, c: seq<Record>)
    ensures a + c == b + c <==> a == b
  {
    if a + c == b + c {
      assert a == (a + c)[..|a|];
      assert b == (b + c)[..|b|];
    }
  }

  /** What comes before a record is a log of the earlier records. */
  lemma EarlierRecords(file: seq<Byte>, k: nat)
    requires k < |AllRecords(file)| && AllRecords(file)[k].offset > 0
    ensures var o := AllRecords(file)[k].offset;
            o <= |file| && AllRecords(file[..o]) == AllRecords(file)[..k] && (NoBlanks(file) ==> NoBlanks(file[..o]))
  {
    hide NoBlanks; hide Newline; hide Records;
    var all := AllRecords(file);
    RecordOffsets(file, 0, true);
    RecordsBeginLines(file, 0, true, k);
    var o := all[k].offset;
    RecordsSplit(file, o - 1, 0, true);
    var early, late := Records(file[..o], 0, false), Records(file[o..], o, true);
    RecordOffsets(file[..o], 0, false);
    RecordOffsets(file[o..], o, true);
    assert all == early + late;
    CutAt(early, late, k, o);
    assert all[..k] == early;
    if NoBlanks(file) { NoBlanksSplit(file, o - 1); }
    TailAfterNewline(file[..o]);
  }

  lemma {:induction false} TailAfterNewline(bytes: seq<Byte>)
    requires bytes != [] && bytes[|bytes| - 1] == LF
    ensures Records(bytes, 0, true) == Records(bytes, 0, false)
  {
    hide Records;
    RecordsSplit(bytes, |bytes| - 1, 0, true);
    RecordsSplit(bytes, |bytes| - 1, 0, false);
    assert bytes[|bytes|..] == [];
    NoRecords(|bytes|, true);
    NoRecords(|bytes|, false);
  }

  /** The page before a page with records holds the records before those. */
  lemma TurnPage(file: seq<Byte>, limit: int, before: Option<int>, maxBytes: Option<int>) returns (k: nat, o: nat)
    requires PageOf(file, limit, before, maxBytes).hasMore
    ensures var all, page := AllRecords(file[..FileEnd(|file|, before)]), PageOf(file, limit, before, maxBytes);
            && k < |all| && all == all[..k] + page.lines && page.lines[0] == all[k] && o == all[k].offset
            && page.before == Some(o) && FileEnd(|file|, Some(o)) == o < FileEnd(|file|, before)
            && AllRecords(file[..o]) == all[..k] && (NoBlanks(file[..FileEnd(|file|, before)]) ==> NoBlanks(file[..o]))
  {
    hide NoBlanks; hide Newline; hide Records; hide PageOf; hide Beyond; hide AllRecords;
    var end := FileEnd(|file|, before);
    var all, page := AllRecords(file[..end]), PageOf(file, limit, before, maxBytes);
    PageIsSuffix(file, limit, before, maxBytes);
    BeforeDecreases(file, limit, before, maxBytes);
    k, o := |all| - |page.lines|, page.before.value;
    LaterBegin(file, limit, before, maxBytes);
    EarlierRecords(file[..end], k);
    assert file[..end][..o] == file[..o];
  }

  /** A page that has more does not begin at the beginning of the file. */
  lemma LaterBegin(file: seq<Byte>, limit: int, before: Option<int>, maxBytes: Option<int>)
    requires PageOf(file, limit, before, maxBytes).hasMore
    ensures var page := PageOf(file, limit, before, maxBytes); page.before.Some? && page.before.value > 0
  {
    hide BufferedRecords; hide Records; hide WindowStart;
    var end, start := FileEnd(|file|, before), ReadFrom(file, limit, before, maxBytes);
    var all := AllRecords(file[..end]);
    RecordOffsets(file[..end], 0, true);
    WindowRecords(file, end, start);
    PageIsSuffix(file, limit, before, maxBytes);
    if start > 0 {
      BeyondStart(all, start);
      BeyondIsSuffix(all, start);
    }
    var k := |all| - |PageOf(file, limit, before, maxBytes).lines|;
    assert PageOf(file, limit, before, maxBytes).lines[0] == all[k];
  }

  lemma {:induction false} BeyondStart(records: seq<Record>, offset: nat)
    requires Beyond(records, offset) != []
    ensures Beyond(records, offset)[0].offset > offset
  {
    if records[0].offset <= offset { BeyondStart(records[1..], offset); }
  }

  /** Where the last page that is followed ends. */
  function LastEnd(file: seq<Byte>, limit: int, before: Option<int>, maxBytes: Option<int>): nat
    decreases FileEnd(|file|, before)
  {
    var page := PageOf(file, limit, before, maxBytes);
    if page.hasMore then
      BeforeDecreases(file, limit, before, maxBytes);
      LastEnd(file, limit, Some(page.before.value), maxBytes)
    else FileEnd(|file|, before)
  }

  /** The records a client that follows the pages never sees. */
  function Missed(file: seq<Byte>, limit: int, before: Option<int>, maxBytes: Option<int>): seq<Record> {
    var end := LastEnd(file, limit, before, maxBytes);
    if end <= |file| && Stuck(file, limit, Some(end), maxBytes) then AllRecords(file[..end]) else []
  }

  lemma AppendTwice(a: seq<Record>, b: seq<Record>, c: seq<Record>)
    ensures a + (b + c) == a + b + c
  {
  }

  lemma FollowTurns(file: seq<Byte>, limit: int, before: Option<int>, maxBytes: Option<int>, o: nat)
    requires var page := PageOf(file, limit, before, maxBytes); page.hasMore && page.before == Some(o)
    ensures Follow(file, limit, before, maxBytes)
         == Follow(file, limit, Some(o), maxBytes) + PageOf(file, limit, before, maxBytes).lines
    ensures LastEnd(file, limit, before, maxBytes) == LastEnd(file, limit, Some(o), maxBytes)
    ensures Missed(file, limit, before, maxBytes) == Missed(file, limit, Some(o), maxBytes)
  {
    hide PageOf; hide AllRecords; hide ReadFrom; hide Stuck;
  }

  lemma {:induction false} FollowingMisses(file: seq<Byte>, limit: int, before: Option<int>, maxBytes: Option<int>)
    ensures LastEnd(file, limit, before, maxBytes) <= FileEnd(|file|, before)
    ensures AllRecords(file[..FileEnd(|file|, before)]) == Missed(file, limit, before, maxBytes) + Follow(file, limit, before, maxBytes)
    decreases FileEnd(|file|, before)
  {
    hide Newline; hide Records; hide PageOf; hide Beyond; hide AllRecords; hide ReadFrom; hide Stuck; hide Missed;
    if PageOf(file, limit, before, maxBytes).hasMore {
      var k, o := TurnPage(file, limit, before, maxBytes);
      FollowingMisses(file, limit, Some(o), maxBytes);
      FollowTurns(file, limit, before, maxBytes, o);
      var page := PageOf(file, limit, before, maxBytes);
      AppendTwice(Missed(file, limit, before, maxBytes), Follow(file, limit, Some(o), maxBytes), page.lines);
    } else {
      LastPageMisses(file, limit, before, maxBytes);
      assert LastEnd(file, limit, before, maxBytes) == FileEnd(|file|, before);
    }
  }

  lemma LastPageMisses(file: seq<Byte>, limit: int, before: Option<int>, maxBytes: Option<int>)
    requires !PageOf(file, limit, before, maxBytes).hasMore
    ensures AllRecords(file[..FileEnd(|file|, before)]) == Missed(file, limit, before, maxBytes) + PageOf(file, limit, before, maxBytes).lines
  {
    hide Newline; hide Records; hide PageOf; hide Beyond; hide AllRecords; hide ReadFrom;
    var all, page := AllRecords(file[..FileEnd(|file|, before)]), PageOf(file, limit, before, maxBytes);
    SameEnd(file, limit, before, maxBytes);
    PageIsSuffix(file, limit, before, maxBytes);
    EmptyPageExactly(file, limit, before, maxBytes);
    assert page.lines == [] ==> page == Page([], false, None);
    assert all[0..] == all;
  }

  /** Whatever the log, blank lines included, following the pages yields its last records once each and in
      order. They are all of them if and only if the last page was not stuck; what is missing otherwise
      is everything before the end of that page. */
  lemma FollowingStopsExactly(file: seq<Byte>, limit: int, before: Option<int>, maxBytes: Option<int>)
    ensures var all, end := AllRecords(file[..FileEnd(|file|, before)]), LastEnd(file, limit, before, maxBytes);
            && end <= FileEnd(|file|, before)
            && (if Stuck(file, limit, Some(end), maxBytes) then all == AllRecords(file[..end]) + Follow(file, limit, before, maxBytes)
                else all == Follow(file, limit, before, maxBytes))
            && (all == Follow(file, limit, before, maxBytes) <==> !Stuck(file, limit, Some(end), maxBytes))
  {
    hide Follow; hide LastEnd; hide AllRecords; hide ReadFrom;
    FollowingMisses(file, limit, before, maxBytes);
    var end := LastEnd(file, limit, before, maxBytes);
    assert FileEnd(|file|, Some(end)) == end;
  }

  lemma SameEnd(file: seq<Byte>, limit: int, before: Option<int>, maxBytes: Option<int>)
    ensures Stuck(file, limit, Some(FileEnd(|file|, before)), maxBytes) == Stuck(file, limit, before, maxBytes)
  {
    assert FileEnd(|file|, Some(FileEnd(|file|, before))) == FileEnd(|file|, before);
  }

  /** Without blank lines the pages followed to the end, put together, are all the records of the log,
      once each and in order, if and only if every line fits the byte bound. */
  lemma {:induction false} FollowingIsComplete(file: seq<Byte>, limit: int, before: Option<int>, maxBytes: Option<int>)
    requires NoBlanks(file[..FileEnd(|file|, before)])
    ensures var end := FileEnd(|file|, before);
            var all := AllRecords(file[..end]);
            Follow(file, limit, before, maxBytes) == all <==> LinesFit(all, end, ByteBound(maxBytes))
    decreases FileEnd(|file|, before)
  {
    hide NoBlanks; hide Newline; hide Records; hide PageOf; hide Beyond; hide AllRecords; hide LinesFit;
    var end, bound := FileEnd(|file|, before), ByteBound(maxBytes);
    var all, page := AllRecords(file[..end]), PageOf(file, limit, before, maxBytes);
    PageIsLastRecords(file, limit, before, maxBytes);
    AllOrdered(file[..end]);
    if page.lines == [] {
      NothingFollows(file, limit, before, maxBytes);
    } else {
      var k := |all| - |page.lines|;
      PageWithinBound(all, end, bound, Max(1, limit));
      EarlierFit(all, end, bound, k);
      if page.hasMore {
        var j, o := TurnPage(file, limit, before, maxBytes);
        FollowingIsComplete(file, limit, Some(o), maxBytes);
        SamePrefix(Follow(file, limit, Some(o), maxBytes), all[..k], page.lines);
      } else {
        assert all[0..] == all;
        NothingFits(all[k].offset, bound);
      }
    }
  }

  lemma AllOrdered(file: seq<Byte>)
    ensures Ordered(AllRecords(file), 0, |file| + 1)
  {
    RecordOffsets(file, 0, true);
  }

  lemma NothingFits(end: nat, bound: nat)
    ensures LinesFit([], end, bound)
  {
  }

  /** An empty page is right only when there are no records; otherwise the last line is too long. */
  lemma NothingFollows(file: seq<Byte>, limit: int, before: Option<int>, maxBytes: Option<int>)
    requires NoBlanks(file[..FileEnd(|file|, before)]) && PageOf(file, limit, before, maxBytes).lines == []
    ensures var end := FileEnd(|file|, before);
            var all := AllRecords(file[..end]);
            && Follow(file, limit, before, maxBytes) == []
            && (all == [] <==> LinesFit(all, end, ByteBound(maxBytes)))
  {
    hide NoBlanks; hide Newline; hide Records; hide PageOf; hide Beyond; hide AllRecords;
    var end, bound := FileEnd(|file|, before), ByteBound(maxBytes);
    var all := AllRecords(file[..end]);
    PageIsLastRecords(file, limit, before, maxBytes);
    if all != [] {
      LongLineEndsPaging(file, limit, before, maxBytes);
      assert !LineFits(all, end, bound, |all| - 1);
    }
  }

  /** What a page shows begins within the byte bound of its end. */
  lemma PageWithinBound(all: seq<Record>, end: nat, bound: nat, limit: nat)
    requires Ordered(all, 0, end + 1) && Last(Reachable(all, end, bound), limit) != []
    ensures var shown := Last(Reachable(all, end, bound), limit);
            end <= bound || end - bound < shown[0].offset
  {
    hide Beyond;
    if end > bound {
      var beyond := Beyond(all, end - bound);
      BeyondStart(all, end - bound);
      BeyondIsSuffix(all, end - bound);
      assert forall i :: 0 <= i < |beyond| ==> beyond[i] == all[|all| - |beyond| + i];
    }
  }

  // ----- where reading stops, from the file alone -----

  /** The beginnings a buffer can have: chunks back from the end, as far as the byte bound. */
  function Boundary(end: nat, bound: nat, k: nat): (s: nat)
    ensures s <= end && end - s <= bound
  {
    var back := Min(k * READ_CHUNK_BYTES, bound);
    if end <= back then 0 else end - back
  }

  /** Reading stops at a boundary behind which there are more newlines than lines wanted, or which is as far
      back as the byte bound. */
  predicate StopsAt(file: seq<Byte>, end: nat, limit: nat, bound: nat, k: nat)
    requires end <= |file|
  {
    var s := Boundary(end, bound, k);
    s == 0 || Newlines(file[s..end]) > limit || end - s == bound
  }

  lemma NextBoundary(end: nat, bound: nat, k: nat)
    requires Boundary(end, bound, k) > 0 && end - Boundary(end, bound, k) < bound
    ensures var s := Boundary(end, bound, k);
            s - ChunkLength(s, end - s, bound) == Boundary(end, bound, k + 1) < s
  {
  }

  lemma BoundariesGoBack(end: nat, bound: nat, j: nat, k: nat)
    requires j <= k
    ensures Boundary(end, bound, k) <= Boundary(end, bound, j)
  {
    assert j * READ_CHUNK_BYTES <= k * READ_CHUNK_BYTES;
  }

  /** From one boundary on, reading stops at the first boundary where it may. */
  lemma {:induction false} WindowFrom(file: seq<Byte>, end: nat, limit: nat, bound: nat, k: nat) returns (j: nat)
    requires end <= |file| && bound >= 1
    ensures k <= j && StopsAt(file, end, limit, bound, j)
    ensures WindowStart(file, end, limit, bound, Boundary(end, bound, k)) == Boundary(end, bound, j)
    ensures forall i :: k <= i < j ==> !StopsAt(file, end, limit, bound, i)
    decreases Boundary(end, bound, k)
  {
    hide Newlines; hide ChunkLength; hide Boundary; hide WindowStart;
    WindowUnfolds(file, end, limit, bound, Boundary(end, bound, k));
    if StopsAt(file, end, limit, bound, k) {
      j := k;
    } else {
      NextBoundary(end, bound, k);
      j := WindowFrom(file, end, limit, bound, k + 1);
    }
  }

  /** The buffer of a page begins at the first boundary where reading may stop. */
  lemma ReadFromFirstStop(file: seq<Byte>, limit: int, before: Option<int>, maxBytes: Option<int>) returns (j: nat)
    ensures var end, bound := FileEnd(|file|, before), ByteBound(maxBytes);
            && ReadFrom(file, limit, before, maxBytes) == Boundary(end, bound, j) && StopsAt(file, end, Max(1, limit), bound, j)
            && forall i :: 0 <= i < j ==> !StopsAt(file, end, Max(1, limit), bound, i)
  {
    hide Newlines; hide WindowStart;
    var end, bound := FileEnd(|file|, before), ByteBound(maxBytes);
    assert Boundary(end, bound, 0) == end;
    j := WindowFrom(file, end, Max(1, limit), bound, 0);
  }

  /** Reading may stop at or behind the beginning of the last record, short of the beginning of the file. */
  predicate StopsBehind(file: seq<Byte>, end: nat, limit: nat, bound: nat, offset: nat, k: nat)
    requires end <= |file|
  {
    offset <= Boundary(end, bound, k) && 0 < Boundary(end, bound, k) && StopsAt(file, end, limit, bound, k)
  }

  ghost predicate SomeStopBehind(file: seq<Byte>, end: nat, limit: nat, bound: nat, offset: nat)
    requires end <= |file|
  {
    exists k: nat :: StopsBehind(file, end, limit, bound, offset, k)
  }

  /** A page is stuck exactly when there is a chunk boundary at or behind the beginning of the last record with
      more newlines behind it than lines are wanted, or as far back as the byte bound. */
  lemma StuckExactly(file: seq<Byte>, limit: int, before: Option<int>, maxBytes: Option<int>)
    ensures var end := FileEnd(|file|, before);
            var all := AllRecords(file[..end]);
            Stuck(file, limit, before, maxBytes) <==>
              all != [] && SomeStopBehind(file, end, Max(1, limit), ByteBound(maxBytes), all[|all| - 1].offset)
  {
    hide Newlines; hide AllRecords; hide ReadFrom; hide Boundary; hide StopsAt;
    var end, bound, wanted := FileEnd(|file|, before), ByteBound(maxBytes), Max(1, limit);
    var all := AllRecords(file[..end]);
    var j := ReadFromFirstStop(file, limit, before, maxBytes);
    if all != [] {
      var last := all[|all| - 1].offset;
      if Stuck(file, limit, before, maxBytes) { assert StopsBehind(file, end, wanted, bound, last, j); }
      forall k: nat | StopsBehind(file, end, wanted, bound, last, k)
        ensures Stuck(file, limit, before, maxBytes)
      {
        assert j <= k;
        BoundariesGoBack(end, bound, j, k);
      }
    }
  }

  // ----- logs whose blank lines do no harm -----

  /** The blank lines behind a record do no harm: with them it ends within one chunk, or within the byte bound
      and with no more newlines than lines are wanted. */
  predicate GapFits(file: seq<Byte>, offset: nat, next: nat, limit: nat, bound: nat)
    requires offset <= next <= |file|
  {
    || next - offset < Min(READ_CHUNK_BYTES, bound)
    || (next - offset < bound && Newlines(file[offset..next]) <= limit)
  }

  predicate GapsFit(file: seq<Byte>, records: seq<Record>, end: nat, limit: nat, bound: nat) {
    && end <= |file| && Ordered(records, 0, end + 1)
    && forall i :: 0 <= i < |records| ==> GapFits(file, records[i].offset, NextOffset(records, end, i), limit, bound)
  }

  lemma FewerNewlines(file: seq<Byte>, offset: nat, s: nat, end: nat)
    requires offset <= s <= end <= |file|
    ensures Newlines(file[s..end]) <= Newlines(file[offset..end])
  {
    assert file[offset..end] == file[offset..s] + file[s..end];
    NewlinesAppend(file[offset..s], file[s..end]);
  }

  /** Reading does not stop behind a record whose gap fits. */
  lemma NoStopBehind(file: seq<Byte>, offset: nat, end: nat, limit: nat, bound: nat, k: nat)
    requires offset <= end <= |file| && bound >= 1 && GapFits(file, offset, end, limit, bound)
    ensures !StopsBehind(file, end, limit, bound, offset, k)
  {
    hide Newlines;
    var s := Boundary(end, bound, k);
    if 0 < s && offset <= s {
      if Newlines(file[offset..end]) <= limit {
        FewerNewlines(file, offset, s, end);
      } else if k == 0 {
        assert file[end..end] == [];
        NoNewlines([]);
      } else {
        BoundariesGoBack(end, bound, 1, k);
      }
    }
  }

  lemma EarlierGapsFit(file: seq<Byte>, records: seq<Record>, end: nat, limit: nat, bound: nat, k: nat)
    requires GapsFit(file, records, end, limit, bound) && k < |records|
    ensures GapsFit(file, records[..k], records[k].offset, limit, bound)
  {
    hide GapFits;
    forall i | 0 <= i < k
      ensures NextOffset(records[..k], records[k].offset, i) == NextOffset(records, end, i)
    {
    }
  }

  lemma FittingIsNotStuck(file: seq<Byte>, limit: int, before: Option<int>, maxBytes: Option<int>)
    requires var end := FileEnd(|file|, before); GapsFit(file, AllRecords(file[..end]), end, Max(1, limit), ByteBound(maxBytes))
    ensures !Stuck(file, limit, before, maxBytes)
  {
    hide AllRecords; hide ReadFrom; hide GapFits; hide StopsBehind; hide Stuck;
    var end := FileEnd(|file|, before);
    var all := AllRecords(file[..end]);
    StuckExactly(file, limit, before, maxBytes);
    if all != [] {
      var last := |all| - 1;
      assert NextOffset(all, end, last) == end;
      assert GapFits(file, all[last].offset, end, Max(1, limit), ByteBound(maxBytes));
      forall k: nat
        ensures !StopsBehind(file, end, Max(1, limit), ByteBound(maxBytes), all[last].offset, k)
      {
        NoStopBehind(file, all[last].offset, end, Max(1, limit), ByteBound(maxBytes), k);
      }
    }
  }

  /** A log whose blank lines do no harm is paged completely, whatever the limit. */
  lemma {:induction false} HarmlessBlanks(file: seq<Byte>, limit: int, before: Option<int>, maxBytes: Option<int>)
    requires var end := FileEnd(|file|, before); GapsFit(file, AllRecords(file[..end]), end, Max(1, limit), ByteBound(maxBytes))
    ensures Follow(file, limit, before, maxBytes) == AllRecords(file[..FileEnd(|file|, before)])
    decreases FileEnd(|file|, before)
  {
    hide Newline; hide Records; hide PageOf; hide Beyond; hide AllRecords; hide ReadFrom; hide GapsFit; hide Stuck;
    var end := FileEnd(|file|, before);
    FittingIsNotStuck(file, limit, before, maxBytes);
    if PageOf(file, limit, before, maxBytes).hasMore {
      var k, o := TurnPage(file, limit, before, maxBytes);
      EarlierGapsFit(file, AllRecords(file[..end]), end, Max(1, limit), ByteBound(maxBytes), k);
      HarmlessBlanks(file, limit, Some(o), maxBytes);
    } else {
      LastPageMisses(file, limit, before, maxBytes);
      NotStuckMissesNothing(file, limit, before, maxBytes);
    }
  }

  lemma NotStuckMissesNothing(file: seq<Byte>, limit: int, before: Option<int>, maxBytes: Option<int>)
    requires !PageOf(file, limit, before, maxBytes).hasMore && !Stuck(file, limit, before, maxBytes)
    ensures Missed(file, limit, before, maxBytes) == []
  {
    hide PageOf; hide Stuck;
    SameEnd(file, limit, before, maxBytes);
  }

  // ----- logs with blank lines -----

  predicate AllNewlines(bytes: seq<Byte>) { forall k :: 0 <= k < |bytes| ==> bytes[k] == LF }

  lemma {:induction false} OnlyNewlines(bytes: seq<Byte>)
    requires AllNewlines(bytes)
    ensures Newlines(bytes) == |bytes|
  {
    if bytes != [] {
      assert forall k :: 0 <= k < |bytes| - 1 ==> bytes[1..][k] == bytes[k + 1];
      OnlyNewlines(bytes[1..]);
    }
  }

  lemma {:induction false} BlanksAreNoRecords(bytes: seq<Byte>, base: nat, tail: bool)
    requires AllNewlines(bytes)
    ensures Records(bytes, base, tail) == []
  {
    hide Records;
    if bytes == [] {
      NoRecords(base, tail);
    } else {
      UnfoldRecords(bytes, 0, base, tail);
      assert bytes[..0] == [];
      assert forall k :: 0 <= k < |bytes| - 1 ==> bytes[1..][k] == bytes[k + 1];
      BlanksAreNoRecords(bytes[1..], base + 1, tail);
    }
  }

  /** A log that ends in a chunk of blank lines is stuck there, whatever comes before. */
  lemma BlankTailEndsPaging(file: seq<Byte>, limit: int, maxBytes: Option<int>)
    requires limit < READ_CHUNK_BYTES <= ByteBound(maxBytes) && READ_CHUNK_BYTES < |file|
    requires AllNewlines(file[|file| - READ_CHUNK_BYTES..]) && AllRecords(file) != []
    ensures Stuck(file, limit, None, maxBytes) && PageOf(file, limit, None, maxBytes) == Page([], false, None)
  {
    hide Newlines; hide Records; hide WindowStart; hide Newline; hide PageOf;
    var end, bound, wanted := |file|, ByteBound(maxBytes), Max(1, limit);
    var start := end - READ_CHUNK_BYTES;
    assert file[..end] == file && file[start..end] == file[start..];
    OnlyNewlines(file[start..]);
    OnlyNewlines(file[end..end]);
    WindowUnfolds(file, end, wanted, bound, end);
    WindowUnfolds(file, end, wanted, bound, start);
    RecordsSplit(file, start, 0, true);
    BlanksAreNoRecords(file[start + 1..], start + 1, true);
    RecordOffsets(file[..start + 1], 0, false);
    EmptyPageExactly(file, limit, None, maxBytes);
  }
}
