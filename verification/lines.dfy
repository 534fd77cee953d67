/** Bytes, newline-terminated lines, and what decoding a line as UTF-8 does to its length. */
module Lines {
  import opened Common

  newtype Byte = b: int | 0 <= b < 256

  const LF: Byte := 10

  /** The position of the first newline. */
  function Newline(bytes: seq<Byte>): (i: Option<nat>)
    ensures i.Some? ==> i.value < |bytes|
  {
    if bytes == [] then None
    else if bytes[0] == LF then Some(0)
    else match Newline(bytes[1..]) case None => None case Some(i) => Some(i + 1)
  }

  /** The position of the last newline. */
  function LastNewline(bytes: seq<Byte>): (i: Option<nat>)
    ensures i.Some? ==> i.value < |bytes|
  {
    if bytes == [] then None
    else if bytes[|bytes| - 1] == LF then Some(|bytes| - 1)
    else LastNewline(bytes[..|bytes| - 1])
  }

  /** The newline-terminated lines of `bytes`, without their newlines. */
  function Split(bytes: seq<Byte>): seq<seq<Byte>> {
    match Newline(bytes)
    case None => []
    case Some(i) => [bytes[..i]] + Split(bytes[i + 1..])
  }

  /** What follows the last newline. */
  function Rest(bytes: seq<Byte>): seq<Byte> {
    match Newline(bytes)
    case None => bytes
    case Some(i) => Rest(bytes[i + 1..])
  }

  lemma RestOfNothing()
    ensures Rest([]) == []
  {
  }

  lemma {:induction false} NewlineIsFirst(bytes: seq<Byte>)
    ensures match Newline(bytes)
            case None => forall k :: 0 <= k < |bytes| ==> bytes[k] != LF
            case Some(i) => bytes[i] == LF && forall k :: 0 <= k < i ==> bytes[k] != LF
  {
    if bytes != [] && bytes[0] != LF {
      NewlineIsFirst(bytes[1..]);
      assert forall k :: 1 <= k < |bytes| ==> bytes[k] == bytes[1..][k - 1];
    }
  }

  lemma {:induction false} NewlineAppend(a: seq<Byte>, b: seq<Byte>)
    ensures Newline(a).Some? ==> Newline(a + b) == Newline(a)
    ensures Newline(a).None? ==> Newline(a + b) == match Newline(b) case None => None case Some(i) => Some(|a| + i)
  {
    if a == [] {
      assert a + b == b;
    } else {
      assert (a + b)[1..] == a[1..] + b;
      NewlineAppend(a[1..], b);
    }
  }

  lemma {:induction false} RestHasNone(bytes: seq<Byte>)
    ensures Newline(Rest(bytes)).None?
    decreases |bytes|
  {
    if Newline(bytes).Some? { RestHasNone(bytes[Newline(bytes).value + 1..]); }
  }

  lemma SliceBeyond(a: seq<Byte>, b: seq<Byte>, i: nat)
    requires i <= |b|
    ensures (a + b)[..|a| + i] == a + b[..i] && (a + b)[|a| + i..] == b[i..]
  {
  }

  lemma SplitAt(bytes: seq<Byte>, i: nat)
    requires Newline(bytes) == Some(i)
    ensures Split(bytes) == [bytes[..i]] + Split(bytes[i + 1..]) && Rest(bytes) == Rest(bytes[i + 1..])
  {
  }

  /** Bytes without a newline become part of the first line. */
  lemma SplitPrefixed(a: seq<Byte>, b: seq<Byte>, i: nat)
    requires Newline(a).None? && Newline(b) == Some(i)
    ensures Split(a + b) == [a + b[..i]] + Split(b[i + 1..]) && Rest(a + b) == Rest(b[i + 1..])
  {
    NewlineAppend(a, b);
    SliceBeyond(a, b, i);
    SliceBeyond(a, b, i + 1);
    SplitAt(a + b, |a| + i);
  }

  /** A splitter may be stopped anywhere and resumed with what follows the last newline. */
  lemma {:induction false} SplitAppend(a: seq<Byte>, b: seq<Byte>)
    ensures Split(a + b) == Split(a) + Split(Rest(a) + b)
    ensures Rest(a + b) == Rest(Rest(a) + b)
    decreases |a|
  {
    NewlineAppend(a, b);
    match Newline(a)
    case None =>
    case Some(i) =>
      assert (a + b)[i + 1..] == a[i + 1..] + b;
      assert (a + b)[..i] == a[..i];
      SplitAppend(a[i + 1..], b);
  }

  lemma SplitAtNewline(front: seq<Byte>)
    ensures Split(front + [LF]) == Split(front) + [Rest(front)] && Rest(front + [LF]) == []
  {
    SplitAppend(front, [LF]);
    RestHasNone(front);
    SplitPrefixed(Rest(front), [LF], 0);
    assert Rest(front) + [LF][..0] == Rest(front);
  }

  lemma SplitOther(front: seq<Byte>, b: Byte)
    requires b != LF
    ensures Split(front + [b]) == Split(front) && Rest(front + [b]) == Rest(front) + [b]
  {
    SplitAppend(front, [b]);
    RestHasNone(front);
    assert Newline([b][1..]).None?;
    NewlineAppend(Rest(front), [b]);
  }

  /** The lines again, each with its newline. */
  function Unsplit(lines: seq<seq<Byte>>): seq<Byte> {
    if lines == [] then [] else lines[0] + [LF] + Unsplit(lines[1..])
  }

  predicate Unbroken(lines: seq<seq<Byte>>) { forall i :: 0 <= i < |lines| ==> LF !in lines[i] }

  lemma FirstLine(bytes: seq<Byte>, i: nat, rest: seq<seq<Byte>>)
    requires Newline(bytes) == Some(i) && Unbroken(rest)
    ensures Unbroken([bytes[..i]] + rest) && Unsplit([bytes[..i]] + rest) == bytes[..i + 1] + Unsplit(rest)
  {
    NewlineIsFirst(bytes);
    assert ([bytes[..i]] + rest)[1..] == rest && bytes[..i + 1] == bytes[..i] + [LF];
  }

  /** The lines, each with its newline, and the rest are the bytes again, and no newline is left in any of them:
      the bytes fall into lines in one way only. */
  lemma {:induction false} SplitJoins(bytes: seq<Byte>)
    ensures Unsplit(Split(bytes)) + Rest(bytes) == bytes
    ensures LF !in Rest(bytes) && Unbroken(Split(bytes))
    decreases |bytes|
  {
    hide Unbroken; hide Unsplit; hide Newline; hide Split; hide Rest;
    match Newline(bytes)
    case None =>
      NewlineIsFirst(bytes);
      UnsplitNothing(bytes);
    case Some(i) =>
      SplitAt(bytes, i);
      SplitJoins(bytes[i + 1..]);
      FirstLine(bytes, i, Split(bytes[i + 1..]));
      assert bytes == bytes[..i + 1] + bytes[i + 1..];
  }

  lemma UnsplitNothing(bytes: seq<Byte>)
    requires Newline(bytes).None?
    ensures Split(bytes) == [] && Rest(bytes) == bytes && Unsplit([]) == [] && Unbroken([])
  {
  }

  lemma NewlineOfNothing()
    ensures Newline([]).None?
  {
  }

  /** Up to the last newline there are only complete lines. */
  lemma {:induction false} LastNewlineSplits(bytes: seq<Byte>)
    ensures match LastNewline(bytes)
            case None => Split(bytes) == [] && Rest(bytes) == bytes
            case Some(i) => Split(bytes[..i + 1]) == Split(bytes) && Rest(bytes) == bytes[i + 1..]
    decreases |bytes|
  {
    hide Split; hide Rest; hide Newline;
    if bytes == [] {
      UnsplitNothing(bytes) by { NewlineOfNothing(); }
    } else {
      var n := |bytes| - 1;
      assert bytes == bytes[..n] + [bytes[n]];
      if bytes[n] == LF {
        assert bytes[..n + 1] == bytes && bytes[n + 1..] == [];
        SplitAtNewline(bytes[..n]);
      } else {
        LastNewlineSplits(bytes[..n]);
        SplitOther(bytes[..n], bytes[n]);
        if LastNewline(bytes).Some? {
          var i := LastNewline(bytes).value;
          assert bytes[..n][..i + 1] == bytes[..i + 1] && bytes[..n][i + 1..] + [bytes[n]] == bytes[i + 1..];
        }
      }
    }
  }

  // ----- UTF-8 (section 3 of RFC 3629) -----

  /** The bytes of one code point. */
  function PointBytes(c: nat): seq<Byte>
    requires c < 0x110000
  {
    if c < 0x80 then [c as Byte]
    else if c < 0x800 then [(0xC0 + c / 64) as Byte, (0x80 + c % 64) as Byte]
    else if c < 0x10000 then [(0xE0 + c / 4096) as Byte, (0x80 + c / 64 % 64) as Byte, (0x80 + c % 64) as Byte]
    else [(0xF0 + c / 262144) as Byte, (0x80 + c / 4096 % 64) as Byte, (0x80 + c / 64 % 64) as Byte, (0x80 + c % 64) as Byte]
  }

  // ----- UTF-8 (section 4 of RFC 3629), decoded with replacement characters -----

  predicate Between(b: Byte, low: Byte, high: Byte) { low <= b <= high }

  /** How many bytes after the lead byte a sequence needs, or none when the byte cannot lead. */
  function Trailing(lead: Byte): Option<nat> {
    if lead < 0x80 then Some(0)
    else if Between(lead, 0xC2, 0xDF) then Some(1)
    else if Between(lead, 0xE0, 0xEF) then Some(2)
    else if Between(lead, 0xF0, 0xF4) then Some(3)
    else None
  }

  predicate Second(lead: Byte, b: Byte) {
    Between(b, if lead == 0xE0 then 0xA0 else if lead == 0xF0 then 0x90 else 0x80,
               if lead == 0xED then 0x9F else if lead == 0xF4 then 0x8F else 0xBF)
  }

  /** The length of the longest prefix that could begin one character. */
  function Subpart(bytes: seq<Byte>): (n: nat)
    requires bytes != []
    ensures 1 <= n <= |bytes|
    ensures Trailing(bytes[0]).Some? ==> n <= Trailing(bytes[0]).value + 1
    ensures Trailing(bytes[0]).None? ==> n == 1
  {
    var trailing := Trailing(bytes[0]);
    if trailing.None? || trailing.value < 1 || |bytes| < 2 || !Second(bytes[0], bytes[1]) then 1
    else if trailing.value < 2 || |bytes| < 3 || !Between(bytes[2], 0x80, 0xBF) then 2
    else if trailing.value < 3 || |bytes| < 4 || !Between(bytes[3], 0x80, 0xBF) then 3
    else 4
  }

  predicate WellFormedStart(bytes: seq<Byte>)
    requires bytes != []
  {
    Trailing(bytes[0]).Some? && Subpart(bytes) == Trailing(bytes[0]).value + 1
  }

  predicate WellFormed(bytes: seq<Byte>) {
    bytes == [] || (WellFormedStart(bytes) && WellFormed(bytes[Subpart(bytes)..]))
  }

  /** The length of the line once decoded and encoded again: each ill-formed piece becomes U+FFFD. */
  function DecodedLength(bytes: seq<Byte>): (n: nat)
    ensures n >= |bytes|
  {
    if bytes == [] then 0
    else (if WellFormedStart(bytes) then Subpart(bytes) else 3) + DecodedLength(bytes[Subpart(bytes)..])
  }

  /** The line once decoded and encoded again: each ill-formed piece becomes U+FFFD. */
  function Repaired(bytes: seq<Byte>): seq<Byte> {
    if bytes == [] then []
    else (if WellFormedStart(bytes) then bytes[..Subpart(bytes)] else PointBytes(0xFFFD)) + Repaired(bytes[Subpart(bytes)..])
  }

  lemma StartOf(bytes: seq<Byte>, rest: seq<Byte>)
    requires bytes != [] && WellFormedStart(bytes)
    ensures var first := bytes[..Subpart(bytes)]; WellFormedStart(first + rest) && Subpart(first + rest) == |first|
  {
  }

  lemma ReplacementStarts(rest: seq<Byte>)
    ensures var first := PointBytes(0xFFFD); WellFormedStart(first + rest) && Subpart(first + rest) == |first| == 3
  {
  }

  lemma RepairedStart(bytes: seq<Byte>)
    requires bytes != []
    ensures var n, rest := Subpart(bytes), Repaired(bytes[Subpart(bytes)..]);
            var first := if WellFormedStart(bytes) then bytes[..n] else PointBytes(0xFFFD);
            && Repaired(bytes) == first + rest && first != [] && WellFormedStart(first + rest) && Subpart(first + rest) == |first|
            && DecodedLength(bytes) == |first| + DecodedLength(bytes[n..])
  {
    hide Subpart; hide PointBytes;
    var rest := Repaired(bytes[Subpart(bytes)..]);
    if WellFormedStart(bytes) { StartOf(bytes, rest); } else { ReplacementStarts(rest); }
  }

  /** The computed length is that of the repaired line, which is well formed. */
  lemma {:induction false} DecodedIsRepaired(bytes: seq<Byte>)
    ensures DecodedLength(bytes) == |Repaired(bytes)| && WellFormed(Repaired(bytes))
  {
    hide Subpart; hide WellFormedStart; hide PointBytes; hide DecodedLength; hide Repaired;
    if bytes == [] {
      NothingToRepair();
    } else {
      var n, rest := Subpart(bytes), Repaired(bytes[Subpart(bytes)..]);
      var first := if WellFormedStart(bytes) then bytes[..n] else PointBytes(0xFFFD);
      RepairedStart(bytes);
      DecodedIsRepaired(bytes[n..]);
      assert (first + rest)[|first|..] == rest;
    }
  }

  lemma NothingToRepair()
    ensures Repaired([]) == [] && DecodedLength([]) == 0
  {
  }

  /** A line is well formed exactly when there is nothing to repair. */
  lemma {:induction false} RepairsExactly(bytes: seq<Byte>)
    ensures WellFormed(bytes) <==> Repaired(bytes) == bytes
  {
    hide Subpart; hide PointBytes; hide WellFormedStart;
    if Repaired(bytes) == bytes { DecodedIsRepaired(bytes); }
    if WellFormed(bytes) && bytes != [] {
      RepairsExactly(bytes[Subpart(bytes)..]);
      assert bytes == bytes[..Subpart(bytes)] + bytes[Subpart(bytes)..];
    }
  }

  lemma PieceBeforeNewline(a: seq<Byte>, rest: seq<Byte>)
    requires a != [] && rest != [] && rest[0] == LF
    ensures Subpart(a + rest) == Subpart(a) && (WellFormedStart(a + rest) <==> WellFormedStart(a))
  {
    var t := a + rest;
    assert forall k :: 0 <= k < |a| ==> t[k] == a[k];
    assert t[|a|] == LF;
  }

  lemma NewlineIsItself(rest: seq<Byte>)
    ensures Repaired([LF] + rest) == [LF] + Repaired(rest)
  {
    assert ([LF] + rest)[1..] == rest && ([LF] + rest)[..1] == [LF];
  }

  function Piece(bytes: seq<Byte>): seq<Byte>
    requires bytes != []
  {
    if WellFormedStart(bytes) then bytes[..Subpart(bytes)] else PointBytes(0xFFFD)
  }

  lemma RepairsFirst(bytes: seq<Byte>)
    requires bytes != []
    ensures Repaired(bytes) == Piece(bytes) + Repaired(bytes[Subpart(bytes)..])
  {
    hide Subpart; hide PointBytes;
  }

  lemma SamePiece(a: seq<Byte>, rest: seq<Byte>)
    requires a != [] && rest != [] && rest[0] == LF
    ensures Subpart(a + rest) == Subpart(a) && Piece(a + rest) == Piece(a)
    ensures (a + rest)[Subpart(a)..] == a[Subpart(a)..] + rest
  {
    hide PointBytes; hide Subpart; hide WellFormedStart;
    PieceBeforeNewline(a, rest);
    assert (a + rest)[..Subpart(a)] == a[..Subpart(a)];
  }

  /** Decoding never reaches across a newline, so lines may be decoded one by one or all at once. */
  lemma {:induction false} RepairAtNewline(a: seq<Byte>, rest: seq<Byte>)
    requires rest != [] && rest[0] == LF
    ensures Repaired(a + rest) == Repaired(a) + Repaired(rest)
  {
    hide Subpart; hide Piece; hide Repaired;
    if a == [] {
      NothingToRepair();
      assert a + rest == rest && [] + Repaired(rest) == Repaired(rest);
    } else {
      SamePiece(a, rest);
      RepairsFirst(a);
      RepairsFirst(a + rest);
      RepairAtNewline(a[Subpart(a)..], rest);
      assert Piece(a) + (Repaired(a[Subpart(a)..]) + Repaired(rest)) == Piece(a) + Repaired(a[Subpart(a)..]) + Repaired(rest);
    }
  }

  /** So the repaired text falls into the repaired lines. */
  lemma RepairsLineByLine(line: seq<Byte>, rest: seq<Byte>)
    ensures Repaired(line + ([LF] + rest)) == Repaired(line) + ([LF] + Repaired(rest))
  {
    hide Repaired;
    RepairAtNewline(line, [LF] + rest);
    NewlineIsItself(rest);
  }

  /** The length in bytes of the white space character, as String.prototype.trim understands it, that
      the bytes begin with; 0 when they begin with none. */
  function SpaceLength(bytes: seq<Byte>): (n: nat)
    ensures n <= |bytes|
  {
    if |bytes| >= 1 && (Between(bytes[0], 9, 13) || bytes[0] == 32) then 1
    else if |bytes| >= 2 && bytes[0] == 0xC2 && bytes[1] == 0xA0 then 2
    else if |bytes| >= 3 && WideSpace(bytes[0], bytes[1], bytes[2]) then 3
    else 0
  }

  predicate WideSpace(a: Byte, b: Byte, c: Byte) {
    || (a == 0xE1 && b == 0x9A && c == 0x80)
    || (a == 0xE2 && b == 0x80 && (Between(c, 0x80, 0x8A) || Between(c, 0xA8, 0xA9) || c == 0xAF))
    || (a == 0xE2 && b == 0x81 && c == 0x9F)
    || (a == 0xE3 && b == 0x80 && c == 0x80)
    || (a == 0xEF && b == 0xBB && c == 0xBF)
  }

  /** Whether trimming the line leaves nothing. */
  predicate Blank(bytes: seq<Byte>) {
    bytes == [] || (SpaceLength(bytes) > 0 && Blank(bytes[SpaceLength(bytes)..]))
  }

  /** White space and line terminators, as String.prototype.trim takes them off. */
  predicate IsSpace(c: nat) {
    9 <= c <= 13 || 0x2000 <= c <= 0x200A || c in {0x20, 0xA0, 0x1680, 0x2028, 0x2029, 0x202F, 0x205F, 0x3000, 0xFEFF}
  }

  predicate AllSpaces(cs: seq<nat>) { forall i :: 0 <= i < |cs| ==> IsSpace(cs[i]) }

  function EncodePoints(cs: seq<nat>): seq<Byte>
    requires AllSpaces(cs)
  {
    if cs == [] then [] else PointBytes(cs[0]) + EncodePoints(cs[1..])
  }

  ghost predicate OnlySpaces(bytes: seq<Byte>) { exists cs :: AllSpaces(cs) && EncodePoints(cs) == bytes }

  lemma SpaceBegins(c: nat, rest: seq<Byte>)
    requires IsSpace(c)
    ensures SpaceLength(PointBytes(c) + rest) == |PointBytes(c)| > 0
  {
  }

  lemma BeginsWithSpace(bytes: seq<Byte>) returns (c: nat)
    requires SpaceLength(bytes) > 0
    ensures IsSpace(c) && PointBytes(c) == bytes[..SpaceLength(bytes)]
  {
    if SpaceLength(bytes) == 1 {
      c := bytes[0] as int;
    } else if SpaceLength(bytes) == 2 {
      c := 0xA0;
    } else {
      c := (bytes[0] as int - 0xE0) * 4096 + (bytes[1] as int - 0x80) * 64 + (bytes[2] as int - 0x80);
    }
  }

  lemma {:induction false} SpacesAreBlank(cs: seq<nat>)
    requires AllSpaces(cs)
    ensures Blank(EncodePoints(cs))
  {
    hide SpaceLength; hide PointBytes;
    if cs != [] {
      var first, rest := PointBytes(cs[0]), EncodePoints(cs[1..]);
      SpaceBegins(cs[0], rest);
      assert (first + rest)[|first|..] == rest;
      SpacesAreBlank(cs[1..]);
    }
  }

  lemma {:induction false} BlankIsSpaces(bytes: seq<Byte>) returns (cs: seq<nat>)
    requires Blank(bytes)
    ensures AllSpaces(cs) && EncodePoints(cs) == bytes
  {
    hide SpaceLength; hide PointBytes; hide IsSpace;
    if bytes == [] {
      cs := [];
    } else {
      var c := BeginsWithSpace(bytes);
      var rest := BlankIsSpaces(bytes[SpaceLength(bytes)..]);
      cs := [c] + rest;
      assert cs[1..] == rest;
    }
  }

  /** A line is blank exactly when it is the encoding of white space characters and nothing else. */
  lemma BlankExactly(bytes: seq<Byte>)
    ensures Blank(bytes) <==> OnlySpaces(bytes)
  {
    hide Blank; hide EncodePoints; hide AllSpaces;
    if Blank(bytes) {
      var cs := BlankIsSpaces(bytes);
    }
    if OnlySpaces(bytes) {
      var cs :| AllSpaces(cs) && EncodePoints(cs) == bytes;
      SpacesAreBlank(cs);
    }
  }
}
