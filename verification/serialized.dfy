/** What is written of a JSON value: its text (RFC 8259), the UTF-8 encoding of that text (section 3 of
    RFC 3629), and a reader for both. The sizes the program computes are the lengths of these bytes. */
module Serialized {
  import opened Common
  import opened Json
  import opened Lines

  const QUOTE: Unit := 0x22
  const BACKSLASH: Unit := 0x5C
  const COMMA: Unit := 0x2C
  const COLON: Unit := 0x3A
  const MINUS: Unit := 0x2D
  const OPEN_ARRAY: Unit := 0x5B
  const CLOSE_ARRAY: Unit := 0x5D
  const OPEN_OBJECT: Unit := 0x7B
  const CLOSE_OBJECT: Unit := 0x7D
  const HEX_MARK: Unit := 0x75
  const REPLACEMENT: Unit := 0xFFFD
  const NULL_TEXT: Text := [0x6E, 0x75, 0x6C, 0x6C]
  const TRUE_TEXT: Text := [0x74, 0x72, 0x75, 0x65]
  const FALSE_TEXT: Text := [0x66, 0x61, 0x6C, 0x73, 0x65]

  // ----- UTF-8 -----

  predicate IsSurrogate(u: Unit) { IsHigh(u) || IsLow(u) }

  predicate BeginsPair(s: Text) { |s| >= 2 && IsHigh(s[0]) && IsLow(s[1]) }

  function PairPoint(high: Unit, low: Unit): (c: nat)
    requires IsHigh(high) && IsLow(low)
    ensures 0x10000 <= c < 0x110000
  {
    0x10000 + (high - 0xD800) * 1024 + (low - 0xDC00)
  }

  /** A string encoded as Buffer.from encodes it: a lone surrogate becomes the replacement character. */
  function Encode(s: Text): seq<Byte> {
    if s == [] then []
    else if BeginsPair(s) then PointBytes(PairPoint(s[0], s[1])) + Encode(s[2..])
    else PointBytes(if IsSurrogate(s[0]) then REPLACEMENT else s[0]) + Encode(s[1..])
  }

  predicate Tails(b: seq<Byte>, n: nat) { |b| > n && forall k :: 1 <= k <= n ==> 0x80 <= b[k] < 0xC0 }

  function Prefixed(s: Text, rest: Option<Text>): Option<Text> { if rest.Some? then Some(s + rest.value) else None }

  /** Reads an encoded string back. */
  function Decode(b: seq<Byte>): Option<Text> {
    if b == [] then Some([])
    else
      var lead := b[0] as int;
      if lead < 0x80 then Prefixed([lead], Decode(b[1..]))
      else if 0xC0 <= lead < 0xE0 && Tails(b, 1) then
        Prefixed([(lead - 0xC0) * 64 + (b[1] as int - 0x80)], Decode(b[2..]))
      else if 0xE0 <= lead < 0xF0 && Tails(b, 2) then
        Prefixed([(lead - 0xE0) * 4096 + (b[1] as int - 0x80) * 64 + (b[2] as int - 0x80)], Decode(b[3..]))
      else if 0xF0 <= lead < 0xF8 && Tails(b, 3) then
        var c := (lead - 0xF0) * 262144 + (b[1] as int - 0x80) * 4096 + (b[2] as int - 0x80) * 64 + (b[3] as int - 0x80);
        if 0x10000 <= c < 0x110000
        then Prefixed([0xD800 + (c - 0x10000) / 1024, 0xDC00 + (c - 0x10000) % 1024], Decode(b[4..]))
        else None
      else None
  }

  /** A string whose surrogates all stand in pairs. */
  predicate WellFormed(s: Text) {
    s == [] || (if BeginsPair(s) then WellFormed(s[2..]) else !IsSurrogate(s[0]) && WellFormed(s[1..]))
  }

  /** Buffer.byteLength counts the bytes of the encoding. */
  lemma {:induction false} Utf8CountsBytes(s: Text)
    ensures Utf8(s) == |Encode(s)|
  {
    if BeginsPair(s) {
      assert s == [s[0], s[1]] + s[2..] && [s[0], s[1]][..1] == [s[0]] && [s[0]][..0] == [];
      Utf8Append([s[0], s[1]], s[2..]);
      Utf8CountsBytes(s[2..]);
    } else if s != [] {
      assert s == [s[0]] + s[1..] && [s[0]][..0] == [];
      Utf8Append([s[0]], s[1..]);
      Utf8CountsBytes(s[1..]);
    }
  }

  lemma SixBitGroups(c: nat)
    ensures c / 64 / 64 == c / 4096 && c / 4096 / 64 == c / 262144
    ensures c == c / 64 * 64 + c % 64
    ensures c == c / 4096 * 4096 + c / 64 % 64 * 64 + c % 64
    ensures c == c / 262144 * 262144 + c / 4096 % 64 * 4096 + c / 64 % 64 * 64 + c % 64
  {
    assert c / 64 == c / 64 / 64 * 64 + c / 64 % 64;
    assert c / 4096 == c / 4096 / 64 * 64 + c / 4096 % 64;
  }

  lemma TwoBytesRead(b0: Byte, b1: Byte, rest: seq<Byte>)
    requires 0xC0 <= b0 < 0xE0 && 0x80 <= b1 < 0xC0
    ensures Decode([b0, b1] + rest) == Prefixed([(b0 as int - 0xC0) * 64 + (b1 as int - 0x80)], Decode(rest))
  {
    assert ([b0, b1] + rest)[2..] == rest;
  }

  lemma ThreeBytesRead(b0: Byte, b1: Byte, b2: Byte, rest: seq<Byte>)
    requires 0xE0 <= b0 < 0xF0 && 0x80 <= b1 < 0xC0 && 0x80 <= b2 < 0xC0
    ensures Decode([b0, b1, b2] + rest)
         == Prefixed([(b0 as int - 0xE0) * 4096 + (b1 as int - 0x80) * 64 + (b2 as int - 0x80)], Decode(rest))
  {
    assert ([b0, b1, b2] + rest)[3..] == rest;
  }

  lemma FourBytesRead(b: seq<Byte>, high: Unit, low: Unit, rest: seq<Byte>)
    requires |b| == 4 && 0xF0 <= b[0] < 0xF8 && Tails(b, 3) && IsHigh(high) && IsLow(low)
    requires (b[0] as int - 0xF0) * 262144 + (b[1] as int - 0x80) * 4096 + (b[2] as int - 0x80) * 64 + (b[3] as int - 0x80)
          == PairPoint(high, low)
    ensures Decode(b + rest) == Prefixed([high, low], Decode(rest))
  {
    assert (b + rest)[4..] == rest;
  }

  lemma PointReads(u: Unit, rest: seq<Byte>)
    ensures Decode(PointBytes(u) + rest) == Prefixed([u], Decode(rest))
  {
    SixBitGroups(u);
    if u < 0x80 {
      assert ([u as Byte] + rest)[1..] == rest;
    } else {
      hide Decode;
      if u < 0x800 {
        TwoBytesRead((0xC0 + u / 64) as Byte, (0x80 + u % 64) as Byte, rest);
      } else {
        ThreeBytesRead((0xE0 + u / 4096) as Byte, (0x80 + u / 64 % 64) as Byte, (0x80 + u % 64) as Byte, rest);
      }
    }
  }

  lemma PairReads(high: Unit, low: Unit, rest: seq<Byte>)
    requires IsHigh(high) && IsLow(low)
    ensures Decode(PointBytes(PairPoint(high, low)) + rest) == Prefixed([high, low], Decode(rest))
  {
    hide Decode; hide PairPoint;
    SixBitGroups(PairPoint(high, low));
    FourBytesRead(PointBytes(PairPoint(high, low)), high, low, rest);
  }

  /** Decoding undoes encoding for every well-formed string. */
  lemma {:induction false} DecodeEncode(s: Text)
    requires WellFormed(s)
    ensures Decode(Encode(s)) == Some(s)
  {
    hide Decode; hide PointBytes; hide PairPoint;
    if s == [] {
      assert Decode([]) == Some([]) by { NothingReads(); }
    } else if BeginsPair(s) {
      DecodeEncode(s[2..]);
      PairReads(s[0], s[1], Encode(s[2..]));
      assert s == [s[0], s[1]] + s[2..];
    } else {
      DecodeEncode(s[1..]);
      PointReads(s[0], Encode(s[1..]));
      assert s == [s[0]] + s[1..];
    }
  }

  lemma NothingReads()
    ensures Decode([]) == Some([])
  {
  }

  /** A code point that stands for itself, and the units it is written with. */
  predicate IsScalar(c: nat) { c < 0xD800 || 0xE000 <= c < 0x110000 }

  function UnitsOf(c: nat): Text
    requires IsScalar(c)
  {
    if c < 0x10000 then [c] else [0xD800 + (c - 0x10000) / 1024, 0xDC00 + (c - 0x10000) % 1024]
  }

  lemma PointStarts(c: nat, rest: seq<Byte>)
    requires IsScalar(c)
    ensures var first := PointBytes(c); first != [] && WellFormedStart(first + rest) && Subpart(first + rest) == |first|
  {
    SixBitGroups(c);
  }

  lemma SixBits(a: nat, b: nat)
    requires b < 64
    ensures (a * 64 + b) / 64 == a && (a * 64 + b) % 64 == b
  {
  }

  lemma TwoBytesPoint(b0: Byte, b1: Byte) returns (c: nat)
    requires 0xC2 <= b0 <= 0xDF && 0x80 <= b1 < 0xC0
    ensures IsScalar(c) && PointBytes(c) == [b0, b1]
  {
    c := (b0 as int - 0xC0) * 64 + (b1 as int - 0x80);
    SixBits(b0 as int - 0xC0, b1 as int - 0x80);
  }

  lemma ThreeBytesPoint(b0: Byte, b1: Byte, b2: Byte) returns (c: nat)
    requires 0xE0 <= b0 <= 0xEF && Second(b0, b1) && 0x80 <= b2 < 0xC0
    ensures IsScalar(c) && PointBytes(c) == [b0, b1, b2]
  {
    var high := (b0 as int - 0xE0) * 64 + (b1 as int - 0x80);
    c := high * 64 + (b2 as int - 0x80);
    SixBits(b0 as int - 0xE0, b1 as int - 0x80);
    SixBits(high, b2 as int - 0x80);
    assert c / 4096 == c / 64 / 64;
  }

  lemma FourBytesPoint(b0: Byte, b1: Byte, b2: Byte, b3: Byte) returns (c: nat)
    requires 0xF0 <= b0 <= 0xF4 && Second(b0, b1) && 0x80 <= b2 < 0xC0 && 0x80 <= b3 < 0xC0
    ensures IsScalar(c) && PointBytes(c) == [b0, b1, b2, b3]
  {
    var top := (b0 as int - 0xF0) * 64 + (b1 as int - 0x80);
    var high := top * 64 + (b2 as int - 0x80);
    c := high * 64 + (b3 as int - 0x80);
    SixBits(b0 as int - 0xF0, b1 as int - 0x80);
    SixBits(top, b2 as int - 0x80);
    SixBits(high, b3 as int - 0x80);
    SixBitGroups(c);
    assert c / 64 == high && c / 4096 == top && c / 262144 == top / 64;
  }

  lemma StartIsPoint(b: seq<Byte>) returns (c: nat)
    requires b != [] && WellFormedStart(b)
    ensures IsScalar(c) && PointBytes(c) == b[..Subpart(b)]
  {
    var n := Subpart(b);
    if n == 1 {
      c := b[0] as int;
    } else {
      hide PointBytes;
      if n == 2 {
        c := TwoBytesPoint(b[0], b[1]);
      } else if n == 3 {
        c := ThreeBytesPoint(b[0], b[1], b[2]);
      } else {
        c := FourBytesPoint(b[0], b[1], b[2], b[3]);
      }
    }
  }

  lemma PointEncodes(c: nat, s: Text)
    requires IsScalar(c) && WellFormed(s)
    ensures Encode(UnitsOf(c) + s) == PointBytes(c) + Encode(s) && WellFormed(UnitsOf(c) + s)
  {
    hide PointBytes;
    var t := UnitsOf(c) + s;
    assert t[|UnitsOf(c)|..] == s;
  }

  lemma {:induction false} EncodedIsWellFormed(s: Text)
    requires WellFormed(s)
    ensures Lines.WellFormed(Encode(s))
  {
    hide PointBytes; hide Subpart; hide WellFormedStart; hide PairPoint;
    if s != [] {
      var c, rest := if BeginsPair(s) then PairPoint(s[0], s[1]) else s[0], if BeginsPair(s) then s[2..] else s[1..];
      EncodedIsWellFormed(rest);
      PointStarts(c, Encode(rest));
      assert (PointBytes(c) + Encode(rest))[|PointBytes(c)|..] == Encode(rest);
    }
  }

  lemma {:induction false} WellFormedIsEncoded(b: seq<Byte>) returns (s: Text)
    requires Lines.WellFormed(b)
    ensures WellFormed(s) && Encode(s) == b
  {
    hide PointBytes; hide Subpart; hide WellFormedStart; hide Encode; hide UnitsOf;
    if b == [] {
      s := [];
      assert Encode([]) == [] by { NothingEncodes(); }
    } else {
      var c := StartIsPoint(b);
      var rest := WellFormedIsEncoded(b[Subpart(b)..]);
      PointEncodes(c, rest);
      s := UnitsOf(c) + rest;
      assert b == b[..Subpart(b)] + b[Subpart(b)..];
    }
  }

  lemma NothingEncodes()
    ensures Encode([]) == []
  {
  }

  ghost predicate IsEncoding(b: seq<Byte>) { exists s :: WellFormed(s) && Encode(s) == b }

  /** The bytes the tailer takes for well formed are exactly the encodings of well-formed strings. */
  lemma WellFormedExactly(b: seq<Byte>)
    ensures Lines.WellFormed(b) <==> IsEncoding(b)
  {
    if Lines.WellFormed(b) { var s := WellFormedIsEncoded(b); }
    if IsEncoding(b) {
      var s :| WellFormed(s) && Encode(s) == b;
      EncodedIsWellFormed(s);
    }
  }

  // ----- string literals (section 7 of RFC 8259) -----

  function HexDigit(d: nat): (u: Unit)
    requires d < 16
  {
    if d < 10 then 0x30 + d else 0x61 + (d - 10)
  }

  function Hex(u: Unit): Text { [HexDigit(u / 4096), HexDigit(u / 256 % 16), HexDigit(u / 16 % 16), HexDigit(u % 16)] }

  /** The letter behind the backslash of a short escape. */
  function ShortEscape(u: Unit): Option<Unit> {
    if u == QUOTE then Some(QUOTE)
    else if u == BACKSLASH then Some(BACKSLASH)
    else if u == 0x08 then Some(0x62)
    else if u == 0x09 then Some(0x74)
    else if u == 0x0A then Some(0x6E)
    else if u == 0x0C then Some(0x66)
    else if u == 0x0D then Some(0x72)
    else None
  }

  function EscapeUnit(u: Unit): (t: Text)
    ensures t != []
  {
    if ShortEscape(u).Some? then [BACKSLASH, ShortEscape(u).value]
    else if u < 0x20 || IsSurrogate(u) then [BACKSLASH, HEX_MARK] + Hex(u)
    else [u]
  }

  function Escape(s: Text): Text {
    if s == [] then []
    else if BeginsPair(s) then [s[0], s[1]] + Escape(s[2..])
    else EscapeUnit(s[0]) + Escape(s[1..])
  }

  datatype Reading<T> = Unreadable | Read(value: T, rest: Text)

  function HexValue(u: Unit): Option<nat> {
    if IsDigit(u) then Some(u - 0x30)
    else if 0x61 <= u < 0x67 then Some(u - 0x61 + 10)
    else if 0x41 <= u < 0x47 then Some(u - 0x41 + 10)
    else None
  }

  /** What a short escape stands for. */
  function Unescaped(u: Unit): Option<Unit> {
    if u in {QUOTE, BACKSLASH, 0x2F} then Some(u)
    else if u == 0x62 then Some(0x08)
    else if u == 0x66 then Some(0x0C)
    else if u == 0x6E then Some(0x0A)
    else if u == 0x72 then Some(0x0D)
    else if u == 0x74 then Some(0x09)
    else None
  }

  function Behind(u: Unit, r: Reading<Text>): Reading<Text> { if r.Read? then Read([u] + r.value, r.rest) else Unreadable }

  predicate IsHex(t: Text) { |t| >= 4 && forall k :: 0 <= k < 4 ==> HexValue(t[k]).Some? }

  function FromHex(t: Text): (n: nat)
    requires IsHex(t)
    ensures n < 0x10000
  {
    HexValue(t[0]).value * 4096 + HexValue(t[1]).value * 256 + HexValue(t[2]).value * 16 + HexValue(t[3]).value
  }

  /** Reads a string literal up to its closing quotation mark. */
  function ReadString(t: Text): (r: Reading<Text>)
    ensures r.Read? ==> |r.rest| < |t|
  {
    if t == [] || t[0] < 0x20 then Unreadable
    else if t[0] == QUOTE then Read([], t[1..])
    else if t[0] != BACKSLASH then Behind(t[0], ReadString(t[1..]))
    else if |t| == 1 then Unreadable
    else if Unescaped(t[1]).Some? then Behind(Unescaped(t[1]).value, ReadString(t[2..]))
    else if t[1] == HEX_MARK && IsHex(t[2..]) then Behind(FromHex(t[2..]), ReadString(t[6..]))
    else Unreadable
  }

  lemma DigitReads(d: nat)
    requires d < 16
    ensures HexValue(HexDigit(d)) == Some(d)
  {
  }

  lemma FourBitGroups(u: Unit)
    ensures u == u / 4096 * 4096 + u / 256 % 16 * 256 + u / 16 % 16 * 16 + u % 16
  {
    assert u / 16 == u / 16 / 16 * 16 + u / 16 % 16;
    assert u / 256 == u / 256 / 16 * 16 + u / 256 % 16;
    assert u / 16 / 16 == u / 256 && u / 256 / 16 == u / 4096;
  }

  lemma HexReads(u: Unit, rest: Text)
    ensures |Hex(u)| == 4 && IsHex(Hex(u) + rest) && FromHex(Hex(u) + rest) == u
  {
    hide HexDigit; hide HexValue;
    DigitReads(u / 4096);
    DigitReads(u / 256 % 16);
    DigitReads(u / 16 % 16);
    DigitReads(u % 16);
    FourBitGroups(u);
  }

  lemma ShortReads(u: Unit, rest: Text)
    requires ShortEscape(u).Some?
    ensures ReadString([BACKSLASH, ShortEscape(u).value] + rest) == Behind(u, ReadString(rest))
  {
    assert ([BACKSLASH, ShortEscape(u).value] + rest)[2..] == rest;
  }

  lemma HexEscapeReads(u: Unit, rest: Text)
    ensures ReadString([BACKSLASH, HEX_MARK] + Hex(u) + rest) == Behind(u, ReadString(rest))
  {
    hide Hex; hide FromHex; hide IsHex;
    HexReads(u, rest);
    var t := [BACKSLASH, HEX_MARK] + Hex(u) + rest;
    assert t[2..] == Hex(u) + rest && t[6..] == rest;
  }

  lemma PlainReads(u: Unit, rest: Text)
    requires u >= 0x20 && u != QUOTE && u != BACKSLASH
    ensures ReadString([u] + rest) == Behind(u, ReadString(rest))
  {
    assert ([u] + rest)[1..] == rest;
  }

  lemma UnitReads(u: Unit, rest: Text)
    ensures ReadString(EscapeUnit(u) + rest) == Behind(u, ReadString(rest))
  {
    hide Hex; hide ReadString;
    if ShortEscape(u).Some? {
      ShortReads(u, rest);
    } else if u < 0x20 || IsSurrogate(u) {
      HexEscapeReads(u, rest);
    } else {
      PlainReads(u, rest);
    }
  }

  /** A string literal reads back as the string it was written for. */
  lemma {:induction false} LiteralReads(s: Text, rest: Text)
    ensures ReadString(Escape(s) + ([QUOTE] + rest)) == Read(s, rest)
  {
    hide EscapeUnit; hide ReadString;
    var after := [QUOTE] + rest;
    if s == [] {
      QuoteCloses(rest);
      assert Escape(s) + after == after;
    } else if BeginsPair(s) {
      LiteralReads(s[2..], rest);
      PlainReads(s[1], Escape(s[2..]) + after);
      PlainReads(s[0], [s[1]] + (Escape(s[2..]) + after));
      assert Escape(s) + after == [s[0]] + ([s[1]] + (Escape(s[2..]) + after));
      assert s == [s[0]] + ([s[1]] + s[2..]);
    } else {
      LiteralReads(s[1..], rest);
      UnitReads(s[0], Escape(s[1..]) + after);
      assert Escape(s) + after == EscapeUnit(s[0]) + (Escape(s[1..]) + after);
      assert s == [s[0]] + s[1..];
    }
  }

  lemma QuoteCloses(rest: Text)
    ensures ReadString([QUOTE] + rest) == Read([], rest)
  {
    assert ([QUOTE] + rest)[1..] == rest;
  }

  // ----- values -----

  function Decimal(n: nat): (t: Text)
    ensures |t| == Digits(n) && forall i :: 0 <= i < |t| ==> IsDigit(t[i])
  {
    if n < 10 then [0x30 + n] else Decimal(n / 10) + [0x30 + n % 10]
  }

  function IntText(n: int): Text { if n < 0 then [MINUS] + Decimal(-n) else Decimal(n) }

  function Quoted(s: Text): Text { [QUOTE] + Escape(s) + [QUOTE] }

  /** JSON.stringify(v). */
  function Serialize(v: Value): Text
    decreases v, 1
  {
    match v
    case Null => NULL_TEXT
    case Bool(b) => if b then TRUE_TEXT else FALSE_TEXT
    case Int(n) => IntText(n)
    case Frac(numeral) => numeral
    case Str(text) => Quoted(text)
    case Arr(items) => [OPEN_ARRAY] + ItemsText(items) + [CLOSE_ARRAY]
    case Obj(fields) => [OPEN_OBJECT] + FieldsText(fields) + [CLOSE_OBJECT]
  }

  function ItemsText(items: seq<Value>): Text
    decreases items, 0
  {
    if items == [] then []
    else if |items| == 1 then Serialize(items[0])
    else Serialize(items[0]) + [COMMA] + ItemsText(items[1..])
  }

  function FieldText(f: Field): Text
    decreases f, 1
  {
    Quoted(f.key) + [COLON] + Serialize(f.value)
  }

  function FieldsText(fields: seq<Field>): Text
    decreases fields, 0
  {
    if fields == [] then []
    else if |fields| == 1 then FieldText(fields[0])
    else FieldText(fields[0]) + [COMMA] + FieldsText(fields[1..])
  }

  /** What is written. */
  function Written(v: Value): seq<Byte> { Encode(Serialize(v)) }

  // ----- sizes -----

  lemma {:induction false} Ascii(t: Text)
    requires forall i :: 0 <= i < |t| ==> t[i] < 0x80
    ensures WellFormed(t) && Utf8(t) == |t|
  {
    if t != [] {
      Ascii(t[1..]);
      assert t == [t[0]] + t[1..] && [t[0]][..0] == [];
      Utf8Append([t[0]], t[1..]);
    }
  }

  lemma {:induction false} Joins(a: Text, b: Text)
    requires WellFormed(a) && WellFormed(b)
    ensures WellFormed(a + b) && Utf8(a + b) == Utf8(a) + Utf8(b)
  {
    if a == [] {
      assert a + b == b;
    } else {
      NoHighEnd(a);
      Utf8Append(a, b);
      if BeginsPair(a) {
        assert (a + b)[2..] == a[2..] + b;
        Joins(a[2..], b);
      } else {
        assert (a + b)[1..] == a[1..] + b;
        Joins(a[1..], b);
      }
    }
  }

  lemma {:induction false} NoHighEnd(a: Text)
    requires WellFormed(a) && a != []
    ensures !IsHigh(a[|a| - 1])
  {
    if BeginsPair(a) {
      if |a| > 2 { NoHighEnd(a[2..]); }
    } else if |a| > 1 {
      NoHighEnd(a[1..]);
    }
  }

  lemma EscapeUnitSize(u: Unit)
    ensures WellFormed(EscapeUnit(u)) && Utf8(EscapeUnit(u)) == EscapedUnit(u)
  {
    if EscapeUnit(u) == [u] {
      assert [u][..0] == [] && [u][1..] == [];
    } else {
      Ascii(EscapeUnit(u));
    }
  }

  lemma PairSize(high: Unit, low: Unit)
    requires IsHigh(high) && IsLow(low)
    ensures WellFormed([high, low]) && Utf8([high, low]) == 4
  {
    assert [high, low][2..] == [] && [high, low][..1] == [high] && [high][..0] == [];
  }

  lemma {:induction false} EscapeSize(s: Text)
    ensures WellFormed(Escape(s)) && Utf8(Escape(s)) == EscapedBytes(s)
  {
    hide EscapeUnit; hide EscapedUnit;
    if BeginsPair(s) {
      EscapeSize(s[2..]);
      PairSize(s[0], s[1]);
      Joins([s[0], s[1]], Escape(s[2..]));
    } else if s != [] {
      EscapeSize(s[1..]);
      EscapeUnitSize(s[0]);
      Joins(EscapeUnit(s[0]), Escape(s[1..]));
    }
  }

  /** Text between two marks, or text, a mark and text. */
  lemma Between3(a: Text, b: Text, c: Text)
    requires WellFormed(a) && WellFormed(b) && WellFormed(c)
    ensures WellFormed(a + b + c) && Utf8(a + b + c) == Utf8(a) + Utf8(b) + Utf8(c)
  {
    Joins(a, b);
    Joins(a + b, c);
  }

  lemma QuotedSize(s: Text)
    ensures WellFormed(Quoted(s)) && Utf8(Quoted(s)) == QuotedBytes(s)
  {
    EscapeSize(s);
    Ascii([QUOTE]);
    Between3([QUOTE], Escape(s), [QUOTE]);
  }

  lemma {:induction false} SumItemsFirst(items: seq<Value>)
    requires items != []
    ensures SumItems(items) == Bytes(items[0]) + SumItems(items[1..])
  {
    hide Bytes;
    if |items| > 1 {
      SumItemsFirst(items[..|items| - 1]);
      assert items[..|items| - 1][1..] == items[1..][..|items| - 2];
    }
  }

  lemma {:induction false} SumFieldsFirst(fields: seq<Field>)
    requires fields != []
    ensures SumFields(fields) == FieldBytes(fields[0]) + SumFields(fields[1..])
  {
    hide FieldBytes;
    if |fields| > 1 {
      SumFieldsFirst(fields[..|fields| - 1]);
      assert fields[..|fields| - 1][1..] == fields[1..][..|fields| - 2];
    }
  }

  lemma {:induction false} ValueSize(v: Value)
    ensures WellFormed(Serialize(v)) && Utf8(Serialize(v)) == Bytes(v)
    decreases v, 1
  {
    match v
    case Null | Bool(_) | Int(_) | Frac(_) => Ascii(Serialize(v));
    case Str(text) => QuotedSize(text);
    case Arr(items) =>
      ItemsSize(items);
      Ascii([OPEN_ARRAY]); Ascii([CLOSE_ARRAY]);
      Between3([OPEN_ARRAY], ItemsText(items), [CLOSE_ARRAY]);
    case Obj(fields) =>
      FieldsSize(fields);
      Ascii([OPEN_OBJECT]); Ascii([CLOSE_OBJECT]);
      Between3([OPEN_OBJECT], FieldsText(fields), [CLOSE_OBJECT]);
  }

  lemma {:induction false} ItemsSize(items: seq<Value>)
    ensures WellFormed(ItemsText(items)) && Utf8(ItemsText(items)) == SumItems(items) + Commas(|items|)
    decreases items, 0
  {
    if items != [] {
      ValueSize(items[0]);
      SumItemsFirst(items);
      if |items| > 1 {
        ItemsSize(items[1..]);
        Ascii([COMMA]);
        Between3(Serialize(items[0]), [COMMA], ItemsText(items[1..]));
      }
    }
  }

  lemma {:induction false} FieldsSize(fields: seq<Field>)
    ensures WellFormed(FieldsText(fields)) && Utf8(FieldsText(fields)) == SumFields(fields) + Commas(|fields|)
    decreases fields, 0
  {
    if fields != [] {
      var f := fields[0];
      QuotedSize(f.key);
      ValueSize(f.value);
      Ascii([COLON]);
      Between3(Quoted(f.key), [COLON], Serialize(f.value));
      SumFieldsFirst(fields);
      if |fields| > 1 {
        FieldsSize(fields[1..]);
        Ascii([COMMA]);
        Between3(FieldText(f), [COMMA], FieldsText(fields[1..]));
      }
    }
  }

  /** The size the program computes for a value is the number of bytes written of it. */
  lemma BytesCountsWritten(v: Value)
    ensures Bytes(v) == |Written(v)|
  {
    ValueSize(v);
    Utf8CountsBytes(Serialize(v));
  }

  // ----- reading a value back -----

  /** How many units of a numeral the text begins with. */
  function Run(t: Text): (n: nat)
    ensures n <= |t|
  {
    if t == [] || !IsNumeralUnit(t[0]) then 0 else 1 + Run(t[1..])
  }

  predicate IsDecimal(t: Text) { t != [] && forall i :: 0 <= i < |t| ==> IsDigit(t[i]) }

  function NatOf(t: Text): nat
    requires forall i :: 0 <= i < |t| ==> IsDigit(t[i])
  {
    if t == [] then 0
    else
      assert IsDigit(t[|t| - 1]);
      10 * NatOf(t[..|t| - 1]) + (t[|t| - 1] as int - 0x30)
  }

  function NumberOf(t: Text): Option<Value> {
    if IsDecimal(t) then Some(Int(NatOf(t)))
    else if t != [] && t[0] == MINUS && IsDecimal(t[1..]) then Some(Int(0 - NatOf(t[1..])))
    else if IsNumeral(t) then Some(Frac(t))
    else None
  }

  function ReadNumber(t: Text): (r: Reading<Value>)
    ensures r.Read? ==> |r.rest| < |t|
  {
    var n := Run(t);
    if n > 0 && NumberOf(t[..n]).Some? then Read(NumberOf(t[..n]).value, t[n..]) else Unreadable
  }

  function ReadWord(t: Text, word: Text, v: Value): (r: Reading<Value>)
    requires word != []
    ensures r.Read? ==> |r.rest| < |t|
  {
    if word <= t then Read(v, t[|word|..]) else Unreadable
  }

  /** Reads one value off the front of a text without white space. */
  function ReadValue(t: Text): (r: Reading<Value>)
    ensures r.Read? ==> |r.rest| < |t|
    decreases |t|, 1
  {
    if t == [] then Unreadable
    else if t[0] == QUOTE then
      match ReadString(t[1..]) case Unreadable => Unreadable case Read(text, rest) => Read(Str(text), rest)
    else if t[0] == OPEN_ARRAY then
      if |t| > 1 && t[1] == CLOSE_ARRAY then Read(Arr([]), t[2..]) else ReadItems(t[1..], [])
    else if t[0] == OPEN_OBJECT then
      if |t| > 1 && t[1] == CLOSE_OBJECT then Read(Obj([]), t[2..]) else ReadFields(t[1..], [])
    else if t[0] == NULL_TEXT[0] then ReadWord(t, NULL_TEXT, Null)
    else if t[0] == TRUE_TEXT[0] then ReadWord(t, TRUE_TEXT, Bool(true))
    else if t[0] == FALSE_TEXT[0] then ReadWord(t, FALSE_TEXT, Bool(false))
    else ReadNumber(t)
  }

  /** Reads the items of an array behind those already read, up to its end. */
  function ReadItems(t: Text, before: seq<Value>): (r: Reading<Value>)
    ensures r.Read? ==> |r.rest| < |t|
    decreases |t|, 2
  {
    match ReadValue(t)
    case Unreadable => Unreadable
    case Read(v, rest) =>
      if rest != [] && rest[0] == COMMA then ReadItems(rest[1..], before + [v])
      else if rest != [] && rest[0] == CLOSE_ARRAY then Read(Arr(before + [v]), rest[1..])
      else Unreadable
  }

  function ReadField(t: Text): (r: Reading<Field>)
    ensures r.Read? ==> |r.rest| < |t|
    decreases |t|, 2
  {
    if t == [] || t[0] != QUOTE then Unreadable
    else
      match ReadString(t[1..])
      case Unreadable => Unreadable
      case Read(key, rest) =>
        if rest == [] || rest[0] != COLON then Unreadable
        else match ReadValue(rest[1..]) case Unreadable => Unreadable case Read(v, after) => Read(Field(key, v), after)
  }

  function ReadFields(t: Text, before: seq<Field>): (r: Reading<Value>)
    ensures r.Read? ==> |r.rest| < |t|
    decreases |t|, 3
  {
    match ReadField(t)
    case Unreadable => Unreadable
    case Read(f, rest) =>
      if rest != [] && rest[0] == COMMA then ReadFields(rest[1..], before + [f])
      else if rest != [] && rest[0] == CLOSE_OBJECT then Read(Obj(before + [f]), rest[1..])
      else Unreadable
  }

  /** Reads bytes as one JSON value. */
  function ReadBack(b: seq<Byte>): Option<Value> {
    match Decode(b)
    case None => None
    case Some(t) =>
      match ReadValue(t) case Unreadable => None case Read(v, rest) => if rest == [] then Some(v) else None
  }

  /** What may follow a value: nothing that could belong to a numeral. */
  predicate Closes(rest: Text) { rest == [] || !IsNumeralUnit(rest[0]) }

  lemma {:induction false} RunStops(t: Text, rest: Text)
    requires (forall i :: 0 <= i < |t| ==> IsNumeralUnit(t[i])) && Closes(rest)
    ensures Run(t + rest) == |t|
  {
    if t == [] {
      assert t + rest == rest;
    } else {
      assert (t + rest)[1..] == t[1..] + rest;
      RunStops(t[1..], rest);
    }
  }

  lemma {:induction false} DecimalReads(n: nat)
    ensures IsDecimal(Decimal(n)) && NatOf(Decimal(n)) == n
  {
    if n < 10 {
      assert [0x30 + n][..0] == [];
    } else {
      DecimalReads(n / 10);
      assert Decimal(n)[..|Decimal(n)| - 1] == Decimal(n / 10);
    }
  }

  lemma NumberReads(v: Value)
    requires v.Int? || v.Frac?
    ensures var t := Serialize(v);
            t != [] && (forall i :: 0 <= i < |t| ==> IsNumeralUnit(t[i])) && NumberOf(t) == Some(v)
  {
    match v
    case Int(n) =>
      DecimalReads(if n < 0 then -n else n);
      if n < 0 { assert IntText(n)[1..] == Decimal(-n) && IntText(n)[0] == MINUS; }
    case Frac(numeral) => NotAnInteger(numeral);
  }

  lemma NotAnInteger(t: Numeral)
    ensures t != [] && !IsDecimal(t) && !(t[0] == MINUS && IsDecimal(t[1..]))
  {
    var mark := if 0x2E in t then 0x2E else 0x65;
    var i :| 0 <= i < |t| && t[i] == mark;
    if i > 0 { assert t[1..][i - 1] == mark; }
  }

  lemma NumberReadsThere(v: Value, rest: Text)
    requires (v.Int? || v.Frac?) && Closes(rest)
    ensures ReadNumber(Serialize(v) + rest) == Read(v, rest) && IsNumeralUnit((Serialize(v) + rest)[0])
  {
    hide NumberOf; hide Serialize;
    var t := Serialize(v);
    NumberReads(v);
    RunStops(t, rest);
    assert (t + rest)[..|t|] == t && (t + rest)[|t|..] == rest;
  }

  lemma WordReads(word: Text, v: Value, rest: Text)
    requires word != []
    ensures ReadWord(word + rest, word, v) == Read(v, rest)
  {
    assert (word + rest)[|word|..] == rest;
  }

  /** No value begins like the end of an array. */
  lemma FirstUnit(v: Value)
    ensures Serialize(v) != [] && Serialize(v)[0] != CLOSE_ARRAY
  {
    if v.Int? || v.Frac? {
      NumberReads(v);
    }
  }

  lemma ScalarReads(v: Value, rest: Text)
    requires !v.Arr? && !v.Obj? && Closes(rest)
    ensures ReadValue(Serialize(v) + rest) == Read(v, rest)
  {
    hide ReadString; hide ReadNumber; hide ReadWord;
    var t := Serialize(v) + rest;
    match v
    case Null => WordReads(NULL_TEXT, v, rest);
    case Bool(b) => WordReads(if b then TRUE_TEXT else FALSE_TEXT, v, rest);
    case Int(_) | Frac(_) => NumberReadsThere(v, rest);
    case Str(text) =>
      LiteralReads(text, rest);
      assert t[1..] == Escape(text) + ([QUOTE] + rest);
  }

  lemma EmptyReads(rest: Text)
    ensures ReadValue([OPEN_ARRAY, CLOSE_ARRAY] + rest) == Read(Arr([]), rest)
    ensures ReadValue([OPEN_OBJECT, CLOSE_OBJECT] + rest) == Read(Obj([]), rest)
  {
    assert ([OPEN_ARRAY, CLOSE_ARRAY] + rest)[2..] == rest && ([OPEN_OBJECT, CLOSE_OBJECT] + rest)[2..] == rest;
  }

  lemma OpenedReads(t: Text)
    requires t != []
    ensures t[0] != CLOSE_ARRAY ==> ReadValue([OPEN_ARRAY] + t) == ReadItems(t, [])
    ensures t[0] != CLOSE_OBJECT ==> ReadValue([OPEN_OBJECT] + t) == ReadFields(t, [])
  {
    hide ReadItems; hide ReadFields;
    assert ([OPEN_ARRAY] + t)[1..] == t && ([OPEN_OBJECT] + t)[1..] == t;
  }

  lemma ContainerText(items: seq<Value>, fields: seq<Field>, rest: Text)
    ensures Serialize(Arr(items)) + rest == [OPEN_ARRAY] + (ItemsText(items) + ([CLOSE_ARRAY] + rest))
    ensures Serialize(Obj(fields)) + rest == [OPEN_OBJECT] + (FieldsText(fields) + ([CLOSE_OBJECT] + rest))
  {
    hide ItemsText; hide FieldsText;
  }

  lemma TextStarts(items: seq<Value>, fields: seq<Field>)
    ensures items != [] ==> ItemsText(items) != [] && ItemsText(items)[0] != CLOSE_ARRAY
    ensures fields != [] ==> FieldsText(fields) != [] && FieldsText(fields)[0] != CLOSE_OBJECT
  {
    hide Serialize; hide Escape;
    if items != [] { FirstUnit(items[0]); }
  }

  lemma {:induction false} ValueReads(v: Value, rest: Text)
    requires Closes(rest)
    ensures ReadValue(Serialize(v) + rest) == Read(v, rest)
    decreases v, 1
  {
    hide ReadValue; hide ReadItems; hide ReadFields; hide Serialize; hide ItemsText; hide FieldsText;
    match v
    case Arr(items) =>
      ContainerText(items, [], rest);
      if items == [] {
        EmptyReads(rest);
        EmptyText(rest);
      } else {
        ItemsRead(items, [], rest);
        TextStarts(items, []);
        OpenedReads(ItemsText(items) + ([CLOSE_ARRAY] + rest));
        assert [] + items == items;
      }
    case Obj(fields) =>
      ContainerText([], fields, rest);
      if fields == [] {
        EmptyReads(rest);
        EmptyText(rest);
      } else {
        FieldsRead(fields, [], rest);
        TextStarts([], fields);
        OpenedReads(FieldsText(fields) + ([CLOSE_OBJECT] + rest));
        assert [] + fields == fields;
      }
    case _ => ScalarReads(v, rest);
  }

  lemma EmptyText(rest: Text)
    ensures Serialize(Arr([])) + rest == [OPEN_ARRAY, CLOSE_ARRAY] + rest
    ensures Serialize(Obj([])) + rest == [OPEN_OBJECT, CLOSE_OBJECT] + rest
  {
    assert ItemsText([]) == [] && FieldsText([]) == [];
  }

  lemma ItemStep(t: Text, v: Value, after: Text, before: seq<Value>)
    ensures ReadValue(t) == Read(v, [COMMA] + after) ==> ReadItems(t, before) == ReadItems(after, before + [v])
    ensures ReadValue(t) == Read(v, [CLOSE_ARRAY] + after) ==> ReadItems(t, before) == Read(Arr(before + [v]), after)
  {
    hide ReadValue;
    assert ([COMMA] + after)[1..] == after && ([CLOSE_ARRAY] + after)[1..] == after;
  }

  lemma {:induction false} ItemsRead(items: seq<Value>, before: seq<Value>, rest: Text)
    requires items != []
    ensures ReadItems(ItemsText(items) + ([CLOSE_ARRAY] + rest), before) == Read(Arr(before + items), rest)
    decreases items, 0
  {
    hide ReadValue; hide ReadItems; hide Serialize;
    var t := ItemsText(items) + ([CLOSE_ARRAY] + rest);
    if |items| == 1 {
      ValueReads(items[0], [CLOSE_ARRAY] + rest);
      ItemStep(t, items[0], rest, before);
      assert items == [items[0]];
    } else {
      var after := ItemsText(items[1..]) + ([CLOSE_ARRAY] + rest);
      ValueReads(items[0], [COMMA] + after);
      assert t == Serialize(items[0]) + ([COMMA] + after);
      ItemStep(t, items[0], after, before);
      ItemsRead(items[1..], before + [items[0]], rest);
      assert before + [items[0]] + items[1..] == before + items;
    }
  }

  lemma KeyReads(key: Text, after: Text, v: Value, rest: Text)
    requires ReadValue(after) == Read(v, rest)
    ensures ReadField([QUOTE] + (Escape(key) + ([QUOTE] + ([COLON] + after)))) == Read(Field(key, v), rest)
  {
    hide ReadValue; hide ReadString; hide Escape;
    var t := Escape(key) + ([QUOTE] + ([COLON] + after));
    LiteralReads(key, [COLON] + after);
    assert ([QUOTE] + t)[1..] == t && ([COLON] + after)[1..] == after;
  }

  lemma {:induction false} FieldReads(f: Field, rest: Text)
    requires Closes(rest)
    ensures ReadField(FieldText(f) + rest) == Read(f, rest)
    decreases f, 1
  {
    hide ReadField; hide ReadValue; hide Escape; hide Serialize;
    var after := Serialize(f.value) + rest;
    ValueReads(f.value, rest);
    KeyReads(f.key, after, f.value, rest);
    assert FieldText(f) + rest == [QUOTE] + (Escape(f.key) + ([QUOTE] + ([COLON] + after)));
  }

  lemma FieldStep(t: Text, f: Field, after: Text, before: seq<Field>)
    ensures ReadField(t) == Read(f, [COMMA] + after) ==> ReadFields(t, before) == ReadFields(after, before + [f])
    ensures ReadField(t) == Read(f, [CLOSE_OBJECT] + after) ==> ReadFields(t, before) == Read(Obj(before + [f]), after)
  {
    hide ReadField;
    assert ([COMMA] + after)[1..] == after && ([CLOSE_OBJECT] + after)[1..] == after;
  }

  lemma {:induction false} FieldsRead(fields: seq<Field>, before: seq<Field>, rest: Text)
    requires fields != []
    ensures ReadFields(FieldsText(fields) + ([CLOSE_OBJECT] + rest), before) == Read(Obj(before + fields), rest)
    decreases fields, 0
  {
    hide ReadField; hide ReadFields; hide FieldText;
    var t := FieldsText(fields) + ([CLOSE_OBJECT] + rest);
    if |fields| == 1 {
      FieldReads(fields[0], [CLOSE_OBJECT] + rest);
      FieldStep(t, fields[0], rest, before);
      assert fields == [fields[0]];
    } else {
      var after := FieldsText(fields[1..]) + ([CLOSE_OBJECT] + rest);
      FieldReads(fields[0], [COMMA] + after);
      assert t == FieldText(fields[0]) + ([COMMA] + after);
      FieldStep(t, fields[0], after, before);
      FieldsRead(fields[1..], before + [fields[0]], rest);
      assert before + [fields[0]] + fields[1..] == before + fields;
    }
  }

  /** Whatever is written is read back as it was. */
  lemma WrittenReadsBack(v: Value)
    ensures ReadBack(Written(v)) == Some(v)
  {
    hide Decode; hide Encode; hide ReadValue; hide Serialize;
    ValueSize(v);
    DecodeEncode(Serialize(v));
    ValueReads(v, []);
    assert Serialize(v) + [] == Serialize(v);
  }
}
