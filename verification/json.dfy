/** JavaScript strings as UTF-16 code units, JSON values, and the number of bytes
    JSON.stringify produces for them once encoded as UTF-8 (section 3 of RFC 3629). */
module Json {
  import opened Common

  type Unit = u: int | 0 <= u < 0x10000

  type Text = seq<Unit>

  predicate IsHigh(u: Unit) { 0xD800 <= u < 0xDC00 }

  predicate IsLow(u: Unit) { 0xDC00 <= u < 0xE000 }

  function Code(c: char): Unit { if c as int < 0x10000 then c as int else 0xFFFD }

  /** The code units of a literal of the program. */
  function Chars(s: string): (t: Text)
    ensures |t| == |s| && forall i :: 0 <= i < |s| ==> t[i] == Code(s[i])
  {
    seq(|s|, i requires 0 <= i < |s| => Code(s[i]))
  }

  // ----- UTF-8 -----

  /** Bytes that unit k adds to the encoding of the units before it. A low surrogate completes
      the pair a high surrogate opened (3 + 1 bytes); a lone one is the 3 bytes of U+FFFD. */
  function UnitBytes(s: Text, k: nat): (n: nat)
    requires k < |s|
    ensures 1 <= n <= 3
  {
    if s[k] < 0x80 then 1
    else if s[k] < 0x800 then 2
    else if IsLow(s[k]) && k > 0 && IsHigh(s[k - 1]) then 1
    else 3
  }

  /** Buffer.byteLength(s, "utf8"). */
  function Utf8(s: Text): (n: nat)
    ensures |s| <= n <= 3 * |s|
  {
    if s == [] then 0 else Utf8(s[..|s| - 1]) + UnitBytes(s, |s| - 1)
  }

  /** A longer prefix never encodes to fewer bytes, even when it cuts a surrogate pair. */
  lemma {:induction false} Utf8Prefix(s: Text, i: nat, j: nat)
    requires i <= j <= |s|
    ensures Utf8(s[..i]) + (j - i) <= Utf8(s[..j])
    decreases j - i
  {
    if i < j {
      Utf8Prefix(s, i, j - 1);
      assert s[..j][..j - 1] == s[..j - 1];
    }
  }

  /** Text appended without completing a surrogate pair adds its own bytes. */
  lemma {:induction false} Utf8Append(s: Text, t: Text)
    requires s == [] || t == [] || !IsHigh(s[|s| - 1]) || !IsLow(t[0])
    ensures Utf8(s + t) == Utf8(s) + Utf8(t)
  {
    if t == [] {
      assert s + t == s;
    } else {
      var n := |t| - 1;
      assert (s + t)[..|s + t| - 1] == s + t[..n];
      Utf8Append(s, t[..n]);
      assert UnitBytes(s + t, |s + t| - 1) == UnitBytes(t, n);
    }
  }

  // ----- JSON string literals (section 7 of RFC 8259) -----

  /** Bytes of one unit that is not the start of a surrogate pair. */
  function EscapedUnit(u: Unit): (n: nat)
    ensures 1 <= n <= 6
  {
    if u == 0x22 || u == 0x5C then 2
    else if u in {8, 9, 10, 12, 13} then 2
    else if u < 0x20 then 6
    else if u < 0x80 then 1
    else if u < 0x800 then 2
    else if IsHigh(u) || IsLow(u) then 6
    else 3
  }

  function EscapedBytes(s: Text): (n: nat)
    ensures |s| <= n <= 6 * |s|
  {
    if s == [] then 0
    else if |s| >= 2 && IsHigh(s[0]) && IsLow(s[1]) then 4 + EscapedBytes(s[2..])
    else EscapedUnit(s[0]) + EscapedBytes(s[1..])
  }

  function QuotedBytes(s: Text): nat { 2 + EscapedBytes(s) }

  /** Length of the decimal numeral of n. */
  function Digits(n: nat): (d: nat)
    ensures d >= 1
  {
    if n < 10 then 1 else 1 + Digits(n / 10)
  }

  lemma {:induction false} DigitsMonotone(m: nat, n: nat)
    requires m <= n
    ensures Digits(m) <= Digits(n)
  {
    if m >= 10 {
      DigitsMonotone(m / 10, n / 10);
    }
  }

  lemma {:induction false} DigitsStep(n: nat)
    ensures Digits(n) <= Digits(n + 1) <= Digits(n) + 1
  {
    DigitsMonotone(n, n + 1);
    if n >= 10 {
      DigitsStep(n / 10);
      assert (n + 1) / 10 == n / 10 || (n + 1) / 10 == n / 10 + 1;
    }
  }

  // ----- JSON values -----

  predicate IsDigit(u: Unit) { 0x30 <= u < 0x3A }

  /** A digit, a sign, the decimal point or the exponent mark. */
  predicate IsNumeralUnit(u: Unit) { IsDigit(u) || u in {0x2B, 0x2D, 0x2E, 0x65} }

  /** How a number prints that does not print as an integer. */
  predicate IsNumeral(t: Text) { (forall i :: 0 <= i < |t| ==> IsNumeralUnit(t[i])) && (0x2E in t || 0x65 in t) }

  type Numeral = t: Text | IsNumeral(t) witness [0x30, 0x2E, 0x35]

  /** A finite number is either one that prints as an integer or carried as the numeral it prints as. */
  datatype Value =
    | Null
    | Bool(b: bool)
    | Int(n: int)
    | Frac(numeral: Numeral)
    | Str(text: Text)
    | Arr(items: seq<Value>)
    | Obj(fields: seq<Field>)

  datatype Field = Field(key: Text, value: Value)

  function IntBytes(n: int): nat { if n < 0 then 1 + Digits(-n) else Digits(n) }

  function Commas(n: nat): nat { if n == 0 then 0 else n - 1 }

  /** Buffer.byteLength(JSON.stringify(v), "utf8"). */
  function Bytes(v: Value): (n: nat)
    decreases v, 1
  {
    match v
    case Null => 4
    case Bool(b) => if b then 4 else 5
    case Int(n) => IntBytes(n)
    case Frac(numeral) => |numeral|
    case Str(text) => QuotedBytes(text)
    case Arr(items) => 2 + SumItems(items) + Commas(|items|)
    case Obj(fields) => 2 + SumFields(fields) + Commas(|fields|)
  }

  function SumItems(items: seq<Value>): nat
    decreases items, 0
  {
    if items == [] then 0 else SumItems(items[..|items| - 1]) + Bytes(items[|items| - 1])
  }

  function FieldBytes(f: Field): nat
    decreases f, 1
  {
    QuotedBytes(f.key) + 1 + Bytes(f.value)
  }

  function SumFields(fields: seq<Field>): nat
    decreases fields, 0
  {
    if fields == [] then 0 else SumFields(fields[..|fields| - 1]) + FieldBytes(fields[|fields| - 1])
  }

  /** Replacing one item of an array moves the total by the difference of the two items. */
  lemma {:induction false} SumItemsUpdate(items: seq<Value>, i: nat, v: Value)
    requires i < |items|
    ensures SumItems(items[i := v]) == SumItems(items) - Bytes(items[i]) + Bytes(v)
  {
    var n := |items| - 1;
    if i == n {
      assert items[i := v][..n] == items[..n];
    } else {
      assert items[i := v][..n] == items[..n][i := v];
      SumItemsUpdate(items[..n], i, v);
    }
  }

  // ----- objects with optional members -----

  /** A member of an object literal that is spread in only when its value is present. */
  datatype Entry = Entry(key: Text, value: Option<Value>)

  function Present(entries: seq<Entry>): (fields: seq<Field>)
    ensures |fields| <= |entries|
  {
    if entries == [] then []
    else
      var e := entries[|entries| - 1];
      Present(entries[..|entries| - 1]) + (if e.value.Some? then [Field(e.key, e.value.value)] else [])
  }

  predicate DistinctKeys(entries: seq<Entry>)
  {
    forall i, j :: 0 <= i < j < |entries| ==> entries[i].key != entries[j].key
  }

  /** The value read back for a key, `None` standing for undefined. */
  function Get(fields: seq<Field>, key: Text): Option<Value>
  {
    if fields == [] then None
    else if fields[|fields| - 1].key == key then Some(fields[|fields| - 1].value)
    else Get(fields[..|fields| - 1], key)
  }

  lemma {:induction false} GetAbsent(entries: seq<Entry>, key: Text)
    requires forall i :: 0 <= i < |entries| ==> entries[i].key != key
    ensures Get(Present(entries), key) == None
  {
    if entries != [] {
      var init := entries[..|entries| - 1];
      GetAbsent(init, key);
      var last := entries[|entries| - 1];
      if last.value.Some? {
        assert Present(entries)[..|Present(entries)| - 1] == Present(init);
      } else {
        assert Present(entries) == Present(init);
      }
    }
  }

  /** Members that were spread in are read back, the others read as undefined. */
  lemma {:induction false} GetPresent(entries: seq<Entry>, i: nat)
    requires DistinctKeys(entries) && i < |entries|
    ensures Get(Present(entries), entries[i].key) == entries[i].value
  {
    var n := |entries| - 1;
    var init := entries[..n];
    var last := entries[n];
    if last.value.Some? {
      assert Present(entries)[..|Present(entries)| - 1] == Present(init);
    } else {
      assert Present(entries) == Present(init);
    }
    if i == n {
      if last.value.None? {
        GetAbsent(init, last.key);
      }
    } else {
      GetPresent(init, i);
    }
  }

  lemma {:induction false} PresentKeys(entries: seq<Entry>)
    ensures forall f :: f in Present(entries) ==> exists e :: e in entries && e.key == f.key
  {
    if entries != [] {
      var n := |entries| - 1;
      PresentKeys(entries[..n]);
      forall f | f in Present(entries)
        ensures exists e :: e in entries && e.key == f.key
      {
        if f in Present(entries[..n]) {
          var e :| e in entries[..n] && e.key == f.key;
          assert e in entries;
        } else {
          assert entries[n] in entries && entries[n].key == f.key;
        }
      }
    }
  }

  function EntryBytes(e: Entry): nat { if e.value.Some? then FieldBytes(Field(e.key, e.value.value)) else 0 }

  function SumEntries(entries: seq<Entry>): nat {
    if entries == [] then 0 else SumEntries(entries[..|entries| - 1]) + EntryBytes(entries[|entries| - 1])
  }

  function CountPresent(entries: seq<Entry>): nat {
    if entries == [] then 0
    else CountPresent(entries[..|entries| - 1]) + (if entries[|entries| - 1].value.Some? then 1 else 0)
  }

  lemma {:induction false} PresentBytes(entries: seq<Entry>)
    ensures SumFields(Present(entries)) == SumEntries(entries) && |Present(entries)| == CountPresent(entries)
  {
    if entries != [] {
      var init := entries[..|entries| - 1];
      var e := entries[|entries| - 1];
      PresentBytes(init);
      if e.value.Some? {
        assert Present(entries)[..|Present(entries)| - 1] == Present(init);
      } else {
        assert Present(entries) == Present(init);
      }
    }
  }

  function ObjectBytes(entries: seq<Entry>): nat { Bytes(Obj(Present(entries))) }

  lemma ObjectBytesSum(entries: seq<Entry>)
    ensures ObjectBytes(entries) == 2 + SumEntries(entries) + Commas(CountPresent(entries))
  {
    PresentBytes(entries);
  }

  lemma {:induction false} SumEntriesUpdate(entries: seq<Entry>, i: nat, v: Value)
    requires i < |entries| && entries[i].value.Some?
    ensures var updated := entries[i := Entry(entries[i].key, Some(v))];
            && SumEntries(updated) == SumEntries(entries) - Bytes(entries[i].value.value) + Bytes(v)
            && CountPresent(updated) == CountPresent(entries)
  {
    var n := |entries| - 1;
    var updated := entries[i := Entry(entries[i].key, Some(v))];
    if i == n {
      assert updated[..n] == entries[..n];
    } else {
      assert updated[..n] == entries[..n][i := Entry(entries[i].key, Some(v))];
      SumEntriesUpdate(entries[..n], i, v);
    }
  }

  /** Replacing the value of a present member moves the object's size by the difference. */
  lemma ObjectBytesUpdate(entries: seq<Entry>, i: nat, v: Value)
    requires i < |entries| && entries[i].value.Some?
    ensures ObjectBytes(entries[i := Entry(entries[i].key, Some(v))])
         == ObjectBytes(entries) - Bytes(entries[i].value.value) + Bytes(v)
  {
    ObjectBytesSum(entries);
    ObjectBytesSum(entries[i := Entry(entries[i].key, Some(v))]);
    SumEntriesUpdate(entries, i, v);
  }

  lemma {:induction false} SumEntriesAppend(a: seq<Entry>, b: seq<Entry>)
    ensures SumEntries(a + b) == SumEntries(a) + SumEntries(b)
    ensures CountPresent(a + b) == CountPresent(a) + CountPresent(b)
  {
    if b == [] {
      assert a + b == a;
    } else {
      assert (a + b)[..|a + b| - 1] == a + b[..|b| - 1];
      SumEntriesAppend(a, b[..|b| - 1]);
    }
  }

  lemma SumEntriesOne(e: Entry)
    ensures SumEntries([e]) == EntryBytes(e) && CountPresent([e]) <= 1
  {
    assert [e][..0] == [];
  }

  lemma SumEntriesFour(a: Entry, b: Entry, c: Entry, d: Entry)
    ensures SumEntries([a, b, c, d]) == EntryBytes(a) + EntryBytes(b) + EntryBytes(c) + EntryBytes(d)
    ensures CountPresent([a, b, c, d]) <= 4
  {
    assert [a, b, c, d] == [a] + ([b] + ([c] + [d]));
    SumEntriesOne(a); SumEntriesOne(b); SumEntriesOne(c); SumEntriesOne(d);
    SumEntriesAppend([a], [b] + ([c] + [d]));
    SumEntriesAppend([b], [c] + [d]);
    SumEntriesAppend([c], [d]);
  }

  /** Leaving out a present member removes its bytes and, unless it was alone, a comma. */
  lemma {:induction false} SumEntriesRemove(entries: seq<Entry>, i: nat)
    requires i < |entries| && entries[i].value.Some?
    ensures var removed := entries[i := Entry(entries[i].key, None)];
            && SumEntries(removed) == SumEntries(entries) - EntryBytes(entries[i])
            && CountPresent(removed) == CountPresent(entries) - 1
  {
    var n := |entries| - 1;
    var removed := entries[i := Entry(entries[i].key, None)];
    if i == n {
      assert removed[..n] == entries[..n];
    } else {
      assert removed[..n] == entries[..n][i := Entry(entries[i].key, None)];
      SumEntriesRemove(entries[..n], i);
    }
  }

  lemma {:induction false} SumEntriesAtLeast(entries: seq<Entry>, i: nat)
    requires i < |entries|
    ensures SumEntries(entries) >= EntryBytes(entries[i])
  {
    if i < |entries| - 1 {
      SumEntriesAtLeast(entries[..|entries| - 1], i);
    }
  }
}
