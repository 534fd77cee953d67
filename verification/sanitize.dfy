/** The trace sanitizer: an arbitrary JavaScript value, possibly a cyclic or shared object graph,
    becomes a bounded JSON tree. */
module Sanitize {
  import opened Common
  import opened Json
  import opened Truncate

  const MAX_STRING_BYTES := 16 * 1024
  const MAX_DEPTH := 12
  const MAX_KEYS := 128
  const MAX_ARRAY_ITEMS := 128
  const MAX_NODES := 8192

  const REDACTED: Text := Chars("[REDACTED]")
  const CIRCULAR: Text := Chars("[CIRCULAR]")
  const DROPPED: Text := Chars("[DROPPED]")
  const DEPTH_MARK: Text := Chars("[MAX_DEPTH]")
  const OMITTED_MEDIA: Text := Chars("[OMITTED_MEDIA]")
  const OMITTED_BASE64: Text := Chars("[OMITTED_BASE64]")

  // ----- object graphs -----

  type Ref = nat

  datatype Js =
    | JsNull
    | JsBool(b: bool)
    | JsInt(n: int)
    | JsFrac(numeral: Numeral)
    | JsNonFinite(name: Text)
    | JsString(text: Text)
    | JsBigInt(digits: Text)
    | JsUndefined
    | JsFunction
    | JsSymbol
    | JsRef(ref: Ref)

  datatype Member = Member(key: Text, value: Js)

  /** A record lists its own enumerable members in the order of their sorted keys. */
  datatype JsObject = JsArray(items: seq<Js>) | JsRecord(members: seq<Member>)

  type Heap = map<Ref, JsObject>

  function At(heap: Heap, ref: Ref): JsObject {
    if ref in heap then heap[ref] else JsRecord([])
  }

  function Property(members: seq<Member>, key: Text): Js {
    if members == [] then JsUndefined
    else if members[0].key == key then members[0].value
    else Property(members[1..], key)
  }

  // ----- classification of keys and values -----

  /** The letter or digit a unit lowers to, if any; U+212A and U+0130 lower into ASCII. */
  function LowerAlphanumeric(u: Unit): Text {
    if 0x41 <= u <= 0x5A then [u + 32]
    else if 0x61 <= u <= 0x7A || 0x30 <= u <= 0x39 then [u]
    else if u == 0x212A then [0x6B]
    else if u == 0x130 then [0x69]
    else []
  }

  function NormalizedKey(key: Text): Text {
    if key == [] then [] else LowerAlphanumeric(key[0]) + NormalizedKey(key[1..])
  }

  predicate EndsWith(s: Text, suffix: Text) {
    |suffix| <= |s| && s[|s| - |suffix|..] == suffix
  }

  predicate StartsWith(s: Text, start: Text) {
    |start| <= |s| && s[..|start|] == start
  }

  predicate Includes(s: Text, part: Text) {
    exists i :: 0 <= i <= |s| && StartsWith(s[i..], part)
  }

  const SENSITIVE_KEYS: seq<Text> := [
    Chars("password"), Chars("passwd"), Chars("secret"), Chars("token"), Chars("accesstoken"),
    Chars("refreshtoken"), Chars("authorization"), Chars("cookie"), Chars("credential"),
    Chars("credentials"), Chars("apikey"), Chars("privatekey"), Chars("clientsecret")]

  predicate IsSensitiveKey(key: Text) {
    exists i :: 0 <= i < |SENSITIVE_KEYS| && EndsWith(NormalizedKey(key), SENSITIVE_KEYS[i])
  }

  const MEDIA_KEYS: seq<Text> := [
    Chars("media"), Chars("image"), Chars("images"), Chars("audio"), Chars("video"), Chars("base64")]

  predicate IsMediaKey(key: Text) { NormalizedKey(key) in MEDIA_KEYS }

  predicate IsMediaObject(members: seq<Member>) {
    var kind := Property(members, Chars("type"));
    var primary := Property(members, Chars("mimeType"));
    var mime := if primary.JsUndefined? || primary.JsNull? then Property(members, Chars("mime_type")) else primary;
    || (kind.JsString? && kind.text in [Chars("image"), Chars("audio"), Chars("video")])
    || (mime.JsString? && (StartsWith(mime.text, Chars("image/")) || StartsWith(mime.text, Chars("audio/"))
                           || StartsWith(mime.text, Chars("video/"))))
  }

  predicate IsBase64Unit(u: Unit) {
    || 65 <= u <= 90 || 97 <= u <= 122 || 48 <= u <= 57 || u in {43, 47, 61, 10, 13}
  }

  predicate LooksLikeBase64(s: Text) {
    || (StartsWith(s, Chars("data:")) && Includes(s, Chars(";base64,")))
    || (|s| >= 1024 && |s| % 4 == 0 && forall i :: 0 <= i < |s| ==> IsBase64Unit(s[i]))
  }

  // ----- the visit, with its counters threaded through -----

  datatype Tally = Tally(droppedValues: nat, truncatedValues: nat, redactedValues: nat)

  datatype Progress = Progress(nodes: nat, tally: Tally) {
    function Dropped(n: nat): Progress { this.(tally := tally.(droppedValues := tally.droppedValues + n)) }

    function Truncated(): Progress { this.(tally := tally.(truncatedValues := tally.truncatedValues + 1)) }

    function Redacted(): Progress { this.(tally := tally.(redactedValues := tally.redactedValues + 1)) }

    /** Children past a limit are counted one by one, and the cut itself once. */
    function CutTo(length: nat, limit: nat): Progress
      requires limit <= length
    {
      if length > limit then Dropped(length - limit).Truncated() else this
    }
  }

  /** `node` is None when the value is dropped. */
  datatype Visited = Visited(node: Option<Value>, after: Progress)

  function VisitString(text: Text, p: Progress): Visited {
    if LooksLikeBase64(text) then Visited(Some(Str(OMITTED_BASE64)), p.Dropped(1))
    else
      var bounded := Truncated(text, MAX_STRING_BYTES);
      Visited(Some(Str(bounded)), if bounded != text then p.Truncated() else p)
  }

  function VisitScalar(value: Js, p: Progress): Visited
    requires !value.JsRef?
  {
    match value
    case JsNull => Visited(Some(Null), p)
    case JsBool(b) => Visited(Some(Bool(b)), p)
    case JsInt(n) => Visited(Some(Int(n)), p)
    case JsFrac(numeral) => Visited(Some(Frac(numeral)), p)
    case JsNonFinite(name) => Visited(Some(Str(Chars("[non-finite:") + name + Chars("]"))), p.Truncated())
    case JsString(text) => VisitString(text, p)
    case JsBigInt(digits) => Visited(Some(Str(digits + Chars("n"))), p.Truncated())
    case JsUndefined | JsFunction | JsSymbol => Visited(None, p.Dropped(1))
  }

  function Visit(heap: Heap, value: Js, depth: nat, key: Option<Text>, path: set<Ref>, before: Progress): Visited
    requires depth <= MAX_DEPTH
    decreases MAX_DEPTH - depth, 2
  {
    var p := before.(nodes := before.nodes + 1);
    if p.nodes > MAX_NODES then Visited(None, p.Dropped(1))
    else if key.Some? && IsSensitiveKey(key.value) then Visited(Some(Str(REDACTED)), p.Redacted())
    else if key.Some? && IsMediaKey(key.value) then Visited(None, p.Dropped(1))
    else if !value.JsRef? then VisitScalar(value, p)
    else if depth >= MAX_DEPTH then Visited(Some(Str(DEPTH_MARK)), p.Truncated())
    else if value.ref in path then Visited(Some(Str(CIRCULAR)), p.Dropped(1))
    else
      match At(heap, value.ref)
      case JsArray(items) =>
        var limit := Min(|items|, MAX_ARRAY_ITEMS);
        var (output, q) := VisitItems(heap, items, limit, depth, path + {value.ref}, p);
        Visited(Some(Arr(output)), q.CutTo(|items|, limit))
      case JsRecord(members) =>
        if IsMediaObject(members) then Visited(Some(Str(OMITTED_MEDIA)), p.Dropped(1))
        else
          var limit := Min(|members|, MAX_KEYS);
          var (output, q) := VisitMembers(heap, members, limit, depth, path + {value.ref}, p);
          Visited(Some(Obj(output)), q.CutTo(|members|, limit))
  }

  /** The first n items of an array, visited in order. */
  function VisitItems(heap: Heap, items: seq<Js>, n: nat, depth: nat, path: set<Ref>, before: Progress)
    : (seq<Value>, Progress)
    requires depth < MAX_DEPTH && n <= |items|
    decreases MAX_DEPTH - depth, 1, n
  {
    if n == 0 then ([], before)
    else
      var (output, p) := VisitItems(heap, items, n - 1, depth, path, before);
      var item := Visit(heap, items[n - 1], depth + 1, None, path, p);
      (output + [if item.node.Some? then item.node.value else Str(DROPPED)], item.after)
  }

  /** The first n members of a record, visited in key order. */
  function VisitMembers(heap: Heap, members: seq<Member>, n: nat, depth: nat, path: set<Ref>, before: Progress)
    : (seq<Field>, Progress)
    requires depth < MAX_DEPTH && n <= |members|
    decreases MAX_DEPTH - depth, 1, n
  {
    if n == 0 then ([], before)
    else
      var (output, p) := VisitMembers(heap, members, n - 1, depth, path, before);
      var m := members[n - 1];
      var child := Visit(heap, m.value, depth + 1, Some(m.key), path, p);
      (if child.node.Some? then output + [Field(m.key, child.node.value)] else output, child.after)
  }

  // ----- what a sanitized tree means, without counters -----

  /** A value that has no JSON form and vanishes from its parent. */
  predicate Vanishes(value: Js, key: Option<Text>) {
    || (key.Some? && IsMediaKey(key.value) && !IsSensitiveKey(key.value))
    || (!(key.Some? && IsSensitiveKey(key.value)) && (value.JsUndefined? || value.JsFunction? || value.JsSymbol?))
  }

  /** A value below which there is something to see: an object that is not too deep, does not lie on its own
      path, and is neither hidden by its key nor media. */
  predicate Opens(heap: Heap, value: Js, key: Option<Text>, path: seq<Ref>) {
    && value.JsRef? && |path| < MAX_DEPTH && value.ref !in path
    && !(key.Some? && (IsSensitiveKey(key.value) || IsMediaKey(key.value)))
    && (At(heap, value.ref).JsRecord? ==> !IsMediaObject(At(heap, value.ref).members))
  }

  /** How many values a value unfolds into, itself and its first 128 children included, however the graph
      shares them. */
  function Unfolded(heap: Heap, value: Js, key: Option<Text>, path: seq<Ref>): (n: nat)
    requires |path| <= MAX_DEPTH
    ensures n >= 1
    decreases MAX_DEPTH - |path|, 2
  {
    if !Opens(heap, value, key, path) then 1
    else
      match At(heap, value.ref)
      case JsArray(items) => 1 + UnfoldedItems(heap, items, Min(|items|, MAX_ARRAY_ITEMS), path + [value.ref])
      case JsRecord(members) => 1 + UnfoldedMembers(heap, members, Min(|members|, MAX_KEYS), path + [value.ref])
  }

  function UnfoldedItems(heap: Heap, items: seq<Js>, n: nat, path: seq<Ref>): nat
    requires |path| <= MAX_DEPTH && n <= |items|
    decreases MAX_DEPTH - |path|, 3, n
  {
    if n == 0 then 0 else UnfoldedItems(heap, items, n - 1, path) + Unfolded(heap, items[n - 1], None, path)
  }

  function UnfoldedMembers(heap: Heap, members: seq<Member>, n: nat, path: seq<Ref>): nat
    requires |path| <= MAX_DEPTH && n <= |members|
    decreases MAX_DEPTH - |path|, 3, n
  {
    if n == 0 then 0
    else UnfoldedMembers(heap, members, n - 1, path) + Unfolded(heap, members[n - 1].value, Some(members[n - 1].key), path)
  }

  /** A child is missing when it vanishes, or when `budget` values of the unfolding come before it. */
  predicate Missing(value: Js, key: Option<Text>, at: nat, budget: nat) { at >= budget || Vanishes(value, key) }

  /** `tree` renders the value reached along `path`, the objects on the way from the root, of which `at` values
      come before in the unfolding. Only an object that lies on its own path is a cycle. */
  ghost predicate Renders(
    heap: Heap, value: Js, key: Option<Text>, path: seq<Ref>, at: nat, budget: nat, tree: Value)
    requires |path| <= MAX_DEPTH
    decreases tree, 1
  {
    if key.Some? && IsSensitiveKey(key.value) then tree == Str(REDACTED)
    else if Vanishes(value, key) then false
    else
      match value
      case JsNull => tree == Null
      case JsBool(b) => tree == Bool(b)
      case JsInt(n) => tree == Int(n)
      case JsFrac(numeral) => tree == Frac(numeral)
      case JsNonFinite(name) => tree == Str(Chars("[non-finite:") + name + Chars("]"))
      case JsString(text) =>
        tree == Str(if LooksLikeBase64(text) then OMITTED_BASE64 else Truncated(text, MAX_STRING_BYTES))
      case JsBigInt(digits) => tree == Str(digits + Chars("n"))
      case JsRef(ref) =>
        if |path| >= MAX_DEPTH then tree == Str(DEPTH_MARK)
        else if ref in path then tree == Str(CIRCULAR)
        else (
          match At(heap, ref)
          case JsArray(items) =>
            && tree.Arr?
            && |tree.items| == Min(|items|, MAX_ARRAY_ITEMS)
            && forall i :: 0 <= i < |tree.items| ==> RendersItem(heap, items, i, path + [ref], at + 1, budget, tree.items[i])
          case JsRecord(members) =>
            if IsMediaObject(members) then tree == Str(OMITTED_MEDIA)
            else tree.Obj?
                 && RendersMembers(heap, members, Min(|members|, MAX_KEYS), path + [ref], at + 1, budget, tree.fields)
        )
      case _ => false
  }

  /** An item keeps its place; a missing one is marked. */
  ghost predicate RendersItem(
    heap: Heap, items: seq<Js>, i: nat, path: seq<Ref>, at: nat, budget: nat, tree: Value)
    requires |path| <= MAX_DEPTH && i < |items|
    decreases tree, 2
  {
    var before := at + UnfoldedItems(heap, items, i, path);
    if Missing(items[i], None, before, budget) then tree == Str(DROPPED)
    else Renders(heap, items[i], None, path, before, budget, tree)
  }

  /** The fields render, in order and under their own keys, those of the first n members that are not missing. */
  ghost predicate RendersMembers(
    heap: Heap, members: seq<Member>, n: nat, path: seq<Ref>, at: nat, budget: nat, fields: seq<Field>)
    requires |path| <= MAX_DEPTH && n <= |members|
    decreases fields, 0, n
  {
    if n == 0 then fields == []
    else
      var m, before := members[n - 1], at + UnfoldedMembers(heap, members, n - 1, path);
      if Missing(m.value, Some(m.key), before, budget) then RendersMembers(heap, members, n - 1, path, at, budget, fields)
      else
        && fields != []
        && var last := fields[|fields| - 1];
           && last.key == m.key
           && Renders(heap, m.value, Some(m.key), path, before, budget, last.value)
           && RendersMembers(heap, members, n - 1, path, at, budget, fields[..|fields| - 1])
  }

  function PathSet(path: seq<Ref>): set<Ref> { set r | r in path }

  /** The counter agrees with a number of values of the unfolding as far as the budget goes. */
  predicate Agrees(nodes: nat, at: nat) { nodes == at || (nodes > MAX_NODES && at > MAX_NODES) }

  /** What a visit yields for a value before which `at` others come: nothing if it is missing, else a
      rendering; and the counter moves by what the value unfolds into. */
  ghost predicate Yields(heap: Heap, value: Js, key: Option<Text>, path: seq<Ref>, at: nat, v: Visited)
    requires |path| <= MAX_DEPTH
  {
    && Agrees(v.after.nodes, at + Unfolded(heap, value, key, path))
    && (v.node.None? <==> Missing(value, key, at, MAX_NODES))
    && (v.node.Some? ==> Renders(heap, value, key, path, at, MAX_NODES, v.node.value))
  }

  lemma LateVisitYields(heap: Heap, value: Js, key: Option<Text>, path: seq<Ref>, p: Progress, at: nat)
    requires |path| <= MAX_DEPTH && Agrees(p.nodes, at) && p.nodes >= MAX_NODES
    ensures Yields(heap, value, key, path, at, Visit(heap, value, |path|, key, PathSet(path), p))
  {
    hide Renders; hide Unfolded; hide Vanishes;
  }

  lemma ScalarYields(heap: Heap, value: Js, path: seq<Ref>, p: Progress, at: nat)
    requires |path| <= MAX_DEPTH && !value.JsRef? && !Vanishes(value, None)
    ensures var v := VisitScalar(value, p);
            v.node.Some? && v.after.nodes == p.nodes && Renders(heap, value, None, path, at, MAX_NODES, v.node.value)
  {
    hide LooksLikeBase64; hide Truncated;
  }

  /** What a key hides is redacted or vanishes; under any other key a scalar, a cycle, and what is too deep or
      media render as they would at the root. */
  lemma LeafYields(heap: Heap, value: Js, key: Option<Text>, path: seq<Ref>, p: Progress)
    requires |path| <= MAX_DEPTH && !Opens(heap, value, key, path) && p.nodes < MAX_NODES
    ensures Yields(heap, value, key, path, p.nodes, Visit(heap, value, |path|, key, PathSet(path), p))
  {
    hide IsSensitiveKey; hide IsMediaKey; hide IsMediaObject; hide LooksLikeBase64; hide Truncated; hide VisitScalar;
    if !value.JsRef? && !Vanishes(value, None) { ScalarYields(heap, value, path, p.(nodes := p.nodes + 1), p.nodes); }
    if !value.JsRef? && Vanishes(value, None) { NothingYields(value, p.(nodes := p.nodes + 1)); }
  }

  lemma NothingYields(value: Js, p: Progress)
    requires value.JsUndefined? || value.JsFunction? || value.JsSymbol?
    ensures VisitScalar(value, p) == Visited(None, p.Dropped(1))
  {
  }

  /** Every visit yields a rendering, with the objects on the path as its only cycle markers, and exactly the
      first 8192 values of the unfolding are looked at. */
  lemma {:induction false} VisitRenders(heap: Heap, value: Js, key: Option<Text>, path: seq<Ref>, p: Progress, at: nat)
    requires |path| <= MAX_DEPTH && Agrees(p.nodes, at)
    ensures Yields(heap, value, key, path, at, Visit(heap, value, |path|, key, PathSet(path), p))
    decreases MAX_DEPTH - |path|, 2
  {
    hide VisitItems; hide VisitMembers; hide VisitScalar; hide IsSensitiveKey; hide IsMediaKey; hide IsMediaObject;
    hide RendersMembers; hide UnfoldedItems; hide UnfoldedMembers;
    if p.nodes >= MAX_NODES {
      LateVisitYields(heap, value, key, path, p, at);
    } else if !Opens(heap, value, key, path) {
      LeafYields(heap, value, key, path, p);
    } else {
      var q := p.(nodes := p.nodes + 1);
      var inner := path + [value.ref];
      assert PathSet(inner) == PathSet(path) + {value.ref};
      match At(heap, value.ref)
      case JsArray(items) =>
        VisitItemsRender(heap, items, Min(|items|, MAX_ARRAY_ITEMS), inner, q, at + 1);
      case JsRecord(members) =>
        VisitMembersRender(heap, members, Min(|members|, MAX_KEYS), inner, q, at + 1);
    }
  }

  lemma {:induction false} VisitItemsRender(heap: Heap, items: seq<Js>, n: nat, path: seq<Ref>, p: Progress, at: nat)
    requires 0 < |path| <= MAX_DEPTH && n <= |items| && Agrees(p.nodes, at)
    ensures var (output, q) := VisitItems(heap, items, n, |path| - 1, PathSet(path), p);
            && Agrees(q.nodes, at + UnfoldedItems(heap, items, n, path))
            && |output| == n
            && forall i :: 0 <= i < n ==> RendersItem(heap, items, i, path, at, MAX_NODES, output[i])
    decreases MAX_DEPTH - |path|, 3, n
  {
    hide Visit; hide Renders; hide Vanishes; hide Unfolded; hide Missing; hide RendersItem; hide UnfoldedItems; hide Yields;
    if n > 0 {
      var q := VisitItems(heap, items, n - 1, |path| - 1, PathSet(path), p).1;
      VisitItemsRender(heap, items, n - 1, path, p, at);
      VisitRenders(heap, items[n - 1], None, path, q, at + UnfoldedItems(heap, items, n - 1, path));
      YieldsItem(heap, items, n, path, at, Visit(heap, items[n - 1], |path|, None, PathSet(path), q));
    } else {
      assert UnfoldedItems(heap, items, 0, path) == 0 by { NothingUnfolds(heap, items, path); }
    }
  }

  lemma NothingUnfolds(heap: Heap, items: seq<Js>, path: seq<Ref>)
    requires |path| <= MAX_DEPTH
    ensures UnfoldedItems(heap, items, 0, path) == 0
  {
  }

  lemma YieldsItem(heap: Heap, items: seq<Js>, n: nat, path: seq<Ref>, at: nat, v: Visited)
    requires |path| <= MAX_DEPTH && 0 < n <= |items|
    requires Yields(heap, items[n - 1], None, path, at + UnfoldedItems(heap, items, n - 1, path), v)
    ensures Agrees(v.after.nodes, at + UnfoldedItems(heap, items, n, path))
    ensures RendersItem(heap, items, n - 1, path, at, MAX_NODES, if v.node.Some? then v.node.value else Str(DROPPED))
  {
    hide Renders; hide Vanishes; hide Unfolded;
  }

  lemma {:induction false} VisitMembersRender(
    heap: Heap, members: seq<Member>, n: nat, path: seq<Ref>, p: Progress, at: nat)
    requires 0 < |path| <= MAX_DEPTH && n <= |members| && Agrees(p.nodes, at)
    ensures var (output, q) := VisitMembers(heap, members, n, |path| - 1, PathSet(path), p);
            && Agrees(q.nodes, at + UnfoldedMembers(heap, members, n, path))
            && RendersMembers(heap, members, n, path, at, MAX_NODES, output)
    decreases MAX_DEPTH - |path|, 3, n
  {
    hide Visit; hide Renders; hide Vanishes; hide Unfolded;
    if n > 0 {
      var (output, q) := VisitMembers(heap, members, n - 1, |path| - 1, PathSet(path), p);
      var m := members[n - 1];
      VisitMembersRender(heap, members, n - 1, path, p, at);
      VisitRenders(heap, m.value, Some(m.key), path, q, at + UnfoldedMembers(heap, members, n - 1, path));
      var child := Visit(heap, m.value, |path|, Some(m.key), PathSet(path), q);
      if child.node.Some? {
        var fields := output + [Field(m.key, child.node.value)];
        assert fields[..|fields| - 1] == output;
      }
    }
  }

  /** A budget that is not exceeded does not matter: the rendering is that of the whole graph. */
  lemma {:induction false} WholeRendering(
    heap: Heap, value: Js, key: Option<Text>, path: seq<Ref>, at: nat, budget: nat, other: nat, tree: Value)
    requires |path| <= MAX_DEPTH && Renders(heap, value, key, path, at, budget, tree)
    requires at + Unfolded(heap, value, key, path) <= Min(budget, other)
    ensures Renders(heap, value, key, path, at, other, tree)
    decreases tree, 1
  {
    hide RendersMembers; hide UnfoldedItems; hide UnfoldedMembers; hide IsSensitiveKey; hide IsMediaKey; hide IsMediaObject;
    hide LooksLikeBase64; hide Truncated;
    if Opens(heap, value, key, path) {
      var inner := path + [value.ref];
      match At(heap, value.ref)
      case JsArray(items) =>
        forall i | 0 <= i < |tree.items|
          ensures RendersItem(heap, items, i, inner, at + 1, other, tree.items[i])
        {
          assert RendersItem(heap, items, i, inner, at + 1, budget, tree.items[i]);
          var before := at + 1 + UnfoldedItems(heap, items, i, inner);
          ItemsUnfoldMore(heap, items, i, |tree.items|, inner);
          if !Missing(items[i], None, before, budget) {
            WholeRendering(heap, items[i], None, inner, before, budget, other, tree.items[i]);
          }
        }
      case JsRecord(members) =>
        WholeMembers(heap, members, Min(|members|, MAX_KEYS), inner, at + 1, budget, other, tree.fields);
    }
  }

  lemma {:induction false} WholeMembers(
    heap: Heap, members: seq<Member>, n: nat, path: seq<Ref>, at: nat, budget: nat, other: nat, fields: seq<Field>)
    requires |path| <= MAX_DEPTH && n <= |members| && RendersMembers(heap, members, n, path, at, budget, fields)
    requires at + UnfoldedMembers(heap, members, n, path) <= Min(budget, other)
    ensures RendersMembers(heap, members, n, path, at, other, fields)
    decreases fields, 0, n
  {
    hide Renders; hide Vanishes; hide Unfolded;
    if n > 0 {
      var m, before := members[n - 1], at + UnfoldedMembers(heap, members, n - 1, path);
      if Missing(m.value, Some(m.key), before, budget) {
        WholeMembers(heap, members, n - 1, path, at, budget, other, fields);
      } else {
        WholeRendering(heap, m.value, Some(m.key), path, before, budget, other, fields[|fields| - 1].value);
        WholeMembers(heap, members, n - 1, path, at, budget, other, fields[..|fields| - 1]);
      }
    }
  }

  lemma {:induction false} ItemsUnfoldMore(heap: Heap, items: seq<Js>, i: nat, n: nat, path: seq<Ref>)
    requires |path| <= MAX_DEPTH && i < n <= |items|
    ensures UnfoldedItems(heap, items, i, path) + Unfolded(heap, items[i], None, path) <= UnfoldedItems(heap, items, n, path)
    decreases n
  {
    hide Unfolded;
    if i < n - 1 { ItemsUnfoldMore(heap, items, i, n - 1, path); }
  }

  // ----- the shape of a sanitized tree -----

  /** At most `levels` containers deep, at most 128 children each, sensitive keys redacted. */
  predicate Bounded(tree: Value, levels: int)
    decreases tree
  {
    match tree
    case Arr(items) =>
      levels > 0 && |items| <= MAX_ARRAY_ITEMS && forall i :: 0 <= i < |items| ==> Bounded(items[i], levels - 1)
    case Obj(fields) =>
      levels > 0 && |fields| <= MAX_KEYS && forall i :: 0 <= i < |fields| ==>
        Bounded(fields[i].value, levels - 1)
        && (IsSensitiveKey(fields[i].key) ==> fields[i].value == Str(REDACTED))
    case _ => true
  }

  lemma {:induction false} RenderedBounded(
    heap: Heap, value: Js, key: Option<Text>, path: seq<Ref>, at: nat, budget: nat, tree: Value)
    requires |path| <= MAX_DEPTH && Renders(heap, value, key, path, at, budget, tree)
    ensures Bounded(tree, MAX_DEPTH - |path|)
    decreases tree, 1
  {
    hide UnfoldedItems; hide UnfoldedMembers; hide RendersMembers;
    if value.JsRef? && (tree.Arr? || tree.Obj?) {
      var inner := path + [value.ref];
      match At(heap, value.ref)
      case JsArray(items) =>
        forall i | 0 <= i < |tree.items|
          ensures Bounded(tree.items[i], MAX_DEPTH - |inner|)
        {
          assert RendersItem(heap, items, i, inner, at + 1, budget, tree.items[i]);
          var before := at + 1 + UnfoldedItems(heap, items, i, inner);
          if !Missing(items[i], None, before, budget) {
            RenderedBounded(heap, items[i], None, inner, before, budget, tree.items[i]);
          }
        }
      case JsRecord(members) =>
        RenderedFieldsBounded(heap, members, Min(|members|, MAX_KEYS), inner, at + 1, budget, tree.fields);
    }
  }

  lemma {:induction false} RenderedFieldsBounded(
    heap: Heap, members: seq<Member>, n: nat, path: seq<Ref>, at: nat, budget: nat, fields: seq<Field>)
    requires |path| <= MAX_DEPTH && n <= |members| && RendersMembers(heap, members, n, path, at, budget, fields)
    ensures |fields| <= n
    ensures forall i :: 0 <= i < |fields| ==>
              && Bounded(fields[i].value, MAX_DEPTH - |path|)
              && (IsSensitiveKey(fields[i].key) ==> fields[i].value == Str(REDACTED))
    decreases fields, 0, n
  {
    hide UnfoldedMembers; hide Vanishes;
    if n > 0 {
      var m, before := members[n - 1], at + UnfoldedMembers(heap, members, n - 1, path);
      if Missing(m.value, Some(m.key), before, budget) {
        RenderedFieldsBounded(heap, members, n - 1, path, at, budget, fields);
      } else {
        var k := |fields| - 1;
        RenderedFieldsBounded(heap, members, n - 1, path, at, budget, fields[..k]);
        RenderedBounded(heap, m.value, Some(m.key), path, before, budget, fields[k].value);
        forall i | 0 <= i < |fields|
          ensures Bounded(fields[i].value, MAX_DEPTH - |path|)
          ensures IsSensitiveKey(fields[i].key) ==> fields[i].value == Str(REDACTED)
        {
          if i < k { assert fields[i] == fields[..k][i]; }
        }
      }
    }
  }

  // ----- fitting a byte bound -----

  /** The number of leading items a greedy copy keeps: it stops at the first that does not fit. */
  function FittingItems(items: seq<Value>, budget: int): (k: nat)
    ensures k <= |items|
    ensures k > 0 ==> Bytes(Arr(items[..k])) <= budget
    ensures k < |items| ==> Bytes(Arr(items[..k + 1])) > budget
  {
    if items == [] then 0
    else
      var init := items[..|items| - 1];
      var k := FittingItems(init, budget);
      assert init[..k] == items[..k];
      assert items[..|items|] == items;
      assert k < |init| ==> init[..k + 1] == items[..k + 1];
      if k == |init| && Bytes(Arr(items)) <= budget then |items| else k
  }

  function FittingFields(fields: seq<Field>, budget: int): (k: nat)
    ensures k <= |fields|
    ensures k > 0 ==> Bytes(Obj(fields[..k])) <= budget
    ensures k < |fields| ==> Bytes(Obj(fields[..k + 1])) > budget
  {
    if fields == [] then 0
    else
      var init := fields[..|fields| - 1];
      var k := FittingFields(init, budget);
      assert init[..k] == fields[..k];
      assert fields[..|fields|] == fields;
      assert k < |init| ==> init[..k + 1] == fields[..k + 1];
      if k == |init| && Bytes(Obj(fields)) <= budget then |fields| else k
  }

  const START := Progress(0, Tally(0, 0, 0))

  function VisitedRoot(heap: Heap, input: Js): Value {
    var v := Visit(heap, input, 0, None, {}, START);
    if v.node.Some? then v.node.value else Str(DROPPED)
  }

  datatype Sanitized = Sanitized(value: Value, tally: Tally)

  /** The visited tree, its outermost container cut to leave 128 bytes of slack when too large. */
  function SanitizedRoot(heap: Heap, input: Js, maxBytes: nat): Sanitized {
    var full := VisitedRoot(heap, input);
    var after := Visit(heap, input, 0, None, {}, START).after;
    if Bytes(full) <= maxBytes then Sanitized(full, after.tally)
    else
      match full
      case Arr(items) =>
        var k := FittingItems(items, maxBytes - 128);
        Sanitized(Arr(items[..k]), after.Truncated().Dropped(|items| - k).tally)
      case Obj(fields) =>
        var k := FittingFields(fields, maxBytes - 128);
        Sanitized(Obj(fields[..k]), after.Truncated().Dropped(|fields| - k).tally)
      case _ => Sanitized(full, after.Truncated().tally)
  }

  /** isJsonValue: containers may nest two levels deeper than the sanitizer produces. */
  predicate IsJsonValue(v: Value, depth: nat)
    decreases v
  {
    match v
    case Arr(items) => depth <= MAX_DEPTH + 2 && forall i :: 0 <= i < |items| ==> IsJsonValue(items[i], depth + 1)
    case Obj(fields) => depth <= MAX_DEPTH + 2 && forall i :: 0 <= i < |fields| ==> IsJsonValue(fields[i].value, depth + 1)
    case _ => true
  }

  lemma {:induction false} BoundedIsJson(v: Value, levels: int, depth: nat)
    requires Bounded(v, levels) && levels + depth <= MAX_DEPTH + 3
    ensures IsJsonValue(v, depth)
    decreases v
  {
    match v
    case Arr(items) =>
      forall i | 0 <= i < |items| ensures IsJsonValue(items[i], depth + 1) {
        BoundedIsJson(items[i], levels - 1, depth + 1);
      }
    case Obj(fields) =>
      forall i | 0 <= i < |fields| ensures IsJsonValue(fields[i].value, depth + 1) {
        BoundedIsJson(fields[i].value, levels - 1, depth + 1);
      }
    case _ =>
  }

  /** The whole tree the visit produces for a graph renders that graph from its root, up to the first 8192
      values of its unfolding. */
  lemma VisitedRootRenders(heap: Heap, input: Js)
    ensures if Vanishes(input, None) then VisitedRoot(heap, input) == Str(DROPPED)
            else Renders(heap, input, None, [], 0, MAX_NODES, VisitedRoot(heap, input))
    ensures Bounded(VisitedRoot(heap, input), MAX_DEPTH)
  {
    hide Visit; hide Renders;
    assert PathSet([]) == {};
    VisitRenders(heap, input, None, [], START, 0);
    if !Vanishes(input, None) { RenderedBounded(heap, input, None, [], 0, MAX_NODES, VisitedRoot(heap, input)); }
  }

  /** A graph that unfolds into at most 8192 values is visited once a value and rendered whole: no larger
      budget would give anything else. */
  lemma SmallGraphIsWhole(heap: Heap, input: Js, budget: nat)
    requires !Vanishes(input, None) && Unfolded(heap, input, None, []) <= Min(MAX_NODES, budget)
    ensures Visit(heap, input, 0, None, {}, START).after.nodes == Unfolded(heap, input, None, [])
    ensures Renders(heap, input, None, [], 0, budget, VisitedRoot(heap, input))
  {
    hide Visit; hide Renders; hide Unfolded;
    assert PathSet([]) == {};
    VisitRenders(heap, input, None, [], START, 0);
    WholeRendering(heap, input, None, [], 0, MAX_NODES, budget, VisitedRoot(heap, input));
  }

  /** Whatever the graph, the sanitized value is bounded in depth and width, carries no sensitive
      value under a sensitive key, is accepted as JSON, and fits the bound when it is a container. */
  lemma SanitizedIsSafe(heap: Heap, input: Js, maxBytes: nat)
    requires maxBytes >= 2
    ensures var s := SanitizedRoot(heap, input, maxBytes).value;
            && Bounded(s, MAX_DEPTH)
            && IsJsonValue(s, 0)
            && (s.Arr? || s.Obj? ==> Bytes(s) <= maxBytes)
  {
    hide Visit; hide VisitedRoot; hide IsJsonValue; hide IsSensitiveKey; hide Renders; hide Vanishes;
    var full := VisitedRoot(heap, input);
    var s := SanitizedRoot(heap, input, maxBytes).value;
    VisitedRootRenders(heap, input);
    if Bytes(full) > maxBytes {
      match full
      case Arr(items) =>
        if s.items == [] { assert Bytes(s) == 2; }
      case Obj(fields) =>
        if s.fields == [] { assert Bytes(s) == 2; }
      case _ =>
    }
    BoundedIsJson(s, MAX_DEPTH, 0);
  }

  // ----- the sanitizer as it runs -----

  /** One sanitize call: the counters and the ancestor set its nested visits share. */
  class Pass {
    const heap: Heap
    var nodes: nat
    var droppedValues: nat
    var truncatedValues: nat
    var redactedValues: nat
    var ancestors: set<Ref>

    constructor (heap: Heap)
      ensures this.heap == heap && Counters() == START && ancestors == {}
    {
      this.heap := heap;
      nodes, droppedValues, truncatedValues, redactedValues := 0, 0, 0, 0;
      ancestors := {};
    }

    function Counters(): Progress
      reads this
    {
      Progress(nodes, Tally(droppedValues, truncatedValues, redactedValues))
    }

    method VisitLeaf(value: Js) returns (node: Option<Value>)
      requires !value.JsRef?
      modifies this
      ensures Visited(node, Counters()) == VisitScalar(value, old(Counters()))
      ensures ancestors == old(ancestors)
    {
      match value
      case JsNull => return Some(Null);
      case JsBool(b) => return Some(Bool(b));
      case JsInt(n) => return Some(Int(n));
      case JsFrac(numeral) => return Some(Frac(numeral));
      case JsNonFinite(name) =>
        truncatedValues := truncatedValues + 1;
        return Some(Str(Chars("[non-finite:") + name + Chars("]")));
      case JsString(text) =>
        if LooksLikeBase64(text) {
          droppedValues := droppedValues + 1;
          return Some(Str(OMITTED_BASE64));
        }
        var bounded := TruncateUtf8(text, MAX_STRING_BYTES);
        if bounded != text { truncatedValues := truncatedValues + 1; }
        return Some(Str(bounded));
      case JsBigInt(digits) =>
        truncatedValues := truncatedValues + 1;
        return Some(Str(digits + Chars("n")));
      case JsUndefined | JsFunction | JsSymbol =>
        droppedValues := droppedValues + 1;
        return None;
    }

    method VisitValue(value: Js, depth: nat, key: Option<Text>) returns (node: Option<Value>)
      requires depth <= MAX_DEPTH
      modifies this
      ensures Visited(node, Counters()) == Visit(heap, value, depth, key, old(ancestors), old(Counters()))
      ensures ancestors == old(ancestors)
      decreases MAX_DEPTH - depth, 1
    {
      hide VisitItems; hide VisitMembers; hide VisitScalar; hide IsSensitiveKey; hide IsMediaKey; hide IsMediaObject;
      nodes := nodes + 1;
      if nodes > MAX_NODES {
        droppedValues := droppedValues + 1;
        return None;
      }
      if key.Some? && IsSensitiveKey(key.value) {
        redactedValues := redactedValues + 1;
        return Some(Str(REDACTED));
      }
      if key.Some? && IsMediaKey(key.value) {
        droppedValues := droppedValues + 1;
        return None;
      }
      if !value.JsRef? {
        node := VisitLeaf(value);
        return;
      }
      if depth >= MAX_DEPTH {
        truncatedValues := truncatedValues + 1;
        return Some(Str(DEPTH_MARK));
      }
      if value.ref in ancestors {
        droppedValues := droppedValues + 1;
        return Some(Str(CIRCULAR));
      }
      match At(heap, value.ref)
      case JsArray(items) => node := VisitArray(value.ref, items, depth);
      case JsRecord(members) =>
        if IsMediaObject(members) {
          droppedValues := droppedValues + 1;
          return Some(Str(OMITTED_MEDIA));
        }
        node := VisitRecord(value.ref, members, depth);
    }

    method VisitArray(ref: Ref, items: seq<Js>, depth: nat) returns (node: Option<Value>)
      requires depth < MAX_DEPTH && ref !in ancestors
      modifies this
      ensures var limit := Min(|items|, MAX_ARRAY_ITEMS);
              var (output, q) := VisitItems(heap, items, limit, depth, old(ancestors) + {ref}, old(Counters()));
              node == Some(Arr(output)) && Counters() == q.CutTo(|items|, limit)
      ensures ancestors == old(ancestors)
      decreases MAX_DEPTH - depth, 0
    {
      ancestors := ancestors + {ref};
      var output := [];
      var limit := Min(|items|, MAX_ARRAY_ITEMS);
      for index := 0 to limit
        invariant (output, Counters()) == VisitItems(heap, items, index, depth, old(ancestors) + {ref}, old(Counters()))
        invariant ancestors == old(ancestors) + {ref}
      {
        var item := VisitValue(items[index], depth + 1, None);
        output := output + [if item.Some? then item.value else Str(DROPPED)];
      }
      if |items| > limit {
        droppedValues := droppedValues + |items| - limit;
        truncatedValues := truncatedValues + 1;
      }
      ancestors := ancestors - {ref};
      node := Some(Arr(output));
    }

    method VisitRecord(ref: Ref, members: seq<Member>, depth: nat) returns (node: Option<Value>)
      requires depth < MAX_DEPTH && ref !in ancestors
      modifies this
      ensures var limit := Min(|members|, MAX_KEYS);
              var (output, q) := VisitMembers(heap, members, limit, depth, old(ancestors) + {ref}, old(Counters()));
              node == Some(Obj(output)) && Counters() == q.CutTo(|members|, limit)
      ensures ancestors == old(ancestors)
      decreases MAX_DEPTH - depth, 0
    {
      ancestors := ancestors + {ref};
      var output := [];
      var limit := Min(|members|, MAX_KEYS);
      for index := 0 to limit
        invariant (output, Counters()) == VisitMembers(heap, members, index, depth, old(ancestors) + {ref}, old(Counters()))
        invariant ancestors == old(ancestors) + {ref}
      {
        var child := VisitValue(members[index].value, depth + 1, Some(members[index].key));
        if child.Some? { output := output + [Field(members[index].key, child.value)]; }
      }
      if |members| > limit {
        droppedValues := droppedValues + |members| - limit;
        truncatedValues := truncatedValues + 1;
      }
      ancestors := ancestors - {ref};
      node := Some(Obj(output));
    }
  }

  /** Copies items until the next one would not fit. */
  method KeepItems(items: seq<Value>, budget: int) returns (output: seq<Value>)
    ensures output == items[..FittingItems(items, budget)]
  {
    output := [];
    var index := 0;
    while index < |items|
      invariant 0 <= index <= |items| && output == items[..index]
      invariant FittingItems(items[..index], budget) == index
    {
      var next := output + [items[index]];
      assert next == items[..index + 1] && items[..index + 1][..index] == items[..index];
      if Bytes(Arr(next)) > budget { break; }
      output := next;
      index := index + 1;
    }
    assert items[..|items|] == items;
    FittingItemsStops(items, budget, index);
  }

  method KeepFields(fields: seq<Field>, budget: int) returns (output: seq<Field>)
    ensures output == fields[..FittingFields(fields, budget)]
  {
    output := [];
    var index := 0;
    while index < |fields|
      invariant 0 <= index <= |fields| && output == fields[..index]
      invariant FittingFields(fields[..index], budget) == index
    {
      var next := output + [fields[index]];
      assert next == fields[..index + 1] && fields[..index + 1][..index] == fields[..index];
      if Bytes(Obj(next)) > budget { break; }
      output := next;
      index := index + 1;
    }
    assert fields[..|fields|] == fields;
    FittingFieldsStops(fields, budget, index);
  }

  lemma {:induction false} FittingItemsStops(items: seq<Value>, budget: int, k: nat)
    requires k <= |items| && FittingItems(items[..k], budget) == k
    requires k < |items| ==> Bytes(Arr(items[..k + 1])) > budget
    ensures FittingItems(items, budget) == k
  {
    if k == |items| {
      assert items[..k] == items;
    } else {
      var init := items[..|items| - 1];
      assert init[..k] == items[..k];
      assert k < |init| ==> init[..k + 1] == items[..k + 1];
      assert k == |init| ==> items[..k + 1] == items;
      FittingItemsStops(init, budget, k);
    }
  }

  lemma {:induction false} FittingFieldsStops(fields: seq<Field>, budget: int, k: nat)
    requires k <= |fields| && FittingFields(fields[..k], budget) == k
    requires k < |fields| ==> Bytes(Obj(fields[..k + 1])) > budget
    ensures FittingFields(fields, budget) == k
  {
    if k == |fields| {
      assert fields[..k] == fields;
    } else {
      var init := fields[..|fields| - 1];
      assert init[..k] == fields[..k];
      assert k < |init| ==> init[..k + 1] == fields[..k + 1];
      assert k == |init| ==> fields[..k + 1] == fields;
      FittingFieldsStops(init, budget, k);
    }
  }

  /** Cuts the outermost container of a tree that serializes to too many bytes. */
  method CutToBytes(full: Value, maxBytes: nat) returns (value: Value, cut: nat)
    ensures match full
            case Arr(items) =>
              var k := FittingItems(items, maxBytes - 128);
              value == Arr(items[..k]) && cut == |items| - k
            case Obj(fields) =>
              var k := FittingFields(fields, maxBytes - 128);
              value == Obj(fields[..k]) && cut == |fields| - k
            case _ => value == full && cut == 0
  {
    match full
    case Arr(items) =>
      var output := KeepItems(items, maxBytes - 128);
      return Arr(output), |items| - |output|;
    case Obj(fields) =>
      var output := KeepFields(fields, maxBytes - 128);
      return Obj(output), |fields| - |output|;
    case _ => return full, 0;
  }

  lemma VisitedRootIs(heap: Heap, input: Js)
    ensures var node := Visit(heap, input, 0, None, {}, START).node;
            VisitedRoot(heap, input) == if node.Some? then node.value else Str(DROPPED)
  {
    hide Visit;
  }

  method SanitizeValue(heap: Heap, input: Js, maxBytes: nat) returns (r: Sanitized)
    ensures r == SanitizedRoot(heap, input, maxBytes)
  {
    hide Visit; hide VisitedRoot; hide Bytes; hide FittingItems; hide FittingFields;
    var pass := new Pass(heap);
    var node := pass.VisitValue(input, 0, None);
    var value := if node.Some? then node.value else Str(DROPPED);
    VisitedRootIs(heap, input);
    if Bytes(value) > maxBytes {
      var output, cut := CutToBytes(value, maxBytes);
      value := output;
      pass.truncatedValues := pass.truncatedValues + 1;
      pass.droppedValues := pass.droppedValues + cut;
    }
    r := Sanitized(value, pass.Counters().tally);
  }

  /** A projected argument object: anything that is not a record is replaced by an empty one. */
  function SanitizedArgs(heap: Heap, input: Js, maxBytes: nat, projectionDrops: nat): (seq<Field>, Tally) {
    var s := SanitizedRoot(heap, input, maxBytes);
    var tally := s.tally.(droppedValues := s.tally.droppedValues + projectionDrops);
    if s.value.Obj? then (s.value.fields, tally)
    else ([], tally.(droppedValues := tally.droppedValues + 1))
  }
}
