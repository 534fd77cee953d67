/** How much one sanitize call can count, whatever the shape of the object graph. */
module Tallies {
  import opened Common
  import opened Json
  import opened Truncate
  import opened Sanitize

  /** A length no list or record of the graph exceeds: 2^27. */
  const LONGEST := 134_217_728

  /** The most visits one sanitize call makes: one for the root and 128 below each of 8192 containers. */
  const MAX_VISITS := 1_048_577

  predicate Moderate(heap: Heap) { forall r :: r in heap ==> ModerateObject(heap[r]) }

  predicate ModerateObject(o: JsObject) {
    match o
    case JsArray(items) => |items| <= LONGEST
    case JsRecord(members) => |members| <= LONGEST
  }

  /** How many more visits may still descend. */
  function Budget(p: Progress): nat { if p.nodes >= MAX_NODES then 0 else MAX_NODES - p.nodes }

  /** What `visits` visits and everything below them may add: each descent uses up budget and allows 128
      visits more, and only a descent counts the children past a limit. */
  predicate Adds(before: Progress, after: Progress, visits: nat) {
    && after.nodes >= before.nodes
    && var steps, descents := after.nodes - before.nodes, Budget(before) - Budget(after);
       && steps <= visits + 128 * descents
       && after.tally.truncatedValues - before.tally.truncatedValues <= steps
       && after.tally.redactedValues - before.tally.redactedValues <= steps
       && after.tally.droppedValues - before.tally.droppedValues <= steps + LONGEST * descents
  }

  lemma AddsOn(a: Progress, b: Progress, c: Progress, m: nat, n: nat)
    requires Adds(a, b, m) && Adds(b, c, n)
    ensures Adds(a, c, m + n)
  {
  }

  lemma ScalarAdds(value: Js, before: Progress)
    requires !value.JsRef?
    ensures Adds(before, VisitScalar(value, before.(nodes := before.nodes + 1)).after, 1)
  {
    hide LooksLikeBase64; hide Truncated;
  }

  /** A container adds what its children add, itself, and the children it cuts off. */
  lemma ContainerAdds(before: Progress, q: Progress, length: nat, limit: nat)
    requires before.nodes < MAX_NODES && limit <= length <= LONGEST && limit <= 128
    requires Adds(before.(nodes := before.nodes + 1), q, limit)
    ensures Adds(before, q.CutTo(length, limit), 1)
  {
  }

  /** A visit that does not descend counts at most one value. */
  lemma MarkAdds(before: Progress)
    ensures var p := before.(nodes := before.nodes + 1);
            Adds(before, p.Dropped(1), 1) && Adds(before, p.Redacted(), 1) && Adds(before, p.Truncated(), 1)
  {
  }

  lemma {:induction false} VisitAdds(heap: Heap, value: Js, depth: nat, key: Option<Text>, path: set<Ref>, before: Progress)
    requires depth <= MAX_DEPTH && Moderate(heap)
    ensures Adds(before, Visit(heap, value, depth, key, path, before).after, 1)
    decreases MAX_DEPTH - depth, 2
  {
    hide VisitItems; hide VisitMembers; hide VisitScalar; hide IsSensitiveKey; hide IsMediaKey; hide IsMediaObject; hide Adds;
    var p := before.(nodes := before.nodes + 1);
    MarkAdds(before);
    if !value.JsRef? {
      ScalarAdds(value, before);
    } else if depth < MAX_DEPTH && p.nodes <= MAX_NODES {
      match At(heap, value.ref)
      case JsArray(items) =>
        var limit := Min(|items|, MAX_ARRAY_ITEMS);
        ItemsAdd(heap, items, limit, depth, path + {value.ref}, p);
        ContainerAdds(before, VisitItems(heap, items, limit, depth, path + {value.ref}, p).1, |items|, limit);
      case JsRecord(members) =>
        var limit := Min(|members|, MAX_KEYS);
        MembersAdd(heap, members, limit, depth, path + {value.ref}, p);
        ContainerAdds(before, VisitMembers(heap, members, limit, depth, path + {value.ref}, p).1, |members|, limit);
    }
  }

  lemma {:induction false} ItemsAdd(heap: Heap, items: seq<Js>, n: nat, depth: nat, path: set<Ref>, before: Progress)
    requires depth < MAX_DEPTH && n <= |items| && Moderate(heap)
    ensures Adds(before, VisitItems(heap, items, n, depth, path, before).1, n)
    decreases MAX_DEPTH - depth, 1, n
  {
    hide Visit; hide Adds; hide Moderate;
    if n == 0 {
      AddsNothing(before);
    } else {
      var p := VisitItems(heap, items, n - 1, depth, path, before).1;
      ItemsAdd(heap, items, n - 1, depth, path, before);
      VisitAdds(heap, items[n - 1], depth + 1, None, path, p);
      AddsOn(before, p, Visit(heap, items[n - 1], depth + 1, None, path, p).after, n - 1, 1);
    }
  }

  lemma {:induction false} MembersAdd(heap: Heap, members: seq<Member>, n: nat, depth: nat, path: set<Ref>, before: Progress)
    requires depth < MAX_DEPTH && n <= |members| && Moderate(heap)
    ensures Adds(before, VisitMembers(heap, members, n, depth, path, before).1, n)
    decreases MAX_DEPTH - depth, 1, n
  {
    hide Visit; hide Adds; hide Moderate;
    if n == 0 {
      AddsNothing(before);
    } else {
      var p := VisitMembers(heap, members, n - 1, depth, path, before).1;
      MembersAdd(heap, members, n - 1, depth, path, before);
      var m := members[n - 1];
      VisitAdds(heap, m.value, depth + 1, Some(m.key), path, p);
      AddsOn(before, p, Visit(heap, m.value, depth + 1, Some(m.key), path, p).after, n - 1, 1);
    }
  }

  lemma AddsNothing(p: Progress)
    ensures Adds(p, p, 0)
  {
  }

  // ----- exactly what is counted -----

  function Plus(a: Tally, b: Tally): Tally {
    Tally(a.droppedValues + b.droppedValues, a.truncatedValues + b.truncatedValues, a.redactedValues + b.redactedValues)
  }

  const NONE := Tally(0, 0, 0)
  const DROP := Tally(1, 0, 0)
  const CUT := Tally(0, 1, 0)
  const REDACTION := Tally(0, 0, 1)

  /** What the children past a limit count: each of them is dropped, and their list is cut once. */
  function Overflow(length: nat, limit: nat): Tally {
    if length > limit then Tally(length - limit, 1, 0) else NONE
  }

  /** What a value with nothing to see below it counts, by cause. */
  function LeafLoss(heap: Heap, value: Js, key: Option<Text>, path: seq<Ref>): Tally {
    if key.Some? && IsSensitiveKey(key.value) then REDACTION
    else if Vanishes(value, key) then DROP
    else
      match value
      case JsNonFinite(_) | JsBigInt(_) => CUT
      case JsString(text) =>
        if LooksLikeBase64(text) then DROP else if Utf8(text) > MAX_STRING_BYTES then CUT else NONE
      case JsRef(_) => if |path| >= MAX_DEPTH then CUT else DROP
      case _ => NONE
  }

  /** What is counted for a value before which `at` others come: one drop for each value behind the first 8192,
      one loss for each value of the others that is not rendered as it is, and what overflows its limit. */
  function Losses(heap: Heap, value: Js, key: Option<Text>, path: seq<Ref>, at: nat): Tally
    requires |path| <= MAX_DEPTH
    decreases MAX_DEPTH - |path|, 2
  {
    if at >= MAX_NODES then DROP
    else if !Opens(heap, value, key, path) then LeafLoss(heap, value, key, path)
    else
      match At(heap, value.ref)
      case JsArray(items) =>
        Plus(LossesOfItems(heap, items, Min(|items|, MAX_ARRAY_ITEMS), path + [value.ref], at + 1),
             Overflow(|items|, MAX_ARRAY_ITEMS))
      case JsRecord(members) =>
        Plus(LossesOfMembers(heap, members, Min(|members|, MAX_KEYS), path + [value.ref], at + 1),
             Overflow(|members|, MAX_KEYS))
  }

  function LossesOfItems(heap: Heap, items: seq<Js>, n: nat, path: seq<Ref>, at: nat): Tally
    requires |path| <= MAX_DEPTH && n <= |items|
    decreases MAX_DEPTH - |path|, 3, n
  {
    if n == 0 then NONE
    else Plus(LossesOfItems(heap, items, n - 1, path, at),
              Losses(heap, items[n - 1], None, path, at + UnfoldedItems(heap, items, n - 1, path)))
  }

  function LossesOfMembers(heap: Heap, members: seq<Member>, n: nat, path: seq<Ref>, at: nat): Tally
    requires |path| <= MAX_DEPTH && n <= |members|
    decreases MAX_DEPTH - |path|, 3, n
  {
    if n == 0 then NONE
    else Plus(LossesOfMembers(heap, members, n - 1, path, at),
              Losses(heap, members[n - 1].value, Some(members[n - 1].key), path, at + UnfoldedMembers(heap, members, n - 1, path)))
  }

  lemma LeafCounts(heap: Heap, value: Js, key: Option<Text>, path: seq<Ref>, p: Progress)
    requires |path| <= MAX_DEPTH && !Opens(heap, value, key, path) && p.nodes < MAX_NODES
    ensures Visit(heap, value, |path|, key, PathSet(path), p).after.tally == Plus(p.tally, LeafLoss(heap, value, key, path))
  {
    hide IsSensitiveKey; hide IsMediaKey; hide IsMediaObject; hide VisitItems; hide VisitMembers; hide VisitScalar;
    if !value.JsRef? { ScalarCounts(value, p.(nodes := p.nodes + 1)); }
  }

  lemma ScalarCounts(value: Js, p: Progress)
    requires !value.JsRef?
    ensures VisitScalar(value, p).after.tally == Plus(p.tally, LeafLoss(map[], value, None, []))
  {
    hide LooksLikeBase64; hide Truncated;
    if value.JsString? { CutIsSeen(value.text); }
  }

  /** A string is cut exactly when it is too long. */
  lemma CutIsSeen(text: Text)
    ensures Truncated(text, MAX_STRING_BYTES) != text <==> Utf8(text) > MAX_STRING_BYTES
  {
    SuffixBytes();
    TruncatedFits(text, MAX_STRING_BYTES);
  }

  lemma SuffixBytes()
    ensures Utf8(TRUNCATION_SUFFIX) <= MAX_STRING_BYTES
  {
    assert Utf8(TRUNCATION_SUFFIX) <= 3 * |TRUNCATION_SUFFIX|;
  }

  /** The counters move by exactly the losses of what is visited. */
  lemma {:induction false} VisitCounts(heap: Heap, value: Js, key: Option<Text>, path: seq<Ref>, p: Progress, at: nat)
    requires |path| <= MAX_DEPTH && Agrees(p.nodes, at)
    ensures Visit(heap, value, |path|, key, PathSet(path), p).after.tally == Plus(p.tally, Losses(heap, value, key, path, at))
    decreases MAX_DEPTH - |path|, 2
  {
    hide VisitItems; hide VisitMembers; hide VisitScalar; hide IsSensitiveKey; hide IsMediaKey; hide IsMediaObject;
    hide LossesOfItems; hide LossesOfMembers; hide LeafLoss;
    if p.nodes >= MAX_NODES {
    } else if !Opens(heap, value, key, path) {
      LeafCounts(heap, value, key, path, p);
    } else {
      var q := p.(nodes := p.nodes + 1);
      var inner := path + [value.ref];
      assert PathSet(inner) == PathSet(path) + {value.ref};
      match At(heap, value.ref)
      case JsArray(items) => ItemsCount(heap, items, Min(|items|, MAX_ARRAY_ITEMS), inner, q, at + 1);
      case JsRecord(members) => MembersCount(heap, members, Min(|members|, MAX_KEYS), inner, q, at + 1);
    }
  }

  lemma {:induction false} ItemsCount(heap: Heap, items: seq<Js>, n: nat, path: seq<Ref>, p: Progress, at: nat)
    requires 0 < |path| <= MAX_DEPTH && n <= |items| && Agrees(p.nodes, at)
    ensures VisitItems(heap, items, n, |path| - 1, PathSet(path), p).1.tally
         == Plus(p.tally, LossesOfItems(heap, items, n, path, at))
    decreases MAX_DEPTH - |path|, 3, n
  {
    hide Visit; hide Losses; hide UnfoldedItems; hide RendersItem;
    if n > 0 {
      var q := VisitItems(heap, items, n - 1, |path| - 1, PathSet(path), p).1;
      ItemsCount(heap, items, n - 1, path, p, at);
      VisitItemsRender(heap, items, n - 1, path, p, at);
      VisitCounts(heap, items[n - 1], None, path, q, at + UnfoldedItems(heap, items, n - 1, path));
    }
  }

  lemma {:induction false} MembersCount(heap: Heap, members: seq<Member>, n: nat, path: seq<Ref>, p: Progress, at: nat)
    requires 0 < |path| <= MAX_DEPTH && n <= |members| && Agrees(p.nodes, at)
    ensures VisitMembers(heap, members, n, |path| - 1, PathSet(path), p).1.tally
         == Plus(p.tally, LossesOfMembers(heap, members, n, path, at))
    decreases MAX_DEPTH - |path|, 3, n
  {
    hide Visit; hide Losses; hide UnfoldedMembers; hide RendersMembers;
    if n > 0 {
      var m, q := members[n - 1], VisitMembers(heap, members, n - 1, |path| - 1, PathSet(path), p).1;
      MembersCount(heap, members, n - 1, path, p, at);
      VisitMembersRender(heap, members, n - 1, path, p, at);
      VisitCounts(heap, m.value, Some(m.key), path, q, at + UnfoldedMembers(heap, members, n - 1, path));
    }
  }

  /** One sanitize call counts the losses of its graph and, when the tree is too large to keep, the cut and
      every outermost child it takes. */
  lemma SanitizeCountsExactly(heap: Heap, input: Js, maxBytes: nat)
    ensures var full, s := VisitedRoot(heap, input), SanitizedRoot(heap, input, maxBytes);
            s.tally == Plus(Losses(heap, input, None, [], 0),
                            if Bytes(full) <= maxBytes then NONE else Tally(Children(full) - Children(s.value), 1, 0))
  {
    hide Visit; hide Losses; hide Bytes; hide VisitedRoot;
    assert PathSet([]) == {};
    VisitCounts(heap, input, None, [], START, 0);
  }

  function Children(v: Value): int { match v case Arr(items) => |items| case Obj(fields) => |fields| case _ => 0 }

  // ----- one sanitize call -----

  /** What one sanitized argument object or result can count, besides what its projection left out. */
  const MAX_TALLY := 1_099_600_000_000

  predicate TallyWithin(t: Tally, bound: nat) {
    t.droppedValues <= bound && t.truncatedValues <= bound && t.redactedValues <= bound
  }

  /** One sanitize call counts a bounded number of values, however the graph is shared or nested. */
  lemma SanitizeCounts(heap: Heap, input: Js, maxBytes: nat)
    requires Moderate(heap)
    ensures TallyWithin(SanitizedRoot(heap, input, maxBytes).tally, MAX_TALLY - 1)
    ensures SanitizedRoot(heap, input, maxBytes).tally.truncatedValues <= MAX_VISITS + 1
    ensures SanitizedRoot(heap, input, maxBytes).tally.redactedValues <= MAX_VISITS
  {
    hide Visit; hide Bounded; hide Moderate;
    VisitAdds(heap, input, 0, None, {}, START);
    VisitedRootNarrow(heap, input);
  }

  lemma VisitedRootNarrow(heap: Heap, input: Js)
    ensures var full := VisitedRoot(heap, input);
            (full.Arr? ==> |full.items| <= 128) && (full.Obj? ==> |full.fields| <= 128)
  {
    hide Visit; hide VisitedRoot;
    VisitedRootRenders(heap, input);
  }
}
