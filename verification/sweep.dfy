/** The artifact sweep: files past their age go first, then the oldest until the rest fits the byte
    bound; files whose owner is alive are never touched. */
module Sweep {
  import opened Common

  type Path = nat

  /** A candidate file; paths are ordered as the directory listing orders equal ages. */
  datatype Artifact = Artifact(path: Path, bytes: nat, mtime: int, held: bool)

  /** What one sweep is asked to do. Removing a file can fail, in either pass. */
  datatype Policy = Policy(now: int, maxAge: int, maxBytes: int, stuckWhenOld: set<Path>, stuckWhenBig: set<Path>)

  function Bytes(files: seq<Artifact>): nat {
    if files == [] then 0 else files[0].bytes + Bytes(files[1..])
  }

  lemma {:induction false} BytesAppend(a: seq<Artifact>, b: seq<Artifact>)
    ensures Bytes(a + b) == Bytes(a) + Bytes(b)
  {
    if a == [] {
      assert a + b == b;
    } else {
      assert (a + b)[0] == a[0] && (a + b)[1..] == a[1..] + b;
      BytesAppend(a[1..], b);
    }
  }

  // ----- oldest first -----

  predicate Before(a: Artifact, b: Artifact) { a.mtime < b.mtime || (a.mtime == b.mtime && a.path <= b.path) }

  predicate OldestFirst(files: seq<Artifact>) { forall i, j :: 0 <= i < j < |files| ==> Before(files[i], files[j]) }

  function Inserted(f: Artifact, sorted: seq<Artifact>): (r: seq<Artifact>)
    ensures multiset(r) == multiset(sorted) + multiset{f}
  {
    if sorted == [] then [f]
    else if Before(f, sorted[0]) then [f] + sorted
    else
      assert sorted == [sorted[0]] + sorted[1..];
      [sorted[0]] + Inserted(f, sorted[1..])
  }

  function Sorted(files: seq<Artifact>): (r: seq<Artifact>)
    ensures multiset(r) == multiset(files)
  {
    if files == [] then []
    else
      assert files == [files[0]] + files[1..];
      Inserted(files[0], Sorted(files[1..]))
  }

  lemma {:induction false} InsertedOldestFirst(f: Artifact, sorted: seq<Artifact>)
    requires OldestFirst(sorted)
    ensures OldestFirst(Inserted(f, sorted))
  {
    if sorted != [] && !Before(f, sorted[0]) {
      var rest := Inserted(f, sorted[1..]);
      InsertedOldestFirst(f, sorted[1..]);
      forall i | 0 <= i < |rest|
        ensures Before(sorted[0], rest[i])
      {
        assert rest[i] in multiset(rest);
        if rest[i] != f {
          assert rest[i] in sorted[1..];
          var k :| 0 <= k < |sorted[1..]| && sorted[1..][k] == rest[i];
          assert sorted[k + 1] == rest[i];
        }
      }
    }
  }

  lemma {:induction false} SortedOldestFirst(files: seq<Artifact>)
    ensures OldestFirst(Sorted(files))
  {
    if files != [] {
      SortedOldestFirst(files[1..]);
      InsertedOldestFirst(files[0], Sorted(files[1..]));
    }
  }

  // ----- the two passes -----

  predicate TooOld(f: Artifact, p: Policy) { !f.held && p.now - f.mtime >= p.maxAge }

  predicate AgesOut(f: Artifact, p: Policy) { TooOld(f, p) && f.path !in p.stuckWhenOld }

  /** The files a test picks, in their order. */
  function Aged(files: seq<Artifact>, p: Policy): seq<Artifact> {
    if files == [] then []
    else
      var n := |files| - 1;
      Aged(files[..n], p) + (if AgesOut(files[n], p) then [files[n]] else [])
  }

  function Survivors(files: seq<Artifact>, p: Policy): seq<Artifact> {
    if files == [] then []
    else
      var n := |files| - 1;
      Survivors(files[..n], p) + (if AgesOut(files[n], p) then [] else [files[n]])
  }

  /** The size pass: oldest first, as long as too much is kept. */
  function Victims(files: seq<Artifact>, kept: int, p: Policy): seq<Artifact> {
    if files == [] || kept <= p.maxBytes then []
    else if files[0].held || files[0].path in p.stuckWhenBig then Victims(files[1..], kept, p)
    else [files[0]] + Victims(files[1..], kept - files[0].bytes, p)
  }

  function Left(files: seq<Artifact>, kept: int, p: Policy): seq<Artifact> {
    if files == [] || kept <= p.maxBytes then files
    else if files[0].held || files[0].path in p.stuckWhenBig then [files[0]] + Left(files[1..], kept, p)
    else Left(files[1..], kept - files[0].bytes, p)
  }

  function Paths(files: seq<Artifact>): seq<Path> {
    seq(|files|, i requires 0 <= i < |files| => files[i].path)
  }

  function Held(files: seq<Artifact>): seq<Artifact> {
    if files == [] then [] else (if files[0].held then [files[0]] else []) + Held(files[1..])
  }

  function Unheld(files: seq<Artifact>): seq<Artifact> {
    if files == [] then [] else (if files[0].held then [] else [files[0]]) + Unheld(files[1..])
  }

  datatype Swept = Swept(removed: seq<Path>, keptBytes: int, heldBytes: nat, overBudgetBytes: int)

  function SweepOf(files: seq<Artifact>, p: Policy): Swept {
    var sorted := Sorted(files);
    var survivors := Survivors(sorted, p);
    var victims := Victims(survivors, Bytes(survivors), p);
    var kept := Bytes(survivors) - Bytes(victims);
    Swept(Paths(Aged(sorted, p)) + Paths(victims), kept, Bytes(Held(survivors)), Max(0, kept - p.maxBytes))
  }

  /** The files still there after a sweep. */
  function Remaining(files: seq<Artifact>, p: Policy): seq<Artifact> {
    var survivors := Survivors(Sorted(files), p);
    Left(survivors, Bytes(survivors), p)
  }

  // ----- the sweep as it runs -----

  method AgePass(files: seq<Artifact>, p: Policy) returns (removed: seq<Path>, survivors: seq<Artifact>, keptBytes: nat)
    ensures removed == Paths(Aged(files, p)) && survivors == Survivors(files, p) && keptBytes == Bytes(survivors)
  {
    removed, survivors, keptBytes := [], [], 0;
    for i := 0 to |files|
      invariant removed == Paths(Aged(files[..i], p))
      invariant survivors == Survivors(files[..i], p) && keptBytes == Bytes(survivors)
    {
      var f := files[i];
      assert files[..i + 1][..i] == files[..i];
      if !f.held && p.now - f.mtime >= p.maxAge && f.path !in p.stuckWhenOld {
        removed := removed + [f.path];
      } else {
        BytesAppend(survivors, [f]);
        survivors := survivors + [f];
        keptBytes := keptBytes + f.bytes;
      }
    }
    assert files[..|files|] == files;
  }

  method SizePass(survivors: seq<Artifact>, before: nat, p: Policy) returns (removed: seq<Path>, keptBytes: int)
    ensures removed == Paths(Victims(survivors, before, p)) && keptBytes == before - Bytes(Victims(survivors, before, p))
  {
    removed, keptBytes := [], before;
    ghost var gone: seq<Artifact> := [];
    assert survivors[0..] == survivors;
    for i := 0 to |survivors|
      invariant removed == Paths(gone) && keptBytes == before - Bytes(gone)
      invariant Victims(survivors, before, p) == gone + Victims(survivors[i..], keptBytes, p)
    {
      var f := survivors[i];
      assert survivors[i..][1..] == survivors[i + 1..];
      if keptBytes <= p.maxBytes { break; }
      if f.held || f.path in p.stuckWhenBig { continue; }
      BytesAppend(gone, [f]);
      gone := gone + [f];
      removed := removed + [f.path];
      keptBytes := keptBytes - f.bytes;
    }
    assert gone + [] == gone;
  }

  method SweepArtifacts(files: seq<Artifact>, p: Policy) returns (r: Swept)
    ensures r == SweepOf(files, p)
  {
    hide Aged; hide Survivors; hide Victims; hide Sorted;
    var aged, survivors, before := AgePass(Sorted(files), p);
    var evicted, kept := SizePass(survivors, before, p);
    var heldBytes := 0;
    assert survivors[..0] == [];
    for i := 0 to |survivors|
      invariant heldBytes + Bytes(Held(survivors[i..])) == Bytes(Held(survivors))
    {
      assert survivors[i..][1..] == survivors[i + 1..];
      BytesAppend(if survivors[i].held then [survivors[i]] else [], Held(survivors[i + 1..]));
      if survivors[i].held { heldBytes := heldBytes + survivors[i].bytes; }
    }
    r := Swept(aged + evicted, kept, heldBytes, Max(0, kept - p.maxBytes));
  }

  // ----- what a sweep guarantees -----

  lemma OneMore(files: seq<Artifact>, f: Artifact, a: seq<Artifact>, b: seq<Artifact>)
    requires multiset(files) == multiset(a) + multiset(b)
    ensures multiset(files + [f]) == multiset(a + [f]) + multiset(b) == multiset(a) + multiset(b + [f])
  {
  }

  lemma {:induction false} AgePassSplits(files: seq<Artifact>, p: Policy)
    ensures multiset(files) == multiset(Aged(files, p)) + multiset(Survivors(files, p))
  {
    if files != [] {
      var n := |files| - 1;
      var front, f := files[..n], files[n];
      AgePassSplits(front, p);
      assert files == front + [f];
      OneMore(front, f, Aged(front, p), Survivors(front, p));
      assert Aged(front, p) + [] == Aged(front, p) && Survivors(front, p) + [] == Survivors(front, p);
    }
  }

  lemma {:induction false} AgedAreOld(files: seq<Artifact>, p: Policy)
    ensures forall f :: f in Aged(files, p) ==> AgesOut(f, p)
    ensures forall f :: f in Survivors(files, p) ==> !AgesOut(f, p)
  {
    if files != [] { AgedAreOld(files[..|files| - 1], p); }
  }

  lemma {:induction false} SizePassSplits(files: seq<Artifact>, kept: int, p: Policy)
    ensures multiset(files) == multiset(Victims(files, kept, p)) + multiset(Left(files, kept, p))
    ensures Bytes(files) == Bytes(Victims(files, kept, p)) + Bytes(Left(files, kept, p))
    ensures forall f :: f in Victims(files, kept, p) ==> !f.held && f.path !in p.stuckWhenBig
  {
    if files != [] && kept > p.maxBytes {
      assert files == [files[0]] + files[1..];
      var stays := files[0].held || files[0].path in p.stuckWhenBig;
      SizePassSplits(files[1..], if stays then kept else kept - files[0].bytes, p);
    }
  }

  /** Every file is either removed, in one of the two passes, or still there; no held file is removed;
      and the kept bytes reported are the bytes of the files still there. */
  lemma SweepAccounts(files: seq<Artifact>, p: Policy)
    ensures var survivors := Survivors(Sorted(files), p);
            var aged, victims := Aged(Sorted(files), p), Victims(survivors, Bytes(survivors), p);
            && multiset(files) == multiset(aged) + multiset(victims) + multiset(Remaining(files, p))
            && (forall f :: f in aged + victims ==> !f.held)
            && SweepOf(files, p).removed == Paths(aged) + Paths(victims)
            && SweepOf(files, p).keptBytes == Bytes(Remaining(files, p))
  {
    var survivors := Survivors(Sorted(files), p);
    AgePassSplits(Sorted(files), p);
    AgedAreOld(Sorted(files), p);
    SizePassSplits(survivors, Bytes(survivors), p);
  }

  /** When no removal fails, the size pass takes the oldest files nobody holds, and no more of them than
      needed: without the last one the rest would still be too large. */
  lemma {:induction false} VictimsAreOldest(files: seq<Artifact>, kept: int, p: Policy)
    requires p.stuckWhenBig == {}
    ensures var victims := Victims(files, kept, p);
            && victims <= Unheld(files)
            && (victims != [] ==> kept - Bytes(victims[..|victims| - 1]) > p.maxBytes)
            && (kept - Bytes(victims) <= p.maxBytes || victims == Unheld(files))
  {
    if files != [] && kept > p.maxBytes {
      if files[0].held {
        VictimsAreOldest(files[1..], kept, p);
      } else {
        VictimsAreOldest(files[1..], kept - files[0].bytes, p);
        var rest := Victims(files[1..], kept - files[0].bytes, p);
        if rest != [] {
          assert ([files[0]] + rest)[..|rest|] == [files[0]] + rest[..|rest| - 1];
          BytesAppend([files[0]], rest[..|rest| - 1]);
        }
      }
    }
  }

  lemma {:induction false} HeldAndUnheld(files: seq<Artifact>)
    ensures Bytes(files) == Bytes(Held(files)) + Bytes(Unheld(files))
  {
    if files != [] {
      HeldAndUnheld(files[1..]);
      BytesAppend(if files[0].held then [files[0]] else [], Held(files[1..]));
      BytesAppend(if files[0].held then [] else [files[0]], Unheld(files[1..]));
    }
  }

  lemma {:induction false} LeftIsHeld(files: seq<Artifact>, kept: int, p: Policy)
    requires p.stuckWhenBig == {} && kept - Bytes(Victims(files, kept, p)) > p.maxBytes
    ensures forall f :: f in Left(files, kept, p) ==> f.held
  {
    if files != [] {
      LeftIsHeld(files[1..], if files[0].held then kept else kept - files[0].bytes, p);
    }
  }

  /** When no removal fails, the sweep ends over budget exactly when the held files alone are too much,
      and then only held files are left. */
  lemma OverageIsHeld(files: seq<Artifact>, p: Policy)
    requires p.stuckWhenBig == {}
    ensures var r := SweepOf(files, p);
            && (r.overBudgetBytes > 0 <==> r.heldBytes > p.maxBytes)
            && (r.overBudgetBytes > 0 ==> r.keptBytes == r.heldBytes && forall f :: f in Remaining(files, p) ==> f.held)
  {
    var survivors := Survivors(Sorted(files), p);
    var kept := Bytes(survivors);
    VictimsAreOldest(survivors, kept, p);
    HeldAndUnheld(survivors);
    var victims := Victims(survivors, kept, p);
    PrefixBytes(victims, Unheld(survivors));
    if kept - Bytes(victims) > p.maxBytes { LeftIsHeld(survivors, kept, p); }
  }

  lemma PrefixBytes(a: seq<Artifact>, b: seq<Artifact>)
    requires a <= b
    ensures Bytes(a) <= Bytes(b)
  {
    assert b == a + b[|a|..];
    BytesAppend(a, b[|a|..]);
  }

  lemma {:induction false} SurvivorsOldestFirst(files: seq<Artifact>, p: Policy)
    requires OldestFirst(files)
    ensures OldestFirst(Survivors(files, p)) && forall f :: f in Survivors(files, p) ==> f in files
  {
    if files != [] {
      var n := |files| - 1;
      SurvivorsOldestFirst(files[..n], p);
      forall i | 0 <= i < |Survivors(files[..n], p)|
        ensures Before(Survivors(files[..n], p)[i], files[n])
      {
        assert Survivors(files[..n], p)[i] in files[..n];
      }
    }
  }

  lemma {:induction false} UnheldOldestFirst(files: seq<Artifact>)
    requires OldestFirst(files)
    ensures OldestFirst(Unheld(files)) && forall f :: f in Unheld(files) ==> f in files
  {
    if files != [] {
      UnheldOldestFirst(files[1..]);
      forall i | 0 <= i < |Unheld(files[1..])|
        ensures Before(files[0], Unheld(files[1..])[i])
      {
        assert Unheld(files[1..])[i] in files[1..];
      }
    }
  }

  /** So no file evicted for its size is younger than an unheld one that stays. */
  lemma EvictedAreNotYounger(files: seq<Artifact>, p: Policy, i: nat, j: nat)
    requires p.stuckWhenBig == {}
    requires var survivors := Survivors(Sorted(files), p);
             i < |Victims(survivors, Bytes(survivors), p)| <= j < |Unheld(survivors)|
    ensures var survivors := Survivors(Sorted(files), p);
            Before(Victims(survivors, Bytes(survivors), p)[i], Unheld(survivors)[j])
  {
    var survivors := Survivors(Sorted(files), p);
    SortedOldestFirst(files);
    SurvivorsOldestFirst(Sorted(files), p);
    UnheldOldestFirst(survivors);
    VictimsAreOldest(survivors, Bytes(survivors), p);
  }
}
