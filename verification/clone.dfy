/** Selective copy-on-write clone of a worktree: directories that hold no skipped path are copied whole,
    the others are descended into. */
module Clone {
  import opened Common

  /** A directory entry as readdir sees it; `Special` is a socket, a pipe or a device. */
  datatype Node = File(content: nat) | Link(target: nat) | Special | Dir(entries: seq<Entry>)

  datatype Entry = Entry(name: string, node: Node)

  // ----- relative paths -----

  function Posix(s: string): (r: string)
    ensures |r| == |s|
  {
    if s == "" then "" else [if s[0] == '\\' then '/' else s[0]] + Posix(s[1..])
  }

  /** The path of an entry relative to the root of the clone. */
  function Rel(base: string, name: string): string { if base == "" then name else base + "/" + name }

  predicate IsOrIsUnder(value: string, prefix: string) { value == prefix || prefix + "/" <= value }

  predicate Skipped(rel: string, prefixes: seq<string>) {
    exists i :: 0 <= i < |prefixes| && IsOrIsUnder(Posix(rel), prefixes[i])
  }

  predicate HasNestedSkip(rel: string, prefixes: seq<string>) {
    exists i :: 0 <= i < |prefixes| && Posix(rel) + "/" <= prefixes[i]
  }

  // ----- the clone -----

  /** Whether a recursive copy succeeds: it refuses sockets, pipes and devices. */
  predicate Plain(node: Node)
    decreases node
  {
    match node
    case File(_) | Link(_) => true
    case Special => false
    case Dir(entries) => PlainAll(entries)
  }

  predicate PlainAll(entries: seq<Entry>)
    decreases entries
  {
    forall i :: 0 <= i < |entries| ==> Plain(entries[i].node)
  }

  /** What becomes of one entry: nothing, a copy, or a failed copy. */
  datatype Outcome = Left | Copied(node: Node) | Failed

  function ClonedEntry(entry: Entry, base: string, prefixes: seq<string>): Outcome
    decreases entry, 0
  {
    var rel := Rel(base, entry.name);
    if Skipped(rel, prefixes) then Left
    else if entry.node.Dir? && HasNestedSkip(rel, prefixes) then
      match ClonedLevel(entry.node.entries, rel, prefixes)
      case None => Failed
      case Some(entries) => Copied(Dir(entries))
    else if entry.node.Special? then Left
    else if Plain(entry.node) then Copied(entry.node)
    else Failed
  }

  /** The destination's entries after a whole level was cloned, or none when a copy failed. */
  function ClonedLevel(entries: seq<Entry>, base: string, prefixes: seq<string>): Option<seq<Entry>>
    decreases entries, 1
  {
    if entries == [] then Some([])
    else
      var last := entries[|entries| - 1];
      var init := ClonedLevel(entries[..|entries| - 1], base, prefixes);
      if init.None? then None
      else
        match ClonedEntry(last, base, prefixes)
        case Left => init
        case Failed => None
        case Copied(node) => Some(init.value + [Entry(last.name, node)])
  }

  method CloneLevel(entries: seq<Entry>, base: string, prefixes: seq<string>) returns (dest: Option<seq<Entry>>)
    ensures dest == ClonedLevel(entries, base, prefixes)
    decreases entries
  {
    var copied: seq<Entry> := [];
    for i := 0 to |entries|
      invariant ClonedLevel(entries[..i], base, prefixes) == Some(copied)
    {
      var entry := entries[i];
      assert entries[..i + 1][..i] == entries[..i];
      var rel := Rel(base, entry.name);
      if Skipped(rel, prefixes) { continue; }
      if entry.node.Dir? && HasNestedSkip(rel, prefixes) {
        var below := CloneLevel(entry.node.entries, rel, prefixes);
        if below.None? {
          LevelFailed(entries, i + 1, base, prefixes);
          return None;
        }
        copied := copied + [Entry(entry.name, Dir(below.value))];
        continue;
      }
      if entry.node.Special? { continue; }
      if !Plain(entry.node) {
        LevelFailed(entries, i + 1, base, prefixes);
        return None;
      }
      copied := copied + [entry];
    }
    assert entries[..|entries|] == entries;
    return Some(copied);
  }

  /** The first failing copy ends the clone. */
  lemma {:induction false} LevelFailed(entries: seq<Entry>, n: nat, base: string, prefixes: seq<string>)
    requires n <= |entries| && ClonedLevel(entries[..n], base, prefixes) == None
    ensures ClonedLevel(entries, base, prefixes) == None
    decreases |entries|
  {
    if n == |entries| {
      assert entries[..n] == entries;
    } else {
      var init := entries[..|entries| - 1];
      assert init[..n] == entries[..n];
      LevelFailed(init, n, base, prefixes);
    }
  }

  // ----- what is at a path -----

  datatype Kind = Nothing | IsFile(content: nat) | IsLink(target: nat) | IsSpecial | IsDir

  function KindOf(node: Node): Kind {
    match node
    case File(content) => IsFile(content)
    case Link(target) => IsLink(target)
    case Special => IsSpecial
    case Dir(_) => IsDir
  }

  function Find(entries: seq<Entry>, name: string): (node: Option<Node>)
    ensures node.Some? ==> exists i :: 0 <= i < |entries| && entries[i] == Entry(name, node.value)
  {
    if entries == [] then None
    else
      var n := |entries| - 1;
      if entries[n].name == name then Some(entries[n].node) else Find(entries[..n], name)
  }

  /** What a path, given by its components, leads to. */
  function At(entries: seq<Entry>, path: seq<string>): Kind
    requires path != []
  {
    var found := Find(entries, path[0]);
    if found.None? then Nothing
    else if |path| == 1 then KindOf(found.value)
    else if found.value.Dir? then At(found.value.entries, path[1..])
    else Nothing
  }

  /** The path as the clone spells it, and whether it or a directory above it is skipped. */
  function Spelled(base: string, path: seq<string>): string
    requires path != []
    decreases |path|
  {
    if |path| == 1 then Rel(base, path[0]) else Spelled(Rel(base, path[0]), path[1..])
  }

  predicate Hidden(base: string, path: seq<string>, prefixes: seq<string>)
    requires path != []
  {
    exists k :: 1 <= k <= |path| && Skipped(Spelled(base, path[..k]), prefixes)
  }

  // ----- strings -----

  lemma {:induction false} PosixAppend(a: string, b: string)
    ensures Posix(a + b) == Posix(a) + Posix(b)
  {
    if a == "" {
      assert a + b == b;
    } else {
      assert (a + b)[0] == a[0] && (a + b)[1..] == a[1..] + b;
      PosixAppend(a[1..], b);
    }
  }

  lemma PosixSlash()
    ensures Posix("/") == "/"
  {
    assert Posix("/") == "/" + Posix("/"[1..]);
  }

  lemma PosixRel(base: string, name: string)
    requires base != ""
    ensures Posix(Rel(base, name)) == Posix(base) + "/" + Posix(name)
  {
    hide Posix;
    PosixAppend(base + "/", name);
    PosixAppend(base, "/");
    PosixSlash();
  }

  lemma PrefixOfConcat(a: string, b: string, prefix: string)
    requires prefix <= a + b
    ensures prefix <= a || a <= prefix
  {
    if |prefix| <= |a| {
      assert (a + b)[..|prefix|] == a[..|prefix|];
    } else {
      assert prefix[..|a|] == (a + b)[..|a|] == a;
    }
  }

  /** A prefix that skips something below a directory skips the directory or lies below it. */
  lemma SkipBelow(value: string, rest: string, prefix: string)
    requires IsOrIsUnder(value + "/" + rest, prefix)
    ensures IsOrIsUnder(value, prefix) || value + "/" <= prefix
  {
    if value + "/" + rest != prefix {
      PrefixOfConcat(value + "/", rest, prefix + "/");
      if prefix + "/" <= value + "/" {
        if |prefix| == |value| {
          assert prefix == (prefix + "/")[..|prefix|] == (value + "/")[..|value|] == value;
        } else {
          assert prefix + "/" == (value + "/")[..|prefix| + 1] == value[..|prefix| + 1];
        }
      } else {
        assert |prefix + "/"| > |value + "/"|;
        assert value + "/" == (prefix + "/")[..|value| + 1] == prefix[..|value| + 1];
      }
    }
  }

  lemma NestedBelow(value: string, rest: string, prefix: string)
    requires value + "/" + rest + "/" <= prefix
    ensures value + "/" <= prefix
  {
    assert value + "/" == (value + "/" + rest + "/")[..|value| + 1] == prefix[..|value| + 1];
  }

  /** Below a directory that is not skipped and has no nested skips there is nothing skipped and nothing nested. */
  lemma NothingSkippedBelow(base: string, name: string, prefixes: seq<string>)
    requires base != "" && !Skipped(base, prefixes) && !HasNestedSkip(base, prefixes)
    ensures !Skipped(Rel(base, name), prefixes) && !HasNestedSkip(Rel(base, name), prefixes)
  {
    hide Posix; hide Rel; hide IsOrIsUnder;
    PosixRel(base, name);
    forall i | 0 <= i < |prefixes| && IsOrIsUnder(Posix(Rel(base, name)), prefixes[i])
      ensures IsOrIsUnder(Posix(base), prefixes[i]) || Posix(base) + "/" <= prefixes[i]
    {
      SkipBelow(Posix(base), Posix(name), prefixes[i]);
    }
    forall i | 0 <= i < |prefixes| && Posix(Rel(base, name)) + "/" <= prefixes[i]
      ensures Posix(base) + "/" <= prefixes[i]
    {
      NestedBelow(Posix(base), Posix(name), prefixes[i]);
    }
  }

  lemma {:induction false} NothingBelowIsHidden(base: string, path: seq<string>, prefixes: seq<string>)
    requires base != "" && path != [] && !Skipped(base, prefixes) && !HasNestedSkip(base, prefixes)
    ensures !Skipped(Spelled(base, path), prefixes)
    decreases |path|
  {
    hide Skipped; hide HasNestedSkip;
    NothingSkippedBelow(base, path[0], prefixes);
    if |path| > 1 { NothingBelowIsHidden(Rel(base, path[0]), path[1..], prefixes); }
  }

  // ----- the clone is a filtered copy -----

  lemma {:induction false} PlainClones(entries: seq<Entry>, base: string, prefixes: seq<string>)
    requires PlainAll(entries)
    ensures ClonedLevel(entries, base, prefixes).Some?
    decreases entries, 1
  {
    hide Skipped; hide HasNestedSkip;
    if entries != [] {
      var n := |entries| - 1;
      PlainClones(entries[..n], base, prefixes);
      PlainEntryClones(entries[n], base, prefixes);
    }
  }

  lemma PlainEntryClones(entry: Entry, base: string, prefixes: seq<string>)
    requires Plain(entry.node)
    ensures !ClonedEntry(entry, base, prefixes).Failed?
    decreases entry, 0
  {
    hide Skipped; hide HasNestedSkip;
    if entry.node.Dir? { PlainClones(entry.node.entries, Rel(base, entry.name), prefixes); }
  }

  /** A name leads, in the clone, to what became of the entry it leads to in the source. */
  lemma {:induction false} FindCloned(entries: seq<Entry>, base: string, prefixes: seq<string>, name: string)
    requires PlainAll(entries)
    ensures ClonedLevel(entries, base, prefixes).Some?
    ensures Find(ClonedLevel(entries, base, prefixes).value, name) ==
            match Find(entries, name)
            case None => None
            case Some(node) =>
              var outcome := ClonedEntry(Entry(name, node), base, prefixes);
              if outcome.Copied? then Some(outcome.node) else None
    decreases |entries|
  {
    hide Skipped; hide HasNestedSkip;
    PlainClones(entries, base, prefixes);
    if entries != [] {
      var n := |entries| - 1;
      var init, last := entries[..n], entries[n];
      FindCloned(init, base, prefixes, name);
      PlainEntryClones(last, base, prefixes);
      var before := ClonedLevel(init, base, prefixes).value;
      var outcome := ClonedEntry(last, base, prefixes);
      if outcome.Copied? {
        assert (before + [Entry(last.name, outcome.node)])[..|before|] == before;
      } else if last.name == name && Find(init, name).Some? {
        SameNameSkipped(Find(init, name).value, last, base, prefixes);
      }
    }
  }

  lemma SameNameSkipped(node: Node, entry: Entry, base: string, prefixes: seq<string>)
    requires Plain(entry.node) && ClonedEntry(entry, base, prefixes).Left?
    ensures ClonedEntry(Entry(entry.name, node), base, prefixes).Left?
  {
    hide Skipped; hide HasNestedSkip;
  }

  lemma HiddenStep(base: string, path: seq<string>, prefixes: seq<string>)
    requires path != []
    ensures Hidden(base, path, prefixes) <==>
              Skipped(Rel(base, path[0]), prefixes) || (|path| > 1 && Hidden(Rel(base, path[0]), path[1..], prefixes))
  {
    hide Skipped; hide Rel;
    var rel := Rel(base, path[0]);
    assert Spelled(base, path[..1]) == rel;
    if k :| 1 <= k <= |path| && Skipped(Spelled(base, path[..k]), prefixes) {
      assert k > 1 ==> path[..k][1..] == path[1..][..k - 1];
    }
    if |path| > 1 {
      if k :| 1 <= k <= |path[1..]| && Skipped(Spelled(rel, path[1..][..k]), prefixes) {
        assert path[..k + 1][1..] == path[1..][..k];
      }
    }
  }

  lemma NothingHiddenBelow(base: string, path: seq<string>, prefixes: seq<string>)
    requires base != "" && path != [] && !Skipped(base, prefixes) && !HasNestedSkip(base, prefixes)
    ensures !Hidden(base, path, prefixes)
  {
    hide Skipped; hide HasNestedSkip; hide Spelled;
    forall k | 1 <= k <= |path|
      ensures !Skipped(Spelled(base, path[..k]), prefixes)
    {
      NothingBelowIsHidden(base, path[..k], prefixes);
    }
  }

  /** The clone of a tree of files, directories and links holds exactly the source's paths that are not
      hidden, with what the source has there, although whole directories are copied at once. */
  lemma {:induction false} CloneIsFilteredCopy(entries: seq<Entry>, base: string, prefixes: seq<string>, path: seq<string>)
    requires PlainAll(entries) && path != [] && Rel(base, path[0]) != ""
    ensures ClonedLevel(entries, base, prefixes).Some?
    ensures At(ClonedLevel(entries, base, prefixes).value, path) ==
            if Hidden(base, path, prefixes) then Nothing else At(entries, path)
    decreases |path|
  {
    hide Skipped; hide HasNestedSkip; hide Hidden; hide ClonedLevel; hide Find;
    var rel := Rel(base, path[0]);
    FindCloned(entries, base, prefixes, path[0]);
    HiddenStep(base, path, prefixes);
    var found := Find(entries, path[0]);
    if found.Some? && !Skipped(rel, prefixes) {
      assert Plain(found.value);
      PlainEntryClones(Entry(path[0], found.value), base, prefixes);
      if found.value.Dir? && |path| > 1 {
        if HasNestedSkip(rel, prefixes) {
          CloneIsFilteredCopy(found.value.entries, rel, prefixes, path[1..]);
        } else {
          NothingHiddenBelow(rel, path[1..], prefixes);
        }
      }
    }
  }

  // ----- what hides a path -----

  predicate PlainName(name: string) { name != "" && '/' !in name && '\\' !in name }

  predicate PlainNames(path: seq<string>) { forall i :: 0 <= i < |path| ==> PlainName(path[i]) }

  lemma {:induction false} SpelledLast(base: string, path: seq<string>)
    requires |path| > 1
    ensures Spelled(base, path) == Rel(Spelled(base, path[..|path| - 1]), path[|path| - 1])
    decreases |path|
  {
    hide Rel;
    var n := |path| - 1;
    if n > 1 {
      assert path[1..][..n - 1] == path[..n][1..];
      SpelledLast(Rel(base, path[0]), path[1..]);
    }
  }

  lemma {:induction false} PosixOfPlain(s: string)
    requires '\\' !in s
    ensures Posix(s) == s
  {
    if s != "" { PosixOfPlain(s[1..]); }
  }

  lemma {:induction false} SpelledIsPlain(path: seq<string>)
    requires path != [] && PlainNames(path)
    ensures Spelled("", path) != "" && '\\' !in Spelled("", path)
    decreases |path|
  {
    var n := |path| - 1;
    assert PlainName(path[n]);
    if n > 0 {
      SpelledLast("", path);
      SpelledIsPlain(path[..n]);
    }
  }

  lemma NoSlashPrefix(prefix: string, name: string)
    requires '/' !in name
    ensures !(prefix + "/" <= name)
  {
    assert (prefix + "/")[|prefix|] == '/';
  }

  /** A spelled path lies under a prefix only if the prefix spells one of its own shorter paths. */
  lemma {:induction false} UnderMeansAncestor(path: seq<string>, prefix: string)
    requires path != [] && PlainNames(path) && prefix + "/" <= Spelled("", path)
    ensures exists k :: 1 <= k < |path| && Spelled("", path[..k]) == prefix
    decreases |path|
  {
    var n := |path| - 1;
    assert PlainName(path[n]);
    if n == 0 {
      NoSlashPrefix(prefix, path[0]);
    } else {
      SpelledLast("", path);
      SpelledIsPlain(path[..n]);
      var parent, name := Spelled("", path[..n]), path[n];
      assert Spelled("", path) == parent + "/" + name;
      CutAtSlash(prefix, parent, name);
      if prefix != parent {
        UnderMeansAncestor(path[..n], prefix);
        var k :| 1 <= k < n && Spelled("", path[..n][..k]) == prefix;
        assert path[..n][..k] == path[..k];
      }
    }
  }

  lemma CutAtSlash(prefix: string, parent: string, name: string)
    requires prefix + "/" <= parent + "/" + name && '/' !in name
    ensures prefix == parent || prefix + "/" <= parent
  {
    var whole := parent + "/" + name;
    assert whole[|prefix|] == (prefix + "/")[|prefix|] == '/';
    assert forall k :: |parent| < k < |whole| ==> whole[k] == name[k - |parent| - 1];
    if |prefix| == |parent| {
      assert prefix == (prefix + "/")[..|prefix|] == whole[..|parent|] == parent;
    } else {
      assert prefix + "/" == whole[..|prefix| + 1] == parent[..|prefix| + 1];
    }
  }

  /** With ordinary names a path is hidden exactly when it, or a directory above it, is spelled like one
      of the skip prefixes. A name with a backslash is read as if it were several. */
  lemma HiddenMeansSkipPrefix(path: seq<string>, prefixes: seq<string>)
    requires path != [] && PlainNames(path)
    ensures Hidden("", path, prefixes) <==> exists k :: 1 <= k <= |path| && Spelled("", path[..k]) in prefixes
  {
    hide Spelled; hide Posix;
    if k :| 1 <= k <= |path| && Skipped(Spelled("", path[..k]), prefixes) {
      SpelledIsPlain(path[..k]);
      PosixOfPlain(Spelled("", path[..k]));
      var i :| 0 <= i < |prefixes| && IsOrIsUnder(Spelled("", path[..k]), prefixes[i]);
      if Spelled("", path[..k]) != prefixes[i] {
        UnderMeansAncestor(path[..k], prefixes[i]);
        var j :| 1 <= j < k && Spelled("", path[..k][..j]) == prefixes[i];
        assert path[..k][..j] == path[..j];
      }
    }
    if k :| 1 <= k <= |path| && Spelled("", path[..k]) in prefixes {
      SpelledIsPlain(path[..k]);
      PosixOfPlain(Spelled("", path[..k]));
      var i :| 0 <= i < |prefixes| && prefixes[i] == Spelled("", path[..k]);
      assert IsOrIsUnder(Posix(Spelled("", path[..k])), prefixes[i]);
    }
  }
}
