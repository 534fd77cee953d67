/** One host's side of the shared registry as it runs: the loops over records and actors inside the lock,
    and the roster they update. */
module RegistryHost {
  import opened Common
  import opened Registry

  method FilterRecords(records: seq<Record>, ids: set<Id>) returns (preserved: seq<Record>)
    ensures preserved == Without(records, ids)
  {
    preserved := [];
    assert records[0..] == records;
    for i := 0 to |records|
      invariant Without(records, ids) == preserved + Without(records[i..], ids)
    {
      assert records[i..][1..] == records[i + 1..];
      if records[i].id !in ids { preserved := preserved + [records[i]]; }
    }
  }

  method FindRecord(records: seq<Record>, id: Id) returns (found: Option<Record>)
    ensures found == Find(records, id)
  {
    assert records[0..] == records;
    for i := 0 to |records|
      invariant Find(records, id) == Find(records[i..], id)
    {
      assert records[i..][1..] == records[i + 1..];
      if records[i].id == id { return Some(records[i]); }
    }
    return None;
  }

  lemma {:induction false} ByIdSnoc(records: seq<Record>, last: Record)
    requires last.id !in ById(records)
    ensures ById(records + [last]) == ById(records)[last.id := last]
  {
    assert ById([last]) == map[last.id := last];
    ByIdAppend(records, [last]);
  }

  lemma PrefixDistinct(records: seq<Record>, i: nat)
    requires NoDuplicates(records) && i < |records|
    ensures NoDuplicates(records[..i]) && records[i].id !in ById(records[..i])
  {
    ByIdContents(records[..i]);
  }

  lemma RootsSnoc(records: seq<Record>, i: nat)
    requires NoDuplicates(records) && i < |records|
    ensures Roots(records[..i + 1]) == Roots(records[..i])[records[i].id := records[i].actor.root]
  {
    hide ById;
    PrefixDistinct(records, i);
    ByIdSnoc(records[..i], records[i]);
    assert records[..i + 1] == records[..i] + [records[i]];
  }

  lemma NoteOne(persisted: map<Id, Root>, roots: map<Id, Root>, id: Id, root: Root)
    ensures (persisted + roots)[id := root] == persisted + roots[id := root]
  {
  }

  /** Notes the root of every record. */
  method NoteRoots(persisted: map<Id, Root>, records: seq<Record>) returns (noted: map<Id, Root>)
    requires NoDuplicates(records)
    ensures noted == persisted + Roots(records)
  {
    hide NoDuplicates;
    noted := persisted;
    assert persisted + Roots(records[..0]) == persisted;
    hide Roots;
    for i := 0 to |records|
      invariant noted == persisted + Roots(records[..i])
    {
      RootsSnoc(records, i);
      NoteOne(persisted, Roots(records[..i]), records[i].id, records[i].actor.root);
      noted := noted[records[i].id := records[i].actor.root];
    }
    assert records[..|records|] == records;
  }

  /** The actors that stayed, and every other recorded one. */
  function WithRecords(stayed: map<Id, Actor>, records: map<Id, Record>): map<Id, Actor> {
    map id | id in stayed.Keys + records.Keys :: if id in stayed then stayed[id] else records[id].actor
  }

  lemma LoadedActors(h: Host, registry: seq<Record>, kept: set<Id>)
    requires kept <= h.actors.Keys
    ensures Loaded(h, registry, kept).actors == WithRecords(map id | id in kept :: h.actors[id], ById(registry))
  {
    hide ById;
  }

  method LoadRecords(stayed: map<Id, Actor>, records: seq<Record>) returns (actors: map<Id, Actor>)
    requires NoDuplicates(records)
    ensures actors == WithRecords(stayed, ById(records))
  {
    hide ById;
    actors := stayed;
    assert ById([]) == map[] by { NoRecords(); }
    for i := 0 to |records|
      invariant actors == WithRecords(stayed, ById(records[..i]))
    {
      PrefixDistinct(records, i);
      ByIdSnoc(records[..i], records[i]);
      assert records[..i + 1] == records[..i] + [records[i]];
      if records[i].id !in actors { actors := actors[records[i].id := records[i].actor]; }
    }
    assert records[..|records|] == records;
  }

  lemma NoRecords()
    ensures ById([]) == map[]
  {
  }

  /** The file, behind its lock. */
  class RegistryFile {
    var records: seq<Record>

    constructor (records: seq<Record>)
      ensures this.records == records
    {
      this.records := records;
    }
  }

  class ActorHost {
    const root: Root
    const claim: Option<Residency>
    const directory: bool
    const file: RegistryFile
    var actors: map<Id, Actor>
    var created: set<Id>
    var ceded: set<Id>
    var persisted: map<Id, Root>
    var removing: set<Id>
    var pending: map<Id, Attempt>
    var section: Section

    function Abs(): Host
      reads this
    {
      Host(root, claim, directory, true, actors, created, ceded, persisted, removing, pending, section)
    }

    constructor (root: Root, claim: Option<Residency>, directory: bool, file: RegistryFile)
      ensures this.file == file && Fresh(Abs()) && Abs().root == root && Abs().claim == claim && Abs().directory == directory
    {
      this.root, this.claim, this.directory, this.file := root, claim, directory, file;
      actors, created, ceded, persisted := map[], {}, {}, map[];
      removing, pending, section := {}, map[], Idle;
    }

    /** The owned actors, each once, in the order the roster yields them. */
    method OwnedOrder() returns (order: seq<Id>)
      ensures Lists(order, OwnedIds(Abs()))
      ensures forall id <- actors.Keys :: id in order <==>
                && id !in ceded && (claim.Some? ==> actors[id].root == root)
                && (id in created || (if claim.Some? then actors[id].residency == claim.value else !directory))
    {
      order := [];
      var left := actors.Keys;
      while left != {}
        invariant left <= actors.Keys && Lists(order, OwnedIds(Abs()) - left)
        decreases |left|
      {
        var id :| id in left;
        left := left - {id};
        if Manages(Abs(), id, None) { order := order + [id]; }
      }
    }

    method Serialize(order: seq<Id>) returns (records: seq<Record>)
      requires forall i :: 0 <= i < |order| ==> order[i] in actors
      ensures records == Serialized(Abs(), order)
    {
      records := [];
      for i := 0 to |order|
        invariant |records| == i && forall k :: 0 <= k < i ==> records[k] == Record(order[k], actors[order[k]])
      {
        records := records + [Record(order[i], actors[order[i]])];
      }
    }

    /** The locked part of a save: read, merge, write. */
    method SaveLocked(removed: set<Id>) returns (ghost order: seq<Id>)
      requires NoDuplicates(file.records)
      modifies this, file
      ensures Lists(order, OwnedIds(old(Abs())))
      ensures file.records == Merged(old(Abs()), old(file.records), removed, order)
      ensures Abs() == SavedHost(old(Abs()), file.records, removed)
    {
      var owned := OwnedOrder();
      order := owned;
      var serialized := Serialize(owned);
      var replaced := removed + set i | 0 <= i < |owned| :: owned[i];
      assert replaced == removed + OwnedIds(Abs());
      var preserved := FilterRecords(file.records, replaced);
      MergeIsUpdate(file.records, removed, Abs(), owned);
      file.records := preserved + serialized;
      removing, section := removing - removed, Committed;
      persisted := NoteRoots(persisted - removed, file.records);
    }

    /** The locked compare-and-set of an adoption. */
    method ConfirmLocked(id: Id, opinion: Option<bool>, rootSeen: bool, now: nat) returns (adopted: bool)
      requires NoDuplicates(file.records) && id in pending && Captured(Abs(), id).Some?
      modifies this, file
      ensures adopted == MayAdopt(now, old(Abs()), id, old(file.records), opinion, rootSeen)
      ensures adopted ==> Abs() == WonHost(old(Abs()), id, old(file.records), now)
      ensures adopted ==> file.records == Without(old(file.records), {id}) + [Record(id, AdoptedActor(old(Abs()), id, now))]
      ensures !adopted ==> Abs() == LostHost(old(Abs()), id) && file.records == old(file.records)
    {
      hide ById; hide Without; hide Roots;
      var current := FindRecord(file.records, id);
      section := Committed;
      if current.None? || current.value.actor.root != pending[id].expected || opinion.Some? || rootSeen
         || Recent(current.value.actor.adoptedAt, now) {
        pending := pending[id := pending[id].(phase := Lost)];
        return false;
      }
      persisted := NoteRoots(persisted, file.records);
      var actor := AdoptedActor(Abs(), id, now);
      if pending[id].detached.Some? {
        pending := pending[id := pending[id].(detached := Some(actor))];
      } else {
        actors := actors[id := actor];
      }
      var preserved := FilterRecords(file.records, {id});
      file.records := preserved + [Record(id, actor)];
      pending := pending[id := pending[id].(phase := Won)];
      return true;
    }

    /** What follows the lock: the winner notes its root, a loser resynchronises from the file. */
    method Settle(id: Id)
      requires id in pending
      modifies this
      ensures Abs() == Settled(old(Abs()), file.records, id)
    {
      if pending[id].phase.Won? {
        persisted := persisted[id := root];
      } else {
        var current := FindRecord(file.records, id);
        if current.None? {
          persisted := persisted - {id};
        } else if current.value.actor.root != root {
          var captured := Captured(Abs(), id);
          if captured.Some? {
            var theirs := current.value.actor;
            persisted := persisted[id := theirs.root];
            var actor := captured.value.(root := theirs.root);
            if theirs.adoptedAt.Some? { actor := actor.(adoptedAt := theirs.adoptedAt); }
            if pending[id].detached.Some? {
              pending := pending[id := pending[id].(detached := Some(actor))];
            } else {
              actors := actors[id := actor];
            }
          }
        }
      }
      pending := pending - {id};
    }

    /** Refreshes the roster from the file: the `kept` actors stay, everything else is as recorded. */
    method Load(kept: set<Id>)
      requires NoDuplicates(file.records) && kept <= actors.Keys
      modifies this
      ensures Abs() == Loaded(old(Abs()), file.records, kept)
    {
      ghost var before := Abs();
      hide ById; hide Roots; hide Detach;
      var detached := Detach(Abs(), kept);
      var stayed := map id | id in kept :: actors[id];
      created := if kept == {} then {} else created - (actors.Keys - kept);
      persisted := NoteRoots(persisted, file.records);
      actors := LoadRecords(stayed, file.records);
      pending := detached;
      LoadedActors(before, file.records, kept);
    }
  }
}
