/** The shared actor registry: many hosts read it freely and rewrite it under a file lock, an orphaned
    lineage is taken over by a fenced compare-and-set, and hosts may crash at any point. */
module Registry {
  import opened Common

  type Id = nat
  type Root = nat
  type HostId = nat

  const ADOPTION_GRACE_MS := 30000

  datatype Residency = Session | Durable

  /** What is recorded of an actor; `body` stands for the rest of its serialized state. */
  datatype Actor = Actor(root: Root, adoptedAt: Option<nat>, residency: Residency, body: nat)

  datatype Record = Record(id: Id, actor: Actor)

  datatype Phase = Wanting | Won | Lost

  /** An adoption in flight. `detached` holds the actor object the attempt captured once a reload has
      replaced that object in the host's roster; before that the attempt shares the roster's object. */
  datatype Attempt = Attempt(phase: Phase, expected: Root, detached: Option<Actor>)

  datatype Op = SaveOp(removed: set<Id>) | AdoptOp(id: Id)

  /** Where a host is in its synchronous critical section. */
  datatype Section = Idle | Locked(op: Op) | HasRead(op: Op, snapshot: seq<Record>) | Committed

  datatype Host = Host(
    root: Root, claim: Option<Residency>, directory: bool, alive: bool, actors: map<Id, Actor>, created: set<Id>,
    ceded: set<Id>, persisted: map<Id, Root>, removing: set<Id>, pending: map<Id, Attempt>, section: Section)

  /** `home` and `written` are history: the root each lineage belongs to, and for every id the record
      its last writer meant it to have. */
  datatype State = State(
    registry: seq<Record>, lock: Option<HostId>, now: nat, hosts: seq<Host>, home: map<Id, Root>, written: map<Id, Record>)

  // ----- the registry file -----

  function Find(registry: seq<Record>, id: Id): Option<Record> {
    if registry == [] then None
    else if registry[0].id == id then Some(registry[0])
    else Find(registry[1..], id)
  }

  function Without(registry: seq<Record>, ids: set<Id>): seq<Record> {
    if registry == [] then []
    else if registry[0].id in ids then Without(registry[1..], ids)
    else [registry[0]] + Without(registry[1..], ids)
  }

  function ById(registry: seq<Record>): (m: map<Id, Record>)
    ensures forall id :: id in m ==> m[id].id == id
  {
    if registry == [] then map[] else ById(registry[1..])[registry[0].id := registry[0]]
  }

  predicate NoDuplicates(registry: seq<Record>) {
    forall i, j :: 0 <= i < j < |registry| ==> registry[i].id != registry[j].id
  }

  // ----- ownership -----

  /** Whether a host manages an actor. A live directory opinion decides; without one, a host that
      claims a residency refuses foreign lineages, and otherwise keeps what it created or claims. */
  predicate Manages(h: Host, id: Id, opinion: Option<bool>) {
    if id in h.ceded then false
    else if opinion.Some? then opinion.value
    else if id in h.actors && h.claim.Some? && h.actors[id].root != h.root then false
    else if id in h.created then true
    else if id in h.actors && h.claim.Some? then h.actors[id].residency == h.claim.value
    else !h.directory
  }

  /** Whether a host runs an actor while the directory is of the given opinion. */
  predicate OwnsUnder(h: Host, id: Id, opinion: Option<bool>) { h.alive && id in h.actors && Manages(h, id, opinion) }

  predicate Owns(h: Host, id: Id) { OwnsUnder(h, id, None) }

  function OwnedIds(h: Host): set<Id> { set id | id in h.actors && Manages(h, id, None) }

  /** `order` lists every owned actor once. */
  predicate Lists(order: seq<Id>, ids: set<Id>) {
    && (forall i :: 0 <= i < |order| ==> order[i] in ids)
    && (forall id :: id in ids ==> id in order)
    && forall i, j :: 0 <= i < j < |order| ==> order[i] != order[j]
  }

  function Serialized(h: Host, order: seq<Id>): seq<Record>
    requires forall i :: 0 <= i < |order| ==> order[i] in h.actors
  {
    seq(|order|, i requires 0 <= i < |order| => Record(order[i], h.actors[order[i]]))
  }

  function SerializedById(h: Host): map<Id, Record> { map id | id in OwnedIds(h) :: Record(id, h.actors[id]) }

  // ----- one adoption -----

  function Captured(h: Host, id: Id): Option<Actor> {
    if id !in h.pending then None
    else if h.pending[id].detached.Some? then h.pending[id].detached
    else if id in h.actors then Some(h.actors[id])
    else None
  }

  /** The captured object changes; the roster sees it only while it still holds that object. */
  function WithCaptured(h: Host, id: Id, actor: Actor): Host
    requires id in h.pending
  {
    if h.pending[id].detached.Some?
    then h.(pending := h.pending[id := h.pending[id].(detached := Some(actor))])
    else h.(actors := h.actors[id := actor])
  }

  predicate Recent(adoptedAt: Option<nat>, now: nat) {
    adoptedAt.Some? && now - adoptedAt.value < ADOPTION_GRACE_MS
  }

  /** The compare-and-set test of #confirmAdoption, inside the lock. */
  predicate MayAdopt(now: nat, h: Host, id: Id, snapshot: seq<Record>, opinion: Option<bool>, rootSeen: bool) {
    && id in h.pending
    && var current := Find(snapshot, id);
       && current.Some?
       && current.value.actor.root == h.pending[id].expected
       && opinion.None?
       && !rootSeen
       && !Recent(current.value.actor.adoptedAt, now)
  }

  function Roots(registry: seq<Record>): map<Id, Root> {
    var m := ById(registry);
    map id | id in m :: m[id].actor.root
  }

  // ----- steps -----

  datatype Event =
    | Tick
    | Crash(h: HostId)
    | RecoverLock
    | Sync(h: HostId)
    | Reload(h: HostId)
    | Create(h: HostId, id: Id, residency: Residency, body: nat)
    | Touch(h: HostId, id: Id, body: nat)
    | Cede(h: HostId, id: Id)
    | Reclaim(h: HostId, id: Id)
    | Remove(h: HostId, id: Id)
    | WantAdoption(h: HostId, id: Id, rootSeen: bool)
    | LockForSave(h: HostId, removed: set<Id>)
    | LockForAdoption(h: HostId, id: Id)
    | Read(h: HostId)
    | CommitSave(h: HostId, order: seq<Id>)
    | CommitAdoption(h: HostId, opinion: Option<bool>, rootSeen: bool)
    | Unlock(h: HostId)
    | SettleAdoption(h: HostId, id: Id)
    | AbandonAdoption(h: HostId, id: Id)

  predicate Live(s: State, h: HostId) { h < |s.hosts| && s.hosts[h].alive }

  predicate AtRest(s: State, h: HostId) { Live(s, h) && s.hosts[h].section.Idle? }

  predicate LiveRoot(s: State, root: Root) {
    exists h :: 0 <= h < |s.hosts| && s.hosts[h].alive && s.hosts[h].root == root
  }

  predicate Enabled(s: State, e: Event) {
    match e
    case Tick => true
    case Crash(h) => Live(s, h)
    case RecoverLock => s.lock.Some? && !Live(s, s.lock.value)
    case Sync(h) => AtRest(s, h)
    case Reload(h) => AtRest(s, h)
    case Create(h, id, _, _) => AtRest(s, h) && id !in s.home
    case Touch(h, id, _) => AtRest(s, h) && Owns(s.hosts[h], id)
    case Cede(h, id) => AtRest(s, h) && id in s.hosts[h].actors
    case Reclaim(h, id) => AtRest(s, h) && id in s.hosts[h].actors
    // Ownership was checked before the awaits that lead here; the actor may have been ceded since.
    case Remove(h, id) => AtRest(s, h) && id in s.hosts[h].actors && s.hosts[h].actors[id].root == s.hosts[h].root
    case WantAdoption(h, id, rootSeen) =>
      && AtRest(s, h)
      && var host := s.hosts[h];
         && host.directory && host.claim.Some? && id !in host.pending && id in host.actors
         && var actor := host.actors[id];
            && actor.root != host.root && actor.residency == host.claim.value && !rootSeen
            && id in host.persisted && host.persisted[id] == actor.root
            && !Recent(actor.adoptedAt, s.now)
    case LockForSave(h, removed) => AtRest(s, h) && s.lock.None? && removed <= s.hosts[h].removing
    case LockForAdoption(h, id) =>
      AtRest(s, h) && s.lock.None? && id in s.hosts[h].pending && s.hosts[h].pending[id].phase.Wanting?
      && Captured(s.hosts[h], id).Some?
    case Read(h) => Live(s, h) && s.hosts[h].section.Locked?
    case CommitSave(h, order) =>
      Live(s, h) && s.hosts[h].section.HasRead? && s.hosts[h].section.op.SaveOp? && Lists(order, OwnedIds(s.hosts[h]))
    case CommitAdoption(h, _, _) =>
      && Live(s, h) && s.hosts[h].section.HasRead? && s.hosts[h].section.op.AdoptOp?
      && Captured(s.hosts[h], s.hosts[h].section.op.id).Some?
    case Unlock(h) => Live(s, h) && s.hosts[h].section.Committed?
    case SettleAdoption(h, id) =>
      AtRest(s, h) && id in s.hosts[h].pending && !s.hosts[h].pending[id].phase.Wanting?
    case AbandonAdoption(h, id) =>
      AtRest(s, h) && id in s.hosts[h].pending && s.hosts[h].pending[id].phase.Wanting?
  }

  /** The record an adoption is about to judge. */
  function Judged(s: State, e: Event): Option<Record>
    requires Enabled(s, e) && e.CommitAdoption?
  {
    Find(s.hosts[e.h].section.snapshot, s.hosts[e.h].section.op.id)
  }

  /** What is assumed of the directory: it shows the root of a live host, except possibly while a
      fresh adoption of the judged lineage is still within the grace window. */
  predicate Informed(s: State, e: Event)
    requires Enabled(s, e)
  {
    e.CommitAdoption? && Judged(s, e).Some? && LiveRoot(s, Judged(s, e).value.actor.root) && !e.rootSeen ==>
      Recent(Judged(s, e).value.actor.adoptedAt, s.now)
  }

  function WithHost(s: State, h: HostId, host: Host): State
    requires h < |s.hosts|
  {
    s.(hosts := s.hosts[h := host])
  }

  /** Attempts whose object leaves the roster keep it on their own. */
  function Detach(h: Host, kept: set<Id>): map<Id, Attempt> {
    map id | id in h.pending ::
      if h.pending[id].detached.None? && id !in kept && id in h.actors
      then h.pending[id].(detached := Some(h.actors[id])) else h.pending[id]
  }

  /** A roster refreshed from the file: actors in `kept` stay, everything else is as recorded. */
  function Loaded(h: Host, registry: seq<Record>, kept: set<Id>): Host
    requires kept <= h.actors.Keys
  {
    var records := ById(registry);
    h.(actors := map id | id in kept + records.Keys :: if id in kept then h.actors[id] else records[id].actor,
       created := if kept == {} then {} else h.created - (h.actors.Keys - kept),
       persisted := h.persisted + Roots(registry),
       pending := Detach(h, kept))
  }

  /** What a save writes: the other records as they were read, then the host's own. */
  function Merged(h: Host, snapshot: seq<Record>, removed: set<Id>, order: seq<Id>): seq<Record>
    requires forall i :: 0 <= i < |order| ==> order[i] in h.actors
  {
    Without(snapshot, removed + OwnedIds(h)) + Serialized(h, order)
  }

  function SavedHost(h: Host, merged: seq<Record>, removed: set<Id>): Host {
    h.(section := Committed, removing := h.removing - removed, persisted := (h.persisted - removed) + Roots(merged))
  }

  function AfterSave(s: State, h: HostId, order: seq<Id>): State
    requires Enabled(s, CommitSave(h, order))
  {
    var host := s.hosts[h];
    var removed := host.section.op.removed;
    var owned := OwnedIds(host);
    var merged := Merged(host, host.section.snapshot, removed, order);
    WithHost(s, h, SavedHost(host, merged, removed)).(registry := merged, written := (s.written - (removed + owned)) + SerializedById(host))
  }

  function LostHost(h: Host, id: Id): Host {
    (if id in h.pending then h.(pending := h.pending[id := h.pending[id].(phase := Lost)]) else h).(section := Committed)
  }

  /** The captured actor under the host's own root, adopted now. */
  function AdoptedActor(h: Host, id: Id, now: nat): Actor
    requires Captured(h, id).Some?
  {
    Captured(h, id).value.(root := h.root, adoptedAt := Some(now))
  }

  function WonHost(h: Host, id: Id, snapshot: seq<Record>, now: nat): Host
    requires Captured(h, id).Some?
  {
    var adopted := WithCaptured(h, id, AdoptedActor(h, id, now));
    adopted.(pending := adopted.pending[id := adopted.pending[id].(phase := Won)],
             persisted := h.persisted + Roots(snapshot), section := Committed)
  }

  function AfterAdoption(s: State, h: HostId, opinion: Option<bool>, rootSeen: bool): State
    requires Enabled(s, CommitAdoption(h, opinion, rootSeen))
  {
    var host := s.hosts[h];
    var id := host.section.op.id;
    var snapshot := host.section.snapshot;
    if !MayAdopt(s.now, host, id, snapshot, opinion, rootSeen) then WithHost(s, h, LostHost(host, id))
    else
      var record := Record(id, AdoptedActor(host, id, s.now));
      WithHost(s, h, WonHost(host, id, snapshot, s.now))
        .(registry := Without(snapshot, {id}) + [record], home := s.home[id := host.root], written := s.written[id := record])
  }

  /** The winner records its own root; a loser takes over what the winner persisted. */
  function Settled(h: Host, registry: seq<Record>, id: Id): Host
    requires id in h.pending
  {
    var current := Find(registry, id);
    var updated :=
      if h.pending[id].phase.Won? then h.(persisted := h.persisted[id := h.root])
      else if current.None? then h.(persisted := h.persisted - {id})
      else if current.value.actor.root == h.root || Captured(h, id).None? then h
      else
        var actor := Captured(h, id).value;
        WithCaptured(h, id, actor.(root := current.value.actor.root,
                                   adoptedAt := if current.value.actor.adoptedAt.Some? then current.value.actor.adoptedAt
                                                else actor.adoptedAt))
          .(persisted := h.persisted[id := current.value.actor.root]);
    updated.(pending := updated.pending - {id})
  }

  function Apply(s: State, e: Event): State
    requires Enabled(s, e)
  {
    match e
    case Tick => s.(now := s.now + 1)
    case Crash(h) => WithHost(s, h, s.hosts[h].(alive := false))
    case RecoverLock => s.(lock := None)
    case Sync(h) => WithHost(s, h, Loaded(s.hosts[h], s.registry, OwnedIds(s.hosts[h])))
    case Reload(h) => WithHost(s, h, Loaded(s.hosts[h], s.registry, {}))
    case Create(h, id, residency, body) =>
      var host := s.hosts[h];
      WithHost(s, h, host.(actors := host.actors[id := Actor(host.root, None, residency, body)], created := host.created + {id}))
        .(home := s.home[id := host.root])
    case Touch(h, id, body) =>
      var host := s.hosts[h];
      WithHost(s, h, host.(actors := host.actors[id := host.actors[id].(body := body)]))
    case Cede(h, id) => WithHost(s, h, s.hosts[h].(ceded := s.hosts[h].ceded + {id}))
    case Reclaim(h, id) =>
      var host := s.hosts[h];
      WithHost(s, h, host.(ceded := host.ceded - {id}, created := host.created + {id}))
    case Remove(h, id) =>
      var host := s.hosts[h];
      WithHost(s, h, host.(actors := host.actors - {id}, removing := host.removing + {id},
                           pending := Detach(host, host.actors.Keys - {id})))
    case WantAdoption(h, id, _) =>
      var host := s.hosts[h];
      WithHost(s, h, host.(pending := host.pending[id := Attempt(Wanting, host.actors[id].root, None)]))
    case LockForSave(h, removed) =>
      WithHost(s, h, s.hosts[h].(section := Locked(SaveOp(removed)))).(lock := Some(h))
    case LockForAdoption(h, id) =>
      WithHost(s, h, s.hosts[h].(section := Locked(AdoptOp(id)))).(lock := Some(h))
    case Read(h) =>
      WithHost(s, h, s.hosts[h].(section := HasRead(s.hosts[h].section.op, s.registry)))
    case CommitSave(h, order) => AfterSave(s, h, order)
    case CommitAdoption(h, opinion, rootSeen) => AfterAdoption(s, h, opinion, rootSeen)
    case Unlock(h) => WithHost(s, h, s.hosts[h].(section := Idle)).(lock := None)
    case SettleAdoption(h, id) => WithHost(s, h, Settled(s.hosts[h], s.registry, id))
    case AbandonAdoption(h, id) =>
      WithHost(s, h, s.hosts[h].(pending := s.hosts[h].pending - {id}))
  }

  // ----- the file as a map -----

  lemma {:induction false} FindIsLookup(registry: seq<Record>, id: Id)
    ensures Find(registry, id) == (if id in ById(registry) then Some(ById(registry)[id]) else None)
  {
    if registry != [] && registry[0].id != id {
      FindIsLookup(registry[1..], id);
    }
  }

  lemma {:induction false} WithoutById(registry: seq<Record>, ids: set<Id>)
    ensures ById(Without(registry, ids)) == ById(registry) - ids
  {
    if registry != [] {
      WithoutById(registry[1..], ids);
      if registry[0].id !in ids {
        assert ([registry[0]] + Without(registry[1..], ids))[1..] == Without(registry[1..], ids);
      }
    }
  }

  lemma {:induction false} ByIdAppend(a: seq<Record>, b: seq<Record>)
    requires ById(a).Keys !! ById(b).Keys
    ensures ById(a + b) == ById(a) + ById(b)
  {
    if a == [] {
      assert a + b == b;
    } else {
      assert (a + b)[1..] == a[1..] + b;
      ByIdAppend(a[1..], b);
    }
  }

  lemma {:induction false} ByIdContents(registry: seq<Record>)
    requires NoDuplicates(registry)
    ensures forall i :: 0 <= i < |registry| ==> registry[i].id in ById(registry) && ById(registry)[registry[i].id] == registry[i]
    ensures forall id :: id in ById(registry) ==> exists i :: 0 <= i < |registry| && registry[i].id == id
  {
    if registry != [] {
      ByIdContents(registry[1..]);
      forall i | 0 <= i < |registry|
        ensures registry[i].id in ById(registry) && ById(registry)[registry[i].id] == registry[i]
      {
        if i > 0 { assert registry[i] == registry[1..][i - 1]; }
      }
      forall id | id in ById(registry)
        ensures exists i :: 0 <= i < |registry| && registry[i].id == id
      {
        if id == registry[0].id {
        } else {
          var i :| 0 <= i < |registry[1..]| && registry[1..][i].id == id;
          assert registry[i + 1].id == id;
        }
      }
    }
  }

  lemma {:induction false} WithoutKeepsDistinct(registry: seq<Record>, ids: set<Id>)
    requires NoDuplicates(registry)
    ensures NoDuplicates(Without(registry, ids))
    ensures forall r :: r in Without(registry, ids) ==> r in registry && r.id !in ids
  {
    if registry != [] {
      WithoutKeepsDistinct(registry[1..], ids);
      var rest := Without(registry[1..], ids);
      if registry[0].id !in ids {
        forall i, j | 0 <= i < j < |Without(registry, ids)|
          ensures Without(registry, ids)[i].id != Without(registry, ids)[j].id
        {
          assert rest[j - 1] in rest;
          if i > 0 { assert Without(registry, ids)[i] == rest[i - 1]; }
        }
      }
    }
  }

  lemma AppendKeepsDistinct(a: seq<Record>, b: seq<Record>)
    requires NoDuplicates(a) && NoDuplicates(b)
    requires forall i, j :: 0 <= i < |a| && 0 <= j < |b| ==> a[i].id != b[j].id
    ensures NoDuplicates(a + b)
  {
  }

  lemma SerializedContents(h: Host, order: seq<Id>)
    requires Lists(order, OwnedIds(h))
    ensures NoDuplicates(Serialized(h, order)) && ById(Serialized(h, order)) == SerializedById(h)
  {
    var records := Serialized(h, order);
    ByIdContents(records);
    forall id | id in SerializedById(h)
      ensures id in ById(records) && ById(records)[id] == SerializedById(h)[id]
    {
      var i :| 0 <= i < |order| && order[i] == id;
      assert records[i].id == id;
    }
  }

  /** One merge is one update of the file seen as a map: what the host owns is as it serialized it,
      what it removed is gone unless it owns it again, every other record is untouched. */
  lemma MergeIsUpdate(snapshot: seq<Record>, removed: set<Id>, h: Host, order: seq<Id>)
    requires NoDuplicates(snapshot) && Lists(order, OwnedIds(h))
    ensures var owned := OwnedIds(h);
            var merged := Without(snapshot, removed + owned) + Serialized(h, order);
            && NoDuplicates(merged)
            && ById(merged) == (ById(snapshot) - (removed + owned)) + SerializedById(h)
  {
    var owned := OwnedIds(h);
    var preserved := Without(snapshot, removed + owned);
    WithoutById(snapshot, removed + owned);
    WithoutKeepsDistinct(snapshot, removed + owned);
    SerializedContents(h, order);
    forall i, j | 0 <= i < |preserved| && 0 <= j < |order|
      ensures preserved[i].id != Serialized(h, order)[j].id
    {
      assert preserved[i] in preserved;
    }
    AppendKeepsDistinct(preserved, Serialized(h, order));
    ByIdAppend(preserved, Serialized(h, order));
  }

  lemma ReplaceIsUpdate(snapshot: seq<Record>, record: Record)
    requires NoDuplicates(snapshot)
    ensures var replaced := Without(snapshot, {record.id}) + [record];
            NoDuplicates(replaced) && ById(replaced) == ById(snapshot)[record.id := record]
  {
    var preserved := Without(snapshot, {record.id});
    WithoutById(snapshot, {record.id});
    WithoutKeepsDistinct(snapshot, {record.id});
    forall i | 0 <= i < |preserved|
      ensures preserved[i].id != record.id
    {
      assert preserved[i] in preserved;
    }
    AppendKeepsDistinct(preserved, [record]);
    assert ById([record]) == map[record.id := record];
    ByIdAppend(preserved, [record]);
  }

  // ----- the invariant -----

  predicate Configured(s: State) {
    && (forall h :: 0 <= h < |s.hosts| ==> s.hosts[h].claim.Some? && s.hosts[h].directory)
    && forall g, h :: 0 <= g < h < |s.hosts| ==> s.hosts[g].root != s.hosts[h].root
  }

  predicate InStep(host: Host, h: HostId, lock: Option<HostId>, registry: seq<Record>) {
    && (!host.section.Idle? ==> lock == Some(h))
    && (host.section.HasRead? ==> host.section.snapshot == registry)
    && (host.section.Locked? || host.section.HasRead? ==>
          host.section.op.SaveOp? ==> host.section.op.removed <= host.removing)
  }

  /** Only the lock holder is inside its critical section, and what it read is still the file. */
  predicate Exclusive(s: State) {
    forall h :: 0 <= h < |s.hosts| && s.hosts[h].alive ==> InStep(s.hosts[h], h, s.lock, s.registry)
  }

  /** The file is exactly what its writers meant it to be, one record an id, of that id's lineage. */
  predicate Faithful(s: State) {
    && NoDuplicates(s.registry)
    && ById(s.registry) == s.written
    && forall id :: id in s.written ==> id in s.home && s.written[id].actor.root == s.home[id]
  }

  predicate HoldsItsOwn(host: Host, home: map<Id, Root>) {
    && (forall id :: id in host.actors && host.actors[id].root == host.root ==> id in home && home[id] == host.root)
    && forall id :: id in host.removing ==> id in home && home[id] == host.root
  }

  /** A live host that holds an actor under its own root, or is about to remove one, is the host
      that lineage belongs to. */
  predicate AtHome(s: State) {
    forall h :: 0 <= h < |s.hosts| && s.hosts[h].alive ==> HoldsItsOwn(s.hosts[h], s.home)
  }

  predicate Inv(s: State) { Configured(s) && Exclusive(s) && Faithful(s) && AtHome(s) }

  predicate SameIdentity(a: Host, b: Host) { a.root == b.root && a.claim == b.claim && a.directory == b.directory }

  /** A step in which one host moves and the file stays as it is. */
  lemma HostMoves(s: State, h: HostId, host: Host, lock: Option<HostId>)
    requires Inv(s) && Live(s, h) && SameIdentity(host, s.hosts[h])
    requires host.alive ==> InStep(host, h, lock, s.registry) && HoldsItsOwn(host, s.home)
    requires lock == s.lock || s.lock.None? || s.lock == Some(h)
    ensures Inv(WithHost(s, h, host).(lock := lock))
  {
  }

  lemma LoadedStays(h: Host, registry: seq<Record>, kept: set<Id>)
    requires kept <= h.actors.Keys
    ensures var t := Loaded(h, registry, kept);
            SameIdentity(t, h) && t.alive == h.alive && t.section == h.section && t.removing == h.removing
  {
  }

  lemma LoadedHoldsItsOwn(s: State, h: HostId, kept: set<Id>)
    requires Inv(s) && Live(s, h) && kept <= s.hosts[h].actors.Keys
    ensures HoldsItsOwn(Loaded(s.hosts[h], s.registry, kept), s.home)
  {
    var host := s.hosts[h];
    var loaded := Loaded(host, s.registry, kept);
    forall id | id in loaded.actors && loaded.actors[id].root == loaded.root
      ensures id in s.home && s.home[id] == loaded.root
    {
      if id in kept { assert host.actors[id].root == host.root; } else { assert id in s.written; }
    }
  }

  /** What a host owns was created or adopted under its own root. */
  lemma OwnedIsHome(s: State, h: HostId, id: Id)
    requires Inv(s) && Live(s, h) && id in OwnedIds(s.hosts[h])
    ensures s.hosts[h].actors[id].root == s.hosts[h].root && id in s.home && s.home[id] == s.hosts[h].root
  {
  }

  lemma CommitSaveKeepsFaithful(s: State, h: HostId, order: seq<Id>)
    requires Inv(s) && Enabled(s, CommitSave(h, order))
    ensures Faithful(AfterSave(s, h, order))
  {
    var host := s.hosts[h];
    assert host.section.snapshot == s.registry;
    MergeIsUpdate(host.section.snapshot, host.section.op.removed, host, order);
    forall id | id in OwnedIds(host)
      ensures id in s.home && host.actors[id].root == s.home[id]
    {
      OwnedIsHome(s, h, id);
    }
  }

  lemma CommitSaveKeepsInv(s: State, h: HostId, order: seq<Id>)
    requires Inv(s) && Enabled(s, CommitSave(h, order))
    ensures Inv(AfterSave(s, h, order))
  {
    CommitSaveKeepsFaithful(s, h, order);
    var t := AfterSave(s, h, order);
    forall g | 0 <= g < |t.hosts| && t.hosts[g].alive
      ensures InStep(t.hosts[g], g, t.lock, t.registry) && HoldsItsOwn(t.hosts[g], t.home)
    {
      assert InStep(s.hosts[g], g, s.lock, s.registry) && HoldsItsOwn(s.hosts[g], s.home);
      assert InStep(s.hosts[h], h, s.lock, s.registry);
    }
  }

  /** An adoption that goes through takes over a lineage whose root belongs to no live host. */
  lemma AdoptionTakesDeadLineage(s: State, h: HostId, opinion: Option<bool>, rootSeen: bool)
    requires Inv(s) && Enabled(s, CommitAdoption(h, opinion, rootSeen)) && Informed(s, CommitAdoption(h, opinion, rootSeen))
    requires MayAdopt(s.now, s.hosts[h], s.hosts[h].section.op.id, s.hosts[h].section.snapshot, opinion, rootSeen)
    ensures var id := s.hosts[h].section.op.id;
            id in s.home && !LiveRoot(s, s.home[id]) && s.home[id] == s.hosts[h].pending[id].expected
  {
    var id := s.hosts[h].section.op.id;
    assert InStep(s.hosts[h], h, s.lock, s.registry);
    FindIsLookup(s.registry, id);
  }

  /** A live host that holds the lineage under its own root, or is about to remove it. */
  predicate Holds(host: Host, id: Id) {
    host.alive && (id in host.removing || (id in host.actors && host.actors[id].root == host.root))
  }

  predicate HeldElsewhere(s: State, h: HostId, id: Id) {
    exists g :: 0 <= g < |s.hosts| && g != h && Holds(s.hosts[g], id)
  }

  /** A step does not take a lineage that another live host holds. */
  predicate Harmless(s: State, e: Event)
    requires Enabled(s, e)
  {
    e.CommitAdoption? && Adopts(s, e, s.hosts[e.h].section.op.id) ==> !HeldElsewhere(s, e.h, s.hosts[e.h].section.op.id)
  }

  predicate Adopts(s: State, e: Event, id: Id)
    requires Enabled(s, e)
  {
    && e.CommitAdoption? && s.hosts[e.h].section.op.id == id
    && MayAdopt(s.now, s.hosts[e.h], id, s.hosts[e.h].section.snapshot, e.opinion, e.rootSeen)
  }

  lemma HolderIsLive(s: State, g: HostId, id: Id)
    requires Inv(s) && g < |s.hosts| && Holds(s.hosts[g], id)
    ensures id in s.home && s.home[id] == s.hosts[g].root && LiveRoot(s, s.home[id])
  {
    assert HoldsItsOwn(s.hosts[g], s.home);
  }

  /** Nobody holds a lineage of a dead root. */
  lemma InformedIsHarmless(s: State, e: Event)
    requires Inv(s) && Enabled(s, e) && Informed(s, e)
    ensures Harmless(s, e)
  {
    hide Inv; hide Informed; hide MayAdopt; hide Holds; hide LiveRoot;
    if e.CommitAdoption? && Adopts(s, e, s.hosts[e.h].section.op.id) {
      AdoptionTakesDeadLineage(s, e.h, e.opinion, e.rootSeen);
      forall g | 0 <= g < |s.hosts|
        ensures !Holds(s.hosts[g], s.hosts[e.h].section.op.id)
      {
        if Holds(s.hosts[g], s.hosts[e.h].section.op.id) { HolderIsLive(s, g, s.hosts[e.h].section.op.id); }
      }
    }
  }

  lemma AdoptionKeepsFaithful(s: State, h: HostId, opinion: Option<bool>, rootSeen: bool)
    requires Inv(s) && Enabled(s, CommitAdoption(h, opinion, rootSeen))
    requires Adopts(s, CommitAdoption(h, opinion, rootSeen), s.hosts[h].section.op.id)
    ensures Faithful(AfterAdoption(s, h, opinion, rootSeen))
  {
    hide AtHome; hide Configured; hide Manages; hide Roots; hide Recent;
    var t := AfterAdoption(s, h, opinion, rootSeen);
    assert InStep(s.hosts[h], h, s.lock, s.registry);
    ReplaceIsUpdate(s.registry, t.written[s.hosts[h].section.op.id]);
  }

  lemma AdoptionKeepsExclusive(s: State, h: HostId, opinion: Option<bool>, rootSeen: bool)
    requires Inv(s) && Enabled(s, CommitAdoption(h, opinion, rootSeen))
    requires Adopts(s, CommitAdoption(h, opinion, rootSeen), s.hosts[h].section.op.id)
    ensures Configured(AfterAdoption(s, h, opinion, rootSeen)) && Exclusive(AfterAdoption(s, h, opinion, rootSeen))
  {
    hide AtHome; hide Faithful; hide MayAdopt; hide Without;
    var t := AfterAdoption(s, h, opinion, rootSeen);
    assert InStep(s.hosts[h], h, s.lock, s.registry);
    forall g | 0 <= g < |t.hosts| && t.hosts[g].alive
      ensures InStep(t.hosts[g], g, t.lock, t.registry)
    {
      assert InStep(s.hosts[g], g, s.lock, s.registry);
    }
  }

  lemma AdoptionMoves(s: State, h: HostId, opinion: Option<bool>, rootSeen: bool)
    requires Inv(s) && Enabled(s, CommitAdoption(h, opinion, rootSeen))
    requires Adopts(s, CommitAdoption(h, opinion, rootSeen), s.hosts[h].section.op.id)
    ensures var id, t := s.hosts[h].section.op.id, AfterAdoption(s, h, opinion, rootSeen);
            && t.home == s.home[id := s.hosts[h].root] && |t.hosts| == |s.hosts|
            && (forall g :: 0 <= g < |s.hosts| && g != h ==> t.hosts[g] == s.hosts[g])
            && t.hosts[h].root == s.hosts[h].root && t.hosts[h].alive == s.hosts[h].alive && t.hosts[h].removing == s.hosts[h].removing
            && (forall i :: i in t.hosts[h].actors && i != id ==> i in s.hosts[h].actors && t.hosts[h].actors[i] == s.hosts[h].actors[i])
  {
    hide Inv; hide MayAdopt; hide Without; hide Roots;
  }

  lemma MovedHoldsItsOwn(before: Host, after: Host, home: map<Id, Root>, id: Id)
    requires HoldsItsOwn(before, home) && after.root == before.root && after.removing == before.removing
    requires forall i :: i in after.actors && i != id ==> i in before.actors && after.actors[i] == before.actors[i]
    ensures HoldsItsOwn(after, home[id := before.root])
  {
  }

  lemma StillHoldsItsOwn(host: Host, home: map<Id, Root>, id: Id, root: Root)
    requires host.alive && HoldsItsOwn(host, home) && host.root != root
    ensures HoldsItsOwn(host, home[id := root]) <==> !Holds(host, id)
  {
  }

  lemma AdoptionKeepsAtHome(s: State, h: HostId, opinion: Option<bool>, rootSeen: bool)
    requires Inv(s) && Enabled(s, CommitAdoption(h, opinion, rootSeen))
    requires Adopts(s, CommitAdoption(h, opinion, rootSeen), s.hosts[h].section.op.id)
    ensures AtHome(AfterAdoption(s, h, opinion, rootSeen)) <==> !HeldElsewhere(s, h, s.hosts[h].section.op.id)
  {
    hide Exclusive; hide Faithful; hide MayAdopt; hide AfterAdoption; hide HoldsItsOwn; hide Holds;
    var id, t := s.hosts[h].section.op.id, AfterAdoption(s, h, opinion, rootSeen);
    AdoptionMoves(s, h, opinion, rootSeen);
    forall g | 0 <= g < |t.hosts| && t.hosts[g].alive
      ensures HoldsItsOwn(t.hosts[g], t.home) <==> g == h || !Holds(s.hosts[g], id)
    {
      assert HoldsItsOwn(s.hosts[g], s.home);
      if g == h { MovedHoldsItsOwn(s.hosts[h], t.hosts[h], s.home, id); } else { StillHoldsItsOwn(s.hosts[g], s.home, id, s.hosts[h].root); }
    }
    DeadHoldNothing(s, id);
  }

  lemma DeadHoldNothing(s: State, id: Id)
    ensures forall g :: 0 <= g < |s.hosts| && !s.hosts[g].alive ==> !Holds(s.hosts[g], id)
  {
  }

  /** An adoption keeps the invariant if and only if no other live host holds the lineage it takes. */
  lemma AdoptionKeepsInvExactly(s: State, h: HostId, opinion: Option<bool>, rootSeen: bool)
    requires Inv(s) && Enabled(s, CommitAdoption(h, opinion, rootSeen))
    ensures Inv(AfterAdoption(s, h, opinion, rootSeen)) <==> Harmless(s, CommitAdoption(h, opinion, rootSeen))
  {
    var t := AfterAdoption(s, h, opinion, rootSeen);
    if Adopts(s, CommitAdoption(h, opinion, rootSeen), s.hosts[h].section.op.id) {
      hide *;
      AdoptionKeepsFaithful(s, h, opinion, rootSeen);
      AdoptionKeepsExclusive(s, h, opinion, rootSeen);
      AdoptionKeepsAtHome(s, h, opinion, rootSeen);
    } else {
      assert InStep(s.hosts[h], h, s.lock, s.registry);
      HostMoves(s, h, t.hosts[h], s.lock);
    }
  }

  lemma SettleKeepsInv(s: State, h: HostId, id: Id)
    requires Inv(s) && Enabled(s, SettleAdoption(h, id))
    ensures Inv(Apply(s, SettleAdoption(h, id)))
  {
    var host := s.hosts[h];
    assert HoldsItsOwn(host, s.home) && InStep(host, h, s.lock, s.registry);
    HostMoves(s, h, Settled(host, s.registry, id), s.lock);
  }

  lemma LockStepKeepsInv(s: State, e: Event)
    requires Inv(s) && Enabled(s, e)
    requires e.LockForSave? || e.LockForAdoption? || e.Read? || e.Unlock?
    ensures Inv(Apply(s, e))
  {
    var t := Apply(s, e);
    assert HoldsItsOwn(s.hosts[e.h], s.home) && InStep(s.hosts[e.h], e.h, s.lock, s.registry);
    HostMoves(s, e.h, t.hosts[e.h], t.lock);
  }

  lemma RosterStepKeepsInv(s: State, e: Event)
    requires Inv(s) && Enabled(s, e)
    requires e.Crash? || e.Sync? || e.Reload? || e.Touch? || e.Cede? || e.Reclaim? || e.Remove? || e.WantAdoption?
             || e.AbandonAdoption?
    ensures Inv(Apply(s, e))
  {
    hide Manages; hide Without; hide Roots; hide Lists; hide Serialized; hide Recent; hide SerializedById;
    hide Loaded; hide MayAdopt;
    var t := Apply(s, e);
    assert HoldsItsOwn(s.hosts[e.h], s.home) && InStep(s.hosts[e.h], e.h, s.lock, s.registry);
    if e.Sync? {
      LoadedHoldsItsOwn(s, e.h, OwnedIds(s.hosts[e.h]));
      LoadedStays(s.hosts[e.h], s.registry, OwnedIds(s.hosts[e.h]));
    }
    if e.Reload? {
      LoadedHoldsItsOwn(s, e.h, {});
      LoadedStays(s.hosts[e.h], s.registry, {});
    }
    HostMoves(s, e.h, t.hosts[e.h], s.lock);
  }

  lemma CreateKeepsInv(s: State, h: HostId, id: Id, residency: Residency, body: nat)
    requires Inv(s) && Enabled(s, Create(h, id, residency, body))
    ensures Inv(Apply(s, Create(h, id, residency, body)))
  {
    var t := Apply(s, Create(h, id, residency, body));
    forall g | 0 <= g < |t.hosts| && t.hosts[g].alive
      ensures InStep(t.hosts[g], g, t.lock, t.registry) && HoldsItsOwn(t.hosts[g], t.home)
    {
      assert InStep(s.hosts[g], g, s.lock, s.registry) && HoldsItsOwn(s.hosts[g], s.home);
    }
  }

  /** A step keeps the invariant if and only if it does not take a lineage another live host holds. */
  lemma StepKeepsInvExactly(s: State, e: Event)
    requires Inv(s) && Enabled(s, e)
    ensures Inv(Apply(s, e)) <==> Harmless(s, e)
  {
    hide Inv; hide MayAdopt; hide HeldElsewhere;
    match e
    case Tick | RecoverLock => OutsideKeepsInv(s, e);
    case Create(h, id, residency, body) => CreateKeepsInv(s, h, id, residency, body);
    case CommitSave(h, order) => CommitSaveKeepsInv(s, h, order);
    case CommitAdoption(h, opinion, rootSeen) => AdoptionKeepsInvExactly(s, h, opinion, rootSeen);
    case SettleAdoption(h, id) => SettleKeepsInv(s, h, id);
    case LockForSave(_, _) | LockForAdoption(_, _) | Read(_) | Unlock(_) => LockStepKeepsInv(s, e);
    case Crash(_) | Sync(_) | Reload(_) | Touch(_, _, _) | Cede(_, _) | Reclaim(_, _) | Remove(_, _)
       | WantAdoption(_, _, _) | AbandonAdoption(_, _) => RosterStepKeepsInv(s, e);
  }

  lemma OutsideKeepsInv(s: State, e: Event)
    requires Inv(s) && Enabled(s, e) && (e.Tick? || e.RecoverLock?)
    ensures Inv(Apply(s, e))
  {
  }

  /** Every step of every host keeps the invariant. */
  lemma StepKeepsInv(s: State, e: Event)
    requires Inv(s) && Enabled(s, e) && Informed(s, e)
    ensures Inv(Apply(s, e))
  {
    hide Inv; hide Enabled; hide Apply; hide Informed; hide Harmless;
    InformedIsHarmless(s, e);
    StepKeepsInvExactly(s, e);
  }

  // ----- runs -----

  predicate Runs(s: State, es: seq<Event>)
    decreases es
  {
    es == [] || (Enabled(s, es[0]) && Informed(s, es[0]) && Runs(Apply(s, es[0]), es[1..]))
  }

  function Final(s: State, es: seq<Event>): State
    requires Runs(s, es)
    decreases es
  {
    if es == [] then s else Final(Apply(s, es[0]), es[1..])
  }

  /** Hosts that have just started beside a well-formed registry left by hosts of any root. */
  predicate Fresh(h: Host) {
    h.actors == map[] && h.removing == {} && h.pending == map[] && h.section.Idle?
  }

  predicate Start(s: State) {
    && Configured(s) && s.lock.None? && NoDuplicates(s.registry)
    && s.written == ById(s.registry) && s.home == Roots(s.registry)
    && forall h :: 0 <= h < |s.hosts| ==> Fresh(s.hosts[h])
  }

  /** The invariant holds throughout every run. */
  lemma {:induction false} RunKeepsInv(s: State, es: seq<Event>)
    requires Inv(s) && Runs(s, es)
    ensures Inv(Final(s, es))
    decreases es
  {
    if es != [] {
      StepKeepsInv(s, es[0]);
      RunKeepsInv(Apply(s, es[0]), es[1..]);
    }
  }

  /** In every reachable state at most one live host decides that an actor is its own, and who does is
      exactly: a live host that holds the actor under its own root, has not ceded it, and either created it
      or serves its residency. */
  lemma AtMostOneOwner(s: State, es: seq<Event>, g: HostId, h: HostId, id: Id)
    requires Start(s) && Runs(s, es)
    requires g < |Final(s, es).hosts| && h < |Final(s, es).hosts|
    ensures Owns(Final(s, es).hosts[g], id) && Owns(Final(s, es).hosts[h], id) ==> g == h
    ensures Owns(Final(s, es).hosts[h], id) <==> HoldsAndServes(Final(s, es).hosts[h], id)
    ensures Owns(Final(s, es).hosts[h], id) ==> id in Final(s, es).home && Final(s, es).home[id] == Final(s, es).hosts[h].root
  {
    RunKeepsInv(s, es);
    var t := Final(s, es);
    assert Owns(t.hosts[h], id) ==> HoldsItsOwn(t.hosts[h], t.home);
    if Owns(t.hosts[g], id) && Owns(t.hosts[h], id) { OneOwner(t, g, h, id); }
  }

  predicate HoldsAndServes(host: Host, id: Id) {
    && host.alive && id in host.actors && id !in host.ceded && host.actors[id].root == host.root
    && (id in host.created || host.claim == Some(host.actors[id].residency))
  }

  /** Runs in which no step takes a lineage another live host holds, whatever the directories show. */
  predicate HarmlessRuns(s: State, es: seq<Event>)
    decreases es
  {
    es == [] || (Enabled(s, es[0]) && Harmless(s, es[0]) && HarmlessRuns(Apply(s, es[0]), es[1..]))
  }

  predicate Steps(s: State, es: seq<Event>)
    decreases es
  {
    es == [] || (Enabled(s, es[0]) && Steps(Apply(s, es[0]), es[1..]))
  }

  function End(s: State, es: seq<Event>): State
    requires Steps(s, es)
    decreases es
  {
    if es == [] then s else End(Apply(s, es[0]), es[1..])
  }

  predicate InvThroughout(s: State, es: seq<Event>)
    requires Steps(s, es)
    decreases es
  {
    Inv(s) && (es == [] || InvThroughout(Apply(s, es[0]), es[1..]))
  }

  /** Any sequence of steps keeps the invariant throughout if and only if all of them are harmless. */
  lemma {:induction false} InvThroughoutExactly(s: State, es: seq<Event>)
    requires Inv(s) && Steps(s, es)
    ensures InvThroughout(s, es) <==> HarmlessRuns(s, es)
    decreases es
  {
    hide Inv; hide Apply; hide Enabled; hide Harmless;
    if es != [] {
      StepKeepsInvExactly(s, es[0]);
      if Harmless(s, es[0]) {
        InvThroughoutExactly(Apply(s, es[0]), es[1..]);
      } else {
        StartsThere(Apply(s, es[0]), es[1..]);
      }
    }
  }

  lemma StartsThere(s: State, es: seq<Event>)
    requires Steps(s, es)
    ensures InvThroughout(s, es) ==> Inv(s)
  {
  }

  lemma {:induction false} HarmlessKeepsInv(s: State, es: seq<Event>)
    requires Inv(s) && HarmlessRuns(s, es)
    ensures Steps(s, es) && Inv(End(s, es))
    decreases es
  {
    hide Inv; hide Apply; hide Enabled; hide Harmless;
    if es != [] {
      StepKeepsInvExactly(s, es[0]);
      HarmlessKeepsInv(Apply(s, es[0]), es[1..]);
    }
  }

  /** The runs of the theorems above are harmless ones. */
  lemma {:induction false} RunsAreHarmless(s: State, es: seq<Event>)
    requires Inv(s) && Runs(s, es)
    ensures HarmlessRuns(s, es)
    decreases es
  {
    hide Inv; hide Apply; hide Enabled; hide Harmless; hide Informed;
    if es != [] {
      InformedIsHarmless(s, es[0]);
      StepKeepsInv(s, es[0]);
      RunsAreHarmless(Apply(s, es[0]), es[1..]);
    }
  }

  /** In every harmless run at most one live host decides that an actor is its own, with no assumption on
      the directory. */
  lemma AtMostOneOwnerIfHarmless(s: State, es: seq<Event>, g: HostId, h: HostId, id: Id)
    requires Start(s) && HarmlessRuns(s, es) && Steps(s, es) && BothOwn(End(s, es), g, h, id)
    ensures g == h
  {
    hide Owns;
    StartHasInv(s);
    HarmlessKeepsInv(s, es);
    OneOwner(End(s, es), g, h, id);
  }

  lemma StartHasInv(s: State)
    requires Start(s)
    ensures Inv(s)
  {
  }

  /** In every reachable state at most one live host is inside the locked section. */
  lemma MutualExclusion(s: State, es: seq<Event>, g: HostId, h: HostId)
    requires Start(s) && Runs(s, es) && Live(Final(s, es), g) && Live(Final(s, es), h)
    requires !Final(s, es).hosts[g].section.Idle? && !Final(s, es).hosts[h].section.Idle?
    ensures g == h
  {
    RunKeepsInv(s, es);
  }

  function Adoptions(s: State, es: seq<Event>, id: Id): nat
    requires Runs(s, es)
    decreases es
  {
    if es == [] then 0 else (if Adopts(s, es[0], id) then 1 else 0) + Adoptions(Apply(s, es[0]), es[1..], id)
  }

  lemma AdoptionStays(h: Host, id: Id, snapshot: seq<Record>, now: nat)
    requires id in h.pending
    ensures LostHost(h, id).root == h.root && LostHost(h, id).alive == h.alive
    ensures Captured(h, id).Some? ==> WonHost(h, id, snapshot, now).root == h.root && WonHost(h, id, snapshot, now).alive == h.alive
    ensures Settled(h, snapshot, id).root == h.root && Settled(h, snapshot, id).alive == h.alive
  {
    hide Find; hide Roots;
  }

  predicate SameLife(before: Host, after: Host, crashes: bool) {
    after.root == before.root && after.alive == (before.alive && !crashes)
  }

  lemma RosterMoverStays(s: State, e: Event)
    requires Enabled(s, e) && !e.Tick? && !e.RecoverLock? && !e.CommitSave? && !e.CommitAdoption? && !e.SettleAdoption?
    ensures SameLife(s.hosts[e.h], Apply(s, e).hosts[e.h], e.Crash?)
  {
    hide Manages; hide Find; hide Roots; hide Lists; hide Detach; hide Recent; hide Captured;
  }

  lemma WriterStays(s: State, e: Event)
    requires Enabled(s, e) && (e.CommitSave? || e.CommitAdoption? || e.SettleAdoption?)
    ensures SameLife(s.hosts[e.h], Apply(s, e).hosts[e.h], false)
  {
    hide Manages; hide Find; hide Without; hide Roots; hide Serialized; hide SerializedById; hide WonHost; hide Settled;
    if e.CommitAdoption? && s.hosts[e.h].section.op.id in s.hosts[e.h].pending {
      AdoptionStays(s.hosts[e.h], s.hosts[e.h].section.op.id, s.hosts[e.h].section.snapshot, s.now);
    }
    if e.SettleAdoption? { AdoptionStays(s.hosts[e.h], e.id, s.registry, s.now); }
  }

  /** A host never changes its root and never comes back to life. */
  lemma HostStays(s: State, e: Event, h: HostId)
    requires Enabled(s, e) && h < |s.hosts|
    ensures |Apply(s, e).hosts| == |s.hosts|
    ensures Apply(s, e).hosts[h].root == s.hosts[h].root
    ensures Apply(s, e).hosts[h].alive == (s.hosts[h].alive && e != Crash(h))
  {
    HostCount(s, e);
    if e.Tick? || e.RecoverLock? || e.h != h {
      OthersStay(s, e, h);
    } else {
      hide Apply; hide Enabled;
      if e.CommitSave? || e.CommitAdoption? || e.SettleAdoption? { WriterStays(s, e); } else { RosterMoverStays(s, e); }
    }
  }

  lemma HostCount(s: State, e: Event)
    requires Enabled(s, e)
    ensures |Apply(s, e).hosts| == |s.hosts|
  {
    hide Manages; hide Find; hide Without; hide Roots; hide Serialized; hide SerializedById; hide WonHost; hide Settled; hide Loaded;
  }

  lemma RootsLive(s: State, e: Event, root: Root)
    requires Enabled(s, e)
    ensures LiveRoot(Apply(s, e), root) ==> LiveRoot(s, root)
    ensures LiveRoot(s, root) && !e.Crash? ==> LiveRoot(Apply(s, e), root)
  {
    var t := Apply(s, e);
    assert |t.hosts| == |s.hosts|;
    if LiveRoot(t, root) {
      var h :| 0 <= h < |t.hosts| && t.hosts[h].alive && t.hosts[h].root == root;
      HostStays(s, e, h);
      assert s.hosts[h].alive && s.hosts[h].root == root;
    }
    if LiveRoot(s, root) && !e.Crash? {
      var h :| 0 <= h < |s.hosts| && s.hosts[h].alive && s.hosts[h].root == root;
      HostStays(s, e, h);
      assert t.hosts[h].alive && t.hosts[h].root == root;
    }
  }

  lemma {:induction false} LiveAtTheEnd(s: State, es: seq<Event>, root: Root)
    requires Runs(s, es) && LiveRoot(Final(s, es), root)
    ensures LiveRoot(s, root)
    decreases es
  {
    if es != [] {
      LiveAtTheEnd(Apply(s, es[0]), es[1..], root);
      RootsLive(s, es[0], root);
    }
  }

  lemma HomeMoves(s: State, e: Event, id: Id)
    requires Inv(s) && Enabled(s, e) && Informed(s, e) && id in s.home
    ensures id in Apply(s, e).home
    ensures Adopts(s, e, id) ==> !LiveRoot(s, s.home[id]) && Apply(s, e).home[id] == s.hosts[e.h].root
    ensures !Adopts(s, e, id) ==> Apply(s, e).home[id] == s.home[id]
  {
    hide Inv; hide Manages; hide OwnedIds; hide Without; hide ById; hide Roots; hide Lists; hide Detach;
    hide Serialized; hide SerializedById; hide Settled; hide Loaded; hide WonHost; hide LostHost;
    if Adopts(s, e, id) { AdoptionTakesDeadLineage(s, e.h, e.opinion, e.rootSeen); }
  }

  /** While the host a lineage belongs to is alive, no other host ever takes the lineage over. */
  lemma {:induction false} LiveLineageIsSafe(s: State, es: seq<Event>, id: Id)
    requires Inv(s) && Runs(s, es) && id in s.home && LiveRoot(Final(s, es), s.home[id])
    ensures Adoptions(s, es, id) == 0 && id in Final(s, es).home && Final(s, es).home[id] == s.home[id]
    decreases es
  {
    if es != [] {
      StepKeepsInv(s, es[0]);
      LiveAtTheEnd(s, es, s.home[id]);
      HomeMoves(s, es[0], id);
      LiveLineageIsSafe(Apply(s, es[0]), es[1..], id);
    }
  }

  lemma {:induction false} LiveUntilTheEnd(s: State, es: seq<Event>, root: Root)
    requires Runs(s, es) && LiveRoot(s, root) && forall e :: e in es ==> !e.Crash?
    ensures LiveRoot(Final(s, es), root)
    decreases es
  {
    if es != [] {
      RootsLive(s, es[0], root);
      LiveUntilTheEnd(Apply(s, es[0]), es[1..], root);
    }
  }

  /** Of all the hosts racing for an orphan at most one ever succeeds, in any run in which no host dies. */
  lemma {:induction false} AtMostOneAdoption(s: State, es: seq<Event>, id: Id)
    requires Inv(s) && Runs(s, es) && forall e :: e in es ==> !e.Crash?
    ensures Adoptions(s, es, id) <= 1
    decreases es
  {
    if es != [] {
      var t := Apply(s, es[0]);
      StepKeepsInv(s, es[0]);
      if Adopts(s, es[0], id) {
        var winner := s.hosts[es[0].h].root;
        AdoptionTakesDeadLineage(s, es[0].h, es[0].opinion, es[0].rootSeen);
        assert LiveRoot(s, winner);
        RootsLive(s, es[0], winner);
        LiveUntilTheEnd(t, es[1..], winner);
        LiveLineageIsSafe(t, es[1..], id);
      } else {
        AtMostOneAdoption(t, es[1..], id);
      }
    }
  }

  // ----- the directory assumption and the grace window -----

  /** The weaker assumption the grace window needs: a live root that never adopted the judged lineage,
      that is, its creator, is visible. A live adopter need not be. */
  predicate Sighted(s: State, e: Event)
    requires Enabled(s, e)
  {
    e.CommitAdoption? && Judged(s, e).Some? && Judged(s, e).value.actor.adoptedAt.None? ==>
      (LiveRoot(s, Judged(s, e).value.actor.root) ==> e.rootSeen)
  }

  predicate Since(actor: Actor, since: nat) { actor.adoptedAt.Some? ==> actor.adoptedAt.value >= since }

  /** No live host holds a lineage it adopted before `since`. */
  predicate AdoptedSince(s: State, since: nat) {
    && (forall id :: id in s.written && LiveRoot(s, s.written[id].actor.root) ==> Since(s.written[id].actor, since))
    && forall h :: 0 <= h < |s.hosts| && s.hosts[h].alive ==> HoldsSince(s.hosts[h], since)
  }

  predicate HoldsSince(host: Host, since: nat) {
    forall id :: id in host.actors && host.actors[id].root == host.root ==> Since(host.actors[id], since)
  }

  /** A run whose adoptions are judged by directories that need not show recent adopters. */
  predicate SightedRuns(s: State, es: seq<Event>)
    decreases es
  {
    es == [] || (Enabled(s, es[0]) && Sighted(s, es[0]) && SightedRuns(Apply(s, es[0]), es[1..]))
  }

  lemma JudgedIsWritten(s: State, e: Event)
    requires Inv(s) && Enabled(s, e) && e.CommitAdoption?
    ensures var id := s.hosts[e.h].section.op.id;
            Judged(s, e) == if id in s.written then Some(s.written[id]) else None
  {
    assert InStep(s.hosts[e.h], e.h, s.lock, s.registry);
    FindIsLookup(s.registry, s.hosts[e.h].section.op.id);
  }

  /** Inside the window the compare-and-set refuses every live adopter by its timestamp alone. */
  lemma WindowInforms(s: State, e: Event, since: nat)
    requires Inv(s) && AdoptedSince(s, since) && Enabled(s, e) && Sighted(s, e)
    requires s.now < since + ADOPTION_GRACE_MS
    ensures Informed(s, e)
  {
    if e.CommitAdoption? { JudgedIsWritten(s, e); }
  }

  /** A refreshed roster holds what it held or what the file records of its lineages. */
  lemma LoadedKeepsSince(s: State, h: HostId, kept: set<Id>, since: nat)
    requires Inv(s) && AdoptedSince(s, since) && Live(s, h) && kept <= s.hosts[h].actors.Keys
    ensures HoldsSince(Loaded(s.hosts[h], s.registry, kept), since)
  {
    hide Manages; hide Detach; hide Configured; hide Exclusive; hide AtHome;
    var host, moved := s.hosts[h], Loaded(s.hosts[h], s.registry, kept);
    assert HoldsSince(host, since) && LiveRoot(s, host.root);
    forall id | id in moved.actors && moved.actors[id].root == moved.root
      ensures Since(moved.actors[id], since)
    {
      if id in kept { assert moved.actors[id] == host.actors[id]; } else { assert moved.actors[id] == s.written[id].actor; }
    }
  }

  lemma MoverKeepsSince(s: State, e: Event, since: nat)
    requires Inv(s) && AdoptedSince(s, since) && Enabled(s, e) && since <= s.now && !Attempts(e)
    requires !e.Tick? && !e.RecoverLock? && !e.Sync? && !e.Reload? && Apply(s, e).hosts[e.h].alive
    ensures HoldsSince(Apply(s, e).hosts[e.h], since)
  {
    hide Manages; hide Without; hide Roots; hide Lists; hide Serialized; hide Recent; hide SerializedById; hide Loaded; hide Detach;
    assert HoldsSince(s.hosts[e.h], since);
  }

  /** What a host holds after a step is what it held before, or was adopted just now. */
  predicate HeldOrAdopted(before: Host, after: Host, now: nat) {
    && after.root == before.root
    && forall id :: id in after.actors && after.actors[id].root == after.root ==>
         (id in before.actors && after.actors[id] == before.actors[id]) || after.actors[id].adoptedAt == Some(now)
  }

  lemma AdoptionHolds(s: State, h: HostId, opinion: Option<bool>, rootSeen: bool)
    requires Enabled(s, CommitAdoption(h, opinion, rootSeen))
    ensures HeldOrAdopted(s.hosts[h], AfterAdoption(s, h, opinion, rootSeen).hosts[h], s.now)
  {
    hide Roots; hide Without; hide Find; hide Recent;
  }

  lemma SettlingHolds(h: Host, registry: seq<Record>, id: Id, now: nat)
    requires id in h.pending
    ensures HeldOrAdopted(h, Settled(h, registry, id), now)
  {
    hide Find;
  }

  lemma AttemptHolds(s: State, e: Event)
    requires Enabled(s, e) && Attempts(e)
    ensures e.h < |Apply(s, e).hosts| && HeldOrAdopted(s.hosts[e.h], Apply(s, e).hosts[e.h], s.now)
  {
    hide AfterAdoption; hide Settled; hide Recent; hide Captured;
    HostCount(s, e);
    match e
    case CommitAdoption(h, opinion, rootSeen) => AdoptionHolds(s, h, opinion, rootSeen);
    case SettleAdoption(h, id) => SettlingHolds(s.hosts[h], s.registry, id, s.now);
    case WantAdoption(_, _, _) | AbandonAdoption(_, _) =>
  }

  lemma AttemptKeepsSince(s: State, e: Event, since: nat)
    requires Inv(s) && AdoptedSince(s, since) && Enabled(s, e) && since <= s.now && Attempts(e)
    requires Apply(s, e).hosts[e.h].alive
    ensures HoldsSince(Apply(s, e).hosts[e.h], since)
  {
    AttemptHolds(s, e);
    assert HoldsSince(s.hosts[e.h], since) by { assert Live(s, e.h); }
    hide Apply; hide Inv; hide AdoptedSince;
  }

  lemma HostKeepsSince(s: State, e: Event, since: nat, h: HostId)
    requires Inv(s) && AdoptedSince(s, since) && Enabled(s, e) && since <= s.now
    requires !e.Tick? && !e.RecoverLock? && e.h == h && h < |Apply(s, e).hosts| && Apply(s, e).hosts[h].alive
    ensures HoldsSince(Apply(s, e).hosts[h], since)
  {
    hide Inv; hide HoldsSince; hide Loaded; hide AdoptedSince;
    match e
    case Sync(_) => LoadedKeepsSince(s, h, OwnedIds(s.hosts[h]), since);
    case Reload(_) => LoadedKeepsSince(s, h, {}, since);
    case _ => if Attempts(e) { AttemptKeepsSince(s, e, since); } else { MoverKeepsSince(s, e, since); }
  }

  lemma SavedKeepsSince(s: State, h: HostId, order: seq<Id>, since: nat, id: Id)
    requires Inv(s) && AdoptedSince(s, since) && Enabled(s, CommitSave(h, order)) && since <= s.now
    requires var t := AfterSave(s, h, order); id in t.written && LiveRoot(s, t.written[id].actor.root)
    ensures Since(AfterSave(s, h, order).written[id].actor, since)
  {
    hide Manages; hide Without; hide ById; hide Roots; hide Lists; hide Detach; hide Serialized; hide Merged;
    if id in OwnedIds(s.hosts[h]) {
      OwnedIsHome(s, h, id);
      assert HoldsSince(s.hosts[h], since);
    }
  }

  lemma OnlyCommitsMean(s: State, e: Event)
    requires Enabled(s, e) && !e.CommitSave? && !e.CommitAdoption?
    ensures Apply(s, e).written == s.written
  {
    hide Loaded; hide Settled; hide Manages; hide Recent; hide Detach;
  }

  lemma WrittenKeepsSince(s: State, e: Event, since: nat, id: Id)
    requires Inv(s) && AdoptedSince(s, since) && Enabled(s, e) && since <= s.now
    requires id in Apply(s, e).written && LiveRoot(Apply(s, e), Apply(s, e).written[id].actor.root)
    ensures Since(Apply(s, e).written[id].actor, since)
  {
    hide Manages; hide Without; hide ById; hide Roots; hide Lists; hide Serialized; hide WonHost; hide LostHost; hide LiveRoot;
    RootsLive(s, e, Apply(s, e).written[id].actor.root);
    match e
    case CommitSave(h, order) => SavedKeepsSince(s, h, order, since, id);
    case CommitAdoption(h, opinion, rootSeen) => hide Inv;
    case _ =>
      OnlyCommitsMean(s, e);
      hide Apply;
  }

  lemma StepKeepsAdoptedSince(s: State, e: Event, since: nat)
    requires Inv(s) && AdoptedSince(s, since) && Enabled(s, e) && since <= s.now
    ensures AdoptedSince(Apply(s, e), since)
  {
    var t := Apply(s, e);
    assert |t.hosts| == |s.hosts|;
    forall h | 0 <= h < |t.hosts| && t.hosts[h].alive
      ensures HoldsSince(t.hosts[h], since)
    {
      if !e.Tick? && !e.RecoverLock? && e.h == h {
        HostKeepsSince(s, e, since, h);
      } else {
        OthersStay(s, e, h);
      }
    }
    forall id | id in t.written && LiveRoot(t, t.written[id].actor.root)
      ensures Since(t.written[id].actor, since)
    {
      WrittenKeepsSince(s, e, since, id);
    }
  }

  lemma OthersStay(s: State, e: Event, h: HostId)
    requires Enabled(s, e) && h < |s.hosts| && (e.Tick? || e.RecoverLock? || e.h != h)
    ensures h < |Apply(s, e).hosts| && Apply(s, e).hosts[h] == s.hosts[h]
  {
  }

  function Ticks(es: seq<Event>): nat {
    if es == [] then 0 else (if es[0].Tick? then 1 else 0) + Ticks(es[1..])
  }

  lemma TimePasses(s: State, e: Event)
    requires Enabled(s, e)
    ensures Apply(s, e).now == s.now + (if e.Tick? then 1 else 0)
  {
  }

  /** Within the grace window the directory may fail to show any adopter: every such run is a run
      all the theorems above apply to. */
  lemma {:induction false} WindowRuns(s: State, es: seq<Event>, since: nat)
    requires Inv(s) && AdoptedSince(s, since) && since <= s.now && SightedRuns(s, es)
    requires s.now + Ticks(es) < since + ADOPTION_GRACE_MS
    ensures Runs(s, es)
    decreases es
  {
    if es != [] {
      WindowInforms(s, es[0], since);
      StepKeepsInv(s, es[0]);
      StepKeepsAdoptedSince(s, es[0], since);
      TimePasses(s, es[0]);
      WindowRuns(Apply(s, es[0]), es[1..], since);
    }
  }

  // ----- the fence of one lineage -----

  predicate StampedActor(actor: Actor, since: nat) { actor.adoptedAt.Some? && actor.adoptedAt.value >= since }

  predicate StampedAt(host: Host, id: Id, since: nat) {
    id in host.actors && host.actors[id].root == host.root ==> StampedActor(host.actors[id], since)
  }

  /** The lineage was adopted at `since` or later, as far as the file and its live owner know. */
  predicate Stamped(s: State, id: Id, since: nat) {
    && (id in s.written ==> StampedActor(s.written[id].actor, since))
    && forall h :: 0 <= h < |s.hosts| && s.hosts[h].alive ==> StampedAt(s.hosts[h], id, since)
  }

  lemma StampFences(s: State, e: Event, id: Id, since: nat)
    requires Inv(s) && Stamped(s, id, since) && Enabled(s, e) && s.now < since + ADOPTION_GRACE_MS
    ensures !Adopts(s, e, id)
  {
    if e.CommitAdoption? { JudgedIsWritten(s, e); }
  }

  predicate Attempts(e: Event) { e.CommitAdoption? || e.SettleAdoption? || e.WantAdoption? || e.AbandonAdoption? }

  lemma AttemptKeepsStamp(s: State, e: Event, id: Id, since: nat)
    requires Inv(s) && Stamped(s, id, since) && Enabled(s, e) && since <= s.now && Attempts(e) && id in s.home
    ensures e.h < |Apply(s, e).hosts| && StampedAt(Apply(s, e).hosts[e.h], id, since)
  {
    AttemptHolds(s, e);
    assert StampedAt(s.hosts[e.h], id, since) by { assert Live(s, e.h); }
    hide Apply; hide Inv; hide Stamped;
  }

  lemma HostKeepsStamp(s: State, e: Event, id: Id, since: nat)
    requires Inv(s) && Stamped(s, id, since) && Enabled(s, e) && since <= s.now && id in s.home
    requires !e.Tick? && !e.RecoverLock? && !Attempts(e)
    ensures e.h < |Apply(s, e).hosts| && StampedAt(Apply(s, e).hosts[e.h], id, since)
  {
    hide Manages; hide Without; hide Roots; hide Lists; hide Serialized; hide Recent; hide SerializedById; hide Exclusive;
    assert StampedAt(s.hosts[e.h], id, since);
    if e.Sync? && id in OwnedIds(s.hosts[e.h]) { OwnedIsHome(s, e.h, id); }
  }

  lemma WrittenKeepsStamp(s: State, e: Event, id: Id, since: nat)
    requires Inv(s) && Stamped(s, id, since) && Enabled(s, e) && since <= s.now
    ensures id in Apply(s, e).written ==> StampedActor(Apply(s, e).written[id].actor, since)
  {
    hide Manages; hide Without; hide ById; hide Roots; hide Lists; hide Detach; hide Serialized; hide Loaded;
    hide Settled; hide WonHost; hide LostHost; hide Recent;
    if e.CommitSave? && id in OwnedIds(s.hosts[e.h]) {
      OwnedIsHome(s, e.h, id);
      assert StampedAt(s.hosts[e.h], id, since);
    }
  }

  lemma StepKeepsStamp(s: State, e: Event, id: Id, since: nat)
    requires Inv(s) && Stamped(s, id, since) && Enabled(s, e) && since <= s.now && id in s.home
    ensures Stamped(Apply(s, e), id, since) && id in Apply(s, e).home
  {
    var t := Apply(s, e);
    assert |t.hosts| == |s.hosts|;
    WrittenKeepsStamp(s, e, id, since);
    forall h | 0 <= h < |t.hosts| && t.hosts[h].alive
      ensures StampedAt(t.hosts[h], id, since)
    {
      if !e.Tick? && !e.RecoverLock? && e.h == h {
        if Attempts(e) { AttemptKeepsStamp(s, e, id, since); } else { HostKeepsStamp(s, e, id, since); }
      } else {
        OthersStay(s, e, h);
      }
    }
  }

  /** An adoption stamps its lineage. */
  lemma AdoptionStamps(s: State, e: Event, id: Id)
    requires Inv(s) && Enabled(s, e) && Informed(s, e) && Adopts(s, e, id)
    ensures Stamped(Apply(s, e), id, s.now) && id in Apply(s, e).home
  {
    AdoptionTakesDeadLineage(s, e.h, e.opinion, e.rootSeen);
    var t := Apply(s, e);
    forall h | 0 <= h < |t.hosts| && t.hosts[h].alive
      ensures StampedAt(t.hosts[h], id, s.now)
    {
      assert HoldsItsOwn(s.hosts[h], s.home);
      assert LiveRoot(s, s.hosts[h].root);
    }
  }

  lemma {:induction false} NoneWhileStamped(s: State, es: seq<Event>, id: Id, since: nat)
    requires Inv(s) && Stamped(s, id, since) && since <= s.now && id in s.home && Runs(s, es)
    requires s.now + Ticks(es) < since + ADOPTION_GRACE_MS
    ensures Adoptions(s, es, id) == 0
    decreases es
  {
    hide Inv; hide Stamped; hide Apply; hide Enabled; hide Informed; hide Adopts;
    if es != [] {
      StampFences(s, es[0], id, since);
      StepKeepsInv(s, es[0]);
      StepKeepsStamp(s, es[0], id, since);
      TimePasses(s, es[0]);
      NoneWhileStamped(Apply(s, es[0]), es[1..], id, since);
    }
  }

  /** Within one grace window at most one adoption of a lineage succeeds, whoever crashes meanwhile. */
  lemma {:induction false} AtMostOneInWindow(s: State, es: seq<Event>, id: Id)
    requires Inv(s) && Runs(s, es) && Ticks(es) < ADOPTION_GRACE_MS
    ensures Adoptions(s, es, id) <= 1
    decreases es
  {
    hide Inv; hide Stamped; hide Apply; hide Enabled; hide Informed; hide Adopts;
    if es != [] {
      StepKeepsInv(s, es[0]);
      TimePasses(s, es[0]);
      if Adopts(s, es[0], id) {
        AdoptionStamps(s, es[0], id);
        NoneWhileStamped(Apply(s, es[0]), es[1..], id, s.now);
      } else {
        AtMostOneInWindow(Apply(s, es[0]), es[1..], id);
      }
    }
  }

  /** The race for an orphan: from a state in which no live host holds a lineage it adopted earlier, and as
      long as the grace window lasts, directories may fail to show every adopter and hosts may crash, yet
      at most one adoption succeeds and at most one host is ever the owner. */
  lemma OrphanRace(s: State, es: seq<Event>, id: Id, g: HostId, h: HostId)
    requires Inv(s) && AdoptedSince(s, s.now) && SightedRuns(s, es) && Ticks(es) < ADOPTION_GRACE_MS
    ensures Runs(s, es) && Adoptions(s, es, id) <= 1
    ensures BothOwn(Final(s, es), g, h, id) ==> g == h
  {
    WindowRuns(s, es, s.now);
    AtMostOneInWindow(s, es, id);
    RunKeepsInv(s, es);
    if BothOwn(Final(s, es), g, h, id) { OneOwner(Final(s, es), g, h, id); }
  }

  predicate BothOwn(s: State, g: HostId, h: HostId, id: Id) {
    g < |s.hosts| && h < |s.hosts| && Owns(s.hosts[g], id) && Owns(s.hosts[h], id)
  }

  lemma OneOwner(s: State, g: HostId, h: HostId, id: Id)
    requires Inv(s) && BothOwn(s, g, h, id)
    ensures g == h
  {
    assert HoldsItsOwn(s.hosts[g], s.home) && HoldsItsOwn(s.hosts[h], s.home);
  }

  // ----- what each write and each adoption achieves -----

  /** A locked save loses no update: what the host owns is recorded as it holds it, what it removed is
      gone, and nothing else, in particular no record of another host's lineage, changes. */
  lemma SaveLosesNothing(s: State, h: HostId, order: seq<Id>, id: Id)
    requires Inv(s) && Enabled(s, CommitSave(h, order))
    ensures var host, after := s.hosts[h], AfterSave(s, h, order).registry;
            && NoDuplicates(after)
            && (id in OwnedIds(host) ==> Find(after, id) == Some(Record(id, host.actors[id])))
            && (id in host.section.op.removed - OwnedIds(host) ==> Find(after, id) == None)
            && (id !in host.section.op.removed + OwnedIds(host) ==> Find(after, id) == Find(s.registry, id))
            && (id in s.home && s.home[id] != host.root ==> Find(after, id) == Find(s.registry, id))
  {
    var host := s.hosts[h];
    assert InStep(host, h, s.lock, s.registry) && HoldsItsOwn(host, s.home);
    MergeIsUpdate(s.registry, host.section.op.removed, host, order);
    FindIsLookup(s.registry, id);
    FindIsLookup(AfterSave(s, h, order).registry, id);
    if id in OwnedIds(host) { OwnedIsHome(s, h, id); }
  }

  /** A host writes when it commits a save. */
  predicate Writes(e: Event, h: HostId) { e.CommitSave? && e.h == h }

  /** The file's record of a lineage changes only when the live host it belongs to writes. */
  lemma RecordStays(s: State, e: Event, h: HostId, id: Id)
    requires Inv(s) && Enabled(s, e) && Informed(s, e) && Live(s, h)
    requires id in s.home && s.home[id] == s.hosts[h].root && !Writes(e, h)
    ensures Find(Apply(s, e).registry, id) == Find(s.registry, id)
  {
    hide Find; hide Without; hide MayAdopt; hide AfterSave; hide AfterAdoption; hide Loaded; hide Settled; hide Manages; hide Detach;
    match e
    case CommitSave(g, order) =>
      SaveLosesNothing(s, g, order, id);
      RootsApart(s, g, h);
    case CommitAdoption(g, opinion, rootSeen) => AdoptionLeavesOthers(s, g, opinion, rootSeen, id);
    case _ => OnlyCommitsWrite(s, e);
  }

  lemma OnlyCommitsWrite(s: State, e: Event)
    requires Enabled(s, e) && !e.CommitSave? && !e.CommitAdoption?
    ensures Apply(s, e).registry == s.registry
  {
    hide Loaded; hide Settled; hide Manages; hide Recent; hide Detach;
  }

  lemma RootsApart(s: State, g: HostId, h: HostId)
    requires Inv(s) && g < |s.hosts| && h < |s.hosts| && g != h
    ensures s.hosts[g].root != s.hosts[h].root
  {
  }

  lemma AdoptionLeavesOthers(s: State, g: HostId, opinion: Option<bool>, rootSeen: bool, id: Id)
    requires var e := CommitAdoption(g, opinion, rootSeen); Inv(s) && Enabled(s, e) && Informed(s, e)
    requires id in s.home && LiveRoot(s, s.home[id])
    ensures Find(AfterAdoption(s, g, opinion, rootSeen).registry, id) == Find(s.registry, id)
  {
    hide Find; hide Without; hide Roots; hide AtHome; hide Configured;
    var adopted, t := s.hosts[g].section.op.id, AfterAdoption(s, g, opinion, rootSeen);
    if MayAdopt(s.now, s.hosts[g], adopted, s.hosts[g].section.snapshot, opinion, rootSeen) {
      AdoptionTakesDeadLineage(s, g, opinion, rootSeen);
      assert InStep(s.hosts[g], g, s.lock, s.registry);
      ReplaceIsUpdate(s.registry, t.written[adopted]);
      FindIsLookup(s.registry, id);
      FindIsLookup(t.registry, id);
    }
  }

  /** No update is lost: as long as the host a lineage belongs to lives and does not write itself, no run of
      all the others, however they interleave, changes the record of that lineage or the lack of one. */
  lemma {:induction false} RecordStaysThroughout(s: State, es: seq<Event>, h: HostId, id: Id)
    requires Inv(s) && Runs(s, es) && h < |s.hosts| && h < |Final(s, es).hosts| && Final(s, es).hosts[h].alive
    requires id in s.home && s.home[id] == s.hosts[h].root && forall e :: e in es ==> !Writes(e, h)
    ensures Find(Final(s, es).registry, id) == Find(s.registry, id)
    ensures id in Final(s, es).home && Final(s, es).home[id] == s.hosts[h].root
    decreases es
  {
    hide Inv; hide Apply; hide Enabled; hide Informed; hide Find; hide Writes; hide LiveRoot; hide Adopts;
    if es != [] {
      StillAlive(s, es, h);
      LiveHasRoot(s, h);
      RecordStays(s, es[0], h, id);
      StepKeepsInv(s, es[0]);
      HomeMoves(s, es[0], id);
      HostStays(s, es[0], h);
      RecordStaysThroughout(Apply(s, es[0]), es[1..], h, id);
    }
  }

  lemma LiveHasRoot(s: State, h: HostId)
    requires Live(s, h)
    ensures LiveRoot(s, s.hosts[h].root)
  {
  }

  lemma {:induction false} StillAlive(s: State, es: seq<Event>, h: HostId)
    requires Runs(s, es) && h < |s.hosts| && h < |Final(s, es).hosts| && Final(s, es).hosts[h].alive
    ensures s.hosts[h].alive
    decreases es
  {
    hide Apply; hide Enabled; hide Informed;
    if es != [] {
      HostStays(s, es[0], h);
      StillAlive(Apply(s, es[0]), es[1..], h);
    }
  }

  /** So what a host saved is what the file says of its actor, and what it removed stays gone, until it writes
      again or dies. */
  lemma SavedStays(s: State, h: HostId, order: seq<Id>, es: seq<Event>, id: Id)
    requires var e := CommitSave(h, order); Inv(s) && Enabled(s, e) && Runs(AfterSave(s, h, order), es)
    requires var t := Final(AfterSave(s, h, order), es); h < |t.hosts| && t.hosts[h].alive && forall e :: e in es ==> !Writes(e, h)
    ensures var t := Final(AfterSave(s, h, order), es);
            && (id in OwnedIds(s.hosts[h]) ==> Find(t.registry, id) == Some(Record(id, s.hosts[h].actors[id])))
            && (id in s.hosts[h].section.op.removed - OwnedIds(s.hosts[h]) ==> Find(t.registry, id) == None)
  {
    hide Find; hide Serialized; hide Merged;
    var u := AfterSave(s, h, order);
    SaveLosesNothing(s, h, order, id);
    if id in OwnedIds(s.hosts[h]) || id in s.hosts[h].section.op.removed {
      SaverHasHome(s, h, order, id);
      RecordStaysThroughout(u, es, h, id);
    }
  }

  lemma SaverHasHome(s: State, h: HostId, order: seq<Id>, id: Id)
    requires Inv(s) && Enabled(s, CommitSave(h, order))
    requires id in OwnedIds(s.hosts[h]) || id in s.hosts[h].section.op.removed
    ensures var u := AfterSave(s, h, order);
            Inv(u) && h < |u.hosts| && u.hosts[h].root == s.hosts[h].root && id in u.home && u.home[id] == s.hosts[h].root
  {
    CommitSaveKeepsInv(s, h, order);
    assert InStep(s.hosts[h], h, s.lock, s.registry) && HoldsItsOwn(s.hosts[h], s.home);
    if id in OwnedIds(s.hosts[h]) { OwnedIsHome(s, h, id); }
  }

  // ----- what was ceded -----

  /** Neither a live host's save nor what it is about to remove touches the actor it ceded. */
  predicate Spares(host: Host, id: Id) {
    id in host.ceded && id !in host.removing && (host.section.Locked? || host.section.HasRead? ==>
      host.section.op.SaveOp? ==> id !in host.section.op.removed)
  }

  predicate SameDues(before: Host, after: Host) {
    after.ceded == before.ceded && after.removing == before.removing
  }

  lemma AttemptKeepsDues(h: Host, id: Id, registry: seq<Record>, now: nat)
    ensures SameDues(h, LostHost(h, id)) && LostHost(h, id).section.Committed?
    ensures Captured(h, id).Some? ==> SameDues(h, WonHost(h, id, registry, now)) && WonHost(h, id, registry, now).section.Committed?
    ensures id in h.pending ==> SameDues(h, Settled(h, registry, id)) && Settled(h, registry, id).section == h.section
  {
    hide Find; hide Roots;
  }

  lemma WriterStaysCeded(s: State, e: Event, id: Id)
    requires Enabled(s, e) && (e.CommitAdoption? || e.SettleAdoption? || e.CommitSave?) && id in s.hosts[e.h].ceded
    ensures id in Apply(s, e).hosts[e.h].ceded && (Spares(s.hosts[e.h], id) ==> Spares(Apply(s, e).hosts[e.h], id))
  {
    hide Find; hide Without; hide Roots; hide Serialized; hide SerializedById; hide Lists; hide WonHost; hide LostHost; hide Settled;
    hide MayAdopt; hide Manages;
    if e.CommitAdoption? { AttemptKeepsDues(s.hosts[e.h], s.hosts[e.h].section.op.id, s.hosts[e.h].section.snapshot, s.now); }
    if e.SettleAdoption? { AttemptKeepsDues(s.hosts[e.h], e.id, s.registry, s.now); }
  }

  lemma MoverStaysCeded(s: State, e: Event, id: Id)
    requires Enabled(s, e) && !e.Tick? && !e.RecoverLock? && !e.CommitAdoption? && !e.SettleAdoption? && !e.CommitSave?
    requires id in s.hosts[e.h].ceded && !(e.Reclaim? && e.id == id)
    ensures id in Apply(s, e).hosts[e.h].ceded
    ensures Spares(s.hosts[e.h], id) && !(e.Remove? && e.id == id) ==> Spares(Apply(s, e).hosts[e.h], id)
  {
    hide Manages; hide Find; hide Roots; hide Detach; hide Recent; hide Lists; hide Captured; hide ById;
  }

  lemma StaysCeded(s: State, e: Event, h: HostId, id: Id)
    requires Enabled(s, e) && h < |s.hosts| && id in s.hosts[h].ceded && e != Reclaim(h, id)
    ensures h < |Apply(s, e).hosts| && id in Apply(s, e).hosts[h].ceded
    ensures Spares(s.hosts[h], id) && e != Remove(h, id) ==> Spares(Apply(s, e).hosts[h], id)
  {
    hide Apply; hide Enabled; hide Spares;
    HostCount(s, e);
    if e.Tick? || e.RecoverLock? || e.h != h {
      OthersStay(s, e, h);
    } else if e.CommitAdoption? || e.SettleAdoption? || e.CommitSave? {
      WriterStaysCeded(s, e, id);
    } else {
      MoverStaysCeded(s, e, id);
    }
  }

  lemma {:induction false} CededThroughout(s: State, es: seq<Event>, h: HostId, id: Id)
    requires Inv(s) && Runs(s, es) && h < |s.hosts| && id in s.hosts[h].ceded && Reclaim(h, id) !in es
    ensures Inv(Final(s, es)) && h < |Final(s, es).hosts| && id in Final(s, es).hosts[h].ceded
    ensures Spares(s.hosts[h], id) && Remove(h, id) !in es ==> Spares(Final(s, es).hosts[h], id)
    decreases es
  {
    hide Inv; hide Apply; hide Enabled; hide Informed; hide Spares;
    if es != [] {
      StepKeepsInv(s, es[0]);
      StaysCeded(s, es[0], h, id);
      CededThroughout(Apply(s, es[0]), es[1..], h, id);
    }
  }

  /** From the moment it cedes an actor until it reclaims it, through any run of all the hosts, a host
      neither owns the actor nor lists it among those it saves. */
  lemma CededStays(s: State, h: HostId, id: Id, es: seq<Event>)
    requires Inv(s) && Enabled(s, Cede(h, id)) && Runs(Apply(s, Cede(h, id)), es) && Reclaim(h, id) !in es
    ensures var t := Final(Apply(s, Cede(h, id)), es);
            h < |t.hosts| && !Owns(t.hosts[h], id) && id !in OwnedIds(t.hosts[h])
  {
    StepKeepsInv(s, Cede(h, id));
    CededThroughout(Apply(s, Cede(h, id)), es, h, id);
  }

  /** A save deletes the record of a ceded actor when that save is to remove it, and otherwise leaves the
      record, or the lack of one, as it was. */
  lemma CededSave(s: State, h: HostId, order: seq<Id>, id: Id)
    requires Inv(s) && Enabled(s, CommitSave(h, order)) && id in s.hosts[h].ceded
    ensures Find(AfterSave(s, h, order).registry, id)
         == if id in s.hosts[h].section.op.removed then None else Find(s.registry, id)
  {
    hide Find; hide Serialized; hide Merged; hide Inv;
    SaveLosesNothing(s, h, order, id);
  }

  /** So no save of a host changes the record of an actor it ceded, until it reclaims or removes it. */
  lemma CededIsNotSaved(s: State, h: HostId, id: Id, es: seq<Event>, order: seq<Id>)
    requires Inv(s) && Enabled(s, Cede(h, id)) && id !in s.hosts[h].removing
    requires Runs(Apply(s, Cede(h, id)), es) && Reclaim(h, id) !in es && Remove(h, id) !in es
    requires Enabled(Final(Apply(s, Cede(h, id)), es), CommitSave(h, order))
    ensures var t := Final(Apply(s, Cede(h, id)), es); Find(AfterSave(t, h, order).registry, id) == Find(t.registry, id)
  {
    hide Find; hide Serialized; hide Merged; hide AfterSave; hide Inv; hide Lists;
    StepKeepsInv(s, Cede(h, id));
    CededThroughout(Apply(s, Cede(h, id)), es, h, id);
    CededSave(Final(Apply(s, Cede(h, id)), es), h, order, id);
  }

  /** A live opinion of the directory decides for every host that holds the actor and has not ceded it. */
  lemma OpinionDecides(h: Host, id: Id, opinion: bool)
    ensures OwnsUnder(h, id, Some(opinion)) <==> h.alive && id in h.actors && id !in h.ceded && opinion
  {
  }

  /** Whoever settles a lost attempt has resynchronised: its roster shows the root the lineage really
      has, its recorded roots agree, and it does not run the actor. */
  lemma LoserResynced(s: State, h: HostId, id: Id)
    requires Inv(s) && Enabled(s, SettleAdoption(h, id)) && s.hosts[h].pending[id].phase.Lost?
    requires id in s.hosts[h].actors && s.hosts[h].pending[id].detached.None?
    requires id in s.written && s.home[id] != s.hosts[h].root
    ensures var host := Apply(s, SettleAdoption(h, id)).hosts[h];
            && id in host.actors && host.actors[id].root == s.home[id]
            && id in host.persisted && host.persisted[id] == s.home[id]
            && !Owns(host, id) && id !in host.pending
            && (s.written[id].actor.adoptedAt.Some? ==> host.actors[id].adoptedAt == s.written[id].actor.adoptedAt)
  {
    FindIsLookup(s.registry, id);
  }

  // ----- what each step is for -----

  /** An adoption goes through exactly when the file still records the lineage as the attempt expects it, the
      directory has no opinion on the actor and does not show the root, and no adoption is too recent. */
  lemma AdoptsExactly(s: State, h: HostId, opinion: Option<bool>, rootSeen: bool, id: Id)
    requires Inv(s) && Enabled(s, CommitAdoption(h, opinion, rootSeen))
    ensures var host, recorded := s.hosts[h], Find(s.registry, id);
            Adopts(s, CommitAdoption(h, opinion, rootSeen), id) <==>
              && host.section.op == AdoptOp(id) && id in host.pending && opinion.None? && !rootSeen
              && recorded.Some? && recorded.value.actor.root == host.pending[id].expected
              && (recorded.value.actor.adoptedAt.Some? ==> s.now >= recorded.value.actor.adoptedAt.value + 30000)
  {
    assert InStep(s.hosts[h], h, s.lock, s.registry);
  }

  /** Whoever has read the file for a refresh or a save knows the root of every recorded lineage, and forgets
      those it removed. */
  lemma RootsAreNoted(s: State, e: Event, id: Id)
    requires Inv(s) && Enabled(s, e) && (e.Sync? || e.Reload? || e.CommitSave?)
    ensures var host, recorded := Apply(s, e).hosts[e.h], Find(Apply(s, e).registry, id);
            && (recorded.Some? ==> id in host.persisted && host.persisted[id] == recorded.value.actor.root)
            && (recorded.None? && e.CommitSave? && id in s.hosts[e.h].section.op.removed ==> id !in host.persisted)
  {
    hide Without; hide Manages; hide Detach; hide Serialized; hide SerializedById;
    FindIsLookup(Apply(s, e).registry, id);
    if e.CommitSave? { CommitSaveKeepsInv(s, e.h, e.order); }
  }

  /** Whoever settles an attempt knows the root of its lineage: its own if it won, else the recorded one, if
      there is one. */
  lemma SettlementIsNoted(s: State, h: HostId, id: Id)
    requires Inv(s) && Enabled(s, SettleAdoption(h, id)) && Captured(s.hosts[h], id).Some?
    ensures var won, recorded, host := s.hosts[h].pending[id].phase.Won?, Find(s.registry, id), Apply(s, SettleAdoption(h, id)).hosts[h];
            && id !in host.pending
            && (won ==> id in host.persisted && host.persisted[id] == host.root)
            && (!won && recorded.None? ==> id !in host.persisted)
            && (!won && recorded.Some? && recorded.value.actor.root != host.root ==>
                  id in host.persisted && host.persisted[id] == recorded.value.actor.root)
  {
  }

  /** What a host creates, and what it reclaims under its own root, it owns from then on. */
  lemma TakesUp(s: State, e: Event)
    requires Inv(s) && Enabled(s, e) && (e.Create? || e.Reclaim?)
    ensures Owns(Apply(s, e).hosts[e.h], e.id) <==>
              e.id !in Apply(s, e).hosts[e.h].ceded && (e.Reclaim? ==> s.hosts[e.h].actors[e.id].root == s.hosts[e.h].root)
    ensures e.Reclaim? ==> e.id !in Apply(s, e).hosts[e.h].ceded
  {
  }

  /** A refresh leaves the host with what it owned, and gives it what the file records as its own. */
  lemma RefreshOwns(s: State, e: Event, id: Id)
    requires Inv(s) && Enabled(s, e) && (e.Sync? || e.Reload?)
    ensures var before, host, recorded := s.hosts[e.h], Apply(s, e).hosts[e.h], Find(s.registry, id);
            var stays := e.Sync? && Owns(before, id);
            && (stays ==> id in host.actors && host.actors[id] == before.actors[id])
            && (!stays ==> (id in host.actors <==> recorded.Some?) && (recorded.Some? ==> host.actors[id] == recorded.value.actor))
            && (Owns(host, id) <==>
                  stays || (recorded.Some? && id !in before.ceded && recorded.value.actor.root == before.root
                            && (before.claim == Some(recorded.value.actor.residency)
                                || (e.Sync? && OwnedIds(before) != {} && id in before.created && id !in before.actors))))
  {
    hide Detach; hide Roots;
    FindIsLookup(s.registry, id);
  }

  /** A removal that is saved takes the actor out of the roster and its record out of the file. */
  lemma RemovalIsSaved(s: State, h: HostId, id: Id, order: seq<Id>)
    requires Inv(s) && Enabled(s, Remove(h, id)) && s.lock.None? && Lists(order, OwnedIds(Apply(s, Remove(h, id)).hosts[h]))
    ensures var es := [Remove(h, id)] + ([LockForSave(h, {id})] + ([Read(h)] + ([CommitSave(h, order)] + [])));
            && Runs(s, es)
            && Find(Final(s, es).registry, id) == None && h < |Final(s, es).hosts|
            && id !in Final(s, es).hosts[h].actors && id !in Final(s, es).hosts[h].removing
  {
    hide Find; hide Inv; hide AfterSave; hide Manages; hide Detach; hide Lists;
    var t := Apply(s, Remove(h, id));
    StepKeepsInv(s, Remove(h, id));
    var u := Apply(t, LockForSave(h, {id}));
    StepKeepsInv(t, LockForSave(h, {id}));
    var v := Apply(u, Read(h));
    StepKeepsInv(u, Read(h));
    assert v.hosts[h] == t.hosts[h].(section := HasRead(SaveOp({id}), s.registry));
    SameRoster(v.hosts[h], t.hosts[h]);
    SavesRemoval(v, h, id, order);
    Prepend(v, CommitSave(h, order), []);
    Prepend(u, Read(h), [CommitSave(h, order)] + []);
    Prepend(t, LockForSave(h, {id}), [Read(h)] + ([CommitSave(h, order)] + []));
    Prepend(s, Remove(h, id), [LockForSave(h, {id})] + ([Read(h)] + ([CommitSave(h, order)] + [])));
  }

  lemma SavesRemoval(s: State, h: HostId, id: Id, order: seq<Id>)
    requires Inv(s) && Enabled(s, CommitSave(h, order)) && id in s.hosts[h].section.op.removed && id !in s.hosts[h].actors
    ensures var t := AfterSave(s, h, order);
            Find(t.registry, id) == None && h < |t.hosts| && id !in t.hosts[h].actors && id !in t.hosts[h].removing
  {
    hide Find; hide Inv; hide Merged; hide Serialized; hide Lists;
    SaveLosesNothing(s, h, order, id);
  }

  lemma SameRoster(a: Host, b: Host)
    requires a == b.(section := a.section)
    ensures OwnedIds(a) == OwnedIds(b)
  {
  }

  predicate Eligible(host: Host, id: Id) {
    id in host.actors && id !in host.ceded && host.claim == Some(host.actors[id].residency)
  }

  /** A successful attempt makes the winner own the actor exactly when no reload replaced the object
      the attempt had captured; otherwise the registry names a host that does not run the actor. */
  lemma WinnerOwns(s: State, h: HostId, id: Id, opinion: Option<bool>, rootSeen: bool)
    requires var e := CommitAdoption(h, opinion, rootSeen);
             Inv(s) && Enabled(s, e) && Informed(s, e) && Adopts(s, e, id) && Eligible(s.hosts[h], id)
    ensures var t := AfterAdoption(s, h, opinion, rootSeen);
            && t.home[id] == t.hosts[h].root && Find(t.registry, id).Some? && Find(t.registry, id).value.actor.root == t.hosts[h].root
            && (Owns(t.hosts[h], id) <==> s.hosts[h].pending[id].detached.None?)
  {
    var t := AfterAdoption(s, h, opinion, rootSeen);
    var host := s.hosts[h];
    AdoptionTakesDeadLineage(s, h, opinion, rootSeen);
    StepKeepsInv(s, CommitAdoption(h, opinion, rootSeen));
    FindIsLookup(t.registry, id);
    assert HoldsItsOwn(host, s.home) && LiveRoot(s, host.root);
    assert host.actors[id].root != host.root;
  }

  /** After an adoption its host is an owner; it is the only one if and only if no other host was one
      before, whatever the directory showed. */
  lemma AdoptionSplitsExactly(s: State, g: HostId, id: Id, opinion: Option<bool>, rootSeen: bool)
    requires var e := CommitAdoption(g, opinion, rootSeen);
             Inv(s) && Enabled(s, e) && Adopts(s, e, id) && Eligible(s.hosts[g], id) && s.hosts[g].pending[id].detached.None?
    ensures var t := AfterAdoption(s, g, opinion, rootSeen);
            && |t.hosts| == |s.hosts| && Owns(t.hosts[g], id)
            && ((forall h :: 0 <= h < |t.hosts| && Owns(t.hosts[h], id) ==> h == g)
                <==> forall h :: 0 <= h < |s.hosts| && h != g ==> !Owns(s.hosts[h], id))
  {
    var t := AfterAdoption(s, g, opinion, rootSeen);
    hide Inv; hide MayAdopt; hide Owns;
    assert Owns(t.hosts[g], id) by { AdopterOwns(s, g, id, opinion, rootSeen); }
    forall h | 0 <= h < |s.hosts| && h != g
      ensures Owns(t.hosts[h], id) == Owns(s.hosts[h], id)
    {
      assert t.hosts[h] == s.hosts[h];
    }
  }

  lemma AdopterOwns(s: State, g: HostId, id: Id, opinion: Option<bool>, rootSeen: bool)
    requires var e := CommitAdoption(g, opinion, rootSeen);
             Inv(s) && Enabled(s, e) && Adopts(s, e, id) && Eligible(s.hosts[g], id) && s.hosts[g].pending[id].detached.None?
    ensures Owns(AfterAdoption(s, g, opinion, rootSeen).hosts[g], id)
  {
  }

  /** What `Informed` rules out: when the directory does not show the live owner of a lineage that is
      not fenced, the adoption goes through and two hosts run the same actor. */
  lemma BlindAdoptionSplits(s: State, g: HostId, h: HostId, id: Id)
    requires Inv(s) && Enabled(s, CommitAdoption(g, None, false)) && Adopts(s, CommitAdoption(g, None, false), id)
    requires Eligible(s.hosts[g], id) && s.hosts[g].pending[id].detached.None?
    requires h < |s.hosts| && h != g && Owns(s.hosts[h], id)
    ensures !Informed(s, CommitAdoption(g, None, false))
    ensures var t := AfterAdoption(s, g, None, false); Owns(t.hosts[g], id) && Owns(t.hosts[h], id)
  {
    AdopterOwns(s, g, id, None, false);
    assert HoldsItsOwn(s.hosts[h], s.home);
    assert LiveRoot(s, s.hosts[h].root);
    JudgedIsWritten(s, CommitAdoption(g, None, false));
  }

  /** The write of #confirmAdoption fails: the captured actor already carries the new root, the file
      does not. The lock is released and the attempt is dropped. */
  function AfterFailedWrite(s: State, h: HostId): State
    requires Enabled(s, CommitAdoption(h, None, false)) && Adopts(s, CommitAdoption(h, None, false), s.hosts[h].section.op.id)
  {
    var host := s.hosts[h];
    var id := host.section.op.id;
    var actor := Captured(host, id).value.(root := host.root, adoptedAt := Some(s.now));
    WithHost(s, h, WithCaptured(host, id, actor).(persisted := host.persisted + Roots(host.section.snapshot),
                                                  pending := WithCaptured(host, id, actor).pending - {id}, section := Idle))
      .(lock := None)
  }

  /** A failed write is harmless exactly when a reload had already replaced the captured object. */
  lemma FailedWriteHarmless(s: State, h: HostId)
    requires var e := CommitAdoption(h, None, false);
             Inv(s) && Enabled(s, e) && Informed(s, e) && Adopts(s, e, s.hosts[h].section.op.id)
    ensures Inv(AfterFailedWrite(s, h)) <==> s.hosts[h].pending[s.hosts[h].section.op.id].detached.Some?
  {
    var host, id, t := s.hosts[h], s.hosts[h].section.op.id, AfterFailedWrite(s, h);
    AdoptionTakesDeadLineage(s, h, None, false);
    assert InStep(host, h, s.lock, s.registry) && HoldsItsOwn(host, s.home) && LiveRoot(s, host.root);
    if host.pending[id].detached.Some? {
      HostMoves(s, h, t.hosts[h], None);
    } else {
      assert t.hosts[h].actors[id].root == host.root;
    }
  }

  /** Nobody else holds the lock or the lineage: `g` is about to adopt a dead lineage it still sees as it is. */
  predicate Unopposed(s: State, g: HostId, id: Id) {
    && s.lock.None? && AtRest(s, g) && Eligible(s.hosts[g], id) && id in s.hosts[g].pending
    && Find(s.registry, id).Some?
    && var actor := Find(s.registry, id).value.actor;
       && s.hosts[g].pending[id] == Attempt(Wanting, actor.root, None)
       && !LiveRoot(s, actor.root) && !Recent(actor.adoptedAt, s.now)
  }

  function AdoptionRun(g: HostId, id: Id): seq<Event> {
    [LockForAdoption(g, id)] + ([Read(g)] + ([CommitAdoption(g, None, false)] + []))
  }

  lemma InsideUnopposed(s: State, g: HostId, id: Id)
    requires Unopposed(s, g, id)
    ensures Enabled(s, LockForAdoption(g, id))
    ensures var t := Apply(s, LockForAdoption(g, id));
            && Enabled(t, Read(g))
            && Apply(t, Read(g)) == s.(lock := Some(g), hosts := s.hosts[g := s.hosts[g].(section := HasRead(AdoptOp(id), s.registry))])
  {
    var t := Apply(s, LockForAdoption(g, id));
    var u := Apply(t, Read(g));
    assert u.hosts == s.hosts[g := s.hosts[g].(section := HasRead(AdoptOp(id), s.registry))];
  }

  lemma Prepend(s: State, e: Event, es: seq<Event>)
    requires Enabled(s, e) && Informed(s, e) && Runs(Apply(s, e), es)
    ensures Runs(s, [e] + es) && Final(s, [e] + es) == Final(Apply(s, e), es)
  {
    hide Apply; hide Enabled; hide Informed;
    assert ([e] + es)[1..] == es;
  }

  /** An unopposed attempt on a dead lineage goes through and makes its host an owner; no other host's
      view changes. */
  lemma UnopposedSucceeds(s: State, g: HostId, id: Id)
    requires Unopposed(s, g, id)
    ensures Runs(s, AdoptionRun(g, id))
    ensures var t := Final(s, AdoptionRun(g, id));
            |t.hosts| == |s.hosts| && Owns(t.hosts[g], id) && forall h :: 0 <= h < |s.hosts| && h != g ==> t.hosts[h] == s.hosts[h]
  {
    InsideUnopposed(s, g, id);
    var u := Apply(Apply(s, LockForAdoption(g, id)), Read(g));
    var e := CommitAdoption(g, None, false);
    assert Enabled(u, e) && Adopts(u, e, id);
    assert LiveRoot(u, Find(s.registry, id).value.actor.root) ==> LiveRoot(s, Find(s.registry, id).value.actor.root);
    Prepend(u, e, []);
    Prepend(Apply(s, LockForAdoption(g, id)), Read(g), [e] + []);
    Prepend(s, LockForAdoption(g, id), [Read(g)] + ([e] + []));
  }

  /** After a harmful failed write the next host to adopt the lineage becomes its second owner. */
  lemma FailedWriteSplits(s: State, h: HostId, g: HostId, id: Id)
    requires Enabled(s, CommitAdoption(h, None, false)) && Adopts(s, CommitAdoption(h, None, false), id)
    requires Eligible(s.hosts[h], id) && s.hosts[h].pending[id].detached.None?
    requires g != h && Unopposed(AfterFailedWrite(s, h), g, id)
    ensures var t := AfterFailedWrite(s, h);
            && Runs(t, AdoptionRun(g, id))
            && var u := Final(t, AdoptionRun(g, id));
               |u.hosts| == |s.hosts| && Owns(u.hosts[g], id) && Owns(u.hosts[h], id)
  {
    UnopposedSucceeds(AfterFailedWrite(s, h), g, id);
  }
}
