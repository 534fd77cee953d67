/** Short runs of three hosts that have just started, up to the states in which an adoption goes wrong. */
module RegistryRuns {
  import opened Common
  import opened Registry

  const ORPHAN: Id := 0
  const ACTOR: Actor := Actor(0, None, Durable, 0)
  const RECORD: Record := Record(ORPHAN, ACTOR)

  function Newcomer(root: Root): Host {
    Host(root, Some(Durable), true, true, map[], {}, {}, map[], {}, map[], Idle)
  }

  function Opening(): State { State([], None, 0, [Newcomer(0), Newcomer(1), Newcomer(2)], map[], map[]) }

  lemma OpeningStarts()
    ensures Start(Opening()) && Inv(Opening())
  {
  }

  // ----- putting runs together -----

  predicate Leads(s: State, e: Event, t: State) { Enabled(s, e) && Informed(s, e) && Apply(s, e) == t }

  predicate Reaches(s: State, es: seq<Event>, t: State) { Runs(s, es) && Final(s, es) == t }

  lemma Stay(s: State)
    ensures Reaches(s, [], s)
  {
  }

  lemma {:induction false} Extend(s: State, es: seq<Event>, t: State, e: Event, u: State)
    requires Reaches(s, es, t) && Leads(t, e, u)
    ensures Reaches(s, es + [e], u)
    decreases es
  {
    hide Enabled; hide Informed; hide Apply;
    if es == [] {
      Prepend(t, e, []);
      assert [e] + [] == es + [e];
    } else {
      Extend(Apply(s, es[0]), es[1..], t, e, u);
      assert (es + [e])[0] == es[0] && (es + [e])[1..] == es[1..] + [e];
    }
  }

  // ----- the prelude: host 0 creates and records an actor, the other hosts load it -----

  function Creator(section: Section): Host {
    Newcomer(0).(actors := map[ORPHAN := ACTOR], created := {ORPHAN}, section := section)
  }

  function Saving(section: Section, lock: Option<HostId>): State {
    State([], lock, 0, [Creator(section), Newcomer(1), Newcomer(2)], map[ORPHAN := 0], map[])
  }

  function Owner(section: Section): Host { Creator(section).(persisted := map[ORPHAN := 0]) }

  function Witness(root: Root): Host { Newcomer(root).(actors := map[ORPHAN := ACTOR], persisted := map[ORPHAN := 0]) }

  function Recorded(owner: Host, second: Host, third: Host, lock: Option<HostId>): State {
    State([RECORD], lock, 0, [owner, second, third], map[ORPHAN := 0], map[ORPHAN := RECORD])
  }

  function CreateAndLock(): seq<Event> { [] + [Create(0, ORPHAN, Durable, 0)] + [LockForSave(0, {})] + [Read(0)] }

  function Prelude(): seq<Event> { CreateAndLock() + [CommitSave(0, [ORPHAN])] + [Unlock(0)] + [Sync(1)] + [Sync(2)] }

  lemma Creates()
    ensures Leads(Opening(), Create(0, ORPHAN, Durable, 0), Saving(Idle, None))
  {
    var t := Apply(Opening(), Create(0, ORPHAN, Durable, 0));
    assert t.hosts[0].created == {ORPHAN} && t.hosts[0] == Creator(Idle);
    assert t.hosts == Saving(Idle, None).hosts;
  }

  lemma LocksToSave()
    ensures Leads(Saving(Idle, None), LockForSave(0, {}), Saving(Locked(SaveOp({})), Some(0)))
    ensures Leads(Saving(Locked(SaveOp({})), Some(0)), Read(0), Saving(HasRead(SaveOp({}), []), Some(0)))
  {
    assert Apply(Saving(Idle, None), LockForSave(0, {})).hosts == Saving(Locked(SaveOp({})), Some(0)).hosts;
    assert Apply(Saving(Locked(SaveOp({})), Some(0)), Read(0)).hosts == Saving(HasRead(SaveOp({}), []), Some(0)).hosts;
  }

  /** What host 0 saves is its actor. */
  lemma Saves()
    ensures Leads(Saving(HasRead(SaveOp({}), []), Some(0)), CommitSave(0, [ORPHAN]),
                  Recorded(Owner(Committed), Newcomer(1), Newcomer(2), Some(0)))
  {
    var s := Saving(HasRead(SaveOp({}), []), Some(0));
    var t := Recorded(Owner(Committed), Newcomer(1), Newcomer(2), Some(0));
    var host := s.hosts[0];
    assert OwnedIds(host) == {ORPHAN};
    assert Serialized(host, [ORPHAN]) == [RECORD];
    assert Merged(host, [], {}, [ORPHAN]) == [RECORD];
    OneRecord();
    assert SavedHost(host, [RECORD], {}) == Owner(Committed);
    assert AfterSave(s, 0, [ORPHAN]).hosts == t.hosts;
    assert AfterSave(s, 0, [ORPHAN]).written == t.written;
  }

  lemma Unlocks()
    ensures Leads(Recorded(Owner(Committed), Newcomer(1), Newcomer(2), Some(0)), Unlock(0),
                  Recorded(Owner(Idle), Newcomer(1), Newcomer(2), None))
  {
    assert Apply(Recorded(Owner(Committed), Newcomer(1), Newcomer(2), Some(0)), Unlock(0)).hosts
        == Recorded(Owner(Idle), Newcomer(1), Newcomer(2), None).hosts;
  }

  lemma OneRecord()
    ensures ById([RECORD]) == map[ORPHAN := RECORD] && Roots([RECORD]) == map[ORPHAN := 0]
    ensures Find([RECORD], ORPHAN) == Some(RECORD)
  {
    assert [RECORD][1..] == [];
    assert ById([RECORD]) == map[ORPHAN := RECORD];
  }

  lemma SyncLoads(root: Root)
    requires root != 0
    ensures OwnedIds(Newcomer(root)) == {} && Loaded(Newcomer(root), [RECORD], {}) == Witness(root)
  {
    OneRecord();
    assert OwnedIds(Newcomer(root)) == {};
    assert Loaded(Newcomer(root), [RECORD], {}).actors == map[ORPHAN := ACTOR];
  }

  lemma Syncs()
    ensures Leads(Recorded(Owner(Idle), Newcomer(1), Newcomer(2), None), Sync(1), Recorded(Owner(Idle), Witness(1), Newcomer(2), None))
    ensures Leads(Recorded(Owner(Idle), Witness(1), Newcomer(2), None), Sync(2), Known())
  {
    hide Loaded; hide OwnedIds;
    SyncLoads(1);
    SyncLoads(2);
    assert Apply(Recorded(Owner(Idle), Newcomer(1), Newcomer(2), None), Sync(1)).hosts
        == Recorded(Owner(Idle), Witness(1), Newcomer(2), None).hosts;
    assert Apply(Recorded(Owner(Idle), Witness(1), Newcomer(2), None), Sync(2)).hosts == Known().hosts;
  }

  function Known(): State { Recorded(Owner(Idle), Witness(1), Witness(2), None) }

  lemma PreludeRuns()
    ensures Reaches(Opening(), Prelude(), Known())
  {
    hide Reaches; hide Leads; hide Opening; hide Saving; hide Recorded; hide Known;
    var s, es := Opening(), CreateAndLock();
    Stay(s);
    Creates();
    Extend(s, [], s, Create(0, ORPHAN, Durable, 0), Saving(Idle, None));
    LocksToSave();
    Extend(s, [] + [Create(0, ORPHAN, Durable, 0)], Saving(Idle, None), LockForSave(0, {}), Saving(Locked(SaveOp({})), Some(0)));
    Extend(s, [] + [Create(0, ORPHAN, Durable, 0)] + [LockForSave(0, {})], Saving(Locked(SaveOp({})), Some(0)), Read(0),
           Saving(HasRead(SaveOp({}), []), Some(0)));
    Saves();
    var saved, unlocked := Recorded(Owner(Committed), Newcomer(1), Newcomer(2), Some(0)), Recorded(Owner(Idle), Newcomer(1), Newcomer(2), None);
    Extend(s, es, Saving(HasRead(SaveOp({}), []), Some(0)), CommitSave(0, [ORPHAN]), saved);
    Unlocks();
    Extend(s, es + [CommitSave(0, [ORPHAN])], saved, Unlock(0), unlocked);
    Syncs();
    var synced := Recorded(Owner(Idle), Witness(1), Newcomer(2), None);
    Extend(s, es + [CommitSave(0, [ORPHAN])] + [Unlock(0)], unlocked, Sync(1), synced);
    Extend(s, es + [CommitSave(0, [ORPHAN])] + [Unlock(0)] + [Sync(1)], synced, Sync(2), Known());
  }

  // ----- the race for the actor -----

  function Waiting(root: Root, detached: Option<Actor>, section: Section): Host {
    Witness(root).(pending := map[ORPHAN := Attempt(Wanting, 0, detached)], section := section)
  }

  function Dead(): Host { Owner(Idle).(alive := false) }

  function Judging(owner: Host, detached: Option<Actor>, third: Host): State {
    Recorded(owner, Waiting(1, detached, HasRead(AdoptOp(ORPHAN), [RECORD])), third, Some(1))
  }

  lemma Wants(owner: Host, third: Host)
    ensures Leads(Recorded(owner, Witness(1), third, None), WantAdoption(1, ORPHAN, false),
                  Recorded(owner, Waiting(1, None, Idle), third, None))
  {
    assert Apply(Recorded(owner, Witness(1), third, None), WantAdoption(1, ORPHAN, false)).hosts
        == Recorded(owner, Waiting(1, None, Idle), third, None).hosts;
  }

  function Opened(owner: Host, detached: Option<Actor>, third: Host): State {
    Recorded(owner, Waiting(1, detached, Locked(AdoptOp(ORPHAN))), third, Some(1))
  }

  lemma LocksToAdopt(owner: Host, detached: Option<Actor>, third: Host)
    ensures Leads(Recorded(owner, Waiting(1, detached, Idle), third, None), LockForAdoption(1, ORPHAN), Opened(owner, detached, third))
  {
    assert Apply(Recorded(owner, Waiting(1, detached, Idle), third, None), LockForAdoption(1, ORPHAN)).hosts
        == Opened(owner, detached, third).hosts;
  }

  lemma ReadsToAdopt(owner: Host, detached: Option<Actor>, third: Host)
    ensures Leads(Opened(owner, detached, third), Read(1), Judging(owner, detached, third))
  {
    assert Apply(Opened(owner, detached, third), Read(1)).hosts == Judging(owner, detached, third).hosts;
  }

  /** From wanting the actor to judging its record. */
  lemma ReachJudging(es: seq<Event>, owner: Host, detached: Option<Actor>, third: Host)
    requires Reaches(Opening(), es, Recorded(owner, Waiting(1, detached, Idle), third, None))
    ensures Reaches(Opening(), es + [LockForAdoption(1, ORPHAN)] + [Read(1)], Judging(owner, detached, third))
  {
    hide Reaches; hide Leads; hide Recorded; hide Judging; hide Opening; hide Opened;
    LocksToAdopt(owner, detached, third);
    Extend(Opening(), es, Recorded(owner, Waiting(1, detached, Idle), third, None), LockForAdoption(1, ORPHAN), Opened(owner, detached, third));
    ReadsToAdopt(owner, detached, third);
    Extend(Opening(), es + [LockForAdoption(1, ORPHAN)], Opened(owner, detached, third), Read(1), Judging(owner, detached, third));
  }

  const ADOPTING: Event := CommitAdoption(1, None, false)

  lemma JudgesRecord(owner: Host, detached: Option<Actor>, third: Host)
    ensures var s := Judging(owner, detached, third); Enabled(s, ADOPTING) && Adopts(s, ADOPTING, ORPHAN)
  {
    OneRecord();
  }

  function BlindRun(): seq<Event> { Prelude() + [WantAdoption(1, ORPHAN, false)] + [LockForAdoption(1, ORPHAN)] + [Read(1)] }

  /** A lineage its creator never adopted is not fenced at all: while the creator lives, an adopter whose
      directory does not show it becomes the second owner, without the clock moving. */
  lemma BlindAdoptionHappens()
    ensures Start(Opening()) && Reaches(Opening(), BlindRun(), Judging(Owner(Idle), None, Witness(2)))
    ensures var s := Judging(Owner(Idle), None, Witness(2));
            && Enabled(s, ADOPTING) && Adopts(s, ADOPTING, ORPHAN)
            && var t := Apply(s, ADOPTING); BothOwn(t, 0, 1, ORPHAN)
  {
    hide Reaches; hide Leads;
    var owner, s := Owner(Idle), Judging(Owner(Idle), None, Witness(2));
    OpeningStarts();
    PreludeRuns();
    Wants(owner, Witness(2));
    Extend(Opening(), Prelude(), Known(), WantAdoption(1, ORPHAN, false), Recorded(owner, Waiting(1, None, Idle), Witness(2), None));
    ReachJudging(Prelude() + [WantAdoption(1, ORPHAN, false)], owner, None, Witness(2));
    JudgesRecord(owner, None, Witness(2));
    JudgingInv(BlindRun(), owner, None, Witness(2));
    CreatorOwns();
    BlindAdoptionSplits(s, 1, 0, ORPHAN);
  }

  lemma CreatorOwns()
    ensures Owns(Owner(Idle), ORPHAN)
  {
  }

  lemma JudgingInv(es: seq<Event>, owner: Host, detached: Option<Actor>, third: Host)
    requires Reaches(Opening(), es, Judging(owner, detached, third))
    ensures Inv(Judging(owner, detached, third))
  {
    hide Inv; hide Start; hide Judging;
    OpeningStarts();
    RunKeepsInv(Opening(), es);
  }

  // ----- the creator dies -----

  function DeathRun(): seq<Event> { Prelude() + [Crash(0)] + [WantAdoption(1, ORPHAN, false)] }

  lemma DeathRuns()
    ensures Reaches(Opening(), DeathRun(), Recorded(Dead(), Waiting(1, None, Idle), Witness(2), None))
  {
    hide Reaches; hide Leads;
    var orphaned := Recorded(Dead(), Witness(1), Witness(2), None);
    PreludeRuns();
    Dies();
    Extend(Opening(), Prelude(), Known(), Crash(0), orphaned);
    Wants(Dead(), Witness(2));
    Extend(Opening(), Prelude() + [Crash(0)], orphaned, WantAdoption(1, ORPHAN, false), Recorded(Dead(), Waiting(1, None, Idle), Witness(2), None));
  }

  lemma Dies()
    ensures Leads(Known(), Crash(0), Recorded(Dead(), Witness(1), Witness(2), None))
  {
    assert Apply(Known(), Crash(0)).hosts == Recorded(Dead(), Witness(1), Witness(2), None).hosts;
  }

  function ReloadRun(): seq<Event> { DeathRun() + [Reload(1)] + [LockForAdoption(1, ORPHAN)] + [Read(1)] }

  lemma ReloadDetaches()
    ensures Loaded(Waiting(1, None, Idle), [RECORD], {}) == Waiting(1, Some(ACTOR), Idle)
  {
    OneRecord();
    var loaded := Loaded(Waiting(1, None, Idle), [RECORD], {});
    assert loaded.actors == map[ORPHAN := ACTOR] && loaded.persisted == map[ORPHAN := 0];
    assert loaded.pending == map[ORPHAN := Attempt(Wanting, 0, Some(ACTOR))];
  }

  lemma Reloads()
    ensures Leads(Recorded(Dead(), Waiting(1, None, Idle), Witness(2), None), Reload(1),
                  Recorded(Dead(), Waiting(1, Some(ACTOR), Idle), Witness(2), None))
  {
    hide Loaded; hide Waiting;
    ReloadDetaches();
    WaitingRests(None);
    assert Apply(Recorded(Dead(), Waiting(1, None, Idle), Witness(2), None), Reload(1)).hosts
        == Recorded(Dead(), Waiting(1, Some(ACTOR), Idle), Witness(2), None).hosts;
  }

  lemma WaitingRests(detached: Option<Actor>)
    ensures Waiting(1, detached, Idle).alive && Waiting(1, detached, Idle).section.Idle?
  {
  }

  /** A reload while an adoption is pending: the adoption goes through, the file names the adopter, and
      no host at all runs the actor. */
  lemma OrphanedByReload()
    ensures var s := Judging(Dead(), Some(ACTOR), Witness(2));
            && Reaches(Opening(), ReloadRun(), s) && Enabled(s, ADOPTING) && Adopts(s, ADOPTING, ORPHAN)
            && var t := Apply(s, ADOPTING);
               && Find(t.registry, ORPHAN).Some? && Find(t.registry, ORPHAN).value.actor.root == 1
               && forall h :: 0 <= h < |t.hosts| ==> !Owns(t.hosts[h], ORPHAN)
  {
    hide Reaches; hide Leads;
    DeathRuns();
    Reloads();
    var detached := Recorded(Dead(), Waiting(1, Some(ACTOR), Idle), Witness(2), None);
    Extend(Opening(), DeathRun(), Recorded(Dead(), Waiting(1, None, Idle), Witness(2), None), Reload(1), detached);
    ReachJudging(DeathRun() + [Reload(1)], Dead(), Some(ACTOR), Witness(2));
    JudgesRecord(Dead(), Some(ACTOR), Witness(2));
    JudgingInv(ReloadRun(), Dead(), Some(ACTOR), Witness(2));
    LosesByReload();
  }

  lemma LosesByReload()
    requires Inv(Judging(Dead(), Some(ACTOR), Witness(2)))
    requires Enabled(Judging(Dead(), Some(ACTOR), Witness(2)), ADOPTING) && Adopts(Judging(Dead(), Some(ACTOR), Witness(2)), ADOPTING, ORPHAN)
    ensures var t := Apply(Judging(Dead(), Some(ACTOR), Witness(2)), ADOPTING);
            && Find(t.registry, ORPHAN).Some? && Find(t.registry, ORPHAN).value.actor.root == 1
            && forall h :: 0 <= h < |t.hosts| ==> !Owns(t.hosts[h], ORPHAN)
  {
    hide Inv; hide Adopts; hide Informed; hide Owns; hide Find; hide AfterAdoption; hide Eligible;
    var s := Judging(Dead(), Some(ACTOR), Witness(2));
    RootIsDead(Some(ACTOR), Witness(2));
    WaiterIsEligible();
    WinnerOwns(s, 1, ORPHAN, None, false);
    BystandersOwnNothing();
    OthersStay(s, ADOPTING, 0);
    OthersStay(s, ADOPTING, 2);
    HostCount(s, ADOPTING);
    HostStays(s, ADOPTING, 1);
  }

  lemma WaiterIsEligible()
    ensures Eligible(Waiting(1, Some(ACTOR), HasRead(AdoptOp(ORPHAN), [RECORD])), ORPHAN)
  {
  }

  lemma BystandersOwnNothing()
    ensures !Owns(Dead(), ORPHAN) && !Owns(Witness(2), ORPHAN)
  {
  }

  lemma RootIsDead(detached: Option<Actor>, third: Host)
    requires third.root != 0 && Enabled(Judging(Dead(), detached, third), ADOPTING)
    ensures !LiveRoot(Judging(Dead(), detached, third), 0) && Informed(Judging(Dead(), detached, third), ADOPTING)
  {
    OneRecord();
  }

  // ----- two hosts want the orphan, and the first one cannot write -----

  function Rival(): Host { Waiting(2, None, Idle) }

  function RivalRun(): seq<Event> { DeathRun() + [WantAdoption(2, ORPHAN, false)] + [LockForAdoption(1, ORPHAN)] + [Read(1)] }

  lemma RivalWants()
    ensures Leads(Recorded(Dead(), Waiting(1, None, Idle), Witness(2), None), WantAdoption(2, ORPHAN, false),
                  Recorded(Dead(), Waiting(1, None, Idle), Rival(), None))
  {
    assert Apply(Recorded(Dead(), Waiting(1, None, Idle), Witness(2), None), WantAdoption(2, ORPHAN, false)).hosts
        == Recorded(Dead(), Waiting(1, None, Idle), Rival(), None).hosts;
  }

  /** The failing write happens, and the next adopter becomes a second owner. */
  lemma FailedWriteHappens()
    ensures var s := Judging(Dead(), None, Rival());
            && Reaches(Opening(), RivalRun(), s) && Enabled(s, ADOPTING) && Adopts(s, ADOPTING, ORPHAN)
            && var t := AfterFailedWrite(s, 1);
               Runs(t, AdoptionRun(2, ORPHAN)) && BothOwn(Final(t, AdoptionRun(2, ORPHAN)), 1, 2, ORPHAN)
  {
    hide Reaches; hide Leads;
    DeathRuns();
    RivalWants();
    Extend(Opening(), DeathRun(), Recorded(Dead(), Waiting(1, None, Idle), Witness(2), None), WantAdoption(2, ORPHAN, false),
           Recorded(Dead(), Waiting(1, None, Idle), Rival(), None));
    ReachJudging(DeathRun() + [WantAdoption(2, ORPHAN, false)], Dead(), None, Rival());
    JudgesRecord(Dead(), None, Rival());
    RivalIsUnopposed();
    FailedWriteSplits(Judging(Dead(), None, Rival()), 1, 2, ORPHAN);
  }

  lemma RivalIsUnopposed()
    requires Enabled(Judging(Dead(), None, Rival()), ADOPTING) && Adopts(Judging(Dead(), None, Rival()), ADOPTING, ORPHAN)
    ensures Unopposed(AfterFailedWrite(Judging(Dead(), None, Rival()), 1), 2, ORPHAN)
  {
    OneRecord();
  }
}
