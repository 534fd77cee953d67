/** The agent semaphore: a counter of permits and a queue of waiters, with direct hand-off on release. */
module Semaphore {
  import opened Common

  type Id = nat

  /** `active` and `waiters` are the semaphore's own state. The rest is history: calls of acquire are
      numbered in order, `granted` lists the grants as they were made, `held` those not yet released, and
      `refused` the calls rejected because their signal was aborted. */
  datatype Permits = Permits(
    limit: nat, active: int, waiters: seq<Id>, next: Id, granted: seq<Id>, held: set<Id>, released: set<Id>, refused: set<Id>)

  datatype Event = Acquire(aborted: bool) | Release(id: Id) | Abort(id: Id)

  predicate Enabled(s: Permits, e: Event) {
    match e
    case Acquire(_) => true
    // A release function exists once its call was granted.
    case Release(id) => id in s.held || id in s.released
    case Abort(id) => id < s.next
  }

  function Grant(s: Permits, id: Id): Permits { s.(granted := s.granted + [id], held := s.held + {id}) }

  function Position(waiters: seq<Id>, id: Id): (i: Option<nat>)
    ensures i.Some? ==> i.value < |waiters| && waiters[i.value] == id
    ensures i.None? ==> id !in waiters
  {
    if waiters == [] then None
    else if waiters[0] == id then Some(0)
    else match Position(waiters[1..], id) case None => None case Some(i) => Some(i + 1)
  }

  function Apply(s: Permits, e: Event): Permits {
    match e
    case Acquire(aborted) =>
      var called := s.(next := s.next + 1);
      if aborted then called.(refused := s.refused + {s.next})
      else if s.active < s.limit then Grant(called.(active := s.active + 1), s.next)
      else called.(waiters := s.waiters + [s.next])
    case Release(id) =>
      if id in s.released then s
      else
        var freed := s.(held := s.held - {id}, released := s.released + {id});
        if s.waiters != [] then Grant(freed.(waiters := s.waiters[1..]), s.waiters[0])
        else freed.(active := s.active - 1)
    case Abort(id) =>
      match Position(s.waiters, id)
      case None => s
      case Some(i) => s.(waiters := s.waiters[..i] + s.waiters[i + 1..], refused := s.refused + {id})
  }

  function Fresh(limit: nat): Permits { Permits(limit, 0, [], 0, [], {}, {}, {}) }

  // ----- what every run keeps -----

  predicate Increasing(ids: seq<Id>) { forall i, j :: 0 <= i < j < |ids| ==> ids[i] < ids[j] }

  /** Grants are made in the order of the calls, and every waiter called after every grant: nobody barges. */
  predicate Fair(s: Permits) { Increasing(s.granted + s.waiters) }

  predicate Counted(s: Permits) {
    && s.active == |s.held| && s.active <= s.limit && (s.waiters != [] ==> s.active == s.limit)
  }

  /** Every call so far is waiting, held, released or refused, and only one of these. */
  ghost predicate Partitioned(s: Permits) {
    && (forall id: Id :: id in s.granted <==> id in s.held || id in s.released)
    && (forall id: Id :: id < s.next <==> id in s.granted || id in s.waiters || id in s.refused)
    && s.held !! s.released
    && (forall id :: id in s.refused ==> id !in s.granted && id !in s.waiters)
    && (forall id :: id in s.waiters ==> id !in s.granted)
  }

  ghost predicate Inv(s: Permits) { Fair(s) && Counted(s) && Partitioned(s) }

  lemma FairAfterGrant(s: Permits)
    requires Fair(s) && s.waiters != []
    ensures Increasing((s.granted + [s.waiters[0]]) + s.waiters[1..])
  {
    assert (s.granted + [s.waiters[0]]) + s.waiters[1..] == s.granted + s.waiters;
  }

  lemma FairAfterCall(s: Permits)
    requires Fair(s) && Partitioned(s)
    ensures Increasing((s.granted + s.waiters) + [s.next])
  {
    var line := s.granted + s.waiters;
    forall i | 0 <= i < |line|
      ensures line[i] < s.next
    {
      assert line[i] in s.granted || line[i] in s.waiters;
    }
  }

  lemma FairAfterAbort(s: Permits, i: nat)
    requires Fair(s) && i < |s.waiters|
    ensures Increasing(s.granted + (s.waiters[..i] + s.waiters[i + 1..]))
  {
    var line, rest := s.granted + s.waiters, s.granted + (s.waiters[..i] + s.waiters[i + 1..]);
    assert forall k :: 0 <= k < |rest| ==> rest[k] == line[if k < |s.granted| + i then k else k + 1];
  }

  lemma AcquireKeepsInv(s: Permits, aborted: bool)
    requires Inv(s)
    ensures Inv(Apply(s, Acquire(aborted)))
  {
    hide Increasing;
    FairAfterCall(s);
    assert (s.granted + s.waiters) + [s.next] == s.granted + (s.waiters + [s.next]);
    if s.waiters == [] { assert (s.granted + s.waiters) + [s.next] == (s.granted + [s.next]) + []; }
    assert s.next !in s.granted && s.next !in s.waiters && s.next !in s.refused;
  }

  lemma ReleaseKeepsInv(s: Permits, id: Id)
    requires Inv(s) && Enabled(s, Release(id))
    ensures Inv(Apply(s, Release(id)))
  {
    hide Increasing;
    if id in s.held && s.waiters != [] {
      FairAfterGrant(s);
      var first := s.waiters[0];
      assert first in s.waiters && s.waiters == [first] + s.waiters[1..];
      assert first !in s.waiters[1..] by { OnlyOnce(s); }
    }
  }

  lemma OnlyOnce(s: Permits)
    requires Fair(s) && s.waiters != []
    ensures s.waiters[0] !in s.waiters[1..]
  {
    var line := s.granted + s.waiters;
    assert forall k :: 0 <= k < |s.waiters| ==> line[|s.granted| + k] == s.waiters[k];
  }

  lemma WaitersDistinct(s: Permits, i: nat)
    requires Fair(s) && i < |s.waiters|
    ensures s.waiters[i] !in s.waiters[..i] + s.waiters[i + 1..]
    ensures forall id: Id :: id in s.waiters <==> id == s.waiters[i] || id in s.waiters[..i] + s.waiters[i + 1..]
  {
    var line := s.granted + s.waiters;
    assert forall k :: 0 <= k < |s.waiters| ==> line[|s.granted| + k] == s.waiters[k];
    assert s.waiters == s.waiters[..i] + [s.waiters[i]] + s.waiters[i + 1..];
  }

  lemma AbortKeepsInv(s: Permits, id: Id)
    requires Inv(s)
    ensures Inv(Apply(s, Abort(id)))
  {
    hide Increasing;
    match Position(s.waiters, id)
    case None =>
    case Some(i) =>
      FairAfterAbort(s, i);
      WaitersDistinct(s, i);
      AbortKeepsPartition(s, i);
  }

  lemma AbortKeepsPartition(s: Permits, i: nat)
    requires Partitioned(s) && Fair(s) && i < |s.waiters|
    ensures Partitioned(s.(waiters := s.waiters[..i] + s.waiters[i + 1..], refused := s.refused + {s.waiters[i]}))
  {
    hide Increasing;
    WaitersDistinct(s, i);
    var gone, rest := s.waiters[i], s.waiters[..i] + s.waiters[i + 1..];
    assert gone in s.waiters && gone !in s.granted && gone !in rest;
    assert forall id: Id :: id in s.waiters <==> id == gone || id in rest;
  }

  /** Every call of acquire, every release, repeated or not, and every abort keeps the invariant. */
  lemma StepKeepsInv(s: Permits, e: Event)
    requires Inv(s) && Enabled(s, e)
    ensures Inv(Apply(s, e))
  {
    match e
    case Acquire(aborted) => AcquireKeepsInv(s, aborted);
    case Release(id) => ReleaseKeepsInv(s, id);
    case Abort(id) => AbortKeepsInv(s, id);
  }

  predicate Runs(s: Permits, es: seq<Event>)
    decreases es
  {
    es == [] || (Enabled(s, es[0]) && Runs(Apply(s, es[0]), es[1..]))
  }

  function Final(s: Permits, es: seq<Event>): Permits
    requires Runs(s, es)
    decreases es
  {
    if es == [] then s else Final(Apply(s, es[0]), es[1..])
  }

  lemma {:induction false} RunKeepsInv(s: Permits, es: seq<Event>)
    requires Inv(s) && Runs(s, es)
    ensures Inv(Final(s, es)) && Final(s, es).limit == s.limit
    decreases es
  {
    if es != [] {
      StepKeepsInv(s, es[0]);
      RunKeepsInv(Apply(s, es[0]), es[1..]);
    }
  }

  /** At all times the permits out are exactly the unreleased grants and within the limit, a caller waits
      only while all permits are out, and grants follow the order of the calls. */
  lemma PermitsAccounted(limit: nat, es: seq<Event>)
    requires Runs(Fresh(limit), es)
    ensures var s := Final(Fresh(limit), es);
            && s.active == |s.held| <= limit
            && (s.waiters != [] ==> s.active == limit)
            && Increasing(s.granted + s.waiters)
            && s.held !! s.released
  {
    hide Increasing;
    assert Inv(Fresh(limit)) by { FreshInv(limit); }
    RunKeepsInv(Fresh(limit), es);
  }

  lemma FreshInv(limit: nat)
    ensures Inv(Fresh(limit))
  {
    var s := Fresh(limit);
    assert s.granted + s.waiters == [];
  }

  /** A second release changes nothing at all; an abort changes nothing for anybody else, and nothing at
      all for a call that no longer waits. */
  lemma RepeatsChangeNothing(s: Permits, id: Id)
    requires Inv(s)
    ensures id in s.released ==> Apply(s, Release(id)) == s
    ensures id !in s.waiters ==> Apply(s, Abort(id)) == s
    ensures var t := Apply(s, Abort(id));
            && t.active == s.active && t.held == s.held && t.granted == s.granted
            && (forall other :: other != id ==> (other in t.waiters <==> other in s.waiters))
  {
    hide Increasing;
    if id in s.waiters { WaitersDistinct(s, Position(s.waiters, id).value); }
  }

  /** A release hands its permit to the longest waiting caller, or gives it back when nobody waits. */
  lemma ReleaseHandsOff(s: Permits, id: Id)
    requires Inv(s) && id in s.held
    ensures var t := Apply(s, Release(id));
            && id !in t.held
            && (s.waiters == [] ==> t.active == s.active - 1 && t.granted == s.granted)
            && (s.waiters != [] ==> t.active == s.active && t.granted == s.granted + [s.waiters[0]] && s.waiters[0] in t.held
                                    && forall w :: w in s.waiters ==> s.waiters[0] <= w)
  {
    var line := s.granted + s.waiters;
    assert forall k :: 0 <= k < |s.waiters| ==> line[|s.granted| + k] == s.waiters[k];
    forall w | w in s.waiters
      ensures s.waiters[0] <= w
    {
      var k :| 0 <= k < |s.waiters| && s.waiters[k] == w;
      assert line[|s.granted|] == s.waiters[0] && line[|s.granted| + k] == w;
    }
    if s.waiters != [] { assert s.waiters[0] in s.waiters && s.waiters[0] !in s.granted; }
  }

  // ----- the semaphore object -----

  class AgentSemaphore {
    const limit: nat
    var active: int
    var waiters: seq<Id>
    var next: Id
    var granted: seq<Id>
    var held: set<Id>
    var released: set<Id>
    var refused: set<Id>

    function Abs(): Permits
      reads this
    {
      Permits(limit, active, waiters, next, granted, held, released, refused)
    }

    constructor (limit: nat)
      ensures Abs() == Fresh(limit)
    {
      this.limit := limit;
      active, waiters, next := 0, [], 0;
      granted, held, released, refused := [], {}, {}, {};
    }

    method OnAcquire(aborted: bool) returns (id: Id)
      modifies this
      ensures id == old(next) && Abs() == Apply(old(Abs()), Acquire(aborted))
    {
      id := next;
      next := next + 1;
      if aborted {
        refused := refused + {id};
      } else if active < limit {
        active := active + 1;
        granted, held := granted + [id], held + {id};
      } else {
        waiters := waiters + [id];
      }
    }

    method OnRelease(id: Id)
      requires Enabled(Abs(), Release(id))
      modifies this
      ensures Abs() == Apply(old(Abs()), Release(id))
    {
      if id in released { return; }
      held, released := held - {id}, released + {id};
      if waiters != [] {
        var waiter := waiters[0];
        waiters := waiters[1..];
        granted, held := granted + [waiter], held + {waiter};
      } else {
        active := active - 1;
      }
    }

    method OnAbort(id: Id)
      modifies this
      ensures Abs() == Apply(old(Abs()), Abort(id))
    {
      var position := Position(waiters, id);
      if position.Some? {
        waiters := waiters[..position.value] + waiters[position.value + 1..];
        refused := refused + {id};
      }
    }
  }

  /** Only a positive limit makes a semaphore. */
  method Create(limit: int) returns (s: AgentSemaphore?)
    ensures s == null <==> limit < 1
    ensures s != null ==> fresh(s) && s.Abs() == Fresh(limit)
  {
    if limit < 1 { return null; }
    s := new AgentSemaphore(limit);
  }
}
