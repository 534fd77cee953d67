/** The activity store: runs, the list of each run's calls, and an index into the very same call objects. */
module Activity {
  import opened Common

  type Id = nat

  const MAX_RUNS := 24
  const MAX_CALLS := 1000

  datatype Status = Running | Completed | Failed | Cancelled

  /** `args` and `detail` stand for the bounded payload of a call and for what is reported while it runs. */
  class Call {
    const id: Id
    var ref: nat
    var args: nat
    var detail: Option<nat>
    var status: Status
    var updatedAt: int

    constructor (id: Id, ref: nat, args: nat, now: int)
      ensures this.id == id && BegunAs(this, ref, args, now)
    {
      this.id, this.ref, this.args, detail, status, updatedAt := id, ref, args, None, Running, now;
    }
  }

  predicate BegunAs(call: Call, ref: nat, args: nat, now: int)
    reads call
  {
    call.status == Running && call.ref == ref && call.args == args && call.detail.None? && call.updatedAt == now
  }

  class Run {
    const id: Id
    var status: Status
    var updatedAt: int
    var calls: seq<Call>

    constructor (id: Id, now: int)
      ensures this.id == id && status == Running && updatedAt == now && calls == []
    {
      this.id, status, updatedAt, calls := id, Running, now, [];
    }
  }

  // ----- which calls a run lists -----

  function Ids(calls: seq<Call>): (ids: seq<Id>)
    ensures |ids| == |calls| && forall i :: 0 <= i < |ids| ==> ids[i] == calls[i].id
  {
    seq(|calls|, i requires 0 <= i < |calls| => calls[i].id)
  }

  predicate Distinct(ids: seq<Id>) { forall i, j :: 0 <= i < j < |ids| ==> ids[i] != ids[j] }

  /** A call that is listed keeps its place; a new one joins at the end, after the oldest made room. */
  function AfterBegin(ids: seq<Id>, id: Id): seq<Id> {
    if id in ids then ids
    else (if |ids| >= MAX_CALLS then ids[|ids| - MAX_CALLS + 1..] else ids) + [id]
  }

  function AfterBegins(ids: seq<Id>, begun: seq<Id>): seq<Id> {
    if begun == [] then ids else AfterBegin(AfterBegins(ids, begun[..|begun| - 1]), begun[|begun| - 1])
  }

  function Latest(ids: seq<Id>): seq<Id> { if |ids| <= MAX_CALLS then ids else ids[|ids| - MAX_CALLS..] }

  lemma LatestOneMore(begun: seq<Id>, id: Id)
    requires id !in begun
    ensures Latest(begun + [id]) == AfterBegin(Latest(begun), id)
  {
    if |begun| >= MAX_CALLS {
      assert begun[|begun| - MAX_CALLS..][1..] == begun[|begun| - MAX_CALLS + 1..];
      assert (begun + [id])[|begun| - MAX_CALLS + 1..] == begun[|begun| - MAX_CALLS + 1..] + [id];
    }
  }

  /** However many different calls a run begins, it lists the latest thousand in the order they began. */
  lemma {:induction false} ListsLatest(begun: seq<Id>)
    requires Distinct(begun)
    ensures AfterBegins([], begun) == Latest(begun)
  {
    hide AfterBegin; hide Latest;
    if begun == [] {
      assert Latest([]) == [] by { LatestOfNothing(); }
    } else {
      var n := |begun| - 1;
      ListsLatest(begun[..n]);
      LatestOneMore(begun[..n], begun[n]);
      assert begun == begun[..n] + [begun[n]];
    }
  }

  lemma LatestOfNothing()
    ensures Latest([]) == []
  {
  }

  /** Beginning the same calls again changes nothing while all of them are listed. */
  lemma {:induction false} BeginAgain(ids: seq<Id>, begun: seq<Id>)
    requires forall id :: id in begun ==> id in ids
    ensures AfterBegins(ids, begun) == ids
  {
    if begun != [] { BeginAgain(ids, begun[..|begun| - 1]); }
  }

  /** The index maps exactly the listed ids, each to the listed object itself. */
  predicate Agrees(calls: seq<Call>, index: map<Id, Call>) {
    && |calls| <= MAX_CALLS && Distinct(Ids(calls))
    && (forall i :: 0 <= i < |calls| ==> calls[i].id in index && index[calls[i].id] == calls[i])
    && (forall id :: id in index ==> index[id] in calls && index[id].id == id)
  }

  lemma AgreesLookup(calls: seq<Call>, index: map<Id, Call>, id: Id)
    requires Agrees(calls, index)
    ensures id in index <==> id in Ids(calls)
  {
    if id in index {
      var i :| 0 <= i < |calls| && calls[i] == index[id];
      assert Ids(calls)[i] == id;
    }
  }

  function FirstCallIds(calls: seq<Call>, n: nat): set<Id>
    requires n <= |calls|
  {
    set c | c in calls[..n] :: c.id
  }

  lemma LaterCallStays(calls: seq<Call>, n: nat, i: nat)
    requires Distinct(Ids(calls)) && n <= i < |calls|
    ensures calls[i].id !in FirstCallIds(calls, n)
  {
    forall c | c in calls[..n]
      ensures c.id != calls[i].id
    {
      var j :| 0 <= j < n && calls[j] == c;
      assert Ids(calls)[j] != Ids(calls)[i];
    }
  }

  lemma StayingCallIsLater(calls: seq<Call>, n: nat, c: Call)
    requires n <= |calls| && c in calls && c.id !in FirstCallIds(calls, n)
    ensures c in calls[n..]
  {
    assert calls == calls[..n] + calls[n..];
  }

  /** Dropping the oldest calls, and their entries, keeps the agreement. */
  lemma AgreesAfterEviction(calls: seq<Call>, index: map<Id, Call>, n: nat)
    requires Agrees(calls, index) && n <= |calls|
    ensures Agrees(calls[n..], index - FirstCallIds(calls, n))
  {
    var kept := index - FirstCallIds(calls, n);
    assert Ids(calls[n..]) == Ids(calls)[n..];
    forall i | 0 <= i < |calls[n..]|
      ensures calls[n..][i].id in kept && kept[calls[n..][i].id] == calls[n..][i]
    {
      LaterCallStays(calls, n, i + n);
    }
    forall id | id in kept
      ensures kept[id] in calls[n..]
    {
      StayingCallIsLater(calls, n, index[id]);
    }
  }

  lemma AgreesAfterPush(calls: seq<Call>, index: map<Id, Call>, call: Call)
    requires Agrees(calls, index) && |calls| < MAX_CALLS && call.id !in index
    ensures Agrees(calls + [call], index[call.id := call])
  {
    var more := calls + [call];
    assert Ids(more) == Ids(calls) + [call.id];
    forall id | id in index
      ensures index[id] in more
    {
      var j :| 0 <= j < |calls| && calls[j] == index[id];
      assert more[j] == index[id];
    }
    assert more[|calls|] == call;
  }

  lemma ListedStays(calls: seq<Call>, index: map<Id, Call>, id: Id)
    requires Agrees(calls, index) && id in index
    ensures AfterBegin(Ids(calls), id) == Ids(calls)
  {
    AgreesLookup(calls, index, id);
  }

  lemma AgreesDistinctObjects(calls: seq<Call>, index: map<Id, Call>)
    requires Agrees(calls, index)
    ensures forall i, j :: 0 <= i < j < |calls| ==> calls[i] != calls[j]
  {
    assert forall i :: 0 <= i < |calls| ==> Ids(calls)[i] == calls[i].id;
  }

  lemma AgreesIsSized(calls: seq<Call>, index: map<Id, Call>)
    requires Agrees(calls, index)
    ensures |calls| <= MAX_CALLS && forall id :: id in index ==> index[id] in calls && index[id].id == id
  {
  }

  /** A new call joins the list and the index; when the list is full the oldest calls leave both. */
  method ListCall(calls: seq<Call>, index: map<Id, Call>, call: Call) returns (listed: seq<Call>, indexed: map<Id, Call>)
    requires Agrees(calls, index) && call.id !in index
    ensures Agrees(listed, indexed) && Ids(listed) == AfterBegin(Ids(calls), call.id)
    ensures indexed.Keys == set id | id in Ids(listed)
    ensures call.id in indexed && indexed[call.id] == call
    ensures forall c :: c in listed ==> c in calls || c == call
  {
    hide Agrees;
    AgreesIsSized(calls, index);
    AgreesLookup(calls, index, call.id);
    listed, indexed := calls, index;
    if |calls| >= MAX_CALLS {
      var n := |calls| - MAX_CALLS + 1;
      AgreesAfterEviction(calls, index, n);
      assert Ids(calls[n..]) == Ids(calls)[n..];
      listed, indexed := calls[n..], index - FirstCallIds(calls, n);
    }
    AgreesAfterPush(listed, indexed, call);
    assert Ids(listed + [call]) == Ids(listed) + [call.id];
    listed, indexed := listed + [call], indexed[call.id := call];
    forall id | id in indexed.Keys || id in Ids(listed)
      ensures id in indexed.Keys && id in Ids(listed)
    {
      AgreesLookup(listed, indexed, id);
    }
  }

  lemma AgreesOnNothing()
    ensures Agrees([], map[])
  {
  }

  /** How a call ends when its run ends. */
  function Ended(status: Status, outcome: Status): Status {
    if status != Running then status else if outcome == Completed then Completed else Failed
  }

  method FinishCalls(calls: seq<Call>, outcome: Status, now: int)
    requires forall i, j :: 0 <= i < j < |calls| ==> calls[i] != calls[j]
    modifies set c | c in calls
    ensures forall i :: 0 <= i < |calls| ==> calls[i].status == Ended(old(calls[i].status), outcome)
  {
    for i := 0 to |calls|
      invariant forall j :: 0 <= j < i ==> calls[j].status == Ended(old(calls[j].status), outcome)
      invariant forall j :: i <= j < |calls| ==> calls[j].status == old(calls[j].status)
    {
      var call := calls[i];
      if call.status == Running { call.status, call.updatedAt := Ended(Running, outcome), now; }
    }
  }

  predicate ByAge(runs: seq<Run>)
    reads runs
  {
    && (forall i, j :: 0 <= i < j < |runs| ==> runs[i].updatedAt <= runs[j].updatedAt)
    && forall i, j :: 0 <= i < j < |runs| ==> runs[i] != runs[j]
  }

  method InsertByAge(runs: seq<Run>, run: Run) returns (sorted: seq<Run>)
    requires ByAge(runs) && run !in runs
    ensures ByAge(sorted) && forall r :: r in sorted <==> r in runs || r == run
  {
    var i := 0;
    while i < |runs| && runs[i].updatedAt <= run.updatedAt
      invariant 0 <= i <= |runs| && forall j :: 0 <= j < i ==> runs[j].updatedAt <= run.updatedAt
    {
      i := i + 1;
    }
    sorted := runs[..i] + [run] + runs[i..];
    assert runs == runs[..i] + runs[i..];
  }

  /** `idle` are the finished ones among the runs that are not `left` to be looked at. */
  predicate IdleRuns(idle: seq<Run>, runs: map<Id, Run>, left: set<Id>)
    reads runs.Values, idle
  {
    && (forall r :: r in idle ==> r.id in runs && runs[r.id] == r && r.status != Running && r.id !in left)
    && forall id :: id in runs && id !in left && runs[id].status != Running ==> runs[id] in idle
  }

  function FirstIds(idle: seq<Run>, n: nat): set<Id>
    requires n <= |idle|
  {
    set k | 0 <= k < n :: idle[k].id
  }

  lemma NextFirstId(idle: seq<Run>, n: nat)
    requires n < |idle|
    ensures FirstIds(idle, n + 1) == FirstIds(idle, n) + {idle[n].id}
  {
  }

  /** What is left without the first of the idle runs. */
  function Rest<V>(m: map<Id, V>, idle: seq<Run>, n: nat): map<Id, V>
    requires n <= |idle|
  {
    m - FirstIds(idle, n)
  }

  lemma DropNone<V>(m: map<Id, V>, idle: seq<Run>)
    ensures Rest(m, idle, 0) == m
  {
  }

  lemma DropNext<V>(m: map<Id, V>, idle: seq<Run>, n: nat)
    requires n < |idle|
    ensures Rest(m, idle, n) - {idle[n].id} == Rest(m, idle, n + 1)
  {
    hide FirstIds;
    NextFirstId(idle, n);
    assert (m - FirstIds(idle, n)) - {idle[n].id} == m - (FirstIds(idle, n) + {idle[n].id});
  }

  predicate Kept(runs: map<Id, Run>, all: map<Id, Run>) {
    forall id :: id in runs ==> id in all && runs[id] == all[id]
  }

  /** Only finished runs are dropped, and none that was updated later than a finished run that stays. */
  predicate DropsOldest(runs: map<Id, Run>, all: map<Id, Run>)
    reads all.Values, runs.Values
  {
    && (forall gone :: gone in all && gone !in runs ==> all[gone].status != Running)
    && forall gone, kept :: gone in all && gone !in runs && kept in runs && runs[kept].status != Running ==>
         all[gone].updatedAt <= runs[kept].updatedAt
  }

  /** Every run is kept under its id, and its index agrees with its list of calls. */
  ghost predicate Indexed(runs: map<Id, Run>, callIndex: map<Id, map<Id, Call>>)
    reads runs.Values
  {
    && runs.Keys == callIndex.Keys
    && forall id :: id in runs ==> runs[id].id == id && Agrees(runs[id].calls, callIndex[id])
  }

  predicate FewOrRunning(runs: map<Id, Run>)
    reads runs.Values
  {
    |runs| <= MAX_RUNS || forall id :: id in runs ==> runs[id].status == Running
  }

  lemma IndexedAfterDrop(runs: map<Id, Run>, callIndex: map<Id, map<Id, Call>>, ids: set<Id>)
    requires Indexed(runs, callIndex)
    ensures Indexed(runs - ids, callIndex - ids)
  {
    hide Agrees;
  }

  predicate SameIndex(callIndex: map<Id, map<Id, Call>>, all: map<Id, map<Id, Call>>) {
    forall id :: id in callIndex ==> id in all && callIndex[id] == all[id]
  }

  lemma PrunedAll(runs: map<Id, Run>, callIndex: map<Id, map<Id, Call>>)
    requires |runs| <= MAX_RUNS
    ensures FewOrRunning(runs) && Kept(runs, runs) && SameIndex(callIndex, callIndex) && DropsOldest(runs, runs)
  {
  }

  /** Dropping the first of the finished runs until few are left, or all that can be dropped. */
  lemma PrunedFirst(idle: seq<Run>, all: map<Id, Run>, index: map<Id, map<Id, Call>>, n: nat)
    requires n <= |idle| && IdleRuns(idle, all, {}) && ByAge(idle) && Indexed(all, index)
    ensures var runs, callIndex := Rest(all, idle, n), Rest(index, idle, n);
            && Indexed(runs, callIndex) && Kept(runs, all) && SameIndex(callIndex, index) && DropsOldest(runs, all)
            && (|runs| <= MAX_RUNS || n == |idle| ==> FewOrRunning(runs))
  {
    hide Indexed; hide IdleRuns; hide DropsOldest; hide ByAge; hide FirstIds;
    IndexedMeans(all, index);
    IndexedAfterDrop(all, index, FirstIds(idle, n));
    DroppedIsOldest(idle, all, n);
  }

  lemma IndexedMeans(runs: map<Id, Run>, callIndex: map<Id, map<Id, Call>>)
    requires Indexed(runs, callIndex)
    ensures runs.Keys == callIndex.Keys && forall id :: id in runs ==> runs[id].id == id
  {
    hide Agrees;
  }

  lemma RunningStays(runs: map<Id, Run>, all: map<Id, Run>, id: Id)
    requires DropsOldest(runs, all) && id in all && all[id].status == Running
    ensures id in runs
  {
  }

  lemma WithoutOne(runs: map<Id, Run>, id: Id)
    ensures |runs - {id}| >= |runs| - 1
  {
    assert (runs - {id}).Keys == runs.Keys - {id};
    assert |runs.Keys - {id}| >= |runs.Keys| - 1;
  }

  lemma DroppedIsOldest(idle: seq<Run>, all: map<Id, Run>, n: nat)
    requires n <= |idle| && IdleRuns(idle, all, {}) && ByAge(idle) && forall id :: id in all ==> all[id].id == id
    ensures DropsOldest(all - FirstIds(idle, n), all)
    ensures n == |idle| ==> forall id :: id in all - FirstIds(idle, n) ==> all[id].status == Running
  {
    var runs := all - FirstIds(idle, n);
    forall kept | kept in runs && all[kept].status != Running
      ensures exists j :: n <= j < |idle| && idle[j] == all[kept]
    {
      var j :| 0 <= j < |idle| && idle[j] == all[kept];
      assert forall k :: 0 <= k < n ==> idle[k].id in FirstIds(idle, n);
    }
    forall gone | gone in all && gone !in runs
      ensures exists k :: 0 <= k < n && idle[k] == all[gone]
    {
      var k :| 0 <= k < n && idle[k].id == gone;
      assert idle[k] in idle;
    }
    forall gone, kept | gone in all && gone !in runs && kept in runs && all[kept].status != Running
      ensures all[gone].updatedAt <= all[kept].updatedAt
    {
      var k :| 0 <= k < n && idle[k] == all[gone];
      var j :| n <= j < |idle| && idle[j] == all[kept];
    }
    forall gone | gone in all && gone !in runs
      ensures all[gone].status != Running
    {
      var k :| 0 <= k < n && idle[k] == all[gone];
      assert idle[k] in idle;
    }
  }

  // ----- the store -----

  class FabricActivityStore {
    var runs: map<Id, Run>
    var callIndex: map<Id, map<Id, Call>>
    var revision: nat

    ghost predicate Valid()
      reads this, runs.Values
    {
      Indexed(runs, callIndex)
    }

    predicate Bounded()
      reads this, runs.Values
    {
      FewOrRunning(runs)
    }

    constructor ()
      ensures Valid() && Bounded() && runs == map[] && callIndex == map[]
    {
      runs, callIndex, revision := map[], map[], 0;
    }

    method Emit()
      modifies `revision
      ensures revision == old(revision) + 1
    {
      revision := revision + 1;
    }

    method Reset()
      requires Valid()
      modifies this
      ensures Valid() && Bounded() && runs == map[] && callIndex == map[]
    {
      if runs == map[] { return; }
      runs, callIndex := map[], map[];
      Emit();
    }

    /** A listed call begins again in place. */
    method RestartCall(run: Run, call: Call, ref: nat, args: nat, now: int)
      modifies run`updatedAt, call, `revision
      ensures BegunAs(call, ref, args, now)
    {
      call.ref, call.args, call.detail, call.status, call.updatedAt := ref, args, None, Running, now;
      run.updatedAt := now;
      Emit();
    }

    method AddCall(runId: Id, call: Call, now: int)
      requires Valid() && runId in runs && call.id !in callIndex[runId]
      modifies `callIndex, `revision, Known(runId)`calls, Known(runId)`updatedAt
      ensures Valid() && callIndex.Keys == old(callIndex.Keys)
      ensures Ids(runs[runId].calls) == AfterBegin(old(Ids(runs[runId].calls)), call.id)
      ensures call.id in callIndex[runId] && callIndex[runId][call.id] == call
      ensures forall id :: id in callIndex && id != runId ==> callIndex[id] == old(callIndex[id])
      ensures forall c :: c in runs[runId].calls ==> c in old(runs[runId].calls) || c == call
    {
      hide Agrees; hide Ids; hide AfterBegin;
      var run := runs[runId];
      var listed, indexed := ListCall(run.calls, callIndex[runId], call);
      run.calls, run.updatedAt := listed, now;
      callIndex := callIndex[runId := indexed];
      Emit();
    }

    /** Begins a call of a run; events of runs the store no longer knows are ignored. */
    method BeginCall(runId: Id, callId: Id, ref: nat, args: nat, now: int)
      requires Valid()
      modifies `callIndex, `revision, Known(runId)`calls, Known(runId)`updatedAt, TouchedCall(runId, callId)
      ensures Valid() && callIndex.Keys == old(callIndex.Keys)
      ensures runId in runs ==>
                && Ids(runs[runId].calls) == AfterBegin(old(Ids(runs[runId].calls)), callId)
                && callId in callIndex[runId] && BegunAs(callIndex[runId][callId], ref, args, now)
                && (callId in old(callIndex[runId]) ==> callIndex[runId][callId] == old(callIndex[runId][callId]))
                && (callId !in old(callIndex[runId]) ==> fresh(callIndex[runId][callId]))
                && forall c :: c in runs[runId].calls ==> c in old(runs[runId].calls) || fresh(c)
      ensures forall id :: id in callIndex && id != runId ==> callIndex[id] == old(callIndex[id])
    {
      hide Agrees; hide Ids; hide AfterBegin; hide BegunAs;
      if runId !in runs { return; }
      if callId in callIndex[runId] {
        ListedStays(runs[runId].calls, callIndex[runId], callId);
        RestartCall(runs[runId], callIndex[runId][callId], ref, args, now);
      } else {
        var call := new Call(callId, ref, args, now);
        AddCall(runId, call, now);
      }
    }

    /** The listed call an event is about, unless its run is unknown or it was evicted. */
    function Listed(runId: Id, callId: Id): (call: Option<Call>)
      requires runs.Keys == callIndex.Keys
      reads this
      ensures call.Some? <==> runId in runs && callId in callIndex[runId]
    {
      if runId in runs && callId in callIndex[runId] then Some(callIndex[runId][callId]) else None
    }

    /** The run and the call an event about a listed call changes. */
    ghost function TouchedRun(runId: Id, callId: Id): set<Run>
      requires runs.Keys == callIndex.Keys
      reads this
    {
      if runId in runs && callId in callIndex[runId] then {runs[runId]} else {}
    }

    ghost function TouchedCall(runId: Id, callId: Id): set<Call>
      requires runs.Keys == callIndex.Keys
      reads this
    {
      if runId in runs && callId in callIndex[runId] then {callIndex[runId][callId]} else {}
    }

    method UpdateCallArgs(runId: Id, callId: Id, args: nat, now: int)
      requires Valid()
      modifies `revision, TouchedRun(runId, callId)`updatedAt, TouchedCall(runId, callId)
      ensures Valid() && runs == old(runs) && callIndex == old(callIndex)
      ensures var call := Listed(runId, callId);
              call.Some? ==>
                && call.value.args == args && call.value.updatedAt == runs[runId].updatedAt == now
                && call.value.ref == old(call.value.ref) && call.value.status == old(call.value.status)
                && call.value.detail == old(call.value.detail)
    {
      hide Agrees;
      var call := Listed(runId, callId);
      if call.None? { return; }
      call.value.args, call.value.updatedAt := args, now;
      runs[runId].updatedAt := now;
      Emit();
    }

    method UpdateCall(runId: Id, callId: Id, detail: nat, now: int)
      requires Valid()
      modifies `revision, TouchedRun(runId, callId)`updatedAt, TouchedCall(runId, callId)
      ensures Valid() && runs == old(runs) && callIndex == old(callIndex)
      ensures var call := Listed(runId, callId);
              call.Some? ==>
                && call.value.detail == Some(detail) && call.value.updatedAt == runs[runId].updatedAt == now
                && call.value.ref == old(call.value.ref) && call.value.status == old(call.value.status)
                && call.value.args == old(call.value.args)
    {
      hide Agrees;
      var call := Listed(runId, callId);
      if call.None? { return; }
      call.value.detail, call.value.updatedAt := Some(detail), now;
      runs[runId].updatedAt := now;
      Emit();
    }

    /** A call has completed when it succeeded and its result does not itself say that it failed. */
    method FinishCall(runId: Id, callId: Id, success: bool, resultFailed: bool, now: int)
      requires Valid()
      modifies `revision, TouchedRun(runId, callId)`updatedAt, TouchedCall(runId, callId)
      ensures Valid() && runs == old(runs) && callIndex == old(callIndex)
      ensures var call := Listed(runId, callId);
              call.Some? ==>
                && call.value.status == (if success && !resultFailed then Completed else Failed)
                && call.value.updatedAt == runs[runId].updatedAt == now
                && call.value.ref == old(call.value.ref) && call.value.args == old(call.value.args)
                && call.value.detail == old(call.value.detail)
    {
      hide Agrees;
      var call := Listed(runId, callId);
      if call.None? { return; }
      call.value.status, call.value.updatedAt := if success && !resultFailed then Completed else Failed, now;
      runs[runId].updatedAt := now;
      Emit();
    }

    ghost function Known(runId: Id): set<Run>
      reads this
    {
      if runId in runs then {runs[runId]} else {}
    }

    /** A run that is still known runs again; another one is an error. */
    method Resume(runId: Id, now: int) returns (known: bool)
      requires Valid()
      modifies `revision, Known(runId)`status, Known(runId)`updatedAt
      ensures Valid() && runs == old(runs) && callIndex == old(callIndex) && known == (runId in runs)
      ensures known ==> runs[runId].status == Running && runs[runId].updatedAt == now
      ensures !known ==> revision == old(revision)
    {
      hide Agrees;
      known := runId in runs;
      if !known { return; }
      runs[runId].status, runs[runId].updatedAt := Running, now;
      Emit();
    }

    /** Finishing a run finishes the calls it still lists as running, in place. */
    method Finish(runId: Id, outcome: Status, now: int)
      requires Valid() && outcome != Running
      modifies `revision, Known(runId)`status, Known(runId)`updatedAt,
               if runId in runs then set c | c in runs[runId].calls else {}
      ensures Valid() && runs == old(runs) && callIndex == old(callIndex)
      ensures runId in runs ==> runs[runId].status != Running
      ensures runId in runs && old(runs[runId].status) == Running ==>
                && runs[runId].status == outcome
                && forall i :: 0 <= i < |runs[runId].calls| ==>
                     runs[runId].calls[i].status == Ended(old(runs[runId].calls[i].status), outcome)
    {
      if runId !in runs { return; }
      hide Agrees;
      var run := runs[runId];
      if run.status != Running { return; }
      AgreesDistinctObjects(run.calls, callIndex[runId]);
      run.status, run.updatedAt := outcome, now;
      FinishCalls(run.calls, outcome, now);
      Emit();
    }

    /** The runs that may be pruned, the one updated longest ago first. */
    method IdleByAge() returns (idle: seq<Run>)
      requires Valid()
      ensures IdleRuns(idle, runs, {}) && ByAge(idle)
    {
      hide Agrees;
      idle := [];
      var left := runs.Keys;
      while left != {}
        invariant left <= runs.Keys && ByAge(idle) && IdleRuns(idle, runs, left)
        decreases |left|
      {
        var id :| id in left;
        left := left - {id};
        if runs[id].status != Running { idle := InsertByAge(idle, runs[id]); }
      }
    }

    method Delete(id: Id)
      modifies `runs, `callIndex
      ensures runs == old(runs) - {id} && callIndex == old(callIndex) - {id} && |runs| >= |old(runs)| - 1
    {
      WithoutOne(runs, id);
      runs, callIndex := runs - {id}, callIndex - {id};
    }

    method DropWhileTooMany(removable: seq<Run>) returns (n: nat)
      modifies `runs, `callIndex
      ensures n <= |removable|
      ensures runs == Rest(old(runs), removable, n) && callIndex == Rest(old(callIndex), removable, n)
      ensures |runs| <= MAX_RUNS || n == |removable|
      ensures runs == old(runs) || |runs| >= MAX_RUNS
    {
      hide *;
      n := 0;
      ghost var all, index := runs, callIndex;
      DropNone(all, removable);
      DropNone(index, removable);
      while |runs| > MAX_RUNS && n < |removable|
        invariant n <= |removable|
        invariant runs == Rest(all, removable, n) && callIndex == Rest(index, removable, n)
        invariant runs == all || |runs| >= MAX_RUNS
      {
        DropNext(all, removable, n);
        DropNext(index, removable, n);
        Delete(removable[n].id);
        n := n + 1;
      }
    }

    /** Pruning drops finished runs, the oldest first, and only as many as are too many. */
    method Prune()
      requires Valid()
      modifies `runs, `callIndex
      ensures Valid() && Bounded()
      ensures Kept(runs, old(runs)) && SameIndex(callIndex, old(callIndex))
      ensures DropsOldest(runs, old(runs))
      ensures runs == old(runs) || |runs| >= MAX_RUNS
    {
      hide Indexed; hide IdleRuns; hide DropsOldest; hide ByAge; hide Rest; hide FewOrRunning; hide Kept; hide SameIndex;
      if |runs| <= MAX_RUNS {
        PrunedAll(runs, callIndex);
        return;
      }
      var removable := IdleByAge();
      ghost var all, index := runs, callIndex;
      var n := DropWhileTooMany(removable);
      PrunedFirst(removable, all, index, n);
    }

    method Put(run: Run)
      requires Valid() && run.calls == []
      modifies `runs, `callIndex
      ensures Valid() && runs == old(runs)[run.id := run] && callIndex == old(callIndex)[run.id := map[]]
    {
      hide Agrees;
      AgreesOnNothing();
      runs, callIndex := runs[run.id := run], callIndex[run.id := map[]];
    }

    /** Starts a run anew under its id, then prunes; the new run is running and stays. */
    method Start(id: Id, now: int) returns (run: Run)
      requires Valid()
      modifies this
      ensures Valid() && Bounded() && fresh(run) && run.id == id && run.status == Running && run.calls == []
      ensures Kept(runs, old(runs)[id := run]) && DropsOldest(runs, old(runs)[id := run])
      ensures id in runs && callIndex[id] == map[]
    {
      hide Indexed; hide DropsOldest; hide FewOrRunning;
      run := new Run(id, now);
      Put(run);
      label Added:
      Prune();
      RunningStays(runs, old@Added(runs), id);
      IndexedMeans(runs, callIndex);
      Emit();
    }

    // --- the store as a whole, and one call of its interface

    /** The store, its runs and all calls they list. */
    ghost function Footprint(): set<object>
      reads this, runs.Values
    {
      {this} + runs.Values + (set id, c | id in runs && c in runs[id].calls :: c)
    }

    ghost function Lists(): map<Id, seq<Id>>
      reads this, runs.Values
    {
      map id | id in runs :: Ids(runs[id].calls)
    }

    ghost function Runnings(): set<Id>
      reads this, runs.Values
    {
      set id | id in runs && runs[id].status == Running
    }

    lemma NothingHeld()
      requires runs == map[]
      ensures Footprint() == {this} && Lists() == map[] && Runnings() == {}
    {
    }

    lemma RunHeld(runId: Id)
      ensures this in Footprint()
      ensures runId in runs ==> runs[runId] in Footprint() && forall c :: c in runs[runId].calls ==> c in Footprint()
    {
    }

    lemma ListedHeld(runId: Id, callId: Id)
      requires Valid()
      ensures forall r :: r in TouchedRun(runId, callId) ==> r in Footprint()
      ensures forall c :: c in TouchedCall(runId, callId) ==> c in Footprint()
    {
    }

    /** While the runs and their lists stay, so do the objects the store holds. */
    twostate lemma CallsStay()
      requires runs == old(runs) && forall id :: id in runs ==> runs[id].calls == old(runs[id].calls)
      ensures Footprint() == old(Footprint()) && Lists() == old(Lists())
    {
    }

    /** A run may only gain new calls. */
    twostate lemma CallsGrow(runId: Id)
      requires runs == old(runs) && forall id :: id in runs && id != runId ==> runs[id].calls == old(runs[id].calls)
      requires runId in runs ==> forall c :: c in runs[runId].calls ==> c in old(runs[runId].calls) || fresh(c)
      ensures fresh(Footprint() - old(Footprint()))
    {
    }

    twostate lemma StatusesStay()
      requires runs == old(runs) && forall id :: id in runs ==> runs[id].status == old(runs[id].status)
      ensures Runnings() == old(Runnings())
    {
    }

    /** Starting a run and pruning keep the other runs' lists, and drop only what is not running. */
    twostate lemma StartKeepsLists(id: Id, new run: Run)
      requires run.id == id && run.status == Running && run.calls == [] && fresh(run) && id in runs
      requires Kept(runs, old(runs)[id := run]) && DropsOldest(runs, old(runs)[id := run])
      requires forall i :: i in old(runs) ==> unchanged(old(runs)[i])
      ensures Follows(StartRun(id), old(Lists()), Lists()) && RunsOn(StartRun(id), old(Runnings()), Runnings())
    {
      hide Ids;
      assert Ids([]) == [];
    }

    twostate lemma StartHolds(id: Id, new run: Run)
      requires fresh(run) && run.calls == [] && Kept(runs, old(runs)[id := run])
      requires forall i :: i in old(runs) ==> unchanged(old(runs)[i])
      ensures fresh(Footprint() - old(Footprint()))
    {
    }

    method PerformStart(id: Id, now: int)
      requires Valid()
      modifies this
      ensures Valid() && fresh(Footprint() - old(Footprint()))
      ensures Follows(StartRun(id), old(Lists()), Lists()) && RunsOn(StartRun(id), old(Runnings()), Runnings())
    {
      hide Agrees; hide Indexed; hide FewOrRunning; hide Footprint; hide Lists; hide Runnings; hide DropsOldest; hide Kept;
      var run := Start(id, now);
      StartKeepsLists(id, run);
      StartHolds(id, run);
    }

    method PerformResume(id: Id, now: int)
      requires Valid()
      modifies Footprint()
      ensures Valid() && fresh(Footprint() - old(Footprint()))
      ensures Follows(ResumeRun(id), old(Lists()), Lists()) && RunsOn(ResumeRun(id), old(Runnings()), Runnings())
    {
      hide Indexed; hide Footprint; hide Lists;
      RunHeld(id);
      var known := Resume(id, now);
      CallsStay();
    }

    method PerformBegin(id: Id, call: Id, ref: nat, args: nat, now: int)
      requires Valid()
      modifies Footprint()
      ensures Valid() && fresh(Footprint() - old(Footprint()))
      ensures Follows(Begin(id, call, ref, args), old(Lists()), Lists())
      ensures RunsOn(Begin(id, call, ref, args), old(Runnings()), Runnings())
    {
      hide Indexed; hide AfterBegin; hide Runnings; hide BegunAs; hide Ids; hide Footprint;
      IndexedMeans(runs, callIndex);
      RunHeld(id);
      ListedHeld(id, call);
      BeginCall(id, call, ref, args, now);
      StatusesStay();
      CallsGrow(id);
    }

    method PerformUpdate(operation: Operation, now: int)
      requires Valid() && (operation.UpdateArgs? || operation.Update? || operation.FinishOne?)
      modifies Footprint()
      ensures Valid() && fresh(Footprint() - old(Footprint()))
      ensures Follows(operation, old(Lists()), Lists()) && RunsOn(operation, old(Runnings()), Runnings())
    {
      hide Indexed; hide Footprint; hide Lists; hide Runnings;
      IndexedMeans(runs, callIndex);
      RunHeld(operation.id);
      ListedHeld(operation.id, operation.call);
      match operation {
        case UpdateArgs(id, call, args) => UpdateCallArgs(id, call, args, now);
        case Update(id, call, detail) => UpdateCall(id, call, detail, now);
        case FinishOne(id, call, success, resultFailed) => FinishCall(id, call, success, resultFailed, now);
      }
      CallsStay();
      StatusesStay();
    }

    method PerformFinish(id: Id, success: bool, cancelled: bool, now: int)
      requires Valid()
      modifies Footprint()
      ensures Valid() && fresh(Footprint() - old(Footprint()))
      ensures Follows(FinishRun(id, success, cancelled), old(Lists()), Lists())
      ensures RunsOn(FinishRun(id, success, cancelled), old(Runnings()), Runnings())
    {
      hide Indexed; hide Footprint; hide Lists;
      IndexedMeans(runs, callIndex);
      RunHeld(id);
      Finish(id, if success then Completed else if cancelled then Cancelled else Failed, now);
      CallsStay();
    }

    method PerformReset()
      requires Valid()
      modifies this
      ensures Valid() && fresh(Footprint() - old(Footprint()))
      ensures Follows(ResetAll, old(Lists()), Lists()) && RunsOn(ResetAll, old(Runnings()), Runnings())
    {
      hide Indexed; hide Footprint; hide Lists; hide Runnings; hide FewOrRunning;
      RunHeld(0);
      Reset();
      NothingHeld();
    }

    /** One call of the interface; `held` are objects its caller knows of, among them all the store holds. */
    method Perform(operation: Operation, now: int, ghost held: set<object>) returns (ghost more: set<object>)
      requires Valid() && Footprint() <= held
      modifies held
      ensures Valid() && held <= more && Footprint() <= more && fresh(more - held)
      ensures Follows(operation, old(Lists()), Lists()) && RunsOn(operation, old(Runnings()), Runnings())
    {
      hide Indexed; hide Follows; hide RunsOn; hide Footprint; hide Lists; hide Runnings;
      RunHeld(0);
      match operation {
        case StartRun(id) => PerformStart(id, now);
        case ResumeRun(id) => PerformResume(id, now);
        case Begin(id, call, ref, args) => PerformBegin(id, call, ref, args, now);
        case UpdateArgs(_, _, _) | Update(_, _, _) | FinishOne(_, _, _, _) => PerformUpdate(operation, now);
        case FinishRun(id, success, cancelled) => PerformFinish(id, success, cancelled, now);
        case ResetAll => PerformReset();
      }
      more := held + Footprint();
      assert more - held <= Footprint() - old(Footprint());
    }
  }

  // ----- every history -----

  datatype Operation =
    | StartRun(id: Id)
    | ResumeRun(id: Id)
    | Begin(id: Id, call: Id, ref: nat, args: nat)
    | UpdateArgs(id: Id, call: Id, args: nat)
    | Update(id: Id, call: Id, detail: nat)
    | FinishOne(id: Id, call: Id, success: bool, resultFailed: bool)
    | FinishRun(id: Id, success: bool, cancelled: bool)
    | ResetAll

  /** What one operation does to a run's list. */
  function NextList(operation: Operation, id: Id, list: seq<Id>): seq<Id> {
    match operation
    case StartRun(started) => if started == id then [] else list
    case Begin(run, call, _, _) => if run == id then AfterBegin(list, call) else list
    case ResetAll => []
    case ResumeRun(_) | UpdateArgs(_, _, _) | Update(_, _, _) | FinishOne(_, _, _, _) | FinishRun(_, _, _) => list
  }

  /** The runs an operation leaves running for sure. */
  function NextOpen(operation: Operation, open: set<Id>): set<Id> {
    match operation
    case StartRun(id) => open + {id}
    case FinishRun(id, _, _) => open - {id}
    case ResetAll => {}
    case ResumeRun(_) | Begin(_, _, _, _) | UpdateArgs(_, _, _) | Update(_, _, _) | FinishOne(_, _, _, _) => open
  }

  predicate Follows(operation: Operation, before: map<Id, seq<Id>>, after: map<Id, seq<Id>>) {
    forall id :: id in after ==>
      && (id in before || operation == StartRun(id))
      && after[id] == NextList(operation, id, if id in before then before[id] else [])
  }

  predicate RunsOn(operation: Operation, before: set<Id>, after: set<Id>) { NextOpen(operation, before) <= after }

  /** The calls a run lists since it was last started. */
  function ListOf(history: seq<Operation>, id: Id): seq<Id> {
    if history == [] then [] else NextList(history[|history| - 1], id, ListOf(history[..|history| - 1], id))
  }

  /** The runs that were started and not finished since. */
  function Open(history: seq<Operation>): set<Id> {
    if history == [] then {} else NextOpen(history[|history| - 1], Open(history[..|history| - 1]))
  }

  /** The lists are those of a history. */
  predicate ListsAs(history: seq<Operation>, lists: map<Id, seq<Id>>) {
    forall id :: id in lists ==> lists[id] == ListOf(history, id)
  }

  lemma HistoryGoesOn(history: seq<Operation>, operation: Operation, before: map<Id, seq<Id>>, after: map<Id, seq<Id>>,
                      running: set<Id>, still: set<Id>)
    requires ListsAs(history, before) && Follows(operation, before, after)
    requires Open(history) <= running && RunsOn(operation, running, still)
    ensures ListsAs(history + [operation], after) && Open(history + [operation]) <= still
  {
    hide AfterBegin;
    assert (history + [operation])[..|history|] == history;
  }

  /** Whatever is done to a store, in any order and at any times: the index of every run it knows maps exactly
      the listed ids to the listed objects, every run lists exactly the calls its history says, and no
      run that was started and not finished since is ever pruned. */
  method Replay(operations: seq<Operation>, times: seq<int>) returns (store: FabricActivityStore)
    requires |times| == |operations|
    ensures store.Valid() && ListsAs(operations, store.Lists()) && Open(operations) <= store.Runnings()
  {
    hide *;
    store := new FabricActivityStore();
    NothingYet();
    store.NothingHeld();
    ghost var held: set<object> := {store};
    for i := 0 to |operations|
      invariant fresh(held) && store in held && store.Footprint() <= held && store.Valid()
      invariant ListsAs(operations[..i], store.Lists()) && Open(operations[..i]) <= store.Runnings()
    {
      assert operations[..i + 1] == operations[..i] + [operations[i]];
      ghost var lists, running := store.Lists(), store.Runnings();
      held := store.Perform(operations[i], times[i], held);
      HistoryGoesOn(operations[..i], operations[i], lists, store.Lists(), running, store.Runnings());
    }
    assert operations[..|operations|] == operations;
  }

  lemma NothingYet()
    ensures ListsAs([], map[]) && Open([]) == {}
  {
  }
}
