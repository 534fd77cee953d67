/** The lazily activated host state: one runtime is built by one activation at a time, and a session change
    in the middle of it supersedes it. Every await of an activation is a step of its own. */
module Activation {
  import opened Common

  type RuntimeId = nat

  /** Where an activation is suspended; the last two are its failure path. */
  datatype Stage = OrphanWait | CreateWait | InitWait | SettleWait | HookWait | FailHook | FailShutdown | Done

  /** The local variables of one activation. */
  datatype Body = Body(generation: nat, reusable: Option<RuntimeId>, candidate: Option<RuntimeId>, stage: Stage)

  /** `bodies` are all activations ever started, the promise of one being its index. `initialized` and
      `alive` say of runtimes whether they are initialized, and created but not told to shut down.
      `closing` are the shutdown calls still waiting, by their generation, with the activation each waits
      for; `taken` those that have taken the runtime. */
  datatype State = State(
    generation: nat, config: bool, runtime: Option<RuntimeId>, activating: Option<RuntimeId>, everActivated: bool,
    activation: Option<nat>, activationGeneration: Option<nat>, bodies: seq<Body>,
    created: nat, initialized: set<RuntimeId>, alive: set<RuntimeId>,
    closing: map<nat, Option<nat>>, taken: set<nat>)

  /** How an await ends; in the last case what follows it throws before the next await. */
  datatype Outcome = Fine | Rejected | FineThenThrows

  datatype Event =
    | Bootstrap(loads: bool)
    | Activate(reinitialize: bool)
    | Advance(i: nat, outcome: Outcome)
    | Clear(i: nat)
    | ShutdownBegin
    | ShutdownTake(generation: nat)
    | ShutdownEnd(generation: nat)
    | Deinitialize(r: RuntimeId)

  predicate Finished(s: State, promise: Option<nat>) {
    promise.None? || (promise.value < |s.bodies| && s.bodies[promise.value].stage == Done)
  }

  predicate Enabled(s: State, e: Event) {
    match e
    case Advance(i, _) => i < |s.bodies| && s.bodies[i].stage != Done
    case Clear(i) => i < |s.bodies| && s.bodies[i].stage == Done
    case ShutdownTake(g) => g in s.closing && Finished(s, s.closing[g])
    case ShutdownEnd(g) => g in s.taken
    case Bootstrap(_) | Activate(_) | ShutdownBegin | Deinitialize(_) => true
  }

  /** #activate up to its first await: it joins or waits for a running activation, keeps an initialized
      runtime, or starts a new activation, which takes the old runtime out of service. */
  function Activated(s: State, reinitialize: bool): State {
    if s.activation.Some? then s
    else if s.runtime.Some? && s.runtime.value in s.initialized && !reinitialize then s
    else if !s.config then s
    else
      var reusable := if s.runtime.Some? && s.runtime.value in s.initialized then s.runtime else None;
      var orphan := if s.runtime.Some? && s.runtime.value !in s.initialized then {s.runtime.value} else {};
      s.(runtime := None, alive := s.alive - orphan, activation := Some(|s.bodies|), activationGeneration := Some(s.generation),
         bodies := s.bodies + [Body(s.generation, reusable, None, OrphanWait)])
  }

  /** Where the continuation of one await leads; `current` says that the activation was not superseded and
      `outcome` how what it awaited ended. */
  function NextBody(b: Body, current: bool, outcome: Outcome, newest: RuntimeId): Body
    requires b.stage != Done
  {
    match b.stage
    case OrphanWait =>
      if !current then b.(stage := FailHook)
      else if b.reusable.Some? then b.(candidate := b.reusable, stage := InitWait)
      else b.(stage := CreateWait)
    case CreateWait =>
      if outcome.Rejected? then b.(stage := FailHook)
      else b.(candidate := Some(newest), stage := if outcome.Fine? then InitWait else FailHook)
    case InitWait => b.(stage := if outcome.Fine? && current then SettleWait else FailHook)
    case SettleWait => b.(stage := if outcome.Fine? && current then HookWait else FailHook)
    case HookWait => b.(stage := if outcome.Fine? && current then Done else FailHook)
    case FailHook => b.(stage := if b.candidate.Some? then FailShutdown else Done)
    case FailShutdown => b.(stage := Done)
  }

  /** The continuation of one await of activation `i`. */
  function Advanced(s: State, i: nat, outcome: Outcome): State
    requires Enabled(s, Advance(i, outcome))
  {
    var b := s.bodies[i];
    var n := NextBody(b, b.generation == s.generation, outcome, s.created);
    var creates, gives := b.stage == CreateWait && !outcome.Rejected?, b.stage == FailHook && b.candidate.Some?;
    var installs := b.stage == HookWait && n.stage == Done;
    s.(bodies := s.bodies[i := n],
       created := if creates then s.created + 1 else s.created,
       alive := if creates then s.alive + {s.created} else if gives then s.alive - {b.candidate.value} else s.alive,
       initialized := if b.stage == InitWait && !outcome.Rejected? && b.candidate.Some? then s.initialized + {b.candidate.value} else s.initialized,
       activating := if n.stage == HookWait then b.candidate
                     else if installs || (b.stage == FailHook && s.activating == b.candidate) then None else s.activating,
       runtime := if installs then b.candidate
                  else if b.stage == FailShutdown && s.runtime == b.candidate then None else s.runtime,
       everActivated := s.everActivated || installs)
  }

  function Apply(s: State, e: Event): State
    requires Enabled(s, e)
  {
    match e
    case Bootstrap(loads) => s.(generation := s.generation + 1, config := loads)
    case Activate(reinitialize) => Activated(s, reinitialize)
    case Advance(i, outcome) => Advanced(s, i, outcome)
    case Clear(i) => if s.activation == Some(i) then s.(activation := None, activationGeneration := None) else s
    case ShutdownBegin =>
      s.(generation := s.generation + 1, closing := s.closing[s.generation + 1 := s.activation])
    case ShutdownTake(g) =>
      var resumed := s.(closing := s.closing - {g});
      if g != s.generation then resumed
      else resumed.(runtime := None, alive := if s.runtime.Some? then s.alive - {s.runtime.value} else s.alive, taken := s.taken + {g})
    case ShutdownEnd(g) =>
      if g != s.generation then s.(taken := s.taken - {g})
      else s.(taken := s.taken - {g}, config := false, everActivated := false)
    case Deinitialize(r) => s.(initialized := s.initialized - {r})
  }

  const FRESH := State(0, false, None, None, false, None, None, [], 0, {}, {}, map[], {})

  // ----- what every run keeps -----

  predicate Running(s: State, i: nat) { i < |s.bodies| && s.bodies[i].stage != Done }

  /** Only the activation on record runs. */
  predicate Single(s: State) {
    && (forall i :: 0 <= i < |s.bodies| && s.bodies[i].stage != Done ==> s.activation == Some(i))
    && (s.activation.Some? ==> s.activation.value < |s.bodies|
                               && s.activationGeneration == Some(s.bodies[s.activation.value].generation))
  }

  predicate Shows(b: Body, activating: Option<RuntimeId>) {
    (b.stage == HookWait || b.stage == FailHook) && b.candidate == activating
  }

  /** While an activation runs no runtime is installed, and what it shows early is its own candidate. */
  predicate Coherent(s: State) {
    && (s.runtime.Some? ==> forall i :: 0 <= i < |s.bodies| ==> s.bodies[i].stage == Done)
    && (s.activating.Some? ==>
          s.activation.Some? && s.activation.value < |s.bodies| && Shows(s.bodies[s.activation.value], s.activating))
  }

  predicate Below(r: Option<RuntimeId>, created: nat) { r.Some? ==> r.value < created }

  predicate BodyFits(b: Body, created: nat, alive: set<RuntimeId>) {
    && Below(b.candidate, created) && Below(b.reusable, created)
    && (b.stage == InitWait || b.stage == SettleWait || b.stage == HookWait || b.stage == FailShutdown ==> b.candidate.Some?)
    && (b.stage == OrphanWait || b.stage == CreateWait ==> b.candidate.None?)
    && (b.stage == CreateWait ==> b.reusable.None?)
    && (b.stage == FailShutdown ==> b.candidate.value !in alive)
  }

  predicate Fits(s: State) {
    && Below(s.runtime, s.created)
    && (forall r :: r in s.alive ==> r < s.created)
    && forall i :: 0 <= i < |s.bodies| ==> BodyFits(s.bodies[i], s.created, s.alive)
  }

  predicate Inv(s: State) { Single(s) && Coherent(s) && Fits(s) }

  lemma AdvanceKeepsSingle(s: State, i: nat, outcome: Outcome)
    requires Inv(s) && Enabled(s, Advance(i, outcome))
    ensures Single(Advanced(s, i, outcome))
  {
    hide BodyFits;
    assert NextBody(s.bodies[i], s.bodies[i].generation == s.generation, outcome, s.created).generation == s.bodies[i].generation;
    hide NextBody;
  }

  lemma AdvanceKeepsCoherent(s: State, i: nat, outcome: Outcome)
    requires Inv(s) && Enabled(s, Advance(i, outcome))
    ensures Coherent(Advanced(s, i, outcome))
  {
    assert BodyFits(s.bodies[i], s.created, s.alive);
    assert s.activation == Some(i) && s.runtime.None?;
    hide Fits; hide BodyFits; hide Single;
  }

  lemma NextBodyFits(b: Body, current: bool, outcome: Outcome, created: nat, alive: set<RuntimeId>)
    requires b.stage != Done && BodyFits(b, created, alive)
    ensures BodyFits(NextBody(b, current, outcome, created), if b.stage == CreateWait && !outcome.Rejected? then created + 1 else created,
                     if b.stage == CreateWait && !outcome.Rejected? then alive + {created}
                     else if b.stage == FailHook && b.candidate.Some? then alive - {b.candidate.value} else alive)
  {
  }

  lemma OtherBodyFits(b: Body, created: nat, alive: set<RuntimeId>, more: nat, after: set<RuntimeId>)
    requires BodyFits(b, created, alive) && created <= more && forall r :: r in after ==> r in alive || r == created
    ensures BodyFits(b, more, after)
  {
  }

  lemma AdvanceKeepsFits(s: State, i: nat, outcome: Outcome)
    requires Inv(s) && Enabled(s, Advance(i, outcome))
    ensures Fits(Advanced(s, i, outcome))
  {
    var t := Advanced(s, i, outcome);
    NextBodyFits(s.bodies[i], s.bodies[i].generation == s.generation, outcome, s.created, s.alive);
    assert Below(s.bodies[i].candidate, s.created) && s.runtime.None?;
    hide Coherent; hide BodyFits; hide NextBody; hide Single;
    forall j | 0 <= j < |t.bodies|
      ensures BodyFits(t.bodies[j], t.created, t.alive)
    {
      if j != i { OtherBodyFits(s.bodies[j], s.created, s.alive, t.created, t.alive); }
    }
  }

  /** Every step keeps the invariant. */
  lemma StepKeepsInv(s: State, e: Event)
    requires Inv(s) && Enabled(s, e)
    ensures Inv(Apply(s, e))
  {
    match e
    case Advance(i, outcome) =>
      hide Single; hide Coherent; hide Fits;
      AdvanceKeepsSingle(s, i, outcome);
      AdvanceKeepsCoherent(s, i, outcome);
      AdvanceKeepsFits(s, i, outcome);
    case Activate(reinitialize) => ActivateKeepsInv(s, reinitialize);
    case Bootstrap(_) | Clear(_) | ShutdownBegin | ShutdownTake(_) | ShutdownEnd(_) | Deinitialize(_) =>
      OtherKeepsInv(s, e);
  }

  lemma ActivateKeepsInv(s: State, reinitialize: bool)
    requires Inv(s)
    ensures Inv(Activated(s, reinitialize))
  {
    hide BodyFits;
    var t := Activated(s, reinitialize);
    forall j | 0 <= j < |t.bodies|
      ensures BodyFits(t.bodies[j], t.created, t.alive)
    {
      if j < |s.bodies| { FitsWithFewer(s.bodies[j], s.created, s.alive, t.alive); } else { FreshBodyFits(t.bodies[j], t.created, t.alive); }
    }
  }

  lemma FitsWithFewer(b: Body, created: nat, alive: set<RuntimeId>, fewer: set<RuntimeId>)
    requires BodyFits(b, created, alive) && fewer <= alive
    ensures BodyFits(b, created, fewer)
  {
  }

  lemma FreshBodyFits(b: Body, created: nat, alive: set<RuntimeId>)
    requires b.stage == OrphanWait && b.candidate.None? && Below(b.reusable, created)
    ensures BodyFits(b, created, alive)
  {
  }

  lemma OtherChanges(s: State, e: Event)
    requires Inv(s) && Enabled(s, e) && !e.Advance? && !e.Activate?
    ensures var t := Apply(s, e);
            && t.bodies == s.bodies && t.created == s.created && t.alive <= s.alive && t.activating == s.activating
            && (t.runtime == s.runtime || t.runtime.None?)
            && ((t.activation == s.activation && t.activationGeneration == s.activationGeneration)
                || (t.activation.None? && s.activation.Some? && s.activation.value < |s.bodies| && s.bodies[s.activation.value].stage == Done))
  {
    hide Coherent; hide Fits;
  }

  lemma OtherKeepsInv(s: State, e: Event)
    requires Inv(s) && Enabled(s, e) && !e.Advance? && !e.Activate?
    ensures Inv(Apply(s, e))
  {
    OtherChanges(s, e);
    hide BodyFits; hide Apply; hide Enabled;
    var t := Apply(s, e);
    forall j | 0 <= j < |t.bodies|
      ensures BodyFits(t.bodies[j], t.created, t.alive)
    {
      FitsWithFewer(s.bodies[j], s.created, s.alive, t.alive);
    }
  }

  predicate Runs(s: State, es: seq<Event>)
    decreases es
  {
    es == [] || (Enabled(s, es[0]) && Runs(Apply(s, es[0]), es[1..]))
  }

  function Final(s: State, es: seq<Event>): State
    requires Runs(s, es)
    decreases es
  {
    if es == [] then s else Final(Apply(s, es[0]), es[1..])
  }

  lemma {:induction false} RunKeepsInv(s: State, es: seq<Event>)
    requires Inv(s) && Runs(s, es)
    ensures Inv(Final(s, es))
    decreases es
  {
    if es != [] {
      StepKeepsInv(s, es[0]);
      RunKeepsInv(Apply(s, es[0]), es[1..]);
    }
  }

  /** In every interleaving at most one activation runs, and none while a runtime is installed. */
  lemma OneActivation(es: seq<Event>, i: nat, j: nat)
    requires Runs(FRESH, es)
    ensures var s := Final(FRESH, es);
            && (Running(s, i) && Running(s, j) ==> i == j)
            && (Running(s, i) ==> s.runtime.None? && s.activation == Some(i))
  {
    RunKeepsInv(FRESH, es);
  }

  /** A runtime is installed, or shown early, only by an activation whose generation is still current. */
  lemma InstallsOnlyCurrent(s: State, e: Event)
    requires Inv(s) && Enabled(s, e)
    ensures var t := Apply(s, e);
            && (t.runtime.Some? && t.runtime != s.runtime ==>
                  e.Advance? && s.bodies[e.i].generation == s.generation && t.runtime == s.bodies[e.i].candidate)
            && (t.activating.Some? && t.activating != s.activating ==>
                  e.Advance? && s.bodies[e.i].generation == s.generation && t.activating == s.bodies[e.i].candidate)
  {
  }

  /** Once superseded, an activation can only fail: it never installs or shows its candidate. */
  lemma SupersededNeverInstalls(s: State, i: nat, outcome: Outcome)
    requires Inv(s) && Enabled(s, Advance(i, outcome)) && s.bodies[i].generation != s.generation
    ensures var t := Advanced(s, i, outcome);
            && t.runtime == s.runtime && (t.activating == s.activating || t.activating.None?)
            && t.bodies[i].stage in {InitWait, CreateWait, FailHook, FailShutdown, Done}
  {
  }

  /** How far an activation is from its end. */
  function Distance(b: Body): nat {
    match b.stage
    case OrphanWait => 7
    case CreateWait => 6
    case InitWait => 5
    case SettleWait => 4
    case HookWait => 3
    case FailHook => 2
    case FailShutdown => 1
    case Done => 0
  }

  lemma ActivationEnds(s: State, i: nat, outcome: Outcome)
    requires Enabled(s, Advance(i, outcome))
    ensures Distance(Advanced(s, i, outcome).bodies[i]) < Distance(s.bodies[i])
  {
  }

  // ----- runtimes nobody will shut down -----

  /** A runtime still has somebody responsible for it: it is installed, or an activation holds it. */
  predicate Owned(s: State, r: RuntimeId) {
    || s.runtime == Some(r)
    || (s.activation.Some? && s.activation.value < |s.bodies|
        && var b := s.bodies[s.activation.value];
           b.stage != Done && (b.candidate == Some(r) || (b.stage == OrphanWait && b.reusable == Some(r))))
  }

  predicate NoLeak(s: State) { forall r :: r in s.alive ==> Owned(s, r) }

  /** An activation that reuses an initialized runtime is superseded before its first continuation. */
  predicate DropsReusable(s: State, e: Event)
    requires Enabled(s, e)
  {
    && e.Advance? && s.bodies[e.i].stage == OrphanWait && s.bodies[e.i].generation != s.generation
    && s.bodies[e.i].reusable.Some? && s.bodies[e.i].reusable.value in s.alive
  }

  lemma AdvanceLeaks(s: State, i: nat, outcome: Outcome)
    requires Inv(s) && NoLeak(s) && Enabled(s, Advance(i, outcome))
    ensures NoLeak(Advanced(s, i, outcome)) <==> !DropsReusable(s, Advance(i, outcome))
  {
    var t := Advanced(s, i, outcome);
    assert BodyFits(s.bodies[i], s.created, s.alive);
    assert s.activation == Some(i) && s.runtime.None?;
    if DropsReusable(s, Advance(i, outcome)) { assert !Owned(t, s.bodies[i].reusable.value); }
  }

  /** A live runtime is forgotten in exactly one way: the reused runtime of an activation that a session
      change supersedes before its first continuation is neither installed again nor shut down. */
  lemma LeaksExactly(s: State, e: Event)
    requires Inv(s) && NoLeak(s) && Enabled(s, e)
    ensures NoLeak(Apply(s, e)) <==> !DropsReusable(s, e)
  {
    match e
    case Advance(i, outcome) => AdvanceLeaks(s, i, outcome);
    case Activate(reinitialize) => ActivateLeaksNothing(s, reinitialize);
    case ShutdownTake(_) => TakeLeaksNothing(s, e);
    case Bootstrap(_) | Clear(_) | ShutdownBegin | ShutdownEnd(_) | Deinitialize(_) =>
  }

  predicate EverDrops(s: State, es: seq<Event>)
    requires Runs(s, es)
    decreases es
  {
    es != [] && (DropsReusable(s, es[0]) || EverDrops(Apply(s, es[0]), es[1..]))
  }

  /** In every other run each live runtime keeps an owner. */
  lemma {:induction false} NothingLeaks(s: State, es: seq<Event>)
    requires Inv(s) && NoLeak(s) && Runs(s, es) && !EverDrops(s, es)
    ensures NoLeak(Final(s, es))
    decreases es
  {
    hide Inv; hide NoLeak; hide DropsReusable; hide Apply; hide Enabled;
    if es != [] {
      LeaksExactly(s, es[0]);
      StepKeepsInv(s, es[0]);
      NothingLeaks(Apply(s, es[0]), es[1..]);
    }
  }

  lemma ActivateLeaksNothing(s: State, reinitialize: bool)
    requires Inv(s) && NoLeak(s)
    ensures NoLeak(Activated(s, reinitialize))
  {
    hide Fits;
    forall r | r in Activated(s, reinitialize).alive
      ensures Owned(Activated(s, reinitialize), r)
    {
      assert Owned(s, r);
    }
  }

  lemma TakeLeaksNothing(s: State, e: Event)
    requires Inv(s) && NoLeak(s) && Enabled(s, e) && e.ShutdownTake?
    ensures NoLeak(Apply(s, e))
  {
    hide Fits;
    forall r | r in Apply(s, e).alive
      ensures Owned(Apply(s, e), r)
    {
      assert Owned(s, r);
    }
  }

  /** A shutdown that takes the runtime leaves none installed and ends the life of the one that was, and of no
      other; a superseded one leaves the runtime alone. */
  lemma TakeEndsTheInstalled(s: State, g: nat, r: RuntimeId)
    requires Enabled(s, ShutdownTake(g))
    ensures var t := Apply(s, ShutdownTake(g));
            && (t.runtime.None? <==> g == s.generation || s.runtime.None?)
            && (r in t.alive <==> r in s.alive && !(g == s.generation && s.runtime == Some(r)))
            && (g != s.generation ==> t.runtime == s.runtime) && g !in t.closing
  {
  }

  lemma FreshStarts()
    ensures Inv(FRESH) && NoLeak(FRESH)
  {
  }

  /** So in every run that has not dropped a runtime, once a shutdown has taken the runtime and no activation
      is at work, nothing is installed, shown or alive. */
  lemma ShutdownLeavesNothing(es: seq<Event>)
    requires Runs(FRESH, es) && !EverDrops(FRESH, es)
    ensures var s := Final(FRESH, es);
            Enabled(s, ShutdownTake(s.generation)) && (forall i :: 0 <= i < |s.bodies| ==> s.bodies[i].stage == Done) ==>
              var t := Apply(s, ShutdownTake(s.generation)); t.runtime.None? && t.activating.None? && t.alive == {}
  {
    hide Single; hide Fits; hide Runs; hide Final; hide Enabled;
    FreshStarts();
    RunKeepsInv(FRESH, es);
    NothingLeaks(FRESH, es);
    var s := Final(FRESH, es);
    if Enabled(s, ShutdownTake(s.generation)) && forall i :: 0 <= i < |s.bodies| ==> s.bodies[i].stage == Done {
      var t := Apply(s, ShutdownTake(s.generation));
      forall r
        ensures r !in t.alive
      {
        TakeEndsTheInstalled(s, s.generation, r);
        if r in s.alive { assert Owned(s, r); }
      }
    }
  }

  /** It happens: a running host is reinitialized and, before the activation's first continuation, shut
      down. The shutdown finds no runtime to take, and the old one stays alive with nobody to own it. */
  lemma ReinitializeThenShutdownLeaks(s: State, r: RuntimeId)
    requires Inv(s) && s.config && s.runtime == Some(r) && r in s.initialized && r in s.alive && s.activation.None?
    ensures var t := Apply(Activated(s, true), ShutdownBegin);
            var i := |s.bodies|;
            && Enabled(t, Advance(i, Fine))
            && var u := Advanced(t, i, Fine);
               && Enabled(u, Advance(i, Fine))
               && var v := Advanced(u, i, Fine);
                  && Enabled(v, ShutdownTake(t.generation))
                  && r in Apply(v, ShutdownTake(t.generation)).alive && !Owned(Apply(v, ShutdownTake(t.generation)), r)
  {
  }

  predicate Reaches(s: State, es: seq<Event>, t: State) { Runs(s, es) && Final(s, es) == t }

  lemma {:induction false} Extend(s: State, es: seq<Event>, t: State, e: Event)
    requires Reaches(s, es, t) && Enabled(t, e)
    ensures Reaches(s, es + [e], Apply(t, e))
    decreases es
  {
    hide Enabled; hide Apply;
    if es == [] {
      assert es + [e] == [e] && [e][1..] == [];
      assert Runs(Apply(t, e), []) && Final(Apply(t, e), []) == Apply(t, e);
    } else {
      Extend(Apply(s, es[0]), es[1..], t, e);
      assert (es + [e])[0] == es[0] && (es + [e])[1..] == es[1..] + [e];
    }
  }

  /** One more await of the first activation is over. */
  function Starting(stage: Stage): State {
    var created := stage != OrphanWait && stage != CreateWait;
    FRESH.(generation := 1, config := true, activation := Some(0), activationGeneration := Some(1),
           bodies := [Body(1, None, if created then Some(0) else None, stage)], created := if created then 1 else 0,
           alive := if created then {0} else {}, initialized := if stage == SettleWait || stage == HookWait then {0} else {},
           activating := if stage == HookWait then Some(0) else None)
  }

  function Started(): State {
    FRESH.(generation := 1, config := true, runtime := Some(0), everActivated := true, bodies := [Body(1, None, Some(0), Done)],
           created := 1, alive := {0}, initialized := {0})
  }

  lemma Activates()
    ensures Reaches(FRESH, [] + [Bootstrap(true)] + [Activate(false)], Starting(OrphanWait))
  {
    assert Reaches(FRESH, [], FRESH);
    Extend(FRESH, [], FRESH, Bootstrap(true));
    var t := Apply(FRESH, Bootstrap(true));
    Extend(FRESH, [] + [Bootstrap(true)], t, Activate(false));
    assert Activated(t, false).bodies == Starting(OrphanWait).bodies && Activated(t, false).alive == {};
  }

  function NextStage(stage: Stage): Stage {
    match stage
    case OrphanWait => CreateWait
    case CreateWait => InitWait
    case InitWait => SettleWait
    case SettleWait => HookWait
    case HookWait | FailHook | FailShutdown | Done => Done
  }

  lemma Continues(es: seq<Event>, stage: Stage)
    requires Reaches(FRESH, es, Starting(stage)) && (stage.OrphanWait? || stage.CreateWait? || stage.InitWait? || stage.SettleWait?)
    ensures Reaches(FRESH, es + [Advance(0, Fine)], Starting(NextStage(stage)))
  {
    hide Reaches;
    Extend(FRESH, es, Starting(stage), Advance(0, Fine));
    var t, u := Advanced(Starting(stage), 0, Fine), Starting(NextStage(stage));
    assert t.bodies == u.bodies && t.alive == u.alive && t.initialized == u.initialized;
  }

  function StartUp(): seq<Event> {
    [] + [Bootstrap(true)] + [Activate(false)] + [Advance(0, Fine)] + [Advance(0, Fine)] + [Advance(0, Fine)] + [Advance(0, Fine)]
      + [Advance(0, Fine)] + [Clear(0)]
  }

  lemma Installs(es: seq<Event>)
    requires Reaches(FRESH, es, Starting(HookWait))
    ensures Reaches(FRESH, es + [Advance(0, Fine)] + [Clear(0)], Started())
  {
    hide Reaches;
    var installed := Started().(activation := Some(0), activationGeneration := Some(1));
    Extend(FRESH, es, Starting(HookWait), Advance(0, Fine));
    assert Advanced(Starting(HookWait), 0, Fine).bodies == Started().bodies;
    Extend(FRESH, es + [Advance(0, Fine)], installed, Clear(0));
  }

  /** A fresh host that is bootstrapped and activated ends up with its runtime installed. */
  lemma StartUpRuns()
    ensures Reaches(FRESH, StartUp(), Started())
  {
    hide Reaches; hide Starting; hide Started;
    var es := [] + [Bootstrap(true)] + [Activate(false)];
    Activates();
    Continues(es, OrphanWait);
    Continues(es + [Advance(0, Fine)], CreateWait);
    Continues(es + [Advance(0, Fine)] + [Advance(0, Fine)], InitWait);
    Continues(es + [Advance(0, Fine)] + [Advance(0, Fine)] + [Advance(0, Fine)], SettleWait);
    Installs(es + [Advance(0, Fine)] + [Advance(0, Fine)] + [Advance(0, Fine)] + [Advance(0, Fine)]);
  }

  function LeakRun(): seq<Event> {
    StartUp() + [Activate(true)] + [ShutdownBegin] + [Advance(1, Fine)] + [Advance(1, Fine)] + [ShutdownTake(2)]
  }

  lemma ReinitializeAndShutDown()
    ensures Enabled(Apply(Activated(Started(), true), ShutdownBegin), Advance(1, Fine))
    ensures Reaches(FRESH, StartUp() + [Activate(true)] + [ShutdownBegin], Apply(Activated(Started(), true), ShutdownBegin))
  {
    hide Activated; hide Reaches; hide Owned; hide Advanced;
    StartUpRuns();
    ReinitializedGeneration();
    ReinitializeThenShutdownLeaks(Started(), 0);
    Extend(FRESH, StartUp(), Started(), Activate(true));
    Extend(FRESH, StartUp() + [Activate(true)], Activated(Started(), true), ShutdownBegin);
  }

  /** The whole run, from a fresh host to a live runtime that nobody owns. */
  lemma LeakHappens()
    ensures Runs(FRESH, LeakRun()) && 0 in Final(FRESH, LeakRun()).alive && !Owned(Final(FRESH, LeakRun()), 0)
  {
    hide Advanced; hide Owned; hide Activated; hide Runs; hide Final; hide StartUp;
    var t := Apply(Activated(Started(), true), ShutdownBegin);
    var es := StartUp() + [Activate(true)] + [ShutdownBegin];
    ReinitializedGeneration();
    ReinitializeThenShutdownLeaks(Started(), 0);
    ReinitializeAndShutDown();
    Extend(FRESH, es, t, Advance(1, Fine));
    Extend(FRESH, es + [Advance(1, Fine)], Advanced(t, 1, Fine), Advance(1, Fine));
    Extend(FRESH, es + [Advance(1, Fine)] + [Advance(1, Fine)], Advanced(Advanced(t, 1, Fine), 1, Fine), ShutdownTake(2));
  }

  lemma ReinitializedGeneration()
    ensures Inv(Started()) && Apply(Activated(Started(), true), ShutdownBegin).generation == 2
  {
  }

  // ----- a host that was shut down -----

  predicate Past(s: State) { forall i :: 0 <= i < |s.bodies| ==> s.bodies[i].generation <= s.generation }

  /** An activation that was not superseded and has not failed. */
  predicate Hopeful(b: Body, generation: nat) {
    b.generation == generation && !b.stage.Done? && !b.stage.FailHook? && !b.stage.FailShutdown?
  }

  /** A runtime is installed, or an activation at work may still install one. */
  predicate Coming(s: State) { s.runtime.Some? || exists i :: 0 <= i < |s.bodies| && Hopeful(s.bodies[i], s.generation) }

  predicate NoBootstrap(es: seq<Event>) { forall e :: e in es ==> !e.Bootstrap? }

  lemma StepKeepsPast(s: State, e: Event)
    requires Past(s) && Enabled(s, e)
    ensures Past(Apply(s, e))
  {
    if e.Advance? {
      assert NextBody(s.bodies[e.i], s.bodies[e.i].generation == s.generation, e.outcome, s.created).generation == s.bodies[e.i].generation;
    }
    hide NextBody;
  }

  lemma {:induction false} RunKeepsPast(s: State, es: seq<Event>)
    requires Past(s) && Runs(s, es)
    ensures Past(Final(s, es))
    decreases es
  {
    hide Past; hide Apply; hide Enabled;
    if es != [] {
      StepKeepsPast(s, es[0]);
      RunKeepsPast(Apply(s, es[0]), es[1..]);
    }
  }

  lemma HopelessStays(b: Body, current: bool, generation: nat, outcome: Outcome, newest: RuntimeId)
    requires !b.stage.Done? && !Hopeful(b, generation) && current == (b.generation == generation)
    ensures !Hopeful(NextBody(b, current, outcome, newest), generation)
    ensures !(b.stage == HookWait && NextBody(b, current, outcome, newest).stage == Done)
  {
  }

  lemma StaysDownStep(s: State, e: Event)
    requires Inv(s) && Past(s) && Enabled(s, e) && !s.config && !Coming(s) && !e.Bootstrap?
    ensures !Apply(s, e).config && !Coming(Apply(s, e))
  {
    if e.Advance? {
      HopelessStays(s.bodies[e.i], s.bodies[e.i].generation == s.generation, s.generation, e.outcome, s.created);
    }
    hide NextBody; hide Inv;
  }

  lemma {:induction false} StaysDown(s: State, es: seq<Event>)
    requires Inv(s) && Past(s) && Runs(s, es) && !s.config && !Coming(s) && NoBootstrap(es)
    ensures Final(s, es).runtime.None?
    decreases es
  {
    if es != [] {
      hide Inv; hide Past; hide Coming; hide Apply; hide Enabled;
      StaysDownStep(s, es[0]);
      StepKeepsInv(s, es[0]);
      StepKeepsPast(s, es[0]);
      StaysDown(Apply(s, es[0]), es[1..]);
    }
  }

  lemma HopefulAdvances(s: State, i: nat)
    requires Inv(s) && i < |s.bodies| && Hopeful(s.bodies[i], s.generation)
    ensures Enabled(s, Advance(i, Fine))
    ensures var t := Advanced(s, i, Fine); i < |t.bodies| && (t.runtime.Some? || Hopeful(t.bodies[i], t.generation))
  {
    assert BodyFits(s.bodies[i], s.created, s.alive);
    hide Single; hide Coherent;
  }

  lemma {:induction false} ComesUp(s: State, i: nat) returns (es: seq<Event>)
    requires Inv(s) && i < |s.bodies| && Hopeful(s.bodies[i], s.generation)
    ensures Runs(s, es) && NoBootstrap(es) && Final(s, es).runtime.Some?
    decreases Distance(s.bodies[i])
  {
    hide Inv; hide Hopeful; hide Advanced;
    HopefulAdvances(s, i);
    var t := Advanced(s, i, Fine);
    var rest: seq<Event> := [];
    if t.runtime.None? {
      StepKeepsInv(s, Advance(i, Fine));
      ActivationEnds(s, i, Fine);
      rest := ComesUp(t, i);
    }
    es := [Advance(i, Fine)] + rest;
    assert es[1..] == rest;
  }

  /** Without another bootstrap, a host in this state can still end up with a runtime. */
  ghost predicate ComesBack(s: State) { exists es :: Runs(s, es) && NoBootstrap(es) && Final(s, es).runtime.Some? }

  /** After the end of a shutdown the host stays down until it is bootstrapped again if and only if no
      activation began while the runtime was being shut down, or none of those can still succeed. */
  lemma StaysDownExactly(es: seq<Event>)
    requires Runs(FRESH, es) && Enabled(Final(FRESH, es), ShutdownEnd(Final(FRESH, es).generation))
    ensures var s := Final(FRESH, es); ComesBack(Apply(s, ShutdownEnd(s.generation))) <==> Coming(s)
  {
    hide Coming; hide Inv; hide Past; hide Runs; hide Final; hide Enabled;
    var s := Final(FRESH, es);
    FreshStarts();
    RunKeepsInv(FRESH, es);
    RunKeepsPast(FRESH, es) by { FreshIsPast(); }
    StepKeepsInv(s, ShutdownEnd(s.generation));
    StepKeepsPast(s, ShutdownEnd(s.generation));
    EndLeavesActivations(s);
    DownOrComing(Apply(s, ShutdownEnd(s.generation)));
  }

  lemma FreshIsPast()
    ensures Past(FRESH)
  {
  }

  lemma EndLeavesActivations(s: State)
    requires Enabled(s, ShutdownEnd(s.generation))
    ensures var t := Apply(s, ShutdownEnd(s.generation)); !t.config && (Coming(t) <==> Coming(s))
  {
  }

  lemma DownOrComing(t: State)
    requires Inv(t) && Past(t) && !t.config
    ensures ComesBack(t) <==> Coming(t)
  {
    hide Inv; hide Past; hide Hopeful;
    if Coming(t) {
      if t.runtime.Some? {
        assert Runs(t, []) && NoBootstrap([]);
      } else {
        var i :| 0 <= i < |t.bodies| && Hopeful(t.bodies[i], t.generation);
        var es := ComesUp(t, i);
      }
    } else if ComesBack(t) {
      var es :| Runs(t, es) && NoBootstrap(es) && Final(t, es).runtime.Some?;
      StaysDown(t, es);
      assert false;
    }
  }

  function LateActivation(): seq<Event> {
    StartUp() + [ShutdownBegin] + [ShutdownTake(2)] + [Activate(false)]
  }

  /** It happens: an activation that begins while a shutdown waits for the runtime to close outlives that
      shutdown, and installs a runtime although the host was shut down. */
  lemma LateActivationHappens()
    ensures Runs(FRESH, LateActivation())
    ensures var s := Final(FRESH, LateActivation());
            Enabled(s, ShutdownEnd(s.generation)) && ComesBack(Apply(s, ShutdownEnd(s.generation)))
  {
    hide Reaches; hide ComesBack;
    StartUpRuns();
    var t := Apply(Started(), ShutdownBegin);
    var u := Apply(t, ShutdownTake(2));
    var v := Activated(u, false);
    Extend(FRESH, StartUp(), Started(), ShutdownBegin);
    Extend(FRESH, StartUp() + [ShutdownBegin], t, ShutdownTake(2));
    Extend(FRESH, StartUp() + [ShutdownBegin] + [ShutdownTake(2)], u, Activate(false));
    LateIsComing(v);
    StaysDownExactly(LateActivation()) by { ReachesMeans(LateActivation(), v); }
    ReachesMeans(LateActivation(), v);
  }

  lemma LateIsComing(v: State)
    requires v == Activated(Apply(Apply(Started(), ShutdownBegin), ShutdownTake(2)), false)
    ensures v.generation == 2 && Enabled(v, ShutdownEnd(2)) && Coming(v)
  {
    assert Hopeful(v.bodies[1], 2);
  }

  lemma ReachesMeans(es: seq<Event>, t: State)
    requires Reaches(FRESH, es, t)
    ensures Runs(FRESH, es) && Final(FRESH, es) == t
  {
  }

  /** Which continuations show a runtime, and which install it. */
  lemma NextStages(b: Body, current: bool, outcome: Outcome, newest: RuntimeId)
    requires b.stage != Done
    ensures var n := NextBody(b, current, outcome, newest);
            && (n.stage == HookWait <==> b.stage == SettleWait && outcome.Fine? && current)
            && (b.stage == HookWait ==> (n.stage == Done <==> outcome.Fine? && current))
  {
  }

  // ----- the host state object -----

  class FabricState {
    var generation: nat
    var config: bool
    var runtime: Option<RuntimeId>
    var activatingRuntime: Option<RuntimeId>
    var everActivated: bool
    var activation: Option<nat>
    var activationGeneration: Option<nat>
    var bodies: seq<Body>
    var created: nat
    var initialized: set<RuntimeId>
    var alive: set<RuntimeId>
    var closing: map<nat, Option<nat>>
    var taken: set<nat>

    function Abs(): State
      reads this
    {
      State(generation, config, runtime, activatingRuntime, everActivated, activation, activationGeneration, bodies,
            created, initialized, alive, closing, taken)
    }

    constructor ()
      ensures Abs() == FRESH
    {
      generation, config, runtime, activatingRuntime, everActivated := 0, false, None, None, false;
      activation, activationGeneration, bodies := None, None, [];
      created, initialized, alive, closing, taken := 0, {}, {}, map[], {};
    }

    method OnBootstrap(loads: bool)
      modifies this
      ensures Abs() == Apply(old(Abs()), Bootstrap(loads))
    {
      generation := generation + 1;
      config := false;
      if loads { config := true; }
    }

    /** Joins or awaits the running activation, keeps the runtime, or starts a new activation. */
    method OnActivate(reinitialize: bool)
      modifies this
      ensures Abs() == Apply(old(Abs()), Activate(reinitialize))
    {
      if activation.Some? { return; }
      if runtime.Some? && runtime.value in initialized && !reinitialize { return; }
      if !config { return; }
      var existing := runtime;
      var reusable := if existing.Some? && existing.value in initialized then existing else None;
      runtime := None;
      if existing.Some? && existing.value !in initialized { alive := alive - {existing.value}; }
      activation, activationGeneration := Some(|bodies|), Some(generation);
      bodies := bodies + [Body(generation, reusable, None, OrphanWait)];
    }

    /** What an await that is over changes besides the activation itself. */
    method Effects(b: Body, outcome: Outcome, current: bool)
      requires b.stage != Done
      modifies `created, `alive, `initialized, `activatingRuntime, `runtime, `everActivated
      ensures created == (if b.stage == CreateWait && !outcome.Rejected? then old(created) + 1 else old(created))
      ensures alive == (if b.stage == CreateWait && !outcome.Rejected? then old(alive) + {old(created)}
                        else if b.stage == FailHook && b.candidate.Some? then old(alive) - {b.candidate.value} else old(alive))
      ensures initialized == (if b.stage == InitWait && !outcome.Rejected? && b.candidate.Some? then old(initialized) + {b.candidate.value}
                              else old(initialized))
      ensures var installs := b.stage == HookWait && outcome.Fine? && current;
              && activatingRuntime == (if b.stage == SettleWait && outcome.Fine? && current then b.candidate
                                       else if installs || (b.stage == FailHook && old(activatingRuntime) == b.candidate) then None
                                       else old(activatingRuntime))
              && runtime == (if installs then b.candidate
                             else if b.stage == FailShutdown && old(runtime) == b.candidate then None else old(runtime))
              && everActivated == (old(everActivated) || installs)
    {
      match b.stage
      case CreateWait => if !outcome.Rejected? { created, alive := created + 1, alive + {created}; }
      case InitWait => if !outcome.Rejected? && b.candidate.Some? { initialized := initialized + {b.candidate.value}; }
      case SettleWait => if outcome.Fine? && current { activatingRuntime := b.candidate; }
      case HookWait => if outcome.Fine? && current { runtime, activatingRuntime, everActivated := b.candidate, None, true; }
      case FailHook =>
        if activatingRuntime == b.candidate { activatingRuntime := None; }
        if b.candidate.Some? { alive := alive - {b.candidate.value}; }
      case FailShutdown => if runtime == b.candidate { runtime := None; }
      case OrphanWait =>
    }

    /** One continuation of the activation, up to its next await. */
    method OnAdvance(i: nat, outcome: Outcome)
      requires Enabled(Abs(), Advance(i, outcome))
      modifies this
      ensures Abs() == Apply(old(Abs()), Advance(i, outcome))
    {
      var b := bodies[i];
      var current := b.generation == generation;
      var next := NextBody(b, current, outcome, created);
      NextStages(b, current, outcome, created);
      hide NextBody;
      Effects(b, outcome, current);
      bodies := bodies[i := next];
    }

    method OnSettled(i: nat)
      requires Enabled(Abs(), Clear(i))
      modifies this
      ensures Abs() == Apply(old(Abs()), Clear(i))
    {
      if activation == Some(i) { activation, activationGeneration := None, None; }
    }

    method OnShutdown()
      modifies this
      ensures Abs() == Apply(old(Abs()), ShutdownBegin)
    {
      generation := generation + 1;
      closing := closing[generation := activation];
    }

    method OnShutdownTake(g: nat)
      requires Enabled(Abs(), ShutdownTake(g))
      modifies this
      ensures Abs() == Apply(old(Abs()), ShutdownTake(g))
    {
      closing := closing - {g};
      if g != generation { return; }
      if runtime.Some? { alive := alive - {runtime.value}; }
      runtime := None;
      taken := taken + {g};
    }

    method OnShutdownEnd(g: nat)
      requires Enabled(Abs(), ShutdownEnd(g))
      modifies this
      ensures Abs() == Apply(old(Abs()), ShutdownEnd(g))
    {
      taken := taken - {g};
      if g == generation { config, everActivated := false, false; }
    }
  }
}
