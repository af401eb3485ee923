/** What an uninterrupted, failure-free pass achieves, in closed form, and what follows: a pass that is
    cut anywhere and started again ends in the same world; a second pass has nothing to do; a finished
    rollout drains; and pausing leaves no trace. */
module Convergence {
  import opened Objects
  import opened Ledger
  import opened MachineDeployments
  import opened Protocol

  /** ---------- Running a pass to its end ---------- */

  function Rank(p: Pass): nat {
    match p
    case Loading => 30
    case Entering(_, step) =>
      (match step
       case SetProvisioning => 29
       case AddFinalizer => 28
       case Rendering => 27
       case SetFailed => 1
       case SetPaused => 1)
    case Ensuring(_, _, step) =>
      (match step
       case FindBMT => 26
       case MakeBMT => 25
       case FindKCT => 24
       case MakeKCT => 23
       case ReviseKCT(_) => 23
       case FindMD => 22
       case MakeMD => 21
       case ReviseMD(_) => 21
       case FindMHC => 20
       case MakeMHC(_) => 19
       case ReviseMHC(_, _) => 19
       case DropMHC => 19)
    case Settling(_, _, step) =>
      (match step
       case Track => 18
       case Check(_, _, _) => 17
       case Drop(_, _, _) => 17
       case Commit(_) => 1)
    case Tearing(_, step) =>
      (match step
       case SetDeleting => 26
       case FindHealthCheck => 25
       case DeleteHealthCheck => 24
       case FindDeployment => 23
       case DeleteDeployment => 22
       case DeleteOld(_, _, _) => 20
       case DropFinalizer(_) => 1)
  }

  function Length(p: Pass): nat {
    if p.Settling? && p.settle.Check? then 2 * |p.settle.todo| + 1
    else if p.Settling? && p.settle.Drop? then 2 * |p.settle.todo|
    else if p.Tearing? && p.tear.DeleteOld? then |p.tear.todo|
    else 0
  }

  lemma {:induction false} TeardownShrinks(seen: Claim, todo: seq<Ref>, tried: set<Ref>)
    ensures Rank(Teardown(seen, todo, tried)) <= 20
    ensures Rank(Teardown(seen, todo, tried)) == 20 ==> Length(Teardown(seen, todo, tried)) < |todo|
  {
    if todo != [] && todo[0].kind.OtherKind? {
      TeardownShrinks(seen, todo[1..], tried);
    }
  }

  lemma PassShrinks(p: Pass, r: Reply, now: int)
    requires Resume(p, r, now).Some?
    ensures var p' := Resume(p, r, now).value; Rank(p') < Rank(p) || (Rank(p') == Rank(p) && Length(p') < Length(p))
  {
    if p.Tearing? && p.tear.FindDeployment? {
      TeardownShrinks(p.seen, TeardownList(p.seen.status), {});
    } else if p.Tearing? && p.tear.DeleteOld? {
      TeardownShrinks(p.seen, p.tear.todo, p.tear.tried + {p.tear.ref});
    }
    hide Teardown, NeedsUpdate, HashChanged, DesiredHealthCheck, RolloutComplete;
  }

  /** The world once the pass has run to its end, with nothing failing and nobody interfering. */
  function Finished(w: World, p: Pass): World
    decreases Rank(p), Length(p)
  {
    var served := Apply(w, Next(p));
    var after := Resume(p, served.reply, w.now);
    if after.None? then served.world
    else
      PassShrinks(p, served.reply, w.now);
      Finished(served.world, after.value)
  }

  /** ---------- The world a pass aims at ---------- */

  /** Both templates of the plan exist, and the KubeadmConfigTemplate has the rendered content. */
  function EnsuredTemplates(templates: map<Ref, Template>, plan: Plan, now: int): map<Ref, Template> {
    var bmt, kct := Ref(BMT, plan.names.bmt), Ref(KCT, plan.names.kct);
    var t := if bmt in templates then templates else templates[bmt := Template(plan.bmtSpec, true, now)];
    t[kct := if kct in t then t[kct].(spec := plan.kctSpec) else Template(plan.kctSpec, true, now)]
  }

  /** The managed objects are as the claim asks. */
  function EnsuredWorld(w: World, spec: Spec, plan: Plan): World {
    w.(templates := EnsuredTemplates(w.templates, plan, w.now),
       md := Some(Ensured(w.md, Desired(spec, plan.labels, plan.names))),
       mhc := DesiredHealthCheck(spec))
  }

  /** A retired reference stays on the list while a MachineSet uses it. */
  predicate StillNeeded(sets: set<MachineSet>, ref: Ref) {
    ref in SetRefs(sets) || ref.kind.OtherKind?
  }

  function Kept(pending: seq<Ref>, sets: set<MachineSet>): seq<Ref> {
    if pending == [] then []
    else (if StillNeeded(sets, pending[0]) then [pending[0]] else []) + Kept(pending[1..], sets)
  }

  function Dropped(pending: seq<Ref>, sets: set<MachineSet>): set<Ref> {
    set r | r in pending && !StillNeeded(sets, r)
  }

  function WithStatus(w: World, c: Claim, st: Status): World {
    w.(claim := Some(c.(status := st)))
  }

  /** How the rollout stands once all objects are ensured. */
  function SettledWorld(w: World, c: Claim, plan: Plan): World
    requires w.md.Some?
  {
    if HashChanged(c.status, plan.names) then WithStatus(w, c, StartedStatus(c.status, plan.names, w.now))
    else if c.status.pending == [] then WithStatus(w, c, ReadyStatus(c.status, plan.names))
    else if RolloutComplete(w.md.value) then
      WithStatus(w.(templates := w.templates - Dropped(c.status.pending, w.sets)), c,
                 SweptStatus(c.status, plan.names, Kept(c.status.pending, w.sets)))
    else WithStatus(w, c, WaitingStatus(c.status, plan.names, c.spec.rolloutTimeout, w.now))
  }

  /** The claim with its finalizer, and with a first phase if it had none. */
  function Adopted(c: Claim): Claim {
    if c.finalizer then c
    else c.(finalizer := true, status := if c.status.phase == NoPhase then ProvisioningStatus(c.status) else c.status)
  }

  /** What a teardown deletes once the deployment is gone. */
  function Doomed(st: Status): set<Ref> {
    set r | r in TeardownList(st) && !r.kind.OtherKind?
  }

  function TornDown(w: World, c: Claim): World {
    var w1 := WithStatus(w, c, DeletingStatus(c.status)).(mhc := None);
    if w.md.Some? then w1.(md := Some(w.md.value.(terminating := true)))
    else w1.(claim := None, templates := w.templates - Doomed(c.status))
  }

  /** The aim of a pass over an adopted, live claim. */
  function LiveGoal(w: World, c: Claim): World {
    match w.rendering
    case RenderFailed => WithStatus(w, c, FailedStatus(c.status))
    case Rendered(plan) => SettledWorld(EnsuredWorld(w, c.spec, plan), c, plan)
  }

  function Goal(w: World): World {
    if w.claim.None? then w
    else
      var c := w.claim.value;
      if c.deleting then (if c.finalizer then TornDown(w, c) else w)
      else if c.paused then (if c.status.phase == Paused then w else WithStatus(w, c, PausedStatus(c.status)))
      else LiveGoal(w, Adopted(c))
  }

  /** ---------- Where a quiet pass can stand ---------- */

  predicate Live(w: World, seen: Claim) {
    w.claim == Some(seen) && !seen.deleting && !seen.paused && LedgerOk(seen.status)
  }

  predicate EntryOnTrack(w: World, seen: Claim, step: EntryStep) {
    && w.claim == Some(seen) && !seen.deleting && LedgerOk(seen.status)
    && match step
       case SetProvisioning => !seen.paused && !seen.finalizer && seen.status.phase == NoPhase
       case AddFinalizer => !seen.paused && !seen.finalizer && seen.status.phase != NoPhase
       case Rendering => !seen.paused && seen.finalizer
       case SetFailed => !seen.paused && seen.finalizer && w.rendering.RenderFailed?
       case SetPaused => seen.paused && seen.status.phase != Paused
  }

  predicate BMTReady(w: World, plan: Plan) {
    Ref(BMT, plan.names.bmt) in w.templates
  }

  predicate KCTReady(w: World, plan: Plan) {
    Ref(KCT, plan.names.kct) in w.templates && w.templates[Ref(KCT, plan.names.kct)].spec == plan.kctSpec
  }

  predicate MDReady(w: World, seen: Claim, plan: Plan) {
    w.md.Some? && !NeedsUpdate(Desired(seen.spec, plan.labels, plan.names), w.md.value)
  }

  predicate EnsureOnTrack(w: World, seen: Claim, plan: Plan, step: EnsureStep) {
    var kct := Ref(KCT, plan.names.kct);
    var bmtDone := !step.FindBMT? && !step.MakeBMT?;
    var kctDone := bmtDone && !step.FindKCT? && !step.MakeKCT? && !step.ReviseKCT?;
    var mdDone := kctDone && !step.FindMD? && !step.MakeMD? && !step.ReviseMD?;
    && Live(w, seen) && seen.finalizer && w.rendering == Rendered(plan)
    && (bmtDone ==> BMTReady(w, plan)) && (kctDone ==> KCTReady(w, plan)) && (mdDone ==> MDReady(w, seen, plan))
    && match step
       case MakeBMT => Ref(BMT, plan.names.bmt) !in w.templates
       case MakeKCT => kct !in w.templates
       case ReviseKCT(t) => kct in w.templates && w.templates[kct] == t && t.spec != plan.kctSpec
       case MakeMD => w.md.None?
       case ReviseMD(stored) =>
         w.md == Some(stored) && NeedsUpdate(Desired(seen.spec, plan.labels, plan.names), stored)
       case MakeMHC(wanted) => w.mhc.None? && DesiredHealthCheck(seen.spec) == Some(wanted)
       case ReviseMHC(found, wanted) =>
         w.mhc == Some(found) && DesiredHealthCheck(seen.spec) == Some(wanted) && found != wanted
       case DropMHC => w.mhc.Some? && DesiredHealthCheck(seen.spec) == None
       case _ => true
  }

  /** All objects are ensured; the claim still has the status that was read. */
  predicate AllReady(w: World, seen: Claim, plan: Plan) {
    && Live(w, seen) && seen.finalizer && w.rendering == Rendered(plan)
    && BMTReady(w, plan) && KCTReady(w, plan) && MDReady(w, seen, plan) && w.mhc == DesiredHealthCheck(seen.spec)
  }

  /** The sweep of the pending list has `rest` still to come: what it dropped is deleted. */
  predicate SweepOnTrack(w: World, seen: Claim, plan: Plan, rest: seq<Ref>, kept: seq<Ref>) {
    var pending := seen.status.pending;
    && AllReady(w, seen, plan) && !HashChanged(seen.status, plan.names) && RolloutComplete(w.md.value)
    && pending != [] && |rest| <= |pending|
    && var n := |pending| - |rest|;
       && pending[n..] == rest
       && kept == Kept(pending[..n], w.sets)
       && Dropped(pending[..n], w.sets) !! w.templates.Keys
  }

  predicate SettleOnTrack(w: World, seen: Claim, plan: Plan, step: SettleStep) {
    && AllReady(w, seen, plan)
    && match step
       case Track => !HashChanged(seen.status, plan.names) && seen.status.pending != []
       case Check(ref, todo, kept) => SweepOnTrack(w, seen, plan, [ref] + todo, kept)
       case Drop(ref, todo, kept) => SweepOnTrack(w, seen, plan, [ref] + todo, kept) && !StillNeeded(w.sets, ref)
       case Commit(next) => Goal(w) == WithStatus(w, seen, next)
  }

  /** A teardown that has `rest` still to delete. */
  predicate TearRestOnTrack(w: World, seen: Claim, rest: seq<Ref>) {
    var all := TeardownList(seen.status);
    && w.mhc.None? && w.md.None? && seen.status.phase == Deleting
    && (forall r | r in rest :: r in all)
    && forall r | r in all :: r in rest || r.kind.OtherKind? || r !in w.templates
  }

  predicate TearOnTrack(w: World, seen: Claim, step: TearStep) {
    && w.claim == Some(seen) && seen.deleting && seen.finalizer && LedgerOk(seen.status)
    && match step
       case SetDeleting => seen.status.phase != Deleting
       case FindHealthCheck => seen.status.phase == Deleting
       case DeleteHealthCheck => seen.status.phase == Deleting && w.mhc.Some?
       case FindDeployment => seen.status.phase == Deleting && w.mhc.None?
       case DeleteDeployment => seen.status.phase == Deleting && w.mhc.None? && w.md.Some?
       case DeleteOld(ref, todo, _) =>
         TearRestOnTrack(w, seen, [ref] + todo) && ref in Doomed(seen.status)
       case DropFinalizer(_) => TearRestOnTrack(w, seen, [])
  }

  predicate OnTrack(w: World, p: Pass) {
    match p
    case Loading => w.claim.Some? ==> LedgerOk(w.claim.value.status)
    case Entering(seen, step) => EntryOnTrack(w, seen, step)
    case Ensuring(seen, plan, step) => EnsureOnTrack(w, seen, plan, step)
    case Settling(seen, plan, step) => SettleOnTrack(w, seen, plan, step)
    case Tearing(seen, step) => TearOnTrack(w, seen, step)
  }

  /** The next call of a quiet pass ends the pass where the closed form says, or goes on without
      changing where a pass would end that started afresh. */
  predicate StaysOnTrack(w: World, p: Pass) {
    var served := Apply(w, Next(p));
    var after := Resume(p, served.reply, w.now);
    && (after.Some? ==> OnTrack(served.world, after.value) && Goal(served.world) == Goal(w))
    && (after.None? ==> served.world == Goal(w))
  }

  lemma LoadOnTrack(w: World)
    requires OnTrack(w, Loading)
    ensures StaysOnTrack(w, Loading)
  {
    hide LedgerOk;
  }

  /** The stored claim is overwritten, so only the claim the pass works with matters. */
  lemma StoredClaimIsOverwritten(w: World, claim: Option<Claim>, c: Claim, plan: Plan)
    ensures SettledWorld(EnsuredWorld(w.(claim := claim), c.spec, plan), c, plan) ==
            SettledWorld(EnsuredWorld(w, c.spec, plan), c, plan)
  {
  }

  lemma EntryStaysOnTrack(w: World, seen: Claim, step: EntryStep)
    requires OnTrack(w, Entering(seen, step))
    ensures StaysOnTrack(w, Entering(seen, step))
  {
    if w.rendering.Rendered? {
      StoredClaimIsOverwritten(w, Apply(w, NextEntry(seen, step)).world.claim, Adopted(seen), w.rendering.plan);
    }
    hide LedgerOk, EnsuredWorld, SettledWorld;
  }

  /** A step towards the templates leads to the same templates. */
  lemma TemplatesComeOutTheSame(w: World, seen: Claim, plan: Plan, step: EnsureStep)
    requires OnTrack(w, Ensuring(seen, plan, step)) && EnsuresTemplates(step)
    ensures var w' := Apply(w, NextEnsure(seen, plan, step)).world;
            && w' == w.(templates := w'.templates)
            && EnsuredTemplates(w'.templates, plan, w.now) == EnsuredTemplates(w.templates, plan, w.now)
  {
    hide LedgerOk, Desired, NeedsUpdate;
  }

  lemma TemplatesStayOnTrack(w: World, seen: Claim, plan: Plan, step: EnsureStep)
    requires OnTrack(w, Ensuring(seen, plan, step)) && EnsuresTemplates(step)
    ensures StaysOnTrack(w, Ensuring(seen, plan, step))
  {
    TemplatesComeOutTheSame(w, seen, plan, step);
    hide LedgerOk, SettledWorld, EnsuredTemplates, Desired, NeedsUpdate, Ensured;
  }

  /** A step towards the deployment leads to the same deployment. */
  lemma DeploymentComesOutTheSame(w: World, seen: Claim, plan: Plan, step: EnsureStep)
    requires OnTrack(w, Ensuring(seen, plan, step)) && (step.FindMD? || step.MakeMD? || step.ReviseMD?)
    ensures var w' := Apply(w, NextEnsure(seen, plan, step)).world;
            var desired := Desired(seen.spec, plan.labels, plan.names);
            && w' == w.(md := w'.md) && Ensured(w'.md, desired) == Ensured(w.md, desired)
            && (!step.FindMD? ==> w'.md.Some? && !NeedsUpdate(desired, w'.md.value))
  {
    hide LedgerOk, Desired, SameTemplates, SameInPlace;
  }

  /** Worlds that the ensuring steps take to the same world have the same goal. */
  lemma SameGoal(w: World, w': World, seen: Claim, plan: Plan)
    requires Live(w, seen) && seen.finalizer && w.rendering == Rendered(plan)
    requires w'.claim == w.claim && w'.rendering == w.rendering
    requires EnsuredWorld(w', seen.spec, plan) == EnsuredWorld(w, seen.spec, plan)
    ensures Goal(w') == Goal(w)
  {
    hide LedgerOk, SettledWorld, EnsuredWorld;
  }

  lemma DeploymentGoesOn(w: World, seen: Claim, plan: Plan, step: EnsureStep)
    requires OnTrack(w, Ensuring(seen, plan, step)) && (step.FindMD? || step.MakeMD? || step.ReviseMD?)
    ensures var served := Apply(w, NextEnsure(seen, plan, step));
            var after := Resume(Ensuring(seen, plan, step), served.reply, w.now);
            after.Some? && OnTrack(served.world, after.value)
  {
    DeploymentComesOutTheSame(w, seen, plan, step);
    hide LedgerOk, Desired, NeedsUpdate, Merge, Ensured;
  }

  lemma DeploymentStaysOnTrack(w: World, seen: Claim, plan: Plan, step: EnsureStep)
    requires OnTrack(w, Ensuring(seen, plan, step)) && (step.FindMD? || step.MakeMD? || step.ReviseMD?)
    ensures StaysOnTrack(w, Ensuring(seen, plan, step))
  {
    var w' := Apply(w, NextEnsure(seen, plan, step)).world;
    DeploymentComesOutTheSame(w, seen, plan, step);
    DeploymentGoesOn(w, seen, plan, step);
    hide Apply, NextEnsure, Resume, Goal, LedgerOk, EnsuredTemplates, Desired, NeedsUpdate, Ensured;
    assert EnsuredWorld(w', seen.spec, plan) == EnsuredWorld(w, seen.spec, plan);
    SameGoal(w, w', seen, plan);
  }

  /** Nothing is left to ensure. */
  lemma ReadyIsEnsured(w: World, seen: Claim, plan: Plan)
    requires AllReady(w, seen, plan)
    ensures Goal(w) == SettledWorld(w, seen, plan)
  {
    assert EnsuredTemplates(w.templates, plan, w.now) == w.templates;
    hide LedgerOk, SettledWorld, Desired, NeedsUpdate, EnsuredTemplates, DesiredHealthCheck;
    assert EnsuredWorld(w, seen.spec, plan) == w;
  }

  lemma FinishOnTrack(w: World, seen: Claim, plan: Plan)
    requires AllReady(w, seen, plan)
    ensures OnTrack(w, Finish(seen, plan, w.now))
  {
    ReadyIsEnsured(w, seen, plan);
    hide Goal, LedgerOk, BMTReady, KCTReady, NeedsUpdate, DesiredHealthCheck;
  }

  lemma FindMHCStaysOnTrack(w: World, seen: Claim, plan: Plan)
    requires OnTrack(w, Ensuring(seen, plan, FindMHC))
    ensures StaysOnTrack(w, Ensuring(seen, plan, FindMHC))
  {
    if w.mhc == DesiredHealthCheck(seen.spec) {
      FinishOnTrack(w, seen, plan);
    }
    hide Goal, LedgerOk, NeedsUpdate, DesiredHealthCheck, SettleOnTrack, Finish;
  }

  lemma HealthCheckWritten(w: World, seen: Claim, plan: Plan, step: EnsureStep)
    requires OnTrack(w, Ensuring(seen, plan, step)) && (step.MakeMHC? || step.ReviseMHC? || step.DropMHC?)
    ensures var served := Apply(w, NextEnsure(seen, plan, step));
            && served.world == w.(mhc := DesiredHealthCheck(seen.spec)) && AllReady(served.world, seen, plan)
            && Resume(Ensuring(seen, plan, step), served.reply, w.now) == Some(Finish(seen, plan, w.now))
  {
    hide LedgerOk, Desired, NeedsUpdate, DesiredHealthCheck, Finish;
  }

  lemma HealthCheckStaysOnTrack(w: World, seen: Claim, plan: Plan, step: EnsureStep)
    requires OnTrack(w, Ensuring(seen, plan, step)) && (step.MakeMHC? || step.ReviseMHC? || step.DropMHC?)
    ensures StaysOnTrack(w, Ensuring(seen, plan, step))
  {
    HealthCheckWritten(w, seen, plan, step);
    hide Apply, NextEnsure, Resume, LedgerOk, Goal, Desired, NeedsUpdate, DesiredHealthCheck, Finish, SettleOnTrack;
    var w' := w.(mhc := DesiredHealthCheck(seen.spec));
    FinishOnTrack(w', seen, plan);
    assert EnsuredWorld(w', seen.spec, plan) == EnsuredWorld(w, seen.spec, plan);
    SameGoal(w, w', seen, plan);
  }

  lemma {:induction false} KeptSplits(a: seq<Ref>, b: seq<Ref>, sets: set<MachineSet>)
    ensures Kept(a + b, sets) == Kept(a, sets) + Kept(b, sets)
  {
    hide StillNeeded;
    if a == [] {
      assert a + b == b;
    } else {
      var first := if StillNeeded(sets, a[0]) then [a[0]] else [];
      assert (a + b)[0] == a[0] && (a + b)[1..] == a[1..] + b;
      KeptSplits(a[1..], b, sets);
      assert Kept(a + b, sets) == first + Kept(a[1..] + b, sets);
      assert first + (Kept(a[1..], sets) + Kept(b, sets)) == first + Kept(a[1..], sets) + Kept(b, sets);
    }
  }

  /** A sweep at its end commits what the closed form says. */
  lemma SweepStaysOnTrack(w: World, seen: Claim, plan: Plan, rest: seq<Ref>, kept: seq<Ref>)
    requires SweepOnTrack(w, seen, plan, rest, kept)
    ensures OnTrack(w, Sweep(seen, plan, rest, kept))
  {
    if rest == [] {
      var pending := seen.status.pending;
      assert pending[..|pending|] == pending;
      assert w.templates - Dropped(pending, w.sets) == w.templates;
      ReadyIsEnsured(w, seen, plan);
    } else {
      assert [rest[0]] + rest[1..] == rest;
    }
    hide Goal, LedgerOk, EnsuredTemplates, NeedsUpdate, Dropped, Kept, BMTReady, KCTReady, MDReady;
  }

  lemma TrackStaysOnTrack(w: World, seen: Claim, plan: Plan)
    requires OnTrack(w, Settling(seen, plan, Track))
    ensures StaysOnTrack(w, Settling(seen, plan, Track))
  {
    ReadyIsEnsured(w, seen, plan);
    if RolloutComplete(w.md.value) {
      var pending := seen.status.pending;
      assert pending[0..] == pending && pending[..0] == [];
      SweepStaysOnTrack(w, seen, plan, pending, []);
    }
    hide Goal, LedgerOk, NeedsUpdate, RolloutComplete, Sweep, WaitingStatus, BMTReady, KCTReady;
  }

  /** The reference in hand is still needed and stays on the list. */
  lemma SweepKeepsOne(w: World, seen: Claim, plan: Plan, ref: Ref, todo: seq<Ref>, kept: seq<Ref>)
    requires SweepOnTrack(w, seen, plan, [ref] + todo, kept) && StillNeeded(w.sets, ref)
    ensures SweepOnTrack(w, seen, plan, todo, kept + [ref])
  {
    var pending := seen.status.pending;
    var n := |pending| - |todo| - 1;
    assert pending[n..] == [ref] + todo;
    assert pending[n] == ref && pending[n + 1..] == todo;
    assert pending[..n + 1] == pending[..n] + [ref];
    KeptSplits(pending[..n], [ref], w.sets);
    assert Kept([ref], w.sets) == [ref];
    hide AllReady, RolloutComplete, HashChanged, StillNeeded, Kept;
  }

  /** The reference in hand is not needed; with its template deleted it leaves the list. */
  lemma SweepDropsOne(w: World, seen: Claim, plan: Plan, ref: Ref, todo: seq<Ref>, kept: seq<Ref>)
    requires SweepOnTrack(w, seen, plan, [ref] + todo, kept) && !StillNeeded(w.sets, ref)
    ensures var w' := w.(templates := w.templates - {ref});
            SweepOnTrack(w', seen, plan, todo, kept) && Goal(w') == Goal(w)
  {
    var w' := w.(templates := w.templates - {ref});
    var pending := seen.status.pending;
    var n := |pending| - |todo| - 1;
    assert pending[n..] == [ref] + todo;
    assert pending[n] == ref && pending[n + 1..] == todo;
    assert pending[..n + 1] == pending[..n] + [ref];
    KeptSplits(pending[..n], [ref], w.sets);
    assert ref in pending && ref in Dropped(pending, w.sets);
    assert AllReady(w', seen, plan);
    assert w'.templates - Dropped(pending, w.sets) == w.templates - Dropped(pending, w.sets);
    hide RolloutComplete, HashChanged, StillNeeded, NeedsUpdate, Goal, Kept, Dropped;
    ReadyIsEnsured(w, seen, plan);
    ReadyIsEnsured(w', seen, plan);
  }

  lemma CheckStaysOnTrack(w: World, seen: Claim, plan: Plan, ref: Ref, todo: seq<Ref>, kept: seq<Ref>)
    requires OnTrack(w, Settling(seen, plan, Check(ref, todo, kept)))
    ensures StaysOnTrack(w, Settling(seen, plan, Check(ref, todo, kept)))
  {
    hide Goal, AllReady, SweepOnTrack, Sweep;
    if StillNeeded(w.sets, ref) {
      SweepKeepsOne(w, seen, plan, ref, todo, kept);
      SweepStaysOnTrack(w, seen, plan, todo, kept + [ref]);
    }
  }

  lemma DropStaysOnTrack(w: World, seen: Claim, plan: Plan, ref: Ref, todo: seq<Ref>, kept: seq<Ref>)
    requires OnTrack(w, Settling(seen, plan, Drop(ref, todo, kept)))
    ensures StaysOnTrack(w, Settling(seen, plan, Drop(ref, todo, kept)))
  {
    hide Goal, AllReady, SweepOnTrack, Sweep;
    SweepDropsOne(w, seen, plan, ref, todo, kept);
    var w' := w.(templates := w.templates - {ref});
    SweepStaysOnTrack(w', seen, plan, todo, kept);
    if ref !in w.templates {
      assert w' == w;
    }
  }

  lemma CommitStaysOnTrack(w: World, seen: Claim, plan: Plan, next: Status)
    requires OnTrack(w, Settling(seen, plan, Commit(next)))
    ensures StaysOnTrack(w, Settling(seen, plan, Commit(next)))
  {
    hide Goal, LedgerOk, BMTReady, KCTReady, MDReady;
  }

  lemma TeardownListSkips(w: World, seen: Claim, todo: seq<Ref>, tried: set<Ref>)
    requires w.claim == Some(seen) && seen.deleting && seen.finalizer && LedgerOk(seen.status)
    requires TearRestOnTrack(w, seen, todo)
    ensures OnTrack(w, Teardown(seen, todo, tried))
  {
    if todo != [] {
      assert todo == [todo[0]] + todo[1..];
      if todo[0].kind.OtherKind? {
        TeardownListSkips(w, seen, todo[1..], tried);
      }
    }
  }

  lemma TearStaysOnTrack(w: World, seen: Claim, step: TearStep)
    requires OnTrack(w, Tearing(seen, step)) && !step.DeleteOld? && !step.DropFinalizer?
    ensures StaysOnTrack(w, Tearing(seen, step))
  {
    if step.FindDeployment? && w.md.None? {
      TeardownListSkips(w, seen, TeardownList(seen.status), {});
    }
    hide Teardown, TeardownList, LedgerOk, Doomed;
  }

  lemma LettingGoStaysOnTrack(w: World, seen: Claim, step: TearStep)
    requires OnTrack(w, Tearing(seen, step)) && step.DropFinalizer?
    ensures StaysOnTrack(w, Tearing(seen, step))
  {
    assert w.templates - Doomed(seen.status) == w.templates;
    hide TeardownList, LedgerOk;
  }

  lemma DeleteOldStaysOnTrack(w: World, seen: Claim, step: TearStep)
    requires OnTrack(w, Tearing(seen, step)) && step.DeleteOld?
    ensures StaysOnTrack(w, Tearing(seen, step))
  {
    var w' := Apply(w, DeleteTemplate(step.ref)).world;
    assert step.ref in [step.ref] + step.todo;
    assert forall r | r in step.todo :: r in [step.ref] + step.todo;
    assert w'.templates == w.templates - {step.ref};
    assert w'.templates - Doomed(seen.status) == w.templates - Doomed(seen.status);
    assert TearRestOnTrack(w', seen, step.todo);
    TeardownListSkips(w', seen, step.todo, step.tried + {step.ref});
    hide Teardown, TeardownList, LedgerOk, Doomed, TearRestOnTrack;
  }

  lemma QuietCallStaysOnTrack(w: World, p: Pass)
    requires OnTrack(w, p)
    ensures StaysOnTrack(w, p)
  {
    hide OnTrack, StaysOnTrack;
    match p
    case Loading => LoadOnTrack(w);
    case Entering(seen, step) => EntryStaysOnTrack(w, seen, step);
    case Ensuring(seen, plan, step) =>
      if step.FindMD? || step.MakeMD? || step.ReviseMD? { DeploymentStaysOnTrack(w, seen, plan, step); }
      else if step.FindMHC? { FindMHCStaysOnTrack(w, seen, plan); }
      else if step.MakeMHC? || step.ReviseMHC? || step.DropMHC? { HealthCheckStaysOnTrack(w, seen, plan, step); }
      else { TemplatesStayOnTrack(w, seen, plan, step); }
    case Settling(seen, plan, step) =>
      match step {
        case Track => TrackStaysOnTrack(w, seen, plan);
        case Check(ref, todo, kept) => CheckStaysOnTrack(w, seen, plan, ref, todo, kept);
        case Drop(ref, todo, kept) => DropStaysOnTrack(w, seen, plan, ref, todo, kept);
        case Commit(next) => CommitStaysOnTrack(w, seen, plan, next);
      }
    case Tearing(seen, step) =>
      if step.DeleteOld? { DeleteOldStaysOnTrack(w, seen, step); }
      else if step.DropFinalizer? { LettingGoStaysOnTrack(w, seen, step); }
      else { TearStaysOnTrack(w, seen, step); }
  }

  /** An uninterrupted pass ends in the closed form, from wherever it stands. */
  lemma {:induction false} PassReachesGoal(w: World, p: Pass)
    requires OnTrack(w, p)
    ensures Finished(w, p) == Goal(w)
    decreases Rank(p), Length(p)
  {
    QuietCallStaysOnTrack(w, p);
    var served := Apply(w, Next(p));
    var after := Resume(p, served.reply, w.now);
    hide Goal, OnTrack, Apply, Next, Resume;
    if after.Some? {
      PassShrinks(p, served.reply, w.now);
      PassReachesGoal(served.world, after.value);
    }
  }

  datatype Cut = Cut(world: World, pass: Option<Pass>)

  /** The world and the pass after `calls` calls of a quiet pass. */
  function After(w: World, calls: nat): Cut {
    if calls == 0 then Cut(w, Some(Loading))
    else
      var before := After(w, calls - 1);
      if before.pass.None? then before
      else
        var served := Apply(before.world, Next(before.pass.value));
        Cut(served.world, Resume(before.pass.value, served.reply, before.world.now))
  }

  lemma {:induction false} CutStaysOnTrack(w: World, calls: nat)
    requires OnTrack(w, Loading) && After(w, calls).pass.Some?
    ensures OnTrack(After(w, calls).world, After(w, calls).pass.value)
    ensures Goal(After(w, calls).world) == Goal(w)
  {
    if calls > 0 {
      CutStaysOnTrack(w, calls - 1);
      var before := After(w, calls - 1);
      QuietCallStaysOnTrack(before.world, before.pass.value);
    }
    hide Goal, OnTrack, Apply, Next, Resume;
  }

  lemma OnTrackKeepsLedger(w: World, p: Pass)
    requires OnTrack(w, p)
    ensures OnTrack(w, Loading)
  {
  }

  /** A quiet pass over `w` comes, at some point, to `cut`. */
  ghost predicate Reaches(w: World, cut: Cut) {
    exists calls: nat :: After(w, calls) == cut
  }

  /** A quiet pass over `w` ends in `after`. */
  ghost predicate Ends(w: World, after: World) {
    Reaches(w, Cut(after, None))
  }

  lemma {:induction false} AfterFollows(w: World, calls: nat)
    ensures var cut := After(w, calls);
            Finished(w, Loading) == if cut.pass.None? then cut.world else Finished(cut.world, cut.pass.value)
  {
    hide Apply, Next, Resume;
    if calls > 0 {
      AfterFollows(w, calls - 1);
    }
  }

  lemma {:induction false} PassEnds(w: World, calls: nat)
    requires After(w, calls).pass.Some?
    ensures exists end: nat :: After(w, end).pass.None?
    decreases Rank(After(w, calls).pass.value), Length(After(w, calls).pass.value)
  {
    hide Apply, Next, Resume, Rank, Length;
    var at := After(w, calls);
    var served := Apply(at.world, Next(at.pass.value));
    assert After(w, calls + 1) == Cut(served.world, Resume(at.pass.value, served.reply, at.world.now));
    if After(w, calls + 1).pass.Some? {
      PassShrinks(at.pass.value, served.reply, at.world.now);
      PassEnds(w, calls + 1);
    }
  }

  /** Every quiet pass ends, in exactly one world. */
  lemma EndsInFinished(w: World, after: World)
    ensures Ends(w, after) <==> after == Finished(w, Loading)
  {
    PassEnds(w, 0);
    var end: nat :| After(w, end).pass.None?;
    AfterFollows(w, end);
    if Ends(w, after) {
      var calls: nat :| After(w, calls) == Cut(after, None);
      AfterFollows(w, calls);
    }
    hide After, Finished;
    if after == Finished(w, Loading) {
      assert After(w, end) == Cut(after, None);
    }
  }

  /** A pass that dies after any number of calls, with its status not yet written, and is started again at
      once, ends in exactly the world in which the uncut pass would have ended. */
  lemma RestartEndsTheSame(w: World, calls: nat, end: World)
    requires w.claim.Some? ==> LedgerOk(w.claim.value.status)
    requires After(w, calls).pass.Some? && Ends(w, end)
    ensures Ends(After(w, calls).world, end)
  {
    var cut := After(w, calls);
    CutStaysOnTrack(w, calls);
    OnTrackKeepsLedger(cut.world, cut.pass.value);
    hide Goal, After, Finished, Ends;
    assert OnTrack(w, Loading);
    hide OnTrack;
    PassReachesGoal(w, Loading);
    PassReachesGoal(cut.world, Loading);
    EndsInFinished(w, end);
    EndsInFinished(cut.world, end);
  }

  /** ---------- While the clock runs ---------- */

  /** The claims agree on everything but phase, conditions and the time the rollout started. */
  predicate SameClaim(a: Option<Claim>, b: Option<Claim>) {
    && (a.Some? <==> b.Some?)
    && (a.Some? ==>
          && a.value.(status := b.value.status) == b.value
          && a.value.status.current == b.value.status.current && a.value.status.pending == b.value.status.pending)
  }

  /** The same templates but for the time they were created. */
  predicate SameTemplateMaps(a: map<Ref, Template>, b: map<Ref, Template>) {
    a.Keys == b.Keys && forall r | r in a :: a[r].spec == b[r].spec && a[r].labelled == b[r].labelled
  }

  /** The worlds agree on all that does not tell the time. */
  predicate Agree(a: World, b: World) {
    && SameClaim(a.claim, b.claim) && SameTemplateMaps(a.templates, b.templates)
    && a == b.(claim := a.claim, templates := a.templates, now := a.now)
  }

  lemma AgreeIsTransitive(a: World, b: World, c: World)
    requires Agree(a, b) && (Agree(b, c) || Agree(c, b))
    ensures Agree(a, c) && Agree(c, a)
  {
  }

  /** A quiet pass while the clock runs: before each call some time passes. */
  function Clocked(w: World, ticks: seq<nat>): Cut {
    if ticks == [] then Cut(w, Some(Loading))
    else
      var before := Clocked(w, ticks[..|ticks| - 1]);
      if before.pass.None? then before
      else
        var at := before.world.(now := before.world.now + ticks[|ticks| - 1]);
        var served := Apply(at, Next(before.pass.value));
        Cut(served.world, Resume(before.pass.value, served.reply, at.now))
  }

  /** A quiet pass over `w` comes, at some point, to `cut`, while the clock runs. */
  ghost predicate ComesTo(w: World, cut: Cut) {
    exists ticks: seq<nat> :: Clocked(w, ticks) == cut
  }

  lemma {:induction false} ClockedStandsStill(w: World, calls: nat)
    ensures Clocked(w, seq(calls, _ => 0)) == After(w, calls)
  {
    hide Apply, Next, Resume;
    if calls > 0 {
      ClockedStandsStill(w, calls - 1);
      var ticks: seq<nat> := seq(calls, _ => 0);
      assert ticks[..|ticks| - 1] == seq(calls - 1, _ => 0);
      var before := After(w, calls - 1);
      assert before.world.(now := before.world.now + 0) == before.world;
    }
  }

  /** With the clock standing still it is the quiet pass from before. */
  lemma ReachesIsComesTo(w: World, cut: Cut)
    requires Reaches(w, cut)
    ensures ComesTo(w, cut)
  {
    var calls: nat :| After(w, calls) == cut;
    ClockedStandsStill(w, calls);
    hide Clocked, After;
  }

  lemma EnsuredAgrees(w: World, spec: Spec, plan: Plan, later: int)
    ensures Agree(EnsuredWorld(w, spec, plan), EnsuredWorld(w.(now := later), spec, plan))
  {
    hide Ensured, DesiredHealthCheck;
  }

  lemma StatusesIgnoreTime(st: Status, names: Names, timeout: Option<int>, now: int, later: int)
    ensures var a, b := StartedStatus(st, names, now), StartedStatus(st, names, later);
            a.current == b.current && a.pending == b.pending
    ensures var a, b := WaitingStatus(st, names, timeout, now), WaitingStatus(st, names, timeout, later);
            a.current == b.current && a.pending == b.pending
  {
    hide Retired, TimedOut;
  }

  lemma SettledAgrees(a: World, b: World, c: Claim, plan: Plan)
    requires Agree(a, b) && a.md.Some?
    ensures Agree(SettledWorld(a, c, plan), SettledWorld(b, c, plan))
  {
    StatusesIgnoreTime(c.status, plan.names, c.spec.rolloutTimeout, a.now, b.now);
    hide RolloutComplete, Kept, Dropped, HashChanged, StartedStatus, ReadyStatus, WaitingStatus, SweptStatus;
  }

  lemma LiveGoalAgrees(w: World, c: Claim, later: int)
    ensures Agree(LiveGoal(w, c), LiveGoal(w.(now := later), c))
  {
    if w.rendering.Rendered? {
      var plan := w.rendering.plan;
      EnsuredAgrees(w, c.spec, plan, later);
      SettledAgrees(EnsuredWorld(w, c.spec, plan), EnsuredWorld(w.(now := later), c.spec, plan), c, plan);
      hide EnsuredWorld, SettledWorld, Agree;
    }
  }

  /** What a pass aims at does not depend on when it starts. */
  lemma GoalAgrees(w: World, later: int)
    ensures Agree(Goal(w), Goal(w.(now := later)))
  {
    hide LiveGoal, Doomed;
    if w.claim.Some? {
      LiveGoalAgrees(w, Adopted(w.claim.value), later);
    }
    hide Adopted;
  }

  /** Where a pass stands does not depend on the clock, except when it is about to write its status. */
  lemma OnTrackAnyTime(w: World, p: Pass, later: int)
    requires OnTrack(w, p) && !(p.Settling? && p.settle.Commit?)
    ensures OnTrack(w.(now := later), p)
  {
    hide LedgerOk, NeedsUpdate, Kept, Dropped, RolloutComplete, HashChanged, Goal;
  }

  lemma ClockedCall(w: World, p: Pass, was: int, aim: World)
    requires OnTrack(w.(now := was), p) && Agree(Goal(w.(now := was)), aim)
    ensures var served := Apply(w, Next(p));
            var after := Resume(p, served.reply, w.now);
            && (after.Some? ==> OnTrack(served.world, after.value) && Agree(Goal(served.world), aim))
            && (after.None? ==> Agree(served.world, aim))
  {
    if p.Settling? && p.settle.Commit? {
      assert Apply(w, Next(p)).world == WithStatus(w, p.seen, p.settle.next);
      assert Agree(WithStatus(w, p.seen, p.settle.next), Goal(w.(now := was)));
      hide Goal, Agree;
      AgreeIsTransitive(WithStatus(w, p.seen, p.settle.next), Goal(w.(now := was)), aim);
    } else {
      OnTrackAnyTime(w.(now := was), p, w.now);
      QuietCallStaysOnTrack(w, p);
      GoalAgrees(w.(now := was), w.now);
      assert w.(now := was).(now := w.now) == w;
      hide Goal, Agree, OnTrack, Apply, Next, Resume;
      AgreeIsTransitive(aim, Goal(w.(now := was)), Goal(w));
    }
  }

  lemma CallsTakeNoTime(w: World, call: Call)
    ensures Apply(w, call).world.now == w.now
  {
  }

  lemma AgreesWithItself(w: World)
    ensures Agree(w, w)
  {
  }

  lemma {:induction false} ClockedStaysOnTrack(w: World, ticks: seq<nat>) returns (was: int)
    requires OnTrack(w, Loading)
    ensures var cut := Clocked(w, ticks);
            && (cut.pass.Some? ==> OnTrack(cut.world.(now := was), cut.pass.value) && Agree(Goal(cut.world.(now := was)), Goal(w)))
            && (cut.pass.None? ==> Agree(cut.world, Goal(w)))
  {
    hide Goal, OnTrack, Apply, Next, Resume, Agree;
    if ticks == [] {
      assert w.(now := w.now) == w;
      AgreesWithItself(Goal(w));
      return w.now;
    }
    var last := |ticks| - 1;
    was := ClockedStaysOnTrack(w, ticks[..last]);
    var before := Clocked(w, ticks[..last]);
    if before.pass.Some? {
      var at := before.world.(now := before.world.now + ticks[last]);
      assert at.(now := was) == before.world.(now := was);
      ClockedCall(at, before.pass.value, was, Goal(w));
      CallsTakeNoTime(at, Next(before.pass.value));
      was := at.now;
      var next := Clocked(w, ticks).world;
      assert next.(now := was) == next;
    }
  }

  /** Crash consistency: let a pass die after any number of calls, with its status not yet written, and
      start it again at any later time with the same inputs, the clock running throughout. Once it has
      ended, the world agrees with any in which the uncut pass would have ended: the same templates,
      deployment, health check, current pair and pending list. */
  lemma CrashConsistency(w: World, cut: Cut, later: int, end: World, again: World)
    requires w.claim.Some? ==> LedgerOk(w.claim.value.status)
    requires ComesTo(w, cut) && cut.pass.Some?
    requires ComesTo(w, Cut(end, None)) && ComesTo(cut.world.(now := later), Cut(again, None))
    ensures Agree(end, again)
  {
    var ticks: seq<nat> :| Clocked(w, ticks) == cut;
    var whole: seq<nat> :| Clocked(w, whole) == Cut(end, None);
    var restart := cut.world.(now := later);
    var second: seq<nat> :| Clocked(restart, second) == Cut(again, None);
    assert OnTrack(w, Loading);
    var was := ClockedStaysOnTrack(w, ticks);
    var _ := ClockedStaysOnTrack(w, whole);
    OnTrackKeepsLedger(cut.world.(now := was), cut.pass.value);
    assert OnTrack(restart, Loading);
    hide Clocked, OnTrack, Goal, Agree;
    var _ := ClockedStaysOnTrack(restart, second);
    GoalAgrees(cut.world.(now := was), later);
    assert cut.world.(now := was).(now := later) == restart;
    AgreeIsTransitive(again, Goal(restart), Goal(cut.world.(now := was)));
    AgreeIsTransitive(again, Goal(cut.world.(now := was)), Goal(w));
    AgreeIsTransitive(end, Goal(w), again);
  }
}
