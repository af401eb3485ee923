/** What a pass writes into the status and what it leaves of the templates, told outright; which calls let a
    pass go on; and what a pass has made sure of when it goes on. */
module Outcomes {
  import opened Objects
  import opened Ledger
  import opened MachineDeployments
  import opened Protocol
  import opened Safety
  import opened Tracking
  import opened Convergence
  import opened PassResults

  /** ---------- Where an undisturbed pass leaves the status ---------- */

  lemma EndIsGoal(w: World, after: World)
    requires Ends(w, after) && (w.claim.Some? ==> LedgerOk(w.claim.value.status))
    ensures after == Goal(w)
  {
    EndsInFinished(w, after);
    PassReachesGoal(w, Loading);
    hide Finished, Goal, Ends, LedgerOk;
  }

  lemma WorkableEnd(w: World, plan: Plan, after: World)
    requires Workable(w, plan) && Ends(w, after)
    ensures var c := Adopted(w.claim.value);
            after == SettledWorld(EnsuredWorld(w, c.spec, plan), c, plan)
  {
    EndsInFinished(w, after);
    ClosedForm(w, plan);
    hide Finished, SettledWorld, EnsuredWorld, Ends, LedgerOk;
  }

  /** With nothing pending and its names unchanged (or its first), a claim is Ready after the pass: phase and
      condition say so and no rollout is running. */
  lemma EndsReady(w: World, plan: Plan, after: World)
    requires Workable(w, plan) && Ends(w, after)
    requires var st := w.claim.value.status; st.pending == [] && (st.current.None? || st.current == Some(plan.names))
    ensures after.claim.Some?
    ensures var was, st := w.claim.value.status, after.claim.value.status;
            && st.phase == Ready && st.ready == Yes && st.startedAt == None
            && st.current == Some(plan.names) && st.pending == [] && st.timedOut == was.timedOut
  {
    WorkableEnd(w, plan, after);
    hide EnsuredWorld, Ends;
  }

  /** With a rollout under way that the deployment does not report as complete, the claim is Degraded after the
      pass if and only if the rollout has taken longer than the claim allows (half an hour unless it says
      otherwise), and Updating if not. Becoming Degraded sets RolloutTimedOut and clears Ready. */
  lemma EndsWaiting(w: World, plan: Plan, after: World)
    requires Workable(w, plan) && Ends(w, after)
    requires w.claim.value.status.current == Some(plan.names) && w.claim.value.status.pending != []
    requires !RolloutComplete(EnsuredWorld(w, w.claim.value.spec, plan).md.value)
    ensures after.claim.Some?
    ensures var c, st := w.claim.value, after.claim.value.status;
            var limit := if c.spec.rolloutTimeout.Some? then c.spec.rolloutTimeout.value else 1800;
            var late := c.status.startedAt.Some? && w.now - c.status.startedAt.value > limit;
            && (st.phase == Degraded <==> late) && (st.phase == Updating <==> !late)
            && (late && c.status.phase != Degraded ==> st.timedOut == Yes && st.ready == No)
            && (!late || c.status.phase == Degraded ==> st.timedOut == c.status.timedOut && st.ready == c.status.ready)
            && st.current == c.status.current && st.pending == c.status.pending && st.startedAt == c.status.startedAt
  {
    WorkableEnd(w, plan, after);
    hide Ends, RolloutComplete, EnsuredTemplates, Ensured, DesiredHealthCheck;
  }

  /** With the rollout complete: if no MachineSet uses a retired template the claim is Ready, in phase and
      conditions. Otherwise phase, conditions and rollout start stay as they were; so a claim that was resumed
      can still say Paused (or Failed) after a whole pass: phase and annotation can disagree. */
  lemma EndsSwept(w: World, plan: Plan, after: World)
    requires Workable(w, plan) && Ends(w, after)
    requires w.claim.value.status.current == Some(plan.names) && w.claim.value.status.pending != []
    requires RolloutComplete(EnsuredWorld(w, w.claim.value.spec, plan).md.value)
    ensures after.claim.Some?
    ensures var c, st := w.claim.value, after.claim.value.status;
            if exists r :: r in c.status.pending && UsedBy(w.sets, r) then
              st == c.status.(pending := st.pending,
                              phase := if c.status.phase == NoPhase && !c.finalizer then Provisioning else c.status.phase)
            else st == Status(Ready, c.status.current, [], None, Yes, No)
  {
    var c := Adopted(w.claim.value);
    WorkableEnd(w, plan, after);
    AdoptionKeepsLedger(w.claim.value);
    assert c.status == w.claim.value.status.(phase := c.status.phase);
    SettlingSweeps(EnsuredWorld(w, c.spec, plan), c, plan);
    forall r {
      UsedByIff(w.sets, r);
    }
    hide Ends, RolloutComplete, EnsuredTemplates, Ensured, DesiredHealthCheck, SettledWorld, SetRefs, UsedBy, LedgerOk;
  }

  lemma SettlingSweeps(w: World, c: Claim, plan: Plan)
    requires c.status.current == Some(plan.names) && c.status.pending != [] && LedgerOk(c.status)
    requires w.md.Some? && RolloutComplete(w.md.value)
    ensures SettledWorld(w, c, plan).claim.Some?
    ensures var was, st := c.status, SettledWorld(w, c, plan).claim.value.status;
            if exists r :: r in was.pending && r in SetRefs(w.sets) then st == was.(pending := st.pending)
            else st == Status(Ready, was.current, [], None, Yes, No)
  {
    KeptContents(c.status.pending, w.sets);
    var kept := Kept(c.status.pending, w.sets);
    if kept != [] {
      assert kept[0] in kept;
    }
    hide RolloutComplete, SetRefs, Kept, Dropped, NoDuplicates;
  }

  /** When rendering fails, the claim is adopted and Failed, not Ready, and nothing else happens. */
  lemma EndsFailed(w: World, after: World)
    requires w.claim.Some? && !w.claim.value.deleting && !w.claim.value.paused && LedgerOk(w.claim.value.status)
    requires w.rendering == RenderFailed && Ends(w, after)
    ensures var c := w.claim.value;
            after == w.(claim := Some(c.(finalizer := true, status := c.status.(phase := Failed, ready := No))))
  {
    EndIsGoal(w, after);
    hide Ends, LedgerOk;
  }

  /** A paused claim is Paused and not Ready after the pass, and nothing else happens; if it is Paused
      already, nothing happens at all. */
  lemma EndsPaused(w: World, after: World)
    requires w.claim.Some? && !w.claim.value.deleting && w.claim.value.paused && LedgerOk(w.claim.value.status)
    requires Ends(w, after)
    ensures var c := w.claim.value;
            after == if c.status.phase == Paused then w
                     else w.(claim := Some(c.(status := c.status.(phase := Paused, ready := No))))
  {
    EndIsGoal(w, after);
    hide Ends, LedgerOk;
  }

  /** While the deployment exists, a pass over a claim under deletion removes the health check, asks for the
      deployment's deletion and notes the phase; a claim that has let go of already, or is gone, is left
      alone. */
  lemma EndsTearing(w: World, after: World)
    requires Ends(w, after) && (w.claim.Some? ==> w.claim.value.deleting && LedgerOk(w.claim.value.status))
    requires w.md.Some? || w.claim.None? || !w.claim.value.finalizer
    ensures after == if w.claim.None? || !w.claim.value.finalizer then w
                     else w.(claim := Some(w.claim.value.(status := w.claim.value.status.(phase := Deleting))),
                             mhc := None, md := Some(w.md.value.(terminating := true)))
  {
    EndIsGoal(w, after);
    hide Ends, LedgerOk;
  }

  /** A new claim is Provisioning and carries the finalizer before anything is rendered for it. */
  lemma StartsProvisioning(w: World)
    requires w.claim.Some? && !w.claim.value.deleting && !w.claim.value.paused
    requires !w.claim.value.finalizer && w.claim.value.status.phase == NoPhase
    ensures var c := w.claim.value;
            var c1 := c.(status := c.status.(phase := Provisioning));
            && Reaches(w, Cut(w.(claim := Some(c1)), Some(Entering(c1, AddFinalizer))))
            && Reaches(w, Cut(w.(claim := Some(c1.(finalizer := true))), Some(Entering(c1.(finalizer := true), Rendering))))
  {
    assert After(w, 1).pass == Some(Entering(w.claim.value, SetProvisioning));
    assert After(w, 2).pass.Some? && After(w, 2).pass.value.Entering?;
    assert After(w, 3).pass.Some? && After(w, 3).pass.value.Entering?;
  }

  /** ---------- In which order a teardown deletes ---------- */

  /** The current pair, machine template first, and then what is pending, in order. */
  function Recorded(st: Status): seq<Ref> {
    (if st.current.Some? then [Ref(BMT, st.current.value.bmt), Ref(KCT, st.current.value.kct)] else []) + st.pending
  }

  lemma KindsAreKnown(st: Status, i: nat)
    requires LedgerOk(st) && i < |Recorded(st)|
    ensures !Recorded(st)[i].kind.OtherKind?
  {
    var n := if st.current.Some? then 2 else 0;
    if i >= n {
      assert Recorded(st)[i] == st.pending[i - n];
    }
    hide NoDuplicates;
  }

  /** The first `i` references. */
  function First(all: seq<Ref>, i: nat): set<Ref>
    requires i <= |all|
  {
    set r | r in all[..i]
  }

  lemma OneMoreFirst(all: seq<Ref>, i: nat, templates: map<Ref, Template>)
    requires 0 < i < |all|
    ensures First(all, i) == First(all, i - 1) + {all[i - 1]}
    ensures templates - First(all, i - 1) - {all[i - 1]} == templates - First(all, i)
    ensures all[i..][0] == all[i] && all[i..][1..] == all[i + 1..]
  {
    assert all[..i] == all[..i - 1] + [all[i - 1]];
  }

  /** A claim whose teardown has only templates left to delete. */
  predicate OnlyTemplatesLeft(w: World) {
    && w.claim.Some? && w.md.None? && w.mhc.None? && w.claim.value.deleting && w.claim.value.finalizer
    && w.claim.value.status.phase == Deleting && LedgerOk(w.claim.value.status)
  }

  lemma UpToTeardown(w: World)
    requires OnlyTemplatesLeft(w)
    ensures After(w, 3) == Cut(w, Some(Teardown(w.claim.value, Recorded(w.claim.value.status), {})))
  {
    var c := w.claim.value;
    assert After(w, 1) == Cut(w, Some(Tearing(c, FindHealthCheck)));
    assert After(w, 2) == Cut(w, Some(Tearing(c, FindDeployment)));
    hide LedgerOk, Teardown;
  }

  lemma DeleteStep(w: World, calls: nat, v: World, c: Claim, ref: Ref, todo: seq<Ref>, tried: set<Ref>)
    requires After(w, calls) == Cut(v, Some(Tearing(c, DeleteOld(ref, todo, tried))))
    ensures After(w, calls + 1) == Cut(v.(templates := v.templates - {ref}), Some(Teardown(c, todo, tried + {ref})))
  {
    assert ref !in v.templates ==> v.templates - {ref} == v.templates;
    hide Teardown;
  }

  lemma TeardownHead(c: Claim, all: seq<Ref>, i: nat, tried: set<Ref>)
    requires i < |all| && !all[i].kind.OtherKind?
    ensures Teardown(c, all[i..], tried) == Tearing(c, DeleteOld(all[i], all[i + 1..], tried))
  {
    assert all[i..][1..] == all[i + 1..];
  }

  /** Where a teardown stands when it comes to the i-th reference. */
  function AtDelete(w: World, c: Claim, all: seq<Ref>, i: nat): Cut
    requires i < |all|
  {
    Cut(w.(templates := w.templates - First(all, i)), Some(Tearing(c, DeleteOld(all[i], all[i + 1..], First(all, i)))))
  }

  lemma NextDelete(w: World, calls: nat, c: Claim, all: seq<Ref>, i: nat)
    requires 0 < i < |all| && !all[i].kind.OtherKind?
    requires After(w, calls) == AtDelete(w, c, all, i - 1)
    ensures After(w, calls + 1) == AtDelete(w, c, all, i)
  {
    OneMoreFirst(all, i, w.templates);
    TeardownHead(c, all, i, First(all, i));
    hide After, First, Teardown;
    DeleteStep(w, calls, w.(templates := w.templates - First(all, i - 1)), c, all[i - 1], all[i..], First(all, i - 1));
  }

  lemma FirstDelete(w: World, c: Claim, all: seq<Ref>)
    requires all != [] && !all[0].kind.OtherKind? && After(w, 3) == Cut(w, Some(Teardown(c, all, {})))
    ensures After(w, 3) == AtDelete(w, c, all, 0)
  {
    hide After, Teardown;
    assert all[0..] == all && First(all, 0) == {};
    TeardownHead(c, all, 0, {});
    assert w.templates - First(all, 0) == w.templates;
  }

  lemma {:induction false} DeletesInOrder(w: World, c: Claim, all: seq<Ref>, i: nat)
    requires i < |all| && After(w, 3) == Cut(w, Some(Teardown(c, all, {})))
    requires forall j | 0 <= j < |all| :: !all[j].kind.OtherKind?
    ensures After(w, 3 + i) == AtDelete(w, c, all, i)
  {
    hide After, Teardown, AtDelete;
    if i == 0 {
      FirstDelete(w, c, all);
    } else {
      DeletesInOrder(w, c, all, i - 1);
      NextDelete(w, 3 + (i - 1), c, all, i);
    }
  }

  /** Once health check and deployment are gone, a teardown deletes the recorded templates one by one in that
      order: when it comes to the i-th, exactly those before it are gone. */
  lemma TeardownInOrder(w: World, i: nat)
    requires OnlyTemplatesLeft(w) && i < |Recorded(w.claim.value.status)|
    ensures After(w, 3 + i) == AtDelete(w, w.claim.value, Recorded(w.claim.value.status), i)
  {
    var c, all := w.claim.value, Recorded(w.claim.value.status);
    UpToTeardown(w);
    assert LedgerOk(c.status);
    hide After, LedgerOk, Recorded, Teardown, AtDelete, OnlyTemplatesLeft;
    forall j | 0 <= j < |all| {
      KindsAreKnown(c.status, j);
    }
    DeletesInOrder(w, c, all, i);
  }

  /** ---------- Where it leaves the templates ---------- */

  /** A template of the plan that is missing is created with the rendered content and the claim label; of those
      that exist, the bootstrap template gets the rendered content and the machine template is left alone;
      other templates are at most swept. */
  lemma TemplatesAfter(w: World, plan: Plan, after: World)
    requires Workable(w, plan) && Ends(w, after)
    ensures var bmt, kct := Ref(BMT, plan.names.bmt), Ref(KCT, plan.names.kct);
            && bmt in after.templates && kct in after.templates
            && after.templates[bmt] == (if bmt in w.templates then w.templates[bmt] else Template(plan.bmtSpec, true, w.now))
            && after.templates[kct] == (if kct in w.templates then w.templates[kct].(spec := plan.kctSpec)
                                        else Template(plan.kctSpec, true, w.now))
            && forall r | r != bmt && r != kct ::
                 && (r in after.templates ==> r in w.templates && after.templates[r] == w.templates[r])
                 && (r in w.templates && r !in after.templates ==> r in w.claim.value.status.pending && r !in SetRefs(w.sets))
  {
    var c := Adopted(w.claim.value);
    WorkableEnd(w, plan, after);
    AdoptionKeepsLedger(w.claim.value);
    SettlingKeepsTemplates(EnsuredWorld(w, c.spec, plan), c, plan);
    hide Ends, SettledWorld, Adopted, Ensured, DesiredHealthCheck, LedgerOk, SetRefs;
  }

  lemma SettlingKeepsTemplates(w: World, c: Claim, plan: Plan)
    requires w.md.Some? && LedgerOk(c.status)
    ensures var after := SettledWorld(w, c, plan);
            && (forall r | r in after.templates :: r in w.templates && after.templates[r] == w.templates[r])
            && (forall r | r in w.templates && r !in after.templates ::
                  r in c.status.pending && r !in SetRefs(w.sets) && r !in plan.names.Refs())
  {
    hide RolloutComplete, Kept, SetRefs;
  }

  /** ---------- Which calls let a pass go on ---------- */

  /** The server refuses the write, because the object appeared or changed since it was read. */
  predicate Clashes(w: World, plan: Plan, step: EnsureStep) {
    var kct := Ref(KCT, plan.names.kct);
    match step
    case ReviseKCT(t) => kct !in w.templates || w.templates[kct] != t
    case MakeMD => w.md.Some?
    case ReviseMD(stored) => w.md != Some(stored)
    case MakeMHC(_) => w.mhc.Some?
    case ReviseMHC(found, _) => w.mhc != Some(found)
    case _ => false
  }

  /** An ensuring pass goes on if and only if its call is carried out, its reply arrives, and no write clashes.
      A template that appeared in between, or a health check that vanished, does not stop it. */
  lemma EnsuringGoesOnIff(w: World, seen: Claim, plan: Plan, step: EnsureStep, o: Outcome)
    ensures Resume(Ensuring(seen, plan, step), Serve(w, NextEnsure(seen, plan, step), o).reply, w.now).Some? <==>
              o == Done && !Clashes(w, plan, step)
  {
    hide Desired, Merge, NeedsUpdate, DesiredHealthCheck, Finish;
  }

  /** A pass that enters goes on after a write if and only if the write went through and the claim was still the
      one it knew; after rendering it ensures the objects if the rendering arrived, and reports failure
      otherwise; after reporting it is over. */
  lemma EnteringGoesOnIff(w: World, seen: Claim, step: EntryStep, o: Outcome)
    ensures var after := Resume(Entering(seen, step), Serve(w, NextEntry(seen, step), o).reply, w.now);
            && (step.SetProvisioning? || step.AddFinalizer? ==> (after.Some? <==> o == Done && w.claim == Some(seen)))
            && (step.Rendering? ==>
                  after == Some(if o == Done && w.rendering.Rendered? then Ensuring(seen, w.rendering.plan, FindBMT)
                                else Entering(seen, EntryStep.SetFailed)))
            && (step.SetFailed? || step.SetPaused? ==> after.None?)
  {
  }

  /** A pass that follows a rollout is over when it cannot read the deployment; no call of a clean-up ends it. */
  lemma SettlingGoesOnIff(w: World, seen: Claim, plan: Plan, step: SettleStep, o: Outcome)
    ensures Resume(Settling(seen, plan, step), Serve(w, NextSettle(seen, step), o).reply, w.now).Some? <==>
              !step.Commit? && (step.Track? ==> o == Done && w.md.Some?)
  {
    hide RolloutComplete, WaitingStatus, SweptStatus;
  }

  /** A teardown goes on if and only if its call went through, whether or not there was something to delete; but
      it waits for the deployment, and goes on past a template that could not be deleted. */
  lemma TearingGoesOnIff(w: World, seen: Claim, step: TearStep, o: Outcome)
    ensures Resume(Tearing(seen, step), Serve(w, NextTear(seen, step), o).reply, w.now).Some? <==>
              match step
              case SetDeleting => o == Done && w.claim == Some(seen)
              case FindHealthCheck => o == Done
              case DeleteHealthCheck => o == Done
              case FindDeployment => o == Done
              case DeleteDeployment => false
              case DeleteOld(_, _, _) => true
              case DropFinalizer(_) => false
  {
    hide Teardown, TeardownList;
  }

  /** ---------- What a pass has made sure of ---------- */

  /** The step asks for what the claim asks for. */
  predicate StepAsAsked(seen: Claim, step: EnsureStep) {
    match step
    case MakeMHC(wanted) => DesiredHealthCheck(seen.spec) == Some(wanted)
    case ReviseMHC(_, wanted) => DesiredHealthCheck(seen.spec) == Some(wanted)
    case DropMHC => DesiredHealthCheck(seen.spec) == None
    case _ => true
  }

  predicate HasFinalizer(w: World) {
    w.claim.Some? && w.claim.value.finalizer
  }

  /** What the pass has behind it: from rendering on the claim carries the finalizer and has a phase. */
  predicate Proper(w: World, p: Pass) {
    match p
    case Loading => true
    case Entering(seen, step) =>
      && (step.AddFinalizer? ==> seen.status.phase != NoPhase)
      && (step.Rendering? || step.SetFailed? ==> HasFinalizer(w) && seen.status.phase != NoPhase)
    case Ensuring(seen, plan, step) => HasFinalizer(w) && seen.status.phase != NoPhase && StepAsAsked(seen, step)
    case Settling(seen, _, step) =>
      HasFinalizer(w) && seen.status.phase != NoPhase && (step.Commit? ==> step.next.phase != NoPhase)
    case Tearing(_, _) => true
  }

  /** A claim that carries the finalizer has a phase. */
  predicate PhaseOk(w: World) {
    HasFinalizer(w) ==> w.claim.value.status.phase != NoPhase
  }

  predicate ProperState(s: System) {
    Inv(s) && PhaseOk(s.world) && (s.pass.Some? ==> Proper(s.world, s.pass.value))
  }

  predicate CallProper(w: World, p: Pass, o: Outcome) {
    var served := Serve(w, Next(p), o);
    var after := Resume(p, served.reply, w.now);
    PhaseOk(served.world) && (after.Some? ==> Proper(served.world, after.value))
  }

  lemma EntryProper(w: World, seen: Claim, step: EntryStep, o: Outcome)
    requires var p := Entering(seen, step); Good(w, Some(p)) && PhaseOk(w) && Proper(w, p)
    ensures CallProper(w, Entering(seen, step), o)
  {
    hide StatusOk;
  }

  lemma LoadProper(w: World, o: Outcome)
    requires PhaseOk(w)
    ensures CallProper(w, Loading, o)
  {
  }

  lemma EnsureProper(w: World, seen: Claim, plan: Plan, step: EnsureStep, o: Outcome)
    requires var p := Ensuring(seen, plan, step); PhaseOk(w) && Proper(w, p)
    ensures CallProper(w, Ensuring(seen, plan, step), o)
  {
    hide Desired, Merge, NeedsUpdate, DesiredHealthCheck, HashChanged;
  }

  lemma SettleProper(w: World, seen: Claim, plan: Plan, step: SettleStep, o: Outcome)
    requires var p := Settling(seen, plan, step); PhaseOk(w) && Proper(w, p)
    ensures CallProper(w, Settling(seen, plan, step), o)
  {
    hide RolloutComplete, TimedOut, SetRefs;
  }

  lemma TearProper(w: World, seen: Claim, step: TearStep, o: Outcome)
    requires var p := Tearing(seen, step); PhaseOk(w)
    ensures CallProper(w, Tearing(seen, step), o)
  {
    if step.FindDeployment? { TeardownHasNothingInHand(seen, TeardownList(seen.status), {}); }
    if step.DeleteOld? { TeardownHasNothingInHand(seen, step.todo, step.tried + {step.ref}); }
    hide Teardown, TeardownList;
  }

  lemma PassProper(s: System, o: Outcome)
    requires ProperState(s) && s.pass.Some?
    ensures ProperState(Step(s, Act(o)))
  {
    StepKeepsInv(s, Act(o));
    hide CallProper, Good, PhaseOk, Proper;
    var w, p := s.world, s.pass.value;
    match p
    case Loading => LoadProper(w, o);
    case Entering(seen, step) => EntryProper(w, seen, step, o);
    case Ensuring(seen, plan, step) => EnsureProper(w, seen, plan, step, o);
    case Settling(seen, plan, step) => SettleProper(w, seen, plan, step, o);
    case Tearing(seen, step) => TearProper(w, seen, step, o);
  }

  /** Nobody but the operator takes the finalizer off a claim or writes its phase. */
  lemma OthersKeepFinalizer(s: System, e: Event)
    requires !ByOperator(e)
    ensures Step(s, e).pass == s.pass
    ensures HasFinalizer(s.world) <==> HasFinalizer(Step(s, e).world)
    ensures HasFinalizer(s.world) ==> Step(s, e).world.claim.value.status == s.world.claim.value.status
  {
    hide Own, Labelled, Orphans;
  }

  lemma OthersKeepProper(s: System, e: Event)
    requires ProperState(s) && !ByOperator(e)
    ensures ProperState(Step(s, e))
  {
    StepKeepsInv(s, e);
    OthersKeepFinalizer(s, e);
    hide Inv, Step, HasFinalizer;
  }

  lemma StepKeepsProper(s: System, e: Event)
    requires ProperState(s)
    ensures ProperState(Step(s, e))
  {
    if !ByOperator(e) {
      OthersKeepProper(s, e);
    } else if e.Act? && s.pass.Some? {
      PassProper(s, e.outcome);
    } else {
      StepKeepsInv(s, e);
      hide Inv;
    }
  }

  lemma {:induction false} RunKeepsProper(s: System, events: seq<Event>)
    requires ProperState(s)
    ensures ProperState(Run(s, events))
  {
    hide ProperState, Step;
    if events != [] {
      RunKeepsProper(s, events[..|events| - 1]);
      StepKeepsProper(Run(s, events[..|events| - 1]), events[|events| - 1]);
    }
  }

  /** A run leads from a state in which no pass is running, and a claim with the finalizer has a phase. */
  ghost predicate Reachable(at: System) {
    exists s: System, events: seq<Event> :: AtRest(s) && PhaseOk(s.world) && Run(s, events) == at
  }

  lemma ReachableIsProper(at: System)
    requires Reachable(at)
    ensures ProperState(at)
  {
    var s: System, events: seq<Event> :| AtRest(s) && PhaseOk(s.world) && Run(s, events) == at;
    AtRestInv(s);
    RunKeepsProper(s, events);
    hide Run, Inv;
  }

  /** Finalizer first: in every run, from before a pass creates its first object until it commits, the claim is
      there and carries the finalizer, whatever users do to it; so what a pass makes cannot be left behind by a
      claim that is deleted meanwhile. */
  lemma FinalizerFirst(at: System)
    requires Reachable(at) && at.pass.Some? && (at.pass.value.Ensuring? || at.pass.value.Settling?)
    ensures HasFinalizer(at.world) && at.world.claim.value.status.phase != NoPhase
  {
    ReachableIsProper(at);
    hide Inv, Reachable;
  }

  /** What the pass goes on to find done, at that moment. */
  predicate MadeSure(w: World, seen: Claim, plan: Plan, step: EnsureStep, after: Pass) {
    var bmt, kct := Ref(BMT, plan.names.bmt), Ref(KCT, plan.names.kct);
    && (after.Ensuring? && after.ensure.FindKCT? ==> bmt in w.templates)
    && (after.Ensuring? && after.ensure.FindMD? ==>
          kct in w.templates && (!step.MakeKCT? ==> w.templates[kct].spec == plan.kctSpec))
    && (after.Ensuring? && after.ensure.FindMHC? ==> w.md.Some? && AsAsked(w.md.value, seen.spec, plan.labels, plan.names))
    && (after.Settling? ==> HealthCheckAsAsked(w.mhc, seen.spec))
  }

  lemma TemplateCallMadeSure(w: World, seen: Claim, plan: Plan, step: EnsureStep, o: Outcome)
    requires EnsuresTemplates(step)
    ensures var served := Serve(w, NextEnsure(seen, plan, step), o);
            var after := Resume(Ensuring(seen, plan, step), served.reply, w.now);
            after.Some? ==> MadeSure(served.world, seen, plan, step, after.value)
  {
    hide AsAsked, HealthCheckAsAsked;
  }

  lemma DeploymentCallMadeSure(w: World, seen: Claim, plan: Plan, step: EnsureStep, o: Outcome)
    requires step.FindMD? || step.MakeMD? || step.ReviseMD?
    ensures var served := Serve(w, NextEnsure(seen, plan, step), o);
            var after := Resume(Ensuring(seen, plan, step), served.reply, w.now);
            after.Some? ==> MadeSure(served.world, seen, plan, step, after.value)
  {
    var desired := Desired(seen.spec, plan.labels, plan.names);
    DesiredIsAsAsked(seen.spec, plan.labels, plan.names);
    var w' := Serve(w, NextEnsure(seen, plan, step), o).world;
    hide AsAsked, Desired, SameInPlace, SameTemplates;
    if w'.md.Some? && !NeedsUpdate(desired, w'.md.value) {
      UpToDateIsAsAsked(seen.spec, plan.labels, plan.names, w'.md.value);
    }
    hide HealthCheckAsAsked, NeedsUpdate;
  }

  lemma HealthCheckCallMadeSure(w: World, seen: Claim, plan: Plan, step: EnsureStep, o: Outcome)
    requires Pointed(step) && StepAsAsked(seen, step)
    ensures var served := Serve(w, NextEnsure(seen, plan, step), o);
            var after := Resume(Ensuring(seen, plan, step), served.reply, w.now);
            after.Some? ==> MadeSure(served.world, seen, plan, step, after.value)
  {
    DesiredIsAsAsked(seen.spec, plan.labels, plan.names);
    hide AsAsked, HealthCheckAsAsked, DesiredHealthCheck, Desired, HashChanged, StartedStatus, ReadyStatus;
  }

  lemma CallMadeSure(w: World, seen: Claim, plan: Plan, step: EnsureStep, o: Outcome)
    requires StepAsAsked(seen, step)
    ensures var served := Serve(w, NextEnsure(seen, plan, step), o);
            var after := Resume(Ensuring(seen, plan, step), served.reply, w.now);
            after.Some? ==> MadeSure(served.world, seen, plan, step, after.value)
  {
    hide Serve, NextEnsure, Resume, MadeSure;
    if EnsuresTemplates(step) { TemplateCallMadeSure(w, seen, plan, step, o); }
    else if Pointed(step) { HealthCheckCallMadeSure(w, seen, plan, step, o); }
    else { DeploymentCallMadeSure(w, seen, plan, step, o); }
  }

  /** In every run, however calls fail and others interfere, a pass goes on to the next object only when the one
      before is there as asked at that moment: the machine template exists; the bootstrap template exists, with
      the rendered content unless it appeared just before the pass could create it; the deployment is as asked in
      every managed field; and the health check is as asked, present or absent. */
  lemma PassesOnlyWhatIsThere(at: System, o: Outcome, seen: Claim, plan: Plan, step: EnsureStep)
    requires Reachable(at) && at.pass == Some(Ensuring(seen, plan, step))
    ensures var next := Step(at, Act(o));
            next.pass.Some? ==> MadeSure(next.world, seen, plan, step, next.pass.value)
  {
    ReachableIsProper(at);
    CallMadeSure(at.world, seen, plan, step, o);
    hide Inv, Reachable, MadeSure, Serve, Resume;
  }
}
