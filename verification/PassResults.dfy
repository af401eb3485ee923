/** What the closed form of a quiet pass tells a user: convergence, idempotence, draining, pause
    transparency and a clean teardown. */
module PassResults {
  import opened Objects
  import opened Ledger
  import opened MachineDeployments
  import opened Protocol
  import opened Convergence

  /** A claim the operator works on, whose templates render. */
  predicate Workable(w: World, plan: Plan) {
    && w.claim.Some? && !w.claim.value.deleting && !w.claim.value.paused
    && LedgerOk(w.claim.value.status) && w.rendering == Rendered(plan)
  }

  /** The claim's objects are what the claim asks for. */
  predicate Converged(w: World, spec: Spec, plan: Plan) {
    && BMTReady(w, plan) && KCTReady(w, plan)
    && w.md.Some? && !NeedsUpdate(Desired(spec, plan.labels, plan.names), w.md.value)
    && w.mhc == DesiredHealthCheck(spec)
  }

  lemma ClosedForm(w: World, plan: Plan)
    requires Workable(w, plan)
    ensures Finished(w, Loading) == SettledWorld(EnsuredWorld(w, w.claim.value.spec, plan), Adopted(w.claim.value), plan)
  {
    PassReachesGoal(w, Loading);
    hide SettledWorld, EnsuredWorld, LedgerOk;
  }

  lemma EnsuredConverges(w: World, spec: Spec, plan: Plan)
    ensures Converged(EnsuredWorld(w, spec, plan), spec, plan)
  {
    hide Desired, SameInPlace, DesiredHealthCheck;
  }

  /** Settling the rollout deletes none of the templates in force. */
  lemma SettlingKeepsConverged(w: World, c: Claim, plan: Plan)
    requires Converged(w, c.spec, plan) && LedgerOk(c.status)
    ensures Converged(SettledWorld(w, c, plan), c.spec, plan)
    ensures SettledWorld(w, c, plan).claim.Some? && SettledWorld(w, c, plan).claim.value.status.current == Some(plan.names)
  {
    if !HashChanged(c.status, plan.names) {
      assert plan.names.Refs() !! Dropped(c.status.pending, w.sets);
    }
    hide NeedsUpdate, Kept, RolloutComplete;
  }

  /** Convergence: from any store, one uninterrupted pass leaves both named templates in place, the
      deployment equal to the requested one in every field that is compared, and the health check
      present with the requested spec exactly if it is enabled. */
  lemma PassConverges(w: World, plan: Plan)
    requires Workable(w, plan)
    ensures Converged(Finished(w, Loading), w.claim.value.spec, plan)
    ensures Finished(w, Loading).claim.Some? && Finished(w, Loading).claim.value.status.current == Some(plan.names)
  {
    var c := w.claim.value;
    ClosedForm(w, plan);
    EnsuredConverges(w, c.spec, plan);
    SettlingKeepsConverged(EnsuredWorld(w, c.spec, plan), Adopted(c), plan);
    hide Converged, EnsuredWorld, SettledWorld, Finished;
  }

  /** What convergence means for the user: the deployment uses the two templates of the plan, which exist,
      and is as asked in every managed field; and so is the health check. */
  lemma ConvergedMeans(w: World, spec: Spec, plan: Plan)
    requires Converged(w, spec, plan)
    ensures var md := w.md.value;
            md.Refs() == plan.names.Refs() && (forall r | r in md.Refs() :: r in w.templates)
    ensures AsAsked(w.md.value, spec, plan.labels, plan.names)
    ensures HealthCheckAsAsked(w.mhc, spec)
  {
    UpToDateIsAsAsked(spec, plan.labels, plan.names, w.md.value);
    DesiredIsAsAsked(spec, plan.labels, plan.names);
    hide AsAsked, HealthCheckAsAsked, DesiredHealthCheck, SameInPlace, Desired;
    DesiredUsesNames(spec, plan.labels, plan.names);
  }

  lemma DesiredUsesNames(spec: Spec, given: Labels, names: Names)
    ensures Desired(spec, given, names).infrastructure.name == names.bmt
    ensures Desired(spec, given, names).bootstrap.name == names.kct
  {
  }

  lemma SettlingStartsRollout(w: World, c: Claim, plan: Plan)
    requires w.md.Some? && LedgerOk(c.status) && HashChanged(c.status, plan.names)
    ensures var after := SettledWorld(w, c, plan);
            && after.claim.Some? && after.templates == w.templates
            && Tracked(after.claim.value.status) == Tracked(c.status) + plan.names.Refs()
            && after.claim.value.status.pending != []
            && after.claim.value.status.phase == Updating && after.claim.value.status.startedAt == Some(w.now)
            && after.claim.value.status.ready == No && after.claim.value.status.timedOut == No
  {
    RetireConserves(c.status, plan.names);
    RetireKeepsLedger(c.status, plan.names);
    hide LedgerOk, Retired;
  }

  /** A pass that renders other names starts a rollout: it deletes nothing, and everything on record
      before, together with the new pair, is on record afterwards. */
  lemma RolloutStarts(w: World, plan: Plan)
    requires Workable(w, plan) && HashChanged(w.claim.value.status, plan.names)
    ensures var before, after := w.claim.value.status, Finished(w, Loading);
            && after.claim.Some? && w.templates.Keys <= after.templates.Keys
            && Tracked(after.claim.value.status) == Tracked(before) + plan.names.Refs()
            && after.claim.value.status.pending != []
            && after.claim.value.status.phase == Updating && after.claim.value.status.startedAt == Some(w.now)
            && after.claim.value.status.ready == No && after.claim.value.status.timedOut == No
  {
    var c := Adopted(w.claim.value);
    ClosedForm(w, plan);
    AdoptionKeepsLedger(w.claim.value);
    SettlingStartsRollout(EnsuredWorld(w, c.spec, plan), c, plan);
    hide Finished, SettledWorld, Ensured, DesiredHealthCheck, Adopted, LedgerOk, SetRefs;
  }

  /** ---------- A second pass writes none of the objects ---------- */

  predicate WritesObject(call: Call) {
    call.CreateTemplate? || call.UpdateTemplate? || call.CreateMD? || call.UpdateMD? || call.DeleteMD? ||
    call.CreateMHC? || call.UpdateMHC? || call.DeleteMHC?
  }

  /** Between two worlds the claim's objects did not change. */
  predicate SameObjects(w: World, w': World, plan: Plan) {
    && w'.md == w.md && w'.mhc == w.mhc && w'.rendering == w.rendering
    && w.claim.Some? && w'.claim.Some? && w'.claim.value.spec == w.claim.value.spec && !w'.claim.value.deleting
    && forall r | r in plan.names.Refs() :: r in w.templates && r in w'.templates && w'.templates[r] == w.templates[r]
  }

  lemma EnsuringOnlyReads(w: World, seen: Claim, plan: Plan, step: EnsureStep)
    requires OnTrack(w, Ensuring(seen, plan, step)) && Converged(w, seen.spec, plan)
    ensures !WritesObject(NextEnsure(seen, plan, step))
    ensures Apply(w, NextEnsure(seen, plan, step)).world == w
  {
    hide LedgerOk, NeedsUpdate, DesiredHealthCheck, Desired, Merge;
  }

  lemma SweepSparesPlan(w: World, seen: Claim, plan: Plan, ref: Ref, todo: seq<Ref>, kept: seq<Ref>)
    requires SweepOnTrack(w, seen, plan, [ref] + todo, kept)
    ensures ref !in plan.names.Refs()
  {
    assert ref == ([ref] + todo)[0];
    assert ref in seen.status.pending;
    hide AllReady, Kept, Dropped;
    assert Live(w, seen) by { SweepIsLive(w, seen, plan, [ref] + todo, kept); }
  }

  lemma SweepIsLive(w: World, seen: Claim, plan: Plan, rest: seq<Ref>, kept: seq<Ref>)
    requires SweepOnTrack(w, seen, plan, rest, kept)
    ensures Live(w, seen)
  {
    hide Kept, Dropped, RolloutComplete, NeedsUpdate;
  }

  lemma DropOnlyReads(w: World, seen: Claim, plan: Plan, step: SettleStep)
    requires OnTrack(w, Settling(seen, plan, step)) && step.Drop?
    ensures SameObjects(w, Apply(w, NextSettle(seen, step)).world, plan)
  {
    SweepSparesPlan(w, seen, plan, step.ref, step.todo, step.kept);
    hide Goal, SweepOnTrack, LedgerOk, MDReady;
  }

  lemma SettlingOnlyReads(w: World, seen: Claim, plan: Plan, step: SettleStep)
    requires OnTrack(w, Settling(seen, plan, step)) && !step.Drop?
    ensures SameObjects(w, Apply(w, NextSettle(seen, step)).world, plan)
  {
    hide Goal, SweepOnTrack, LedgerOk, MDReady;
  }

  lemma ConvergedCallOnlyReads(w: World, p: Pass, plan: Plan)
    requires OnTrack(w, p) && w.claim.Some? && !w.claim.value.deleting && w.rendering == Rendered(plan)
    requires Converged(w, w.claim.value.spec, plan)
    ensures !WritesObject(Next(p))
    ensures SameObjects(w, Apply(w, Next(p)).world, plan)
  {
    match p
    case Ensuring(seen, _, step) => EnsuringOnlyReads(w, seen, plan, step);
    case Settling(seen, _, step) =>
      if step.Drop? { DropOnlyReads(w, seen, plan, step); } else { SettlingOnlyReads(w, seen, plan, step); }
    case _ =>
    hide LedgerOk, SettleOnTrack, NextEnsure;
  }

  lemma CutOnlyReads(w: World, plan: Plan, calls: nat)
    requires Workable(w, plan) && SameObjects(w, After(w, calls).world, plan) && After(w, calls).pass.Some?
    requires Converged(w, w.claim.value.spec, plan)
    ensures var cut := After(w, calls);
            !WritesObject(Next(cut.pass.value)) && SameObjects(w, Apply(cut.world, Next(cut.pass.value)).world, plan)
  {
    var cut := After(w, calls);
    hide OnTrack, Goal, After, LedgerOk, Apply, Next, WritesObject;
    CutStaysOnTrack(w, calls) by { StartsOnTrack(w, plan); }
    SameObjectsConverged(w, cut.world, plan);
    ConvergedCallOnlyReads(cut.world, cut.pass.value, plan);
  }

  lemma StartsOnTrack(w: World, plan: Plan)
    requires Workable(w, plan)
    ensures OnTrack(w, Loading)
  {
  }

  lemma SameObjectsConverged(w: World, w': World, plan: Plan)
    requires w.claim.Some? && SameObjects(w, w', plan) && Converged(w, w.claim.value.spec, plan)
    ensures w'.claim.Some? && Converged(w', w'.claim.value.spec, plan)
  {
    hide NeedsUpdate, DesiredHealthCheck, Desired;
    assert Ref(BMT, plan.names.bmt) in plan.names.Refs() && Ref(KCT, plan.names.kct) in plan.names.Refs();
  }

  lemma {:induction false} CallsOnlyRead(w: World, plan: Plan, calls: nat)
    requires Workable(w, plan) && Converged(w, w.claim.value.spec, plan)
    ensures var cut := After(w, calls);
            SameObjects(w, cut.world, plan) && (cut.pass.Some? ==> !WritesObject(Next(cut.pass.value)))
  {
    hide Apply, Resume, Next, WritesObject, LedgerOk, Converged;
    if calls > 0 {
      CallsOnlyRead(w, plan, calls - 1);
      if After(w, calls - 1).pass.Some? {
        CutOnlyReads(w, plan, calls - 1);
      }
    } else {
      assert SameObjects(w, w, plan) by { SameAsItself(w, plan); }
    }
    if After(w, calls).pass.Some? {
      CutOnlyReads(w, plan, calls);
    }
  }

  lemma SameAsItself(w: World, plan: Plan)
    requires Workable(w, plan) && Converged(w, w.claim.value.spec, plan)
    ensures SameObjects(w, w, plan)
  {
    hide LedgerOk, NeedsUpdate;
  }

  /** Idempotence: over a converged world a pass, wherever it has come to, has created, updated and deleted
      none of the claim's objects and is not about to; whatever it does, it does to retired templates and
      to the status. */
  lemma SecondPassOnlyReads(w: World, plan: Plan, cut: Cut)
    requires Workable(w, plan) && Converged(w, w.claim.value.spec, plan) && Reaches(w, cut)
    ensures SameObjects(w, cut.world, plan) && (cut.pass.Some? ==> !WritesObject(Next(cut.pass.value)))
  {
    var calls: nat :| After(w, calls) == cut;
    CallsOnlyRead(w, plan, calls);
  }

  /** ---------- Draining ---------- */

  lemma {:induction false} KeptContents(pending: seq<Ref>, sets: set<MachineSet>)
    ensures forall r :: r in Kept(pending, sets) <==> r in pending && StillNeeded(sets, r)
    ensures |Kept(pending, sets)| <= |pending|
    ensures |Kept(pending, sets)| == |pending| <==> forall r | r in pending :: StillNeeded(sets, r)
  {
    if pending != [] {
      KeptContents(pending[1..], sets);
      assert pending == [pending[0]] + pending[1..];
    }
  }

  /** `next` is `st` after a clean-up: exactly what is in use stays on the list, the templates of the
      rest are gone, and the claim is Ready exactly if nothing is left. */
  ghost predicate Drained(st: Status, sets: set<MachineSet>, next: Status, templates: map<Ref, Template>) {
    && next.current == st.current
    && (forall r :: r in next.pending <==> r in st.pending && r in SetRefs(sets))
    && (forall r | r in st.pending && r !in SetRefs(sets) :: r !in templates)
    && |next.pending| <= |st.pending|
    && (next.pending == [] <==> forall r | r in st.pending :: r !in SetRefs(sets))
    && (next.pending == [] ==> next.phase == Ready && next.startedAt.None?)
  }

  lemma SweptIsDrained(st: Status, names: Names, sets: set<MachineSet>, templates: map<Ref, Template>)
    requires LedgerOk(st) && st.current == Some(names)
    ensures Drained(st, sets, SweptStatus(st, names, Kept(st.pending, sets)), templates - Dropped(st.pending, sets))
  {
    hide Kept, SetRefs, NoDuplicates;
    KeptContents(st.pending, sets);
    var kept := Kept(st.pending, sets);
    if kept != [] {
      assert kept[0] in kept;
    }
  }

  lemma SettlingDrains(w: World, c: Claim, plan: Plan)
    requires LedgerOk(c.status) && c.status.current == Some(plan.names) && c.status.pending != []
    requires w.md.Some? && RolloutComplete(w.md.value)
    ensures var after := SettledWorld(w, c, plan);
            after.claim.Some? && Drained(c.status, w.sets, after.claim.value.status, after.templates)
  {
    SweptIsDrained(c.status, plan.names, w.sets, w.templates);
    hide Drained, SweptStatus, LedgerOk, Kept, Dropped, RolloutComplete;
  }

  lemma DrainedIgnoresPhase(a: Status, b: Status, sets: set<MachineSet>, next: Status, templates: map<Ref, Template>)
    requires Drained(b, sets, next, templates) && a.current == b.current && a.pending == b.pending
    ensures Drained(a, sets, next, templates)
  {
  }

  lemma AdoptionKeepsLedger(c: Claim)
    ensures Adopted(c).spec == c.spec
    ensures Adopted(c).status.current == c.status.current && Adopted(c).status.pending == c.status.pending
    ensures LedgerOk(c.status) ==> LedgerOk(Adopted(c).status)
  {
  }

  /** Draining: once the deployment reports its rollout complete and the names are stable, one quiet
      pass drains the pending list as far as MachineSets allow. */
  lemma RolloutDrains(w: World, plan: Plan, after: World)
    requires Workable(w, plan) && Ends(w, after)
    requires w.claim.value.status.current == Some(plan.names) && w.claim.value.status.pending != []
    requires RolloutComplete(EnsuredWorld(w, w.claim.value.spec, plan).md.value)
    ensures after.claim.Some? && Drained(w.claim.value.status, w.sets, after.claim.value.status, after.templates)
  {
    var c := Adopted(w.claim.value);
    ClosedForm(w, plan);
    EndsInFinished(w, after);
    AdoptionKeepsLedger(w.claim.value);
    hide Finished, SettledWorld, RolloutComplete, Ensured, EnsuredTemplates, DesiredHealthCheck, Drained, Adopted, LedgerOk, Ends;
    SettlingDrains(EnsuredWorld(w, c.spec, plan), c, plan);
    DrainedIgnoresPhase(w.claim.value.status, c.status, w.sets, after.claim.value.status, after.templates);
  }

  /** ---------- A clean-up with failing calls ---------- */

  /** How the look-up of the MachineSets and the delete go for one reference, and which MachineSets there
      are when it is looked up: they may change from one reference to the next. */
  datatype Attempt = Attempt(sets: set<MachineSet>, check: Outcome, delete: Outcome)

  /** The references that stay on the list when the look-ups and deletes go as scripted. */
  function KeptWith(todo: seq<Ref>, script: seq<Attempt>): seq<Ref>
    requires |script| == |todo|
  {
    if todo == [] then []
    else (if StaysListed(todo[0], script[0]) then [todo[0]] else []) + KeptWith(todo[1..], script[1..])
  }

  /** One look-up and, if the pass goes on to it, one delete. */
  function DriveOne(w: World, p: Pass, a: Attempt): Cut {
    var checked := Serve(w.(sets := a.sets), Next(p), a.check);
    var p1 := Resume(p, checked.reply, w.now);
    if p1.Some? && p1.value.Settling? && p1.value.settle.Drop? then
      var deleted := Serve(checked.world, Next(p1.value), a.delete);
      Cut(deleted.world, Resume(p1.value, deleted.reply, w.now))
    else Cut(checked.world, p1)
  }

  /** A pass driven through one attempt after the other. */
  function Drive(w: World, p: Pass, script: seq<Attempt>): Option<Pass>
    decreases |script|
  {
    if script == [] then Some(p)
    else
      var next := DriveOne(w, p, script[0]);
      if next.pass.None? then None else Drive(next.world, next.pass.value, script[1..])
  }

  predicate StaysListed(ref: Ref, a: Attempt) {
    a.check != Done || StillNeeded(a.sets, ref) || a.delete != Done
  }

  lemma SweepOneStep(w: World, seen: Claim, plan: Plan, todo: seq<Ref>, kept: seq<Ref>, a: Attempt)
    requires todo != []
    ensures DriveOne(w, Sweep(seen, plan, todo, kept), a).pass ==
            Some(Sweep(seen, plan, todo[1..], if StaysListed(todo[0], a) then kept + [todo[0]] else kept))
  {
    hide SweptStatus, SetRefs;
  }

  lemma KeptWithOne(todo: seq<Ref>, script: seq<Attempt>, kept: seq<Ref>)
    requires |script| == |todo| && todo != []
    ensures (if StaysListed(todo[0], script[0]) then kept + [todo[0]] else kept) + KeptWith(todo[1..], script[1..]) ==
            kept + KeptWith(todo, script)
  {
    hide StaysListed;
  }

  /** A clean-up keeps, in order, exactly the references that a MachineSet used when they were looked up or
      whose look-up or delete failed, however the calls go and the MachineSets change. */
  lemma {:induction false} SweepKeepsExactly(w: World, seen: Claim, plan: Plan, todo: seq<Ref>, kept: seq<Ref>,
                                             script: seq<Attempt>)
    requires |script| == |todo|
    ensures Drive(w, Sweep(seen, plan, todo, kept), script) ==
            Some(Settling(seen, plan, Commit(SweptStatus(seen.status, plan.names, kept + KeptWith(todo, script)))))
    decreases |todo|
  {
    if todo == [] {
      assert kept + [] == kept;
    } else {
      SweepOneStep(w, seen, plan, todo, kept, script[0]);
      KeptWithOne(todo, script, kept);
      hide SweptStatus, Sweep, DriveOne, StaysListed, KeptWith;
      var next := DriveOne(w, Sweep(seen, plan, todo, kept), script[0]);
      var kept' := if StaysListed(todo[0], script[0]) then kept + [todo[0]] else kept;
      SweepKeepsExactly(next.world, seen, plan, todo[1..], kept', script[1..]);
    }
  }

  /** A MachineSet that is there uses the template under its kind. */
  predicate UsedBy(sets: set<MachineSet>, r: Ref) {
    exists ms | ms in sets :: (r.kind == BMT && ms.bmt == r.name) || (r.kind == KCT && ms.kct == r.name)
  }

  lemma UsedByIff(sets: set<MachineSet>, r: Ref)
    ensures UsedBy(sets, r) <==> r in SetRefs(sets)
  {
    if UsedBy(sets, r) {
      var ms :| ms in sets && ((r.kind == BMT && ms.bmt == r.name) || (r.kind == KCT && ms.kct == r.name));
      assert r in ms.Refs();
    }
  }

  /** What stays on the list, told outright. */
  lemma {:induction false} KeptWithContents(todo: seq<Ref>, script: seq<Attempt>, r: Ref)
    requires |script| == |todo|
    ensures r in KeptWith(todo, script) <==>
              exists i | 0 <= i < |todo| ::
                todo[i] == r &&
                (script[i].check != Done || script[i].delete != Done || r.kind.OtherKind? || UsedBy(script[i].sets, r))
  {
    if todo != [] {
      KeptWithContents(todo[1..], script[1..], r);
      UsedByIff(script[0].sets, todo[0]);
      hide UsedBy, SetRefs;
      assert forall i | 0 <= i < |todo| - 1 :: todo[1..][i] == todo[i + 1] && script[1..][i] == script[i + 1];
    }
  }

  /** ---------- Teardown ---------- */

  /** Once the deployment is gone, a quiet teardown removes exactly the templates on record, and the
      claim; while the deployment is there, it only asks for its deletion and touches no template. */
  lemma TeardownIsClean(w: World)
    requires w.claim.Some? && w.claim.value.deleting && w.claim.value.finalizer && LedgerOk(w.claim.value.status)
    ensures var after := Finished(w, Loading);
            && after.mhc.None?
            && (w.md.None? ==> after.claim.None? && after.templates == w.templates - Tracked(w.claim.value.status))
            && (w.md.Some? ==> after.md == Some(w.md.value.(terminating := true)) && after.templates == w.templates)
  {
    PassReachesGoal(w, Loading);
    hide Finished;
    assert Doomed(w.claim.value.status) == Tracked(w.claim.value.status);
  }

  /** ---------- Pausing ---------- */

  /** The same claim up to its phase and Ready condition. */
  predicate SameButPhase(a: Claim, b: Claim) {
    && a.spec == b.spec && a.paused == b.paused && a.deleting == b.deleting && a.finalizer == b.finalizer
    && a.status.current == b.status.current && a.status.pending == b.status.pending
    && a.status.startedAt == b.status.startedAt && a.status.timedOut == b.status.timedOut
  }

  /** What may happen while a claim stays paused: passes with any outcome or crash, and edits. */
  predicate WhilePaused(e: Event) {
    e.Begin? || e.Act? || e.Die? || e.Edit? || e.Tick? || e == Pause(true)
  }

  predicate OnlyPausedPass(pass: Option<Pass>, c: Claim) {
    pass.None? || pass == Some(Loading) ||
    (pass.value.Entering? && pass.value.entry.SetPaused? && pass.value.seen.paused &&
     SameButPhase(pass.value.seen.(spec := c.spec), c))
  }

  /** Since `s`, only the spec, the rendering, the clock, the phase and the Ready condition changed. */
  predicate Untouched(s: System, at: System) {
    && s.world.claim.Some? && at.world.claim.Some?
    && SameButPhase(s.world.claim.value.(spec := at.world.claim.value.spec), at.world.claim.value)
    && at.world == s.world.(claim := at.world.claim, rendering := at.world.rendering, now := at.world.now)
    && OnlyPausedPass(at.pass, at.world.claim.value)
  }

  lemma PausedStepTouchesNothing(s: System, at: System, e: Event)
    requires Untouched(s, at) && s.world.claim.value.paused && !s.world.claim.value.deleting && WhilePaused(e)
    ensures Untouched(s, Step(at, e))
  {
  }

  /** While a claim is paused, any number of passes and edits, with any failures, leaves every managed
      object, the current pair, the pending list and the rollout start as they are. */
  lemma {:induction false} PausedRunTouchesNothing(s: System, events: seq<Event>)
    requires s.world.claim.Some? && s.world.claim.value.paused && !s.world.claim.value.deleting && s.pass.None?
    requires forall e | e in events :: WhilePaused(e)
    ensures Untouched(s, Run(s, events))
  {
    hide Step;
    if events != [] {
      var before := events[..|events| - 1];
      PausedRunTouchesNothing(s, before);
      hide Untouched;
      PausedStepTouchesNothing(s, Run(s, before), events[|events| - 1]);
    }
  }

  /** Two worlds that differ in the stored claim's phase and Ready condition only. */
  predicate SameButPhaseWorlds(a: World, b: World) {
    && a.claim.Some? && b.claim.Some? && SameButPhase(a.claim.value, b.claim.value)
    && a == b.(claim := a.claim)
  }

  predicate SameOutcome(a: World, b: World) {
    && a.templates == b.templates && a.md == b.md && a.mhc == b.mhc && a.claim.Some? && b.claim.Some?
    && a.claim.value.status.current == b.claim.value.status.current
    && a.claim.value.status.pending == b.claim.value.status.pending
    && a.claim.value.status.startedAt == b.claim.value.status.startedAt
  }

  predicate SameLedger(a: Status, b: Status) {
    a.current == b.current && a.pending == b.pending && a.startedAt == b.startedAt
  }

  lemma StatusesIgnorePhase(a: Status, b: Status, names: Names, kept: seq<Ref>, timeout: Option<int>, now: int)
    requires SameLedger(a, b)
    ensures HashChanged(a, names) <==> HashChanged(b, names)
    ensures SameLedger(StartedStatus(a, names, now), StartedStatus(b, names, now))
    ensures SameLedger(ReadyStatus(a, names), ReadyStatus(b, names))
    ensures SameLedger(SweptStatus(a, names, kept), SweptStatus(b, names, kept))
    ensures SameLedger(WaitingStatus(a, names, timeout, now), WaitingStatus(b, names, timeout, now))
  {
    hide TimedOut;
  }

  lemma SettlingIgnoresPhase(w: World, a: Claim, b: Claim, plan: Plan)
    requires w.md.Some? && SameButPhase(a, b)
    ensures SameOutcome(SettledWorld(w, a, plan), SettledWorld(w, b, plan))
  {
    var kept := Kept(a.status.pending, w.sets);
    StatusesIgnorePhase(a.status, b.status, plan.names, kept, a.spec.rolloutTimeout, w.now);
    hide RolloutComplete, Kept, Dropped, StartedStatus, ReadyStatus, SweptStatus, WaitingStatus, HashChanged;
  }

  /** Phase and Ready condition do not influence what a pass does to the objects and the ledger. */
  lemma PhaseDoesNotMatter(a: World, b: World)
    requires SameButPhaseWorlds(a, b) && !a.claim.value.deleting && !a.claim.value.paused
    requires LedgerOk(a.claim.value.status)
    ensures SameOutcome(Finished(a, Loading), Finished(b, Loading))
  {
    PassReachesGoal(a, Loading);
    PassReachesGoal(b, Loading);
    var ca, cb := Adopted(a.claim.value), Adopted(b.claim.value);
    assert SameButPhase(ca, cb);
    if a.rendering.Rendered? {
      var plan := a.rendering.plan;
      StoredClaimIsOverwritten(b, a.claim, cb, plan);
      SettlingIgnoresPhase(EnsuredWorld(a, ca.spec, plan), ca, cb, plan);
    }
    hide Finished, LedgerOk, EnsuredWorld, SettledWorld, Adopted;
  }

  /** Pause transparency: pause a claim, let any number of passes and edits happen, and resume it. The
      next quiet pass gives the same templates, deployment, health check, current pair and pending list
      as one pass on the last spec would have given without the pause; no intermediate spec shows. */
  lemma PauseIsTransparent(s: System, events: seq<Event>)
    requires s.world.claim.Some? && s.world.claim.value.paused && !s.world.claim.value.deleting && s.pass.None?
    requires LedgerOk(s.world.claim.value.status)
    requires forall e | e in events :: WhilePaused(e)
    ensures var at := Run(s, events).world;
            && at.claim.Some?
            && var resumed := at.(claim := Some(at.claim.value.(paused := false)));
               var direct := s.world.(claim := Some(s.world.claim.value.(spec := at.claim.value.spec, paused := false)),
                                      rendering := at.rendering, now := at.now);
               SameOutcome(Finished(resumed, Loading), Finished(direct, Loading))
  {
    PausedRunTouchesNothing(s, events);
    var at := Run(s, events).world;
    hide Run, Finished;
    var resumed := at.(claim := Some(at.claim.value.(paused := false)));
    var direct := s.world.(claim := Some(s.world.claim.value.(spec := at.claim.value.spec, paused := false)),
                           rendering := at.rendering, now := at.now);
    assert SameButPhaseWorlds(resumed, direct);
    PhaseDoesNotMatter(resumed, direct);
  }
}
