/** Where the safety of the orphan cleaner ends, exactly: runs in which the cleaner deletes a template in
    use. Each leaves the discipline of module Tracking at one point, and for each the lemmas say which
    templates are lost and which are not. */
module Hazards {
  import opened Objects
  import opened Ledger
  import opened MachineDeployments
  import opened Protocol
  import opened Safety
  import opened Tracking
  import opened Convergence
  import opened PassResults
  import opened Reconciler

  /** The deployment or one of its MachineSets uses a template that does not exist. */
  predicate Broken(w: World, r: Ref) {
    r in Used(w) && r !in w.templates
  }

  /** No claim has the name on record. */
  predicate Unreferenced(w: World, r: Ref) {
    forall st | st in Statuses(w) :: r !in Referenced(st)
  }

  lemma RunSnoc(s: System, events: seq<Event>, e: Event)
    ensures Run(s, events + [e]) == Step(Run(s, events), e)
  {
    assert (events + [e])[..|events + [e]| - 1] == events;
  }

  lemma FourSteps(s: System, a: Event, b: Event, c: Event, d: Event)
    ensures Run(s, [a, b, c, d]) == Step(Step(Step(Step(s, a), b), c), d)
  {
    assert [] + [a] == [a] && [a] + [b] == [a, b] && [a, b] + [c] == [a, b, c] && [a, b, c] + [d] == [a, b, c, d];
    assert Run(s, []) == s;
    hide Step, Run;
    RunSnoc(s, [], a);
    RunSnoc(s, [a], b);
    RunSnoc(s, [a, b], c);
    RunSnoc(s, [a, b, c], d);
  }

  /** ---------- One clean-up ---------- */

  /** The cleaner waits, lists the templates and the claims and decides what to delete. */
  function Marking(grace: nat): seq<Event> {
    [Tick(grace), ListBMTs, ListKCTs, Mark(grace)]
  }

  /** A template a clean-up finds. */
  predicate Listed(w: World, r: Ref) {
    r in w.templates && (r.kind == BMT || r.kind == KCT) && w.templates[r].labelled && w.templates[r].born <= w.now
  }

  /** After the grace period the cleaner decides on exactly what it finds and nobody has on record. */
  lemma MarkedIff(s: System, r: Ref, grace: nat)
    requires s.cleaner.Resting?
    ensures var at := Run(s, Marking(grace));
            && at.world == s.world.(now := s.world.now + grace) && at.pass == s.pass
            && at.cleaner.Cleaning? && (r in at.cleaner.doomed <==> Listed(s.world, r) && Unreferenced(s.world, r))
  {
    var s1 := Step(s, Tick(grace));
    var s2 := Step(s1, ListBMTs);
    var s3 := Step(s2, ListKCTs);
    var s4 := Step(s3, Mark(grace));
    assert Statuses(s1.world) == Statuses(s.world);
    ListedIffSeen(s1.world, r);
    assert s3.cleaner == HasAll(Labelled(s1.world, BMT) + Labelled(s1.world, KCT));
    FourSteps(s, Tick(grace), ListBMTs, ListKCTs, Mark(grace));
    hide Run, Labelled, Referenced;
  }

  lemma ListedIffSeen(w: World, r: Ref)
    ensures var seen := Labelled(w, BMT) + Labelled(w, KCT);
            && (r in seen <==> r in w.templates && (r.kind == BMT || r.kind == KCT) && w.templates[r].labelled)
            && (r in seen ==> seen[r] == w.templates[r].born)
  {
  }

  lemma CollectDeletesDoomed(s: System, events: seq<Event>, r: Ref)
    requires Run(s, events).cleaner.Cleaning?
    ensures var at, next := Run(s, events), Run(s, events + [Collect(r, Done)]);
            next.world == if r in at.cleaner.doomed then at.world.(templates := at.world.templates - {r}) else at.world
  {
    RunSnoc(s, events, Collect(r, Done));
    hide Run;
  }

  /** With no pass in between, a clean-up takes a template in use if and only if it finds it and nobody has
      it on record. */
  lemma CleanUpBreaksIff(s: System, events: seq<Event>, r: Ref, grace: nat)
    requires var at := Run(s, events); at.cleaner.Resting? && r in at.world.templates && r in Used(at.world)
    ensures Broken(Run(s, events + Marking(grace) + [Collect(r, Done)]).world, r) <==>
            Listed(Run(s, events).world, r) && Unreferenced(Run(s, events).world, r)
  {
    var at := Run(s, events);
    MarkedIff(at, r, grace);
    RunJoins(s, events, Marking(grace));
    hide Run, Marking, Unreferenced, Listed;
    CollectDeletesDoomed(s, events + Marking(grace), r);
    assert Used(at.world.(now := at.world.now + grace)) == Used(at.world);
  }

  /** ---------- A pass that ends before its status write ---------- */

  function QuietEvents(calls: nat): seq<Event> {
    if calls == 0 then [Begin] else QuietEvents(calls - 1) + [Act(Done)]
  }

  lemma {:induction false} QuietRunIsAfter(s: System, calls: nat)
    requires s.pass.None? && After(s.world, calls).pass.Some?
    ensures var cut := After(s.world, calls);
            Run(s, QuietEvents(calls)) == s.(world := cut.world, pass := cut.pass)
  {
    if calls == 0 {
      RunSnoc(s, [], Begin);
      assert [] + [Begin] == [Begin];
    } else {
      QuietRunIsAfter(s, calls - 1);
      RunSnoc(s, QuietEvents(calls - 1), Act(Done));
    }
    hide Run, Apply, Next, Resume;
  }

  lemma NextCut(w: World, calls: nat, v: World, p: Pass)
    requires After(w, calls) == Cut(v, Some(p))
    ensures var served := Apply(v, Next(p));
            After(w, calls + 1) == Cut(served.world, Resume(p, served.reply, v.now))
  {
    hide Apply, Next, Resume;
  }

  /** A pass over a claim, new or not, comes to the templates with the claim adopted. */
  lemma UpToTemplates(w: World, plan: Plan) returns (calls: nat)
    requires Workable(w, plan)
    ensures var c := Adopted(w.claim.value);
            After(w, calls) == Cut(w.(claim := Some(c)), Some(Ensuring(c, plan, FindBMT)))
  {
    var c := w.claim.value;
    hide LedgerOk;
    NextCut(w, 0, w, Loading);
    calls := 1;
    hide After;
    if !c.finalizer {
      var c' := c;
      if c.status.phase == NoPhase {
        NextCut(w, calls, w, Entering(c, SetProvisioning));
        c' := c.(status := ProvisioningStatus(c.status));
        calls := calls + 1;
      }
      NextCut(w, calls, w.(claim := Some(c')), Entering(c', AddFinalizer));
      calls := calls + 1;
    }
    NextCut(w, calls, w.(claim := Some(Adopted(c))), Entering(Adopted(c), Rendering));
    calls := calls + 1;
  }

  /** The world once both templates are as the plan says. */
  function WithTemplates(w: World, plan: Plan): World {
    w.(templates := EnsuredTemplates(w.templates, plan, w.now))
  }

  /** The world once the machine template is there. */
  function WithBMT(w: World, plan: Plan): World {
    var bmt := Ref(BMT, plan.names.bmt);
    if bmt in w.templates then w else w.(templates := w.templates[bmt := Template(plan.bmtSpec, true, w.now)])
  }

  lemma PastBMT(w: World, calls: nat, v: World, seen: Claim, plan: Plan) returns (next: nat)
    requires After(w, calls) == Cut(v, Some(Ensuring(seen, plan, FindBMT)))
    ensures After(w, next) == Cut(WithBMT(v, plan), Some(Ensuring(seen, plan, FindKCT)))
  {
    hide After;
    NextCut(w, calls, v, Ensuring(seen, plan, FindBMT));
    next := calls + 1;
    if Ref(BMT, plan.names.bmt) !in v.templates {
      NextCut(w, next, v, Ensuring(seen, plan, MakeBMT));
      next := next + 1;
    }
  }

  /** The world once the bootstrap template is there with the rendered content. */
  function WithKCT(w: World, plan: Plan): World {
    var kct := Ref(KCT, plan.names.kct);
    w.(templates := w.templates[kct := if kct in w.templates then w.templates[kct].(spec := plan.kctSpec)
                                       else Template(plan.kctSpec, true, w.now)])
  }

  lemma PastKCT(w: World, calls: nat, v: World, seen: Claim, plan: Plan) returns (next: nat)
    requires After(w, calls) == Cut(v, Some(Ensuring(seen, plan, FindKCT)))
    ensures After(w, next) == Cut(WithKCT(v, plan), Some(Ensuring(seen, plan, FindMD)))
  {
    hide After;
    var kct := Ref(KCT, plan.names.kct);
    NextCut(w, calls, v, Ensuring(seen, plan, FindKCT));
    next := calls + 1;
    if kct !in v.templates {
      NextCut(w, next, v, Ensuring(seen, plan, MakeKCT));
      next := next + 1;
    } else if v.templates[kct].spec != plan.kctSpec {
      NextCut(w, next, v, Ensuring(seen, plan, ReviseKCT(v.templates[kct])));
      next := next + 1;
    } else {
      assert WithKCT(v, plan).templates == v.templates;
    }
  }

  lemma UpToDeployment(w: World, calls: nat, v: World, seen: Claim, plan: Plan) returns (next: nat)
    requires After(w, calls) == Cut(v, Some(Ensuring(seen, plan, FindBMT)))
    ensures After(w, next) == Cut(WithTemplates(v, plan), Some(Ensuring(seen, plan, FindMD)))
  {
    assert WithKCT(WithBMT(v, plan), plan) == WithTemplates(v, plan);
    hide After, WithBMT, WithKCT, WithTemplates;
    next := PastBMT(w, calls, v, seen, plan);
    next := PastKCT(w, next, WithBMT(v, plan), seen, plan);
  }

  /** The world once the deployment uses the plan's templates. */
  function WithDeployment(w: World, seen: Claim, plan: Plan): World {
    w.(md := Some(Ensured(w.md, Desired(seen.spec, plan.labels, plan.names))))
  }

  lemma PastDeployment(w: World, calls: nat, v: World, seen: Claim, plan: Plan) returns (next: nat)
    requires After(w, calls) == Cut(v, Some(Ensuring(seen, plan, FindMD)))
    ensures After(w, next) == Cut(WithDeployment(v, seen, plan), Some(Ensuring(seen, plan, FindMHC)))
  {
    hide After, Desired, NeedsUpdate, Merge;
    NextCut(w, calls, v, Ensuring(seen, plan, FindMD));
    next := calls + 1;
    if v.md.None? {
      NextCut(w, next, v, Ensuring(seen, plan, MakeMD));
      next := next + 1;
    } else if NeedsUpdate(Desired(seen.spec, plan.labels, plan.names), v.md.value) {
      NextCut(w, next, v, Ensuring(seen, plan, ReviseMD(v.md.value)));
      next := next + 1;
    }
  }

  /** The world of a pass that has just written the deployment. */
  function WrittenWorld(w: World, plan: Plan): World
    requires w.claim.Some?
  {
    var c := Adopted(w.claim.value);
    WithDeployment(WithTemplates(w.(claim := Some(c)), plan), c, plan)
  }

  lemma UpToWrite(s: System, plan: Plan) returns (calls: nat)
    requires s.pass.None? && Workable(s.world, plan)
    ensures Run(s, QuietEvents(calls)) ==
            s.(world := WrittenWorld(s.world, plan), pass := Some(Ensuring(Adopted(s.world.claim.value), plan, FindMHC)))
  {
    var w, c := s.world, Adopted(s.world.claim.value);
    calls := UpToTemplates(w, plan);
    hide After, Workable, Adopted, WithTemplates, WithDeployment, Run;
    calls := UpToDeployment(w, calls, w.(claim := Some(c)), c, plan);
    calls := PastDeployment(w, calls, WithTemplates(w.(claim := Some(c)), plan), c, plan);
    QuietRunIsAfter(s, calls);
  }

  lemma WrittenWorldUsesPlan(w: World, plan: Plan, r: Ref)
    requires w.claim.Some? && r in plan.names.Refs()
    ensures var at := WrittenWorld(w, plan);
            && at.md.Some? && r in at.md.value.Refs() && r in Used(at) && r in at.templates
            && (Listed(at, r) <==> (r in w.templates ==> Listed(w, r))) && (Unreferenced(at, r) <==> Unreferenced(w, r))
  {
    hide SameInPlace;
    var at := WrittenWorld(w, plan);
    assert Referenced(at.claim.value.status) == Referenced(w.claim.value.status);
    assert Statuses(at) == [at.claim.value.status] + w.others;
    assert Statuses(w) == [w.claim.value.status] + w.others;
    hide Referenced;
  }

  /** Between the write of the deployment and the write of the status only the record of an earlier pass
      protects a template. Take any claim, new or at any later point of its life, whatever it renders; let
      the pass end in between, by a crash or because the look-up of the health check fails, and let no
      other pass start for the grace period. Then a clean-up deletes a template from under the deployment
      if and only if no claim has its name on record and the pass created it or the cleaner finds it. */
  lemma CrashBeforeStatusExposes(s: System, plan: Plan, end: Event, grace: nat, r: Ref) returns (calls: nat)
    requires s.pass.None? && s.cleaner.Resting? && Workable(s.world, plan) && r in plan.names.Refs()
    requires end == Die || end == Act(Refused)
    ensures Broken(Run(s, QuietEvents(calls) + [end] + Marking(grace) + [Collect(r, Done)]).world, r) <==>
            Unreferenced(s.world, r) && (r in s.world.templates ==> Listed(s.world, r))
  {
    calls := UpToWrite(s, plan);
    RunSnoc(s, QuietEvents(calls), end);
    WrittenWorldUsesPlan(s.world, plan, r);
    var dead := Run(s, QuietEvents(calls) + [end]);
    hide Run, QuietEvents, Workable, Unreferenced, Listed, Used, WrittenWorld, Adopted;
    assert dead.world == WrittenWorld(s.world, plan) && dead.cleaner == s.cleaner;
    hide Step;
    CleanUpBreaksIff(s, QuietEvents(calls) + [end], r, grace);
  }

  /** ---------- A pass that ends before its status write, and an edit ---------- */

  /** A quiet pass with other names neither touches a template that a MachineSet uses nor puts its name on
      or takes it off the record. */
  lemma QuietPassIgnores(w: World, plan: Plan, r: Ref)
    requires Workable(w, plan) && r in SetRefs(w.sets) && r !in plan.names.Refs() && r in w.templates
    ensures var after := Finished(w, Loading);
            && after.claim.Some? && after.claim.value.status.current == Some(plan.names)
            && LedgerOk(after.claim.value.status)
            && (r in Tracked(after.claim.value.status) <==> r in Tracked(w.claim.value.status))
            && r in after.templates && after.templates[r] == w.templates[r]
            && after.sets == w.sets && after.others == w.others && after.now == w.now
  {
    var c := Adopted(w.claim.value);
    ClosedForm(w, plan);
    AdoptionKeepsLedger(w.claim.value);
    assert Tracked(c.status) == Tracked(w.claim.value.status);
    SettlingIgnores(EnsuredWorld(w, c.spec, plan), c, plan, r);
    SettlingKeepsLedger(EnsuredWorld(w, c.spec, plan), c, plan);
    hide Finished, SettledWorld, Adopted, Ensured, DesiredHealthCheck, Tracked, LedgerOk;
  }

  lemma SettlingIgnores(w: World, c: Claim, plan: Plan, r: Ref)
    requires LedgerOk(c.status) && w.md.Some?
    requires r in SetRefs(w.sets) && r !in plan.names.Refs() && r in w.templates
    ensures var after := SettledWorld(w, c, plan);
            && after.claim.Some? && after.claim.value.status.current == Some(plan.names)
            && (r in Tracked(after.claim.value.status) <==> r in Tracked(c.status))
            && r in after.templates && after.templates[r] == w.templates[r]
            && after.sets == w.sets && after.others == w.others && after.now == w.now
  {
    if HashChanged(c.status, plan.names) {
      RetireConserves(c.status, plan.names);
    } else {
      KeptContents(c.status.pending, w.sets);
    }
    hide LedgerOk, Retired, Kept, RolloutComplete, SetRefs;
  }

  lemma KeptKeepsLedger(st: Status, sets: set<MachineSet>)
    requires LedgerOk(st)
    ensures LedgerOk(st.(pending := Kept(st.pending, sets)))
  {
    KeptKeepsDistinct(st.pending, sets);
    KeptContents(st.pending, sets);
    hide Kept, SetRefs, NoDuplicates;
  }

  lemma SameLedgerOk(a: Status, b: Status)
    requires LedgerOk(a) && a.current == b.current && a.pending == b.pending
    ensures LedgerOk(b)
  {
  }

  lemma SettlingKeepsLedger(w: World, c: Claim, plan: Plan)
    requires LedgerOk(c.status) && w.md.Some?
    ensures SettledWorld(w, c, plan).claim.Some? && LedgerOk(SettledWorld(w, c, plan).claim.value.status)
  {
    var st, next := c.status, SettledWorld(w, c, plan).claim.value.status;
    if HashChanged(st, plan.names) {
      RetireKeepsLedger(st, plan.names);
      hide LedgerOk;
      SameLedgerOk(st.(current := Some(plan.names), pending := Retired(st, plan.names)), next);
    } else if st.pending != [] {
      KeptKeepsLedger(st, w.sets);
      assert st.current == Some(plan.names);
      hide LedgerOk;
      SameLedgerOk(if RolloutComplete(w.md.value) then st.(pending := Kept(st.pending, w.sets)) else st, next);
    }
    hide Retired, Kept, RolloutComplete, SetRefs;
  }

  lemma {:induction false} KeptKeepsDistinct(pending: seq<Ref>, sets: set<MachineSet>)
    requires NoDuplicates(pending)
    ensures NoDuplicates(Kept(pending, sets))
  {
    if pending != [] {
      KeptKeepsDistinct(pending[1..], sets);
      KeptContents(pending[1..], sets);
    }
  }

  /** The world after ClusterAPI made a MachineSet from the deployment and the user edited the claim. */
  function EditedWorld(w: World, spec: Spec, plan: Plan): World
    requires w.claim.Some? && w.md.Some?
  {
    w.(sets := w.sets + {MachineSet(w.md.value.infrastructure.name, w.md.value.bootstrap.name)},
       claim := Some(w.claim.value.(spec := Edited(w.claim.value.spec, spec))), rendering := Rendered(plan))
  }

  lemma NewSetUses(w: World, spec: Spec, plan: Plan, r: Ref)
    requires w.claim.Some? && w.md.Some? && r in w.md.value.Refs()
    ensures r in SetRefs(EditedWorld(w, spec, plan).sets)
  {
    var ms := MachineSet(w.md.value.infrastructure.name, w.md.value.bootstrap.name);
    assert ms in EditedWorld(w, spec, plan).sets && r in ms.Refs();
  }

  lemma EditAfterDeath(s: System, spec: Spec, plan: Plan)
    requires s.pass.Some? && s.world.claim.Some? && s.world.md.Some?
    ensures Run(s, [AddMachineSet, Die, Edit(spec, Rendered(plan)), Begin]) ==
            s.(world := EditedWorld(s.world, spec, plan), pass := Some(Loading))
  {
    FourSteps(s, AddMachineSet, Die, Edit(spec, Rendered(plan)), Begin);
    hide Run;
  }

  lemma SameReferences(a: World, b: World, r: Ref)
    requires a.claim.Some? && b.claim.Some? && a.others == b.others
    requires LedgerOk(a.claim.value.status) && LedgerOk(b.claim.value.status)
    requires r in Tracked(a.claim.value.status) <==> r in Tracked(b.claim.value.status)
    ensures Unreferenced(a, r) <==> Unreferenced(b, r)
  {
    OnRecordIsReferenced(a.claim.value.status);
    OnRecordIsReferenced(b.claim.value.status);
    assert Statuses(a) == [a.claim.value.status] + a.others && Statuses(b) == [b.claim.value.status] + b.others;
    hide LedgerOk, Tracked, Referenced;
  }

  /** If a pass ends after the write of the deployment and the claim is then edited, so that it renders other
      names, the names in between are lost unless they were on record before: let ClusterAPI have made a
      MachineSet from them; the next pass completes and records its own names, and a clean-up then deletes
      a template that the MachineSet uses if and only if it finds it and no claim had it on record. */
  lemma IntermediateNamesAreLost(s: System, spec: Spec, plan: Plan, grace: nat, r: Ref) returns (events: seq<Event>)
    requires s.pass.Some? && s.cleaner.Resting? && s.world.claim.Some? && s.world.md.Some?
    requires var c := s.world.claim.value; !c.deleting && !c.paused && LedgerOk(c.status)
    requires r in s.world.md.value.Refs() && r !in plan.names.Refs() && r in s.world.templates
    ensures Quiet(events)
    ensures var edit := [AddMachineSet, Die, Edit(spec, Rendered(plan)), Begin];
            var at := Run(s, edit + events);
            && at.pass.None? && at.world.claim.Some? && at.world.claim.value.status.current == Some(plan.names)
            && (r in Tracked(at.world.claim.value.status) <==> r in Tracked(s.world.claim.value.status))
            && (Broken(Run(s, edit + events + Marking(grace) + [Collect(r, Done)]).world, r) <==>
                  Listed(s.world, r) && Unreferenced(s.world, r))
  {
    var edit := [AddMachineSet, Die, Edit(spec, Rendered(plan)), Begin];
    var w := EditedWorld(s.world, spec, plan);
    EditAfterDeath(s, spec, plan);
    var begun := Run(s, edit);
    hide Run;
    events := QuietRunEnds(begun);
    RunJoins(s, edit, events);
    hide Quiet, QuietEvents, Marking;
    assert Workable(w, plan);
    NewSetUses(s.world, spec, plan, r);
    QuietPassIgnores(w, plan, r);
    var after := Finished(w, Loading);
    hide Finished;
    SameReferences(s.world, after, r);
    assert Listed(s.world, r) <==> Listed(after, r);
    assert r in Used(after);
    hide EditedWorld, Used, Unreferenced, Listed;
    CleanUpBreaksIff(s, edit + events, r, grace);
  }

  /** So for every claim, whatever it renders: a pass writes the deployment and dies, the claim is edited to
      other names, and the pass after that completes; a template in between is lost if and only if no claim
      had it on record and the dying pass created it or the cleaner finds it. */
  lemma RepointingLosesNames(s: System, plan: Plan, spec: Spec, last: Plan, grace: nat, r: Ref)
    returns (calls: nat, events: seq<Event>)
    requires s.pass.None? && s.cleaner.Resting? && Workable(s.world, plan)
    requires r in plan.names.Refs() && r !in last.names.Refs()
    ensures Quiet(events)
    ensures var begun := QuietEvents(calls) + [AddMachineSet, Die, Edit(spec, Rendered(last)), Begin];
            var at := Run(s, begun + events);
            && at.pass.None? && at.world.claim.Some? && at.world.claim.value.status.current == Some(last.names)
            && (r in Tracked(at.world.claim.value.status) <==> r in Tracked(s.world.claim.value.status))
            && (Broken(Run(s, begun + events + Marking(grace) + [Collect(r, Done)]).world, r) <==>
                  Unreferenced(s.world, r) && (r in s.world.templates ==> Listed(s.world, r)))
  {
    calls := UpToWrite(s, plan);
    WrittenClaim(s.world, plan);
    WrittenWorldUsesPlan(s.world, plan, r);
    hide Run, QuietEvents, Quiet, Marking, Broken, Listed, LedgerOk, Tracked, Referenced, WrittenWorld, Adopted, Unreferenced, Used;
    events := IntermediateNamesAreLost(Run(s, QuietEvents(calls)), spec, last, grace, r);
    var edit := [AddMachineSet, Die, Edit(spec, Rendered(last)), Begin];
    JoinRuns(s, QuietEvents(calls), edit, events, Marking(grace), [Collect(r, Done)]);
  }

  lemma WrittenClaim(w: World, plan: Plan)
    requires Workable(w, plan)
    ensures var at := WrittenWorld(w, plan);
            && at.claim == Some(Adopted(w.claim.value)) && at.others == w.others
            && !at.claim.value.deleting && !at.claim.value.paused && LedgerOk(at.claim.value.status)
            && Tracked(at.claim.value.status) == Tracked(w.claim.value.status)
  {
    hide Ensured;
  }

  lemma JoinRuns(s: System, a: seq<Event>, b: seq<Event>, c: seq<Event>, d: seq<Event>, e: seq<Event>)
    ensures Run(s, a + b + c) == Run(Run(s, a), b + c)
    ensures Run(s, a + b + c + d + e) == Run(Run(s, a), b + c + d + e)
  {
    hide Run;
    RunJoins(s, a, b + c);
    RunJoins(s, a, b + c + d + e);
    assert a + (b + c) == a + b + c && a + (b + c + d + e) == a + b + c + d + e;
  }

  /** ---------- A clean-up that overlaps a pass ---------- */

  /** A pass that nobody disturbs comes to its end. */
  lemma {:induction false} QuietRunEnds(s: System) returns (events: seq<Event>)
    requires s.pass.Some?
    ensures Quiet(events)
    ensures var at := Run(s, events);
            at.pass.None? && at.world == Finished(s.world, s.pass.value) && at.cleaner == s.cleaner
    decreases Rank(s.pass.value), Length(s.pass.value)
  {
    var next := Step(s, Act(Done));
    RunSnoc(s, [], Act(Done));
    assert [] + [Act(Done)] == [Act(Done)];
    if next.pass.None? {
      events := [Act(Done)];
    } else {
      PassShrinks(s.pass.value, Apply(s.world, Next(s.pass.value)).reply, s.world.now);
      hide Apply, Next, Resume, Rank, Length, Run;
      var rest := QuietRunEnds(next);
      events := [Act(Done)] + rest;
      RunJoins(s, [Act(Done)], rest);
    }
  }

  /** The names on record and those the pass plans to use are all that can be in use. */
  predicate UseIsTracked(s: System) {
    && s.world.claim.Some?
    && AllTracked(s.world, s.pass)
    && (s.cleaner.Cleaning? ==> s.cleaner.doomed !! Tracked(s.world.claim.value.status))
  }

  lemma OnTrackIsWorkable(w: World, p: Pass)
    requires OnTrack(w, p) && (p.Ensuring? || p.Settling?)
    ensures Workable(w, p.plan)
    ensures Finished(w, p) == Finished(w, Loading)
  {
    PassReachesGoal(w, p);
    assert OnTrack(w, Loading) by { OnTrackKeepsLedger(w, p); }
    PassReachesGoal(w, Loading);
    hide Finished, Goal;
    if p.Settling? {
      hide LedgerOk, NeedsUpdate, SweepOnTrack, BMTReady, KCTReady, MDReady;
    }
  }

  lemma QuietPassUses(w: World, plan: Plan)
    requires Workable(w, plan)
    ensures Used(Finished(w, Loading)) == plan.names.Refs() + SetRefs(w.sets)
  {
    PassConverges(w, plan);
    ClosedForm(w, plan);
    var after := Finished(w, Loading);
    assert after.sets == w.sets by {
      hide Finished, Kept, Dropped, Ensured, EnsuredTemplates, RolloutComplete, Adopted;
    }
    ConvergedMeans(after, w.claim.value.spec, plan);
    hide Finished, SettledWorld, SetRefs, Converged;
  }

  /** A clean-up decides what to delete before it deletes. The exact condition for an overlap to do harm: a
      pass goes on while the cleaner is set to delete `doomed`, and completes undisturbed; then the delete
      of a doomed template takes it from under the deployment or a MachineSet if and only if the pass plans
      to use it. */
  lemma OverlapExposes(s: System) returns (events: seq<Event>)
    requires s.pass.Some? && (s.pass.value.Ensuring? || s.pass.value.Settling?) && OnTrack(s.world, s.pass.value)
    requires s.cleaner.Cleaning? && UseIsTracked(s)
    ensures Quiet(events)
    ensures var at := Run(s, events);
            && at.pass.None? && at.world.claim.Some? && at.world.claim.value.status.current == Some(s.pass.value.plan.names)
            && forall r | r in s.cleaner.doomed ::
                 Broken(Run(s, events + [Collect(r, Done)]).world, r) <==> r in Planned(s.pass)
  {
    var plan := s.pass.value.plan;
    OnTrackIsWorkable(s.world, s.pass.value);
    events := QuietRunEnds(s);
    PassConverges(s.world, plan);
    QuietPassUses(s.world, plan);
    var at := Run(s, events);
    hide Run, Finished, Workable, OnTrack, Quiet;
    forall r | r in s.cleaner.doomed
      ensures Broken(Run(s, events + [Collect(r, Done)]).world, r) <==> r in Planned(s.pass)
    {
      CollectDeletesDoomed(s, events, r);
      DoomedInUseIsPlanned(s, r);
      UseIgnoresTemplates(at.world, at.world.templates - {r});
      hide SetRefs, Used, UseIsTracked, Converged;
    }
  }

  lemma UseIgnoresTemplates(w: World, templates: map<Ref, Template>)
    ensures Used(w.(templates := templates)) == Used(w)
  {
  }

  lemma DoomedInUseIsPlanned(s: System, r: Ref)
    requires s.cleaner.Cleaning? && r in s.cleaner.doomed && UseIsTracked(s)
    ensures r in SetRefs(s.world.sets) ==> r in Planned(s.pass)
  {
    assert r in SetRefs(s.world.sets) ==> r in Used(s.world);
    hide SetRefs, Tracked;
  }

  /** So a leftover name that a claim renders again is lost when a clean-up overlaps its pass, and only
      then: the clean-up decides, a pass completes with the name on record, and the delete takes the template
      from under the deployment if and only if the cleaner found it and nobody had it on record before. */
  lemma ReusedNameIsExposed(s: System, plan: Plan, r: Ref, grace: nat) returns (events: seq<Event>)
    requires s.pass.None? && s.cleaner.Resting? && Workable(s.world, plan) && r in plan.names.Refs()
    ensures Quiet(events)
    ensures var at := Run(s, Marking(grace) + events);
            && at.pass.None? && at.world.claim.Some? && at.world.claim.value.status.current == Some(plan.names)
            && (Broken(Run(s, Marking(grace) + events + [Collect(r, Done)]).world, r) <==>
                  Listed(s.world, r) && Unreferenced(s.world, r))
  {
    MarkedIff(s, r, grace);
    var marked := Run(s, Marking(grace));
    assert Workable(marked.world, plan);
    PassConverges(marked.world, plan);
    ConvergedMeans(Finished(marked.world, Loading), marked.world.claim.value.spec, plan);
    hide Run, Marking, Finished, Workable, Converged, Unreferenced, Listed;
    var rest := QuietRunEnds(Step(marked, Begin));
    events := [Begin] + rest;
    RunSnoc(marked, [], Begin);
    assert [] + [Begin] == [Begin];
    assert Run(marked, []) == marked by { NoEvents(marked); }
    RunJoins(marked, [Begin], rest);
    RunJoins(s, Marking(grace), events);
    CollectDeletesDoomed(s, Marking(grace) + events, r);
    hide Step;
    UseIgnoresTemplates(Run(s, Marking(grace) + events).world, Run(s, Marking(grace) + events).world.templates - {r});
  }

  lemma NoEvents(s: System)
    ensures Run(s, []) == s
  {
  }
}
