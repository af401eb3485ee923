/** The operator and the orphan cleaner together. The cleaner looks only at the statuses of claims, so it
    is safe only while everything in use is on record, or about to be. That holds in every run in which a
    pass that made or re-pointed the deployment gets its status written, and no pass plans to use a
    template that the cleaner has already decided to delete. */
module Tracking {
  import opened Objects
  import opened Ledger
  import opened MachineDeployments
  import opened Protocol
  import opened Safety

  /** ---------- The discipline ---------- */

  /** The pass is past the write of the deployment. */
  predicate PastWrite(p: Pass) {
    p.Settling? || (p.Ensuring? && Pointed(p.ensure))
  }

  /** The deployment may use names that are not on record yet. */
  predicate Exposed(p: Pass) {
    PastWrite(p) && !(p.plan.names.Refs() <= Tracked(p.seen.status))
  }

  /** The next call puts names to use that are not on record yet. */
  predicate AboutToExpose(p: Pass) {
    p.Ensuring? && (p.ensure.MakeMD? || p.ensure.ReviseMD?) && !(p.plan.names.Refs() <= Tracked(p.seen.status))
  }

  predicate Recorded(w: World, names: Names) {
    w.claim.Some? ==> names.Refs() <= Tracked(w.claim.value.status)
  }

  /** The names a pass plans to use, once it has rendered them. */
  function Planned(pass: Option<Pass>): set<Ref> {
    if pass.Some? && (pass.value.Ensuring? || pass.value.Settling?) then pass.value.plan.names.Refs() else {}
  }

  /** An exposed pass does not end before its names are on record; the reply to the write of the
      deployment is not lost; and the cleaner and a pass may overlap in any way, as long as the cleaner
      is not set to delete what the pass plans to use. */
  predicate Disciplined(s: System, e: Event, next: System) {
    && (s.pass.Some? && Exposed(s.pass.value) && next.pass.None? ==> Recorded(next.world, s.pass.value.plan.names))
    && (s.pass.Some? && AboutToExpose(s.pass.value) ==> e != Act(Lost))
    && (next.cleaner.Cleaning? ==> next.cleaner.doomed !! Planned(next.pass))
  }

  predicate DisciplinedRun(s: System, events: seq<Event>) {
    forall n | 0 <= n < |events| :: Disciplined(Run(s, events[..n]), events[n], Run(s, events[..n + 1]))
  }

  lemma PrefixIsDisciplined(s: System, events: seq<Event>, n: nat)
    requires DisciplinedRun(s, events) && n <= |events|
    ensures DisciplinedRun(s, events[..n])
  {
    hide Run, Disciplined;
    forall m | 0 <= m < n
      ensures Disciplined(Run(s, events[..n][..m]), events[..n][m], Run(s, events[..n][..m + 1]))
    {
      assert events[..n][..m] == events[..m] && events[..n][..m + 1] == events[..m + 1];
      assert Disciplined(Run(s, events[..m]), events[m], Run(s, events[..m + 1]));
    }
  }

  /** ---------- The invariant ---------- */

  /** The names a pass has put to use beyond the record. */
  function InHand(pass: Option<Pass>): set<Ref> {
    if pass.Some? && PastWrite(pass.value) then pass.value.plan.names.Refs() else {}
  }

  /** Everything in use is on record or in the hands of the running pass. */
  predicate AllTracked(w: World, pass: Option<Pass>) {
    w.claim.Some? ==> forall r | r in Used(w) :: r in Tracked(w.claim.value.status) || r in InHand(pass)
  }

  predicate HasBMT(step: EnsureStep) {
    !step.FindBMT? && !step.MakeBMT?
  }

  predicate HasKCT(step: EnsureStep) {
    HasBMT(step) && !step.FindKCT? && !step.MakeKCT? && !step.ReviseKCT?
  }

  /** The templates a pass has ensured exist. */
  predicate Prepared(w: World, p: Pass) {
    match p
    case Ensuring(_, plan, step) =>
      && (HasBMT(step) ==> Ref(BMT, plan.names.bmt) in w.templates)
      && (HasKCT(step) ==> Ref(KCT, plan.names.kct) in w.templates)
    case Settling(_, plan, _) => Ref(BMT, plan.names.bmt) in w.templates && Ref(KCT, plan.names.kct) in w.templates
    case _ => true
  }

  /** While the claim is live, every template in use exists. */
  predicate NoneMissing(w: World, pass: Option<Pass>) {
    w.claim.Some? && !w.claim.value.deleting ==>
      && (forall r | r in Used(w) :: r in w.templates)
      && (pass.Some? ==> Prepared(w, pass.value))
  }

  /** The cleaner has nothing on its list that is on record or that the running pass plans to use. */
  predicate CleanerOk(s: System) {
    s.cleaner.Cleaning? ==>
      && s.cleaner.doomed !! Planned(s.pass)
      && (s.world.claim.Some? ==> s.cleaner.doomed !! Tracked(s.world.claim.value.status))
  }

  predicate TrackInv(s: System) {
    Inv(s) && AllTracked(s.world, s.pass) && NoneMissing(s.world, s.pass) && CleanerOk(s)
  }

  /** ---------- Preservation ---------- */

  lemma OnRecordIsReferenced(st: Status)
    requires LedgerOk(st)
    ensures Tracked(st) == Referenced(st)
  {
  }

  lemma SameUse(w: World, w': World)
    requires w.md == w'.md && w.sets == w'.sets
    ensures Used(w) == Used(w')
  {
  }

  /** What the discipline asks of one call of a pass. */
  predicate DisciplinedCall(w: World, p: Pass, o: Outcome) {
    var served := Serve(w, Next(p), o);
    && (Exposed(p) && Resume(p, served.reply, w.now).None? ==> Recorded(served.world, p.plan.names))
    && (AboutToExpose(p) ==> o != Lost)
  }

  predicate StaysTracked(w: World, p: Pass, o: Outcome) {
    var served := Serve(w, Next(p), o);
    AllTracked(served.world, Resume(p, served.reply, w.now))
  }

  lemma EnsureStaysTracked(w: World, seen: Claim, plan: Plan, step: EnsureStep, o: Outcome)
    requires var p := Ensuring(seen, plan, step); Good(w, Some(p)) && AllTracked(w, Some(p)) && DisciplinedCall(w, p, o)
    requires EnsuresTemplates(step) || step.FindMD?
    ensures StaysTracked(w, Ensuring(seen, plan, step), o)
  {
    hide StatusOk, Used, Tracked, Desired, Merge, DesiredHealthCheck;
    SameUse(w, Serve(w, NextEnsure(seen, plan, step), o).world);
  }

  lemma HealthCheckCall(w: World, seen: Claim, plan: Plan, step: EnsureStep, o: Outcome)
    requires Pointed(step)
    ensures var served := Serve(w, NextEnsure(seen, plan, step), o);
            var after := Resume(Ensuring(seen, plan, step), served.reply, w.now);
            && served.world == w.(mhc := served.world.mhc)
            && (after.Some? ==> PastWrite(after.value) && after.value.plan == plan)
  {
    hide DesiredHealthCheck, HashChanged, StartedStatus, ReadyStatus;
  }

  lemma HealthCheckStaysTracked(w: World, seen: Claim, plan: Plan, step: EnsureStep, o: Outcome)
    requires var p := Ensuring(seen, plan, step); Good(w, Some(p)) && AllTracked(w, Some(p)) && DisciplinedCall(w, p, o)
    requires Pointed(step)
    ensures StaysTracked(w, Ensuring(seen, plan, step), o)
  {
    HealthCheckCall(w, seen, plan, step, o);
    hide StatusOk, Used, Tracked, Serve, NextEnsure, Resume, PastWrite, Pointed;
    assert PastWrite(Ensuring(seen, plan, step)) by { IsPastWrite(seen, plan, step); }
    SameUse(w, Serve(w, NextEnsure(seen, plan, step), o).world);
  }

  lemma IsPastWrite(seen: Claim, plan: Plan, step: EnsureStep)
    requires Pointed(step)
    ensures PastWrite(Ensuring(seen, plan, step))
  {
  }

  /** The write of the deployment puts nothing to use but the plan's names. */
  lemma DeploymentUsesOnlyPlanned(w: World, seen: Claim, plan: Plan, step: EnsureStep, o: Outcome)
    requires step.MakeMD? || step.ReviseMD?
    ensures forall r | r in Used(Serve(w, NextEnsure(seen, plan, step), o).world) :: r in Used(w) || r in plan.names.Refs()
  {
    hide SameInPlace;
  }

  lemma DeploymentCall(w: World, seen: Claim, plan: Plan, step: EnsureStep, o: Outcome)
    requires step.MakeMD? || step.ReviseMD?
    ensures var served := Serve(w, NextEnsure(seen, plan, step), o);
            var after := Resume(Ensuring(seen, plan, step), served.reply, w.now);
            && served.world == w.(md := served.world.md)
            && (after.None? || after == Some(Ensuring(seen, plan, FindMHC)))
            && (after.None? && o != Lost ==> served.world == w)
  {
    hide Desired, Merge;
  }

  lemma DeploymentStaysTracked(w: World, seen: Claim, plan: Plan, step: EnsureStep, o: Outcome)
    requires var p := Ensuring(seen, plan, step); Good(w, Some(p)) && AllTracked(w, Some(p)) && DisciplinedCall(w, p, o)
    requires step.MakeMD? || step.ReviseMD?
    ensures StaysTracked(w, Ensuring(seen, plan, step), o)
  {
    DeploymentUsesOnlyPlanned(w, seen, plan, step, o);
    DeploymentCall(w, seen, plan, step, o);
    hide StatusOk, Used, Serve, NextEnsure, Resume;
  }

  /** A settling pass puts nothing to use, and goes on settling. */
  lemma SettleCall(w: World, seen: Claim, plan: Plan, step: SettleStep, o: Outcome)
    ensures var served := Serve(w, NextSettle(seen, step), o);
            var after := Resume(Settling(seen, plan, step), served.reply, w.now);
            && served.world.md == w.md && served.world.sets == w.sets
            && (!step.Commit? ==> served.world.claim == w.claim)
            && (after.Some? ==> after.value.Settling? && after.value.plan == plan)
            && (step.Commit? ==> served.world.claim == w.claim ||
                                 (w.claim == Some(seen) && served.world.claim == Some(seen.(status := step.next))))
  {
    hide RolloutComplete, WaitingStatus, SweptStatus;
  }

  lemma SettleStaysTracked(w: World, seen: Claim, plan: Plan, step: SettleStep, o: Outcome)
    requires var p := Settling(seen, plan, step); Good(w, Some(p)) && AllTracked(w, Some(p)) && DisciplinedCall(w, p, o)
    ensures StaysTracked(w, Settling(seen, plan, step), o)
  {
    SettleCall(w, seen, plan, step, o);
    hide StatusOk, Used, Tracked, Serve, NextSettle, Resume;
    SameUse(w, Serve(w, NextSettle(seen, step), o).world);
    GoneIsUnused(w);
  }

  lemma GoneIsUnused(w: World)
    ensures forall r | Gone(w, r) :: r !in Used(w)
  {
  }

  lemma SameRecord(a: Status, b: Status)
    requires a.current == b.current && a.pending == b.pending
    ensures Tracked(a) == Tracked(b)
  {
  }

  lemma {:induction false} TeardownHasNothingInHand(seen: Claim, todo: seq<Ref>, tried: set<Ref>)
    ensures Teardown(seen, todo, tried).Tearing?
  {
    if todo != [] && todo[0].kind.OtherKind? {
      TeardownHasNothingInHand(seen, todo[1..], tried);
    }
  }

  lemma TeardownUsesTheSame(w: World, seen: Claim, step: TearStep, o: Outcome)
    ensures Used(Serve(w, NextTear(seen, step), o).world) == Used(w)
  {
    hide SetRefs, DeletingStatus;
  }

  lemma TeardownGoesOnTearing(seen: Claim, step: TearStep, reply: Reply, now: int)
    ensures InHand(Resume(Tearing(seen, step), reply, now)) == {}
  {
    if step.FindDeployment? { TeardownHasNothingInHand(seen, TeardownList(seen.status), {}); }
    if step.DeleteOld? { TeardownHasNothingInHand(seen, step.todo, step.tried + {step.ref}); }
    hide Teardown, TeardownList;
  }

  lemma TeardownKeepsRecord(w: World, seen: Claim, step: TearStep, o: Outcome)
    requires UpToDate(w, seen) && Serve(w, NextTear(seen, step), o).world.claim.Some?
    ensures w.claim.Some? &&
            Tracked(Serve(w, NextTear(seen, step), o).world.claim.value.status) == Tracked(w.claim.value.status)
  {
    SameRecord(seen.status, DeletingStatus(seen.status));
    hide Tracked;
  }

  lemma TearStaysTracked(w: World, seen: Claim, step: TearStep, o: Outcome)
    requires var p := Tearing(seen, step); Good(w, Some(p)) && AllTracked(w, Some(p))
    ensures StaysTracked(w, Tearing(seen, step), o)
  {
    var served := Serve(w, NextTear(seen, step), o);
    TeardownUsesTheSame(w, seen, step, o);
    TeardownGoesOnTearing(seen, step, served.reply, w.now);
    if served.world.claim.Some? {
      TeardownKeepsRecord(w, seen, step, o);
    }
    hide StatusOk, Tracked, Used, TearOk, Serve, NextTear, Resume;
  }

  lemma EntryStaysTracked(w: World, seen: Claim, step: EntryStep, o: Outcome)
    requires var p := Entering(seen, step); Good(w, Some(p)) && AllTracked(w, Some(p))
    ensures StaysTracked(w, Entering(seen, step), o)
  {
    SameRecord(seen.status, ProvisioningStatus(seen.status));
    SameRecord(seen.status, FailedStatus(seen.status));
    SameRecord(seen.status, PausedStatus(seen.status));
    hide StatusOk, Tracked;
  }

  predicate StaysPresent(w: World, p: Pass, o: Outcome) {
    var served := Serve(w, Next(p), o);
    NoneMissing(served.world, Resume(p, served.reply, w.now))
  }

  lemma HealthCheckStaysPresent(w: World, seen: Claim, plan: Plan, step: EnsureStep, o: Outcome)
    requires var p := Ensuring(seen, plan, step); Good(w, Some(p)) && NoneMissing(w, Some(p)) && Pointed(step)
    ensures StaysPresent(w, Ensuring(seen, plan, step), o)
  {
    hide StatusOk, Used, DesiredHealthCheck, StartedStatus, ReadyStatus, HashChanged, PointsTo;
    SameUse(w, Serve(w, NextEnsure(seen, plan, step), o).world);
  }

  lemma EnsureStaysPresent(w: World, seen: Claim, plan: Plan, step: EnsureStep, o: Outcome)
    requires var p := Ensuring(seen, plan, step); Good(w, Some(p)) && NoneMissing(w, Some(p))
    requires EnsuresTemplates(step) || step.FindMD?
    ensures StaysPresent(w, Ensuring(seen, plan, step), o)
  {
    hide StatusOk, NeedsUpdate, Used, Desired, Merge, DesiredHealthCheck, StartedStatus, ReadyStatus, HashChanged, PointsTo;
    SameUse(w, Serve(w, NextEnsure(seen, plan, step), o).world);
  }

  lemma DeploymentStaysPresent(w: World, seen: Claim, plan: Plan, step: EnsureStep, o: Outcome)
    requires var p := Ensuring(seen, plan, step); Good(w, Some(p)) && NoneMissing(w, Some(p))
    requires step.MakeMD? || step.ReviseMD?
    ensures StaysPresent(w, Ensuring(seen, plan, step), o)
  {
    DeploymentUsesOnlyPlanned(w, seen, plan, step, o);
    DeploymentCall(w, seen, plan, step, o);
    hide StatusOk, Used, Serve, NextEnsure, Resume;
  }

  lemma SettleStaysPresent(w: World, seen: Claim, plan: Plan, step: SettleStep, o: Outcome)
    requires var p := Settling(seen, plan, step); Good(w, Some(p)) && NoneMissing(w, Some(p))
    ensures StaysPresent(w, Settling(seen, plan, step), o)
  {
    var w' := Serve(w, NextSettle(seen, step), o).world;
    forall r | r in w.templates && r !in w'.templates
      ensures r !in Used(w) && r !in plan.names.Refs()
    {
      CallDeletesOnlyUnused(w, Settling(seen, plan, step), o, r);
    }
    hide StatusOk, SettleOk, Used, Sweep, RolloutComplete;
    SameUse(w, w');
  }

  lemma EntryStaysPresent(w: World, seen: Claim, step: EntryStep, o: Outcome)
    requires var p := Entering(seen, step); Good(w, Some(p)) && NoneMissing(w, Some(p))
    ensures StaysPresent(w, Entering(seen, step), o)
  {
    hide StatusOk, Used;
    SameUse(w, Serve(w, NextEntry(seen, step), o).world);
  }

  lemma TearStaysPresent(w: World, seen: Claim, step: TearStep, o: Outcome)
    requires var p := Tearing(seen, step); Good(w, Some(p)) && NoneMissing(w, Some(p))
    ensures StaysPresent(w, Tearing(seen, step), o)
  {
    hide StatusOk, TearOk, Used, Prepared;
  }

  /** One call of a pass puts no name on record but those it plans to use. */
  lemma CallRecordsOnlyPlanned(w: World, p: Pass, o: Outcome)
    requires Good(w, Some(p)) && Serve(w, Next(p), o).world.claim.Some?
    ensures w.claim.Some?
    ensures forall r | r in Tracked(Serve(w, Next(p), o).world.claim.value.status) ::
              r in Tracked(w.claim.value.status) || r in Planned(Some(p))
  {
    if w.claim.Some? && !(p.Settling? && p.settle.Commit?) {
      OnlyCommitsChangeTheLedger(w, p, o);
    }
    hide StatusOk, NextEntry, NextEnsure, NextTear, HashChanged;
  }

  lemma PassKeepsCleanerOk(s: System, o: Outcome)
    requires TrackInv(s) && s.pass.Some? && Disciplined(s, Act(o), Step(s, Act(o)))
    ensures CleanerOk(Step(s, Act(o)))
  {
    if Serve(s.world, Next(s.pass.value), o).world.claim.Some? {
      CallRecordsOnlyPlanned(s.world, s.pass.value, o);
    }
    hide Good, AllTracked, NoneMissing, Tracked, Serve, Next, Resume, Exposed, AboutToExpose, Recorded;
  }

  lemma CallKeepsTracked(w: World, p: Pass, o: Outcome)
    requires Good(w, Some(p)) && AllTracked(w, Some(p)) && NoneMissing(w, Some(p)) && DisciplinedCall(w, p, o)
    ensures StaysTracked(w, p, o) && StaysPresent(w, p, o)
  {
    hide StaysTracked, StaysPresent;
    match p
    case Loading => LoadStaysTracked(w, o);
    case Entering(seen, step) =>
      EntryStaysTracked(w, seen, step, o);
      EntryStaysPresent(w, seen, step, o);
    case Ensuring(seen, plan, step) =>
      if step.MakeMD? || step.ReviseMD? {
        DeploymentStaysTracked(w, seen, plan, step, o);
        DeploymentStaysPresent(w, seen, plan, step, o);
      } else {
        if Pointed(step) {
          HealthCheckStaysTracked(w, seen, plan, step, o);
          HealthCheckStaysPresent(w, seen, plan, step, o);
        } else {
          EnsureStaysTracked(w, seen, plan, step, o);
          EnsureStaysPresent(w, seen, plan, step, o);
        }
      }
    case Settling(seen, plan, step) =>
      SettleStaysTracked(w, seen, plan, step, o);
      SettleStaysPresent(w, seen, plan, step, o);
    case Tearing(seen, step) =>
      TearStaysTracked(w, seen, step, o);
      TearStaysPresent(w, seen, step, o);
  }

  lemma LoadStaysTracked(w: World, o: Outcome)
    requires Good(w, Some(Loading)) && AllTracked(w, Some(Loading)) && NoneMissing(w, Some(Loading))
    ensures StaysTracked(w, Loading, o) && StaysPresent(w, Loading, o)
  {
    hide StatusOk, Used, Tracked;
  }

  lemma PassKeepsTracked(s: System, o: Outcome)
    requires TrackInv(s) && s.pass.Some? && Disciplined(s, Act(o), Step(s, Act(o)))
    ensures TrackInv(Step(s, Act(o)))
  {
    assert DisciplinedCall(s.world, s.pass.value, o);
    StepKeepsInv(s, Act(o));
    PassKeepsCleanerOk(s, o);
    CallKeepsTracked(s.world, s.pass.value, o);
    hide CleanerOk, Good, AllTracked, NoneMissing, Serve, Next, Resume, Disciplined;
  }

  lemma CleanerSparesTheRecord(s: System, e: Event)
    requires TrackInv(s) && Disciplined(s, e, Step(s, e)) && ByCleaner(e)
    ensures CleanerOk(Step(s, e))
    ensures Step(s, e).pass == s.pass && Step(s, e).world == s.world.(templates := Step(s, e).world.templates)
    ensures forall r | r in s.world.templates && r !in Step(s, e).world.templates ::
              r !in Planned(s.pass) && (s.world.claim.Some? ==> r !in Tracked(s.world.claim.value.status))
  {
    if s.world.claim.Some? {
      OnRecordIsReferenced(s.world.claim.value.status);
      assert Statuses(s.world)[0] == s.world.claim.value.status;
    }
    hide Good, AllTracked, NoneMissing, Tracked, Referenced, Labelled, Planned;
  }

  lemma CleanerKeepsTracked(s: System, e: Event)
    requires TrackInv(s) && Disciplined(s, e, Step(s, e)) && ByCleaner(e)
    ensures TrackInv(Step(s, e))
  {
    StepKeepsInv(s, e);
    CleanerSparesTheRecord(s, e);
    hide Inv, Tracked, Step, Used, CleanerOk, Disciplined;
    SameUse(s.world, Step(s, e).world);
  }

  /** Users, ClusterAPI and other claims put no new name to use and touch no template of this claim. */
  lemma WorldTouchesNothing(s: System, e: Event)
    requires !ByCleaner(e) && !ByOperator(e)
    ensures forall r | r in Used(StepWorld(s, e)) :: r in Used(s.world)
    ensures forall r | r in Own(s) && r in s.world.templates :: r in StepWorld(s, e).templates
  {
    hide Held, Tracked;
  }

  lemma WorldKeepsTracked(s: System, e: Event)
    requires TrackInv(s) && !ByCleaner(e) && !ByOperator(e)
    ensures TrackInv(Step(s, e))
  {
    StepKeepsInv(s, e);
    WorldKeepsStatus(s, e);
    WorldTouchesNothing(s, e);
    hide Inv, Tracked, Used, StepWorld;
  }

  lemma StepKeepsTracked(s: System, e: Event)
    requires TrackInv(s) && Disciplined(s, e, Step(s, e))
    ensures TrackInv(Step(s, e))
  {
    if ByCleaner(e) { CleanerKeepsTracked(s, e); }
    else if !ByOperator(e) { WorldKeepsTracked(s, e); }
    else if e.Act? && s.pass.Some? { PassKeepsTracked(s, e.outcome); }
    else {
      StepKeepsInv(s, e);
      hide Inv;
    }
  }

  lemma {:induction false} RunKeepsTracked(s: System, events: seq<Event>)
    requires TrackInv(s) && DisciplinedRun(s, events)
    ensures TrackInv(Run(s, events))
  {
    if events != [] {
      var last := |events| - 1;
      assert events[..last + 1] == events;
      assert Disciplined(Run(s, events[..last]), events[last], Run(s, events[..last + 1]));
      RunStep(s, events, last);
      hide TrackInv, Step, Disciplined, Run;
      PrefixIsDisciplined(s, events, last);
      RunKeepsTracked(s, events[..last]);
      StepKeepsTracked(Run(s, events[..last]), events[last]);
    }
  }

  lemma InitialTracked(s: System)
    requires Initial(s)
    ensures TrackInv(s)
  {
    InitialAtRest(s);
  }

  /** ---------- What follows ---------- */

  /** A disciplined run leads from one state to the other. */
  ghost predicate LeadsTo(s: System, at: System) {
    exists events: seq<Event> :: DisciplinedRun(s, events) && Run(s, events) == at
  }

  /** The name is current, on the pending list or in the hands of the running pass, and its template exists
      as long as the claim is live. */
  predicate InOrder(s: System, r: Ref) {
    s.world.claim.Some? ==>
      && (r in Tracked(s.world.claim.value.status) || r in InHand(s.pass))
      && (!s.world.claim.value.deleting ==> r in s.world.templates)
  }

  /** Wherever a disciplined run leads, every template that the deployment or one of its MachineSets uses is
      in order. */
  lemma UsedTemplatesExistAndAreTracked(s: System, at: System)
    requires Initial(s) && LeadsTo(s, at)
    ensures forall r | r in Used(at.world) :: InOrder(at, r)
  {
    var events: seq<Event> :| DisciplinedRun(s, events) && Run(s, events) == at;
    InitialTracked(s);
    RunKeepsTracked(s, events);
    hide Run, Used, Tracked, Inv, CleanerOk, DisciplinedRun;
  }

  lemma CleanerDeletesOnlyDoomed(s: System, e: Event, r: Ref)
    requires ByCleaner(e) && r in s.world.templates && r !in Step(s, e).world.templates
    ensures s.cleaner.Cleaning? && r in s.cleaner.doomed
  {
    hide Labelled, Orphans;
  }

  /** Wherever a disciplined run leads, while the claim exists, the cleaner deletes nothing that is in use,
      whether a pass is running or not. */
  lemma CleanerDeletesOnlyUnused(s: System, at: System, e: Event, r: Ref)
    requires Initial(s) && LeadsTo(s, at) && ByCleaner(e)
    requires at.world.claim.Some? && r in at.world.templates && r !in Step(at, e).world.templates
    ensures r !in Used(at.world)
  {
    var events: seq<Event> :| DisciplinedRun(s, events) && Run(s, events) == at;
    InitialTracked(s);
    RunKeepsTracked(s, events);
    hide Run, DisciplinedRun;
    CleanerDeletesOnlyDoomed(at, e, r);
    hide Step, Used, Tracked, Inv, NoneMissing;
  }

  /** What the clause on the cleaner asks for when the cleaner decides: it spares what the running pass plans
      to use if and only if each planned template that it listed is named by some claim or is younger than
      the grace period. A grace period longer than any pass thus protects what the pass itself creates. */
  lemma MarkSparesPlannedIff(s: System, grace: int)
    requires s.cleaner.HasAll?
    ensures var next := Step(s, Mark(grace));
            next.cleaner.Cleaning? &&
            (next.cleaner.doomed !! Planned(next.pass) <==>
               forall r | r in Planned(s.pass) && r in s.cleaner.seen ::
                 r in ReferencedByAny(Statuses(s.world)) || s.world.now - s.cleaner.seen[r] < grace)
  {
    var doomed := Step(s, Mark(grace)).cleaner.doomed;
    forall r | r in Planned(s.pass)
      ensures r in doomed <==>
                r in s.cleaner.seen && r !in ReferencedByAny(Statuses(s.world)) && s.world.now - s.cleaner.seen[r] >= grace
    {
    }
    hide Planned, ReferencedByAny, Statuses;
  }

  predicate OffRecord(w: World, r: Ref) {
    w.claim.Some? ==> r !in Tracked(w.claim.value.status)
  }

  lemma StepRecordsOnlyPlanned(s: System, e: Event, r: Ref)
    requires Inv(s) && OffRecord(s.world, r) && r !in Planned(s.pass)
    ensures OffRecord(Step(s, e).world, r)
  {
    if e.Act? && s.pass.Some? {
      if Serve(s.world, Next(s.pass.value), e.outcome).world.claim.Some? {
        CallRecordsOnlyPlanned(s.world, s.pass.value, e.outcome);
      }
    } else if ByCleaner(e) {
      CleanerDisturbsNothing(s, e, Loading);
    } else {
      WorldKeepsStatus(s, e);
    }
    hide Good, Tracked, Planned, Serve, StepWorld, StepCleaner, Undisturbed;
  }

  /** A name that is off the record stays off it for good, through any number of passes and edits, unless
      some pass renders it again: completing a pass does not bring it back. */
  lemma {:induction false} OffRecordForGood(s: System, events: seq<Event>, r: Ref)
    requires Inv(s) && OffRecord(s.world, r)
    requires forall n | 0 <= n < |events| :: r !in Planned(Run(s, events[..n]).pass)
    ensures OffRecord(Run(s, events).world, r)
  {
    if events != [] {
      var last := |events| - 1;
      forall n | 0 <= n < last
        ensures r !in Planned(Run(s, events[..last][..n]).pass)
      {
        assert events[..last][..n] == events[..n];
        assert r !in Planned(Run(s, events[..n]).pass);
      }
      hide Inv, OffRecord, Step, Planned;
      OffRecordForGood(s, events[..last], r);
      RunKeepsInv(s, events[..last]);
      StepRecordsOnlyPlanned(Run(s, events[..last]), events[last], r);
    }
  }
}
