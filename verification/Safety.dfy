/** What holds in every run, whatever fails, crashes or interleaves: the status stays well formed, the
    ledger loses a name only together with its template, a pass over a live claim never deletes a
    template in use, and a teardown keeps its order. */
module Safety {
  import opened Objects
  import opened Ledger
  import opened MachineDeployments
  import opened Protocol

  /** ---------- The invariant ---------- */

  /** Nothing uses the template and it does not exist. */
  predicate Gone(w: World, r: Ref) {
    r !in w.templates && r !in Used(w)
  }

  /** If there is a deployment, it uses these templates. */
  predicate PointsTo(md: Option<Deployment>, names: Names) {
    md.Some? ==> md.value.infrastructure.name == names.bmt && md.value.bootstrap.name == names.kct
  }

  /** The steps after the deployment was seen to use, or made to use, the plan's templates. */
  predicate Pointed(step: EnsureStep) {
    step.FindMHC? || step.MakeMHC? || step.ReviseMHC? || step.DropMHC?
  }

  /** A sweep that has `rest` left to look at: what it dropped so far is gone. */
  predicate SweepOk(w: World, seen: Claim, plan: Plan, rest: seq<Ref>, kept: seq<Ref>) {
    && seen.status.current == Some(plan.names)
    && seen.status.pending != []
    && NoDuplicates(kept + rest)
    && (forall r | r in kept + rest :: r in seen.status.pending)
    && (forall r | r in seen.status.pending :: r in kept + rest || Gone(w, r))
  }

  /** A name that is current on record and that a pass with other names retires. */
  predicate JustRetired(st: Status, names: Names, r: Ref) {
    HashChanged(st, names) && r in st.current.value.Refs() && r !in names.Refs()
  }

  predicate SettleOk(w: World, seen: Claim, plan: Plan, step: SettleStep) {
    match step
    case Track => seen.status.current == Some(plan.names) && seen.status.pending != []
    case Check(ref, todo, kept) => SweepOk(w, seen, plan, [ref] + todo, kept)
    case Drop(ref, todo, kept) => SweepOk(w, seen, plan, [ref] + todo, kept) && ref !in Used(w)
    case Commit(next) =>
      && StatusOk(next) && next.phase != Deleting && next.current == Some(plan.names)
      && (forall r | r in Tracked(seen.status) :: r in Tracked(next) || Gone(w, r))
      && (forall r | r in next.pending :: r in seen.status.pending || JustRetired(seen.status, plan.names, r))
  }

  predicate TearOk(w: World, seen: Claim, step: TearStep) {
    match step
    case FindDeployment => w.mhc.None?
    case DeleteDeployment => w.mhc.None?
    case DeleteOld(ref, todo, tried) =>
      w.mhc.None? && w.md.None? && tried + {ref} + (set r | r in todo) == Tracked(seen.status)
    case DropFinalizer(tried) => w.mhc.None? && w.md.None? && tried == Tracked(seen.status)
    case _ => true
  }

  predicate StepOk(w: World, p: Pass) {
    match p
    case Loading => true
    case Entering(seen, step) => !seen.deleting && (step.SetProvisioning? ==> seen.status.phase == NoPhase)
    case Ensuring(seen, plan, step) => !seen.deleting && (Pointed(step) ==> PointsTo(w.md, plan.names))
    case Settling(seen, plan, step) => !seen.deleting && PointsTo(w.md, plan.names) && SettleOk(w, seen, plan, step)
    case Tearing(seen, step) => seen.deleting && TearOk(w, seen, step)
  }

  predicate ClaimOk(c: Claim) {
    StatusOk(c.status) && (c.status.phase == Deleting ==> c.deleting)
  }

  /** The stored claim has the status the pass knows, and is being deleted if the pass thinks so. */
  predicate UpToDate(w: World, seen: Claim) {
    w.claim.Some? ==> w.claim.value.status == seen.status && (seen.deleting ==> w.claim.value.deleting)
  }

  predicate Good(w: World, pass: Option<Pass>) {
    && (w.claim.Some? ==> ClaimOk(w.claim.value))
    && (pass.Some? && !pass.value.Loading? ==> ClaimOk(pass.value.seen) && UpToDate(w, pass.value.seen))
    && (pass.Some? ==> StepOk(w, pass.value))
  }

  predicate Inv(s: System) {
    Good(s.world, s.pass)
  }

  /** The invariant after the next call of a pass. */
  predicate StaysGood(w: World, p: Pass, o: Outcome) {
    var served := Serve(w, Next(p), o);
    Good(served.world, Resume(p, served.reply, w.now))
  }

  /** ---------- Preservation ---------- */

  lemma LoadStaysGood(w: World, o: Outcome)
    requires Good(w, Some(Loading))
    ensures StaysGood(w, Loading, o)
  {
  }

  lemma EntryStaysGood(w: World, seen: Claim, step: EntryStep, o: Outcome)
    requires Good(w, Some(Entering(seen, step)))
    ensures StaysGood(w, Entering(seen, step), o)
  {
    hide StatusOk;
    CommitsKeepStatusOk(seen.status, Names("-", "-"), None, 0);
  }

  lemma TemplatesStayGood(w: World, seen: Claim, plan: Plan, step: EnsureStep, o: Outcome)
    requires Good(w, Some(Ensuring(seen, plan, step))) && EnsuresTemplates(step)
    ensures StaysGood(w, Ensuring(seen, plan, step), o)
  {
    hide StatusOk, Desired, Merge, NeedsUpdate, FoundMHC;
  }

  lemma DeploymentStaysGood(w: World, seen: Claim, plan: Plan, step: EnsureStep, o: Outcome)
    requires Good(w, Some(Ensuring(seen, plan, step))) && (step.FindMD? || step.MakeMD? || step.ReviseMD?)
    ensures StaysGood(w, Ensuring(seen, plan, step), o)
  {
    hide StatusOk, Merge, SameInPlace, FoundMHC;
  }

  lemma FinishOk(w: World, seen: Claim, plan: Plan)
    requires ClaimOk(seen) && !seen.deleting && PointsTo(w.md, plan.names)
    ensures StepOk(w, Finish(seen, plan, w.now))
  {
    CommitsKeepStatusOk(seen.status, plan.names, None, w.now);
    if HashChanged(seen.status, plan.names) {
      RetireConserves(seen.status, plan.names);
      var next := StartedStatus(seen.status, plan.names, w.now);
      assert Tracked(next) == Tracked(seen.status) + plan.names.Refs();
      forall r | r in next.pending
        ensures r in seen.status.pending || JustRetired(seen.status, plan.names, r)
      {
        assert r in Tracked(next);
      }
      hide Retired;
    }
  }

  lemma FoundHealthCheckStaysGood(w: World, seen: Claim, plan: Plan, o: Outcome)
    requires Good(w, Some(Ensuring(seen, plan, FindMHC)))
    ensures StaysGood(w, Ensuring(seen, plan, FindMHC), o)
  {
    hide StatusOk, Desired, Merge, NeedsUpdate, DesiredHealthCheck;
    FinishOk(w, seen, plan);
    hide Finish, SettleOk;
  }

  lemma HealthCheckStaysGood(w: World, seen: Claim, plan: Plan, step: EnsureStep, o: Outcome)
    requires Good(w, Some(Ensuring(seen, plan, step))) && Pointed(step)
    ensures StaysGood(w, Ensuring(seen, plan, step), o)
  {
    hide StatusOk, Desired, Merge, NeedsUpdate, DesiredHealthCheck, FoundMHC;
    if step.FindMHC? {
      FoundHealthCheckStaysGood(w, seen, plan, o);
    } else {
      FinishOk(Serve(w, NextEnsure(seen, plan, step), o).world, seen, plan);
      hide Finish, SettleOk;
    }
  }

  lemma SweepGoesOn(w: World, seen: Claim, plan: Plan, todo: seq<Ref>, kept: seq<Ref>)
    requires ClaimOk(seen) && !seen.deleting && PointsTo(w.md, plan.names)
    requires SweepOk(w, seen, plan, todo, kept)
    ensures StepOk(w, Sweep(seen, plan, todo, kept))
  {
    if todo == [] {
      assert kept + todo == kept;
    } else {
      assert [todo[0]] + todo[1..] == todo;
    }
  }

  /** The reference in hand is kept. */
  lemma SweepKeeps(w: World, seen: Claim, plan: Plan, ref: Ref, todo: seq<Ref>, kept: seq<Ref>)
    requires SweepOk(w, seen, plan, [ref] + todo, kept)
    ensures SweepOk(w, seen, plan, todo, kept + [ref])
  {
    assert kept + ([ref] + todo) == kept + [ref] + todo;
  }

  /** The reference in hand is unused; once its template is deleted it can be dropped. */
  lemma SweepDrops(w: World, w': World, seen: Claim, plan: Plan, ref: Ref, todo: seq<Ref>, kept: seq<Ref>)
    requires SweepOk(w, seen, plan, [ref] + todo, kept)
    requires w' == w.(templates := w.templates - {ref}) && ref !in Used(w)
    ensures SweepOk(w', seen, plan, todo, kept)
    ensures SweepOk(w', seen, plan, [ref] + todo, kept)
  {
    var all, rest := kept + ([ref] + todo), kept + todo;
    forall i | 0 <= i < |rest|
      ensures rest[i] == all[if i < |kept| then i else i + 1]
    {
    }
    assert forall r :: r in all <==> r == ref || r in rest;
  }

  lemma TrackStaysGood(w: World, seen: Claim, plan: Plan, o: Outcome)
    requires Good(w, Some(Settling(seen, plan, Track)))
    ensures StaysGood(w, Settling(seen, plan, Track), o)
  {
    CommitsKeepStatusOk(seen.status, plan.names, seen.spec.rolloutTimeout, w.now);
    assert [] + seen.status.pending == seen.status.pending;
    SweepGoesOn(w, seen, plan, seen.status.pending, []);
    hide StatusOk, Sweep, SweepOk, RolloutComplete;
  }

  lemma CheckStaysGood(w: World, seen: Claim, plan: Plan, ref: Ref, todo: seq<Ref>, kept: seq<Ref>, o: Outcome)
    requires Good(w, Some(Settling(seen, plan, Check(ref, todo, kept))))
    ensures StaysGood(w, Settling(seen, plan, Check(ref, todo, kept)), o)
  {
    assert ref in kept + ([ref] + todo);
    SweepKeeps(w, seen, plan, ref, todo, kept);
    SweepGoesOn(w, seen, plan, todo, kept + [ref]);
    hide StatusOk, Sweep, SweepOk;
  }

  lemma DropStaysGood(w: World, seen: Claim, plan: Plan, ref: Ref, todo: seq<Ref>, kept: seq<Ref>, o: Outcome)
    requires Good(w, Some(Settling(seen, plan, Drop(ref, todo, kept))))
    ensures StaysGood(w, Settling(seen, plan, Drop(ref, todo, kept)), o)
  {
    var w' := w.(templates := w.templates - {ref});
    SweepDrops(w, w', seen, plan, ref, todo, kept);
    SweepGoesOn(w', seen, plan, todo, kept);
    SweepKeeps(w, seen, plan, ref, todo, kept);
    SweepGoesOn(w, seen, plan, todo, kept + [ref]);
    SweepKeeps(w', seen, plan, ref, todo, kept);
    SweepGoesOn(w', seen, plan, todo, kept + [ref]);
    if ref !in w.templates {
      assert w' == w;
    }
    hide StatusOk, Sweep, SweepOk;
  }

  lemma CommitStaysGood(w: World, seen: Claim, plan: Plan, next: Status, o: Outcome)
    requires Good(w, Some(Settling(seen, plan, Commit(next))))
    ensures StaysGood(w, Settling(seen, plan, Commit(next)), o)
  {
    hide StatusOk;
  }

  lemma {:induction false} TeardownOk(w: World, seen: Claim, todo: seq<Ref>, tried: set<Ref>)
    requires ClaimOk(seen) && seen.deleting && w.md.None? && w.mhc.None?
    requires tried + (set r | r in todo) == Tracked(seen.status)
    ensures Teardown(seen, todo, tried).Tearing? && Teardown(seen, todo, tried).seen == seen
    ensures StepOk(w, Teardown(seen, todo, tried))
  {
    if todo != [] {
      assert todo[0] in Tracked(seen.status);
      assert !todo[0].kind.OtherKind?;
      assert (set r | r in todo) == {todo[0]} + (set r | r in todo[1..]);
    }
  }

  lemma TeardownStaysGood(w: World, seen: Claim, step: TearStep, o: Outcome)
    requires Good(w, Some(Tearing(seen, step))) && !step.DeleteOld?
    ensures StaysGood(w, Tearing(seen, step), o)
  {
    if step.FindDeployment? && w.md.None? {
      TeardownOk(w, seen, TeardownList(seen.status), {});
    }
    hide LedgerOk, Teardown, TeardownList, Tracked;
  }

  lemma DeleteOldStaysGood(w: World, seen: Claim, step: TearStep, o: Outcome)
    requires Good(w, Some(Tearing(seen, step))) && step.DeleteOld?
    ensures StaysGood(w, Tearing(seen, step), o)
  {
    TeardownOk(Serve(w, DeleteTemplate(step.ref), o).world, seen, step.todo, step.tried + {step.ref});
    hide StatusOk, Teardown, TeardownList, Tracked, TearOk;
  }

  lemma PassStaysGood(w: World, p: Pass, o: Outcome)
    requires Good(w, Some(p))
    ensures StaysGood(w, p, o)
  {
    hide StaysGood, StepOk, ClaimOk, UpToDate;
    match p
    case Loading => LoadStaysGood(w, o);
    case Entering(seen, step) => EntryStaysGood(w, seen, step, o);
    case Ensuring(seen, plan, step) =>
      if EnsuresTemplates(step) { TemplatesStayGood(w, seen, plan, step, o); }
      else if Pointed(step) { HealthCheckStaysGood(w, seen, plan, step, o); }
      else { DeploymentStaysGood(w, seen, plan, step, o); }
    case Settling(seen, plan, step) =>
      match step {
       case Track => TrackStaysGood(w, seen, plan, o);
       case Check(ref, todo, kept) => CheckStaysGood(w, seen, plan, ref, todo, kept, o);
       case Drop(ref, todo, kept) => DropStaysGood(w, seen, plan, ref, todo, kept, o);
       case Commit(next) => CommitStaysGood(w, seen, plan, next, o);
      }
    case Tearing(seen, step) =>
      if step.DeleteOld? { DeleteOldStaysGood(w, seen, step, o); } else { TeardownStaysGood(w, seen, step, o); }
  }

  /** The world as far as a running pass cares: no reference it has hold of comes back to life. */
  predicate Undisturbed(w: World, w': World, p: Pass) {
    && (w'.md.Some? ==> w.md.Some? && w'.md.value.Refs() == w.md.value.Refs())
    && (forall r | r in Used(w') :: r in Used(w) || (w.md.Some? && r in w.md.value.Refs()))
    && (forall r | r in w'.templates :: r in w.templates || r !in Held(p))
    && w'.mhc == w.mhc
  }

  /** Only the operator writes the status, and a deletion request is never taken back. */
  predicate SameStatus(w: World, w': World) {
    w'.claim.Some? ==>
      && w.claim.Some? && w'.claim.value.status == w.claim.value.status
      && (w.claim.value.deleting ==> w'.claim.value.deleting)
  }

  lemma UndisturbedStaysGood(w: World, w': World, p: Pass)
    requires Good(w, Some(p)) && Undisturbed(w, w', p) && SameStatus(w, w')
    ensures Good(w', Some(p))
  {
    if w'.md.Some? {
      var md, md' := w.md.value, w'.md.value;
      assert Ref(BMT, md'.infrastructure.name) in md.Refs() && Ref(KCT, md'.bootstrap.name) in md.Refs();
    }
  }

  lemma CleanerDisturbsNothing(s: System, e: Event, p: Pass)
    requires ByCleaner(e)
    ensures Undisturbed(s.world, Step(s, e).world, p) && SameStatus(s.world, Step(s, e).world)
  {
    hide Labelled, Orphans, Held;
  }

  lemma WorldDisturbsNothing(s: System, e: Event, p: Pass)
    requires s.pass == Some(p) && !ByCleaner(e) && !ByOperator(e)
    ensures Undisturbed(s.world, StepWorld(s, e), p)
  {
    assert Held(p) <= Own(s);
    hide Held, Own;
  }

  lemma WorldKeepsStatus(s: System, e: Event)
    ensures SameStatus(s.world, StepWorld(s, e))
  {
  }

  lemma OthersStayGood(s: System, e: Event)
    requires Inv(s) && !ByOperator(e)
    ensures Inv(Step(s, e))
  {
    var w' := Step(s, e).world;
    assert SameStatus(s.world, w') by {
      if ByCleaner(e) { CleanerDisturbsNothing(s, e, Loading); } else { WorldKeepsStatus(s, e); }
    }
    if s.pass.Some? {
      if ByCleaner(e) { CleanerDisturbsNothing(s, e, s.pass.value); } else { WorldDisturbsNothing(s, e, s.pass.value); }
      UndisturbedStaysGood(s.world, w', s.pass.value);
    }
    hide StepOk, StatusOk, UpToDate, Undisturbed, StepWorld, StepCleaner;
  }

  lemma StepKeepsInv(s: System, e: Event)
    requires Inv(s)
    ensures Inv(Step(s, e))
  {
    if !ByOperator(e) { OthersStayGood(s, e); }
    else if e.Act? && s.pass.Some? { PassStaysGood(s.world, s.pass.value, e.outcome); }
  }

  /** The invariant holds in every reachable state. */
  lemma {:induction false} RunKeepsInv(s: System, events: seq<Event>)
    requires Inv(s)
    ensures Inv(Run(s, events))
  {
    hide Inv, Step;
    if events != [] {
      RunKeepsInv(s, events[..|events| - 1]);
      StepKeepsInv(Run(s, events[..|events| - 1]), events[|events| - 1]);
    }
  }

  /** ---------- What follows for every run ---------- */

  /** No pass is running and the stored claim, if there is one, is well formed. Everything else is
      arbitrary: templates, deployment, MachineSets of an earlier life, what the cleaner is doing. */
  predicate AtRest(s: System) {
    s.pass.None? && (s.world.claim.Some? ==> ClaimOk(s.world.claim.value))
  }

  lemma AtRestInv(s: System)
    requires AtRest(s)
    ensures Inv(s)
  {
  }

  /** So it is with every new claim. */
  lemma InitialAtRest(s: System)
    requires Initial(s)
    ensures AtRest(s)
  {
  }

  /** One event of a run after the other. */
  lemma RunStep(s: System, events: seq<Event>, n: nat)
    requires n < |events|
    ensures Run(s, events[..n + 1]) == Step(Run(s, events[..n]), events[n])
  {
    assert events[..n + 1][..n] == events[..n];
  }

  /** Every status that is ever stored is well formed: the pending list holds each name once, only of
      the two kinds and none that is current; it is non-empty exactly while a rollout has a start time,
      and phase and conditions agree with it. */
  lemma StatusAlwaysOk(s: System, events: seq<Event>)
    requires AtRest(s) && Run(s, events).world.claim.Some?
    ensures StatusOk(Run(s, events).world.claim.value.status)
  {
    AtRestInv(s);
    RunKeepsInv(s, events);
    hide Run, StatusOk;
  }

  lemma PendingIsNotCurrent(st: Status, r: Ref)
    requires StatusOk(st) && st.current.Some? && r in st.pending
    ensures r !in st.current.value.Refs()
  {
  }

  /** One call of a pass over a live claim deletes at most a retired template that nothing uses. */
  lemma CallDeletesOnlyUnused(w: World, p: Pass, o: Outcome, r: Ref)
    requires Good(w, Some(p)) && !p.Tearing?
    requires r in w.templates && r !in Serve(w, Next(p), o).world.templates
    ensures r !in Used(w)
    ensures p.Settling? && r in p.seen.status.pending && r !in p.plan.names.Refs()
  {
    assert p.Settling? && p.settle.Drop? && r == p.settle.ref;
    assert r in p.settle.kept + ([r] + p.settle.todo);
    PendingIsNotCurrent(p.seen.status, r);
    hide StatusOk, Used, Merge, Desired;
  }

  /** Deletion safety: in every run, with failures and crashes anywhere, edits, stale deployment status
      and MachineSets appearing between any two calls, a template that a pass over a live claim deletes
      is at that moment used neither by the deployment nor by any MachineSet, is not one of the names
      the pass is about to record as current, and was on record as awaiting deletion. */
  lemma DeletionSafety(s: System, events: seq<Event>, n: nat, r: Ref)
    requires AtRest(s) && n < |events| && events[n].Act?
    requires var at, next := Run(s, events[..n]), Run(s, events[..n + 1]);
             && at.pass.Some? && !at.pass.value.Tearing?
             && r in at.world.templates && r !in next.world.templates
    ensures var at := Run(s, events[..n]);
            && r !in Used(at.world)
            && at.pass.value.Settling? && r in at.pass.value.seen.status.pending
            && r !in at.pass.value.plan.names.Refs()
  {
    AtRestInv(s);
    RunKeepsInv(s, events[..n]);
    RunStep(s, events, n);
    var at := Run(s, events[..n]);
    hide Run, Good, Used;
    CallDeletesOnlyUnused(at.world, at.pass.value, events[n].outcome, r);
  }

  /** Only a pass's final status write changes the ledger. */
  lemma OnlyCommitsChangeTheLedger(w: World, p: Pass, o: Outcome)
    requires Good(w, Some(p)) && !(p.Settling? && p.settle.Commit?)
    requires w.claim.Some? && Serve(w, Next(p), o).world.claim.Some?
    ensures var was, next := w.claim.value.status, Serve(w, Next(p), o).world.claim.value.status;
            next.current == was.current && next.pending == was.pending && Tracked(next) == Tracked(was)
  {
    hide StatusOk, StepOk, Merge, Desired;
  }

  /** One call of a pass takes a name off the record only once its template is gone. */
  lemma CallForgetsOnlyTheGone(w: World, p: Pass, o: Outcome, r: Ref)
    requires Good(w, Some(p))
    requires var w' := Serve(w, Next(p), o).world;
             && w.claim.Some? && w'.claim.Some?
             && r in Tracked(w.claim.value.status) && r !in Tracked(w'.claim.value.status)
    ensures Gone(Serve(w, Next(p), o).world, r)
    ensures p.Settling? && p.settle.Commit?
  {
    if !(p.Settling? && p.settle.Commit?) {
      OnlyCommitsChangeTheLedger(w, p, o);
    }
    hide StatusOk, NextEntry, NextEnsure, NextTear, Tracked;
  }

  /** Conservation of the ledger: whatever happens, as long as the claim exists, a name leaves the
      record (current pair and pending list) only in a pass's final status write, and only when no
      template of that name exists and nothing uses it. */
  lemma LedgerConservation(s: System, events: seq<Event>, n: nat, r: Ref)
    requires AtRest(s) && n < |events|
    requires var at, next := Run(s, events[..n]), Run(s, events[..n + 1]);
             && at.world.claim.Some? && next.world.claim.Some?
             && r in Tracked(at.world.claim.value.status) && r !in Tracked(next.world.claim.value.status)
    ensures Gone(Run(s, events[..n + 1]).world, r)
    ensures events[n].Act? && Run(s, events[..n]).pass.Some? && Run(s, events[..n]).pass.value.Settling?
  {
    AtRestInv(s);
    RunKeepsInv(s, events[..n]);
    RunStep(s, events, n);
    var at, e := Run(s, events[..n]), events[n];
    assert e.Act? && at.pass.Some? by {
      if ByCleaner(e) { CleanerDisturbsNothing(at, e, Loading); } else { WorldKeepsStatus(at, e); }
      hide Run, Good, Tracked, StepCleaner, StepWorld;
    }
    hide Run, Good, Tracked;
    CallForgetsOnlyTheGone(at.world, at.pass.value, e.outcome, r);
  }

  lemma CallAddsOnlyTheRetired(w: World, p: Pass, o: Outcome, r: Ref)
    requires Good(w, Some(p))
    requires var w' := Serve(w, Next(p), o).world;
             && w.claim.Some? && w'.claim.Some?
             && r in w'.claim.value.status.pending && r !in w.claim.value.status.pending
    ensures p.Settling? && JustRetired(w.claim.value.status, p.plan.names, r)
  {
    if !(p.Settling? && p.settle.Commit?) {
      OnlyCommitsChangeTheLedger(w, p, o);
    }
    hide StatusOk, NextEntry, NextEnsure, NextTear, Tracked, Gone;
  }

  /** The pending list grows only when a pass moves to other names, and only by the pair it retires: with
      stable names it never grows. */
  lemma PendingGrowsOnlyByRetirement(s: System, events: seq<Event>, n: nat, r: Ref)
    requires AtRest(s) && n < |events|
    requires var at, next := Run(s, events[..n]), Run(s, events[..n + 1]);
             && at.world.claim.Some? && next.world.claim.Some?
             && r in next.world.claim.value.status.pending && r !in at.world.claim.value.status.pending
    ensures var at := Run(s, events[..n]);
            && events[n].Act? && at.pass.Some? && at.pass.value.Settling?
            && JustRetired(at.world.claim.value.status, at.pass.value.plan.names, r)
  {
    AtRestInv(s);
    RunKeepsInv(s, events[..n]);
    RunStep(s, events, n);
    var at, e := Run(s, events[..n]), events[n];
    assert e.Act? && at.pass.Some? by {
      if ByCleaner(e) { CleanerDisturbsNothing(at, e, Loading); } else { WorldKeepsStatus(at, e); }
      hide Run, Good, StepCleaner, StepWorld;
    }
    hide Run, Good, JustRetired;
    CallAddsOnlyTheRetired(at.world, at.pass.value, e.outcome, r);
  }

  /** Teardown order of one call. */
  predicate TeardownOrdered(w: World, seen: Claim, step: TearStep, w': World) {
    && (forall r | r in w'.templates :: r in w.templates && w'.templates[r] == w.templates[r])
    && (w.md.Some? || w.mhc.Some? ==> w'.templates == w.templates)
    && (w.mhc.Some? ==> w'.md == w.md)
    && (w'.md.Some? ==> w.md.Some? && w'.md.value.Refs() == w.md.value.Refs())
    && (w'.mhc.Some? ==> w'.mhc == w.mhc)
    && (w.claim.Some? && w'.claim.None? ==>
          w.mhc.None? && w.md.None? && step.DropFinalizer? && step.tried == Tracked(w.claim.value.status))
  }

  lemma TeardownCallOrdered(w: World, seen: Claim, step: TearStep, o: Outcome)
    requires Good(w, Some(Tearing(seen, step)))
    ensures TeardownOrdered(w, seen, step, Serve(w, NextTear(seen, step), o).world)
  {
    hide StatusOk, Tracked;
  }

  /** Teardown order: a call of a pass over a claim that is being deleted creates and re-points nothing; it
      asks for the deletion of the deployment only once the health check is gone, and deletes a template only
      once both are gone; and it lets go of the claim only when both are gone and a delete was issued for
      every name on record. */
  lemma TeardownOrder(s: System, events: seq<Event>, n: nat)
    requires AtRest(s) && n < |events| && events[n].Act?
    requires var at := Run(s, events[..n]); at.pass.Some? && at.pass.value.Tearing?
    ensures var at, next := Run(s, events[..n]), Run(s, events[..n + 1]);
            TeardownOrdered(at.world, at.pass.value.seen, at.pass.value.tear, next.world)
  {
    AtRestInv(s);
    RunKeepsInv(s, events[..n]);
    RunStep(s, events, n);
    var at := Run(s, events[..n]);
    TeardownCallOrdered(at.world, at.pass.value.seen, at.pass.value.tear, events[n].outcome);
    hide Run, Good, TeardownOrdered, Apply;
  }
}
