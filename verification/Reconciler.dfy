/** The reconciler as it is written: one method per step, working on a copy of the claim whose status it
    changes in place. Every call goes through `Cluster.Request`, before which anybody else may act and
    which may fail. The methods are proved to follow the protocol call by call, so whatever holds in
    every run of the protocol holds in every execution of `Reconcile`. */
module Reconciler {
  import opened Objects
  import opened Ledger
  import opened MachineDeployments
  import opened Protocol
  import opened Convergence
  import opened Safety

  /** The events of a quiet pass. */
  predicate Quiet(events: seq<Event>) {
    forall e | e in events :: e == Begin || e == Act(Done)
  }

  /** Where a quiet history can be, compared with the uninterrupted pass from `s`. */
  predicate Following(s: System, at: System) {
    || at == s
    || (at.pass.Some? && at.finished == s.finished && Finished(at.world, at.pass.value) == Finished(s.world, Loading))
    || (at.pass.None? && at.finished == s.finished + 1 && at.world == Finished(s.world, Loading))
    || (at.pass.Some? && at.finished > s.finished)
    || at.finished > s.finished + 1
  }

  lemma QuietStepFollows(s: System, at: System, e: Event)
    requires Following(s, at) && s.pass.None? && (e == Begin || e == Act(Done))
    ensures Following(s, Step(at, e))
  {
    hide Apply, Resume, Next;
  }

  lemma {:induction false} QuietHistoryFollows(s: System, events: seq<Event>)
    requires s.pass.None? && Quiet(events)
    ensures Following(s, Run(s, events))
  {
    hide Step;
    if events != [] {
      hide Following;
      var before := events[..|events| - 1];
      assert events == before + [events[|events| - 1]];
      assert forall e | e in before :: e in events;
      assert events[|events| - 1] in events;
      QuietHistoryFollows(s, before);
      QuietStepFollows(s, Run(s, before), events[|events| - 1]);
    }
  }

  /** A history without interference or failure in which exactly one pass ran to its end leaves the
      world that the closed form describes. */
  lemma QuietPassIsFinished(s: System, events: seq<Event>)
    requires s.pass.None? && Quiet(events)
    requires Run(s, events).pass.None? && Run(s, events).finished == s.finished + 1
    ensures Run(s, events).world == Finished(s.world, Loading)
  {
    QuietHistoryFollows(s, events);
    hide Run, Finished;
  }

  /** The cluster as the operator meets it. `events` is everything that happened since `start`. */
  class Cluster {
    var sys: System
    ghost var start: System
    ghost var events: seq<Event>

    ghost predicate Valid()
      reads this
    {
      sys == Run(start, events)
    }

    /** The history only grows. */
    twostate predicate Later()
      reads this
    {
      Valid() && start == old(start) && old(events) <= events
    }

    /** A pass has ended. */
    twostate predicate Over()
      reads this
    {
      Later() && sys.pass.None? && sys.finished == old(sys.finished) + 1
    }

    /** The pass has come to `p`. */
    twostate predicate At(p: Pass)
      reads this
    {
      Later() && sys.pass == Some(p) && sys.finished == old(sys.finished)
    }

    constructor (s: System)
      ensures Valid() && sys == s && start == s && events == []
    {
      sys, start, events := s, s, [];
    }

    method Happen(e: Event)
      requires Valid()
      modifies this
      ensures Later() && sys == Step(old(sys), e) && events == old(events) + [e]
    {
      RunJoins(start, events, [e]);
      assert [e][..0] == [];
      sys := Step(sys, e);
      events := events + [e];
    }

    /** Users, ClusterAPI, other claims and the orphan cleaner act as often as they like. */
    method Interfere()
      requires Valid()
      modifies this
      ensures Later() && sys.pass == old(sys.pass) && sys.finished == old(sys.finished)
    {
      var n: nat :| true;
      for i := 0 to n
        invariant Later() && sys.pass == old(sys.pass) && sys.finished == old(sys.finished)
      {
        var e: Event := *;
        if !ByOperator(e) {
          Happen(e);
        }
      }
    }

    method BeginPass()
      requires Valid() && sys.pass.None?
      modifies this
      ensures At(Loading)
    {
      Happen(Begin);
    }

    /** The pass's next API call. */
    method Request(call: Call) returns (reply: Reply)
      requires Valid() && sys.pass.Some? && call == Next(sys.pass.value)
      modifies this
      ensures Later() && sys.pass == Resume(old(sys.pass.value), reply, sys.world.now)
      ensures sys.finished == old(sys.finished) + if sys.pass.None? then 1 else 0
    {
      Interfere();
      var o: Outcome := *;
      reply := Serve(sys.world, call, o).reply;
      Happen(Act(o));
    }

    method Now() returns (now: int)
      ensures now == sys.world.now
    {
      now := sys.world.now;
    }
  }

  /** The operator's copy of the claim. `version` is the stored claim it was read from or last written
      as; an update is refused when the store has moved on since. */
  class LocalClaim {
    var version: Claim
    var phase: Phase
    var current: Option<Names>
    var pending: seq<Ref>
    var startedAt: Option<int>
    var ready: Flag
    var timedOut: Flag

    function View(): Status
      reads this
    {
      Status(phase, current, pending, startedAt, ready, timedOut)
    }

    constructor (c: Claim)
      ensures version == c && View() == c.status
    {
      version := c;
      phase, current, pending := c.status.phase, c.status.current, c.status.pending;
      startedAt, ready, timedOut := c.status.startedAt, c.status.ready, c.status.timedOut;
    }
  }

  /** ---------- Reconcile ---------- */

  /** Reads the claim and takes it one pass further. Whatever happens in between, the calls it makes are
      those of one pass of the protocol, from its beginning to its end; so every state it goes through is
      reachable. If nobody interferes and nothing fails, the world ends up as the closed form says. */
  method Reconcile(cluster: Cluster)
    requires cluster.Valid() && cluster.sys.pass.None?
    modifies cluster
    ensures cluster.Over()
    ensures Quiet(cluster.events[|old(cluster.events)|..]) ==>
              cluster.sys.world == Finished(old(cluster.sys.world), Loading)
    ensures AtRest(cluster.start) ==> Inv(cluster.sys)
  {
    hide Run, Step, Finished, AtRest, Inv;
    ghost var s, before := cluster.sys, cluster.events;
    RunPass(cluster);
    ghost var since := cluster.events[|before|..];
    assert before + since == cluster.events;
    RunJoins(cluster.start, before, since);
    if Quiet(since) {
      QuietPassIsFinished(s, since);
    }
    if AtRest(cluster.start) {
      AtRestInv(cluster.start);
      RunKeepsInv(cluster.start, cluster.events);
    }
  }

  method RunPass(cluster: Cluster)
    requires cluster.Valid() && cluster.sys.pass.None?
    modifies cluster
    ensures cluster.Over()
  {
    hide Run, NextEnsure, ResumeEnsure, NextSettle, ResumeSettle, NextTear, ResumeTear;
    cluster.BeginPass();
    var reply := cluster.Request(GetClaim);
    if !reply.IsClaim? {
      return;
    }
    var claim := new LocalClaim(reply.claim);

    if claim.version.deleting {
      ReconcileDelete(cluster, claim);
      return;
    }
    if claim.version.paused {
      ReconcilePaused(cluster, claim);
      return;
    }
    var ok := EnsureFinalizer(cluster, claim);
    if !ok {
      return;
    }

    reply := cluster.Request(RenderTemplates);
    if !reply.IsRendering? || reply.rendering.RenderFailed? {
      SetFailed(cluster, claim);
      return;
    }
    Provision(cluster, claim, reply.rendering.plan);
  }

  /** The part of a pass that has the rendered templates: ensures all objects and settles the rollout. */
  method Provision(cluster: Cluster, claim: LocalClaim, plan: Plan)
    requires cluster.Valid() && cluster.sys.pass == Some(Ensuring(claim.version, plan, FindBMT))
    requires claim.View() == claim.version.status
    modifies cluster, claim
    ensures cluster.Over()
  {
    hide Run, Next, Resume, Retired, StartedStatus, ReadyStatus;
    var names := plan.names;
    var isFirstProvision := claim.current.None?;
    var hashChanged := !isFirstProvision && (claim.current.value.bmt != names.bmt || claim.current.value.kct != names.kct);

    var ok := EnsureBMT(cluster, claim, plan);
    if !ok {
      return;
    }
    ok := EnsureKCT(cluster, claim, plan);
    if !ok {
      return;
    }

    if hashChanged {
      RetireOldTemplates(claim, names);
    }

    ok := EnsureMachineDeployment(cluster, claim, plan);
    if !ok {
      return;
    }
    ok := EnsureMachineHealthCheck(cluster, claim, plan);
    if !ok {
      return;
    }

    claim.current := Some(names);
    if hashChanged {
      StartRollout(cluster, claim, plan);
    } else if |claim.pending| > 0 {
      TrackRollout(cluster, claim, plan);
    } else {
      SetReady(cluster, claim, plan);
    }
  }

  /** Puts the names on record as awaiting deletion that the claim moves away from, and takes those off
      that it moves (back) to. */
  method RetireOldTemplates(claim: LocalClaim, names: Names)
    requires claim.current.Some? && claim.current.value != names
    modifies claim`pending
    ensures claim.pending == Retired(old(claim.View()), names)
  {
    var was := claim.current.value;
    if was.bmt != names.bmt {
      claim.pending := AppendResourceRef(claim.pending, BMT, was.bmt);
    }
    if was.kct != names.kct {
      claim.pending := AppendResourceRef(claim.pending, KCT, was.kct);
    }
    claim.pending := DropCurrent(claim.pending, names);
  }

  /** Makes sure the claim carries the finalizer; `ok` unless a write failed. */
  method EnsureFinalizer(cluster: Cluster, claim: LocalClaim) returns (ok: bool)
    requires cluster.Valid() && claim.View() == claim.version.status
    requires cluster.sys.pass == Route(claim.version) && !claim.version.deleting && !claim.version.paused
    modifies cluster, claim
    ensures ok ==> cluster.At(Entering(claim.version, Rendering)) && claim.View() == claim.version.status
    ensures ok ==> claim.version.spec == old(claim.version.spec) && claim.current == old(claim.current) && claim.pending == old(claim.pending)
    ensures !ok ==> cluster.Over()
  {
    if claim.version.finalizer {
      return true;
    }
    if claim.phase == NoPhase {
      claim.phase := Provisioning;
      var reply := cluster.Request(PutStatus(claim.version, claim.View()));
      if !reply.Ok? {
        return false;
      }
      claim.version := claim.version.(status := claim.View());
    }
    var reply := cluster.Request(PutFinalizer(claim.version, true));
    if !reply.Ok? {
      return false;
    }
    claim.version := claim.version.(finalizer := true);
    ok := true;
  }

  /** Creates the machine template of the plan unless it exists. */
  method EnsureBMT(cluster: Cluster, claim: LocalClaim, plan: Plan) returns (ok: bool)
    requires cluster.Valid() && cluster.sys.pass == Some(Ensuring(claim.version, plan, FindBMT))
    modifies cluster
    ensures if ok then cluster.At(Ensuring(claim.version, plan, FindKCT)) else cluster.Over()
  {
    var reply := cluster.Request(GetTemplate(Ref(BMT, plan.names.bmt)));
    if reply.IsTemplate? {
      return true;
    }
    if !reply.NotFound? {
      return false;
    }
    reply := cluster.Request(CreateTemplate(Ref(BMT, plan.names.bmt), plan.bmtSpec));
    ok := reply.Ok? || reply.Exists?;
  }

  /** Creates the bootstrap template of the plan, or brings an existing one up to date. */
  method EnsureKCT(cluster: Cluster, claim: LocalClaim, plan: Plan) returns (ok: bool)
    requires cluster.Valid() && cluster.sys.pass == Some(Ensuring(claim.version, plan, FindKCT))
    modifies cluster
    ensures if ok then cluster.At(Ensuring(claim.version, plan, FindMD)) else cluster.Over()
  {
    var ref := Ref(KCT, plan.names.kct);
    var reply := cluster.Request(GetTemplate(ref));
    if reply.IsTemplate? {
      if reply.template.spec != plan.kctSpec {
        reply := cluster.Request(UpdateTemplate(ref, reply.template, plan.kctSpec));
        return reply.Ok?;
      }
      return true;
    }
    if !reply.NotFound? {
      return false;
    }
    reply := cluster.Request(CreateTemplate(ref, plan.kctSpec));
    ok := reply.Ok? || reply.Exists?;
  }

  /** Copies the fields the operator manages, one after the other. */
  method CopyManagedFields(existing: Deployment, desired: Deployment) returns (updated: Deployment)
    ensures updated == Merge(existing, desired)
  {
    updated := existing;
    updated := updated.(replicas := desired.replicas);
    updated := updated.(version := desired.version);
    updated := updated.(infrastructure := desired.infrastructure);
    updated := updated.(bootstrap := desired.bootstrap);
    updated := updated.(labels := desired.labels);
    updated := updated.(taints := desired.taints);
    updated := updated.(rollout := desired.rollout);
    updated := updated.(order := desired.order);
    updated := updated.(machineDeletion := desired.machineDeletion);
    updated := updated.(maxInFlight := desired.maxInFlight);
  }

  /** Creates the deployment, or rewrites it when a managed field differs. */
  method EnsureMachineDeployment(cluster: Cluster, claim: LocalClaim, plan: Plan) returns (ok: bool)
    requires cluster.Valid() && cluster.sys.pass == Some(Ensuring(claim.version, plan, FindMD))
    modifies cluster
    ensures if ok then cluster.At(Ensuring(claim.version, plan, FindMHC)) else cluster.Over()
  {
    hide Run, FoundMHC, NeedsUpdate, Merge, Desired, Finish;
    var desired := BuildMachineDeployment(claim.version.spec, plan.labels, plan.names);
    var reply := cluster.Request(GetMD);
    if reply.NotFound? {
      reply := cluster.Request(CreateMD(desired));
      return reply.Ok?;
    }
    if !reply.IsMD? {
      return false;
    }
    var existing := reply.md;
    var diff := ComputeDiff(desired, existing);
    if !diff.NeedsUpdate() {
      return true;
    }
    var updated := CopyManagedFields(existing, desired);
    reply := cluster.Request(UpdateMD(existing, updated));
    ok := reply.Ok?;
  }

  /** Creates, updates or deletes the health check, as the claim asks. */
  method EnsureMachineHealthCheck(cluster: Cluster, claim: LocalClaim, plan: Plan) returns (ok: bool)
    requires cluster.Valid() && cluster.sys.pass == Some(Ensuring(claim.version, plan, FindMHC))
    modifies cluster
    ensures if ok then cluster.At(Finish(claim.version, plan, cluster.sys.world.now)) else cluster.Over()
  {
    hide Run, Finish, Merge, Desired, NeedsUpdate, DesiredHealthCheck;
    var desired := DesiredHealthCheck(claim.version.spec);
    var reply := cluster.Request(GetMHC);
    if desired.None? {
      if reply.NotFound? {
        return true;
      }
      if !reply.IsMHC? {
        return false;
      }
      reply := cluster.Request(DeleteMHC);
      return reply.Ok? || reply.NotFound?;
    }
    if reply.NotFound? {
      reply := cluster.Request(CreateMHC(desired.value));
      return reply.Ok?;
    }
    if !reply.IsMHC? {
      return false;
    }
    if reply.mhc != desired.value {
      reply := cluster.Request(UpdateMHC(reply.mhc, desired.value));
      return reply.Ok?;
    }
    ok := true;
  }

  /** ---------- Ends of a pass ---------- */

  method SetFailed(cluster: Cluster, claim: LocalClaim)
    requires cluster.Valid() && cluster.sys.pass == Some(Entering(claim.version, EntryStep.SetFailed))
    requires claim.View() == claim.version.status
    modifies cluster, claim
    ensures cluster.Over()
  {
    claim.phase := Failed;
    claim.ready := No;
    var _ := cluster.Request(PutStatus(claim.version, claim.View()));
  }

  method ReconcilePaused(cluster: Cluster, claim: LocalClaim)
    requires cluster.Valid() && claim.View() == claim.version.status
    requires cluster.sys.pass == Route(claim.version) && !claim.version.deleting && claim.version.paused
    modifies cluster, claim
    ensures if old(claim.phase) == Paused then cluster.sys == old(cluster.sys) && cluster.Later() else cluster.Over()
  {
    if claim.phase == Paused {
      return;
    }
    claim.phase := Paused;
    claim.ready := No;
    var _ := cluster.Request(PutStatus(claim.version, claim.View()));
  }

  /** Records that a rollout to the plan's names has begun. */
  method StartRollout(cluster: Cluster, claim: LocalClaim, plan: Plan)
    requires cluster.Valid() && cluster.sys.pass == Some(Finish(claim.version, plan, cluster.sys.world.now))
    requires HashChanged(claim.version.status, plan.names)
    requires claim.View() == claim.version.status.(current := Some(plan.names), pending := Retired(claim.version.status, plan.names))
    modifies cluster, claim
    ensures cluster.Over()
  {
    claim.phase := Updating;
    var now := cluster.Now();
    claim.startedAt := Some(now);
    claim.timedOut := No;
    claim.ready := No;
    var _ := cluster.Request(PutStatus(claim.version, claim.View()));
  }

  method SetReady(cluster: Cluster, claim: LocalClaim, plan: Plan)
    requires cluster.Valid() && cluster.sys.pass == Some(Finish(claim.version, plan, cluster.sys.world.now))
    requires !HashChanged(claim.version.status, plan.names) && claim.version.status.pending == []
    requires claim.View() == claim.version.status.(current := Some(plan.names))
    modifies cluster, claim
    ensures cluster.Over()
  {
    claim.phase := Ready;
    claim.startedAt := None;
    claim.ready := Yes;
    var _ := cluster.Request(PutStatus(claim.version, claim.View()));
  }

  /** Follows a rollout: completes it, or notes that it goes on or has timed out. */
  method TrackRollout(cluster: Cluster, claim: LocalClaim, plan: Plan)
    requires cluster.Valid() && cluster.sys.pass == Some(Settling(claim.version, plan, Track))
    requires claim.View() == claim.version.status.(current := Some(plan.names))
    modifies cluster, claim
    ensures cluster.Over()
  {
    hide Run, Merge, Desired, NeedsUpdate;
    var reply := cluster.Request(GetMD);
    if !reply.IsMD? {
      return;
    }
    if RolloutComplete(reply.md) {
      CompleteRollout(cluster, claim, plan);
      return;
    }
    if claim.startedAt.Some? {
      var timeout := DEFAULT_TIMEOUT;
      if claim.version.spec.rolloutTimeout.Some? {
        timeout := claim.version.spec.rolloutTimeout.value;
      }
      var now := cluster.Now();
      if now - claim.startedAt.value > timeout {
        if claim.phase != Degraded {
          claim.phase := Degraded;
          claim.timedOut := Yes;
          claim.ready := No;
        }
        var _ := cluster.Request(PutStatus(claim.version, claim.View()));
        return;
      }
    }
    claim.phase := Updating;
    var _ := cluster.Request(PutStatus(claim.version, claim.View()));
  }

  /** Looks at every retired template, deletes those no MachineSet uses, and keeps the rest listed. */
  method CompleteRollout(cluster: Cluster, claim: LocalClaim, plan: Plan)
    requires cluster.Valid() && claim.View() == claim.version.status.(current := Some(plan.names))
    requires cluster.sys.pass == Some(Sweep(claim.version, plan, claim.pending, []))
    modifies cluster, claim
    ensures cluster.Over()
  {
    hide Run, Retired, RolloutComplete;
    var stillReferenced := [];
    for i := 0 to |claim.pending|
      invariant claim.version == old(claim.version) && claim.View() == old(claim.View())
      invariant cluster.At(Sweep(claim.version, plan, claim.pending[i..], stillReferenced))
    {
      var ref := claim.pending[i];
      assert claim.pending[i..][1..] == claim.pending[i + 1..];
      var err, inUse := IsTemplateReferencedByMachineSet(cluster, ref);
      if err || inUse {
        stillReferenced := stillReferenced + [ref];
        continue;
      }
      if ref.kind.OtherKind? {
        stillReferenced := stillReferenced + [ref];
        continue;
      }
      var reply := cluster.Request(DeleteTemplate(ref));
      if !reply.Ok? && !reply.NotFound? {
        stillReferenced := stillReferenced + [ref];
      }
    }

    if |stillReferenced| > 0 {
      claim.pending := stillReferenced;
      var _ := cluster.Request(PutStatus(claim.version, claim.View()));
      return;
    }
    claim.pending := [];
    claim.startedAt := None;
    claim.phase := Ready;
    claim.timedOut := No;
    claim.ready := Yes;
    var _ := cluster.Request(PutStatus(claim.version, claim.View()));
  }

  /** Whether a MachineSet uses the template; `err` when the list could not be read. */
  method IsTemplateReferencedByMachineSet(cluster: Cluster, ref: Ref) returns (err: bool, inUse: bool)
    requires cluster.Valid() && cluster.sys.pass.Some? && Next(cluster.sys.pass.value) == ListMachineSets
    modifies cluster
    ensures cluster.Later()
    ensures cluster.sys.finished == old(cluster.sys.finished) + if cluster.sys.pass.None? then 1 else 0
    ensures exists reply: Reply ::
              && cluster.sys.pass == Resume(old(cluster.sys.pass.value), reply, cluster.sys.world.now)
              && err == !reply.IsSets? && (!err ==> inUse == (ref in SetRefs(reply.sets)))
  {
    var reply := cluster.Request(ListMachineSets);
    if !reply.IsSets? {
      return true, false;
    }
    err, inUse := false, false;
    var rest := reply.sets;
    while rest != {}
      invariant rest <= reply.sets && !inUse
      invariant ref !in SetRefs(reply.sets - rest)
      decreases |rest|
    {
      var ms :| ms in rest;
      if (ref.kind == KCT && ms.kct == ref.name) || (ref.kind == BMT && ms.bmt == ref.name) {
        assert ref in ms.Refs();
        inUse := true;
        return;
      }
      rest := rest - {ms};
    }
    assert reply.sets - rest == reply.sets;
  }

  /** ---------- Teardown ---------- */

  /** Deletes the health check, then the deployment, and once that is gone the templates; then it lets
      the claim go. */
  method ReconcileDelete(cluster: Cluster, claim: LocalClaim)
    requires cluster.Valid() && claim.View() == claim.version.status
    requires cluster.sys.pass == Route(claim.version) && claim.version.deleting
    modifies cluster, claim
    ensures if old(claim.version.finalizer) then cluster.Over() else cluster.sys == old(cluster.sys) && cluster.Later()
  {
    hide Run, Step, Next, Resume, Teardown, TeardownList;
    if !claim.version.finalizer {
      return;
    }
    var ok := MarkDeleting(cluster, claim);
    if !ok {
      return;
    }
    ok := DeleteMachineHealthCheck(cluster, claim);
    if !ok {
      return;
    }
    var gone := DeleteDeployment(cluster, claim);
    if gone {
      DeleteTemplates(cluster, claim);
    }
  }

  /** Notes in the status that the claim is being deleted, once. */
  method MarkDeleting(cluster: Cluster, claim: LocalClaim) returns (ok: bool)
    requires cluster.Valid() && claim.View() == claim.version.status
    requires cluster.sys.pass == Route(claim.version) && claim.version.deleting && claim.version.finalizer
    modifies cluster, claim
    ensures ok ==> cluster.At(Tearing(claim.version, FindHealthCheck)) && claim.View() == claim.version.status
    ensures !ok ==> cluster.Over()
  {
    hide Run, NextEnsure, ResumeEnsure, NextSettle, ResumeSettle, NextEntry, ResumeEntry;
    if claim.phase == Deleting {
      return true;
    }
    claim.phase := Deleting;
    var reply := cluster.Request(PutStatus(claim.version, claim.View()));
    if !reply.Ok? {
      return false;
    }
    claim.version := claim.version.(status := claim.View());
    ok := true;
  }

  /** Deletes the deployment; `gone` when there is none, otherwise the pass is over. */
  method DeleteDeployment(cluster: Cluster, claim: LocalClaim) returns (gone: bool)
    requires cluster.Valid() && cluster.sys.pass == Some(Tearing(claim.version, FindDeployment))
    modifies cluster
    ensures if gone then cluster.At(Teardown(claim.version, TeardownList(claim.version.status), {})) else cluster.Over()
  {
    hide Run, Teardown, TeardownList, NextEnsure, ResumeEnsure, NextSettle, ResumeSettle, NextEntry, ResumeEntry;
    var reply := cluster.Request(GetMD);
    if reply.IsMD? {
      reply := cluster.Request(DeleteMD);
      return false;
    }
    gone := reply.NotFound?;
  }

  method DeleteMachineHealthCheck(cluster: Cluster, claim: LocalClaim) returns (ok: bool)
    requires cluster.Valid() && cluster.sys.pass == Some(Tearing(claim.version, FindHealthCheck))
    modifies cluster
    ensures if ok then cluster.At(Tearing(claim.version, FindDeployment)) else cluster.Over()
  {
    hide Run, Teardown, TeardownList, NextEnsure, ResumeEnsure, NextSettle, ResumeSettle, NextEntry, ResumeEntry;
    var reply := cluster.Request(GetMHC);
    if reply.IsMHC? {
      reply := cluster.Request(DeleteMHC);
      return reply.Ok? || reply.NotFound?;
    }
    ok := reply.NotFound?;
  }

  /** Deletes one template by reference. A failure is passed over, as is an unknown kind. */
  method DeleteOldTemplate(cluster: Cluster, claim: LocalClaim, ref: Ref, ghost rest: seq<Ref>, ghost tried: set<Ref>)
    returns (ghost next: set<Ref>)
    requires cluster.Valid() && cluster.sys.pass == Some(Teardown(claim.version, [ref] + rest, tried))
    modifies cluster
    ensures cluster.At(Teardown(claim.version, rest, next))
  {
    hide Run, NextEnsure, ResumeEnsure, NextSettle, ResumeSettle, NextEntry, ResumeEntry;
    next := tried;
    assert ([ref] + rest)[1..] == rest;
    if !ref.kind.OtherKind? {
      var _ := cluster.Request(DeleteTemplate(ref));
      next := tried + {ref};
    }
  }

  /** The deployment is gone: deletes every template on record, current ones first, then removes the
      finalizer. */
  method DeleteTemplates(cluster: Cluster, claim: LocalClaim)
    requires cluster.Valid() && claim.View() == claim.version.status
    requires cluster.sys.pass == Some(Teardown(claim.version, TeardownList(claim.version.status), {}))
    modifies cluster
    ensures cluster.Over()
  {
    hide Run, NextEnsure, ResumeEnsure, NextSettle, ResumeSettle, NextEntry, ResumeEntry, Step;
    ghost var tried: set<Ref> := {};
    if claim.current.Some? {
      var bmt, kct := Ref(BMT, claim.current.value.bmt), Ref(KCT, claim.current.value.kct);
      assert [bmt, kct] + claim.pending == [bmt] + ([kct] + claim.pending);
      if claim.current.value.bmt != "" {
        tried := DeleteOldTemplate(cluster, claim, bmt, [kct] + claim.pending, tried);
      }
      if claim.current.value.kct != "" {
        tried := DeleteOldTemplate(cluster, claim, kct, claim.pending, tried);
      }
    } else {
      assert [] + claim.pending == claim.pending;
    }
    DeletePending(cluster, claim, tried);
    var _ := cluster.Request(PutFinalizer(claim.version, false));
  }

  method DeletePending(cluster: Cluster, claim: LocalClaim, ghost already: set<Ref>)
    requires cluster.Valid() && cluster.sys.pass == Some(Teardown(claim.version, claim.pending, already))
    modifies cluster
    ensures exists tried :: cluster.At(Tearing(claim.version, DropFinalizer(tried)))
  {
    hide Run, Next, Resume, Step;
    ghost var tried := already;
    for i := 0 to |claim.pending|
      invariant cluster.At(Teardown(claim.version, claim.pending[i..], tried))
    {
      assert claim.pending[i..] == [claim.pending[i]] + claim.pending[i + 1..];
      tried := DeleteOldTemplate(cluster, claim, claim.pending[i], claim.pending[i + 1..], tried);
    }
  }
}
