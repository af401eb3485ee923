/** The operator as a state machine. A reconcile pass is a sequence of API calls; between any two
    of them users, ClusterAPI and the orphan cleaner may act, and every call may fail. */
module Protocol {
  import opened Objects
  import opened Ledger
  import opened MachineDeployments

  /** ---------- The API server ---------- */

  /** Everything stored in the management cluster that one claim's reconciliation can see. `rendering`
      is what the label policy, the shared templates and the renderer yield for the claim at present;
      `others` are the statuses of the other claims. */
  datatype World = World(
    claim: Option<Claim>,
    rendering: Rendering,
    templates: map<Ref, Template>,
    md: Option<Deployment>,
    sets: set<MachineSet>,
    mhc: Option<HealthCheck>,
    others: seq<Status>,
    now: int)

  /** The templates in use: those of the deployment and of its MachineSets. */
  function Used(w: World): set<Ref> {
    (if w.md.Some? then w.md.value.Refs() else {}) + SetRefs(w.sets)
  }

  function SetRefs(sets: set<MachineSet>): set<Ref> {
    set ms, r | ms in sets && r in ms.Refs() :: r
  }

  datatype Call =
    | GetClaim
    | PutStatus(seen: Claim, status: Status)
    | PutFinalizer(seen: Claim, on: bool)
    | RenderTemplates
    | GetTemplate(ref: Ref)
    | CreateTemplate(ref: Ref, spec: string)
    | UpdateTemplate(ref: Ref, template: Template, spec: string)
    | DeleteTemplate(ref: Ref)
    | GetMD
    | CreateMD(md: Deployment)
    | UpdateMD(stored: Deployment, md: Deployment)
    | DeleteMD
    | GetMHC
    | CreateMHC(mhc: HealthCheck)
    | UpdateMHC(found: HealthCheck, mhc: HealthCheck)
    | DeleteMHC
    | ListMachineSets

  datatype Reply =
    | Error
    | NotFound
    | Exists
    | Ok
    | IsClaim(claim: Claim)
    | IsRendering(rendering: Rendering)
    | IsTemplate(template: Template)
    | IsMD(md: Deployment)
    | IsMHC(mhc: HealthCheck)
    | IsSets(sets: set<MachineSet>)

  datatype Served = Served(world: World, reply: Reply)

  /** What the server does with a call it carries out. An update of an object that is no longer the
      one that was read is refused as a conflict. */
  function Apply(w: World, call: Call): Served {
    match call
    case GetClaim => Served(w, if w.claim.Some? then IsClaim(w.claim.value) else NotFound)
    case PutStatus(seen, status) =>
      if w.claim == Some(seen) then Served(w.(claim := Some(seen.(status := status))), Ok) else Served(w, Error)
    case PutFinalizer(seen, on) =>
      if w.claim != Some(seen) then Served(w, Error)
      else if seen.deleting && !on then Served(w.(claim := None), Ok)
      else Served(w.(claim := Some(seen.(finalizer := on))), Ok)
    case RenderTemplates => Served(w, IsRendering(w.rendering))
    case GetTemplate(ref) => Served(w, if ref in w.templates then IsTemplate(w.templates[ref]) else NotFound)
    case CreateTemplate(ref, spec) =>
      if ref in w.templates then Served(w, Exists)
      else Served(w.(templates := w.templates[ref := Template(spec, true, w.now)]), Ok)
    case UpdateTemplate(ref, template, spec) =>
      if ref in w.templates && w.templates[ref] == template
      then Served(w.(templates := w.templates[ref := template.(spec := spec)]), Ok)
      else Served(w, Error)
    case DeleteTemplate(ref) =>
      if ref in w.templates then Served(w.(templates := w.templates - {ref}), Ok) else Served(w, NotFound)
    case GetMD => Served(w, if w.md.Some? then IsMD(w.md.value) else NotFound)
    case CreateMD(md) => if w.md.None? then Served(w.(md := Some(md)), Ok) else Served(w, Exists)
    case UpdateMD(stored, md) => if w.md == Some(stored) then Served(w.(md := Some(md)), Ok) else Served(w, Error)
    case DeleteMD =>
      if w.md.Some? then Served(w.(md := Some(w.md.value.(terminating := true))), Ok) else Served(w, NotFound)
    case GetMHC => Served(w, if w.mhc.Some? then IsMHC(w.mhc.value) else NotFound)
    case CreateMHC(mhc) => if w.mhc.None? then Served(w.(mhc := Some(mhc)), Ok) else Served(w, Exists)
    case UpdateMHC(found, mhc) => if w.mhc == Some(found) then Served(w.(mhc := Some(mhc)), Ok) else Served(w, Error)
    case DeleteMHC => if w.mhc.Some? then Served(w.(mhc := None), Ok) else Served(w, NotFound)
    case ListMachineSets => Served(w, IsSets(w.sets))
  }

  /** A call is carried out, refused without effect, or carried out while its reply is lost. */
  datatype Outcome = Done | Refused | Lost

  function Serve(w: World, call: Call, o: Outcome): Served {
    match o
    case Done => Apply(w, call)
    case Refused => Served(w, Error)
    case Lost => Served(Apply(w, call).world, Error)
  }

  /** ---------- A reconcile pass ---------- */

  /** The steps of a pass name the API call it makes next. */
  datatype EntryStep = SetProvisioning | AddFinalizer | Rendering | SetFailed | SetPaused

  datatype EnsureStep =
    | FindBMT
    | MakeBMT
    | FindKCT
    | MakeKCT
    | ReviseKCT(template: Template)
    | FindMD
    | MakeMD
    | ReviseMD(stored: Deployment)
    | FindMHC
    | MakeMHC(wanted: HealthCheck)
    | ReviseMHC(found: HealthCheck, wanted: HealthCheck)
    | DropMHC

  /** The steps that see to the two templates. */
  predicate EnsuresTemplates(step: EnsureStep) {
    step.FindBMT? || step.MakeBMT? || step.FindKCT? || step.MakeKCT? || step.ReviseKCT?
  }

  /** In `Check` and `Drop`, `ref` is the reference in hand, `todo` the rest of the pending list and
      `kept` what stays on it. */
  datatype SettleStep =
    | Track
    | Check(ref: Ref, todo: seq<Ref>, kept: seq<Ref>)
    | Drop(ref: Ref, todo: seq<Ref>, kept: seq<Ref>)
    | Commit(next: Status)

  /** `tried` is what a delete was issued for. */
  datatype TearStep =
    | SetDeleting
    | FindHealthCheck
    | DeleteHealthCheck
    | FindDeployment
    | DeleteDeployment
    | DeleteOld(ref: Ref, todo: seq<Ref>, tried: set<Ref>)
    | DropFinalizer(tried: set<Ref>)

  /** A pass reads the claim, enters, ensures the objects of its plan and settles the rollout, or
      tears everything down. `seen` is the claim as the pass last read or wrote it. */
  datatype Pass =
    | Loading
    | Entering(seen: Claim, entry: EntryStep)
    | Ensuring(seen: Claim, plan: Plan, ensure: EnsureStep)
    | Settling(seen: Claim, plan: Plan, settle: SettleStep)
    | Tearing(seen: Claim, tear: TearStep)

  function Next(p: Pass): Call {
    match p
    case Loading => GetClaim
    case Entering(seen, step) => NextEntry(seen, step)
    case Ensuring(seen, plan, step) => NextEnsure(seen, plan, step)
    case Settling(seen, plan, step) => NextSettle(seen, step)
    case Tearing(seen, step) => NextTear(seen, step)
  }

  function NextEntry(seen: Claim, step: EntryStep): Call {
    match step
    case SetProvisioning => PutStatus(seen, ProvisioningStatus(seen.status))
    case AddFinalizer => PutFinalizer(seen, true)
    case Rendering => RenderTemplates
    case SetFailed => PutStatus(seen, FailedStatus(seen.status))
    case SetPaused => PutStatus(seen, PausedStatus(seen.status))
  }

  function NextEnsure(seen: Claim, plan: Plan, step: EnsureStep): Call {
    match step
    case FindBMT => GetTemplate(Ref(BMT, plan.names.bmt))
    case MakeBMT => CreateTemplate(Ref(BMT, plan.names.bmt), plan.bmtSpec)
    case FindKCT => GetTemplate(Ref(KCT, plan.names.kct))
    case MakeKCT => CreateTemplate(Ref(KCT, plan.names.kct), plan.kctSpec)
    case ReviseKCT(template) => UpdateTemplate(Ref(KCT, plan.names.kct), template, plan.kctSpec)
    case FindMD => GetMD
    case MakeMD => CreateMD(Desired(seen.spec, plan.labels, plan.names))
    case ReviseMD(stored) => UpdateMD(stored, Merge(stored, Desired(seen.spec, plan.labels, plan.names)))
    case FindMHC => GetMHC
    case MakeMHC(wanted) => CreateMHC(wanted)
    case ReviseMHC(found, wanted) => UpdateMHC(found, wanted)
    case DropMHC => DeleteMHC
  }

  function NextSettle(seen: Claim, step: SettleStep): Call {
    match step
    case Track => GetMD
    case Check(_, _, _) => ListMachineSets
    case Drop(ref, _, _) => DeleteTemplate(ref)
    case Commit(next) => PutStatus(seen, next)
  }

  function NextTear(seen: Claim, step: TearStep): Call {
    match step
    case SetDeleting => PutStatus(seen, DeletingStatus(seen.status))
    case FindHealthCheck => GetMHC
    case DeleteHealthCheck => DeleteMHC
    case FindDeployment => GetMD
    case DeleteDeployment => DeleteMD
    case DeleteOld(ref, _, _) => DeleteTemplate(ref)
    case DropFinalizer(_) => PutFinalizer(seen, false)
  }

  /** The pass after a reply; None when the pass is over. `now` is the operator's clock. */
  function Resume(p: Pass, r: Reply, now: int): Option<Pass> {
    match p
    case Loading => if r.IsClaim? then Route(r.claim) else None
    case Entering(seen, step) => ResumeEntry(seen, step, r)
    case Ensuring(seen, plan, step) => ResumeEnsure(seen, plan, step, r, now)
    case Settling(seen, plan, step) => ResumeSettle(seen, plan, step, r, now)
    case Tearing(seen, step) => ResumeTear(seen, step, r)
  }

  function ResumeEntry(seen: Claim, step: EntryStep, r: Reply): Option<Pass> {
    match step
    case SetProvisioning =>
      if r.Ok? then Some(Entering(seen.(status := ProvisioningStatus(seen.status)), AddFinalizer)) else None
    case AddFinalizer => if r.Ok? then Some(Entering(seen.(finalizer := true), Rendering)) else None
    case Rendering =>
      if r.IsRendering? && r.rendering.Rendered? then Some(Ensuring(seen, r.rendering.plan, FindBMT))
      else Some(Entering(seen, SetFailed))
    case SetFailed => None
    case SetPaused => None
  }

  function ResumeEnsure(seen: Claim, plan: Plan, step: EnsureStep, r: Reply, now: int): Option<Pass> {
    match step
    case FindBMT =>
      if r.IsTemplate? then Some(Ensuring(seen, plan, FindKCT))
      else if r.NotFound? then Some(Ensuring(seen, plan, MakeBMT))
      else None
    case MakeBMT => if r.Ok? || r.Exists? then Some(Ensuring(seen, plan, FindKCT)) else None
    case FindKCT =>
      if r.IsTemplate? then
        Some(Ensuring(seen, plan, if r.template.spec == plan.kctSpec then FindMD else ReviseKCT(r.template)))
      else if r.NotFound? then Some(Ensuring(seen, plan, MakeKCT))
      else None
    case MakeKCT => if r.Ok? || r.Exists? then Some(Ensuring(seen, plan, FindMD)) else None
    case ReviseKCT(_) => if r.Ok? then Some(Ensuring(seen, plan, FindMD)) else None
    case FindMD =>
      if r.IsMD? then
        var needsUpdate := NeedsUpdate(Desired(seen.spec, plan.labels, plan.names), r.md);
        Some(Ensuring(seen, plan, if needsUpdate then ReviseMD(r.md) else FindMHC))
      else if r.NotFound? then Some(Ensuring(seen, plan, MakeMD))
      else None
    case MakeMD => if r.Ok? then Some(Ensuring(seen, plan, FindMHC)) else None
    case ReviseMD(_) => if r.Ok? then Some(Ensuring(seen, plan, FindMHC)) else None
    case FindMHC => FoundMHC(seen, plan, DesiredHealthCheck(seen.spec), r, now)
    case MakeMHC(_) => if r.Ok? then Some(Finish(seen, plan, now)) else None
    case ReviseMHC(_, _) => if r.Ok? then Some(Finish(seen, plan, now)) else None
    case DropMHC => if r.Ok? || r.NotFound? then Some(Finish(seen, plan, now)) else None
  }

  function FoundMHC(seen: Claim, plan: Plan, desired: Option<HealthCheck>, r: Reply, now: int): Option<Pass> {
    match desired
    case None =>
      if r.NotFound? then Some(Finish(seen, plan, now))
      else if r.IsMHC? then Some(Ensuring(seen, plan, DropMHC))
      else None
    case Some(wanted) =>
      if r.NotFound? then Some(Ensuring(seen, plan, MakeMHC(wanted)))
      else if !r.IsMHC? then None
      else if r.mhc == wanted then Some(Finish(seen, plan, now))
      else Some(Ensuring(seen, plan, ReviseMHC(r.mhc, wanted)))
  }

  function ResumeSettle(seen: Claim, plan: Plan, step: SettleStep, r: Reply, now: int): Option<Pass> {
    match step
    case Track =>
      if !r.IsMD? then None
      else if RolloutComplete(r.md) then Some(Sweep(seen, plan, seen.status.pending, []))
      else
        Some(Settling(seen, plan, Commit(WaitingStatus(seen.status, plan.names, seen.spec.rolloutTimeout, now))))
    case Check(ref, todo, kept) =>
      if !r.IsSets? || ref in SetRefs(r.sets) || ref.kind.OtherKind?
      then Some(Sweep(seen, plan, todo, kept + [ref]))
      else Some(Settling(seen, plan, Drop(ref, todo, kept)))
    case Drop(ref, todo, kept) =>
      Some(Sweep(seen, plan, todo, if r.Ok? || r.NotFound? then kept else kept + [ref]))
    case Commit(_) => None
  }

  function ResumeTear(seen: Claim, step: TearStep, r: Reply): Option<Pass> {
    match step
    case SetDeleting =>
      if r.Ok? then Some(Tearing(seen.(status := DeletingStatus(seen.status)), FindHealthCheck)) else None
    case FindHealthCheck =>
      if r.IsMHC? then Some(Tearing(seen, DeleteHealthCheck))
      else if r.NotFound? then Some(Tearing(seen, FindDeployment))
      else None
    case DeleteHealthCheck => if r.Ok? || r.NotFound? then Some(Tearing(seen, FindDeployment)) else None
    case FindDeployment =>
      if r.IsMD? then Some(Tearing(seen, DeleteDeployment))
      else if r.NotFound? then Some(Teardown(seen, TeardownList(seen.status), {}))
      else None
    case DeleteDeployment => None
    case DeleteOld(ref, todo, tried) => Some(Teardown(seen, todo, tried + {ref}))
    case DropFinalizer(_) => None
  }

  /** Where a pass goes with the claim it has just read. */
  function Route(c: Claim): Option<Pass> {
    if c.deleting then
      if !c.finalizer then None
      else Some(Tearing(c, if c.status.phase != Deleting then SetDeleting else FindHealthCheck))
    else if c.paused then
      if c.status.phase == Paused then None else Some(Entering(c, SetPaused))
    else Some(Entering(c, if c.finalizer then Rendering
                          else if c.status.phase == NoPhase then SetProvisioning
                          else AddFinalizer))
  }

  /** How a pass settles once all objects are ensured: a new rollout, a rollout to follow, or ready. */
  function Finish(seen: Claim, plan: Plan, now: int): Pass {
    Settling(seen, plan,
             if HashChanged(seen.status, plan.names) then Commit(StartedStatus(seen.status, plan.names, now))
             else if seen.status.pending != [] then Track
             else Commit(ReadyStatus(seen.status, plan.names)))
  }

  /** The clean-up of a finished rollout, with `todo` still to look at. */
  function Sweep(seen: Claim, plan: Plan, todo: seq<Ref>, kept: seq<Ref>): Pass {
    Settling(seen, plan,
             if todo == [] then Commit(SweptStatus(seen.status, plan.names, kept))
             else Check(todo[0], todo[1..], kept))
  }

  /** The deletes of a teardown, in order: the current pair, then the pending list. */
  function TeardownList(st: Status): seq<Ref> {
    (if st.current.Some? then [Ref(BMT, st.current.value.bmt), Ref(KCT, st.current.value.kct)] else []) + st.pending
  }

  /** A reference of an unknown kind is reported and skipped without a call. */
  function Teardown(seen: Claim, todo: seq<Ref>, tried: set<Ref>): Pass {
    if todo == [] then Tearing(seen, DropFinalizer(tried))
    else if todo[0].kind.OtherKind? then Teardown(seen, todo[1..], tried)
    else Tearing(seen, DeleteOld(todo[0], todo[1..], tried))
  }

  /** ---------- The orphan cleaner ---------- */

  /** The cleaner lists the labelled templates of each kind with their creation times, then the
      claims, and then deletes what it found to be orphaned, in any order. */
  datatype Cleaner = Resting | HasBMTs(seen: map<Ref, int>) | HasAll(seen: map<Ref, int>) | Cleaning(doomed: set<Ref>)

  function Labelled(w: World, kind: Kind): map<Ref, int> {
    map r | r in w.templates && r.kind == kind && w.templates[r].labelled :: w.templates[r].born
  }

  /** The names a claim's status refers to. Empty names do not count. */
  function Referenced(st: Status): set<Ref> {
    (if st.current.Some? && st.current.value.bmt != "" then {Ref(BMT, st.current.value.bmt)} else {}) +
    (if st.current.Some? && st.current.value.kct != "" then {Ref(KCT, st.current.value.kct)} else {}) +
    (set r | r in st.pending && (r.kind == BMT || r.kind == KCT))
  }

  function ReferencedByAny(statuses: seq<Status>): set<Ref> {
    set st, r | st in statuses && r in Referenced(st) :: r
  }

  /** The statuses of all claims. */
  function Statuses(w: World): seq<Status> {
    (if w.claim.Some? then [w.claim.value.status] else []) + w.others
  }

  predicate Orphan(ref: Ref, born: int, referenced: set<Ref>, grace: int, now: int) {
    ref !in referenced && now - born >= grace
  }

  function Orphans(w: World, seen: map<Ref, int>, grace: int): set<Ref> {
    set r | r in seen && Orphan(r, seen[r], ReferencedByAny(Statuses(w)), grace, w.now)
  }

  /** ---------- Events and runs ---------- */

  datatype Event =
    // the operator
    | Begin
    | Act(outcome: Outcome)
    | Die
    // the orphan cleaner
    | ListBMTs
    | ListKCTs
    | ListFailed
    | Mark(grace: int)
    | Collect(doomed: Ref, result: Outcome)
    | Rest
    // users
    | Edit(spec: Spec, rendering: Rendering)
    | Pause(on: bool)
    | Withdraw
    // ClusterAPI
    | Report(status: DeploymentStatus)
    | VanishMD
    | AddMachineSet
    | DropMachineSet(ms: MachineSet)
    // everybody else
    | Tick(seconds: nat)
    | Others(statuses: seq<Status>)
    | Foreign(ref: Ref, template: Option<Template>)

  /** `finished` counts the passes that ran to their end. */
  datatype System = System(world: World, pass: Option<Pass>, cleaner: Cleaner, finished: nat)

  /** The names a pass has in hand: those on record in the claim it works on, and those of its plan. */
  function Held(p: Pass): set<Ref> {
    match p
    case Loading => {}
    case Entering(seen, _) => Tracked(seen.status)
    case Ensuring(seen, plan, _) => Tracked(seen.status) + plan.names.Refs()
    case Settling(seen, plan, _) => Tracked(seen.status) + plan.names.Refs()
    case Tearing(seen, _) => Tracked(seen.status)
  }

  /** The names that belong to this claim at the moment: in use, on record, or in hand. No other
      claim and no user touches a template of such a name. */
  function Own(s: System): set<Ref> {
    Used(s.world) +
    (if s.world.claim.Some? then Tracked(s.world.claim.value.status) else {}) +
    (if s.pass.Some? then Held(s.pass.value) else {})
  }

  function StepPass(s: System, p: Pass, o: Outcome): System {
    var served := Serve(s.world, Next(p), o);
    var after := Resume(p, served.reply, s.world.now);
    System(served.world, after, s.cleaner, if after.None? then s.finished + 1 else s.finished)
  }

  function StepCleaner(s: System, e: Event): System {
    match e
    case ListBMTs => if s.cleaner.Resting? then s.(cleaner := HasBMTs(Labelled(s.world, BMT))) else s
    case ListKCTs =>
      if s.cleaner.HasBMTs? then s.(cleaner := HasAll(s.cleaner.seen + Labelled(s.world, KCT))) else s
    case Mark(grace) =>
      if s.cleaner.HasAll? then s.(cleaner := Cleaning(Orphans(s.world, s.cleaner.seen, grace))) else s
    case Collect(ref, o) =>
      if s.cleaner.Cleaning? && ref in s.cleaner.doomed
      then s.(world := Serve(s.world, DeleteTemplate(ref), o).world, cleaner := Cleaning(s.cleaner.doomed - {ref}))
      else s
    case Rest => s.(cleaner := Resting)
    case ListFailed => s.(cleaner := Resting)
    case _ => s
  }

  /** An edit of the claim's spec. The cluster name and the claim's own name are immutable. */
  function Edited(was: Spec, spec: Spec): Spec {
    spec.(clusterName := was.clusterName, name := was.name)
  }

  function StepWorld(s: System, e: Event): World {
    var w := s.world;
    match e
    case Edit(spec, rendering) =>
      (if w.claim.Some? then w.(claim := Some(w.claim.value.(spec := Edited(w.claim.value.spec, spec)))) else w)
        .(rendering := rendering)
    case Pause(on) => if w.claim.Some? then w.(claim := Some(w.claim.value.(paused := on))) else w
    case Withdraw =>
      if w.claim.None? then w
      else if !w.claim.value.finalizer then w.(claim := None)
      else w.(claim := Some(w.claim.value.(deleting := true)))
    case Report(status) => if w.md.Some? then w.(md := Some(w.md.value.(status := status))) else w
    case VanishMD => w.(md := None)
    case AddMachineSet =>
      if w.md.Some?
      then w.(sets := w.sets + {MachineSet(w.md.value.infrastructure.name, w.md.value.bootstrap.name)})
      else w
    case DropMachineSet(ms) => w.(sets := w.sets - {ms})
    case Tick(seconds) => w.(now := w.now + seconds)
    case Others(statuses) => w.(others := statuses)
    case Foreign(ref, template) =>
      if ref in Own(s) then w
      else if template.Some? then w.(templates := w.templates[ref := template.value])
      else w.(templates := w.templates - {ref})
    case _ => w
  }

  predicate ByCleaner(e: Event) {
    e.ListBMTs? || e.ListKCTs? || e.ListFailed? || e.Mark? || e.Collect? || e.Rest?
  }

  predicate ByOperator(e: Event) {
    e.Begin? || e.Act? || e.Die?
  }

  function Step(s: System, e: Event): System {
    match e
    case Begin => if s.pass.None? then s.(pass := Some(Loading)) else s
    case Act(o) => if s.pass.Some? then StepPass(s, s.pass.value, o) else s
    case Die => s.(pass := None)
    case _ => if ByCleaner(e) then StepCleaner(s, e) else s.(world := StepWorld(s, e))
  }

  function Run(s: System, events: seq<Event>): System {
    if events == [] then s else Step(Run(s, events[..|events| - 1]), events[|events| - 1])
  }

  /** A claim that has just been created, in any cluster. */
  predicate Initial(s: System) {
    && s.world.claim.Some? && s.world.claim.value.status == Ledger.NEW_STATUS
    && !s.world.claim.value.deleting && !s.world.claim.value.finalizer
    && s.world.md.None? && s.world.sets == {}
    && s.pass.None? && s.cleaner.Resting?
  }

  lemma {:induction false} RunJoins(s: System, es: seq<Event>, fs: seq<Event>)
    ensures Run(s, es + fs) == Run(Run(s, es), fs)
  {
    if fs == [] {
      assert es + fs == es;
    } else {
      var last := |fs| - 1;
      assert (es + fs)[..|es + fs| - 1] == es + fs[..last];
      RunJoins(s, es, fs[..last]);
    }
  }
}
