/** The objects the operator reads and writes: the claim with its status, the rendered
    templates, the MachineDeployment and its MachineSets, and the MachineHealthCheck. */
module Objects {

  datatype Option<+T> = None | Some(value: T)

  type Labels = map<string, string>

  /** A template name. Rendered names join four parts with dashes, so they are never empty. */
  type Name = s: string | s != "" witness "-"

  /** The kind of a reference. The status field is free text, so other kinds can be written down. */
  datatype Kind = BMT | KCT | OtherKind(text: string)

  datatype Ref = Ref(kind: Kind, name: string)

  /** The pair of template names a claim currently uses. */
  datatype Names = Names(bmt: Name, kct: Name) {
    function Refs(): set<Ref> {
      {Ref(BMT, bmt), Ref(KCT, kct)}
    }
  }

  /** ---------- The claim ---------- */

  datatype Phase = NoPhase | Provisioning | Ready | Updating | Degraded | Failed | Paused | Deleting

  /** A condition that was never set, or was set to True or False. */
  datatype Flag = Unset | Yes | No

  datatype Status = Status(
    phase: Phase,
    current: Option<Names>,
    pending: seq<Ref>,
    startedAt: Option<int>,
    ready: Flag,
    timedOut: Flag)

  datatype Taint = Taint(key: string, value: string, effect: string, propagation: string)

  datatype RollingUpdate = RollingUpdate(maxSurge: Option<string>, maxUnavailable: Option<string>,
                                         deletePolicy: Option<string>)

  datatype Strategy = Strategy(kind: string, rollingUpdate: Option<RollingUpdate>)

  datatype DeletionConfig = DeletionConfig(drain: Option<int>, detach: Option<int>, node: Option<int>)

  datatype Spec = Spec(
    clusterName: string,
    name: string,
    replicas: Option<int>,
    version: string,
    taints: seq<Taint>,
    strategy: Option<Strategy>,
    deletion: Option<DeletionConfig>,
    rolloutTimeout: Option<int>,
    healthCheck: Option<bool>)

  /** `paused` is the pause annotation, `deleting` the deletion timestamp. */
  datatype Claim = Claim(spec: Spec, paused: bool, deleting: bool, finalizer: bool, status: Status)

  /** What sanitizing the labels and rendering both templates yields for a claim:
      the accepted labels, the two hash-based names and the two rendered specs. */
  datatype Plan = Plan(labels: Labels, names: Names, bmtSpec: string, kctSpec: string)

  datatype Rendering = Rendered(plan: Plan) | RenderFailed

  /** ---------- Managed objects ---------- */

  datatype Template = Template(spec: string, labelled: bool, born: int)

  datatype ObjectRef = ObjectRef(group: string, kind: string, name: string)

  datatype RolloutStrategy = RolloutStrategy(kind: string, maxSurge: Option<string>, maxUnavailable: Option<string>)

  datatype Rollout = Rollout(after: Option<int>, strategy: Option<RolloutStrategy>)

  datatype Timeouts = Timeouts(drain: int, detach: int, node: int)

  datatype LegacyStatus = LegacyStatus(updated: int, unavailable: int)

  /** `rollingOut` is the RollingOut condition: absent, or whether its status is True. */
  datatype DeploymentStatus = DeploymentStatus(
    rollingOut: Option<bool>,
    replicas: Option<int>,
    upToDate: Option<int>,
    legacy: Option<LegacyStatus>)

  datatype Deployment = Deployment(
    clusterName: string,
    selector: Labels,
    replicas: Option<int>,
    version: string,
    infrastructure: ObjectRef,
    bootstrap: ObjectRef,
    labels: Labels,
    taints: seq<Taint>,
    rollout: Rollout,
    order: Option<string>,
    machineDeletion: Timeouts,
    maxInFlight: Option<int>,
    status: DeploymentStatus,
    terminating: bool) {

    /** The two templates the deployment uses. */
    function Refs(): set<Ref> {
      {Ref(BMT, infrastructure.name), Ref(KCT, bootstrap.name)}
    }
  }

  datatype MachineSet = MachineSet(bmt: string, kct: string) {
    function Refs(): set<Ref> {
      {Ref(BMT, bmt), Ref(KCT, kct)}
    }
  }

  datatype HealthCheck = HealthCheck(clusterName: string, selector: Labels, startup: int, unhealthy: int, threshold: int)

  /** ---------- Names tracked by a status ---------- */

  /** Everything a status keeps on record: the current pair and the names awaiting deletion. */
  function Tracked(status: Status): set<Ref> {
    (if status.current.Some? then status.current.value.Refs() else {}) + (set r | r in status.pending)
  }

  predicate NoDuplicates(refs: seq<Ref>) {
    forall i, j | 0 <= i < j < |refs| :: refs[i] != refs[j]
  }
}
