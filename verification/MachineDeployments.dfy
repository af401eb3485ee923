/** Building the MachineDeployment of a claim and deciding whether a stored one must be rewritten. */
module MachineDeployments {
  import opened Objects

  const LABEL_CLUSTER_NAME := "cluster.x-k8s.io/cluster-name"
  const LABEL_CLAIM_NAME := "workergroup.in-cloud.io/claim-name"
  const UNIQUE_LABEL := "machine-template-hash"
  const DEPLOYMENT_NAME_LABEL := "cluster.x-k8s.io/deployment-name"
  const SET_NAME_LABEL := "cluster.x-k8s.io/set-name"

  const KCT_GROUP := "bootstrap.cluster.x-k8s.io"
  const KCT_KIND := "KubeadmConfigTemplate"
  const BMT_GROUP := "infrastructure.cluster.x-k8s.io"
  const BMT_KIND := "BegetMachineTemplate"

  const DEFAULT_DRAIN := 60
  const DEFAULT_DETACH := 60
  const DEFAULT_NODE := 120
  const MAX_IN_FLIGHT := 1
  const STARTUP_SECONDS := 360
  const UNHEALTHY_SECONDS := 900
  const UNHEALTHY_THRESHOLD := 1

  const CAPI_LABELS: set<string> := {UNIQUE_LABEL, DEPLOYMENT_NAME_LABEL, SET_NAME_LABEL}

  const NEW_STATUS := DeploymentStatus(None, None, None, None)

  /** ---------- The desired objects ---------- */

  function SelectorLabels(spec: Spec): Labels {
    map[LABEL_CLUSTER_NAME := spec.clusterName, LABEL_CLAIM_NAME := spec.name]
  }

  function TemplateLabels(selector: Labels, nodeLabels: Labels): Labels {
    nodeLabels - CAPI_LABELS + selector
  }

  function Override(value: Option<int>, fallback: int): int {
    if value.Some? then value.value else fallback
  }

  function MachineDeletion(config: Option<DeletionConfig>): Timeouts {
    match config
    case None => Timeouts(DEFAULT_DRAIN, DEFAULT_DETACH, DEFAULT_NODE)
    case Some(c) => Timeouts(Override(c.drain, DEFAULT_DRAIN), Override(c.detach, DEFAULT_DETACH),
                             Override(c.node, DEFAULT_NODE))
  }

  function ConvertStrategy(s: Strategy): RolloutStrategy {
    match s.rollingUpdate
    case None => RolloutStrategy(s.kind, None, None)
    case Some(u) => RolloutStrategy(s.kind, u.maxSurge, u.maxUnavailable)
  }

  function DesiredRollout(strategy: Option<Strategy>): Rollout {
    Rollout(None, if strategy.Some? then Some(ConvertStrategy(strategy.value)) else None)
  }

  function DesiredOrder(strategy: Option<Strategy>): Option<string> {
    if strategy.Some? && strategy.value.rollingUpdate.Some?
    then strategy.value.rollingUpdate.value.deletePolicy
    else None
  }

  /** The deployment a claim asks for. */
  function Desired(spec: Spec, labels: Labels, names: Names): Deployment {
    var selector := SelectorLabels(spec);
    Deployment(spec.clusterName, selector, spec.replicas, spec.version,
               ObjectRef(BMT_GROUP, BMT_KIND, names.bmt), ObjectRef(KCT_GROUP, KCT_KIND, names.kct),
               TemplateLabels(selector, labels), spec.taints, DesiredRollout(spec.strategy),
               DesiredOrder(spec.strategy), MachineDeletion(spec.deletion), Some(MAX_IN_FLIGHT),
               NEW_STATUS, false)
  }

  /** The health check a claim asks for, if any. */
  function DesiredHealthCheck(spec: Spec): Option<HealthCheck> {
    if spec.healthCheck == Some(true)
    then Some(HealthCheck(spec.clusterName, SelectorLabels(spec), STARTUP_SECONDS, UNHEALTHY_SECONDS, UNHEALTHY_THRESHOLD))
    else None
  }

  /** ---------- What the user gets, field by field ---------- */

  /** The template labels: cluster and claim name under the two selector keys, and every other given label,
      except the three keys that ClusterAPI keeps for itself. */
  predicate LabelsAsAsked(labels: Labels, spec: Spec, given: Labels) {
    var cluster, claim := "cluster.x-k8s.io/cluster-name", "workergroup.in-cloud.io/claim-name";
    var reserved := {"machine-template-hash", "cluster.x-k8s.io/deployment-name", "cluster.x-k8s.io/set-name"};
    && labels.Keys == given.Keys - reserved + {cluster, claim}
    && labels[cluster] == spec.clusterName && labels[claim] == spec.name
    && forall k | k in labels && k != cluster && k != claim :: labels[k] == given[k]
  }

  predicate StrategyAsAsked(rollout: Option<RolloutStrategy>, asked: Option<Strategy>) {
    match asked
    case None => rollout.None?
    case Some(s) =>
      && rollout.Some? && rollout.value.kind == s.kind
      && rollout.value.maxSurge == (if s.rollingUpdate.Some? then s.rollingUpdate.value.maxSurge else None)
      && rollout.value.maxUnavailable == (if s.rollingUpdate.Some? then s.rollingUpdate.value.maxUnavailable else None)
  }

  /** Drain and detach are limited to a minute each and the node's deletion to two, unless asked otherwise. */
  predicate TimeoutsAsAsked(timeouts: Timeouts, asked: Option<DeletionConfig>) {
    && timeouts.drain == (if asked.Some? && asked.value.drain.Some? then asked.value.drain.value else 60)
    && timeouts.detach == (if asked.Some? && asked.value.detach.Some? then asked.value.detach.value else 60)
    && timeouts.node == (if asked.Some? && asked.value.node.Some? then asked.value.node.value else 120)
  }

  /** Every managed field is what the claim asks for. */
  predicate AsAsked(md: Deployment, spec: Spec, given: Labels, names: Names) {
    && md.infrastructure.name == names.bmt && md.bootstrap.name == names.kct
    && md.replicas == spec.replicas && md.version == spec.version && md.taints == spec.taints
    && LabelsAsAsked(md.labels, spec, given)
    && StrategyAsAsked(md.rollout.strategy, spec.strategy)
    && md.order == (if spec.strategy.Some? && spec.strategy.value.rollingUpdate.Some?
                    then spec.strategy.value.rollingUpdate.value.deletePolicy else None)
    && TimeoutsAsAsked(md.machineDeletion, spec.deletion)
    && md.maxInFlight == Some(1)
  }

  /** The health check replaces one Machine at a time, that does not start within six minutes or is
      unhealthy for fifteen. */
  predicate HealthCheckAsAsked(mhc: Option<HealthCheck>, spec: Spec) {
    && (mhc.Some? <==> spec.healthCheck == Some(true))
    && (mhc.Some? ==>
          && mhc.value.clusterName == spec.clusterName
          && mhc.value.selector == map["cluster.x-k8s.io/cluster-name" := spec.clusterName,
                                       "workergroup.in-cloud.io/claim-name" := spec.name]
          && mhc.value.startup == 360 && mhc.value.unhealthy == 900 && mhc.value.threshold == 1)
  }

  lemma DesiredIsAsAsked(spec: Spec, given: Labels, names: Names)
    ensures AsAsked(Desired(spec, given, names), spec, given, names)
    ensures HealthCheckAsAsked(DesiredHealthCheck(spec), spec)
  {
  }

  /** A stored deployment in which the comparison finds no difference is as asked. */
  lemma UpToDateIsAsAsked(spec: Spec, given: Labels, names: Names, md: Deployment)
    requires !NeedsUpdate(Desired(spec, given, names), md)
    ensures AsAsked(md, spec, given, names)
  {
    DesiredIsAsAsked(spec, given, names);
    hide Desired, LabelsAsAsked, StrategyAsAsked, TimeoutsAsAsked;
  }

  /** Builds the deployment the way the operator does: user labels first, then the reserved keys
      are taken out, then the selector labels go on top; defaults first, then overrides. */
  method BuildMachineDeployment(spec: Spec, nodeLabels: Labels, names: Names) returns (md: Deployment)
    ensures md == Desired(spec, nodeLabels, names)
    ensures md.selector.Items <= md.labels.Items
    ensures forall k | k in nodeLabels && k !in md.selector && k !in CAPI_LABELS ::
              k in md.labels && md.labels[k] == nodeLabels[k]
    ensures md.Refs() == names.Refs()
    ensures AsAsked(md, spec, nodeLabels, names)
    ensures md.clusterName == spec.clusterName && !md.terminating && md.rollout.after.None?
    ensures md.selector == map["cluster.x-k8s.io/cluster-name" := spec.clusterName,
                               "workergroup.in-cloud.io/claim-name" := spec.name]
    ensures md.infrastructure.group == "infrastructure.cluster.x-k8s.io" && md.infrastructure.kind == "BegetMachineTemplate"
    ensures md.bootstrap.group == "bootstrap.cluster.x-k8s.io" && md.bootstrap.kind == "KubeadmConfigTemplate"
  {
    DesiredIsAsAsked(spec, nodeLabels, names);
    hide AsAsked;
    var selector := SelectorLabels(spec);
    var labels := nodeLabels;
    labels := labels - {UNIQUE_LABEL};
    labels := labels - {DEPLOYMENT_NAME_LABEL};
    labels := labels - {SET_NAME_LABEL};
    labels := labels + selector;
    assert labels == TemplateLabels(selector, nodeLabels);

    var taints := ConvertTaints(spec.taints);
    md := Deployment(spec.clusterName, selector, spec.replicas, spec.version,
                     ObjectRef(BMT_GROUP, BMT_KIND, names.bmt), ObjectRef(KCT_GROUP, KCT_KIND, names.kct),
                     labels, taints, Rollout(None, None), None,
                     Timeouts(DEFAULT_DRAIN, DEFAULT_DETACH, DEFAULT_NODE), None, NEW_STATUS, false);

    var timeouts := BuildMachineDeletion(spec.deletion);
    md := md.(machineDeletion := timeouts);
    md := md.(maxInFlight := Some(MAX_IN_FLIGHT));

    if spec.strategy.Some? {
      md := md.(rollout := Rollout(None, Some(ConvertStrategy(spec.strategy.value))));
      if spec.strategy.value.rollingUpdate.Some? && spec.strategy.value.rollingUpdate.value.deletePolicy.Some? {
        md := md.(order := spec.strategy.value.rollingUpdate.value.deletePolicy);
      }
    }
  }

  /** Each timeout is the user's value when given and the default otherwise. */
  method BuildMachineDeletion(config: Option<DeletionConfig>) returns (timeouts: Timeouts)
    ensures timeouts == MachineDeletion(config) && TimeoutsAsAsked(timeouts, config)
  {
    timeouts := Timeouts(DEFAULT_DRAIN, DEFAULT_DETACH, DEFAULT_NODE);
    if config.None? {
      return;
    }
    if config.value.drain.Some? {
      timeouts := timeouts.(drain := config.value.drain.value);
    }
    if config.value.detach.Some? {
      timeouts := timeouts.(detach := config.value.detach.value);
    }
    if config.value.node.Some? {
      timeouts := timeouts.(node := config.value.node.value);
    }
  }

  /** Taints are carried over one by one, in order, with all four fields. */
  method ConvertTaints(taints: seq<Taint>) returns (result: seq<Taint>)
    ensures result == taints
  {
    result := [];
    for i := 0 to |taints|
      invariant result == taints[..i]
    {
      var t := taints[i];
      result := result + [Taint(t.key, t.value, t.effect, t.propagation)];
    }
  }

  /** ---------- Comparing and rewriting ---------- */

  /** Both deployments use the same two templates. Of a reference only the name is compared. */
  predicate SameTemplates(a: Deployment, b: Deployment) {
    a.infrastructure.name == b.infrastructure.name && a.bootstrap.name == b.bootstrap.name
  }

  /** Both deployments agree on the fields that are updated without a rollout. */
  predicate SameInPlace(a: Deployment, b: Deployment) {
    && a.replicas == b.replicas
    && a.version == b.version
    && a.rollout.strategy == b.rollout.strategy
    && a.taints == b.taints
    && a.labels == b.labels
    && a.machineDeletion == b.machineDeletion
    && a.order == b.order
    && a.maxInFlight == b.maxInFlight
  }

  predicate NeedsUpdate(desired: Deployment, existing: Deployment) {
    !SameTemplates(desired, existing) || !SameInPlace(desired, existing)
  }

  datatype Diff = Diff(refsChanged: bool, inPlaceChanged: bool) {
    predicate NeedsUpdate() { refsChanged || inPlaceChanged }
  }

  /** The comparison reports a difference exactly when a managed field differs, and a reference
      change exactly when the two deployments use different templates. */
  method ComputeDiff(desired: Deployment, existing: Deployment) returns (diff: Diff)
    ensures diff.NeedsUpdate() <==> NeedsUpdate(desired, existing)
    ensures diff.refsChanged <==> !SameTemplates(desired, existing)
  {
    diff := Diff(false, false);
    if desired.infrastructure.name != existing.infrastructure.name {
      diff := diff.(refsChanged := true);
    }
    if desired.bootstrap.name != existing.bootstrap.name {
      diff := diff.(refsChanged := true);
    }
    if desired.replicas != existing.replicas {
      diff := diff.(inPlaceChanged := true);
    }
    if desired.version != existing.version {
      diff := diff.(inPlaceChanged := true);
    }
    if desired.rollout.strategy != existing.rollout.strategy {
      diff := diff.(inPlaceChanged := true);
    }
    if desired.taints != existing.taints {
      diff := diff.(inPlaceChanged := true);
    }
    if desired.labels != existing.labels {
      diff := diff.(inPlaceChanged := true);
    }
    if desired.machineDeletion != existing.machineDeletion {
      diff := diff.(inPlaceChanged := true);
    }
    if desired.order != existing.order {
      diff := diff.(inPlaceChanged := true);
    }
    if desired.maxInFlight != existing.maxInFlight {
      diff := diff.(inPlaceChanged := true);
    }
  }

  /** The stored deployment with the operator's fields copied over it. */
  function Merge(existing: Deployment, desired: Deployment): (md: Deployment)
    ensures !NeedsUpdate(desired, md) && SameTemplates(desired, md)
    ensures md.status == existing.status && md.terminating == existing.terminating && md.selector == existing.selector
  {
    existing.(replicas := desired.replicas, version := desired.version,
              infrastructure := desired.infrastructure, bootstrap := desired.bootstrap,
              labels := desired.labels, taints := desired.taints, rollout := desired.rollout,
              order := desired.order, machineDeletion := desired.machineDeletion, maxInFlight := desired.maxInFlight)
  }

  /** Ensuring the deployment once leaves nothing to do for the same claim: whatever is stored
      (nothing, an outdated deployment, or one that differs only in unmanaged fields), the result
      agrees with the request on every compared field, and a second look finds no difference. */
  function Ensured(stored: Option<Deployment>, desired: Deployment): (md: Deployment)
    ensures SameTemplates(md, desired) && SameInPlace(md, desired)
    ensures stored.Some? && !NeedsUpdate(desired, stored.value) ==> md == stored.value
  {
    match stored
    case None => desired
    case Some(existing) => if NeedsUpdate(desired, existing) then Merge(existing, desired) else existing
  }

  /** Whether the MachineDeployment reports that its rollout has finished. */
  predicate RolloutComplete(md: Deployment) {
    match md.replicas
    case None => false
    case Some(desired) =>
      if md.status.rollingOut.Some? then
        !md.status.rollingOut.value && md.status.upToDate == Some(desired)
      else
        md.status.legacy.Some? && md.status.replicas == Some(desired) &&
        md.status.legacy.value.updated == desired && md.status.legacy.value.unavailable == 0
  }

  /** A rollout counts as complete if and only if replicas are requested and the RollingOut condition, if there
      is one, is not True while all requested replicas are up to date, or, without the condition, the older
      fields report all requested replicas as present and updated and none as unavailable. */
  lemma CompleteIff(md: Deployment)
    ensures RolloutComplete(md) <==>
              && md.replicas.Some?
              && (md.status.rollingOut.Some? ==> md.status.rollingOut == Some(false) && md.status.upToDate == md.replicas)
              && (md.status.rollingOut.None? ==>
                    md.status.replicas == md.replicas && md.status.legacy == Some(LegacyStatus(md.replicas.value, 0)))
  {
  }
}
