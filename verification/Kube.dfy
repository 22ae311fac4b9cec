/**
 The Kubernetes and kueue objects the controller reads and writes, reduced to the fields it touches.
 Resource quantities are natural numbers of milli-units, times are integers, and what other packages
 decide about a workload (hero-ness, stuckness, quota, queue-order timestamp) is a field of it.
 */
module Kube {
  import opened Base

  datatype Name = Name(ns: string, name: string)

  // ---- nodes ----

  datatype Effect = NoSchedule | PreferNoSchedule | NoExecute

  datatype Taint = Taint(key: string, value: string, effect: Effect)

  /** A timestamp annotation: a parseable RFC 3339 time, or some other text. */
  datatype Stamp = At(time: int) | Unparsable(raw: string)

  datatype Status = True | False | Unknown

  datatype NodeCondition = NodeCondition(kind: string, status: Status, heartbeat: int)

  const READY := "Ready"
  const HOSTNAME := "kubernetes.io/hostname"

  /** owner, startedAt and nudge are the three drain annotations; annotations holds all the others. */
  datatype Node = Node(
    name: string,
    labels: map<string, string>,
    annotations: map<string, string>,
    owner: Option<string>,
    startedAt: Option<Stamp>,
    nudge: Option<Stamp>,
    taints: seq<Taint>,
    unschedulable: bool,
    allocatable: map<string, nat>,
    conditions: seq<NodeCondition>,
    images: seq<string>)

  // ---- pods ----

  datatype Phase = Pending | Running | Succeeded | Failed

  datatype Container = Container(name: string, image: string, requests: map<string, nat>, limits: map<string, nat>)

  const WORKLOAD_ANNOTATION := "kueue.x-k8s.io/workload"

  datatype Pod = Pod(
    key: Name,
    node: string,
    phase: Phase,
    deleting: bool,
    annotations: map<string, string>,
    labels: map<string, string>,
    containers: seq<Container>,
    initContainers: seq<Container>,
    finalizers: seq<string>)

  /** One pod's GPU request: requests, defaulting per container to limits. */
  function ContainerGpu(c: Container, gpu: string): nat {
    if gpu in c.requests then c.requests[gpu]
    else if gpu in c.limits then c.limits[gpu]
    else 0
  }

  function GpuRequest(cs: seq<Container>, gpu: string): nat {
    if cs == [] then 0
    else GpuRequest(cs[..|cs| - 1], gpu) + ContainerGpu(cs[|cs| - 1], gpu)
  }

  /** A pod asks for its containers' requests together, each defaulting to its limit and then to nothing. */
  lemma {:induction false} GpuRequestIsSum(cs: seq<Container>, gpu: string) returns (amounts: seq<nat>)
    ensures |amounts| == |cs| && GpuRequest(cs, gpu) == Sum(amounts)
    ensures forall i :: 0 <= i < |cs| ==>
      && (gpu in cs[i].requests ==> amounts[i] == cs[i].requests[gpu])
      && (gpu !in cs[i].requests && gpu in cs[i].limits ==> amounts[i] == cs[i].limits[gpu])
      && (gpu !in cs[i].requests && gpu !in cs[i].limits ==> amounts[i] == 0)
  {
    if cs == [] {
      amounts := [];
    } else {
      var n := |cs| - 1;
      var rest := GpuRequestIsSum(cs[..n], gpu);
      amounts := rest + [ContainerGpu(cs[n], gpu)];
      assert amounts[..n] == rest;
    }
  }

  predicate Terminal(p: Pod) {
    p.phase == Succeeded || p.phase == Failed
  }

  // ---- kueue workloads ----

  datatype TopologyRequest = TopologyRequest(
    required: Option<string>, sliceRequired: Option<string>, sliceSize: Option<int>)

  datatype PodSet = PodSet(count: nat, topology: Option<TopologyRequest>, containers: seq<Container>)

  datatype TopologyDomain = TopologyDomain(values: seq<string>, count: int)

  /** kueue's decoded assignment: every domain lists one value per level. */
  datatype TopologyAssignment = TopologyAssignment(levels: seq<string>, domains: seq<TopologyDomain>)

  datatype PodSetAssignment = PodSetAssignment(count: Option<nat>, topology: Option<TopologyAssignment>)

  datatype Admission = Admission(clusterQueue: string, assignments: seq<PodSetAssignment>)

  datatype Condition = Condition(status: Status, reason: string, since: int)

  const ADMITTED := "Admitted"
  const QUOTA_RESERVED := "QuotaReserved"
  const FINISHED := "Finished"
  const EVICTED := "Evicted"
  const DEACTIVATED := "Deactivated"

  /**
   heroClass: the priority class is the hero class. isHero, stuck and overQuota: what hero.IsHero,
   hero.IsStuckTASNoFit and the quota precondition answer. queueTime: kueue's queue-order timestamp.
   */
  datatype Workload = Workload(
    key: Name,
    active: Option<bool>,
    deactivatedFor: Option<string>,
    priority: Option<int>,
    heroClass: bool,
    isHero: bool,
    stuck: bool,
    overQuota: bool,
    queueName: string,
    queueTime: int,
    createdAt: int,
    podSets: seq<PodSet>,
    conditions: map<string, Condition>,
    admission: Option<Admission>)

  predicate ConditionTrue(w: Workload, kind: string) {
    kind in w.conditions && w.conditions[kind].status == True
  }

  /** spec.active unset means active. */
  predicate Inactive(w: Workload) {
    w.active == Some(false)
  }

  function Priority(w: Workload): int {
    if w.priority.Some? then w.priority.value else 0
  }

  function SpecPodCount(podSets: seq<PodSet>): nat {
    if podSets == [] then 0 else SpecPodCount(podSets[..|podSets| - 1]) + podSets[|podSets| - 1].count
  }

  function AssignedPodCount(assignments: seq<PodSetAssignment>): nat {
    if assignments == [] then 0
    else
      var last := assignments[|assignments| - 1].count;
      AssignedPodCount(assignments[..|assignments| - 1]) + (if last.Some? then last.value else 0)
  }

  /** Admitted counts when they carry any, spec counts otherwise. */
  function AdmittedPodCount(w: Workload): nat {
    var admitted := if w.admission.Some? then AssignedPodCount(w.admission.value.assignments) else 0;
    if admitted > 0 then admitted else SpecPodCount(w.podSets)
  }

  ghost function AssignedCounts(assignments: seq<PodSetAssignment>): seq<nat> {
    Map(assignments, (a: PodSetAssignment) => if a.count.Some? then a.count.value else 0)
  }

  ghost function SpecCounts(podSets: seq<PodSet>): seq<nat> {
    Map(podSets, (ps: PodSet) => ps.count)
  }

  /** The pods admitted: the assigned counts in sum, or the specified ones where that is nothing. */
  ghost function Admitted(w: Workload): nat {
    var granted := if w.admission.Some? then Sum(AssignedCounts(w.admission.value.assignments)) else 0;
    if granted > 0 then granted else Sum(SpecCounts(w.podSets))
  }

  lemma {:induction false} AssignedSum(assignments: seq<PodSetAssignment>)
    ensures AssignedPodCount(assignments) == Sum(AssignedCounts(assignments))
  {
    if assignments == [] {
    } else {
      var n := |assignments| - 1;
      AssignedSum(assignments[..n]);
      assert AssignedCounts(assignments)[..n] == AssignedCounts(assignments[..n]);
    }
  }

  lemma {:induction false} SpecSum(podSets: seq<PodSet>)
    ensures SpecPodCount(podSets) == Sum(SpecCounts(podSets))
  {
    if podSets == [] {
    } else {
      var n := |podSets| - 1;
      SpecSum(podSets[..n]);
      assert SpecCounts(podSets)[..n] == SpecCounts(podSets[..n]);
    }
  }

  lemma {:induction false} AdmittedMeaning(w: Workload)
    ensures AdmittedPodCount(w) == Admitted(w)
  {
    SpecSum(w.podSets);
    if w.admission.Some? {
      AssignedSum(w.admission.value.assignments);
    }
  }

  // ---- configuration ----

  datatype Config = Config(
    taintKey: string,
    gpu: string,
    weightPriority: real,
    weightPodCount: real,
    weightRuntime: real,
    halfLife: int,
    crossQueue: real,
    nonBlocking: map<string, string>,
    drainTimeout: int,
    nudgeInterval: int,
    dryRun: bool)

  /** What configuration validation guarantees before the controllers start. */
  predicate ValidConfig(cfg: Config) {
    && cfg.weightPriority >= 0.0 && cfg.weightPodCount >= 0.0 && cfg.weightRuntime >= 0.0
    && cfg.weightPriority + cfg.weightPodCount + cfg.weightRuntime == 1.0
    && cfg.halfLife > 0
    && cfg.crossQueue >= 1.0
    && cfg.drainTimeout > 0
  }
}
