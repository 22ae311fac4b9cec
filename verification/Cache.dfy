/**
 pkg/cache: the transforms that strip objects as they enter the informer cache, and why no reader of the
 cache can tell.
 */
module Cache {
  import opened Base
  import opened Kube
  import opened Taints
  import opened Snapshots
  import opened SnapshotFacts
  import opened Heroes

  // ---- pods ----

  predicate AsksGpu(c: Container, gpu: string) {
    gpu in c.requests || gpu in c.limits
  }

  function Only<V>(m: map<string, V>, k: string): map<string, V> {
    if k in m then map[k := m[k]] else map[]
  }

  function GpuOnly(c: Container, gpu: string): Container {
    Container("", "", Only(c.requests, gpu), Only(c.limits, gpu))
  }

  function StrippedPod(p: Pod, gpu: string): Pod {
    p.(annotations := Only(p.annotations, WORKLOAD_ANNOTATION),
       containers := Map(Filter(p.containers, (c: Container) => AsksGpu(c, gpu)), (c: Container) => GpuOnly(c, gpu)),
       initContainers := [],
       finalizers := [])
  }

  /** A pod object being admitted to the cache; its containers are a slice of a backing array. */
  class PodObject {
    const key: Name
    const node: string
    const phase: Phase
    const deleting: bool
    const labels: map<string, string>
    var annotations: map<string, string>
    const backing: array<Container>
    var length: nat
    var initContainers: seq<Container>
    var finalizers: seq<string>

    constructor (p: Pod)
      ensures Valid() && fresh(backing) && Value() == p
    {
      key, node, phase, deleting, labels := p.key, p.node, p.phase, p.deleting, p.labels;
      annotations, length, initContainers, finalizers := p.annotations, |p.containers|, p.initContainers, p.finalizers;
      backing := new Container[|p.containers|](i requires 0 <= i < |p.containers| => p.containers[i]);
      new;
      assert backing[..length] == p.containers;
    }

    ghost predicate Valid()
      reads this
    {
      length <= backing.Length
    }

    ghost function Value(): Pod
      requires Valid()
      reads this, backing
    {
      Pod(key, node, phase, deleting, annotations, labels, backing[..length], initContainers, finalizers)
    }

    method Transform(gpu: string)
      requires Valid()
      modifies this, backing
      ensures Valid() && Value() == StrippedPod(old(Value()), gpu)
    {
      finalizers := [];
      annotations := Only(annotations, WORKLOAD_ANNOTATION);
      initContainers := [];
      length := Compact(backing, length, (c: Container) => AsksGpu(c, gpu), (c: Container) => GpuOnly(c, gpu));
    }
  }

  lemma {:induction false} StrippedGpu(cs: seq<Container>, gpu: string)
    ensures GpuRequest(Map(Filter(cs, (c: Container) => AsksGpu(c, gpu)), (c: Container) => GpuOnly(c, gpu)), gpu)
      == GpuRequest(cs, gpu)
  {
    if cs == [] {
    } else {
      var n := |cs| - 1;
      StrippedGpu(cs[..n], gpu);
      var keep, f := (c: Container) => AsksGpu(c, gpu), (c: Container) => GpuOnly(c, gpu);
      if keep(cs[n]) {
        var rest := Filter(cs[..n], keep);
        assert Map(rest + [cs[n]], f) == Map(rest, f) + [f(cs[n])];
        assert (Map(rest, f) + [f(cs[n])])[..|rest|] == Map(rest, f);
      }
    }
  }

  /** Nothing the snapshot asks of a pod changes. */
  lemma {:induction false} StrippedPodReads(p: Pod, cfg: Config, at: map<string, string>, usable: map<string, bool>,
      id: string)
    ensures var q := StrippedPod(p, cfg.gpu);
      && GpuRequest(q.containers, cfg.gpu) == GpuRequest(p.containers, cfg.gpu)
      && Classify(q, cfg) == Classify(p, cfg)
      && PodIn(q, at, cfg, id) == PodIn(p, at, cfg, id)
      && IsFixedOn(q, usable, cfg) == IsFixedOn(p, usable, cfg)
      && (Classify(p, cfg).IsVictim? ==> AsVictim(q, cfg) == AsVictim(p, cfg))
  {
    StrippedGpu(p.containers, cfg.gpu);
  }

  /** The pods the cache holds: the selector drops terminal ones, the transform strips the rest. */
  function CachedPods(pods: seq<Pod>, gpu: string): seq<Pod> {
    Map(Filter(pods, (p: Pod) => !Terminal(p)), (p: Pod) => StrippedPod(p, gpu))
  }

  lemma {:induction false} CachedPodsSnoc(pods: seq<Pod>, gpu: string)
    requires pods != []
    ensures var n := |pods| - 1;
      CachedPods(pods, gpu)
        == CachedPods(pods[..n], gpu) + (if Terminal(pods[n]) then [] else [StrippedPod(pods[n], gpu)])
  {
    var n := |pods| - 1;
    var rest := Filter(pods[..n], (p: Pod) => !Terminal(p));
    var f := (p: Pod) => StrippedPod(p, gpu);
    assert Map(rest + [pods[n]], f) == Map(rest, f) + [f(pods[n])];
  }

  lemma {:induction false} CachedVictims(pods: seq<Pod>, cfg: Config, at: map<string, string>, id: string)
    ensures DomainVictims(CachedPods(pods, cfg.gpu), at, cfg, id) == DomainVictims(pods, at, cfg, id)
  {
    if pods == [] {
    } else {
      var n := |pods| - 1;
      CachedVictims(pods[..n], cfg, at, id);
      CachedPodsSnoc(pods, cfg.gpu);
      var rest := CachedPods(pods[..n], cfg.gpu);
      if !Terminal(pods[n]) {
        StrippedPodReads(pods[n], cfg, at, map[], id);
        assert (rest + [StrippedPod(pods[n], cfg.gpu)])[..|rest|] == rest;
      }
    }
  }

  lemma {:induction false} CachedFixed(pods: seq<Pod>, cfg: Config, at: map<string, string>,
      usable: map<string, bool>, id: string)
    ensures DomainFixed(CachedPods(pods, cfg.gpu), at, usable, cfg, id) == DomainFixed(pods, at, usable, cfg, id)
  {
    if pods == [] {
    } else {
      var n := |pods| - 1;
      CachedFixed(pods[..n], cfg, at, usable, id);
      CachedPodsSnoc(pods, cfg.gpu);
      var rest := CachedPods(pods[..n], cfg.gpu);
      if !Terminal(pods[n]) {
        StrippedPodReads(pods[n], cfg, at, usable, id);
        assert (rest + [StrippedPod(pods[n], cfg.gpu)])[..|rest|] == rest;
      }
    }
  }

  // ---- nodes ----

  /** Metadata and spec stay verbatim, because taint writes put the whole cached node back. */
  function StrippedNode(node: Node): Node {
    node.(conditions := Filter(node.conditions, (c: NodeCondition) => c.kind == READY), images := [])
  }

  method TransformNode(node: Node) returns (r: Node)
    ensures r == StrippedNode(node)
  {
    var conditions: seq<NodeCondition> := [];
    for i := 0 to |node.conditions|
      invariant conditions == Filter(node.conditions[..i], (c: NodeCondition) => c.kind == READY)
    {
      assert node.conditions[..i + 1][..i] == node.conditions[..i];
      if node.conditions[i].kind == READY {
        conditions := conditions + [node.conditions[i]];
      }
    }
    assert node.conditions[..|node.conditions|] == node.conditions;
    r := node.(conditions := conditions, images := []);
  }

  lemma {:induction false} ReadyKept(conditions: seq<NodeCondition>)
    ensures IsReady(Filter(conditions, (c: NodeCondition) => c.kind == READY)) == IsReady(conditions)
  {
    if conditions == [] {
    } else {
      var n := |conditions| - 1;
      ReadyKept(conditions[..n]);
      var rest := Filter(conditions[..n], (c: NodeCondition) => c.kind == READY);
      if conditions[n].kind == READY {
        assert (rest + [conditions[n]])[..|rest|] == rest;
      }
    }
  }

  lemma {:induction false} StrippedNodeSame(input: Input, node: Node)
    ensures SameNode(input, node, StrippedNode(node))
  {
    ReadyKept(node.conditions);
  }

  // ---- the snapshot cannot tell ----

  lemma {:induction false} CachedPodsSameBuild(input: Input)
    ensures BuildSpec(input.(pods := CachedPods(input.pods, input.cfg.gpu))) == BuildSpec(input)
  {
    var other := input.(pods := CachedPods(input.pods, input.cfg.gpu));
    var at, usable := NodeDomain(input.nodes, input.level), NodeUsability(input, input.nodes);
    InputIrrelevant(input, other, input.nodes, "");
    var a := DomainsAfter(input, input.nodes, input.pods, at, usable);
    var b := DomainsAfter(other, input.nodes, other.pods, at, usable);
    assert a.Keys == b.Keys;
    forall id | id in a ensures b[id] == a[id] {
      CachedVictims(input.pods, input.cfg, at, id);
      CachedFixed(input.pods, input.cfg, at, usable, id);
      InputIrrelevant(input, other, input.nodes, id);
    }
    assert a == b;
  }

  /** Build over the stripped cache is Build over the cluster's whole objects, for every node and pod list. */
  lemma {:induction false} CacheAgrees(input: Input)
    ensures BuildSpec(input.(pods := CachedPods(input.pods, input.cfg.gpu), nodes := Map(input.nodes, StrippedNode)))
      == BuildSpec(input)
  {
    var cached := input.(pods := CachedPods(input.pods, input.cfg.gpu));
    var ms := Map(input.nodes, StrippedNode);
    forall i | 0 <= i < |ms| ensures SameNode(cached, input.nodes[i], ms[i]) {
      StrippedNodeSame(cached, input.nodes[i]);
    }
    BuildSameNodes(cached, ms);
    CachedPodsSameBuild(input);
    assert cached.(nodes := ms) == input.(pods := CachedPods(input.pods, input.cfg.gpu), nodes := ms);
  }

  /** The drain state read back from stripped nodes is the one on the whole nodes. */
  lemma {:induction false} CacheKeepsDrains(nodes: seq<Node>, key: string)
    ensures FindDrainsSpec(Map(nodes, StrippedNode), key) == FindDrainsSpec(nodes, key)
  {
    if nodes == [] {
      assert Map(nodes, StrippedNode) == nodes;
    } else {
      var n := |nodes| - 1;
      CacheKeepsDrains(nodes[..n], key);
      assert Map(nodes, StrippedNode) == Map(nodes[..n], StrippedNode) + [StrippedNode(nodes[n])];
      assert nodes == nodes[..n] + [nodes[n]];
      FindDrainsStep(nodes[..n], nodes[n], key);
      FindDrainsStep(Map(nodes[..n], StrippedNode), StrippedNode(nodes[n]), key);
    }
  }

  /** Writing a stripped node back: the taint write is the one the whole node would get, stripped. */
  lemma {:induction false} TaintWriteThroughCache(node: Node, key: string, h: Name, queue: string, now: int)
    ensures After(StrippedNode(node), EnsureTaint(StrippedNode(node), key, h, queue, now))
      == StrippedNode(After(node, EnsureTaint(node, key, h, queue, now)))
    ensures After(StrippedNode(node), RemoveOwnedTaint(StrippedNode(node), key, h))
      == StrippedNode(After(node, RemoveOwnedTaint(node, key, h)))
  {
  }

  // ---- workloads ----

  function ResourcesOnly(c: Container): Container {
    Container("", "", c.requests, c.limits)
  }

  function StrippedPodSet(ps: PodSet): PodSet {
    ps.(containers := Map(ps.containers, ResourcesOnly))
  }

  /** stripToResources on a podset template's containers, in place. */
  method StripToResources(containers: array<Container>)
    modifies containers
    ensures containers[..] == Map(old(containers[..]), ResourcesOnly)
  {
    FilterAll(containers[..], (c: Container) => true);
    assert containers[..containers.Length] == containers[..];
    var k := Compact(containers, containers.Length, (c: Container) => true, (c: Container) => ResourcesOnly(c));
    FilterAll(old(containers[..containers.Length]), (c: Container) => true);
  }

  lemma {:induction false} StrippedRequest(cs: seq<Container>, gpu: string)
    ensures GpuRequest(Map(cs, ResourcesOnly), gpu) == GpuRequest(cs, gpu)
  {
    if cs == [] {
    } else {
      StrippedRequest(cs[..|cs| - 1], gpu);
      assert Map(cs, ResourcesOnly)[..|cs| - 1] == Map(cs[..|cs| - 1], ResourcesOnly);
    }
  }

  lemma {:induction false} StrippedSlices(podSets: seq<PodSet>, gpu: string)
    ensures Slices(Map(podSets, StrippedPodSet), gpu) == Slices(podSets, gpu)
    ensures PodCount(Map(podSets, StrippedPodSet)) == PodCount(podSets)
  {
    if podSets == [] {
    } else {
      var n := |podSets| - 1;
      StrippedSlices(podSets[..n], gpu);
      assert Map(podSets, StrippedPodSet)[..n] == Map(podSets[..n], StrippedPodSet);
      StrippedRequest(podSets[n].containers, gpu);
    }
  }

  /** The hero's demand, pod count and levels come out of a stripped workload as out of a whole one. */
  lemma {:induction false} StrippedDemand(podSets: seq<PodSet>, gpu: string)
    ensures var stripped := Map(podSets, StrippedPodSet);
      && Slices(stripped, gpu) == Slices(podSets, gpu)
      && PodCount(stripped) == PodCount(podSets)
      && SliceLevels(stripped) == SliceLevels(podSets)
      && RequiredLevels(stripped) == RequiredLevels(podSets)
  {
    StrippedSlices(podSets, gpu);
    StrippedLevels(podSets);
  }

  lemma {:induction false} StrippedLevels(podSets: seq<PodSet>)
    ensures SliceLevels(Map(podSets, StrippedPodSet)) == SliceLevels(podSets)
    ensures RequiredLevels(Map(podSets, StrippedPodSet)) == RequiredLevels(podSets)
  {
    var stripped := Map(podSets, StrippedPodSet);
    forall i | 0 <= i < |podSets|
      ensures stripped[i] in stripped && stripped[i].topology == podSets[i].topology
      ensures RequiresSliceTopology(stripped[i]) == RequiresSliceTopology(podSets[i])
      ensures DeclaresRequired(stripped[i]) == DeclaresRequired(podSets[i])
    {
    }
  }

  // ---- what is left ----

  /** A cached pod carries its identity, place and phase, one annotation, its labels and bare GPU quantities. */
  lemma {:induction false} StrippedPodHolds(p: Pod, gpu: string)
    ensures var q := StrippedPod(p, gpu);
      && q == p.(annotations := q.annotations, containers := q.containers, initContainers := [], finalizers := [])
      && q.annotations.Keys <= {WORKLOAD_ANNOTATION}
      && forall c :: c in q.containers ==>
        c.name == "" && c.image == "" && c.requests.Keys <= {gpu} && c.limits.Keys <= {gpu}
        && c.requests.Keys + c.limits.Keys == {gpu}
  {
    var keep, f := (c: Container) => AsksGpu(c, gpu), (c: Container) => GpuOnly(c, gpu);
    var kept := Filter(p.containers, keep);
    forall c | c in StrippedPod(p, gpu).containers
      ensures c.name == "" && c.image == "" && c.requests.Keys <= {gpu} && c.limits.Keys <= {gpu}
      ensures c.requests.Keys + c.limits.Keys == {gpu}
    {
      var i :| 0 <= i < |kept| && Map(kept, f)[i] == c;
      FilterMember(p.containers, keep, kept[i]);
    }
  }

  /** A cached node keeps metadata and spec whole; of its status only capacity and the Ready conditions remain. */
  lemma {:induction false} StrippedNodeHolds(node: Node)
    ensures var r := StrippedNode(node);
      && r == node.(conditions := r.conditions, images := [])
      && forall c :: c in r.conditions <==> c in node.conditions && c.kind == "Ready"
  {
    forall c ensures c in StrippedNode(node).conditions <==> c in node.conditions && c.kind == "Ready" {
      FilterMember(node.conditions, (x: NodeCondition) => x.kind == READY, c);
    }
  }

  // ---- stripping twice ----

  lemma {:induction false} StripTwiceContainers(cs: seq<Container>, gpu: string)
    ensures var once := Map(Filter(cs, (c: Container) => AsksGpu(c, gpu)), (c: Container) => GpuOnly(c, gpu));
      Map(Filter(once, (c: Container) => AsksGpu(c, gpu)), (c: Container) => GpuOnly(c, gpu)) == once
  {
    var once := Map(Filter(cs, (c: Container) => AsksGpu(c, gpu)), (c: Container) => GpuOnly(c, gpu));
    forall c | c in once ensures AsksGpu(c, gpu) && GpuOnly(c, gpu) == c {
      var i :| 0 <= i < |once| && once[i] == c;
      var x := Filter(cs, (c: Container) => AsksGpu(c, gpu))[i];
      FilterMember(cs, (c: Container) => AsksGpu(c, gpu), x);
    }
    FilterAll(once, (c: Container) => AsksGpu(c, gpu));
  }

  /** An object that passes the transforms again, as on a resync, comes out as it went in. */
  lemma {:induction false} TransformsIdempotent(p: Pod, gpu: string, node: Node, ps: PodSet)
    ensures StrippedPod(StrippedPod(p, gpu), gpu) == StrippedPod(p, gpu)
    ensures StrippedNode(StrippedNode(node)) == StrippedNode(node)
    ensures StrippedPodSet(StrippedPodSet(ps)) == StrippedPodSet(ps)
  {
    StripTwiceContainers(p.containers, gpu);
    var ready := Filter(node.conditions, (c: NodeCondition) => c.kind == READY);
    forall c | c in ready ensures c.kind == READY {
      FilterMember(node.conditions, (c: NodeCondition) => c.kind == READY, c);
    }
    FilterAll(ready, (c: NodeCondition) => c.kind == READY);
  }
}
