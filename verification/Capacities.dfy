/** What counts towards a domain, node by node and pod by pod: an independent account of what Build adds up. */
module Capacities {
  import opened Base
  import opened Kube
  import opened Taints
  import opened Snapshots

  // ---- where the hero can land ----

  /** The last Ready condition is True. */
  ghost predicate Ready(conditions: seq<NodeCondition>) {
    exists i :: 0 <= i < |conditions| && conditions[i].kind == "Ready" && conditions[i].status == True
      && forall j :: i < j < |conditions| ==> conditions[j].kind != "Ready"
  }

  lemma {:induction false} ReadyMeaning(conditions: seq<NodeCondition>)
    ensures IsReady(conditions) <==> Ready(conditions)
  {
    if conditions == [] {
    } else {
      var n := |conditions| - 1;
      ReadyMeaning(conditions[..n]);
      if conditions[n].kind != READY && Ready(conditions[..n]) {
        var i :| 0 <= i < n && conditions[..n][i].kind == "Ready" && conditions[..n][i].status == True
          && forall j :: i < j < n ==> conditions[..n][j].kind != "Ready";
        assert conditions[i] == conditions[..n][i];
        forall j | i < j < |conditions| ensures conditions[j].kind != "Ready" {
          assert j < n ==> conditions[..n][j] == conditions[j];
        }
      }
      if conditions[n].kind != READY && Ready(conditions) {
        var i :| 0 <= i < |conditions| && conditions[i].kind == "Ready" && conditions[i].status == True
          && forall j :: i < j < |conditions| ==> conditions[j].kind != "Ready";
        assert conditions[..n][i] == conditions[i];
      }
    }
  }

  /** The node carries self's own drain taint and annotation. */
  ghost predicate Tolerated(node: Node, key: string, self: Name) {
    && self.ns != "" && self.name != "" && '/' !in self.ns && node.owner == Some(self.ns + "/" + self.name)
    && exists i :: 0 <= i < |node.taints| && node.taints[i].key == key && node.taints[i].effect == NoSchedule
  }

  /** Schedulable, ready, and without any hard taint that is not self's drain's. */
  ghost predicate Landable(node: Node, key: string, self: Name) {
    && !node.unschedulable && Ready(node.conditions)
    && forall i :: 0 <= i < |node.taints| && node.taints[i].effect in {NoSchedule, NoExecute} ==>
      node.taints[i].key == key && Tolerated(node, key, self)
  }

  lemma {:induction false} OwnerMeaning(node: Node, key: string, self: Name)
    ensures self != NOBODY && Owner(node, key) == Some(self) <==> Tolerated(node, key, self)
  {
    OwnerRefRoundTrip(self);
    if Owner(node, key) == Some(self) {
      ParsedOwnerIsText(node.owner.value, self);
      var i :| 0 <= i < |node.taints| && IsDrainTaint(node.taints[i], key);
    }
    if Tolerated(node, key, self) {
      var i :| 0 <= i < |node.taints| && node.taints[i].key == key && node.taints[i].effect == NoSchedule;
      assert IsDrainTaint(node.taints[i], key);
    }
  }

  /** A cordoned node, one not Ready at the last word, or one with somebody else's hard taint is no destination. */
  lemma {:induction false} UsableMeaning(node: Node, key: string, self: Name)
    ensures NodeUsable(node, key, self) <==> Landable(node, key, self)
  {
    ReadyMeaning(node.conditions);
    OwnerMeaning(node, key, self);
    forall i | 0 <= i < |node.taints|
      ensures IsHard(node.taints[i]) <==> node.taints[i].effect in {NoSchedule, NoExecute}
    {
    }
  }

  ghost predicate LabelledInto(node: Node, level: string, id: string) {
    level in node.labels && node.labels[level] == id && id != ""
  }

  /** What node i adds to domain id. */
  ghost function NodeShares(input: Input, nodes: seq<Node>, id: string): seq<nat> {
    Map(nodes, (n: Node) =>
      if LabelledInto(n, input.level, id) && Landable(n, input.cfg.taintKey, input.self)
         && input.cfg.gpu in n.allocatable
      then n.allocatable[input.cfg.gpu] else 0)
  }

  lemma {:induction false} GpuByNode(input: Input, nodes: seq<Node>, id: string)
    requires id != ""
    ensures DomainGpu(input, nodes, id) == Sum(NodeShares(input, nodes, id))
  {
    if nodes == [] {
    } else {
      var n := |nodes| - 1;
      GpuByNode(input, nodes[..n], id);
      UsableMeaning(nodes[n], input.cfg.taintKey, input.self);
      assert NodeShares(input, nodes, id)[..n] == NodeShares(input, nodes[..n], id);
    }
  }

  /** A domain's allocatable GPUs are those of the nodes labelled into it where the hero can land, and no others. */
  lemma {:induction false} AllocatableByNode(input: Input, id: string)
    requires id in BuildSpec(input).domains
    ensures BuildSpec(input).domains[id].allocatable == Sum(NodeShares(input, input.nodes, id))
  {
    GpuByNode(input, input.nodes, id);
  }

  // ---- the group ----

  /** Node i gives the domain its group: the first of its nodes with a label at the group level. */
  ghost predicate NamesGroup(input: Input, nodes: seq<Node>, id: string, i: nat) {
    && input.groupLevel != "" && i < |nodes|
    && LabelOf(nodes[i].labels, input.level) == id && LabelOf(nodes[i].labels, input.groupLevel) != ""
    && forall j :: 0 <= j < i && LabelOf(nodes[j].labels, input.level) == id ==>
      LabelOf(nodes[j].labels, input.groupLevel) == ""
  }

  lemma {:induction false} GroupNamed(input: Input, nodes: seq<Node>, id: string) returns (i: nat)
    requires DomainGroup(nodes, input.level, input.groupLevel, id) != ""
    ensures NamesGroup(input, nodes, id, i)
  {
    var n := |nodes| - 1;
    if DomainGroup(nodes[..n], input.level, input.groupLevel, id) == "" {
      i := n;
      forall j | 0 <= j < n && LabelOf(nodes[j].labels, input.level) == id
        ensures LabelOf(nodes[j].labels, input.groupLevel) == ""
      {
        UngroupedSoFar(input, nodes[..n], id, j);
      }
    } else {
      i := GroupNamed(input, nodes[..n], id);
    }
  }

  lemma {:induction false} UngroupedSoFar(input: Input, nodes: seq<Node>, id: string, j: nat)
    requires input.groupLevel != "" && DomainGroup(nodes, input.level, input.groupLevel, id) == ""
    requires j < |nodes| && LabelOf(nodes[j].labels, input.level) == id
    ensures LabelOf(nodes[j].labels, input.groupLevel) == ""
  {
    var n := |nodes| - 1;
    if j < n {
      UngroupedSoFar(input, nodes[..n], id, j);
    }
  }

  lemma {:induction false} GroupDecided(input: Input, nodes: seq<Node>, id: string, i: nat)
    requires NamesGroup(input, nodes, id, i)
    ensures DomainGroup(nodes, input.level, input.groupLevel, id) == LabelOf(nodes[i].labels, input.groupLevel)
  {
    var n := |nodes| - 1;
    if i < n {
      GroupDecided(input, nodes[..n], id, i);
    } else if DomainGroup(nodes[..n], input.level, input.groupLevel, id) != "" {
      var k := GroupNamed(input, nodes[..n], id);
      assert false;
    }
  }

  /** A domain's group is that of its first node with a group label, and "" exactly when none has one. */
  lemma {:induction false} GroupByNode(input: Input, id: string)
    requires id in BuildSpec(input).domains
    ensures forall i: nat :: NamesGroup(input, input.nodes, id, i) ==>
      BuildSpec(input).domains[id].group == LabelOf(input.nodes[i].labels, input.groupLevel)
    ensures BuildSpec(input).domains[id].group == "" <==> !exists i: nat :: NamesGroup(input, input.nodes, id, i)
  {
    forall i: nat | NamesGroup(input, input.nodes, id, i)
      ensures BuildSpec(input).domains[id].group == LabelOf(input.nodes[i].labels, input.groupLevel)
    {
      GroupDecided(input, input.nodes, id, i);
    }
    if BuildSpec(input).domains[id].group != "" {
      var i := GroupNamed(input, input.nodes, id);
    }
  }

  // ---- where pods are ----

  /** The node a pod names: the last one of that name with a label at the level. */
  ghost predicate Hosts(nodes: seq<Node>, level: string, name: string, i: nat) {
    && i < |nodes| && nodes[i].name == name && LabelOf(nodes[i].labels, level) != ""
    && forall j :: i < j < |nodes| && nodes[j].name == name ==> LabelOf(nodes[j].labels, level) == ""
  }

  lemma {:induction false} HostExists(nodes: seq<Node>, level: string, name: string) returns (i: nat)
    requires name in NodeDomain(nodes, level)
    ensures Hosts(nodes, level, name, i)
  {
    var n := |nodes| - 1;
    if nodes[n].name == name && LabelOf(nodes[n].labels, level) != "" {
      i := n;
    } else {
      i := HostExists(nodes[..n], level, name);
    }
  }

  lemma {:induction false} HostDecides(input: Input, nodes: seq<Node>, name: string, i: nat)
    requires Hosts(nodes, input.level, name, i)
    ensures name in NodeDomain(nodes, input.level)
    ensures NodeDomain(nodes, input.level)[name] == LabelOf(nodes[i].labels, input.level)
    ensures name in NodeUsability(input, nodes)
    ensures NodeUsability(input, nodes)[name] == NodeUsable(nodes[i], input.cfg.taintKey, input.self)
  {
    var n := |nodes| - 1;
    if i < n {
      assert nodes[..n][i] == nodes[i];
      forall j | i < j < n && nodes[..n][j].name == name ensures LabelOf(nodes[..n][j].labels, input.level) == "" {
        assert nodes[..n][j] == nodes[j];
      }
      HostDecides(input, nodes[..n], name, i);
    }
  }

  /** The pod names a node labelled into the domain. */
  ghost predicate PlacedIn(input: Input, p: Pod, id: string, i: nat) {
    Hosts(input.nodes, input.level, p.node, i) && LabelOf(input.nodes[i].labels, input.level) == id
  }

  /** Neither over nor on its way out, and asking for GPUs. */
  ghost predicate HoldsGpu(p: Pod, gpu: string) {
    p.phase != Succeeded && p.phase != Failed && !p.deleting && GpuRequest(p.containers, gpu) > 0
  }

  /** A pod nothing moves: not kueue's, and with none of the labels that declare it transient. */
  ghost predicate Fixed(p: Pod, cfg: Config) {
    && WORKLOAD_ANNOTATION !in p.annotations
    && forall k :: k in cfg.nonBlocking ==> (if k in p.labels then p.labels[k] else "") != cfg.nonBlocking[k]
  }

  ghost predicate HoldsFixed(input: Input, p: Pod, id: string) {
    HoldsGpu(p, input.cfg.gpu) && Fixed(p, input.cfg) &&
    exists i: nat :: PlacedIn(input, p, id, i) && Landable(input.nodes[i], input.cfg.taintKey, input.self)
  }

  ghost predicate HoldsMovable(input: Input, p: Pod, id: string) {
    HoldsGpu(p, input.cfg.gpu) && WORKLOAD_ANNOTATION in p.annotations && exists i: nat :: PlacedIn(input, p, id, i)
  }

  lemma {:induction false} PlacedMeaning(input: Input, p: Pod, id: string)
    ensures var at := NodeDomain(input.nodes, input.level);
      p.node in at && at[p.node] == id <==> exists i: nat :: PlacedIn(input, p, id, i)
  {
    var at := NodeDomain(input.nodes, input.level);
    if p.node in at {
      var i := HostExists(input.nodes, input.level, p.node);
      HostDecides(input, input.nodes, p.node, i);
      assert at[p.node] == id ==> PlacedIn(input, p, id, i);
    }
    if i: nat :| PlacedIn(input, p, id, i) {
      HostDecides(input, input.nodes, p.node, i);
    }
  }

  lemma {:induction false} FixedMeaning(input: Input, p: Pod, id: string)
    ensures var at, usable := NodeDomain(input.nodes, input.level), NodeUsability(input, input.nodes);
      PodIn(p, at, input.cfg, id) && IsFixedOn(p, usable, input.cfg) <==> HoldsFixed(input, p, id)
  {
    PlacedMeaning(input, p, id);
    if i: nat :| PlacedIn(input, p, id, i) {
      HostDecides(input, input.nodes, p.node, i);
      forall k: nat | PlacedIn(input, p, id, k) ensures k == i {
      }
      UsableMeaning(input.nodes[i], input.cfg.taintKey, input.self);
    }
  }

  /** What pod by pod a domain cannot free. */
  ghost function FixedShares(input: Input, pods: seq<Pod>, id: string): seq<nat> {
    Map(pods, (p: Pod) => if HoldsFixed(input, p, id) then GpuRequest(p.containers, input.cfg.gpu) else 0)
  }

  lemma {:induction false} FixedByPod(input: Input, pods: seq<Pod>, id: string)
    ensures DomainFixed(pods, NodeDomain(input.nodes, input.level), NodeUsability(input, input.nodes), input.cfg, id)
      == Sum(FixedShares(input, pods, id))
  {
    if pods == [] {
    } else {
      var n := |pods| - 1;
      FixedByPod(input, pods[..n], id);
      FixedMeaning(input, pods[n], id);
      assert FixedShares(input, pods, id)[..n] == FixedShares(input, pods[..n], id);
    }
  }

  /**
   A domain's non-reclaimable GPUs are those of live pods that are neither kueue's nor declared transient by any
   label, on nodes of the domain where the hero can land.
   */
  lemma {:induction false} NonReclaimableByPod(input: Input, id: string)
    requires id in BuildSpec(input).domains
    ensures BuildSpec(input).domains[id].nonReclaimable == Sum(FixedShares(input, input.pods, id))
  {
    FixedByPod(input, input.pods, id);
  }

  lemma {:induction false} MovableMeaning(input: Input, pods: seq<Pod>, id: string, v: Victim)
    ensures v in DomainVictims(pods, NodeDomain(input.nodes, input.level), input.cfg, id) <==>
      exists p :: p in pods && HoldsMovable(input, p, id) && v == AsVictim(p, input.cfg)
  {
    if pods == [] {
    } else {
      var n := |pods| - 1;
      MovableMeaning(input, pods[..n], id, v);
      PlacedMeaning(input, pods[n], id);
      assert pods == pods[..n] + [pods[n]];
    }
  }

  /** A domain's victims are the live kueue-managed GPU pods on its nodes, each under its workload's name. */
  lemma {:induction false} VictimsByPod(input: Input, id: string, v: Victim)
    requires id in BuildSpec(input).domains
    ensures v in BuildSpec(input).domains[id].victims <==>
      exists p :: p in input.pods && HoldsMovable(input, p, id)
        && v == Victim(p.key, p.node, Name(p.key.ns, p.annotations["kueue.x-k8s.io/workload"]),
                       GpuRequest(p.containers, input.cfg.gpu))
  {
    MovableMeaning(input, input.pods, id, v);
  }
}
