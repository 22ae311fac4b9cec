/** What Build neither loses nor counts twice: nodes, GPUs and pods, summed over all domains. */
module Conservation {
  import opened Base
  import opened Kube
  import opened Snapshots
  import opened SnapshotFacts
  import opened Selection

  ghost predicate DistinctStrings(ids: seq<string>) {
    forall i, j :: 0 <= i < j < |ids| ==> ids[i] != ids[j]
  }

  lemma {:induction false} ListingDistinct(s: set<string>)
    ensures DistinctStrings(SortedListing(s))
    ensures forall x :: x in SortedListing(s) <==> x in s
  {
    var r := SortedListing(s);
    assert IsSortedListing(s, r);
    forall i, j | 0 <= i < j < |r| ensures r[i] != r[j] {
      StrLessTotal(r[i], r[j]);
    }
    forall x ensures x in r <==> x in s {
      assert x in r <==> x in Elements(r);
    }
  }

  ghost predicate Splits(ids: seq<string>)
    requires ids != []
  {
    DistinctStrings(ids[..|ids| - 1]) && ids[|ids| - 1] !in ids[..|ids| - 1]
  }

  // ---- nodes ----

  ghost function NamesOver(nodes: seq<Node>, level: string, ids: seq<string>): multiset<string> {
    if ids == [] then multiset{}
    else NamesOver(nodes, level, ids[..|ids| - 1]) + multiset(DomainNodes(nodes, level, ids[|ids| - 1]))
  }

  ghost function LabelledNames(nodes: seq<Node>, level: string, ids: seq<string>): multiset<string> {
    if nodes == [] then multiset{}
    else
      var rest, node := LabelledNames(nodes[..|nodes| - 1], level, ids), nodes[|nodes| - 1];
      if LabelOf(node.labels, level) in ids then rest + multiset{node.name} else rest
  }

  lemma {:induction false} NamesSnoc(nodes: seq<Node>, level: string, ids: seq<string>)
    requires nodes != [] && DistinctStrings(ids)
    ensures var n := |nodes| - 1;
      NamesOver(nodes, level, ids) == NamesOver(nodes[..n], level, ids)
        + (if LabelOf(nodes[n].labels, level) in ids then multiset{nodes[n].name} else multiset{})
  {
    if ids == [] {
    } else {
      assert Splits(ids);
      NamesSnoc(nodes, level, ids[..|ids| - 1]);
      assert ids == ids[..|ids| - 1] + [ids[|ids| - 1]];
    }
  }

  lemma {:induction false} NoNames(level: string, ids: seq<string>)
    ensures NamesOver([], level, ids) == multiset{}
  {
    if ids == [] {
    } else {
      NoNames(level, ids[..|ids| - 1]);
    }
  }

  lemma {:induction false} NamesConserved(nodes: seq<Node>, level: string, ids: seq<string>)
    requires DistinctStrings(ids)
    ensures NamesOver(nodes, level, ids) == LabelledNames(nodes, level, ids)
  {
    if nodes == [] {
      NoNames(level, ids);
    } else {
      NamesSnoc(nodes, level, ids);
      NamesConserved(nodes[..|nodes| - 1], level, ids);
    }
  }

  // ---- GPUs ----

  ghost function GpuOver(input: Input, nodes: seq<Node>, ids: seq<string>): nat {
    if ids == [] then 0 else GpuOver(input, nodes, ids[..|ids| - 1]) + DomainGpu(input, nodes, ids[|ids| - 1])
  }

  /** The usable labelled nodes' GPUs. */
  ghost function LabelledGpu(input: Input, nodes: seq<Node>, ids: seq<string>): nat {
    if nodes == [] then 0
    else
      var rest, node := LabelledGpu(input, nodes[..|nodes| - 1], ids), nodes[|nodes| - 1];
      if LabelOf(node.labels, input.level) in ids then rest + NodeGpu(input, node) else rest
  }

  lemma {:induction false} GpuSnoc(input: Input, nodes: seq<Node>, ids: seq<string>)
    requires nodes != [] && DistinctStrings(ids)
    ensures var n := |nodes| - 1;
      GpuOver(input, nodes, ids) == GpuOver(input, nodes[..n], ids)
        + (if LabelOf(nodes[n].labels, input.level) in ids then NodeGpu(input, nodes[n]) else 0)
  {
    if ids == [] {
    } else {
      assert Splits(ids);
      GpuSnoc(input, nodes, ids[..|ids| - 1]);
      assert ids == ids[..|ids| - 1] + [ids[|ids| - 1]];
    }
  }

  lemma {:induction false} NoGpu(input: Input, ids: seq<string>)
    ensures GpuOver(input, [], ids) == 0
  {
    if ids == [] {
    } else {
      NoGpu(input, ids[..|ids| - 1]);
    }
  }

  lemma {:induction false} GpuConserved(input: Input, nodes: seq<Node>, ids: seq<string>)
    requires DistinctStrings(ids)
    ensures GpuOver(input, nodes, ids) == LabelledGpu(input, nodes, ids)
  {
    if nodes == [] {
      NoGpu(input, ids);
    } else {
      GpuSnoc(input, nodes, ids);
      GpuConserved(input, nodes[..|nodes| - 1], ids);
    }
  }

  // ---- pods ----

  ghost function VictimsOver(pods: seq<Pod>, at: map<string, string>, cfg: Config, ids: seq<string>): multiset<Victim> {
    if ids == [] then multiset{}
    else VictimsOver(pods, at, cfg, ids[..|ids| - 1]) + multiset(DomainVictims(pods, at, cfg, ids[|ids| - 1]))
  }

  /** A live GPU pod on a node labelled into one of the domains. */
  predicate Placed(p: Pod, at: map<string, string>, cfg: Config, ids: seq<string>) {
    p.node in at && at[p.node] in ids && Counts(p, cfg)
  }

  /** The kueue-managed ones among them, as victims. */
  ghost function ManagedPods(pods: seq<Pod>, at: map<string, string>, cfg: Config, ids: seq<string>): multiset<Victim> {
    if pods == [] then multiset{}
    else
      ManagedPods(pods[..|pods| - 1], at, cfg, ids) + AsManaged(pods[|pods| - 1], at, cfg, ids)
  }

  ghost function AsManaged(p: Pod, at: map<string, string>, cfg: Config, ids: seq<string>): multiset<Victim> {
    if Placed(p, at, cfg, ids) && WORKLOAD_ANNOTATION in p.annotations then multiset{AsVictim(p, cfg)} else multiset{}
  }

  lemma {:induction false} DomainVictimsSnoc(pods: seq<Pod>, at: map<string, string>, cfg: Config, id: string)
    requires pods != []
    ensures var n := |pods| - 1;
      multiset(DomainVictims(pods, at, cfg, id))
        == multiset(DomainVictims(pods[..n], at, cfg, id)) + AsManaged(pods[n], at, cfg, [id])
  {
  }

  lemma {:induction false} VictimsSnoc(pods: seq<Pod>, at: map<string, string>, cfg: Config, ids: seq<string>)
    requires pods != [] && DistinctStrings(ids)
    ensures VictimsOver(pods, at, cfg, ids)
      == VictimsOver(pods[..|pods| - 1], at, cfg, ids) + AsManaged(pods[|pods| - 1], at, cfg, ids)
  {
    if ids == [] {
    } else {
      var k := |ids| - 1;
      assert Splits(ids);
      VictimsSnoc(pods, at, cfg, ids[..k]);
      DomainVictimsSnoc(pods, at, cfg, ids[k]);
      assert ids == ids[..k] + [ids[k]];
    }
  }

  lemma {:induction false} NoVictims(at: map<string, string>, cfg: Config, ids: seq<string>)
    ensures VictimsOver([], at, cfg, ids) == multiset{}
  {
    if ids == [] {
    } else {
      NoVictims(at, cfg, ids[..|ids| - 1]);
    }
  }

  lemma {:induction false} VictimsConserved(pods: seq<Pod>, at: map<string, string>, cfg: Config, ids: seq<string>)
    requires DistinctStrings(ids)
    ensures VictimsOver(pods, at, cfg, ids) == ManagedPods(pods, at, cfg, ids)
  {
    if pods == [] {
      NoVictims(at, cfg, ids);
    } else {
      VictimsSnoc(pods, at, cfg, ids);
      VictimsConserved(pods[..|pods| - 1], at, cfg, ids);
    }
  }

  ghost function FixedOver(pods: seq<Pod>, at: map<string, string>, usable: map<string, bool>, cfg: Config,
      ids: seq<string>): nat
  {
    if ids == [] then 0
    else FixedOver(pods, at, usable, cfg, ids[..|ids| - 1]) + DomainFixed(pods, at, usable, cfg, ids[|ids| - 1])
  }

  /** The GPUs of placed pods that are neither managed nor declared non-blocking, on usable nodes only. */
  ghost function FixedPods(pods: seq<Pod>, at: map<string, string>, usable: map<string, bool>, cfg: Config,
      ids: seq<string>): nat
  {
    if pods == [] then 0
    else
      var rest, p := FixedPods(pods[..|pods| - 1], at, usable, cfg, ids), pods[|pods| - 1];
      if Placed(p, at, cfg, ids) && Classify(p, cfg).IsFixed? && p.node in usable && usable[p.node]
      then rest + GpuRequest(p.containers, cfg.gpu) else rest
  }

  lemma {:induction false} FixedSnoc(pods: seq<Pod>, at: map<string, string>, usable: map<string, bool>, cfg: Config,
      ids: seq<string>)
    requires pods != [] && DistinctStrings(ids)
    ensures var n := |pods| - 1;
      FixedOver(pods, at, usable, cfg, ids) == FixedOver(pods[..n], at, usable, cfg, ids)
        + (if Placed(pods[n], at, cfg, ids) && IsFixedOn(pods[n], usable, cfg)
           then GpuRequest(pods[n].containers, cfg.gpu) else 0)
  {
    if ids == [] {
    } else {
      assert Splits(ids);
      FixedSnoc(pods, at, usable, cfg, ids[..|ids| - 1]);
      assert ids == ids[..|ids| - 1] + [ids[|ids| - 1]];
    }
  }

  lemma {:induction false} NoFixed(at: map<string, string>, usable: map<string, bool>, cfg: Config, ids: seq<string>)
    ensures FixedOver([], at, usable, cfg, ids) == 0
  {
    if ids == [] {
    } else {
      NoFixed(at, usable, cfg, ids[..|ids| - 1]);
    }
  }

  lemma {:induction false} FixedConserved(pods: seq<Pod>, at: map<string, string>, usable: map<string, bool>,
      cfg: Config, ids: seq<string>)
    requires DistinctStrings(ids)
    ensures FixedOver(pods, at, usable, cfg, ids) == FixedPods(pods, at, usable, cfg, ids)
  {
    if pods == [] {
      NoFixed(at, usable, cfg, ids);
    } else {
      FixedSnoc(pods, at, usable, cfg, ids);
      FixedConserved(pods[..|pods| - 1], at, usable, cfg, ids);
    }
  }

  // ---- over a whole snapshot ----

  ghost function AllocatableOver(s: Snapshot, ids: seq<string>): nat
    requires forall id :: id in ids ==> id in s.domains
  {
    if ids == [] then 0 else AllocatableOver(s, ids[..|ids| - 1]) + s.domains[ids[|ids| - 1]].allocatable
  }

  ghost function NodesOver(s: Snapshot, ids: seq<string>): multiset<string>
    requires forall id :: id in ids ==> id in s.domains
  {
    if ids == [] then multiset{} else NodesOver(s, ids[..|ids| - 1]) + multiset(s.domains[ids[|ids| - 1]].nodes)
  }

  ghost function SnapshotVictims(s: Snapshot, ids: seq<string>): multiset<Victim>
    requires forall id :: id in ids ==> id in s.domains
  {
    if ids == [] then multiset{}
    else SnapshotVictims(s, ids[..|ids| - 1]) + multiset(s.domains[ids[|ids| - 1]].victims)
  }

  ghost function NonReclaimableOver(s: Snapshot, ids: seq<string>): nat
    requires forall id :: id in ids ==> id in s.domains
  {
    if ids == [] then 0 else NonReclaimableOver(s, ids[..|ids| - 1]) + s.domains[ids[|ids| - 1]].nonReclaimable
  }

  lemma {:induction false} SnapshotNodeSums(input: Input, ids: seq<string>)
    requires forall id :: id in ids ==> id in BuildSpec(input).domains
    ensures AllocatableOver(BuildSpec(input), ids) == GpuOver(input, input.nodes, ids)
    ensures NodesOver(BuildSpec(input), ids) == NamesOver(input.nodes, input.level, ids)
  {
    if ids == [] {
    } else {
      assert ids[|ids| - 1] in ids && forall id :: id in ids[..|ids| - 1] ==> id in ids;
      SnapshotNodeSums(input, ids[..|ids| - 1]);
    }
  }

  lemma {:induction false} SnapshotPodSums(input: Input, ids: seq<string>)
    requires forall id :: id in ids ==> id in BuildSpec(input).domains
    ensures var s := BuildSpec(input);
      var at, usable := NodeDomain(input.nodes, input.level), NodeUsability(input, input.nodes);
      && SnapshotVictims(s, ids) == VictimsOver(input.pods, at, input.cfg, ids)
      && NonReclaimableOver(s, ids) == FixedOver(input.pods, at, usable, input.cfg, ids)
  {
    if ids == [] {
    } else {
      assert ids[|ids| - 1] in ids && forall id :: id in ids[..|ids| - 1] ==> id in ids;
      SnapshotPodSums(input, ids[..|ids| - 1]);
    }
  }

  /** Over all domains the node lists are the labelled nodes, each once, and the GPUs those of the usable ones. */
  lemma {:induction false} SnapshotConservesNodes(input: Input)
    ensures var s, ids := BuildSpec(input), SortedListing(BuildSpec(input).domains.Keys);
      && (forall id :: id in ids <==> id in s.domains)
      && NodesOver(s, ids) == LabelledNames(input.nodes, input.level, ids)
      && AllocatableOver(s, ids) == LabelledGpu(input, input.nodes, ids)
  {
    var s := BuildSpec(input);
    var ids := SortedListing(s.domains.Keys);
    ListingDistinct(s.domains.Keys);
    SnapshotNodeSums(input, ids);
    NamesConserved(input.nodes, input.level, ids);
    GpuConserved(input, input.nodes, ids);
  }

  /**
   Class by class: the victims of all domains are the managed live GPU pods on labelled nodes, each once, and
   the non-reclaimable GPUs are those of the fixed live GPU pods on usable labelled nodes.
   */
  lemma {:induction false} SnapshotConservesPods(input: Input)
    ensures var s, ids := BuildSpec(input), SortedListing(BuildSpec(input).domains.Keys);
      var at, usable := NodeDomain(input.nodes, input.level), NodeUsability(input, input.nodes);
      && (forall id :: id in ids <==> id in s.domains)
      && SnapshotVictims(s, ids) == ManagedPods(input.pods, at, input.cfg, ids)
      && NonReclaimableOver(s, ids) == FixedPods(input.pods, at, usable, input.cfg, ids)
  {
    var s := BuildSpec(input);
    var ids := SortedListing(s.domains.Keys);
    ListingDistinct(s.domains.Keys);
    SnapshotPodSums(input, ids);
    VictimsConserved(input.pods, NodeDomain(input.nodes, input.level), input.cfg, ids);
    FixedConserved(input.pods, NodeDomain(input.nodes, input.level), NodeUsability(input, input.nodes), input.cfg, ids);
  }

  /** What can be freed does not depend on who occupies it: without any victims it is the same. */
  lemma {:induction false} ReclaimableIgnoresVictims(input: Input, keep: Pod -> bool, id: string)
    requires OnlyManagedLeave(input.pods, keep) && id in BuildSpec(input).domains
    ensures var fewer := BuildSpec(input.(pods := Filter(input.pods, keep)));
      id in fewer.domains && Reclaimable(fewer.domains[id]) == Reclaimable(BuildSpec(input).domains[id])
  {
    var other := input.(pods := Filter(input.pods, keep));
    InputIrrelevant(input, other, input.nodes, id);
    FixedUnaffected(input.pods, keep, NodeDomain(input.nodes, input.level), NodeUsability(input, input.nodes),
      input.cfg, id);
  }
}
