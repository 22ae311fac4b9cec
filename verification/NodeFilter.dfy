/**
 The node event filter of the drain controller: which node updates it drops, and why a dropped update
 could not have changed a decision.
 */
module NodeFilter {
  import opened Base
  import opened Kube
  import opened Taints
  import opened Snapshots
  import opened SnapshotFacts

  /** resource.Quantity.Value(): whole units, rounded up. */
  function WholeUnits(milli: nat): nat {
    (milli + 999) / 1000
  }

  function Allocatable(node: Node, gpu: string): nat {
    if gpu in node.allocatable then node.allocatable[gpu] else 0
  }

  /** An annotation's text, "" when absent; only whether two texts are equal is ever asked. */
  function StampText(s: Option<Stamp>): Stamp {
    if s.Some? then s.value else Unparsable("")
  }

  datatype View = View(usable: bool, gpu: nat, owner: Name, startedAt: Stamp, nudge: Stamp)

  function OwnerOrNobody(node: Node, key: string): Name {
    var owner := Owner(node, key);
    if owner.Some? then owner.value else NOBODY
  }

  /** nodeView: usability is asked for the node's own owner only. */
  function NodeView(node: Node, cfg: Config): View {
    View(NodeUsable(node, cfg.taintKey, OwnerOrNobody(node, cfg.taintKey)), WholeUnits(Allocatable(node, cfg.gpu)),
         OwnerOrNobody(node, cfg.taintKey), StampText(node.startedAt), StampText(node.nudge))
  }

  predicate AffectsPlacement(before: Node, after: Node, cfg: Config) {
    before.labels != after.labels || NodeView(before, cfg) != NodeView(after, cfg)
  }

  /** An update the filter drops. */
  predicate Dropped(before: Node, after: Node, cfg: Config) {
    before.name == after.name && !AffectsPlacement(before, after, cfg)
  }

  ghost predicate HasHard(node: Node) {
    exists i :: 0 <= i < |node.taints| && IsHard(node.taints[i])
  }

  lemma {:induction false} OwnedHasHard(node: Node, key: string)
    requires Owner(node, key).Some?
    ensures HasHard(node)
  {
    var i :| 0 <= i < |node.taints| && IsDrainTaint(node.taints[i], key);
    assert IsHard(node.taints[i]);
  }

  /** Usability for the node's own owner settles it for every hero. */
  lemma {:induction false} UsabilityDetermined(node: Node, key: string, self: Name)
    requires self != NOBODY
    ensures NodeUsable(node, key, self) <==>
      NodeUsable(node, key, OwnerOrNobody(node, key)) && Owner(node, key) in {None, Some(self)}
  {
    var owner := OwnerOrNobody(node, key);
    if Owner(node, key).Some? {
      ParsedOwnerIsText(node.owner.value, owner);
      OwnedHasHard(node, key);
    }
    if NodeUsable(node, key, owner) && Owner(node, key).None? {
      forall i | 0 <= i < |node.taints| ensures !IsHard(node.taints[i]) {
      }
    }
    if NodeUsable(node, key, self) && Owner(node, key) != Some(self) {
      forall i | 0 <= i < |node.taints| ensures !IsHard(node.taints[i]) {
      }
    }
  }

  lemma {:induction false} DroppedKeepsUsability(a: Node, b: Node, cfg: Config, self: Name)
    requires Dropped(a, b, cfg)
    ensures NodeUsable(a, cfg.taintKey, self) == NodeUsable(b, cfg.taintKey, self)
    ensures Owner(a, cfg.taintKey) == Owner(b, cfg.taintKey) && ClockOf(a) == ClockOf(b)
  {
    assert NodeView(a, cfg) == NodeView(b, cfg);
    OwnerFromView(a, b, cfg);
    if self != NOBODY {
      UsabilityDetermined(a, cfg.taintKey, self);
      UsabilityDetermined(b, cfg.taintKey, self);
    } else {
      UsableForNobody(a, cfg.taintKey);
      UsableForNobody(b, cfg.taintKey);
    }
  }

  lemma {:induction false} OwnerFromView(a: Node, b: Node, cfg: Config)
    requires NodeView(a, cfg).owner == NodeView(b, cfg).owner
    ensures Owner(a, cfg.taintKey) == Owner(b, cfg.taintKey)
  {
    if Owner(a, cfg.taintKey).Some? {
      ParsedOwnerIsText(a.owner.value, Owner(a, cfg.taintKey).value);
    }
    if Owner(b, cfg.taintKey).Some? {
      ParsedOwnerIsText(b.owner.value, Owner(b, cfg.taintKey).value);
    }
  }

  lemma {:induction false} UsableForNobody(node: Node, key: string)
    ensures NodeUsable(node, key, NOBODY) <==> NodeUsable(node, key, OwnerOrNobody(node, key)) && Owner(node, key).None?
  {
    if Owner(node, key).Some? {
      ParsedOwnerIsText(node.owner.value, Owner(node, key).value);
      OwnedHasHard(node, key);
    }
  }

  predicate Whole(node: Node, gpu: string) {
    Allocatable(node, gpu) % 1000 == 0
  }

  /** No snapshot, for any hero, levels and cluster around the node, differs between a and b. */
  ghost predicate Harmless(a: Node, b: Node, cfg: Config) {
    forall input: Input, i: nat :: input.cfg == cfg && i < |input.nodes| && input.nodes[i] == a ==>
      BuildSpec(input.(nodes := input.nodes[i := b])) == BuildSpec(input)
  }

  ghost predicate Labelled(node: Node) {
    exists level :: level in node.labels && node.labels[level] != ""
  }

  lemma {:induction false} DroppedSameNode(a: Node, b: Node, cfg: Config, input: Input)
    requires Dropped(a, b, cfg) && input.cfg == cfg
    requires Allocatable(a, cfg.gpu) == Allocatable(b, cfg.gpu) || !NodeView(a, cfg).usable || !Labelled(a)
    ensures SameNode(input, a, b)
  {
    if LabelOf(a.labels, input.level) != "" {
      assert Labelled(a);
      DroppedKeepsUsability(a, b, cfg, input.self);
      if input.self != NOBODY {
        UsabilityDetermined(a, cfg.taintKey, input.self);
      } else {
        UsableForNobody(a, cfg.taintKey);
      }
    }
  }

  lemma {:induction false} AloneInDomain(level: string, node: Node, cfg: Config, self: Name)
    requires LabelOf(node.labels, level) != ""
    ensures var input := Input(level, "", [node], [], [], self, cfg);
      var id := LabelOf(node.labels, level);
      && id in BuildSpec(input).domains
      && BuildSpec(input).domains[id].allocatable
        == if NodeUsable(node, cfg.taintKey, self) then Allocatable(node, cfg.gpu) else 0
  {
    var input := Input(level, "", [node], [], [], self, cfg);
    assert node in [node] && [node][..0] == [];
    assert DomainGpu(input, [], LabelOf(node.labels, level)) == 0;
  }

  lemma {:induction false} ChangedGpuShows(a: Node, b: Node, cfg: Config)
    requires Dropped(a, b, cfg) && Allocatable(a, cfg.gpu) != Allocatable(b, cfg.gpu) && NodeView(a, cfg).usable
    requires Labelled(a)
    ensures !Harmless(a, b, cfg)
  {
    var owner := OwnerOrNobody(a, cfg.taintKey);
    var level :| level in a.labels && a.labels[level] != "";
    var input := Input(level, "", [a], [], [], owner, cfg);
    DroppedKeepsUsability(a, b, cfg, owner);
    AloneInDomain(level, a, cfg, owner);
    AloneInDomain(level, b, cfg, owner);
    assert input.nodes[0] == a;
    assert input.(nodes := input.nodes[0 := b]) == Input(level, "", [b], [], [], owner, cfg);
  }

  /**
   What a dropped update can change: no snapshot for any hero, levels and cluster, exactly when the GPU
   quantity is the same, or the node is unusable for its own owner, or it carries no label to be placed by.
   */
  lemma {:induction false} DroppedIsHarmlessIff(a: Node, b: Node, cfg: Config)
    requires Dropped(a, b, cfg)
    ensures Harmless(a, b, cfg)
      <==> Allocatable(a, cfg.gpu) == Allocatable(b, cfg.gpu) || !NodeView(a, cfg).usable || !Labelled(a)
  {
    if Allocatable(a, cfg.gpu) == Allocatable(b, cfg.gpu) || !NodeView(a, cfg).usable || !Labelled(a) {
      forall input: Input, i: nat | input.cfg == cfg && i < |input.nodes| && input.nodes[i] == a
        ensures BuildSpec(input.(nodes := input.nodes[i := b])) == BuildSpec(input)
      {
        OneNodeChanged(input, i, b);
      }
    } else {
      ChangedGpuShows(a, b, cfg);
    }
  }

  lemma {:induction false} OneNodeChanged(input: Input, i: nat, b: Node)
    requires i < |input.nodes| && Dropped(input.nodes[i], b, input.cfg)
    requires var a, cfg := input.nodes[i], input.cfg;
      Allocatable(a, cfg.gpu) == Allocatable(b, cfg.gpu) || !NodeView(a, cfg).usable || !Labelled(a)
    ensures BuildSpec(input.(nodes := input.nodes[i := b])) == BuildSpec(input)
  {
    var ms := input.nodes[i := b];
    forall j | 0 <= j < |ms| ensures SameNode(input, input.nodes[j], ms[j]) {
      if j == i {
        DroppedSameNode(input.nodes[i], b, input.cfg, input);
      }
    }
    BuildSameNodes(input, ms);
  }

  /** Heartbeats, condition noise, image lists and foreign annotations are dropped; a change of labels never is. */
  lemma {:induction false} NoiseIsDropped(a: Node, b: Node, cfg: Config)
    requires b == a.(conditions := b.conditions, images := b.images, annotations := b.annotations)
    requires IsReady(b.conditions) == IsReady(a.conditions)
    ensures Dropped(a, b, cfg)
    ensures forall labels :: labels != b.labels ==> !Dropped(a, b.(labels := labels), cfg)
  {
  }

  /** With whole GPUs a dropped update leaves every snapshot and every drain in flight as they were. */
  lemma {:induction false} DroppedUpdatesInvisible(input: Input, ms: seq<Node>)
    requires |ms| == |input.nodes|
    requires forall i :: 0 <= i < |ms| ==> Dropped(input.nodes[i], ms[i], input.cfg)
    requires forall i :: 0 <= i < |ms| ==> Whole(input.nodes[i], input.cfg.gpu) && Whole(ms[i], input.cfg.gpu)
    ensures BuildSpec(input.(nodes := ms)) == BuildSpec(input)
    ensures FindDrainsSpec(ms, input.cfg.taintKey) == FindDrainsSpec(input.nodes, input.cfg.taintKey)
  {
    forall i | 0 <= i < |ms| ensures SameNode(input, input.nodes[i], ms[i]) {
      var a, b := input.nodes[i], ms[i];
      assert Dropped(a, b, input.cfg) && Whole(a, input.cfg.gpu) && Whole(b, input.cfg.gpu);
      WholeUnitsExact(Allocatable(a, input.cfg.gpu), Allocatable(b, input.cfg.gpu));
      DroppedSameNode(a, b, input.cfg, input);
    }
    BuildSameNodes(input, ms);
    DroppedKeepsDrains(input.nodes, ms, input.cfg);
  }

  lemma {:induction false} WholeUnitsExact(a: nat, b: nat)
    requires a % 1000 == 0 && b % 1000 == 0
    ensures WholeUnits(a) == WholeUnits(b) ==> a == b
  {
  }

  lemma {:induction false} DroppedKeepsDrains(ns: seq<Node>, ms: seq<Node>, cfg: Config)
    requires |ms| == |ns| && forall i :: 0 <= i < |ms| ==> Dropped(ns[i], ms[i], cfg)
    ensures FindDrainsSpec(ms, cfg.taintKey) == FindDrainsSpec(ns, cfg.taintKey)
  {
    if ns != [] {
      var n := |ns| - 1;
      DroppedKeepsDrains(ns[..n], ms[..n], cfg);
      DroppedKeepsUsability(ns[n], ms[n], cfg, NOBODY);
      assert Dropped(ns[n], ms[n], cfg);
      assert ns == ns[..n] + [ns[n]] && ms == ms[..n] + [ms[n]];
      FindDrainsStep(ns[..n], ns[n], cfg.taintKey);
      FindDrainsStep(ms[..n], ms[n], cfg.taintKey);
    } else {
      assert ms == ns;
    }
  }

  /** Fractional quantities slip through: half a GPU becoming a whole one is dropped, yet the domain grew. */
  lemma {:induction false} FractionalGpuSlipsThrough(cfg: Config, ready: Node, level: string)
    requires ready.taints == [] && !ready.unschedulable && IsReady(ready.conditions)
    requires LabelOf(ready.labels, level) != ""
    ensures var a, b := ready.(allocatable := map[cfg.gpu := 500]), ready.(allocatable := map[cfg.gpu := 1000]);
      && Dropped(a, b, cfg)
      && BuildSpec(Input(level, "", [a], [], [], NOBODY, cfg)) != BuildSpec(Input(level, "", [b], [], [], NOBODY, cfg))
  {
    AloneInDomain(level, ready.(allocatable := map[cfg.gpu := 500]), cfg, NOBODY);
    AloneInDomain(level, ready.(allocatable := map[cfg.gpu := 1000]), cfg, NOBODY);
  }
}
