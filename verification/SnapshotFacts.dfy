/** What Build guarantees for every input: what it depends on, and what it conserves. */
module SnapshotFacts {
  import opened Base
  import opened Kube
  import opened Taints
  import opened Snapshots
  import opened Selection
  import opened Plans

  lemma {:induction false} BuildKeyed(input: Input)
    ensures KeyedById(BuildSpec(input))
  {
  }

  // ---- what Build reads from a node ----

  /** b looks like a to the planner: same place and, if it is in the level, same usability and usable GPUs. */
  ghost predicate SameNode(input: Input, a: Node, b: Node) {
    && b.name == a.name && b.labels == a.labels
    && (LabelOf(a.labels, input.level) != "" ==>
          && NodeUsable(b, input.cfg.taintKey, input.self) == NodeUsable(a, input.cfg.taintKey, input.self)
          && NodeGpu(input, b) == NodeGpu(input, a))
  }

  ghost predicate SameNodes(input: Input, ns: seq<Node>, ms: seq<Node>) {
    |ms| == |ns| && forall i :: 0 <= i < |ns| ==> SameNode(input, ns[i], ms[i])
  }

  lemma {:induction false} SameNodeMaps(input: Input, ns: seq<Node>, ms: seq<Node>)
    requires SameNodes(input, ns, ms)
    ensures NodeDomain(ms, input.level) == NodeDomain(ns, input.level)
    ensures NodeUsability(input, ms) == NodeUsability(input, ns)
  {
    if ns == [] {
    } else {
      var n := |ns| - 1;
      SameNodeMaps(input, ns[..n], ms[..n]);
      assert SameNode(input, ns[n], ms[n]);
    }
  }

  lemma {:induction false} SameDomainIds(input: Input, ns: seq<Node>, ms: seq<Node>)
    requires SameNodes(input, ns, ms)
    ensures DomainIds(ms, input.level) == DomainIds(ns, input.level)
  {
    forall id | id in DomainIds(ns, input.level) ensures id in DomainIds(ms, input.level) {
      var i :| 0 <= i < |ns| && LabelOf(ns[i].labels, input.level) == id;
      assert SameNode(input, ns[i], ms[i]) && ms[i] in ms;
    }
    forall id | id in DomainIds(ms, input.level) ensures id in DomainIds(ns, input.level) {
      var i :| 0 <= i < |ms| && LabelOf(ms[i].labels, input.level) == id;
      assert SameNode(input, ns[i], ms[i]) && ns[i] in ns;
    }
  }

  lemma {:induction false} SameDomain(input: Input, ns: seq<Node>, ms: seq<Node>, id: string)
    requires SameNodes(input, ns, ms) && id != ""
    ensures DomainNodes(ms, input.level, id) == DomainNodes(ns, input.level, id)
    ensures DomainGroup(ms, input.level, input.groupLevel, id) == DomainGroup(ns, input.level, input.groupLevel, id)
    ensures DomainGpu(input, ms, id) == DomainGpu(input, ns, id)
  {
    if ns == [] {
    } else {
      var n := |ns| - 1;
      SameDomain(input, ns[..n], ms[..n], id);
      assert SameNode(input, ns[n], ms[n]);
    }
  }

  lemma {:induction false} InputIrrelevant(input: Input, other: Input, ns: seq<Node>, id: string)
    requires other == input.(nodes := other.nodes, pods := other.pods, otherHeroes := other.otherHeroes)
    ensures DomainGpu(other, ns, id) == DomainGpu(input, ns, id)
    ensures NodeUsability(other, ns) == NodeUsability(input, ns)
  {
    if ns == [] {
    } else {
      InputIrrelevant(input, other, ns[..|ns| - 1], id);
    }
  }

  /** The snapshot is a function of what SameNode compares. */
  lemma {:induction false} BuildSameNodes(input: Input, ms: seq<Node>)
    requires SameNodes(input, input.nodes, ms)
    ensures BuildSpec(input.(nodes := ms)) == BuildSpec(input)
  {
    var ns, other := input.nodes, input.(nodes := ms);
    SameNodeMaps(input, ns, ms);
    SameDomainIds(input, ns, ms);
    InputIrrelevant(input, other, ms, "");
    var at, usable := NodeDomain(ns, input.level), NodeUsability(input, ns);
    var a, b := DomainsAfter(input, ns, input.pods, at, usable), DomainsAfter(other, ms, input.pods, at, usable);
    assert a.Keys == b.Keys;
    forall id | id in a ensures b[id] == a[id] {
      SameDomain(input, ns, ms, id);
      InputIrrelevant(input, other, ms, id);
    }
    assert a == b;
  }

  // ---- self's own taint is invisible to self ----

  /** b is a with self's drain taint ensured at some time, or a itself. */
  ghost predicate MaybeTainted(a: Node, b: Node, key: string, self: Name) {
    b == a || exists queue: string, now: int :: b == After(a, EnsureTaint(a, key, self, queue, now))
  }

  ghost predicate MaybeTaintedAll(ns: seq<Node>, ms: seq<Node>, key: string, self: Name) {
    |ms| == |ns| && forall i :: 0 <= i < |ns| ==> MaybeTainted(ns[i], ms[i], key, self)
  }

  lemma {:induction false} OwnTaintKeepsUsability(a: Node, key: string, self: Name, queue: string, now: int)
    requires ValidName(self)
    ensures var b := After(a, EnsureTaint(a, key, self, queue, now));
      NodeUsable(b, key, self) == NodeUsable(a, key, self)
  {
    var w := EnsureTaint(a, key, self, queue, now);
    if w.Write? {
      EnsureTaintOwns(a, key, self, queue, now);
      var b := w.node;
      var n := |a.taints|;
      assert b.taints[..n] == a.taints && b.taints[n] == Taint(key, queue, NoSchedule);
      assert forall i :: 0 <= i < n ==> b.taints[i] == a.taints[i] && a.taints[i].key != key;
      if NodeUsable(a, key, self) {
        assert forall i :: 0 <= i < n ==> !IsHard(a.taints[i]);
        assert forall i :: 0 <= i < |b.taints| && IsHard(b.taints[i]) ==> i == n;
      }
      if NodeUsable(b, key, self) {
        forall i | 0 <= i < |a.taints| ensures !IsHard(a.taints[i]) {
          assert b.taints[i] == a.taints[i];
        }
      }
    }
  }

  lemma {:induction false} OwnTaintSameNode(input: Input, a: Node, b: Node)
    requires ValidName(input.self) && MaybeTainted(a, b, input.cfg.taintKey, input.self)
    ensures SameNode(input, a, b)
  {
    if b != a {
      var queue: string, now: int :| b == After(a, EnsureTaint(a, input.cfg.taintKey, input.self, queue, now));
      OwnTaintKeepsUsability(a, input.cfg.taintKey, input.self, queue, now);
    }
  }

  /** Tainting any nodes for self leaves the snapshot taken for self unchanged. */
  lemma {:induction false} OwnTaintsInvisible(input: Input, ms: seq<Node>)
    requires ValidName(input.self) && MaybeTaintedAll(input.nodes, ms, input.cfg.taintKey, input.self)
    ensures BuildSpec(input.(nodes := ms)) == BuildSpec(input)
  {
    forall i | 0 <= i < |ms| ensures SameNode(input, input.nodes[i], ms[i]) {
      assert MaybeTainted(input.nodes[i], ms[i], input.cfg.taintKey, input.self);
      OwnTaintSameNode(input, input.nodes[i], ms[i]);
    }
    BuildSameNodes(input, ms);
  }

  // ---- kueue-managed pods are all the planner can lose ----

  /** Only kueue-managed pods are missing from the kept ones. */
  ghost predicate OnlyManagedLeave(pods: seq<Pod>, keep: Pod -> bool) {
    forall p :: p in pods && !keep(p) ==> WORKLOAD_ANNOTATION in p.annotations
  }

  lemma {:induction false} FixedUnaffected(pods: seq<Pod>, keep: Pod -> bool, at: map<string, string>,
      usable: map<string, bool>, cfg: Config, id: string)
    requires OnlyManagedLeave(pods, keep)
    ensures DomainFixed(Filter(pods, keep), at, usable, cfg, id) == DomainFixed(pods, at, usable, cfg, id)
  {
    if pods == [] {
    } else {
      var n := |pods| - 1;
      assert forall p :: p in pods[..n] ==> p in pods;
      assert pods[n] in pods;
      FixedUnaffected(pods[..n], keep, at, usable, cfg, id);
      if keep(pods[n]) {
        var rest := Filter(pods[..n], keep);
        assert (rest + [pods[n]])[..|rest|] == rest;
      }
    }
  }

  lemma {:induction false} OwnersSnoc(vs: seq<Victim>, v: Victim)
    ensures PodOwners(vs + [v]) == PodOwners(vs) + {v.workload}
  {
    assert forall x :: x in vs + [v] <==> x in vs || x == v;
  }

  lemma {:induction false} VictimsUnaffected(pods: seq<Pod>, keep: Pod -> bool, at: map<string, string>, cfg: Config,
      id: string)
    ensures var before, after := DomainVictims(pods, at, cfg, id), DomainVictims(Filter(pods, keep), at, cfg, id);
      && PodOwners(after) <= PodOwners(before)
      && ((forall p :: p in pods && PodIn(p, at, cfg, id) && Classify(p, cfg).IsVictim? ==> keep(p)) ==>
            after == before)
  {
    if pods == [] {
    } else {
      var n := |pods| - 1;
      var p := pods[n];
      assert forall x :: x in pods[..n] ==> x in pods;
      assert p in pods;
      VictimsUnaffected(pods[..n], keep, at, cfg, id);
      var before := DomainVictims(pods[..n], at, cfg, id);
      var after := DomainVictims(Filter(pods[..n], keep), at, cfg, id);
      if keep(p) {
        var rest := Filter(pods[..n], keep);
        assert (rest + [p])[..|rest|] == rest;
      }
      if PodIn(p, at, cfg, id) && Classify(p, cfg).IsVictim? {
        OwnersSnoc(before, AsVictim(p, cfg));
        OwnersSnoc(after, AsVictim(p, cfg));
      }
    }
  }

  lemma {:induction false} VictimFromPod(pods: seq<Pod>, at: map<string, string>, cfg: Config, id: string, p: Pod)
    requires p in pods && PodIn(p, at, cfg, id) && Classify(p, cfg).IsVictim?
    ensures AsVictim(p, cfg) in DomainVictims(pods, at, cfg, id)
  {
    var n := |pods| - 1;
    if pods[n] != p {
      assert p in pods[..n];
      VictimFromPod(pods[..n], at, cfg, id, p);
    }
  }

  /** After pods left and self's taints went up, only the victims of the domains can differ. */
  lemma {:induction false} ProgressKeepsShape(input: Input, ms: seq<Node>, keep: Pod -> bool, id: string)
    requires ValidName(input.self) && MaybeTaintedAll(input.nodes, ms, input.cfg.taintKey, input.self)
    requires OnlyManagedLeave(input.pods, keep)
    ensures var s, t := BuildSpec(input), BuildSpec(input.(nodes := ms, pods := Filter(input.pods, keep)));
      && t.level == s.level && t.domains.Keys == s.domains.Keys
      && (id in s.domains ==>
            && t.domains[id] == s.domains[id].(victims := t.domains[id].victims)
            && s.domains[id].victims == DomainVictims(input.pods, NodeDomain(input.nodes, input.level), input.cfg, id)
            && t.domains[id].victims
              == DomainVictims(Filter(input.pods, keep), NodeDomain(input.nodes, input.level), input.cfg, id))
  {
    var left := input.(pods := Filter(input.pods, keep));
    OwnTaintsInvisible(left, ms);
    assert left.(nodes := ms) == input.(nodes := ms, pods := Filter(input.pods, keep));
    InputIrrelevant(input, left, input.nodes, id);
    FixedUnaffected(input.pods, keep, NodeDomain(input.nodes, input.level), NodeUsability(input, input.nodes),
      input.cfg, id);
  }

  // ---- where the plan's nodes come from ----

  lemma {:induction false} DomainNodesMember(nodes: seq<Node>, level: string, id: string, name: string)
    ensures name in DomainNodes(nodes, level, id)
      <==> exists n :: n in nodes && n.name == name && LabelOf(n.labels, level) == id
  {
    if nodes == [] {
    } else {
      var k := |nodes| - 1;
      DomainNodesMember(nodes[..k], level, id, name);
      assert nodes == nodes[..k] + [nodes[k]];
    }
  }

  lemma {:induction false} NodesAtMember(s: Snapshot, ids: seq<string>, name: string)
    requires forall id :: id in ids ==> id in s.domains
    ensures name in NodesAt(s, ids) <==> exists id :: id in ids && name in s.domains[id].nodes
  {
    if ids == [] {
    } else {
      var k := |ids| - 1;
      assert forall id :: id in ids[..k] ==> id in ids;
      NodesAtMember(s, ids[..k], name);
      assert ids == ids[..k] + [ids[k]];
    }
  }

  ghost predicate OnPlannedDomain(input: Input, ids: seq<string>, name: string) {
    exists n :: n in input.nodes && n.name == name && LabelOf(n.labels, input.level) in ids
  }

  /** The plan taints exactly the nodes labelled into its domains, and there is at least one. */
  lemma {:induction false} PlanNodes(input: Input, ids: seq<string>)
    requires forall id :: id in ids ==> id in BuildSpec(input).domains
    ensures forall name :: name in NodesAt(BuildSpec(input), ids) <==> OnPlannedDomain(input, ids, name)
    ensures ids != [] ==> NodesAt(BuildSpec(input), ids) != []
  {
    var s := BuildSpec(input);
    forall name ensures name in NodesAt(s, ids) <==> OnPlannedDomain(input, ids, name) {
      NodesAtMember(s, ids, name);
      forall id | id in ids ensures name in s.domains[id].nodes <==>
          exists n :: n in input.nodes && n.name == name && LabelOf(n.labels, input.level) == id {
        DomainNodesMember(input.nodes, input.level, id, name);
      }
    }
    if ids != [] {
      assert ids[0] in ids;
      assert ids[0] in DomainIds(input.nodes, input.level);
      var n :| n in input.nodes && LabelOf(n.labels, input.level) == ids[0];
      assert OnPlannedDomain(input, ids, n.name);
    }
  }
}
