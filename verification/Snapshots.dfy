/** pkg/snapshot: cluster objects sliced into topology domains with capacity, victims and hero occupancy. */
module Snapshots {
  import opened Base
  import opened Kube
  import opened Taints

  // ---- node usability ----

  const NOBODY := Name("", "")

  predicate IsHard(t: Taint) {
    t.effect == NoSchedule || t.effect == NoExecute
  }

  /** The last Ready condition decides; without one the node is not ready. */
  predicate IsReady(conditions: seq<NodeCondition>) {
    conditions != [] &&
    var last := conditions[|conditions| - 1];
    if last.kind == READY then last.status == True else IsReady(conditions[..|conditions| - 1])
  }

  /** Ready, schedulable, and every NoSchedule/NoExecute taint is self's own drain taint. */
  predicate NodeUsable(node: Node, key: string, self: Name) {
    && !node.unschedulable
    && (forall i :: 0 <= i < |node.taints| && IsHard(node.taints[i]) ==>
          node.taints[i].key == key && self != NOBODY && Owner(node, key) == Some(self))
    && IsReady(node.conditions)
  }

  // ---- pod classes ----

  datatype PodClass = IsVictim | IsFixed | IsNonBlocking

  function LabelOf(labels: map<string, string>, k: string): string {
    if k in labels then labels[k] else ""
  }

  function Classify(p: Pod, cfg: Config): PodClass {
    if WORKLOAD_ANNOTATION in p.annotations then IsVictim
    else if exists k :: k in cfg.nonBlocking && LabelOf(p.labels, k) == cfg.nonBlocking[k] then IsNonBlocking
    else IsFixed
  }

  /** The pods the capacity math looks at: not terminal, not terminating, requesting GPUs. */
  predicate Counts(p: Pod, cfg: Config) {
    !Terminal(p) && !p.deleting && GpuRequest(p.containers, cfg.gpu) > 0
  }

  // ---- the snapshot ----

  datatype Victim = Victim(pod: Name, node: string, workload: Name, gpu: nat)

  datatype Domain = Domain(
    id: string,
    group: string,
    nodes: seq<string>,
    allocatable: nat,
    nonReclaimable: nat,
    victims: seq<Victim>,
    hasOtherHero: bool)

  datatype Snapshot = Snapshot(level: string, domains: map<string, Domain>)

  datatype Input = Input(
    level: string,
    groupLevel: string,
    nodes: seq<Node>,
    pods: seq<Pod>,
    otherHeroes: seq<Workload>,
    self: Name,
    cfg: Config)

  function DomainIds(nodes: seq<Node>, level: string): set<string> {
    set n | n in nodes && LabelOf(n.labels, level) != "" :: LabelOf(n.labels, level)
  }

  /** Node name -> domain, for the nodes that carry the level's label. */
  function NodeDomain(nodes: seq<Node>, level: string): map<string, string> {
    if nodes == [] then map[]
    else
      var rest, node := NodeDomain(nodes[..|nodes| - 1], level), nodes[|nodes| - 1];
      var id := LabelOf(node.labels, level);
      if id == "" then rest else rest[node.name := id]
  }

  function NodeUsability(input: Input, nodes: seq<Node>): map<string, bool> {
    if nodes == [] then map[]
    else
      var rest, node := NodeUsability(input, nodes[..|nodes| - 1]), nodes[|nodes| - 1];
      if LabelOf(node.labels, input.level) == "" then rest
      else rest[node.name := NodeUsable(node, input.cfg.taintKey, input.self)]
  }

  function DomainNodes(nodes: seq<Node>, level: string, id: string): seq<string> {
    if nodes == [] then []
    else
      var rest, node := DomainNodes(nodes[..|nodes| - 1], level, id), nodes[|nodes| - 1];
      if LabelOf(node.labels, level) == id then rest + [node.name] else rest
  }

  /** The first non-empty group label among the domain's nodes. */
  function DomainGroup(nodes: seq<Node>, level: string, groupLevel: string, id: string): string {
    if nodes == [] || groupLevel == "" then ""
    else
      var rest, node := DomainGroup(nodes[..|nodes| - 1], level, groupLevel, id), nodes[|nodes| - 1];
      if rest == "" && LabelOf(node.labels, level) == id then LabelOf(node.labels, groupLevel) else rest
  }

  function NodeGpu(input: Input, node: Node): nat {
    if NodeUsable(node, input.cfg.taintKey, input.self) && input.cfg.gpu in node.allocatable
    then node.allocatable[input.cfg.gpu] else 0
  }

  function DomainGpu(input: Input, nodes: seq<Node>, id: string): nat {
    if nodes == [] then 0
    else
      var rest, node := DomainGpu(input, nodes[..|nodes| - 1], id), nodes[|nodes| - 1];
      if LabelOf(node.labels, input.level) == id then rest + NodeGpu(input, node) else rest
  }

  predicate PodIn(p: Pod, at: map<string, string>, cfg: Config, id: string) {
    p.node in at && at[p.node] == id && Counts(p, cfg)
  }

  function AsVictim(p: Pod, cfg: Config): Victim
    requires WORKLOAD_ANNOTATION in p.annotations
  {
    Victim(p.key, p.node, Name(p.key.ns, p.annotations[WORKLOAD_ANNOTATION]), GpuRequest(p.containers, cfg.gpu))
  }

  function DomainVictims(pods: seq<Pod>, at: map<string, string>, cfg: Config, id: string): seq<Victim> {
    if pods == [] then []
    else
      var rest, p := DomainVictims(pods[..|pods| - 1], at, cfg, id), pods[|pods| - 1];
      if PodIn(p, at, cfg, id) && Classify(p, cfg).IsVictim? then rest + [AsVictim(p, cfg)] else rest
  }

  predicate IsFixedOn(p: Pod, usable: map<string, bool>, cfg: Config) {
    Classify(p, cfg).IsFixed? && p.node in usable && usable[p.node]
  }

  function DomainFixed(pods: seq<Pod>, at: map<string, string>, usable: map<string, bool>, cfg: Config,
      id: string): nat {
    if pods == [] then 0
    else
      var rest, p := DomainFixed(pods[..|pods| - 1], at, usable, cfg, id), pods[|pods| - 1];
      if PodIn(p, at, cfg, id) && IsFixedOn(p, usable, cfg) then rest + GpuRequest(p.containers, cfg.gpu) else rest
  }

  /** The domain an assigned topology domain lies in, or "" when it cannot be told. */
  function TopologyId(ta: TopologyAssignment, d: TopologyDomain, level: string, at: map<string, string>): string {
    var l := IndexOf(ta.levels, level);
    if l >= 0 then (if l < |d.values| then d.values[l] else "")
    else if ta.levels != [] && ta.levels[|ta.levels| - 1] == HOSTNAME && d.values != [] then
      var host := d.values[|d.values| - 1];
      if host in at then at[host] else ""
    else ""
  }

  function TopologyIds(ta: TopologyAssignment, domains: seq<TopologyDomain>, level: string,
      at: map<string, string>): set<string> {
    set d | d in domains :: TopologyId(ta, d, level, at)
  }

  function AssignmentIds(assignments: seq<PodSetAssignment>, level: string, at: map<string, string>): set<string> {
    if assignments == [] then {}
    else
      var rest, ta := AssignmentIds(assignments[..|assignments| - 1], level, at),
        assignments[|assignments| - 1].topology;
      if ta.None? then rest else rest + TopologyIds(ta.value, ta.value.domains, level, at)
  }

  function HeroIds(heroes: seq<Workload>, level: string, at: map<string, string>): set<string> {
    if heroes == [] then {}
    else
      var rest, adm := HeroIds(heroes[..|heroes| - 1], level, at), heroes[|heroes| - 1].admission;
      if adm.None? then rest else rest + AssignmentIds(adm.value.assignments, level, at)
  }

  /** The assigned topology domain lies in domain id: by its value at the level, else by the host it names. */
  ghost predicate LiesIn(ta: TopologyAssignment, d: TopologyDomain, level: string, at: map<string, string>,
      id: string) {
    if level in ta.levels then
      exists l :: 0 <= l < |ta.levels| && ta.levels[l] == level && level !in ta.levels[..l]
        && l < |d.values| && d.values[l] == id
    else
      && ta.levels != [] && ta.levels[|ta.levels| - 1] == HOSTNAME && d.values != []
      && d.values[|d.values| - 1] in at && at[d.values[|d.values| - 1]] == id
  }

  /** Some podset of the hero is assigned to domain id. */
  ghost predicate AssignedTo(hero: Workload, level: string, at: map<string, string>, id: string) {
    hero.admission.Some? &&
    exists a, d :: a in hero.admission.value.assignments && a.topology.Some? && d in a.topology.value.domains
      && LiesIn(a.topology.value, d, level, at, id)
  }

  lemma {:induction false} TopologyIdMeaning(ta: TopologyAssignment, d: TopologyDomain, level: string,
      at: map<string, string>, id: string)
    requires id != ""
    ensures TopologyId(ta, d, level, at) == id <==> LiesIn(ta, d, level, at, id)
  {
    var i := IndexOf(ta.levels, level);
    if i >= 0 {
      assert forall l :: 0 <= l < i ==> ta.levels[l] == ta.levels[..i][l] && ta.levels[l] in ta.levels[..i];
      forall l | i < l < |ta.levels| ensures level in ta.levels[..l] {
        assert ta.levels[..l][i] == level;
      }
    }
  }

  lemma {:induction false} AssignmentIdsMember(assignments: seq<PodSetAssignment>, level: string,
      at: map<string, string>, id: string)
    requires id != ""
    ensures id in AssignmentIds(assignments, level, at) <==>
      exists a, d :: a in assignments && a.topology.Some? && d in a.topology.value.domains
        && LiesIn(a.topology.value, d, level, at, id)
  {
    if assignments == [] {
    } else {
      var n := |assignments| - 1;
      AssignmentIdsMember(assignments[..n], level, at, id);
      assert assignments == assignments[..n] + [assignments[n]];
      if assignments[n].topology.Some? {
        forall d ensures TopologyId(assignments[n].topology.value, d, level, at) == id
          <==> LiesIn(assignments[n].topology.value, d, level, at, id)
        {
          TopologyIdMeaning(assignments[n].topology.value, d, level, at, id);
        }
      }
    }
  }

  lemma {:induction false} HeroIdsMember(heroes: seq<Workload>, level: string, at: map<string, string>, id: string)
    requires id != ""
    ensures id in HeroIds(heroes, level, at) <==> exists h :: h in heroes && AssignedTo(h, level, at, id)
  {
    if heroes == [] {
    } else {
      var n := |heroes| - 1;
      HeroIdsMember(heroes[..n], level, at, id);
      assert heroes[n] in heroes && forall h :: h in heroes <==> h in heroes[..n] || h == heroes[n];
      if heroes[n].admission.Some? {
        AssignmentIdsMember(heroes[n].admission.value.assignments, level, at, id);
      }
    }
  }

  /** A domain counts as hero-occupied exactly when another hero's assignment lies in it. */
  lemma {:induction false} OccupiedIff(input: Input, id: string)
    requires id in BuildSpec(input).domains
    ensures BuildSpec(input).domains[id].hasOtherHero <==>
      exists h :: h in input.otherHeroes && AssignedTo(h, input.level, NodeDomain(input.nodes, input.level), id)
  {
    HeroIdsMember(input.otherHeroes, input.level, NodeDomain(input.nodes, input.level), id);
  }

  /** What the domain id is after reading the given nodes and pods. */
  function DomainAfter(input: Input, nodes: seq<Node>, pods: seq<Pod>, at: map<string, string>,
      usable: map<string, bool>, id: string): Domain {
    Domain(id, DomainGroup(nodes, input.level, input.groupLevel, id), DomainNodes(nodes, input.level, id),
           DomainGpu(input, nodes, id), DomainFixed(pods, at, usable, input.cfg, id),
           DomainVictims(pods, at, input.cfg, id), false)
  }

  function DomainsAfter(input: Input, nodes: seq<Node>, pods: seq<Pod>, at: map<string, string>,
      usable: map<string, bool>): map<string, Domain> {
    map id | id in DomainIds(nodes, input.level) :: DomainAfter(input, nodes, pods, at, usable, id)
  }

  function Mark(domains: map<string, Domain>, ids: set<string>): map<string, Domain> {
    map id | id in domains :: if id in ids then domains[id].(hasOtherHero := true) else domains[id]
  }

  function BuildSpec(input: Input): Snapshot {
    var at := NodeDomain(input.nodes, input.level);
    var usable := NodeUsability(input, input.nodes);
    Snapshot(input.level,
             Mark(DomainsAfter(input, input.nodes, input.pods, at, usable),
                  HeroIds(input.otherHeroes, input.level, at)))
  }

  // ---- one loop iteration of Build ----

  function AddNode(input: Input, d: Domain, node: Node): Domain {
    d.(nodes := d.nodes + [node.name],
       group := if input.groupLevel != "" && d.group == "" then LabelOf(node.labels, input.groupLevel) else d.group,
       allocatable := d.allocatable + NodeGpu(input, node))
  }

  lemma {:induction false} UnseenDomain(input: Input, nodes: seq<Node>, id: string)
    requires id !in DomainIds(nodes, input.level) && id != ""
    ensures DomainNodes(nodes, input.level, id) == []
    ensures DomainGroup(nodes, input.level, input.groupLevel, id) == ""
    ensures DomainGpu(input, nodes, id) == 0
  {
    if nodes == [] {
    } else {
      var init := nodes[..|nodes| - 1];
      assert nodes[|nodes| - 1] in nodes && forall n :: n in init ==> n in nodes;
      UnseenDomain(input, init, id);
    }
  }

  lemma {:induction false} NodeSnoc(input: Input, nodes: seq<Node>, node: Node, id: string)
    ensures DomainAfter(input, nodes + [node], [], map[], map[], id) ==
      var before := DomainAfter(input, nodes, [], map[], map[], id);
      if LabelOf(node.labels, input.level) == id then AddNode(input, before, node) else before
  {
    var all := nodes + [node];
    assert all[..|all| - 1] == nodes;
  }

  lemma {:induction false} DomainIdsSnoc(nodes: seq<Node>, node: Node, level: string)
    ensures DomainIds(nodes + [node], level)
      == DomainIds(nodes, level) + (if LabelOf(node.labels, level) == "" then {} else {LabelOf(node.labels, level)})
  {
    assert forall n :: n in nodes + [node] <==> n in nodes || n == node;
  }

  function Blank(id: string): Domain {
    Domain(id, "", [], 0, 0, [], false)
  }

  function PutNodeIn(input: Input, domains: map<string, Domain>, node: Node): map<string, Domain> {
    var id := LabelOf(node.labels, input.level);
    if id == "" then domains
    else domains[id := AddNode(input, if id in domains then domains[id] else Blank(id), node)]
  }

  lemma {:induction false} NodeStepAt(input: Input, nodes: seq<Node>, node: Node, id: string)
    requires id in DomainIds(nodes + [node], input.level)
    ensures var before := DomainsAfter(input, nodes, [], map[], map[]);
      id in PutNodeIn(input, before, node)
      && DomainAfter(input, nodes + [node], [], map[], map[], id) == PutNodeIn(input, before, node)[id]
  {
    NodeSnoc(input, nodes, node, id);
    DomainIdsSnoc(nodes, node, input.level);
    if id !in DomainIds(nodes, input.level) {
      UnseenDomain(input, nodes, id);
    }
  }

  lemma {:induction false} NodeStep(input: Input, nodes: seq<Node>, node: Node)
    ensures DomainsAfter(input, nodes + [node], [], map[], map[])
      == PutNodeIn(input, DomainsAfter(input, nodes, [], map[], map[]), node)
  {
    var before := DomainsAfter(input, nodes, [], map[], map[]);
    var after := DomainsAfter(input, nodes + [node], [], map[], map[]);
    DomainIdsSnoc(nodes, node, input.level);
    assert after.Keys == PutNodeIn(input, before, node).Keys;
    forall id | id in after ensures after[id] == PutNodeIn(input, before, node)[id] {
      NodeStepAt(input, nodes, node, id);
    }
    assert after == PutNodeIn(input, before, node);
  }

  lemma {:induction false} NodeMapsSnoc(input: Input, nodes: seq<Node>, node: Node)
    ensures var id := LabelOf(node.labels, input.level);
      && NodeDomain(nodes + [node], input.level)
        == (if id == "" then NodeDomain(nodes, input.level) else NodeDomain(nodes, input.level)[node.name := id])
      && NodeUsability(input, nodes + [node])
        == (if id == "" then NodeUsability(input, nodes)
            else NodeUsability(input, nodes)[node.name := NodeUsable(node, input.cfg.taintKey, input.self)])
  {
    var all := nodes + [node];
    assert all[..|all| - 1] == nodes;
  }

  function AddPod(d: Domain, p: Pod, usable: map<string, bool>, cfg: Config): Domain {
    match Classify(p, cfg)
    case IsVictim => d.(victims := d.victims + [AsVictim(p, cfg)])
    case IsFixed =>
      if p.node in usable && usable[p.node]
      then d.(nonReclaimable := d.nonReclaimable + GpuRequest(p.containers, cfg.gpu)) else d
    case IsNonBlocking => d
  }

  lemma {:induction false} PodSnoc(input: Input, nodes: seq<Node>, pods: seq<Pod>, p: Pod, at: map<string, string>,
      usable: map<string, bool>, id: string)
    ensures DomainAfter(input, nodes, pods + [p], at, usable, id) ==
      var before := DomainAfter(input, nodes, pods, at, usable, id);
      if PodIn(p, at, input.cfg, id) then AddPod(before, p, usable, input.cfg) else before
  {
    var all := pods + [p];
    assert all[..|all| - 1] == pods;
  }

  function PutPodIn(domains: map<string, Domain>, p: Pod, at: map<string, string>, usable: map<string, bool>,
      cfg: Config): map<string, Domain>
    requires p.node in at ==> at[p.node] in domains
  {
    if p.node !in at || !Counts(p, cfg) then domains
    else domains[at[p.node] := AddPod(domains[at[p.node]], p, usable, cfg)]
  }

  lemma {:induction false} PodStep(input: Input, nodes: seq<Node>, pods: seq<Pod>, p: Pod, at: map<string, string>,
      usable: map<string, bool>)
    requires p.node in at ==> at[p.node] in DomainIds(nodes, input.level)
    ensures DomainsAfter(input, nodes, pods + [p], at, usable)
      == PutPodIn(DomainsAfter(input, nodes, pods, at, usable), p, at, usable, input.cfg)
  {
    var before := DomainsAfter(input, nodes, pods, at, usable);
    var after := DomainsAfter(input, nodes, pods + [p], at, usable);
    var expected := PutPodIn(before, p, at, usable, input.cfg);
    assert after.Keys == expected.Keys;
    forall x | x in after ensures after[x] == expected[x] {
      PodSnoc(input, nodes, pods, p, at, usable, x);
      assert before[x] == DomainAfter(input, nodes, pods, at, usable, x);
    }
    assert after == expected;
  }

  lemma {:induction false} NodeDomainRange(nodes: seq<Node>, level: string)
    ensures forall name :: name in NodeDomain(nodes, level) ==>
      NodeDomain(nodes, level)[name] in DomainIds(nodes, level)
  {
    if nodes == [] {
    } else {
      var init := nodes[..|nodes| - 1];
      NodeDomainRange(init, level);
      assert nodes[|nodes| - 1] in nodes && forall n :: n in init ==> n in nodes;
      assert DomainIds(init, level) <= DomainIds(nodes, level);
    }
  }

  lemma {:induction false} MarkMark(domains: map<string, Domain>, a: set<string>, b: set<string>)
    ensures Mark(Mark(domains, a), b) == Mark(domains, a + b)
  {
    var l, r := Mark(Mark(domains, a), b), Mark(domains, a + b);
    assert l.Keys == r.Keys;
    forall id | id in l ensures l[id] == r[id] {}
    assert l == r;
  }

  /** Build: one pass over the nodes, one over the pods, then the hero marks. */
  method Build(input: Input) returns (s: Snapshot)
    ensures s == BuildSpec(input)
  {
    var domains, nodeDomain, nodeUsable := ReadNodes(input);
    domains := ReadPods(input, domains, nodeDomain, nodeUsable);
    domains := MarkHeroDomains(domains, input.level, input.otherHeroes, nodeDomain);
    s := Snapshot(input.level, domains);
  }

  method PutNode(input: Input, before: Domain, node: Node, usable: bool) returns (d: Domain)
    requires usable == NodeUsable(node, input.cfg.taintKey, input.self)
    ensures d == AddNode(input, before, node)
  {
    d := before.(nodes := before.nodes + [node.name]);
    if input.groupLevel != "" && d.group == "" {
      d := d.(group := LabelOf(node.labels, input.groupLevel));
    }
    if usable && input.cfg.gpu in node.allocatable {
      d := d.(allocatable := d.allocatable + node.allocatable[input.cfg.gpu]);
    }
  }

  method ReadNodes(input: Input)
    returns (domains: map<string, Domain>, nodeDomain: map<string, string>, nodeUsable: map<string, bool>)
    ensures nodeDomain == NodeDomain(input.nodes, input.level)
    ensures nodeUsable == NodeUsability(input, input.nodes)
    ensures domains == DomainsAfter(input, input.nodes, [], nodeDomain, nodeUsable)
  {
    domains, nodeDomain, nodeUsable := map[], map[], map[];
    for i := 0 to |input.nodes|
      invariant nodeDomain == NodeDomain(input.nodes[..i], input.level)
      invariant nodeUsable == NodeUsability(input, input.nodes[..i])
      invariant domains == DomainsAfter(input, input.nodes[..i], [], map[], map[])
    {
      var node := input.nodes[i];
      assert input.nodes[..i + 1] == input.nodes[..i] + [node];
      NodeStep(input, input.nodes[..i], node);
      NodeMapsSnoc(input, input.nodes[..i], node);
      var id := LabelOf(node.labels, input.level);
      if id == "" {
        continue;
      }
      nodeDomain := nodeDomain[node.name := id];
      var usable := NodeUsable(node, input.cfg.taintKey, input.self);
      nodeUsable := nodeUsable[node.name := usable];
      var d := PutNode(input, if id in domains then domains[id] else Blank(id), node, usable);
      domains := domains[id := d];
    }
    assert input.nodes[..|input.nodes|] == input.nodes;
    NoPods(input, nodeDomain, nodeUsable);
  }

  method PutPod(before: Domain, p: Pod, usable: map<string, bool>, cfg: Config) returns (d: Domain)
    ensures d == AddPod(before, p, usable, cfg)
  {
    d := before;
    var gpu := GpuRequest(p.containers, cfg.gpu);
    match Classify(p, cfg) {
      case IsVictim =>
        var wl := Name(p.key.ns, p.annotations[WORKLOAD_ANNOTATION]);
        d := d.(victims := d.victims + [Victim(p.key, p.node, wl, gpu)]);
      case IsFixed =>
        if p.node in usable && usable[p.node] {
          d := d.(nonReclaimable := d.nonReclaimable + gpu);
        }
      case IsNonBlocking =>
    }
  }

  method ReadPods(input: Input, before: map<string, Domain>, nodeDomain: map<string, string>,
      nodeUsable: map<string, bool>)
    returns (domains: map<string, Domain>)
    requires nodeDomain == NodeDomain(input.nodes, input.level)
    requires before == DomainsAfter(input, input.nodes, [], nodeDomain, nodeUsable)
    ensures domains == DomainsAfter(input, input.nodes, input.pods, nodeDomain, nodeUsable)
  {
    domains := before;
    NodeDomainRange(input.nodes, input.level);
    for i := 0 to |input.pods|
      invariant domains == DomainsAfter(input, input.nodes, input.pods[..i], nodeDomain, nodeUsable)
    {
      var p := input.pods[i];
      assert input.pods[..i + 1] == input.pods[..i] + [p];
      PodStep(input, input.nodes, input.pods[..i], p, nodeDomain, nodeUsable);
      if p.node !in nodeDomain || Terminal(p) || p.deleting || GpuRequest(p.containers, input.cfg.gpu) == 0 {
        continue;
      }
      var d := PutPod(domains[nodeDomain[p.node]], p, nodeUsable, input.cfg);
      domains := domains[nodeDomain[p.node] := d];
    }
    assert input.pods[..|input.pods|] == input.pods;
  }

  lemma {:induction false} NoPods(input: Input, at: map<string, string>, usable: map<string, bool>)
    ensures DomainsAfter(input, input.nodes, [], map[], map[]) == DomainsAfter(input, input.nodes, [], at, usable)
  {
    var a, b := DomainsAfter(input, input.nodes, [], map[], map[]), DomainsAfter(input, input.nodes, [], at, usable);
    assert a.Keys == b.Keys;
    assert forall id :: id in a ==> a[id] == b[id];
    assert a == b;
  }

  lemma {:induction false} MarkNone(domains: map<string, Domain>)
    ensures Mark(domains, {}) == domains
  {
    assert Mark(domains, {}).Keys == domains.Keys;
    assert forall x :: x in domains ==> Mark(domains, {})[x] == domains[x];
  }

  /** Decodes every podset assignment of every other hero. */
  method MarkHeroDomains(before: map<string, Domain>, level: string, heroes: seq<Workload>, at: map<string, string>)
    returns (domains: map<string, Domain>)
    ensures domains == Mark(before, HeroIds(heroes, level, at))
  {
    domains := before;
    MarkNone(before);
    for h := 0 to |heroes|
      invariant domains == Mark(before, HeroIds(heroes[..h], level, at))
    {
      assert heroes[..h + 1][..h] == heroes[..h];
      if heroes[h].admission.Some? {
        var assignments := heroes[h].admission.value.assignments;
        domains := MarkAssignments(domains, level, assignments, at);
        MarkMark(before, HeroIds(heroes[..h], level, at), AssignmentIds(assignments, level, at));
      }
    }
    assert heroes[..|heroes|] == heroes;
  }

  method MarkAssignments(before: map<string, Domain>, level: string, assignments: seq<PodSetAssignment>,
      at: map<string, string>)
    returns (domains: map<string, Domain>)
    ensures domains == Mark(before, AssignmentIds(assignments, level, at))
  {
    domains := before;
    MarkNone(before);
    for a := 0 to |assignments|
      invariant domains == Mark(before, AssignmentIds(assignments[..a], level, at))
    {
      assert assignments[..a + 1][..a] == assignments[..a];
      if assignments[a].topology.Some? {
        var ta := assignments[a].topology.value;
        domains := MarkTopology(domains, level, ta, at);
        MarkMark(before, AssignmentIds(assignments[..a], level, at), TopologyIds(ta, ta.domains, level, at));
      }
    }
    assert assignments[..|assignments|] == assignments;
  }

  method MarkTopology(before: map<string, Domain>, level: string, ta: TopologyAssignment, at: map<string, string>)
    returns (domains: map<string, Domain>)
    ensures domains == Mark(before, TopologyIds(ta, ta.domains, level, at))
  {
    domains := before;
    MarkNone(before);
    assert TopologyIds(ta, [], level, at) == {};
    for k := 0 to |ta.domains|
      invariant domains == Mark(before, TopologyIds(ta, ta.domains[..k], level, at))
    {
      var id := TopologyId(ta, ta.domains[k], level, at);
      assert ta.domains[..k + 1] == ta.domains[..k] + [ta.domains[k]];
      assert TopologyIds(ta, ta.domains[..k + 1], level, at) == TopologyIds(ta, ta.domains[..k], level, at) + {id};
      MarkMark(before, TopologyIds(ta, ta.domains[..k], level, at), {id});
      MarkOne(domains, id);
      if id in domains {
        domains := domains[id := domains[id].(hasOtherHero := true)];
      }
    }
    assert ta.domains[..|ta.domains|] == ta.domains;
  }

  lemma {:induction false} MarkOne(domains: map<string, Domain>, id: string)
    ensures Mark(domains, {id}) ==
      if id in domains then domains[id := domains[id].(hasOtherHero := true)] else domains
  {
    var l := Mark(domains, {id});
    var r := if id in domains then domains[id := domains[id].(hasOtherHero := true)] else domains;
    assert l.Keys == r.Keys;
    assert forall x :: x in l ==> l[x] == r[x];
    assert l == r;
  }
}
