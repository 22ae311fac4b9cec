/**
 Build and SelectDomains together, on cluster objects: what the controller sees on the reconciles of a
 drain in flight.
 */
module Replanning {
  import opened Base
  import opened Kube
  import opened Taints
  import opened Snapshots
  import opened Heroes
  import opened Selection
  import opened Plans
  import opened Progress
  import opened SnapshotFacts

  /** The query a reconcile puts to the selector. */
  ghost function Plan(input: Input, hero: HeroSpec, workloads: map<Name, Workload>, now: int): Query {
    Query(BuildSpec(input), hero, workloads, input.cfg, now)
  }

  /** The cluster as the drain left it: self's taints on some nodes, and some pods gone. */
  ghost function Later(input: Input, ms: seq<Node>, keep: Pod -> bool): Input {
    input.(nodes := ms, pods := Filter(input.pods, keep))
  }

  // ---- the drain never grows ----

  /** Every pod that left belongs to a workload the plan evicts. */
  ghost predicate OnlyPlannedLeave(pods: seq<Pod>, keep: Pod -> bool, victims: set<Name>) {
    forall p :: p in pods && !keep(p) ==>
      WORKLOAD_ANNOTATION in p.annotations && Name(p.key.ns, p.annotations[WORKLOAD_ANNOTATION]) in victims
  }

  /** No planned victim also runs in a domain outside the plan. */
  ghost predicate VictimsInside(s: Snapshot, p: DrainPlan) {
    forall id :: id in s.domains && id !in p.domainIds ==> PodOwners(s.domains[id].victims) !! Keys(p.victims)
  }

  lemma {:induction false} UnplannedUntouched(input: Input, keep: Pod -> bool, p: DrainPlan, id: string)
    requires OnlyPlannedLeave(input.pods, keep, Keys(p.victims)) && VictimsInside(BuildSpec(input), p)
    requires id in BuildSpec(input).domains && id !in p.domainIds
    ensures var at := NodeDomain(input.nodes, input.level);
      DomainVictims(Filter(input.pods, keep), at, input.cfg, id) == DomainVictims(input.pods, at, input.cfg, id)
  {
    var at := NodeDomain(input.nodes, input.level);
    forall x | x in input.pods && PodIn(x, at, input.cfg, id) && Classify(x, input.cfg).IsVictim? ensures keep(x) {
      VictimFromPod(input.pods, at, input.cfg, id, x);
      assert AsVictim(x, input.cfg).workload in PodOwners(BuildSpec(input).domains[id].victims);
    }
    VictimsUnaffected(input.pods, keep, at, input.cfg, id);
  }

  lemma {:induction false} PlanProgressed(input: Input, ms: seq<Node>, keep: Pod -> bool, p: DrainPlan,
      hero: HeroSpec, workloads: map<Name, Workload>, now: int)
    requires ValidName(input.self) && MaybeTaintedAll(input.nodes, ms, input.cfg.taintKey, input.self)
    requires OnlyPlannedLeave(input.pods, keep, Keys(p.victims)) && VictimsInside(BuildSpec(input), p)
    ensures OnlyPlanProgressed(Plan(input, hero, workloads, now), Plan(Later(input, ms, keep), hero, workloads, now),
      p.domainIds)
  {
    var s, t := BuildSpec(input), BuildSpec(Later(input, ms, keep));
    ProgressKeepsShape(input, ms, keep, "");
    forall id | id in s.domains
      ensures SameButVictims(s.domains[id], t.domains[id])
      ensures if id in p.domainIds then PodOwners(t.domains[id].victims) <= PodOwners(s.domains[id].victims)
        else t.domains[id].victims == s.domains[id].victims
    {
      ProgressKeepsShape(input, ms, keep, id);
      VictimsUnaffected(input.pods, keep, NodeDomain(input.nodes, input.level), input.cfg, id);
      if id !in p.domainIds {
        UnplannedUntouched(input, keep, p, id);
      }
    }
  }

  /**
   Re-running the planner after tainting any of the nodes for the hero and after any of the planned
   victims' pods left drains a subset of the same group's domains.
   */
  lemma {:induction false} ReplanNeverGrows(
    input: Input, hero: HeroSpec, workloads: map<Name, Workload>, now: int, ms: seq<Node>, keep: Pod -> bool,
      size: nat, n: nat)
    returns (group: string)
    requires ValidConfig(input.cfg) && ValidName(input.self)
    requires size > 0 && Units(hero) == Repeat(size, n)
    requires SelectSpec(Plan(input, hero, workloads, now)).Planned?
    requires MaybeTaintedAll(input.nodes, ms, input.cfg.taintKey, input.self)
    requires var p := SelectSpec(Plan(input, hero, workloads, now)).plan;
      OnlyPlannedLeave(input.pods, keep, Keys(p.victims)) && VictimsInside(BuildSpec(input), p)
    ensures var before := SelectSpec(Plan(input, hero, workloads, now)).plan;
      var after := SelectSpec(Plan(Later(input, ms, keep), hero, workloads, now));
      && after.Planned?
      && Elements(after.plan.domainIds) <= Elements(before.domainIds)
      && after.plan.totalCost <= before.totalCost
      && (forall id :: id in after.plan.domainIds || id in before.domainIds ==>
            id in BuildSpec(input).domains && BuildSpec(input).domains[id].group == group)
  {
    var q, q2 := Plan(input, hero, workloads, now), Plan(Later(input, ms, keep), hero, workloads, now);
    var p := SelectSpec(q).plan;
    BuildKeyed(input);
    PlanProgressed(input, ms, keep, p, hero, workloads, now);
    group := DrainNeverGrows(q, q2, size, n);
    PlannedDrainable(q, p, group);
    assert forall id :: id in SelectSpec(q2).plan.domainIds ==> id in Elements(SelectSpec(q2).plan.domainIds);
  }

  // ---- its own progress never aborts it ----

  /** The workloads whose pods are victims anywhere. */
  ghost function VictimOwners(s: Snapshot): set<Name> {
    set id, v | id in s.domains && v in s.domains[id].victims :: v.workload
  }

  /** Records may come, change or go, but no victim rises from below the hero to its priority or above. */
  ghost predicate NoPriorityGain(before: map<Name, Workload>, after: map<Name, Workload>, owners: set<Name>,
      priority: int) {
    forall key :: key in owners && key in after ==>
      Priority(after[key]) < priority || (key in before && Priority(after[key]) <= Priority(before[key]))
  }

  lemma {:induction false} StillBelowHero(vs: seq<Victim>, vs2: seq<Victim>, before: map<Name, Workload>,
      after: map<Name, Workload>, now: int, now2: int, priority: int)
    requires PodOwners(vs2) <= PodOwners(vs) && NoPriorityGain(before, after, PodOwners(vs), priority)
    requires BelowHero(GroupVictimsSpec(vs, before, now), priority)
    ensures BelowHero(GroupVictimsSpec(vs2, after, now2), priority)
  {
    GroupVictimsMeaning(vs, before, now);
    GroupVictimsMeaning(vs2, after, now2);
    var a, b := GroupVictimsSpec(vs, before, now), GroupVictimsSpec(vs2, after, now2);
    forall i | 0 <= i < |b| ensures b[i].priority < priority {
      assert b[i] in b && b[i].key in Keys(b);
      if b[i].key in before {
        assert b[i].key in Keys(a);
        var k :| 0 <= k < |a| && a[k].key == b[i].key;
        assert a[k] in a;
      }
    }
  }

  lemma {:induction false} EligibleAgain(q: Query, q2: Query, d: Domain, d2: Domain)
    requires SameButVictims(d, d2) && PodOwners(d2.victims) <= PodOwners(d.victims)
    requires q2.hero == q.hero && NoPriorityGain(q.workloads, q2.workloads, PodOwners(d.victims), q.hero.priority)
    requires Eligible(q, d)
    ensures Eligible(q2, d2)
  {
    StillBelowHero(d.victims, d2.victims, q.workloads, q2.workloads, q.now, q2.now, q.hero.priority);
  }

  lemma {:induction false} LaterDomain(input: Input, ms: seq<Node>, keep: Pod -> bool, id: string)
    requires ValidName(input.self) && MaybeTaintedAll(input.nodes, ms, input.cfg.taintKey, input.self)
    requires OnlyManagedLeave(input.pods, keep) && id in BuildSpec(input).domains
    ensures id in BuildSpec(Later(input, ms, keep)).domains
    ensures SameButVictims(BuildSpec(input).domains[id], BuildSpec(Later(input, ms, keep)).domains[id])
    ensures PodOwners(BuildSpec(Later(input, ms, keep)).domains[id].victims)
      <= PodOwners(BuildSpec(input).domains[id].victims)
  {
    ProgressKeepsShape(input, ms, keep, id);
    VictimsUnaffected(input.pods, keep, NodeDomain(input.nodes, input.level), input.cfg, id);
  }

  /**
   For divisor-chain demand a plan survives the drain's own work: any kueue-managed pods gone, any nodes
   carrying the hero's own taint, and time, costs and workload records moved on.
   */
  lemma {:induction false} OwnProgressNeverAborts(
    input: Input, hero: HeroSpec, workloads: map<Name, Workload>, now: int,
    ms: seq<Node>, keep: Pod -> bool, workloads2: map<Name, Workload>, now2: int)
    requires ValidConfig(input.cfg) && ValidName(input.self) && DivisorChain(Expand(hero.demand))
    requires SelectSpec(Plan(input, hero, workloads, now)).Planned?
    requires MaybeTaintedAll(input.nodes, ms, input.cfg.taintKey, input.self)
    requires OnlyManagedLeave(input.pods, keep)
    requires NoPriorityGain(workloads, workloads2, VictimOwners(BuildSpec(input)), hero.priority)
    ensures SelectSpec(Plan(Later(input, ms, keep), hero, workloads2, now2)).Planned?
  {
    var q, q2 := Plan(input, hero, workloads, now), Plan(Later(input, ms, keep), hero, workloads2, now2);
    ProgressKeepsShape(input, ms, keep, "");
    forall id | id in q.snap.domains
      ensures SameButVictims(q.snap.domains[id], q2.snap.domains[id])
      ensures Eligible(q, q.snap.domains[id]) ==> Eligible(q2, q2.snap.domains[id])
    {
      LaterDomain(input, ms, keep, id);
      if Eligible(q, q.snap.domains[id]) {
        assert PodOwners(q.snap.domains[id].victims) <= VictimOwners(q.snap);
        EligibleAgain(q, q2, q.snap.domains[id], q2.snap.domains[id]);
      }
    }
    PlanSurvives(q, q2);
  }

  // ---- crash resume ----

  /** A run of the taint loop: EnsureTaint on each named node in turn, stopping at the first refusal. */
  ghost function TaintAll(nodes: map<string, Node>, names: seq<string>, key: string, self: Name, queue: string,
      now: int): (map<string, Node>, bool) {
    if names == [] then (nodes, true)
    else if names[0] !in nodes then (nodes, false)
    else
      var w := EnsureTaint(nodes[names[0]], key, self, queue, now);
      if w.Refused? then (nodes, false)
      else TaintAll(nodes[names[0] := After(nodes[names[0]], w)], names[1..], key, self, queue, now)
  }

  lemma {:induction false} TaintAllEffect(nodes: map<string, Node>, names: seq<string>, key: string, self: Name,
      queue: string, now: int)
    requires ValidName(self) && forall n :: n in names ==> n in nodes
    requires forall n :: n in names ==> !EnsureTaint(nodes[n], key, self, queue, now).Refused?
    ensures var r := TaintAll(nodes, names, key, self, queue, now);
      && r.1 && r.0.Keys == nodes.Keys
      && forall n :: n in nodes ==>
          r.0[n] == if n in names then After(nodes[n], EnsureTaint(nodes[n], key, self, queue, now)) else nodes[n]
    decreases |names|
  {
    if names == [] {
    } else {
      var n0 := names[0];
      assert n0 in names && forall n :: n in names[1..] ==> n in names;
      var w := EnsureTaint(nodes[n0], key, self, queue, now);
      var next := nodes[n0 := After(nodes[n0], w)];
      AgainUnchanged(nodes[n0], key, self, queue, now, now);
      TaintAllEffect(next, names[1..], key, self, queue, now);
      assert forall n :: n in names <==> n == n0 || n in names[1..];
    }
  }

  /** Ensuring a taint twice is ensuring it once: the clock keeps its first value. */
  lemma {:induction false} AgainUnchanged(node: Node, key: string, self: Name, queue: string, now: int, later: int)
    requires ValidName(self) && !EnsureTaint(node, key, self, queue, now).Refused?
    ensures EnsureTaint(After(node, EnsureTaint(node, key, self, queue, now)), key, self, queue, later).Unchanged?
  {
    var b := After(node, EnsureTaint(node, key, self, queue, now));
    if EnsureTaint(node, key, self, queue, now).Write? {
      assert b.taints[|b.taints| - 1].key == key;
    }
  }

  /** The named nodes exist and carry no taint of the key but self's own. */
  ghost predicate Available(nodes: map<string, Node>, names: seq<string>, key: string, self: Name) {
    forall n :: n in names ==> n in nodes && (HasKey(nodes[n].taints, key) ==> Owner(nodes[n], key) == Some(self))
  }

  /** One try at the taint loop: it got through the first reach nodes at the given time. */
  datatype Try = Try(reach: nat, time: int)

  ghost predicate Tries(tries: seq<Try>, names: seq<string>) {
    forall i :: 0 <= i < |tries| ==> tries[i].reach <= |names|
  }

  ghost function AfterTries(nodes: map<string, Node>, names: seq<string>, tries: seq<Try>, key: string, self: Name,
      queue: string): map<string, Node>
    requires Tries(tries, names)
    decreases |tries|
  {
    if tries == [] then nodes
    else
      var first := TaintAll(nodes, names[..tries[0].reach], key, self, queue, tries[0].time).0;
      AfterTries(first, names, tries[1..], key, self, queue)
  }

  /** When a try first reached the node. */
  ghost function FirstReached(names: seq<string>, tries: seq<Try>, n: string): Option<int>
    requires Tries(tries, names)
    decreases |tries|
  {
    if tries == [] then None
    else if n in names[..tries[0].reach] then Some(tries[0].time)
    else FirstReached(names, tries[1..], n)
  }

  lemma {:induction false} AvailableNotRefused(node: Node, key: string, self: Name, queue: string, now: int)
    requires ValidName(self) && (HasKey(node.taints, key) ==> Owner(node, key) == Some(self))
    ensures var b := After(node, EnsureTaint(node, key, self, queue, now));
      && !EnsureTaint(node, key, self, queue, now).Refused?
      && Owner(b, key) == Some(self)
      && (HasKey(node.taints, key) ==> b == node)
      && (!HasKey(node.taints, key) ==> b.startedAt == (if node.startedAt.None? then Some(At(now)) else node.startedAt))
  {
    EnsureTaintOwns(node, key, self, queue, now);
    EnsureTaintOwnsExactly(node, key, self, queue, now);
    if Owner(node, key) == Some(self) {
      ParsedOwnerIsText(node.owner.value, self);
      var i :| 0 <= i < |node.taints| && IsDrainTaint(node.taints[i], key);
      assert HasKey(node.taints, key);
    }
  }

  /** What one try does: the nodes it reached are self's, the clock set on those that were free. */
  lemma {:induction false} OneTry(nodes: map<string, Node>, names: seq<string>, t: Try, key: string, self: Name,
      queue: string)
    requires ValidName(self) && Available(nodes, names, key, self) && t.reach <= |names|
    ensures var r := TaintAll(nodes, names[..t.reach], key, self, queue, t.time);
      && r.1 && r.0.Keys == nodes.Keys && Available(r.0, names, key, self)
      && forall n :: n in nodes ==>
          r.0[n] == if n in names[..t.reach]
            then After(nodes[n], EnsureTaint(nodes[n], key, self, queue, t.time)) else nodes[n]
  {
    var reached := names[..t.reach];
    forall n | n in reached ensures n in nodes && !EnsureTaint(nodes[n], key, self, queue, t.time).Refused? {
      assert n in names;
      AvailableNotRefused(nodes[n], key, self, queue, t.time);
    }
    TaintAllEffect(nodes, reached, key, self, queue, t.time);
    var r := TaintAll(nodes, reached, key, self, queue, t.time).0;
    forall n | n in names ensures n in r && (HasKey(r[n].taints, key) ==> Owner(r[n], key) == Some(self)) {
      AvailableNotRefused(nodes[n], key, self, queue, t.time);
    }
  }

  lemma {:induction false} OwnedHasKey(node: Node, key: string)
    requires Owner(node, key).Some?
    ensures HasKey(node.taints, key)
  {
    var i :| 0 <= i < |node.taints| && IsDrainTaint(node.taints[i], key);
  }

  /**
   Crash resume: however often the taint loop was cut short, and wherever, the hero owns exactly the nodes some
   try reached and those it owned before; every other node is untouched; and every clock is as first written.
   */
  lemma {:induction false} TriesTaintExactly(nodes: map<string, Node>, names: seq<string>, tries: seq<Try>, key: string,
      self: Name, queue: string, n: string)
    requires ValidName(self) && Available(nodes, names, key, self) && Tries(tries, names) && n in nodes
    ensures var end := AfterTries(nodes, names, tries, key, self, queue);
      var first := FirstReached(names, tries, n);
      && n in end
      && (Owner(end[n], key) == Some(self) <==> first.Some? || Owner(nodes[n], key) == Some(self))
      && (first.None? ==> end[n] == nodes[n])
      && end[n].startedAt ==
          if first.Some? && !HasKey(nodes[n].taints, key) && nodes[n].startedAt.None? then Some(At(first.value))
          else nodes[n].startedAt
    decreases |tries|
  {
    if tries == [] {
    } else {
      var next := TaintAll(nodes, names[..tries[0].reach], key, self, queue, tries[0].time).0;
      OneTry(nodes, names, tries[0], key, self, queue);
      TriesTaintExactly(next, names, tries[1..], key, self, queue, n);
      if n in names[..tries[0].reach] {
        assert n in names;
        AvailableNotRefused(nodes[n], key, self, queue, tries[0].time);
        OwnedHasKey(next[n], key);
      }
    }
  }

  /** A last try that gets through leaves exactly the plan's nodes, and those owned before, tainted for self. */
  lemma {:induction false} ResumeTaintsExactlyThePlan(nodes: map<string, Node>, names: seq<string>, crashed: seq<Try>,
      resumed: int, key: string, self: Name, queue: string, n: string)
    requires ValidName(self) && Available(nodes, names, key, self) && Tries(crashed, names) && n in nodes
    ensures var tries := crashed + [Try(|names|, resumed)];
      var end := AfterTries(nodes, names, tries, key, self, queue);
      && n in end
      && (Owner(end[n], key) == Some(self) <==> n in names || Owner(nodes[n], key) == Some(self))
      && (n !in names ==> end[n] == nodes[n])
      && (nodes[n].startedAt.Some? ==> end[n].startedAt == nodes[n].startedAt)
      && (n in names && !HasKey(nodes[n].taints, key) && nodes[n].startedAt.None? ==>
            var first := FirstReached(names, crashed, n);
            end[n].startedAt == Some(At(if first.Some? then first.value else resumed)))
  {
    TriesTaintExactly(nodes, names, crashed + [Try(|names|, resumed)], key, self, queue, n);
    LastTryReachesAll(names, crashed, resumed, n);
    if n !in names {
      NeverReached(names, crashed, n);
    }
  }

  lemma {:induction false} LastTryReachesAll(names: seq<string>, crashed: seq<Try>, resumed: int, n: string)
    requires Tries(crashed, names)
    ensures FirstReached(names, crashed + [Try(|names|, resumed)], n)
      == if FirstReached(names, crashed, n).Some? then FirstReached(names, crashed, n)
         else if n in names then Some(resumed) else None
  {
    var tries := crashed + [Try(|names|, resumed)];
    if crashed == [] {
      assert names[..|names|] == names && tries[1..] == [];
    } else {
      assert tries[1..] == crashed[1..] + [Try(|names|, resumed)];
      assert n in names[..crashed[0].reach] ==> n in names;
      LastTryReachesAll(names, crashed[1..], resumed, n);
    }
    if FirstReached(names, crashed, n).None? && n !in names {
      NeverReached(names, tries, n);
    }
  }

  lemma {:induction false} NeverReached(names: seq<string>, tries: seq<Try>, n: string)
    requires Tries(tries, names) && n !in names
    ensures FirstReached(names, tries, n).None?
  {
    if tries == [] {
    } else {
      NeverReached(names, tries[1..], n);
    }
  }

  /** The plan a resumed reconcile computes is the one it crashed on. */
  lemma {:induction false} ResumePlansTheSame(input: Input, hero: HeroSpec, workloads: map<Name, Workload>, now: int,
      ms: seq<Node>)
    requires ValidConfig(input.cfg) && ValidName(input.self)
    requires MaybeTaintedAll(input.nodes, ms, input.cfg.taintKey, input.self)
    ensures SelectSpec(Plan(input.(nodes := ms), hero, workloads, now)) == SelectSpec(Plan(input, hero, workloads, now))
  {
    OwnTaintsInvisible(input, ms);
  }

  // ---- other heroes ----

  /** No planned domain holds any part of another admitted hero's assignment. */
  lemma {:induction false} PlanAvoidsOtherHeroes(input: Input, q: Query, id: string, h: Workload)
    requires ValidConfig(q.cfg) && q.snap == BuildSpec(input) && SelectSpec(q).Planned?
    requires id in SelectSpec(q).plan.domainIds && h in input.otherHeroes
    ensures !AssignedTo(h, input.level, NodeDomain(input.nodes, input.level), id)
  {
    var group := GroupOfPlan(input, q);
    PlannedDrainable(q, SelectSpec(q).plan, group);
    OccupiedIff(input, id);
  }

  // ---- grouping ----

  /** Finer labels determine coarser ones, and a node labelled at a level is labelled at all coarser ones. */
  ghost predicate Hierarchical(nodes: seq<Node>, levels: seq<string>) {
    forall a, b, i, j :: a in nodes && b in nodes && 0 <= i <= j < |levels| && LabelOf(a.labels, levels[j]) != "" ==>
      && LabelOf(a.labels, levels[i]) != ""
      && (LabelOf(a.labels, levels[j]) == LabelOf(b.labels, levels[j]) ==>
            LabelOf(a.labels, levels[i]) == LabelOf(b.labels, levels[i]))
  }

  lemma {:induction false} GroupIsLabel(nodes: seq<Node>, level: string, groupLevel: string, id: string)
    ensures var group := DomainGroup(nodes, level, groupLevel, id);
      group != "" ==>
        exists n :: n in nodes && LabelOf(n.labels, level) == id && LabelOf(n.labels, groupLevel) == group
    ensures groupLevel != "" && DomainGroup(nodes, level, groupLevel, id) == "" ==>
      forall n :: n in nodes && LabelOf(n.labels, level) == id ==> LabelOf(n.labels, groupLevel) == ""
  {
    if nodes == [] {
    } else {
      var k := |nodes| - 1;
      GroupIsLabel(nodes[..k], level, groupLevel, id);
      assert nodes == nodes[..k] + [nodes[k]];
      assert nodes[k] in nodes;
    }
  }

  lemma {:induction false} NodeCarriesGroup(input: Input, levels: seq<string>, n: Node)
    requires Hierarchical(input.nodes, levels) && input.level in levels && input.groupLevel in levels
    requires input.groupLevel != ""
    requires IndexOf(levels, input.groupLevel) <= IndexOf(levels, input.level)
    requires n in input.nodes && LabelOf(n.labels, input.level) != ""
    ensures LabelOf(n.labels, input.groupLevel)
      == DomainGroup(input.nodes, input.level, input.groupLevel, LabelOf(n.labels, input.level))
    ensures LabelOf(n.labels, input.groupLevel) != ""
  {
    var i, j := IndexOf(levels, input.groupLevel), IndexOf(levels, input.level);
    GroupIsLabel(input.nodes, input.level, input.groupLevel, LabelOf(n.labels, input.level));
    assert levels[i] == input.groupLevel && levels[j] == input.level;
    assert LabelOf(n.labels, levels[i]) != "";
  }

  ghost predicate InPlan(input: Input, p: DrainPlan, n: Node) {
    n in input.nodes && LabelOf(n.labels, input.level) in p.domainIds
  }

  lemma {:induction false} PlannedNodeGroup(input: Input, q: Query, p: DrainPlan, levels: seq<string>, group: string,
      n: Node)
    requires q.snap == BuildSpec(input) && InPlan(input, p, n) && InGroup(q, p, group)
    requires Hierarchical(input.nodes, levels) && input.level in levels && input.groupLevel in levels
    requires input.groupLevel != ""
    requires IndexOf(levels, input.groupLevel) <= IndexOf(levels, input.level)
    ensures LabelOf(n.labels, input.groupLevel) == group != ""
  {
    var id := LabelOf(n.labels, input.level);
    PlannedDrainable(q, p, group);
    DomainLabelled(input, id);
    NodeCarriesGroup(input, levels, n);
  }

  lemma {:induction false} AgreeAbove(input: Input, levels: seq<string>, a: Node, b: Node, finer: string,
      coarser: string)
    requires Hierarchical(input.nodes, levels) && a in input.nodes && b in input.nodes
    requires finer in levels && coarser in levels && IndexOf(levels, coarser) <= IndexOf(levels, finer)
    requires LabelOf(a.labels, finer) == LabelOf(b.labels, finer) != ""
    ensures LabelOf(a.labels, coarser) == LabelOf(b.labels, coarser) != ""
  {
    var i, j := IndexOf(levels, coarser), IndexOf(levels, finer);
    assert levels[i] == coarser && levels[j] == finer;
  }

  lemma {:induction false} GroupOfPlan(input: Input, q: Query) returns (group: string)
    requires ValidConfig(q.cfg) && q.snap == BuildSpec(input) && SelectSpec(q).Planned?
    ensures InGroup(q, SelectSpec(q).plan, group)
  {
    BuildKeyed(input);
    var home;
    group, home := PlanSound(q);
  }

  lemma {:induction false} GroupingCovers(podSets: seq<PodSet>, levels: seq<string>, drainLevel: string,
      group: string, required: string)
    requires IsCoarsest(SliceLevels(podSets), levels, drainLevel) && "" !in levels
    requires IsGrouping(RequiredLevels(podSets), levels, drainLevel, group)
    requires required in RequiredLevels(podSets) && IndexOf(levels, required) <= IndexOf(levels, drainLevel)
    ensures drainLevel in levels && group in levels && group != "" && required in levels
    ensures IndexOf(levels, required) <= IndexOf(levels, group) <= IndexOf(levels, drainLevel)
  {
    assert required in Applicable(RequiredLevels(podSets), levels, drainLevel);
  }

  lemma {:induction false} PlanSharesGroup(input: Input, q: Query, p: DrainPlan, levels: seq<string>, a: Node, b: Node)
    requires ValidConfig(q.cfg) && q.snap == BuildSpec(input) && SelectSpec(q) == Planned(p)
    requires InPlan(input, p, a) && InPlan(input, p, b) && Hierarchical(input.nodes, levels)
    requires input.level in levels && input.groupLevel in levels && input.groupLevel != ""
    requires IndexOf(levels, input.groupLevel) <= IndexOf(levels, input.level)
    ensures LabelOf(a.labels, input.groupLevel) == LabelOf(b.labels, input.groupLevel) != ""
  {
    var group := GroupOfPlan(input, q);
    PlannedNodeGroup(input, q, p, levels, group, a);
    PlannedNodeGroup(input, q, p, levels, group, b);
  }

  /**
   All nodes of a plan built at the coarsest slice level and its grouping level agree on every required
   level at or above the drain level.
   */
  lemma {:induction false} PlanHonoursRequiredLevels(
    input: Input, q: Query, p: DrainPlan, levels: seq<string>, podSets: seq<PodSet>, a: Node, b: Node, required: string)
    requires ValidConfig(q.cfg) && q.snap == BuildSpec(input) && SelectSpec(q) == Planned(p)
    requires InPlan(input, p, a) && InPlan(input, p, b)
    requires Hierarchical(input.nodes, levels) && "" !in levels
    requires IsCoarsest(SliceLevels(podSets), levels, input.level)
    requires IsGrouping(RequiredLevels(podSets), levels, input.level, input.groupLevel)
    requires required in RequiredLevels(podSets) && IndexOf(levels, required) <= IndexOf(levels, input.level)
    ensures LabelOf(a.labels, required) == LabelOf(b.labels, required) != ""
  {
    GroupingCovers(podSets, levels, input.level, input.groupLevel, required);
    PlanSharesGroup(input, q, p, levels, a, b);
    AgreeAbove(input, levels, a, b, input.groupLevel, required);
  }

  lemma {:induction false} DomainLabelled(input: Input, id: string)
    requires id in BuildSpec(input).domains
    ensures id != ""
    ensures BuildSpec(input).domains[id].group == DomainGroup(input.nodes, input.level, input.groupLevel, id)
  {
  }
}
