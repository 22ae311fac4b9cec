/** From plan to eviction: whom a started drain suspends, and that it misses nobody it planned to evict. */
module Eviction {
  import opened Base
  import opened Kube
  import opened Taints
  import opened Snapshots
  import opened SnapshotFacts
  import opened Selection
  import opened Plans
  import opened Replanning
  import opened Clusters
  import opened DrainCalls
  import opened Entitlement

  lemma {:induction false} VictimHasPod(pods: seq<Pod>, at: map<string, string>, cfg: Config, id: string,
      v: Victim) returns (p: Pod)
    requires v in DomainVictims(pods, at, cfg, id)
    ensures p in pods && PodIn(p, at, cfg, id) && Classify(p, cfg).IsVictim? && AsVictim(p, cfg) == v
  {
    var n := |pods| - 1;
    if PodIn(pods[n], at, cfg, id) && Classify(pods[n], cfg).IsVictim? && AsVictim(pods[n], cfg) == v {
      p := pods[n];
    } else {
      p := VictimHasPod(pods[..n], at, cfg, id, v);
    }
  }

  lemma {:induction false} PlacedOnLabelledNode(nodes: seq<Node>, level: string, name: string)
    requires name in NodeDomain(nodes, level)
    ensures name in DomainNodes(nodes, level, NodeDomain(nodes, level)[name])
  {
    if nodes == [] {
    } else {
      var n := |nodes| - 1;
      if nodes[n].name != name || LabelOf(nodes[n].labels, level) == "" {
        PlacedOnLabelledNode(nodes[..n], level, name);
      }
    }
  }

  /** Every workload the plan would evict has a live pod on a node the plan taints. */
  lemma {:induction false} PlannedVictimHasPod(input: Input, q: Query, v: Name) returns (p: Pod)
    requires ValidConfig(q.cfg) && q.snap == BuildSpec(input) && SelectSpec(q).Planned?
    requires v in Keys(SelectSpec(q).plan.victims)
    ensures p in input.pods && p.node in SelectSpec(q).plan.nodes && p.node in NodeDomain(input.nodes, input.level)
    ensures !Terminal(p) && WORKLOAD_ANNOTATION in p.annotations && PodOwner(p) == v
  {
    BuildKeyed(input);
    var group, home := PlanSound(q);
    var plan := SelectSpec(q).plan;
    assert forall id :: id in plan.domainIds ==> GoodDomain(q, group, id);
    var id :| id in plan.domainIds && v in Keys(VictimsOf(q, q.snap.domains[id]));
    GroupVictimsMeaning(q.snap.domains[id].victims, q.workloads, q.now);
    var victim :| victim in q.snap.domains[id].victims && victim.workload == v;
    p := PodOnDomain(input, id, victim);
    NodesAtMember(q.snap, plan.domainIds, p.node);
  }

  lemma {:induction false} PodOnDomain(input: Input, id: string, victim: Victim) returns (p: Pod)
    requires id in BuildSpec(input).domains && victim in BuildSpec(input).domains[id].victims
    ensures p in input.pods && p.node in BuildSpec(input).domains[id].nodes
    ensures p.node in NodeDomain(input.nodes, input.level)
    ensures !Terminal(p) && WORKLOAD_ANNOTATION in p.annotations && PodOwner(p) == victim.workload
  {
    var at := NodeDomain(input.nodes, input.level);
    p := VictimHasPod(input.pods, at, input.cfg, id, victim);
    PlacedOnLabelledNode(input.nodes, input.level, p.node);
  }

  lemma {:induction false} NamedNodesOnly(nodes: seq<Node>, level: string)
    requires forall n :: n in nodes ==> n.name != ""
    ensures "" !in NodeDomain(nodes, level)
  {
    if nodes == [] {
    } else {
      assert nodes[|nodes| - 1] in nodes && forall n :: n in nodes[..|nodes| - 1] ==> n in nodes;
      NamedNodesOnly(nodes[..|nodes| - 1], level);
    }
  }

  /** The hero is never among its own planned victims: they all rank below it. */
  lemma {:induction false} NeverItself(q: Query, w: Workload)
    requires ValidConfig(q.cfg) && KeyedById(q.snap) && SelectSpec(q).Planned?
    requires w.key in q.workloads && q.workloads[w.key] == w && q.hero.priority == Priority(w)
    ensures w.key !in Keys(SelectSpec(q).plan.victims)
  {
    var group, home := PlanSound(q);
    var vs := SelectSpec(q).plan.victims;
    forall i | 0 <= i < |vs| ensures vs[i].key != w.key {
      assert vs[i].priority < q.hero.priority;
      assert vs[i] in vs;
    }
  }

  /** Planned victims are among the occupants the drain cycles, whatever the taint loop did in between. */
  lemma {:induction false} PlannedVictimsAreOccupants(s: State, cfg: Config, l: Listing, look: Look, w: Workload,
      v: Name)
    requires ValidConfig(cfg) && WellFormed(s) && Lists(l, s) && "" !in s.nodes
    requires w.key in s.workloads && s.workloads[w.key] == w && OutcomeFor(s, cfg, l, look, w).Planned?
    requires v in Keys(OutcomeFor(s, cfg, l, look, w).plan.victims)
    ensures v in Occupants(s.pods, OutcomeFor(s, cfg, l, look, w).plan.nodes, w.key)
  {
    var nodes := OutcomeFor(s, cfg, l, look, w).plan.nodes;
    var input := PlanInput(s, cfg, l, look.levels.value, w.key);
    var q := Plan(input, HeroOf(w, look), s.workloads, s.now);
    BuildKeyed(input);
    NeverItself(q, w);
    var p := PlannedVictimHasPod(input, q, v);
    forall n | n in input.nodes ensures n.name != "" {
      var i :| 0 <= i < |input.nodes| && input.nodes[i] == n;
      assert l.nodes[i] in l.nodes;
    }
    NamedNodesOnly(input.nodes, input.level);
    assert Occupies(p, p.node, w.key);
    OccupantsMeaning(s.pods, nodes, w.key);
  }

  lemma {:induction false} PlannedInCluster(s: State, cfg: Config, l: Listing, look: Look, w: Workload, v: Name)
    requires ValidConfig(cfg) && Lists(l, s) && OutcomeFor(s, cfg, l, look, w).Planned?
    requires v in Keys(OutcomeFor(s, cfg, l, look, w).plan.victims)
    ensures v in s.workloads
  {
    var input := PlanInput(s, cfg, l, look.levels.value, w.key);
    PlannedKnown(input, Plan(input, HeroOf(w, look), s.workloads, s.now), v);
  }

  // ---- what a whole cycle does to one workload ----

  /** Suspended if it is an active victim; then handed back if it is this drain's and kueue has evicted it. */
  function AfterCycle(w: Workload, hero: Name, occupant: bool): Workload {
    var x := if occupant && !w.heroClass && !Inactive(w) then Suspended(w, hero) else w;
    if x.deactivatedFor == Some(OwnerRef(hero)) && Returnable(x) then Reactivated(x) else x
  }

  lemma {:induction false} ReturnsExactly(s: State, l: Listing, text: string, key: string, v: Name)
    requires Lists(l, s) && v in s.workloads
    ensures var t := Run(s, ReturnCalls(s, l, text), key);
      && v in t.workloads
      && t.workloads[v] == if ReadyToReturn(s, text, v) then Reactivated(s.workloads[v]) else s.workloads[v]
  {
    var keep := (x: Name) => ReadyToReturn(s, text, x);
    var vs := Filter(l.workloads, keep);
    forall x ensures x in vs <==> ReadyToReturn(s, text, x) {
      FilterMember(l.workloads, keep, x);
    }
    ReactivateEffect(s, vs, key);
  }

  lemma {:induction false} NudgeKeepsWorkloads(s: State, hero: Workload, nodes: seq<string>, interval: int, key: string)
    ensures Run(s, NudgeCalls(s, hero, nodes, interval), key).workloads == s.workloads
  {
    if nodes != [] {
      RunOne(s, StampNudge(MinString(nodes)), key);
    }
    assert Run(s, [], key) == s;
  }

  /** A cycle changes every workload as AfterCycle says, the occupants and everybody else. */
  lemma {:induction false} CycleExactly(s: State, cfg: Config, l: Listing, hero: Workload, nodes: seq<string>, v: Name)
    requires Lists(l, s) && v in s.workloads
    ensures var t := Run(s, CycleCalls(s, cfg, l, hero, nodes), cfg.taintKey);
      && v in t.workloads
      && t.workloads[v] == AfterCycle(s.workloads[v], hero.key, v in Occupants(s.pods, nodes, hero.key))
  {
    var occupants := Occupants(s.pods, nodes, hero.key);
    var mid := Run(s, SuspendCalls(s, occupants, hero.key), cfg.taintKey);
    CycleCompletes(s, cfg, l, hero, nodes);
    SuspendsExactly(s, occupants, hero.key, cfg.taintKey, v);
    ReturnsExactly(mid, l, OwnerRef(hero.key), cfg.taintKey, v);
    var after := Run(mid, ReturnCalls(mid, l, OwnerRef(hero.key)), cfg.taintKey);
    NudgeKeepsWorkloads(after, hero, nodes, cfg.nudgeInterval, cfg.taintKey);
  }

  lemma {:induction false} SuspendsExactly(s: State, occupants: seq<Name>, hero: Name, key: string, v: Name)
    requires v in s.workloads
    ensures var t := Run(s, SuspendCalls(s, occupants, hero), key);
      && v in t.workloads
      && t.workloads[v] == if v in occupants && ToSuspend(s, v) then Suspended(s.workloads[v], hero) else s.workloads[v]
  {
    var keep := (x: Name) => ToSuspend(s, x);
    var vs := Filter(occupants, keep);
    forall x ensures x in vs <==> x in occupants && ToSuspend(s, x) {
      FilterMember(occupants, keep, x);
    }
    SuspendEffect(s, vs, hero, key);
  }

  /** The same of a start that got through its taint loop. */
  lemma {:induction false} StartExactly(s: State, cfg: Config, l: Listing, look: Look, w: Workload, nodes: seq<string>,
      resuming: bool, v: Name)
    requires Lists(l, s) && v in s.workloads && Completes(s, TaintAllCalls(nodes, w.key, look.queue), cfg.taintKey)
    ensures var t := Run(s, StartCalls(s, cfg, l, look, w, nodes, resuming), cfg.taintKey);
      && v in t.workloads
      && t.workloads[v] == AfterCycle(s.workloads[v], w.key, v in Occupants(s.pods, nodes, w.key))
  {
    var taints := TaintAllCalls(nodes, w.key, look.queue);
    StartRuns(s, cfg, l, look, w, nodes, resuming);
    TaintsKeepWorkloads(s, taints, cfg.taintKey);
    RunSameObjects(s, taints, cfg.taintKey);
    var tainted := Run(s, taints, cfg.taintKey);
    CycleExactly(if resuming then tainted else Apply(tainted, CountStart, cfg.taintKey), cfg, l, w, nodes, v);
  }

  /**
   One reconcile that plans a drain and gets its taints through leaves every planned victim that is not
   hero-classed inactive, except exactly those it finds already evicted by a deactivation and hands back in the
   same cycle: active ones, and inactive ones marked for this hero.
   */
  lemma {:induction false} PlannedVictimsSuspended(s: State, cfg: Config, l: Listing, look: Look, key: Name, v: Name)
    requires ValidConfig(cfg) && WellFormed(s) && Lists(l, s) && "" !in s.nodes && MayTaint(s, cfg, l, key)
    requires OutcomeFor(s, cfg, l, look, s.workloads[key]).Planned?
    requires v in Keys(OutcomeFor(s, cfg, l, look, s.workloads[key]).plan.victims)
    requires Completes(s, TaintAllCalls(OutcomeFor(s, cfg, l, look, s.workloads[key]).plan.nodes, key, look.queue),
      cfg.taintKey)
    ensures v in s.workloads && v in Run(s, ReconcileCalls(s, cfg, l, look, key), cfg.taintKey).workloads
    ensures !s.workloads[v].heroClass ==>
      (Inactive(Run(s, ReconcileCalls(s, cfg, l, look, key), cfg.taintKey).workloads[v]) <==>
        !(EvictedByDeactivation(s.workloads[v])
          && (!Inactive(s.workloads[v]) || s.workloads[v].deactivatedFor == Some(OwnerRef(key)))))
  {
    var w := s.workloads[key];
    EntitledStarts(s, cfg, l, look, key);
    PlannedVictimsAreOccupants(s, cfg, l, look, w, v);
    PlannedInCluster(s, cfg, l, look, w, v);
    StartExactly(s, cfg, l, look, w, OutcomeFor(s, cfg, l, look, w).plan.nodes, key in DrainsIn(s, cfg.taintKey, l), v);
  }

  lemma {:induction false} PlannedKnown(input: Input, q: Query, v: Name)
    requires ValidConfig(q.cfg) && q.snap == BuildSpec(input) && SelectSpec(q).Planned?
    requires v in Keys(SelectSpec(q).plan.victims)
    ensures v in q.workloads
  {
    BuildKeyed(input);
    var group, home := PlanSound(q);
    var vs := SelectSpec(q).plan.victims;
    var i :| 0 <= i < |vs| && vs[i].key == v;
    assert vs[i] in vs;
  }
}
