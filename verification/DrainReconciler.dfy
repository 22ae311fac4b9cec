/** pkg/controller/drain/reconciler.go: the reconcile loop, making exactly the calls of DrainCalls. */
module DrainReconciler {
  import opened Base
  import opened Kube
  import opened Taints
  import opened Snapshots
  import opened Heroes
  import opened Selection
  import opened Order
  import opened Clusters
  import opened DrainCalls

  class Reconciler {
    const api: ApiServer
    const cfg: Config

    constructor (api: ApiServer, cfg: Config)
      requires ValidConfig(cfg) && api.taintKey == cfg.taintKey
      ensures this.api == api && this.cfg == cfg && Valid()
    {
      this.api := api;
      this.cfg := cfg;
    }

    ghost predicate Valid() {
      ValidConfig(cfg) && api.taintKey == cfg.taintKey
    }

    /** Distinct workloads with live pods on the nodes, in the order they are met. */
    method VictimWorkloadsOn(nodes: seq<string>, self: Name) returns (occupants: seq<Name>)
      ensures occupants == Occupants(api.View().pods, nodes, self)
    {
      occupants := [];
      var seen: set<Name> := {};
      for i := 0 to |nodes|
        invariant occupants == Occupants(api.View().pods, nodes[..i], self)
        invariant forall v :: v in seen <==> v in occupants
      {
        assert nodes[..i + 1][..i] == nodes[..i];
        ghost var before := occupants;
        for j := 0 to |api.pods|
          invariant occupants == AddOccupants(before, api.pods[..j], nodes[i], self)
          invariant forall v :: v in seen <==> v in occupants
        {
          assert api.pods[..j + 1][..j] == api.pods[..j];
          var pod := api.pods[j];
          if pod.node != nodes[i] || nodes[i] == "" || Terminal(pod) || WORKLOAD_ANNOTATION !in pod.annotations {
            continue;
          }
          var key := Name(pod.key.ns, pod.annotations[WORKLOAD_ANNOTATION]);
          if key in seen || key == self {
            continue;
          }
          seen := seen + {key};
          occupants := occupants + [key];
        }
        assert api.pods[..|api.pods|] == api.pods;
      }
      assert nodes[..|nodes|] == nodes;
    }

    /** Suspends every occupant that is still active; pending says whether any victim is left. */
    method SuspendOccupants(occupants: seq<Name>, hero: Name) returns (pending: nat, suspended: nat)
      requires Valid() && NoRepeats(occupants)
      modifies api
      ensures api.View() == Run(old(api.View()), SuspendCalls(old(api.View()), occupants, hero), cfg.taintKey)
      ensures pending > 0 <==> SomeVictim(old(api.View()), occupants)
    {
      ghost var s, key := api.View(), cfg.taintKey;
      ghost var keep := (v: Name) => ToSuspend(s, v);
      pending, suspended := 0, 0;
      for i := 0 to |occupants|
        invariant api.View() == Run(s, SuspendCalls(s, occupants[..i], hero), key)
        invariant pending > 0 <==> SomeVictim(s, occupants[..i])
      {
        ghost var done := occupants[..i];
        assert occupants[..i + 1] == done + [occupants[i]] && occupants[..i + 1][..i] == done;
        SuspendStep(s, done, occupants[i], hero, key);
        SomeVictimSnoc(s, done, occupants[i]);
        if occupants[i] !in api.workloads {
          continue;
        }
        var victim := api.workloads[occupants[i]];
        if victim.heroClass {
          continue;
        }
        pending := pending + 1;
        if Inactive(victim) {
          continue;
        }
        api.DeactivateVictim(occupants[i], hero);
        suspended := suspended + 1;
      }
      assert occupants[..|occupants|] == occupants;
    }

    /** Our victims that kueue has evicted go back to active; the list is read once, up front. */
    method ReactivateEvicted(l: Listing, hero: Name)
      requires Valid() && Lists(l, api.View())
      modifies api
      ensures api.View() == Run(old(api.View()), ReturnCalls(old(api.View()), l, OwnerRef(hero)), cfg.taintKey)
    {
      ghost var s, key := api.View(), cfg.taintKey;
      var text := OwnerRef(hero);
      var ours := api.ListMarked(l, text);
      var listed := api.workloads;
      forall v | v in ours ensures v in listed {
        MarkedForMeaning(s, l, text, v);
      }
      ghost var keep := (v: Name) => v in listed && Returnable(listed[v]);
      for i := 0 to |ours|
        invariant api.View() == Run(s, ReactivateAll(Filter(ours[..i], keep)), key)
        invariant api.View().workloads.Keys == s.workloads.Keys
      {
        assert ours[..i + 1] == ours[..i] + [ours[i]];
        ReturnStep(s, ours[..i], ours[i], keep, key);
        if Inactive(listed[ours[i]]) && EvictedByDeactivation(listed[ours[i]]) {
          api.Reactivate(ours[i]);
        }
      }
      assert ours[..|ours|] == ours;
      FilterFilter(l.workloads, (v: Name) => IsMarkedFor(s, text, v), keep, (v: Name) => ReadyToReturn(s, text, v));
    }

    method SmallestNode(nodes: seq<string>) returns (least: string)
      requires nodes != []
      ensures least == MinString(nodes)
    {
      least := nodes[0];
      for i := 1 to |nodes|
        invariant least == MinString(nodes[..i])
      {
        assert nodes[..i + 1][..i] == nodes[..i];
        if StrLess(nodes[i], least) {
          least := nodes[i];
        }
      }
      assert nodes[..|nodes|] == nodes;
    }

    /** Wakes kueue through one drained node, no more often than the nudge interval. */
    method NudgeWhilePending(hero: Workload, nodes: seq<string>)
      requires Valid()
      modifies api
      ensures api.View()
        == Run(old(api.View()), NudgeCalls(old(api.View()), hero, nodes, cfg.nudgeInterval), cfg.taintKey)
    {
      if hero.admission.Some? || nodes == [] {
        return;
      }
      var node := SmallestNode(nodes);
      RunOne(api.View(), StampNudge(node), cfg.taintKey);
      if node !in api.nodes {
        return;
      }
      var last := api.nodes[node].nudge;
      if last.Some? && last.value.At? && api.now - last.value.time < cfg.nudgeInterval {
        return;
      }
      api.nodes := api.nodes[node := api.nodes[node].(nudge := Some(At(api.now)))];
    }

    method CycleVictims(l: Listing, hero: Workload, nodes: seq<string>)
      requires Valid() && Lists(l, api.View())
      modifies api
      ensures api.View() == Run(old(api.View()), CycleCalls(old(api.View()), cfg, l, hero, nodes), cfg.taintKey)
    {
      ghost var s, key := api.View(), cfg.taintKey;
      var occupants := VictimWorkloadsOn(nodes, hero.key);
      OccupantsMeaning(s.pods, nodes, hero.key);
      var pending, suspended := SuspendOccupants(occupants, hero.key);
      ghost var mid := api.View();
      CycleCompletes(s, cfg, l, hero, nodes);
      ReactivateEvicted(l, hero.key);
      if pending > 0 {
        return;
      }
      NudgeWhilePending(hero, nodes);
    }

    method AbortDrain(l: Listing, hero: Name, nodes: seq<string>)
      requires Valid() && Lists(l, api.View())
      modifies api
      ensures api.View() == Run(old(api.View()), AbortCalls(old(api.View()), l, hero, nodes), cfg.taintKey)
    {
      ghost var s, key := api.View(), cfg.taintKey;
      SweepEffect(s, l, OwnerRef(hero), key);
      var swept := api.SweepFor(l, hero);
      ghost var mid := api.View();
      for i := 0 to |nodes|
        invariant api.View() == Run(mid, DropAll(nodes[..i], hero), key)
      {
        DropEffect(mid, nodes[..i], hero, key);
        RunSnoc(mid, DropAll(nodes[..i], hero), DropTaint(nodes[i], hero), key);
        assert DropAll(nodes[..i + 1], hero) == DropAll(nodes[..i], hero) + [DropTaint(nodes[i], hero)];
        api.RemoveOwnedTaint(nodes[i], hero);
      }
      assert nodes[..|nodes|] == nodes;
      AbortCompletes(s, l, hero, nodes, key);
      api.CountDrainCompleted();
    }

    /** The level to drain at and the level to stay inside; none when the hero's levels cannot be resolved. */
    method DrainLevel(podSets: seq<PodSet>, topo: seq<string>) returns (levels: Option<(string, string)>)
      ensures LevelsFor(podSets, topo, levels)
    {
      var required := RequiredTopologyLevels(podSets);
      ElementsEmpty(required);
      if required == [] || topo == [] {
        if required != [] {
          assert required[0] in Elements(required);
        }
        return None;
      }
      var level := CoarsestLevel(required, topo);
      if level.None? {
        return None;
      }
      var group := GroupingLevel(podSets, topo, level.value);
      if group.None? {
        return None;
      }
      levels := Some((level.value, group.value));
    }

    method ListStuckHeroes(l: Listing) returns (stuck: seq<Workload>)
      requires Lists(l, api.View())
      ensures stuck == StuckHeroes(api.View(), l)
    {
      stuck := [];
      ghost var all := WorkloadSeq(api.View(), l.workloads);
      for i := 0 to |l.workloads|
        invariant stuck == Filter(all[..i], StuckHero)
      {
        assert all[..i + 1][..i] == all[..i] && l.workloads[i] in l.workloads;
        var w := api.workloads[l.workloads[i]];
        assert all[..i + 1][i] == w;
        if Inactive(w) || !w.stuck {
          continue;
        }
        if w.isHero {
          stuck := stuck + [w];
        }
      }
      assert all[..|all|] == all;
    }

    method ListOtherHeroes(l: Listing, self: Name) returns (others: seq<Workload>)
      requires Lists(l, api.View())
      ensures others == OtherHeroes(api.View(), l, self)
    {
      others := [];
      ghost var all := WorkloadSeq(api.View(), l.workloads);
      for i := 0 to |l.workloads|
        invariant others == Filter(all[..i], (w: Workload) => OtherAdmittedHero(w, self))
      {
        assert all[..i + 1][..i] == all[..i] && l.workloads[i] in l.workloads;
        var w := api.workloads[l.workloads[i]];
        if w.key == self || w.admission.None? || ConditionTrue(w, FINISHED) {
          continue;
        }
        if w.isHero {
          others := others + [w];
        }
      }
      assert all[..|all|] == all;
    }

    /** Taints the planned nodes in order; the first refusal or missing node ends the reconcile. */
    method TaintNodes(nodes: seq<string>, hero: Name, queue: string) returns (ok: bool)
      requires Valid()
      modifies api
      ensures api.View() == Run(old(api.View()), TaintAllCalls(nodes, hero, queue), cfg.taintKey)
      ensures ok == Completes(old(api.View()), TaintAllCalls(nodes, hero, queue), cfg.taintKey)
    {
      ghost var s, key, all := api.View(), cfg.taintKey, TaintAllCalls(nodes, hero, queue);
      for i := 0 to |nodes|
        invariant api.View() == Run(s, all[..i], key) && Completes(s, all[..i], key)
      {
        ghost var mid := api.View();
        var tainted := api.EnsureTaint(nodes[i], hero, queue);
        RunConcat(s, all[..i], [all[i]], key);
        assert all[..i + 1] == all[..i] + [all[i]];
        if !tainted {
          RunConcat(s, all[..i + 1], all[i + 1..], key);
          assert all == all[..i + 1] + all[i + 1..];
          return false;
        }
      }
      assert all[..|nodes|] == all;
      ok := true;
    }

    method ReconcileVictimEvent(victim: Name)
      requires Valid() && victim in api.workloads && api.workloads[victim].deactivatedFor.Some?
      modifies api
      ensures api.View() == Run(old(api.View()), VictimEventCalls(old(api.View()), victim), cfg.taintKey)
    {
      var w := api.workloads[victim];
      RunOne(api.View(), Reactivate(victim), cfg.taintKey);
      if !Inactive(w) {
        return;
      }
      var owner := Cut(w.deactivatedFor.value);
      if owner.Some? && Name(owner.value.0, owner.value.1) !in api.workloads {
        api.Reactivate(victim);
        return;
      }
      if EvictedByDeactivation(w) {
        api.Reactivate(victim);
      }
    }

    /** Phases 2a and 2b: taint before evicting, then cycle the victims. */
    method StartDrain(l: Listing, ghost look: Look, hero: Workload, queue: string, nodes: seq<string>, resuming: bool)
      requires Valid() && Lists(l, api.View()) && look.queue == queue
      modifies api
      ensures api.View()
        == Run(old(api.View()), StartCalls(old(api.View()), cfg, l, look, hero, nodes, resuming), cfg.taintKey)
    {
      StartRuns(api.View(), cfg, l, look, hero, nodes, resuming);
      RunSameObjects(api.View(), TaintAllCalls(nodes, hero.key, queue), cfg.taintKey);
      var ok := TaintNodes(nodes, hero.key, queue);
      if !ok {
        return;
      }
      if !resuming {
        api.CountDrainStarted();
      }
      CycleVictims(l, hero, nodes);
    }

    /** Phase 1: snapshot and selection. */
    method PlanDrain(l: Listing, look: Look, w: Workload) returns (outcome: Outcome)
      requires Valid() && Lists(l, api.View()) && look.levels.Some?
      ensures outcome == OutcomeFor(api.View(), cfg, l, look, w)
    {
      var others := ListOtherHeroes(l, w.key);
      var nodes := api.ListNodes(l);
      var snap := Build(Input(look.levels.value.0, look.levels.value.1, nodes, api.pods, others, w.key, cfg));
      outcome := SelectDomains(Query(snap, HeroOf(w, look), api.workloads, cfg, api.now));
    }

    /** From the serialization gate on: queue, evaluate, plan, and act on the plan. */
    method DrainFor(l: Listing, look: Look, w: Workload, drains: map<Name, Drain>)
      requires Valid() && Lists(l, api.View()) && drains == DrainsIn(api.View(), cfg.taintKey, l)
      modifies api
      ensures api.View() == Run(old(api.View()),
        HeroCalls(old(api.View()), cfg, l, look, w, OutcomeFor(old(api.View()), cfg, l, look, w)), cfg.taintKey)
    {
      var blocking := BlockingDrain(drains, w.key);
      if blocking.Some? {
        return;
      }
      var stuck := ListStuckHeroes(l);
      var own := w.key in drains;
      if !own {
        var next := NextHero(stuck);
        if next.None? || next.value.key != w.key {
          return;
        }
      }
      if look.levels.None? {
        return;
      }
      var outcome := PlanDrain(l, look, w);
      if !outcome.Planned? {
        if own {
          AbortDrain(l, w.key, drains[w.key].nodes);
        }
        return;
      }
      if cfg.dryRun {
        return;
      }
      StartDrain(l, look, w, look.queue, outcome.plan.nodes, own);
    }

    /**
     One reconcile of one workload. queue and topo are what the ClusterQueue lookups return for it. Levels
     and demand are pure, so they are worked out up front.
     */
    method Reconcile(req: Name, queue: string, topo: seq<string>) returns (ghost l: Listing, ghost look: Look)
      requires Valid() && WellFormed(api.View())
      modifies api
      ensures Lists(l, old(api.View())) && look.queue == queue
      ensures req in old(api.workloads) ==> LookFor(old(api.workloads)[req], topo, cfg, look)
      ensures api.View() == Run(old(api.View()), ReconcileCalls(old(api.View()), cfg, l, look, req), cfg.taintKey)
    {
      var listing := api.List();
      l, look := listing, Look(queue, None, []);
      if req !in api.workloads {
        return;
      }
      var w := api.workloads[req];
      var levels := DrainLevel(w.podSets, topo);
      var demand := Demand(w.podSets, cfg.gpu);
      look := Look(queue, levels, demand);
      if w.deactivatedFor.Some? {
        ReconcileVictimEvent(req);
        return;
      }
      if Inactive(w) {
        return;
      }
      var drains := api.DrainsInFlight(listing);
      if !w.isHero {
        if req in drains {
          AbortDrain(listing, req, drains[req].nodes);
        }
        return;
      }
      if !w.stuck {
        if req in drains {
          CycleVictims(listing, w, drains[req].nodes);
        }
        return;
      }
      if w.overQuota {
        if req in drains {
          AbortDrain(listing, req, drains[req].nodes);
        }
        return;
      }
      DrainFor(listing, Look(queue, levels, demand), w, drains);
    }
  }
}
