/**
 Who a drain reconcile may act for, and on whom: the gates and filters of Reconcile, read off the calls that
 come out of them.
 */
module Entitlement {
  import opened Base
  import opened Kube
  import opened Taints
  import opened Selection
  import opened Order
  import opened Clusters
  import opened DrainCalls
  import opened Exclusivity

  /** Everything that must hold of a workload for a reconcile to taint for it. */
  ghost predicate MayTaint(s: State, cfg: Config, l: Listing, key: Name)
    requires Lists(l, s)
  {
    && key in s.workloads
    && StuckHero(s.workloads[key]) && s.workloads[key].deactivatedFor.None? && !s.workloads[key].overQuota
    && DrainsIn(s, cfg.taintKey, l).Keys <= {key}
    && (key in DrainsIn(s, cfg.taintKey, l)
        || (Front(StuckHeroes(s, l)).Some? && Front(StuckHeroes(s, l)).value.key == key))
    && !cfg.dryRun
  }

  lemma {:induction false} HeroMayTaint(s: State, cfg: Config, l: Listing, look: Look, w: Workload, outcome: Outcome)
    requires Lists(l, s) && !NoTaints(HeroCalls(s, cfg, l, look, w, outcome))
    ensures DrainsIn(s, cfg.taintKey, l).Keys <= {w.key} && !cfg.dryRun
    ensures w.key in DrainsIn(s, cfg.taintKey, l)
      || (Front(StuckHeroes(s, l)).Some? && Front(StuckHeroes(s, l)).value.key == w.key)
  {
    if w.key in DrainsIn(s, cfg.taintKey, l) {
      AbortNeverTaints(s, l, w.key, DrainsIn(s, cfg.taintKey, l)[w.key].nodes);
    }
  }

  // ---- the line ----

  /** Someone in line: an active, stuck hero. */
  ghost predicate Waits(s: State, v: Name) {
    v in s.workloads && s.workloads[v].active != Some(false) && s.workloads[v].stuck && s.workloads[v].isHero
  }

  ghost predicate AtFront(s: State, l: Listing, key: Name)
    requires Lists(l, s)
  {
    Front(StuckHeroes(s, l)).Some? && Front(StuckHeroes(s, l)).value.key == key
  }

  lemma {:induction false} WaitsIffListed(s: State, l: Listing, w: Workload)
    requires WellFormed(s) && Lists(l, s)
    ensures w in StuckHeroes(s, l) <==> Waits(s, w.key) && s.workloads[w.key] == w
  {
    FilterMember(WorkloadSeq(s, l.workloads), StuckHero, w);
    ListedIffStored(s, l, w);
  }

  /** Nobody in line has a higher priority, an earlier place in the queue or, failing both, a smaller name. */
  ghost predicate Foremost(s: State, key: Name) {
    Waits(s, key) && forall v :: Waits(s, v) ==> NotBehind(s.workloads[key], s.workloads[v])
  }

  /** The line has exactly one front, whatever order the workloads are listed in. */
  lemma {:induction false} FrontIsForemost(s: State, l: Listing, key: Name)
    requires WellFormed(s) && Lists(l, s)
    ensures AtFront(s, l, key) <==> Foremost(s, key)
  {
    var stuck := StuckHeroes(s, l);
    FrontLeads(stuck);
    if AtFront(s, l, key) {
      WaitsIffListed(s, l, Front(stuck).value);
      forall v | Waits(s, v) ensures NotBehind(s.workloads[key], s.workloads[v]) {
        WaitsIffListed(s, l, s.workloads[v]);
      }
    }
    if Foremost(s, key) {
      var w := s.workloads[key];
      WaitsIffListed(s, l, w);
      var first := Front(stuck).value;
      WaitsIffListed(s, l, first);
      NotBehindUnlessBefore(w, first);
      NotBehindUnlessBefore(first, w);
      HeroBeforeIsOrder(w, first, w);
    }
  }

  /**
   A reconcile that taints any node is for an active, unmarked, stuck hero within quota, outside dry-run, while
   every drained node is its own; and if it has none yet, nobody in line comes before it.
   */
  lemma {:induction false} OnlyEntitledTaint(s: State, cfg: Config, l: Listing, look: Look, key: Name)
    requires ValidConfig(cfg) && WellFormed(s) && Lists(l, s)
    requires !NoTaints(ReconcileCalls(s, cfg, l, look, key))
    ensures MayTaint(s, cfg, l, key)
    ensures Waits(s, key) && s.workloads[key].deactivatedFor.None? && !s.workloads[key].overQuota && !cfg.dryRun
    ensures forall n :: n in s.nodes ==>
      Owner(s.nodes[n], cfg.taintKey).None? || Owner(s.nodes[n], cfg.taintKey) == Some(key)
    ensures (exists n :: n in s.nodes && Owner(s.nodes[n], cfg.taintKey) == Some(key)) || Foremost(s, key)
  {
    TaintsWhenEntitled(s, cfg, l, look, key);
    DrainsInMeaning(s, cfg.taintKey, l, key);
    forall n | n in s.nodes && Owner(s.nodes[n], cfg.taintKey).Some?
      ensures Owner(s.nodes[n], cfg.taintKey) == Some(key)
    {
      assert Owner(s.nodes[n], cfg.taintKey).value in DrainOwners(s, cfg.taintKey);
    }
    if key !in DrainsIn(s, cfg.taintKey, l) {
      FrontIsForemost(s, l, key);
    }
  }

  lemma {:induction false} TaintsWhenEntitled(s: State, cfg: Config, l: Listing, look: Look, key: Name)
    requires ValidConfig(cfg) && WellFormed(s) && Lists(l, s)
    requires !NoTaints(ReconcileCalls(s, cfg, l, look, key))
    ensures MayTaint(s, cfg, l, key)
  {
    var drains := DrainsIn(s, cfg.taintKey, l);
    if key in s.workloads {
      var w := s.workloads[key];
      if w.deactivatedFor.Some? {
        VictimEventNeverTaints(s, key);
      } else if w.isHero && w.stuck && !w.overQuota && !Inactive(w) {
        HeroMayTaint(s, cfg, l, look, w, OutcomeFor(s, cfg, l, look, w));
      } else if key in drains {
        AbortNeverTaints(s, l, key, drains[key].nodes);
        CycleNeverTaints(s, cfg, l, w, drains[key].nodes);
      }
    }
  }

  /** The reconcile of an entitled hero with a plan is the start of the drain, or its resumption. */
  lemma {:induction false} EntitledStarts(s: State, cfg: Config, l: Listing, look: Look, key: Name)
    requires ValidConfig(cfg) && Lists(l, s) && MayTaint(s, cfg, l, key) && s.workloads[key].key == key
    requires OutcomeFor(s, cfg, l, look, s.workloads[key]).Planned?
    ensures ReconcileCalls(s, cfg, l, look, key)
      == StartCalls(s, cfg, l, look, s.workloads[key], OutcomeFor(s, cfg, l, look, s.workloads[key]).plan.nodes,
                    key in DrainsIn(s, cfg.taintKey, l))
  {
  }

  lemma {:induction false} SameStuckHeroes(s: State, a: Listing, b: Listing)
    requires Lists(a, s) && Lists(b, s)
    ensures Elements(StuckHeroes(s, a)) == Elements(StuckHeroes(s, b))
  {
    forall w ensures w in StuckHeroes(s, a) <==> w in StuckHeroes(s, b) {
      FilterMember(WorkloadSeq(s, a.workloads), StuckHero, w);
      FilterMember(WorkloadSeq(s, b.workloads), StuckHero, w);
      ListedIffStored(s, a, w);
      ListedIffStored(s, b, w);
    }
  }

  lemma {:induction false} ListedIffStored(s: State, l: Listing, w: Workload)
    requires Lists(l, s)
    ensures w in WorkloadSeq(s, l.workloads) <==> exists v :: v in s.workloads && s.workloads[v] == w
  {
    var ws := WorkloadSeq(s, l.workloads);
    if w in ws {
      var i :| 0 <= i < |ws| && ws[i] == w;
      assert l.workloads[i] in l.workloads;
    }
    if v :| v in s.workloads && s.workloads[v] == w {
      assert v in l.workloads;
      var i :| 0 <= i < |l.workloads| && l.workloads[i] == v;
      assert ws[i] in ws;
    }
  }

  lemma {:induction false} StuckHeroesKeyed(s: State, l: Listing)
    requires WellFormed(s) && Lists(l, s)
    ensures KeyedWorkloads(Elements(StuckHeroes(s, l)))
  {
    forall w | w in StuckHeroes(s, l) ensures w.key in s.workloads && s.workloads[w.key] == w {
      FilterMember(WorkloadSeq(s, l.workloads), StuckHero, w);
      ListedIffStored(s, l, w);
    }
  }

  /** At most one workload of a cluster is entitled to taint, whatever order each reconcile lists things in. */
  lemma {:induction false} OneEntitled(s: State, cfg: Config, la: Listing, lb: Listing, a: Name, b: Name)
    requires WellFormed(s) && Lists(la, s) && Lists(lb, s) && MayTaint(s, cfg, la, a) && MayTaint(s, cfg, lb, b)
    ensures a == b
  {
    DrainsInMeaning(s, cfg.taintKey, la, a);
    DrainsInMeaning(s, cfg.taintKey, lb, b);
    SameStuckHeroes(s, la, lb);
    StuckHeroesKeyed(s, la);
    OneFrontRunner(StuckHeroes(s, la), StuckHeroes(s, lb));
  }

  // ---- who gets suspended ----

  ghost predicate HasLivePod(s: State, v: Name) {
    exists p :: p in s.pods && !Terminal(p) && WORKLOAD_ANNOTATION in p.annotations && PodOwner(p) == v
  }

  ghost predicate SuspendsOnly(s: State, calls: seq<Call>, hero: Name) {
    forall i :: 0 <= i < |calls| && calls[i].Suspend? ==>
      && calls[i].hero == hero && calls[i].victim != hero
      && ToSuspend(s, calls[i].victim)
      && HasLivePod(s, calls[i].victim)
  }

  ghost predicate NoSuspends(calls: seq<Call>) {
    forall i :: 0 <= i < |calls| ==> !calls[i].Suspend?
  }

  lemma {:induction false} CycleSuspendsOnly(s: State, cfg: Config, l: Listing, hero: Workload, nodes: seq<string>)
    ensures SuspendsOnly(s, CycleCalls(s, cfg, l, hero, nodes), hero.key)
  {
    var occupants := Occupants(s.pods, nodes, hero.key);
    OccupantsMeaning(s.pods, nodes, hero.key);
    var keep := (v: Name) => ToSuspend(s, v);
    var vs := Filter(occupants, keep);
    forall v | v in vs ensures v in occupants && ToSuspend(s, v) {
      FilterMember(occupants, keep, v);
    }
    var calls := CycleCalls(s, cfg, l, hero, nodes);
    forall i | 0 <= i < |calls| && calls[i].Suspend?
      ensures calls[i].hero == hero.key && calls[i].victim in occupants && ToSuspend(s, calls[i].victim)
    {
      assert i < |vs|;
      assert calls[i] == SuspendAll(vs, hero.key)[i] && vs[i] in vs;
    }
  }

  lemma {:induction false} StartSuspendsOnly(s: State, cfg: Config, l: Listing, look: Look, w: Workload,
      nodes: seq<string>, resuming: bool)
    ensures SuspendsOnly(s, StartCalls(s, cfg, l, look, w, nodes, resuming), w.key)
  {
    var taints := TaintAllCalls(nodes, w.key, look.queue) + (if resuming then [] else [CountStart]);
    var mid := Run(s, taints, cfg.taintKey);
    TaintsKeepWorkloads(s, taints, cfg.taintKey);
    CycleSuspendsOnly(mid, cfg, l, w, nodes);
    var cycle, calls := CycleCalls(mid, cfg, l, w, nodes), StartCalls(s, cfg, l, look, w, nodes, resuming);
    forall i | 0 <= i < |calls| && calls[i].Suspend? ensures i >= |taints| && calls[i] == cycle[i - |taints|] {
    }
  }

  lemma {:induction false} AbortNeverSuspends(s: State, l: Listing, hero: Name, nodes: seq<string>)
    ensures NoSuspends(AbortCalls(s, l, hero, nodes))
  {
  }

  lemma {:induction false} HeroSuspendsOnly(s: State, cfg: Config, l: Listing, look: Look, w: Workload,
      outcome: Outcome)
    requires Lists(l, s)
    ensures SuspendsOnly(s, HeroCalls(s, cfg, l, look, w, outcome), w.key)
  {
    var drains := DrainsIn(s, cfg.taintKey, l);
    if w.key in drains {
      AbortNeverSuspends(s, l, w.key, drains[w.key].nodes);
    }
    if outcome.Planned? {
      StartSuspendsOnly(s, cfg, l, look, w, outcome.plan.nodes, w.key in drains);
    }
  }

  /**
   A reconcile suspends only active workloads that run kueue-managed pods, never a hero-classed one and never
   the workload it is for, and marks each with its own key. It suspends at all only for an active, unmarked hero.
   */
  lemma {:induction false} OnlyVictimsSuspended(s: State, cfg: Config, l: Listing, look: Look, key: Name)
    requires ValidConfig(cfg) && WellFormed(s) && Lists(l, s)
    ensures SuspendsOnly(s, ReconcileCalls(s, cfg, l, look, key), key)
    ensures !NoSuspends(ReconcileCalls(s, cfg, l, look, key)) ==>
      && key in s.workloads && s.workloads[key].isHero
      && s.workloads[key].active != Some(false) && s.workloads[key].deactivatedFor.None?
  {
    if key in s.workloads {
      var w, drains := s.workloads[key], DrainsIn(s, cfg.taintKey, l);
      assert w.key == key;
      if w.deactivatedFor.Some? {
        VictimEventNeverTaints(s, key);
      } else if w.isHero && w.stuck && !w.overQuota {
        HeroSuspendsOnly(s, cfg, l, look, w, OutcomeFor(s, cfg, l, look, w));
      } else if key in drains {
        AbortNeverSuspends(s, l, key, drains[key].nodes);
        CycleSuspendsOnly(s, cfg, l, w, drains[key].nodes);
      }
    }
  }
}
