/** Feasibility: what a plan needs of the domains, said of their allocatable and non-reclaimable GPUs alone. */
module Feasibility {
  import opened Kube
  import opened Snapshots
  import opened Heroes
  import opened Selection
  import opened Packing
  import opened Plans
  import opened Optimality

  /** No other hero inside, GPUs to gain, and every known owner of a victim pod ranks below the hero. */
  ghost predicate Drainable(q: Query, d: Domain) {
    && !d.hasOtherHero && d.nonReclaimable < d.allocatable
    && forall v :: v in d.victims && v.workload in q.workloads ==>
      (match q.workloads[v.workload].priority case Some(p) => p case None => 0) < q.hero.priority
  }

  lemma {:induction false} DrainableIsEligible(q: Query, d: Domain)
    ensures Drainable(q, d) <==> Eligible(q, d)
  {
    var vs := VictimsOf(q, d);
    GroupVictimsMeaning(d.victims, q.workloads, q.now);
    if Eligible(q, d) {
      forall v | v in d.victims && v.workload in q.workloads
        ensures Priority(q.workloads[v.workload]) < q.hero.priority
      {
        assert v.workload in PodOwners(d.victims) && v.workload in Keys(vs);
        var i :| 0 <= i < |vs| && vs[i].key == v.workload;
        assert vs[i] in vs;
      }
    }
    if Drainable(q, d) {
      forall i | 0 <= i < |vs| ensures vs[i].priority < q.hero.priority {
        assert vs[i] in vs && vs[i].key in Keys(vs);
        var v :| v in d.victims && v.workload == vs[i].key;
      }
    }
  }

  /** The domain can be drained for the hero and holds the load beside what cannot be moved away. */
  ghost predicate Takes(q: Query, group: string, id: string, load: nat) {
    && id in q.snap.domains && q.snap.domains[id].group == group && Drainable(q, q.snap.domains[id])
    && load + q.snap.domains[id].nonReclaimable <= q.snap.domains[id].allocatable
  }

  /** Unit i goes whole to domain home[i], all of one group, and every domain takes what it is given. */
  ghost predicate Fits(q: Query, group: string, home: seq<string>) {
    |home| == |Units(q.hero)| && forall id :: id in home ==> Takes(q, group, id, LoadAt(Units(q.hero), home, id))
  }

  /** The plan holds every unit beside what cannot be moved away, in drainable domains of one group. */
  lemma {:induction false} PlanFits(q: Query) returns (group: string, home: seq<string>)
    requires ValidConfig(q.cfg) && KeyedById(q.snap) && SelectSpec(q).Planned?
    ensures Fits(q, group, home)
    ensures forall id :: id in home <==> id in SelectSpec(q).plan.domainIds
  {
    group, home := PlanSound(q);
    forall id | id in home ensures Takes(q, group, id, LoadAt(Units(q.hero), home, id)) {
      assert GoodDomain(q, group, id);
      DrainableIsEligible(q, q.snap.domains[id]);
    }
  }

  lemma {:induction false} FitAssigns(q: Query, group: string, home: seq<string>) returns (assign: seq<nat>)
    requires ValidConfig(q.cfg) && KeyedById(q.snap) && Fits(q, group, home)
    ensures IsAssignment(Caps(Cands(q, group)), Units(q.hero), assign)
  {
    var cands, units := Cands(q, group), Units(q.hero);
    CandsFacts(q, group);
    forall id | id in home ensures IsCandidate(cands, id) {
      assert Takes(q, group, id, LoadAt(units, home, id));
      DrainableIsEligible(q, q.snap.domains[id]);
      assert GoodDomain(q, group, id);
      var j := GoodIsCandidate(q, SortedIds(q), group, id);
    }
    assign := AssignHomes(cands, home);
    forall j | 0 <= j < |cands| ensures Load(units, assign, j) <= Caps(cands)[j] {
      LoadByName(cands, units, assign, home, j);
      assert CandOf(q, group, cands[j]);
      if cands[j].domain.id !in home {
        NoLoadAt(units, home, cands[j].domain.id);
      }
    }
  }

  /** For divisor-chain demand there is a plan exactly when the units fit one group somehow, whatever it costs. */
  lemma {:induction false} PlannedIffFits(q: Query)
    requires ValidConfig(q.cfg) && KeyedById(q.snap)
    requires DivisorChain(Expand(q.hero.demand)) && Units(q.hero) != []
    ensures SelectSpec(q).Planned? <==> exists group, home :: Fits(q, group, home)
  {
    SelectComplete(q);
    if SelectSpec(q).Planned? {
      var group, home := PlanFits(q);
    }
    if group, home :| Fits(q, group, home) {
      var assign := FitAssigns(q, group, home);
    }
  }

  /** Where static pods hold every GPU there is no plan, and only another hero's presence changes the answer. */
  lemma {:induction false} NothingToFree(q: Query)
    requires ValidConfig(q.cfg)
    requires forall id :: id in q.snap.domains ==> q.snap.domains[id].allocatable <= q.snap.domains[id].nonReclaimable
    ensures SelectSpec(q) ==
      if Units(q.hero) != [] && exists id :: id in q.snap.domains && q.snap.domains[id].hasOtherHero
      then AllFeasibleHeroOccupied else NoFeasibleDomains
  {
    NoneEligible(q);
    var _ := SelectMeaning(q);
  }

  /** The workload owns a victim pod in one of the domains. */
  ghost predicate HasVictimIn(q: Query, ids: seq<string>, key: Name) {
    exists id, v :: id in ids && id in q.snap.domains && v in q.snap.domains[id].victims && v.workload == key
  }

  /** Whom a plan evicts: every known owner of a victim pod in its domains, and nobody else. */
  lemma {:induction false} PlanEvictsOwners(q: Query, key: Name)
    requires ValidConfig(q.cfg) && KeyedById(q.snap) && SelectSpec(q).Planned?
    ensures (exists w :: w in SelectSpec(q).plan.victims && w.key == key) <==>
      key in q.workloads && HasVictimIn(q, SelectSpec(q).plan.domainIds, key)
  {
    var group, home := PlanSound(q);
    var p := SelectSpec(q).plan;
    forall id | id in p.domainIds
      ensures id in q.snap.domains
      ensures Keys(VictimsOf(q, q.snap.domains[id])) == PodOwners(q.snap.domains[id].victims) * q.workloads.Keys
    {
      assert GoodDomain(q, group, id);
      GroupVictimsMeaning(q.snap.domains[id].victims, q.workloads, q.now);
    }
    assert key in Keys(p.victims) <==> exists w :: w in p.victims && w.key == key;
    if key in Keys(p.victims) {
      var id :| id in p.domainIds && key in Keys(VictimsOf(q, q.snap.domains[id]));
      assert key in PodOwners(q.snap.domains[id].victims);
    }
    if key in q.workloads && HasVictimIn(q, p.domainIds, key) {
      var id, v :| id in p.domainIds && id in q.snap.domains && v in q.snap.domains[id].victims && v.workload == key;
      assert key in Keys(VictimsOf(q, q.snap.domains[id]));
    }
  }
}
