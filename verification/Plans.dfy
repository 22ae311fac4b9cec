/** What SelectDomains guarantees: sound plans, completeness over groups, and a drain that never grows. */
module Plans {
  import opened Base
  import opened Kube
  import opened Snapshots
  import opened Heroes
  import opened Selection
  import opened Packing

  ghost predicate KeyedById(s: Snapshot) {
    forall id :: id in s.domains ==> s.domains[id].id == id
  }

  // ---- the candidates of a group ----

  ghost predicate CandOf(q: Query, group: string, c: Cand)
    requires ValidConfig(q.cfg)
  {
    && c.domain.id in q.snap.domains
    && c.domain == q.snap.domains[c.domain.id]
    && c.victims == VictimsOf(q, c.domain)
    && c.cost == TotalCost(c.victims, q.hero, q.cfg)
    && Eligible(q, c.domain) && c.domain.group == group
  }

  lemma {:induction false} TotalCostNonNegative(vs: seq<VictimWorkload>, hero: HeroSpec, cfg: Config)
    requires ValidConfig(cfg)
    ensures TotalCost(vs, hero, cfg) >= 0.0
  {
    if vs == [] {
    } else {
      TotalCostNonNegative(vs[..|vs| - 1], hero, cfg);
      CostBounds(vs[|vs| - 1], hero, cfg);
    }
  }

  ghost predicate ListedCands(q: Query, ids: seq<string>, group: string, cs: seq<Cand>)
    requires ValidConfig(q.cfg)
  {
    forall i :: 0 <= i < |cs| ==> CandOf(q, group, cs[i]) && cs[i].domain.id in ids && cs[i].cost >= 0.0
  }

  lemma {:induction false} GroupCandsListed(q: Query, ids: seq<string>, group: string)
    requires ValidConfig(q.cfg) && KeyedById(q.snap) && forall id :: id in ids ==> id in q.snap.domains
    ensures ListedCands(q, ids, group, GroupCands(q, ids, group))
  {
    if ids == [] {
    } else {
      var n := |ids| - 1;
      GroupCandsListed(q, ids[..n], group);
      TotalCostNonNegative(VictimsOf(q, q.snap.domains[ids[n]]), q.hero, q.cfg);
      assert forall id :: id in ids[..n] ==> id in ids;
    }
  }

  lemma {:induction false} GroupCandsFacts(q: Query, ids: seq<string>, group: string)
    requires ValidConfig(q.cfg) && KeyedById(q.snap) && Ascending(ids)
    requires forall id :: id in ids ==> id in q.snap.domains
    ensures ListedCands(q, ids, group, GroupCands(q, ids, group))
    ensures DistinctCands(GroupCands(q, ids, group))
  {
    GroupCandsListed(q, ids, group);
    if ids == [] {
    } else {
      var n := |ids| - 1;
      GroupCandsFacts(q, ids[..n], group);
      var rest := GroupCands(q, ids[..n], group);
      forall k | 0 <= k < n ensures ids[k] != ids[n] {
        StrLessTotal(ids[k], ids[n]);
      }
      forall i | 0 <= i < |rest| ensures rest[i].domain.id != ids[n] {
        assert rest[i].domain.id in ids[..n];
      }
    }
  }

  ghost predicate DistinctCands(cs: seq<Cand>) {
    forall i, j :: 0 <= i < j < |cs| ==> cs[i].domain.id != cs[j].domain.id
  }

  lemma {:induction false} CandsFacts(q: Query, group: string)
    requires ValidConfig(q.cfg) && KeyedById(q.snap)
    ensures var cs := Cands(q, group);
      && (forall i :: 0 <= i < |cs| ==> CandOf(q, group, cs[i]))
      && DistinctIds(Fresh(cs)) && CostsNonNegative(Fresh(cs))
  {
    assert Ascending(SortedIds(q));
    GroupCandsFacts(q, SortedIds(q), group);
    assert Cands(q, group) == GroupCands(q, SortedIds(q), group);
  }

  // ---- choosing among the groups ----

  ghost predicate Wins(plans: seq<Option<DrainPlan>>, k: nat) {
    && k < |plans| && plans[k].Some?
    && var cost := plans[k].value.totalCost;
      && (forall i :: 0 <= i < k && plans[i].Some? ==> plans[i].value.totalCost > cost)
      && (forall i :: k < i < |plans| && plans[i].Some? ==> plans[i].value.totalCost >= cost)
  }

  /** The loop over groups ends with the first of the cheapest plans, if there is any plan. */
  lemma {:induction false} CheapestWins(plans: seq<Option<DrainPlan>>) returns (k: nat)
    ensures Cheapest(plans).None? <==> forall i :: 0 <= i < |plans| ==> plans[i].None?
    ensures Cheapest(plans).Some? ==> Wins(plans, k) && Cheapest(plans) == plans[k]
  {
    k := 0;
    if plans != [] {
      var n := |plans| - 1;
      var k' := CheapestWins(plans[..n]);
      var best, plan := Cheapest(plans[..n]), plans[n];
      k := if plan.Some? && (best.None? || plan.value.totalCost < best.value.totalCost) then n else k';
      assert forall i :: 0 <= i < n ==> plans[..n][i] == plans[i];
    }
  }

  lemma {:induction false} WinnerIsCheapest(plans: seq<Option<DrainPlan>>, k: nat)
    requires Wins(plans, k)
    ensures Cheapest(plans) == plans[k]
  {
    var k' := CheapestWins(plans);
    assert plans[k].Some?;
  }

  lemma {:induction false} EmptyGroupHasNoCands(q: Query, group: string)
    requires ValidConfig(q.cfg) && group !in Groups(q)
    ensures Cands(q, group) == []
  {
    NoCandidates(q, SortedIds(q), group);
  }

  lemma {:induction false} NoPlanWithoutCands(q: Query, group: string)
    requires ValidConfig(q.cfg) && Cands(q, group) == [] && Units(q.hero) != []
    ensures GroupPlan(q, group).None?
  {
  }

  lemma {:induction false} PlannedGroupListed(q: Query, groups: seq<string>, g: string)
    requires ValidConfig(q.cfg) && Units(q.hero) != [] && GroupPlan(q, g).Some? && groups == SortedListing(Groups(q))
    ensures exists i :: 0 <= i < |groups| && groups[i] == g
  {
    if g !in Groups(q) {
      EmptyGroupHasNoCands(q, g);
      NoPlanWithoutCands(q, g);
    }
    assert g in Elements(groups);
  }

  /** A plan exists exactly when some group packs; it is then a cheapest one. */
  lemma {:induction false} SelectMeaning(q: Query) returns (group: string)
    requires ValidConfig(q.cfg)
    ensures SelectSpec(q).Planned? <==> Units(q.hero) != [] && exists g :: GroupPlan(q, g).Some?
    ensures SelectSpec(q).Planned? ==>
      && GroupPlan(q, group) == Some(SelectSpec(q).plan)
      && (forall g :: GroupPlan(q, g).Some? ==> GroupPlan(q, g).value.totalCost >= SelectSpec(q).plan.totalCost)
      && (forall g :: GroupPlan(q, g).Some? && StrLess(g, group) ==>
            GroupPlan(q, g).value.totalCost > SelectSpec(q).plan.totalCost)
    ensures !SelectSpec(q).Planned? && Units(q.hero) != [] ==>
      (SelectSpec(q).AllFeasibleHeroOccupied? <==> exists id :: id in q.snap.domains && q.snap.domains[id].hasOtherHero)
  {
    group := "";
    var groups := SortedListing(Groups(q));
    if Units(q.hero) != [] {
      var plans := GroupPlans(q, groups);
      var k := CheapestWins(plans);
      forall g | GroupPlan(q, g).Some? ensures exists i :: 0 <= i < |groups| && groups[i] == g {
        PlannedGroupListed(q, groups, g);
      }
      if Cheapest(plans).Some? {
        group := groups[k];
        forall g | GroupPlan(q, g).Some?
          ensures GroupPlan(q, g).value.totalCost >= SelectSpec(q).plan.totalCost
          ensures StrLess(g, group) ==> GroupPlan(q, g).value.totalCost > SelectSpec(q).plan.totalCost
        {
          var i :| 0 <= i < |groups| && groups[i] == g;
          StrLessTotal(groups[i], groups[k]);
        }
      }
    }
  }

  /** Occupied is not infeasible: one hero's domain without a single GPU turns "no feasible domain" into "wait". */
  lemma {:induction false} OccupiedButUseless(q: Query, d: Domain)
    requires ValidConfig(q.cfg) && q.snap.domains == map[d.id := d] && d.hasOtherHero && Reclaimable(d) == 0
    requires Units(q.hero) != []
    ensures SelectSpec(q).AllFeasibleHeroOccupied?
    ensures SelectSpec(q.(snap := Snapshot(q.snap.level, map[d.id := d.(hasOtherHero := false)]))).NoFeasibleDomains?
  {
    var free := q.(snap := Snapshot(q.snap.level, map[d.id := d.(hasOtherHero := false)]));
    NoneEligible(q);
    NoneEligible(free);
    var _ := SelectMeaning(q);
    var _ := SelectMeaning(free);
    assert d.id in q.snap.domains;
  }

  lemma {:induction false} NoneEligible(q: Query)
    requires ValidConfig(q.cfg) && forall id :: id in q.snap.domains ==> Reclaimable(q.snap.domains[id]) == 0
    ensures Units(q.hero) != [] ==> !SelectSpec(q).Planned?
  {
    if Units(q.hero) != [] {
      forall g ensures GroupPlan(q, g).None? {
        EmptyGroupHasNoCands(q, g);
        NoPlanWithoutCands(q, g);
      }
      var _ := SelectMeaning(q);
    }
  }

  // ---- completeness ----

  /** Each smaller chunk size divides every larger one. */
  ghost predicate DivisorChain(sizes: seq<nat>) {
    forall i, j :: 0 <= i < |sizes| && 0 <= j < |sizes| && sizes[i] <= sizes[j] ==>
      sizes[i] > 0 && sizes[j] % sizes[i] == 0
  }

  lemma {:induction false} SortedChain(sizes: seq<nat>)
    requires DivisorChain(sizes)
    ensures Chain(SortDesc(sizes))
  {
    var s := SortDesc(sizes);
    SortDescSorts(sizes);
    forall i, j | 0 <= i <= j < |s| ensures s[j] > 0 && s[i] % s[j] == 0 {
      assert s[i] in multiset(s) && s[j] in multiset(s);
      assert s[i] in sizes && s[j] in sizes;
    }
  }

  /**
   For divisor-chain demand a drain plan exists if and only if the units can be assigned whole to the
   drainable domains of some single group, whatever the costs are.
   */
  lemma {:induction false} SelectComplete(q: Query)
    requires ValidConfig(q.cfg) && DivisorChain(Expand(q.hero.demand)) && Units(q.hero) != []
    ensures SelectSpec(q).Planned? <==>
      exists g, assign :: IsAssignment(Caps(Cands(q, g)), Units(q.hero), assign)
  {
    SortedChain(Expand(q.hero.demand));
    var _ := SelectMeaning(q);
    forall g
      ensures GroupPlan(q, g).Some? <==> exists assign :: IsAssignment(Caps(Cands(q, g)), Units(q.hero), assign)
    {
      GreedyComplete(Cands(q, g), Units(q.hero), q.hero, q.cfg);
    }
  }

  // ---- soundness ----

  /** The GPUs put into domain id when unit i is given to domain home[i]. */
  ghost function LoadAt(units: seq<nat>, home: seq<string>, id: string): nat
    requires |home| == |units|
  {
    if units == [] then 0 else (if home[0] == id then units[0] else 0) + LoadAt(units[1..], home[1..], id)
  }

  lemma {:induction false} LoadByName(cs: seq<Cand>, units: seq<nat>, assign: seq<nat>, home: seq<string>, j: nat)
    requires |assign| == |units| == |home| && j < |cs| && DistinctIds(Fresh(cs))
    requires forall i :: 0 <= i < |assign| ==> assign[i] < |cs| && home[i] == cs[assign[i]].domain.id
    ensures LoadAt(units, home, cs[j].domain.id) == Load(units, assign, j)
  {
    if units == [] {
    } else {
      LoadByName(cs, units[1..], assign[1..], home[1..], j);
      var a := assign[0];
      assert Fresh(cs)[a].cand == cs[a] && Fresh(cs)[j].cand == cs[j];
      assert a != j ==> cs[a].domain.id != cs[j].domain.id;
    }
  }

  ghost function SelectedIds(slots: seq<Slot>): set<string> {
    set s | s in slots && s.selected :: s.cand.domain.id
  }

  lemma {:induction false} PlanIdsSnoc(cs: seq<Cand>, c: Cand)
    ensures Elements(PlanIds(cs + [c])) == Elements(PlanIds(cs)) + {c.domain.id}
  {
    assert (cs + [c])[..|cs|] == cs;
    assert forall x :: x in PlanIds(cs) + [c.domain.id] <==> x in PlanIds(cs) || x == c.domain.id;
  }

  lemma {:induction false} SelectedIdsSnoc(slots: seq<Slot>, s: Slot)
    ensures SelectedIds(slots + [s]) == SelectedIds(slots) + (if s.selected then {s.cand.domain.id} else {})
  {
    assert forall x :: x in slots + [s] <==> x in slots || x == s;
  }

  lemma {:induction false} OpenedIds(slots: seq<Slot>)
    ensures Elements(PlanIds(Opened(slots))) == SelectedIds(slots)
  {
    if slots == [] {
    } else {
      var init, last := slots[..|slots| - 1], slots[|slots| - 1];
      OpenedIds(init);
      SelectedIdsSnoc(init, last);
      assert slots == init + [last];
      if last.selected {
        PlanIdsSnoc(Opened(init), last.cand);
      }
    }
  }

  ghost function NodesAt(s: Snapshot, ids: seq<string>): seq<string>
    requires forall id :: id in ids ==> id in s.domains
  {
    if ids == [] then [] else NodesAt(s, ids[..|ids| - 1]) + s.domains[ids[|ids| - 1]].nodes
  }

  ghost function VictimKeysAt(q: Query, ids: seq<string>): set<Name>
    requires forall id :: id in ids ==> id in q.snap.domains
  {
    set id, key | id in ids && key in Keys(VictimsOf(q, q.snap.domains[id])) :: key
  }

  lemma {:induction false} AddVictimsFacts(q: Query, acc: seq<VictimWorkload>, vs: seq<VictimWorkload>)
    requires DistinctKeys(acc) && Joined(acc, q.workloads, q.now) && Joined(vs, q.workloads, q.now)
    ensures var r := AddVictims(acc, vs);
      Keys(r) == Keys(acc) + Keys(vs) && DistinctKeys(r) && Joined(r, q.workloads, q.now)
  {
    if vs == [] {
    } else {
      var init, v := vs[..|vs| - 1], vs[|vs| - 1];
      AddVictimsFacts(q, acc, init);
      assert vs == init + [v];
      KeysSnoc(init, v);
      var rest := AddVictims(acc, init);
      if v.key !in Keys(rest) {
        AppendKeyed(rest, v, q.workloads, q.now);
      }
    }
  }

  ghost predicate FromSnapshot(q: Query, cs: seq<Cand>)
    requires ValidConfig(q.cfg)
  {
    forall i :: 0 <= i < |cs| ==>
      && cs[i].domain.id in q.snap.domains
      && cs[i].domain == q.snap.domains[cs[i].domain.id]
      && cs[i].victims == VictimsOf(q, cs[i].domain)
  }

  lemma {:induction false} PlanIdsAt(cs: seq<Cand>)
    ensures |PlanIds(cs)| == |cs| && forall i :: 0 <= i < |cs| ==> PlanIds(cs)[i] == cs[i].domain.id
  {
    if cs == [] {
    } else {
      PlanIdsAt(cs[..|cs| - 1]);
    }
  }

  lemma {:induction false} PlanPlaces(q: Query, cs: seq<Cand>)
    requires ValidConfig(q.cfg) && FromSnapshot(q, cs)
    ensures |PlanIds(cs)| == |cs| && forall i :: 0 <= i < |cs| ==> PlanIds(cs)[i] == cs[i].domain.id
    ensures forall id :: id in PlanIds(cs) ==> id in q.snap.domains
    ensures PlanNodes(cs) == NodesAt(q.snap, PlanIds(cs))
  {
    PlanIdsAt(cs);
    if cs != [] {
      var n := |cs| - 1;
      PlanPlaces(q, cs[..n]);
      assert PlanIds(cs)[..n] == PlanIds(cs[..n]);
      assert PlanIds(cs)[n] == cs[n].domain.id;
    }
  }

  lemma {:induction false} VictimKeysSnoc(q: Query, ids: seq<string>, id: string)
    requires id in q.snap.domains && forall x :: x in ids ==> x in q.snap.domains
    ensures VictimKeysAt(q, ids + [id]) == VictimKeysAt(q, ids) + Keys(VictimsOf(q, q.snap.domains[id]))
  {
    assert forall x :: x in ids + [id] <==> x in ids || x == id;
  }

  lemma {:induction false} PlanEvicts(q: Query, cs: seq<Cand>)
    requires ValidConfig(q.cfg) && FromSnapshot(q, cs)
    requires forall id :: id in PlanIds(cs) ==> id in q.snap.domains
    ensures Keys(PlanVictims(cs)) == VictimKeysAt(q, PlanIds(cs))
    ensures DistinctKeys(PlanVictims(cs)) && Joined(PlanVictims(cs), q.workloads, q.now)
  {
    if cs == [] {
    } else {
      var init, last := cs[..|cs| - 1], cs[|cs| - 1];
      PlanPlaces(q, init);
      PlanEvicts(q, init);
      VictimKeysSnoc(q, PlanIds(init), last.domain.id);
      GroupVictimsMeaning(last.domain.victims, q.workloads, q.now);
      AddVictimsFacts(q, PlanVictims(init), last.victims);
    }
  }

  ghost predicate HasCand(slots: seq<Slot>, c: Cand) {
    exists j :: 0 <= j < |slots| && slots[j].cand == c
  }

  lemma {:induction false} OpenedSource(slots: seq<Slot>)
    ensures forall i :: 0 <= i < |Opened(slots)| ==> HasCand(slots, Opened(slots)[i])
  {
    if slots == [] {
    } else {
      var n := |slots| - 1;
      OpenedSource(slots[..n]);
      forall c | HasCand(slots[..n], c) ensures HasCand(slots, c) {
        var j :| 0 <= j < n && slots[..n][j].cand == c;
        assert slots[j].cand == c;
      }
      assert HasCand(slots, slots[n].cand);
    }
  }

  lemma {:induction false} OpenedDistinct(slots: seq<Slot>)
    requires DistinctIds(slots)
    ensures forall i, j :: 0 <= i < j < |Opened(slots)| ==> Opened(slots)[i].domain.id != Opened(slots)[j].domain.id
  {
    if slots == [] {
    } else {
      var n := |slots| - 1;
      OpenedDistinct(slots[..n]);
      OpenedSource(slots[..n]);
      forall i | 0 <= i < |Opened(slots[..n])|
        ensures Opened(slots[..n])[i].domain.id != slots[n].cand.domain.id
      {
        assert HasCand(slots[..n], Opened(slots[..n])[i]);
        var j :| 0 <= j < n && slots[..n][j].cand == Opened(slots[..n])[i];
        assert slots[j] == slots[..n][j];
      }
    }
  }

  lemma {:induction false} OpenedFromSnapshot(q: Query, group: string, slots: seq<Slot>)
    requires ValidConfig(q.cfg) && forall i :: 0 <= i < |slots| ==> CandOf(q, group, slots[i].cand)
    requires DistinctIds(slots)
    ensures FromSnapshot(q, Opened(slots))
    ensures forall i :: 0 <= i < |Opened(slots)| ==> CandOf(q, group, Opened(slots)[i])
    ensures forall i, j :: 0 <= i < j < |Opened(slots)| ==> Opened(slots)[i].domain.id != Opened(slots)[j].domain.id
  {
    OpenedSource(slots);
    OpenedDistinct(slots);
    forall i | 0 <= i < |Opened(slots)| ensures CandOf(q, group, Opened(slots)[i]) {
      assert HasCand(slots, Opened(slots)[i]);
    }
  }

  /** Every unit is given whole to a planned domain within what its drain frees, and each planned domain is used. */
  ghost predicate CoversUnits(q: Query, p: DrainPlan, home: seq<string>)
    requires forall id :: id in p.domainIds ==> id in q.snap.domains
  {
    && |home| == |Units(q.hero)|
    && (forall id :: id in home <==> id in p.domainIds)
    && (forall id :: id in p.domainIds ==> LoadAt(Units(q.hero), home, id) <= Reclaimable(q.snap.domains[id]))
  }

  ghost predicate GoodDomain(q: Query, group: string, id: string) {
    id in q.snap.domains && q.snap.domains[id].group == group && Eligible(q, q.snap.domains[id])
  }

  /** The planned domains are distinct, drainable and of one group. */
  ghost predicate InGroup(q: Query, p: DrainPlan, group: string) {
    Distinct(p.domainIds) && forall id :: id in p.domainIds ==> GoodDomain(q, group, id)
  }

  ghost predicate EvictsExactly(q: Query, p: DrainPlan)
    requires ValidConfig(q.cfg) && forall id :: id in p.domainIds ==> id in q.snap.domains
  {
    && p.nodes == NodesAt(q.snap, p.domainIds)
    && Keys(p.victims) == VictimKeysAt(q, p.domainIds)
    && DistinctKeys(p.victims) && Joined(p.victims, q.workloads, q.now)
    && BelowHero(p.victims, q.hero.priority)
    && p.totalCost == TotalCost(p.victims, q.hero, q.cfg)
  }

  lemma {:induction false} DistinctOpened(cs: seq<Cand>, ids: seq<string>)
    requires |ids| == |cs| && forall i :: 0 <= i < |cs| ==> ids[i] == cs[i].domain.id
    requires forall i, j :: 0 <= i < j < |cs| ==> cs[i].domain.id != cs[j].domain.id
    ensures Distinct(ids)
  {
  }

  lemma {:induction false} PlannedDomains(q: Query, group: string, slots: seq<Slot>)
    requires ValidConfig(q.cfg) && forall i :: 0 <= i < |slots| ==> CandOf(q, group, slots[i].cand)
    requires DistinctIds(slots)
    ensures var p := PlanFor(Opened(slots), q.hero, q.cfg);
      InGroup(q, p, group) && EvictsExactly(q, p)
  {
    var cs := Opened(slots);
    var p := PlanFor(cs, q.hero, q.cfg);
    OpenedFromSnapshot(q, group, slots);
    PlanPlaces(q, cs);
    PlanEvicts(q, cs);
    DistinctOpened(cs, p.domainIds);
    forall i | 0 <= i < |cs| ensures GoodDomain(q, group, p.domainIds[i]) {
      assert CandOf(q, group, cs[i]);
    }
    PlannedBelow(q, p);
  }

  lemma {:induction false} LoadsWithin(q: Query, group: string, cs: seq<Cand>, slots: seq<Slot>, units: seq<nat>,
      assign: seq<nat>, home: seq<string>)
    requires ValidConfig(q.cfg) && |assign| == |units| == |home| && |slots| == |cs| && DistinctIds(Fresh(cs))
    requires forall i :: 0 <= i < |cs| ==> CandOf(q, group, cs[i]) && slots[i].cand == cs[i]
    requires forall i :: 0 <= i < |assign| ==> assign[i] < |cs| && home[i] == cs[assign[i]].domain.id
    requires forall j :: 0 <= j < |cs| ==> Load(units, assign, j) <= Capacity(cs[j])
    ensures forall id :: id in SelectedIds(slots) ==>
      id in q.snap.domains && LoadAt(units, home, id) <= Reclaimable(q.snap.domains[id])
  {
    forall id | id in SelectedIds(slots)
      ensures id in q.snap.domains && LoadAt(units, home, id) <= Reclaimable(q.snap.domains[id])
    {
      var j :| 0 <= j < |slots| && slots[j].selected && slots[j].cand.domain.id == id;
      assert CandOf(q, group, cs[j]);
      LoadByName(cs, units, assign, home, j);
    }
  }

  lemma {:induction false} GroupPlanSound(q: Query, group: string) returns (home: seq<string>)
    requires ValidConfig(q.cfg) && KeyedById(q.snap) && GroupPlan(q, group).Some?
    ensures var p := GroupPlan(q, group).value;
      InGroup(q, p, group) && CoversUnits(q, p, home) && EvictsExactly(q, p)
  {
    var cs, units := Cands(q, group), Units(q.hero);
    var slots, assign := PackUnits(Fresh(cs), units).value, Choices(Fresh(cs), units);
    CandsFacts(q, group);
    PackUnitsSound(Fresh(cs), units);
    PlannedDomains(q, group, slots);
    home := seq(|units|, i requires 0 <= i < |units| => cs[assign[i]].domain.id);
    UsedDomains(slots, assign, home);
    OpenedIds(slots);
    LoadsWithin(q, group, cs, slots, units, assign, home);
    SameElements(home, PlanIds(Opened(slots)));
    InElements(PlanIds(Opened(slots)));
  }

  lemma {:induction false} InElements(s: seq<string>)
    ensures forall id :: id in s <==> id in Elements(s)
  {
  }

  lemma {:induction false} SameElements(s: seq<string>, t: seq<string>)
    requires Elements(s) == Elements(t)
    ensures forall id :: id in s <==> id in t
  {
    InElements(s);
    InElements(t);
  }

  lemma {:induction false} UsedDomains(slots: seq<Slot>, assign: seq<nat>, home: seq<string>)
    requires |home| == |assign|
    requires forall i :: 0 <= i < |slots| ==> (slots[i].selected <==> i in assign)
    requires forall i :: 0 <= i < |assign| ==> assign[i] < |slots| && home[i] == slots[assign[i]].cand.domain.id
    ensures Elements(home) == SelectedIds(slots)
  {
    forall id | id in Elements(home) ensures id in SelectedIds(slots) {
      var i :| 0 <= i < |home| && home[i] == id;
      assert slots[assign[i]] in slots;
    }
    forall id | id in SelectedIds(slots) ensures id in Elements(home) {
      var j :| 0 <= j < |slots| && slots[j].selected && slots[j].cand.domain.id == id;
      var i :| 0 <= i < |assign| && assign[i] == j;
      assert home[i] in home;
    }
  }

  lemma {:induction false} PlannedBelow(q: Query, p: DrainPlan)
    requires forall id :: id in p.domainIds ==> id in q.snap.domains && Eligible(q, q.snap.domains[id])
    requires Keys(p.victims) == VictimKeysAt(q, p.domainIds) && Joined(p.victims, q.workloads, q.now)
    ensures BelowHero(p.victims, q.hero.priority)
  {
    forall i | 0 <= i < |p.victims| ensures p.victims[i].priority < q.hero.priority {
      var v := p.victims[i];
      assert v.key in Keys(p.victims);
      var id :| id in p.domainIds && v.key in Keys(VictimsOf(q, q.snap.domains[id]));
      var vs := VictimsOf(q, q.snap.domains[id]);
      GroupVictimsMeaning(q.snap.domains[id].victims, q.workloads, q.now);
      var k :| 0 <= k < |vs| && vs[k].key == v.key;
      assert vs[k] in vs && vs[k] == v;
    }
  }

  /** A returned plan is sound end to end and no other packable group is cheaper. */
  lemma {:induction false} PlanSound(q: Query) returns (group: string, home: seq<string>)
    requires ValidConfig(q.cfg) && KeyedById(q.snap) && SelectSpec(q).Planned?
    ensures var p := SelectSpec(q).plan;
      && InGroup(q, p, group) && CoversUnits(q, p, home) && EvictsExactly(q, p)
      && p.domainIds != []
      && (forall g :: GroupPlan(q, g).Some? ==> p.totalCost <= GroupPlan(q, g).value.totalCost)
  {
    group := SelectMeaning(q);
    home := GroupPlanSound(q, group);
    assert home[0] in home;
  }

  /** The units are the hero's slices, whatever was merged and sorted in between. */
  lemma {:induction false} UnitsAreSlices(hero: HeroSpec, podSets: seq<PodSet>, gpu: string)
    requires multiset(Expand(hero.demand)) == multiset(Slices(podSets, gpu))
    ensures multiset(Units(hero)) == multiset(Slices(podSets, gpu)) && Descending(Units(hero))
  {
    SortDescSorts(Expand(hero.demand));
  }
}
