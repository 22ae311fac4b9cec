/** An input on which the greedy plan is not the cheapest. */
module Overpaying {
  import opened Base
  import opened Kube
  import opened Snapshots
  import opened Heroes
  import opened Selection
  import opened Plans
  import opened Progress
  import opened Optimality

  /** A small domain that is cheaper alone is opened first, and then the large one as well. */
  lemma {:induction false} GreedyOpensBoth(a: Cand, b: Cand)
    requires Capacity(a) == 1 && Capacity(b) == 2 && 0.0 < a.cost < b.cost
    ensures PackUnits(Fresh([a, b]), [1, 1]) == Some([Slot(a, 0, true), Slot(b, 1, true)])
  {
    var s0 := Fresh([a, b]);
    assert BestSlot(s0, 1, 0) == None && BestSlot(s0, 1, 1) == Some(0);
    assert Choose(s0, 1) == Some(0);
    var s1 := Place(s0, 0, 1);
    assert s1 == [Slot(a, 0, true), Slot(b, 2, false)];
    assert BestSlot(s1, 1, 0) == None && BestSlot(s1, 1, 1) == None;
    assert Choose(s1, 1) == Some(1);
    var s2 := Place(s1, 1, 1);
    assert s2 == [Slot(a, 0, true), Slot(b, 1, true)];
    assert [1, 1][1..] == [1] && [1][1..] == [];
    assert PackUnits(s2, []) == Some(s2);
    assert PackUnits(s1, [1]) == Some(s2);
  }

  function RunningWorkload(key: Name, priority: int): Workload {
    Workload(key, None, None, Some(priority), false, false, false, false, "", 0, 0, [], map[], None)
  }

  function OccupiedDomain(id: string, gpus: nat, owner: Name): Domain {
    Domain(id, "", [id], gpus, 0, [Victim(owner, id, owner, 1)], false)
  }

  const LOW := Name("team", "low")
  const MID := Name("team", "mid")

  /**
   Two one-GPU units to place; domain "a" has one GPU and a victim of priority 1, domain "b" two GPUs and a
   victim of priority 2, and only priorities weigh in the cost.
   */
  ghost predicate OverpaidShape(q: Query) {
    && ValidConfig(q.cfg) && q.cfg.weightPriority == 1.0 && q.cfg.weightPodCount == 0.0 && q.cfg.weightRuntime == 0.0
    && q.cfg.crossQueue == 1.0
    && q.hero.priority == 10 && q.hero.demand == [Chunk(1, 2)] && q.now == 0
    && q.snap.domains == map["a" := OccupiedDomain("a", 1, LOW), "b" := OccupiedDomain("b", 2, MID)]
    && q.workloads == map[LOW := RunningWorkload(LOW, 1), MID := RunningWorkload(MID, 2)]
  }

  lemma {:induction false} PriorityCost(v: VictimWorkload, hero: HeroSpec, cfg: Config)
    requires ValidConfig(cfg) && cfg.weightPriority == 1.0 && cfg.weightPodCount == 0.0 && cfg.weightRuntime == 0.0
    requires cfg.crossQueue == 1.0 && 0 < v.priority < hero.priority
    ensures TotalCost([v], hero, cfg) == v.priority as real / hero.priority as real
  {
    ShareBounds(v.priority as real, hero.priority as real);
    DisruptionIs(v, hero, cfg, PriorityShare(v, hero), 0.0, 0.0);
    assert [v][..0] == [];
    assert TotalCost([], hero, cfg) == 0.0;
  }

  lemma {:induction false} OneVictim(v: Victim, workloads: map<Name, Workload>, now: int)
    requires v.workload in workloads
    ensures GroupVictimsSpec([v], workloads, now) == [Join(v.workload, workloads[v.workload], now)]
  {
    assert [v][..0] == [];
    assert GroupVictimsSpec([], workloads, now) == [] && PodOwners([]) == {};
  }

  function OverpaidVictim(owner: Name, priority: int): VictimWorkload {
    VictimWorkload(owner, "", priority, 0, 0)
  }

  function OverpaidCand(id: string, gpus: nat, owner: Name, priority: int): Cand {
    Cand(OccupiedDomain(id, gpus, owner), [OverpaidVictim(owner, priority)], priority as real / 10.0)
  }

  lemma {:induction false} OverpaidDomain(q: Query, id: string, gpus: nat, owner: Name, priority: int)
    requires OverpaidShape(q) && gpus > 0 && 0 < priority < 10
    requires owner in q.workloads && q.workloads[owner] == RunningWorkload(owner, priority)
    ensures VictimsOf(q, OccupiedDomain(id, gpus, owner)) == [OverpaidVictim(owner, priority)]
    ensures Eligible(q, OccupiedDomain(id, gpus, owner))
    ensures CandFor(q, OccupiedDomain(id, gpus, owner)) == OverpaidCand(id, gpus, owner, priority)
  {
    OneVictim(Victim(owner, id, owner, 1), q.workloads, q.now);
    assert Join(owner, RunningWorkload(owner, priority), 0) == OverpaidVictim(owner, priority);
    PriorityCost(OverpaidVictim(owner, priority), q.hero, q.cfg);
  }

  lemma {:induction false} OverpaidIds(q: Query)
    requires OverpaidShape(q)
    ensures SortedIds(q) == ["a", "b"]
  {
    assert "a"[0] < "b"[0];
    assert Elements(["a", "b"]) == {"a", "b"};
    assert q.snap.domains.Keys == {"a", "b"};
    SortedListingUnique({"a", "b"}, ["a", "b"]);
  }

  lemma {:induction false} OverpaidCands(q: Query)
    requires OverpaidShape(q)
    ensures Cands(q, "") == [OverpaidCand("a", 1, LOW, 1), OverpaidCand("b", 2, MID, 2)]
  {
    OverpaidIds(q);
    assert LOW != MID;
    OverpaidDomain(q, "a", 1, LOW, 1);
    OverpaidDomain(q, "b", 2, MID, 2);
    CandsOfTwo(q, "a", "b");
  }

  lemma {:induction false} CandsOfTwo(q: Query, a: string, b: string)
    requires ValidConfig(q.cfg) && a in q.snap.domains && b in q.snap.domains && SortedIds(q) == [a, b]
    requires forall id :: id in {a, b} ==> Eligible(q, q.snap.domains[id]) && q.snap.domains[id].group == ""
    ensures Cands(q, "") == [CandFor(q, q.snap.domains[a]), CandFor(q, q.snap.domains[b])]
  {
    assert [a] + [b] == [a, b] && [] + [a] == [a];
    GroupCandsSnoc(q, [], a, "");
    GroupCandsSnoc(q, [a], b, "");
  }

  lemma {:induction false} OverpaidUnits(q: Query)
    requires OverpaidShape(q)
    ensures Units(q.hero) == [1, 1]
  {
    var chunks := [Chunk(1, 2)];
    assert chunks[..0] == [];
    assert Expand(chunks) == [] + Repeat(1, 2);
    assert Expand(chunks) == [1, 1];
    assert [1, 1][1..] == [1] && [1][1..] == [];
    assert SortDesc([1]) == [1];
  }

  lemma {:induction false} TwoVictimsCost(q: Query, a: Cand, b: Cand)
    requires ValidConfig(q.cfg) && Keys(a.victims) !! Keys(b.victims) && |a.victims| == |b.victims| == 1
    ensures TotalCost(PlanVictims([a, b]), q.hero, q.cfg)
      == TotalCost(a.victims, q.hero, q.cfg) + TotalCost(b.victims, q.hero, q.cfg)
  {
    var v, w := a.victims[0], b.victims[0];
    assert a.victims == [v] && b.victims == [w];
    assert v.key in Keys(a.victims) && w.key in Keys(b.victims);
    assert [a, b][..1] == [a] && [a][..0] == [] && [v][..0] == [] && [w][..0] == [];
    assert AddVictims([], [v]) == [v] by {
      assert Keys([]) == {};
    }
    assert PlanVictims([a]) == [v];
    assert AddVictims([v], [w]) == [v, w];
    TotalCostConcat([v], [w], q.hero, q.cfg);
    assert [v] + [w] == [v, w];
  }

  lemma {:induction false} OpenedBoth(a: Cand, b: Cand, x: nat, y: nat)
    ensures Opened([Slot(a, x, true), Slot(b, y, true)]) == [a, b]
  {
    var s := [Slot(a, x, true), Slot(b, y, true)];
    assert s[..1] == [s[0]] && s[..1][..0] == [];
    assert Opened([]) == [] && Opened(s[..1]) == [a];
  }

  lemma {:induction false} OverpaidGroup(q: Query)
    requires OverpaidShape(q)
    ensures GroupPlan(q, "").Some? && GroupPlan(q, "").value.totalCost == 3.0 / 10.0
  {
    var a, b := OverpaidCand("a", 1, LOW, 1), OverpaidCand("b", 2, MID, 2);
    OverpaidCands(q);
    OverpaidUnits(q);
    GreedyOpensBoth(a, b);
    OpenedBoth(a, b, 0, 1);
    assert LOW != MID;
    PriorityCost(OverpaidVictim(LOW, 1), q.hero, q.cfg);
    PriorityCost(OverpaidVictim(MID, 2), q.hero, q.cfg);
    TwoVictimsCost(q, a, b);
  }

  lemma {:induction false} OverpaidSelects(q: Query)
    requires OverpaidShape(q)
    ensures SelectSpec(q).Planned? && SelectSpec(q).plan.totalCost == 3.0 / 10.0
  {
    OverpaidGroup(q);
    OverpaidUnits(q);
    var group := SelectMeaning(q);
    if group != "" {
      NoOtherGroup(q, group);
    }
  }

  lemma {:induction false} NoOtherGroup(q: Query, group: string)
    requires OverpaidShape(q) && group != ""
    ensures GroupPlan(q, group).None?
  {
    OverpaidIds(q);
    forall id | id in SortedIds(q) ensures q.snap.domains[id].group == "" {
    }
    assert group !in Groups(q);
    EmptyGroupHasNoCands(q, group);
    OverpaidUnits(q);
    NoPlanWithoutCands(q, group);
  }

  lemma {:induction false} OverpaidEvicts(q: Query)
    requires OverpaidShape(q)
    ensures EvictsExactly(q, DrainPlan(["b"], ["b"], 2.0 / 10.0, [OverpaidVictim(MID, 2)]))
  {
    var v := OverpaidVictim(MID, 2);
    assert LOW != MID;
    OverpaidDomain(q, "b", 2, MID, 2);
    PriorityCost(v, q.hero, q.cfg);
    assert ["b"][..0] == [] && NodesAt(q.snap, []) == [];
    assert Keys([v]) == {MID};
    assert [] + ["b"] == ["b"] && VictimKeysAt(q, []) == {};
    VictimKeysSnoc(q, [], "b");
  }

  lemma {:induction false} BothUnitsInB()
    ensures LoadAt([1, 1], ["b", "b"], "b") == 2
  {
    assert ["b", "b"][1..] == ["b"] && ["b"][1..] == [] && [1, 1][1..] == [1] && [1][1..] == [];
    assert LoadAt([1], ["b"], "b") == 1;
  }

  lemma {:induction false} OverpaidGood(q: Query)
    requires OverpaidShape(q)
    ensures GoodDomain(q, "", "b") && Reclaimable(q.snap.domains["b"]) == 2
  {
    assert LOW != MID;
    OverpaidDomain(q, "b", 2, MID, 2);
  }

  lemma {:induction false} OverpaidAlternative(q: Query)
    requires OverpaidShape(q)
    ensures Alternative(q, "", DrainPlan(["b"], ["b"], 2.0 / 10.0, [OverpaidVictim(MID, 2)]), ["b", "b"])
  {
    OverpaidGood(q);
    OverpaidUnits(q);
    OverpaidEvicts(q);
    BothUnitsInB();
  }

  lemma {:induction false} OverpaidKeys(q: Query, id: string)
    requires OverpaidShape(q) && id in q.snap.domains
    ensures Keys(VictimsOf(q, q.snap.domains[id])) == (if id == "a" then {LOW} else {MID})
    ensures id in {"a", "b"} && q.snap.domains[id].id == id
  {
    assert LOW != MID;
    if id == "a" {
      OverpaidDomain(q, "a", 1, LOW, 1);
    } else {
      OverpaidDomain(q, "b", 2, MID, 2);
    }
  }

  lemma {:induction false} OverpaidSharesNothing(q: Query)
    requires OverpaidShape(q)
    ensures KeyedById(q.snap) && NoSharedVictims(q, "")
  {
    assert LOW != MID;
    forall id | id in q.snap.domains
      ensures Keys(VictimsOf(q, q.snap.domains[id])) == (if id == "a" then {LOW} else {MID})
      ensures id in {"a", "b"} && q.snap.domains[id].id == id
    {
      OverpaidKeys(q, id);
    }
  }

  function OverpaidQuery(): Query {
    Query(
      Snapshot("rack", map["a" := OccupiedDomain("a", 1, LOW), "b" := OccupiedDomain("b", 2, MID)]),
      HeroSpec(Name("team", "hero"), 10, 1, "heroes", [Chunk(1, 2)]),
      map[LOW := RunningWorkload(LOW, 1), MID := RunningWorkload(MID, 2)],
      Config("drain", "gpu", 1.0, 0.0, 0.0, 1, 1.0, map[], 1, 1, false),
      0)
  }

  /** Greed can overpay: the plan drains both domains for 0.3 although the second alone would do for 0.2. */
  lemma {:induction false} GreedyOverpays() returns (q: Query, p: DrainPlan, home: seq<string>)
    ensures ValidConfig(q.cfg) && KeyedById(q.snap) && NoSharedVictims(q, "") && Alternative(q, "", p, home)
    ensures SelectSpec(q).Planned? && p.totalCost < SelectSpec(q).plan.totalCost
  {
    q, p, home := OverpaidQuery(), DrainPlan(["b"], ["b"], 2.0 / 10.0, [OverpaidVictim(MID, 2)]), ["b", "b"];
    OverpaidSharesNothing(q);
    OverpaidAlternative(q);
    OverpaidSelects(q);
  }
}
