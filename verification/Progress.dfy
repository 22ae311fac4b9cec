/**
 Two runs of the planner compared: before and after some of the drain's own work is done. A replanned
 drain of one chunk size never grows, and a divisor-chain drain that had a plan still has one.
 */
module Progress {
  import opened Base
  import opened Kube
  import opened Snapshots
  import opened Heroes
  import opened Selection
  import opened Packing
  import opened Plans

  /** Same domains, capacities, groups, nodes and hero occupancy; only the victims may differ. */
  ghost predicate SameButVictims(a: Domain, b: Domain) {
    a == b.(victims := a.victims)
  }

  ghost predicate SameShape(s: Snapshot, t: Snapshot) {
    && s.domains.Keys == t.domains.Keys
    && forall id :: id in s.domains ==> SameButVictims(s.domains[id], t.domains[id])
  }

  // ---- a plan survives ----

  /** Every domain that could be drained before can still be drained. */
  ghost predicate EligibilityKept(q: Query, q2: Query) {
    && SameShape(q.snap, q2.snap)
    && forall id :: id in q.snap.domains && Eligible(q, q.snap.domains[id]) ==> Eligible(q2, q2.snap.domains[id])
  }

  lemma {:induction false} RoomWith(cs: seq<Cand>, c: Cand, u: nat)
    requires u > 0
    ensures Room(Caps(cs + [c]), u) == Room(Caps(cs), u) + Capacity(c) / u
  {
    assert Caps(cs + [c]) == Caps(cs) + [Capacity(c)];
    assert Caps(cs + [c])[..|cs|] == Caps(cs);
  }

  ghost function RoomIn(q: Query, ids: seq<string>, group: string, u: nat): nat
    requires ValidConfig(q.cfg) && u > 0 && forall x :: x in ids ==> x in q.snap.domains
  {
    Room(Caps(GroupCands(q, ids, group)), u)
  }

  /** What one domain adds to its group's room. */
  ghost function Gain(q: Query, d: Domain, group: string, u: nat): nat
    requires u > 0
  {
    if Eligible(q, d) && d.group == group then Reclaimable(d) / u else 0
  }

  lemma {:induction false} RoomStep(q: Query, ids: seq<string>, id: string, group: string, u: nat)
    requires ValidConfig(q.cfg) && id in q.snap.domains && u > 0 && forall x :: x in ids ==> x in q.snap.domains
    ensures var d := q.snap.domains[id];
      RoomIn(q, ids + [id], group, u)
        == RoomIn(q, ids, group, u) + Gain(q, d, group, u)
  {
    var d, cs := q.snap.domains[id], GroupCands(q, ids, group);
    assert (ids + [id])[..|ids|] == ids && (ids + [id])[|ids|] == id;
    if Eligible(q, d) && d.group == group {
      RoomWith(cs, CandFor(q, d), u);
    }
  }

  lemma {:induction false} RoomGrows(q: Query, q2: Query, ids: seq<string>, group: string, u: nat)
    requires ValidConfig(q.cfg) && ValidConfig(q2.cfg) && EligibilityKept(q, q2) && u > 0
    requires forall id :: id in ids ==> id in q.snap.domains
    ensures RoomIn(q, ids, group, u) <= RoomIn(q2, ids, group, u)
  {
    if ids == [] {
    } else {
      var n := |ids| - 1;
      RoomGrows(q, q2, ids[..n], group, u);
      assert ids == ids[..n] + [ids[n]];
      RoomStep(q, ids[..n], ids[n], group, u);
      RoomStep(q2, ids[..n], ids[n], group, u);
      GainKept(q, q2, ids[n], group, u);
    }
  }

  lemma {:induction false} GainKept(q: Query, q2: Query, id: string, group: string, u: nat)
    requires EligibilityKept(q, q2) && u > 0 && id in q.snap.domains
    ensures Gain(q, q.snap.domains[id], group, u) <= Gain(q2, q2.snap.domains[id], group, u)
  {
    var d, d2 := q.snap.domains[id], q2.snap.domains[id];
    assert SameButVictims(d, d2);
    assert Reclaimable(d) == Reclaimable(d2) && d.group == d2.group;
  }

  lemma {:induction false} EnoughKept(q: Query, q2: Query, group: string, units: seq<nat>)
    requires ValidConfig(q.cfg) && ValidConfig(q2.cfg) && EligibilityKept(q, q2)
    requires Enough(Caps(Cands(q, group)), units)
    ensures Enough(Caps(Cands(q2, group)), units)
  {
    assert SortedIds(q2) == SortedIds(q);
    forall k | 0 <= k < |units| && units[k] > 0
      ensures Sum(units[..k + 1]) <= Room(Caps(Cands(q2, group)), units[k]) * units[k]
    {
      RoomGrows(q, q2, SortedIds(q), group, units[k]);
      TimesMonotone(Room(Caps(Cands(q, group)), units[k]), Room(Caps(Cands(q2, group)), units[k]), units[k]);
    }
  }

  /** A drain with a plan still has one as long as no drainable domain stops being drainable. */
  lemma {:induction false} PlanSurvives(q: Query, q2: Query)
    requires ValidConfig(q.cfg) && ValidConfig(q2.cfg) && EligibilityKept(q, q2)
    requires q2.hero.demand == q.hero.demand && DivisorChain(Expand(q.hero.demand))
    requires SelectSpec(q).Planned?
    ensures SelectSpec(q2).Planned?
  {
    var units := Units(q.hero);
    SortedChain(Expand(q.hero.demand));
    var group := SelectMeaning(q);
    PacksIffRoom(Cands(q, group), units);
    EnoughKept(q, q2, group, units);
    PacksIffRoom(Cands(q2, group), units);
    assert GroupPlan(q2, group).Some?;
    var _ := SelectMeaning(q2);
  }

  lemma {:induction false} TimesMonotone(a: nat, b: nat, u: nat)
    requires a <= b
    ensures a * u <= b * u
  {
  }

  // ---- a replanned drain never grows ----

  /** The plan's domains may have lost victims; nothing else changed. */
  ghost predicate OnlyPlanProgressed(q: Query, q2: Query, ids: seq<string>) {
    && SameShape(q.snap, q2.snap)
    && q2.hero == q.hero && q2.workloads == q.workloads && q2.cfg == q.cfg && q2.now == q.now
    && forall id :: id in q.snap.domains ==>
        if id in ids then PodOwners(q2.snap.domains[id].victims) <= PodOwners(q.snap.domains[id].victims)
        else q2.snap.domains[id].victims == q.snap.domains[id].victims
  }

  lemma {:induction false} TotalCostConcat(xs: seq<VictimWorkload>, ys: seq<VictimWorkload>, hero: HeroSpec,
      cfg: Config)
    requires ValidConfig(cfg)
    ensures TotalCost(xs + ys, hero, cfg) == TotalCost(xs, hero, cfg) + TotalCost(ys, hero, cfg)
  {
    if ys == [] {
      assert xs + ys == xs;
    } else {
      assert (xs + ys)[..|xs + ys| - 1] == xs + ys[..|ys| - 1];
      TotalCostConcat(xs, ys[..|ys| - 1], hero, cfg);
    }
  }

  lemma {:induction false} TotalCostRemove(xs: seq<VictimWorkload>, k: nat, hero: HeroSpec, cfg: Config)
    requires ValidConfig(cfg) && k < |xs|
    ensures TotalCost(xs[..k] + xs[k + 1..], hero, cfg) + Cost(xs[k], hero, cfg) == TotalCost(xs, hero, cfg)
  {
    assert xs == xs[..k + 1] + xs[k + 1..];
    TotalCostConcat(xs[..k + 1], xs[k + 1..], hero, cfg);
    TotalCostConcat(xs[..k], xs[k + 1..], hero, cfg);
    assert xs[..k + 1][..k] == xs[..k];
  }

  ghost predicate ValuesWithin(b: seq<VictimWorkload>, a: seq<VictimWorkload>) {
    DistinctKeys(b) && DistinctKeys(a) && forall v :: v in b ==> v in a
  }

  /** Fewer victims cost no more. */
  lemma {:induction false} FewerVictimsCheaper(b: seq<VictimWorkload>, a: seq<VictimWorkload>, hero: HeroSpec,
      cfg: Config)
    requires ValidConfig(cfg) && ValuesWithin(b, a)
    ensures TotalCost(b, hero, cfg) <= TotalCost(a, hero, cfg)
    decreases |b|
  {
    if b == [] {
      TotalCostNonNegative(a, hero, cfg);
    } else {
      var n := |b| - 1;
      var last := b[n];
      assert last in b;
      var k :| 0 <= k < |a| && a[k] == last;
      var a' := a[..k] + a[k + 1..];
      forall v | v in b[..n] ensures v in a' {
        var i :| 0 <= i < n && b[i] == v;
        assert v in b;
        var j :| 0 <= j < |a| && a[j] == v;
        assert j != k;
        assert a'[if j < k then j else j - 1] == v;
      }
      FewerVictimsCheaper(b[..n], a', hero, cfg);
      TotalCostRemove(a, k, hero, cfg);
    }
  }

  lemma {:induction false} JoinedWithin(b: seq<VictimWorkload>, a: seq<VictimWorkload>,
      workloads: map<Name, Workload>, now: int)
    requires DistinctKeys(a) && DistinctKeys(b) && Joined(a, workloads, now) && Joined(b, workloads, now)
    requires Keys(b) <= Keys(a)
    ensures ValuesWithin(b, a)
  {
    forall v | v in b ensures v in a {
      assert v.key in Keys(b);
      var w :| w in a && w.key == v.key;
    }
  }

  lemma {:induction false} VictimsShrink(q: Query, q2: Query, d: Domain, d2: Domain)
    requires q2.workloads == q.workloads && q2.now == q.now
    requires PodOwners(d2.victims) <= PodOwners(d.victims)
    ensures ValuesWithin(VictimsOf(q2, d2), VictimsOf(q, d))
    ensures Keys(VictimsOf(q2, d2)) <= Keys(VictimsOf(q, d))
  {
    GroupVictimsMeaning(d.victims, q.workloads, q.now);
    GroupVictimsMeaning(d2.victims, q.workloads, q.now);
    JoinedWithin(VictimsOf(q2, d2), VictimsOf(q, d), q.workloads, q.now);
  }

  /** The candidates of the plan's group keep their places; the planned ones only get cheaper. */
  ghost predicate Aligned(cs: seq<Cand>, cs2: seq<Cand>, ids: seq<string>) {
    && |cs| == |cs2|
    && forall i :: 0 <= i < |cs| ==>
        && SameButVictims(cs[i].domain, cs2[i].domain)
        && Keys(cs2[i].victims) <= Keys(cs[i].victims)
        && cs2[i].cost <= cs[i].cost
        && (cs[i].domain.id !in ids ==> cs2[i].cost == cs[i].cost)
  }

  lemma {:induction false} AlignedDomain(q: Query, q2: Query, ids: seq<string>, id: string)
    requires ValidConfig(q.cfg) && OnlyPlanProgressed(q, q2, ids) && id in q.snap.domains
    requires id in ids ==> Eligible(q, q.snap.domains[id])
    requires KeyedById(q.snap)
    ensures Eligible(q2, q2.snap.domains[id]) <==> Eligible(q, q.snap.domains[id])
    ensures Aligned([CandFor(q, q.snap.domains[id])], [CandFor(q2, q2.snap.domains[id])], ids)
  {
    var d, d2 := q.snap.domains[id], q2.snap.domains[id];
    if id in ids {
      VictimsShrink(q, q2, d, d2);
      FewerVictimsCheaper(VictimsOf(q2, d2), VictimsOf(q, d), q.hero, q.cfg);
      forall i | 0 <= i < |VictimsOf(q2, d2)| ensures VictimsOf(q2, d2)[i].priority < q.hero.priority {
        assert VictimsOf(q2, d2)[i] in VictimsOf(q, d);
      }
    }
  }

  lemma {:induction false} GroupAligned(q: Query, q2: Query, all: seq<string>, group: string, ids: seq<string>)
    requires ValidConfig(q.cfg) && OnlyPlanProgressed(q, q2, ids) && KeyedById(q.snap)
    requires forall id :: id in all ==> id in q.snap.domains
    requires forall id :: id in ids ==> id in q.snap.domains && Eligible(q, q.snap.domains[id])
    ensures Aligned(GroupCands(q, all, group), GroupCands(q2, all, group), ids)
    ensures (forall id :: id in ids ==> q.snap.domains[id].group != group) ==>
      GroupCands(q2, all, group) == GroupCands(q, all, group)
  {
    if all == [] {
    } else {
      var n := |all| - 1;
      GroupAligned(q, q2, all[..n], group, ids);
      AlignedDomain(q, q2, ids, all[n]);
      if all[n] !in ids {
        assert q2.snap.domains[all[n]] == q.snap.domains[all[n]];
        SameCandidate(q, q2, q.snap.domains[all[n]]);
      }
    }
  }

  lemma {:induction false} SameCandidate(q: Query, q2: Query, d: Domain)
    requires ValidConfig(q.cfg) && q2.hero == q.hero && q2.workloads == q.workloads && q2.cfg == q.cfg
    requires q2.now == q.now
    ensures CandFor(q2, d) == CandFor(q, d) && (Eligible(q2, d) <==> Eligible(q, d))
  {
  }

  // ---- inside the plan's group ----

  ghost function WithSelection(cs: seq<Cand>, slots: seq<Slot>): (r: seq<Slot>)
    requires |cs| == |slots|
    ensures |r| == |cs| && forall i :: 0 <= i < |cs| ==> r[i] == Slot(cs[i], 0, slots[i].selected)
  {
    seq(|cs|, i requires 0 <= i < |cs| => Slot(cs[i], 0, slots[i].selected))
  }

  lemma {:induction false} SameSelectedRoom(a: seq<Slot>, b: seq<Slot>, size: nat)
    requires size > 0 && |a| == |b|
    requires forall i :: 0 <= i < |a| ==> a[i].selected == b[i].selected && Capacity(a[i].cand) == Capacity(b[i].cand)
    ensures SelectedRoom(a, size) == SelectedRoom(b, size)
  {
    if a == [] {
    } else {
      SameSelectedRoom(a[..|a| - 1], b[..|b| - 1], size);
    }
  }

  /** The old opened domains still precede, and still suffice before, any domain not opened then. */
  lemma {:induction false} SelectionShrinks(cs: seq<Cand>, cs2: seq<Cand>, ids: seq<string>, size: nat, n: nat,
      r: seq<Slot>, j: nat)
    requires size > 0 && |r| == |cs| && Aligned(cs, cs2, ids) && OneSize(r, size, n) && SelectedRoom(r, size) >= n
    requires forall i :: 0 <= i < |cs| ==> r[i].cand == cs[i] && (r[i].selected <==> cs[i].domain.id in ids)
    requires j < |cs| && !r[j].selected && Capacity(cs[j]) >= size
    ensures Ahead(Fresh(cs2), cs2[j], size) >= n
  {
    var mixed := WithSelection(cs2, r);
    forall i | 0 <= i < |mixed| && mixed[i].selected ensures Before(mixed[i].cand, cs2[j]) {
      SelectedPreferred(r, size, n, i, j);
      assert Before(cs[i], cs[j]);
    }
    SelectedBeforeCount(mixed, cs2[j], size);
    SameSelectedRoom(mixed, r, size);
    SameCands(mixed, Fresh(cs2), cs2[j], size);
  }

  lemma {:induction false} AlignedStillPacks(cs: seq<Cand>, cs2: seq<Cand>, ids: seq<string>, units: seq<nat>)
    requires Aligned(cs, cs2, ids) && Chain(units) && PackUnits(Fresh(cs), units).Some?
    ensures PackUnits(Fresh(cs2), units).Some?
  {
    assert Caps(cs2) == Caps(cs);
    PacksIffRoom(cs, units);
    PacksIffRoom(cs2, units);
  }

  ghost predicate SelectedWithin(r2: seq<Slot>, r: seq<Slot>) {
    |r2| == |r| && forall i :: 0 <= i < |r| && r2[i].selected ==> r[i].selected
  }

  lemma {:induction false} RepeatChain(size: nat, n: nat)
    requires size > 0
    ensures Chain(Repeat(size, n))
  {
    QuotientUnique(size, size, 1, 0);
  }

  lemma {:induction false} PackingShrinks(cs: seq<Cand>, cs2: seq<Cand>, ids: seq<string>, size: nat, n: nat)
    requires size > 0 && Aligned(cs, cs2, ids)
    requires DistinctIds(Fresh(cs)) && CostsNonNegative(Fresh(cs)) && DistinctIds(Fresh(cs2))
    requires CostsNonNegative(Fresh(cs2))
    requires PackUnits(Fresh(cs), Repeat(size, n)).Some?
    requires forall i :: 0 <= i < |cs| ==>
      (PackUnits(Fresh(cs), Repeat(size, n)).value[i].selected <==> cs[i].domain.id in ids)
    ensures PackUnits(Fresh(cs2), Repeat(size, n)).Some?
    ensures SelectedWithin(PackUnits(Fresh(cs2), Repeat(size, n)).value, PackUnits(Fresh(cs), Repeat(size, n)).value)
  {
    var units := Repeat(size, n);
    RepeatChain(size, n);
    AlignedStillPacks(cs, cs2, ids, units);
    OpensShortestPrefix(cs, size, n);
    OpensShortestPrefix(cs2, size, n);
    OnlyOldOpened(cs, cs2, ids, size, n, PackUnits(Fresh(cs), units).value, PackUnits(Fresh(cs2), units).value);
  }

  lemma {:induction false} OnlyOldOpened(cs: seq<Cand>, cs2: seq<Cand>, ids: seq<string>, size: nat, n: nat,
      r: seq<Slot>, r2: seq<Slot>)
    requires size > 0 && |r| == |cs| && |r2| == |cs2| && Aligned(cs, cs2, ids) && OneSize(r, size, n)
    requires SelectedRoom(r, size) >= n
    requires forall i :: 0 <= i < |cs| ==> r[i].cand == cs[i] && (r[i].selected <==> cs[i].domain.id in ids)
    requires forall i :: 0 <= i < |cs2| ==>
      (r2[i].selected <==> Capacity(cs2[i]) >= size && Ahead(Fresh(cs2), cs2[i], size) < n)
    ensures SelectedWithin(r2, r)
  {
    forall i | 0 <= i < |r| && r2[i].selected ensures r[i].selected {
      if !r[i].selected {
        assert Capacity(cs2[i]) == Capacity(cs[i]);
        SelectionShrinks(cs, cs2, ids, size, n, r, i);
      }
    }
  }

  lemma {:induction false} SubsetOfPlan(slots: seq<Slot>, slots2: seq<Slot>)
    requires SelectedWithin(slots2, slots)
    requires forall i :: 0 <= i < |slots| ==> slots2[i].cand.domain.id == slots[i].cand.domain.id
    ensures SelectedIds(slots2) <= SelectedIds(slots)
  {
    forall id | id in SelectedIds(slots2) ensures id in SelectedIds(slots) {
      var j :| 0 <= j < |slots2| && slots2[j].selected && slots2[j].cand.domain.id == id;
      assert slots[j] in slots;
    }
  }

  lemma {:induction false} SmallerPlanCheaper(q: Query, q2: Query, p: DrainPlan, p2: DrainPlan, ids: seq<string>)
    requires ValidConfig(q.cfg) && OnlyPlanProgressed(q, q2, ids)
    requires Elements(p2.domainIds) <= Elements(p.domainIds)
    requires forall id :: id in p.domainIds ==> id in q.snap.domains
    requires forall id :: id in p2.domainIds ==> id in q2.snap.domains
    requires EvictsExactly(q, p) && EvictsExactly(q2, p2)
    ensures p2.totalCost <= p.totalCost
  {
    forall key | key in VictimKeysAt(q2, p2.domainIds) ensures key in VictimKeysAt(q, p.domainIds) {
      var id :| id in p2.domainIds && key in Keys(VictimsOf(q2, q2.snap.domains[id]));
      assert id in Elements(p2.domainIds);
      VictimsShrink(q, q2, q.snap.domains[id], q2.snap.domains[id]);
    }
    JoinedWithin(p2.victims, p.victims, q.workloads, q.now);
    FewerVictimsCheaper(p2.victims, p.victims, q.hero, q.cfg);
  }

  /** A group no planned domain belongs to plans as before. */
  lemma {:induction false} OtherGroupSame(q: Query, q2: Query, group: string, ids: seq<string>)
    requires ValidConfig(q.cfg) && OnlyPlanProgressed(q, q2, ids) && KeyedById(q.snap)
    requires forall id :: id in ids ==>
      id in q.snap.domains && Eligible(q, q.snap.domains[id]) && q.snap.domains[id].group != group
    ensures GroupPlan(q2, group) == GroupPlan(q, group)
  {
    assert SortedIds(q2) == SortedIds(q);
    GroupAligned(q, q2, SortedIds(q), group, ids);
  }

  lemma {:induction false} StillKeyed(q: Query, q2: Query)
    requires KeyedById(q.snap) && SameShape(q.snap, q2.snap)
    ensures KeyedById(q2.snap)
  {
    forall id | id in q2.snap.domains ensures q2.snap.domains[id].id == id {
      assert SameButVictims(q.snap.domains[id], q2.snap.domains[id]);
    }
  }

  lemma {:induction false} PlannedDrainable(q: Query, p: DrainPlan, group: string)
    requires InGroup(q, p, group)
    ensures forall id :: id in p.domainIds ==>
      id in q.snap.domains && Eligible(q, q.snap.domains[id]) && q.snap.domains[id].group == group
  {
    assert forall id :: id in p.domainIds ==> GoodDomain(q, group, id);
  }

  /** The packing of the plan's group before and after, with the domains it opened. */
  lemma {:induction false} GroupSelectionShrinks(q: Query, q2: Query, group: string, size: nat, n: nat)
    requires ValidConfig(q.cfg) && KeyedById(q.snap) && size > 0 && Units(q.hero) == Repeat(size, n)
    requires GroupPlan(q, group).Some?
    requires OnlyPlanProgressed(q, q2, GroupPlan(q, group).value.domainIds)
    requires InGroup(q, GroupPlan(q, group).value, group)
    ensures GroupPlan(q2, group).Some?
    ensures Elements(GroupPlan(q2, group).value.domainIds) <= Elements(GroupPlan(q, group).value.domainIds)
  {
    var ids := GroupPlan(q, group).value.domainIds;
    var cs, cs2, units := Cands(q, group), Cands(q2, group), Units(q.hero);
    assert SortedIds(q2) == SortedIds(q);
    StillKeyed(q, q2);
    PlannedDrainable(q, GroupPlan(q, group).value, group);
    GroupAligned(q, q2, SortedIds(q), group, ids);
    CandsFacts(q, group);
    CandsFacts(q2, group);
    CandsShrink(cs, cs2, ids, size, n);
  }

  lemma {:induction false} CandsShrink(cs: seq<Cand>, cs2: seq<Cand>, ids: seq<string>, size: nat, n: nat)
    requires size > 0 && Aligned(cs, cs2, ids)
    requires DistinctIds(Fresh(cs)) && CostsNonNegative(Fresh(cs)) && DistinctIds(Fresh(cs2))
    requires CostsNonNegative(Fresh(cs2))
    requires PackUnits(Fresh(cs), Repeat(size, n)).Some?
    requires ids == PlanIds(Opened(PackUnits(Fresh(cs), Repeat(size, n)).value))
    ensures PackUnits(Fresh(cs2), Repeat(size, n)).Some?
    ensures Elements(PlanIds(Opened(PackUnits(Fresh(cs2), Repeat(size, n)).value))) <= Elements(ids)
  {
    var units := Repeat(size, n);
    var r := PackUnits(Fresh(cs), units).value;
    PackUnitsSound(Fresh(cs), units);
    SelectedIffPlanned(cs, r);
    PackingShrinks(cs, cs2, ids, size, n);
    var r2 := PackUnits(Fresh(cs2), units).value;
    PackUnitsSound(Fresh(cs2), units);
    SameIds(cs, cs2, ids);
    SubsetOfPlan(r, r2);
    OpenedIds(r);
    OpenedIds(r2);
  }

  lemma {:induction false} SameIds(cs: seq<Cand>, cs2: seq<Cand>, ids: seq<string>)
    requires Aligned(cs, cs2, ids)
    ensures forall i :: 0 <= i < |cs| ==> cs2[i].domain.id == cs[i].domain.id
  {
  }

  lemma {:induction false} PlanGroupShrinks(q: Query, q2: Query, group: string, size: nat, n: nat)
    requires ValidConfig(q.cfg) && KeyedById(q.snap) && size > 0 && Units(q.hero) == Repeat(size, n)
    requires GroupPlan(q, group).Some?
    requires OnlyPlanProgressed(q, q2, GroupPlan(q, group).value.domainIds)
    ensures GroupPlan(q2, group).Some?
    ensures Elements(GroupPlan(q2, group).value.domainIds) <= Elements(GroupPlan(q, group).value.domainIds)
    ensures GroupPlan(q2, group).value.totalCost <= GroupPlan(q, group).value.totalCost
  {
    var home := GroupPlanSound(q, group);
    GroupSelectionShrinks(q, q2, group, size, n);
    StillKeyed(q, q2);
    var home2 := GroupPlanSound(q2, group);
    var p, p2 := GroupPlan(q, group).value, GroupPlan(q2, group).value;
    PlannedDrainable(q, p, group);
    PlannedDrainable(q2, p2, group);
    SmallerPlanCheaper(q, q2, p, p2, p.domainIds);
  }

  lemma {:induction false} SelectedIffPlanned(cs: seq<Cand>, r: seq<Slot>)
    requires |r| == |cs| && DistinctIds(Fresh(cs)) && forall i :: 0 <= i < |cs| ==> r[i].cand == cs[i]
    ensures forall i :: 0 <= i < |cs| ==> (r[i].selected <==> cs[i].domain.id in PlanIds(Opened(r)))
  {
    OpenedIds(r);
    InElements(PlanIds(Opened(r)));
    forall i | 0 <= i < |cs| ensures r[i].selected <==> cs[i].domain.id in SelectedIds(r) {
      assert r[i] in r;
      if cs[i].domain.id in SelectedIds(r) {
        var j :| 0 <= j < |r| && r[j].selected && r[j].cand.domain.id == cs[i].domain.id;
        assert Fresh(cs)[i].cand == cs[i] && Fresh(cs)[j].cand == cs[j];
      }
    }
  }

  lemma {:induction false} SameGroups(q: Query, q2: Query, ids: seq<string>)
    requires ValidConfig(q.cfg) && OnlyPlanProgressed(q, q2, ids) && KeyedById(q.snap)
    requires forall id :: id in ids ==> id in q.snap.domains && Eligible(q, q.snap.domains[id])
    ensures Groups(q2) == Groups(q)
  {
    assert SortedIds(q2) == SortedIds(q);
    forall id | id in q.snap.domains
      ensures (Eligible(q2, q2.snap.domains[id]) <==> Eligible(q, q.snap.domains[id]))
      ensures q2.snap.domains[id].group == q.snap.domains[id].group
    {
      AlignedDomain(q, q2, ids, id);
      assert SameButVictims(q.snap.domains[id], q2.snap.domains[id]);
    }
  }

  /**
   The drain never grows from its own work: with one chunk size and fixed records, replanning after the
   planned domains lost some victims drains a subset of the same group's domains.
   */
  lemma {:induction false} DrainNeverGrows(q: Query, q2: Query, size: nat, n: nat) returns (group: string)
    requires ValidConfig(q.cfg) && KeyedById(q.snap)
    requires size > 0 && Units(q.hero) == Repeat(size, n)
    requires SelectSpec(q).Planned? && OnlyPlanProgressed(q, q2, SelectSpec(q).plan.domainIds)
    ensures SelectSpec(q2).Planned?
    ensures Elements(SelectSpec(q2).plan.domainIds) <= Elements(SelectSpec(q).plan.domainIds)
    ensures SelectSpec(q2).plan.totalCost <= SelectSpec(q).plan.totalCost
    ensures InGroup(q, SelectSpec(q).plan, group) && InGroup(q2, SelectSpec(q2).plan, group)
  {
    var p := SelectSpec(q).plan;
    var groups := SortedListing(Groups(q));
    var plans, plans2 := GroupPlans(q, groups), GroupPlans(q2, groups);
    var k := CheapestWins(plans);
    group := groups[k];
    var home := GroupPlanSound(q, group);
    PlannedDrainable(q, p, group);
    SameGroups(q, q2, p.domainIds);
    PlanGroupShrinks(q, q2, group, size, n);
    assert Ascending(groups);
    forall i | 0 <= i < |groups| && i != k ensures plans2[i] == plans[i] {
      StrLessTotal(groups[i], groups[k]);
      OtherGroupSame(q, q2, groups[i], p.domainIds);
    }
    assert Wins(plans2, k);
    WinnerIsCheapest(plans2, k);
    StillKeyed(q, q2);
    var home2 := GroupPlanSound(q2, group);
  }
}
