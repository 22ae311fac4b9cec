/** When the greedy plan is the cheapest drain there is. */
module Optimality {
  import opened Base
  import opened Kube
  import opened Selection
  import opened Packing
  import opened Plans
  import opened Progress

  // ---- picking some of a group's candidates ----

  ghost function PickedCost(cands: seq<Cand>, pick: seq<bool>): real
    requires |pick| == |cands|
  {
    if cands == [] then 0.0
    else
      var n := |cands| - 1;
      PickedCost(cands[..n], pick[..n]) + (if pick[n] then cands[n].cost else 0.0)
  }

  ghost function Count(pick: seq<bool>): nat {
    if pick == [] then 0 else Count(pick[..|pick| - 1]) + (if pick[|pick| - 1] then 1 else 0)
  }

  /** What the picked candidates would cost at c apiece. */
  ghost function Flat(pick: seq<bool>, c: real): real {
    if pick == [] then 0.0 else Flat(pick[..|pick| - 1], c) + (if pick[|pick| - 1] then c else 0.0)
  }

  ghost function Times(n: nat, c: real): real {
    if n == 0 then 0.0 else Times(n - 1, c) + c
  }

  lemma {:induction false} FlatIsCount(pick: seq<bool>, c: real)
    ensures Flat(pick, c) == Times(Count(pick), c)
  {
    if pick == [] {
    } else {
      FlatIsCount(pick[..|pick| - 1], c);
    }
  }

  lemma {:induction false} TimesGrows(m: nat, n: nat, c: real)
    requires m <= n && c >= 0.0
    ensures Times(m, c) <= Times(n, c)
  {
    if m == n {
    } else {
      TimesGrows(m, n - 1, c);
    }
  }

  /** Trading candidates across a price: s keeps to those at most c, and leaves only those at least c. */
  lemma {:induction false} Exchange(cands: seq<Cand>, s: seq<bool>, t: seq<bool>, c: real)
    requires |s| == |t| == |cands|
    requires forall i :: 0 <= i < |cands| ==> if s[i] then cands[i].cost <= c else cands[i].cost >= c
    ensures PickedCost(cands, s) + Flat(t, c) <= PickedCost(cands, t) + Flat(s, c)
  {
    if cands == [] {
    } else {
      var n := |cands| - 1;
      Exchange(cands[..n], s[..n], t[..n], c);
    }
  }

  lemma {:induction false} CountDrop(pick: seq<bool>, m: nat)
    requires m < |pick| && pick[m]
    ensures Count(pick[m := false]) + 1 == Count(pick)
  {
    var n := |pick| - 1;
    if m == n {
      assert pick[m := false][..n] == pick[..n];
    } else {
      assert pick[m := false][..n] == pick[..n][m := false];
      CountDrop(pick[..n], m);
    }
  }

  // ---- groups whose domains hold equally many units ----

  ghost predicate Uniform(cands: seq<Cand>, size: nat, k: nat)
    requires size > 0
  {
    forall i :: 0 <= i < |cands| ==> Capacity(cands[i]) / size == k
  }

  ghost function Opens(slots: seq<Slot>): (pick: seq<bool>)
    ensures |pick| == |slots| && forall i :: 0 <= i < |slots| ==> pick[i] == slots[i].selected
  {
    seq(|slots|, i requires 0 <= i < |slots| => slots[i].selected)
  }

  lemma {:induction false} SelectedRoomIsCount(slots: seq<Slot>, size: nat, k: nat)
    requires size > 0 && forall i :: 0 <= i < |slots| ==> Capacity(slots[i].cand) / size == k
    ensures SelectedRoom(slots, size) == Count(Opens(slots)) * k
  {
    if slots == [] {
    } else {
      var n := |slots| - 1;
      SelectedRoomIsCount(slots[..n], size, k);
      assert Opens(slots)[..n] == Opens(slots[..n]);
      Distribute(Count(Opens(slots[..n])), 1, k);
    }
  }

  ghost function PickedCaps(cands: seq<Cand>, pick: seq<bool>): (caps: seq<nat>)
    requires |pick| == |cands|
    ensures |caps| == |cands| && forall i :: 0 <= i < |cands| ==> caps[i] == if pick[i] then Capacity(cands[i]) else 0
  {
    seq(|cands|, i requires 0 <= i < |cands| => if pick[i] then Capacity(cands[i]) else 0)
  }

  lemma {:induction false} PickedRoomIsCount(cands: seq<Cand>, pick: seq<bool>, size: nat, k: nat)
    requires size > 0 && |pick| == |cands| && Uniform(cands, size, k)
    ensures Room(PickedCaps(cands, pick), size) == Count(pick) * k
  {
    if cands == [] {
    } else {
      var n := |cands| - 1;
      PickedRoomIsCount(cands[..n], pick[..n], size, k);
      assert PickedCaps(cands, pick)[..n] == PickedCaps(cands[..n], pick[..n]);
      Distribute(Count(pick[..n]), 1, k);
      TooSmall(0, size);
    }
  }

  lemma {:induction false} FactorCancels(a: nat, b: nat, size: nat)
    requires size > 0 && a * size <= b * size
    ensures a <= b
  {
    if a > b {
      FactorApart(a, b, size);
    }
  }

  lemma {:induction false} FactorApart(a: nat, b: nat, size: nat)
    requires a > b
    ensures a * size >= b * size + size
  {
    assert a * size == b * size + (a - b) * size;
    TimesAtLeast(a - b, size);
  }

  /** The picked domains hold all n units, so there are enough of them. */
  lemma {:induction false} PickedHoldAll(cands: seq<Cand>, pick: seq<bool>, size: nat, n: nat, k: nat, assign: seq<nat>)
    requires size > 0 && n > 0 && |pick| == |cands| && Uniform(cands, size, k)
    requires IsAssignment(PickedCaps(cands, pick), Repeat(size, n), assign)
    ensures n <= Count(pick) * k
  {
    RepeatChain(size, n);
    AssignmentNeedsRoom(PickedCaps(cands, pick), Repeat(size, n), assign);
    assert Repeat(size, n)[..n - 1 + 1] == Repeat(size, n);
    assert Repeat(size, n)[n - 1] == size;
    SumRepeat(size, n);
    PickedRoomIsCount(cands, pick, size, k);
    FactorCancels(n, Room(PickedCaps(cands, pick), size), size);
  }

  lemma {:induction false} MoreCapacityStillFits(caps: seq<nat>, more: seq<nat>, units: seq<nat>, assign: seq<nat>)
    requires IsAssignment(caps, units, assign) && |more| == |caps| && forall i :: 0 <= i < |caps| ==> caps[i] <= more[i]
    ensures IsAssignment(more, units, assign)
  {
  }

  /** The selected domain that every other selected one is preferred to. */
  lemma {:induction false} LastOpened(slots: seq<Slot>) returns (m: nat)
    requires DistinctIds(slots) && exists i :: 0 <= i < |slots| && slots[i].selected
    ensures m < |slots| && slots[m].selected
    ensures forall i :: 0 <= i < |slots| && slots[i].selected && i != m ==> Before(slots[i].cand, slots[m].cand)
  {
    var n := |slots| - 1;
    if !exists i :: 0 <= i < n && slots[i].selected {
      m := n;
    } else {
      m := LastOpened(slots[..n]);
      BeforeTotal(slots[m].cand, slots[n].cand);
      if slots[n].selected && Before(slots[m].cand, slots[n].cand) {
        forall i | 0 <= i < n && slots[i].selected ensures Before(slots[i].cand, slots[n].cand) {
          if i != m {
            BeforeTrans(slots[i].cand, slots[m].cand, slots[n].cand);
          }
        }
        m := n;
      }
    }
  }

  /** Without the last opened domain the plan would be short, so it opens no more than it must. */
  lemma {:induction false} OpensFew(slots: seq<Slot>, size: nat, n: nat, k: nat, m: nat)
    requires size > 0 && OneSize(slots, size, n) && m < |slots| && slots[m].selected
    requires forall i :: 0 <= i < |slots| ==> Capacity(slots[i].cand) / size == k
    requires forall i :: 0 <= i < |slots| && slots[i].selected && i != m ==> Before(slots[i].cand, slots[m].cand)
    ensures (Count(Opens(slots)) - 1) * k < n
  {
    var fewer := slots[m := slots[m].(selected := false)];
    SelectedBeforeCount(fewer, slots[m].cand, size);
    SameCands(fewer, slots, slots[m].cand, size);
    SelectedRoomIsCount(fewer, size, k);
    assert Opens(fewer) == Opens(slots)[m := false];
    CountDrop(Opens(slots), m);
  }

  lemma {:induction false} ProductGrows(x: int, y: int, k: nat)
    requires x <= y
    ensures x * k <= y * k
  {
  }

  lemma {:induction false} CountsCompare(a: int, b: nat, k: nat, n: nat)
    requires (a - 1) * k < n <= b * k
    ensures a <= b
  {
    if a > b {
      ProductGrows(b, a - 1, k);
    }
  }

  /** In a uniform group no choice of domains that holds the units costs less than the greedy one. */
  lemma {:induction false} UniformGreedyCheapest(cands: seq<Cand>, size: nat, n: nat, k: nat, pick: seq<bool>,
      assign: seq<nat>)
    requires size > 0 && n > 0 && |pick| == |cands| && Uniform(cands, size, k)
    requires DistinctIds(Fresh(cands)) && CostsNonNegative(Fresh(cands))
    requires IsAssignment(PickedCaps(cands, pick), Repeat(size, n), assign)
    ensures PackUnits(Fresh(cands), Repeat(size, n)).Some?
    ensures PickedCost(cands, Opens(PackUnits(Fresh(cands), Repeat(size, n)).value)) <= PickedCost(cands, pick)
  {
    RepeatChain(size, n);
    MoreCapacityStillFits(PickedCaps(cands, pick), Caps(cands), Repeat(size, n), assign);
    AssignmentNeedsRoom(Caps(cands), Repeat(size, n), assign);
    PacksIffRoom(cands, Repeat(size, n));
    PickedHoldAll(cands, pick, size, n, k, assign);
    OpensShortestPrefix(cands, size, n);
    UniformSelectionCheapest(cands, PackUnits(Fresh(cands), Repeat(size, n)).value, size, n, k, pick);
  }

  lemma {:induction false} UniformSelectionCheapest(cands: seq<Cand>, r: seq<Slot>, size: nat, n: nat, k: nat,
      pick: seq<bool>)
    requires size > 0 && n > 0 && |pick| == |cands| == |r| && Uniform(cands, size, k)
    requires forall i :: 0 <= i < |cands| ==> r[i].cand == cands[i]
    requires OneSize(r, size, n) && SelectedRoom(r, size) >= n && n <= Count(pick) * k
    ensures PickedCost(cands, Opens(r)) <= PickedCost(cands, pick)
  {
    SomeSelected(r, size);
    var m := LastOpened(r);
    OpensFew(r, size, n, k, m);
    CountsCompare(Count(Opens(r)), Count(pick), k, n);
    var c := cands[m].cost;
    assert k > 0;
    forall i | 0 <= i < |cands| ensures if r[i].selected then cands[i].cost <= c else cands[i].cost >= c {
      if !r[i].selected {
        QuotientPositive(Capacity(cands[i]), size);
        SelectedPreferred(r, size, n, m, i);
      }
    }
    Exchange(cands, Opens(r), pick, c);
    assert r[m].cand.cost >= 0.0;
    FlatIsCount(Opens(r), c);
    FlatIsCount(pick, c);
    TimesGrows(Count(Opens(r)), Count(pick), c);
  }

  lemma {:induction false} SomeSelected(slots: seq<Slot>, size: nat)
    requires size > 0 && SelectedRoom(slots, size) > 0
    ensures exists i :: 0 <= i < |slots| && slots[i].selected
  {
    if forall i :: 0 <= i < |slots| ==> !slots[i].selected {
      NothingSelected(slots, size);
    }
  }

  // ---- whole plans ----

  lemma {:induction false} MergedCostsNoMore(acc: seq<VictimWorkload>, vs: seq<VictimWorkload>, hero: HeroSpec,
      cfg: Config)
    requires ValidConfig(cfg)
    ensures TotalCost(AddVictims(acc, vs), hero, cfg) <= TotalCost(acc, hero, cfg) + TotalCost(vs, hero, cfg)
  {
    if vs == [] {
    } else {
      var n := |vs| - 1;
      var rest := AddVictims(acc, vs[..n]);
      MergedCostsNoMore(acc, vs[..n], hero, cfg);
      CostBounds(vs[n], hero, cfg);
      assert (rest + [vs[n]])[..|rest|] == rest;
    }
  }

  lemma {:induction false} OpenedCost(slots: seq<Slot>, cands: seq<Cand>, hero: HeroSpec, cfg: Config)
    requires ValidConfig(cfg) && |slots| == |cands| && forall i :: 0 <= i < |cands| ==> slots[i].cand == cands[i]
    requires forall i :: 0 <= i < |cands| ==> cands[i].cost == TotalCost(cands[i].victims, hero, cfg)
    ensures TotalCost(PlanVictims(Opened(slots)), hero, cfg) <= PickedCost(cands, Opens(slots))
  {
    if slots == [] {
    } else {
      var n := |slots| - 1;
      OpenedCost(slots[..n], cands[..n], hero, cfg);
      assert Opens(slots)[..n] == Opens(slots[..n]);
      var rest := Opened(slots[..n]);
      if slots[n].selected {
        assert (rest + [slots[n].cand])[..|rest|] == rest;
        MergedCostsNoMore(PlanVictims(rest), slots[n].cand.victims, hero, cfg);
      }
    }
  }

  /** No workload runs in two drainable domains of the group. */
  ghost predicate NoSharedVictims(q: Query, group: string) {
    forall a, b :: GoodDomain(q, group, a) && GoodDomain(q, group, b) && a != b ==>
      Keys(VictimsOf(q, q.snap.domains[a])) !! Keys(VictimsOf(q, q.snap.domains[b]))
  }

  ghost function PickedVictims(cands: seq<Cand>, pick: seq<bool>): seq<VictimWorkload>
    requires |pick| == |cands|
  {
    if cands == [] then []
    else
      var n := |cands| - 1;
      PickedVictims(cands[..n], pick[..n]) + (if pick[n] then cands[n].victims else [])
  }

  lemma {:induction false} PickedVictimsCost(cands: seq<Cand>, pick: seq<bool>, hero: HeroSpec, cfg: Config)
    requires ValidConfig(cfg) && |pick| == |cands|
    requires forall i :: 0 <= i < |cands| ==> cands[i].cost == TotalCost(cands[i].victims, hero, cfg)
    ensures TotalCost(PickedVictims(cands, pick), hero, cfg) == PickedCost(cands, pick)
  {
    if cands == [] {
    } else {
      var n := |cands| - 1;
      PickedVictimsCost(cands[..n], pick[..n], hero, cfg);
      TotalCostConcat(PickedVictims(cands[..n], pick[..n]), if pick[n] then cands[n].victims else [], hero, cfg);
    }
  }

  lemma {:induction false} JoinTwo(xs: seq<VictimWorkload>, ys: seq<VictimWorkload>, workloads: map<Name, Workload>,
      now: int)
    requires DistinctKeys(xs) && DistinctKeys(ys) && Keys(xs) !! Keys(ys)
    requires Joined(xs, workloads, now) && Joined(ys, workloads, now)
    ensures DistinctKeys(xs + ys) && Joined(xs + ys, workloads, now) && Keys(xs + ys) == Keys(xs) + Keys(ys)
  {
    var all := xs + ys;
    assert forall v :: v in all <==> v in xs || v in ys;
    forall i, j | 0 <= i < j < |all| ensures all[i].key != all[j].key {
      if i < |xs| <= j {
        assert all[i] == xs[i] && all[j] == ys[j - |xs|];
        assert xs[i].key in Keys(xs) && ys[j - |xs|].key in Keys(ys);
      }
    }
  }

  ghost predicate OwnVictims(q: Query, cands: seq<Cand>) {
    && DistinctIds(Fresh(cands))
    && (forall i :: 0 <= i < |cands| ==> cands[i].victims == VictimsOf(q, cands[i].domain))
    && (forall i, j :: 0 <= i < j < |cands| ==> Keys(cands[i].victims) !! Keys(cands[j].victims))
  }

  ghost function PickedKeys(cands: seq<Cand>, pick: seq<bool>): set<Name>
    requires |pick| == |cands|
  {
    set i, key | 0 <= i < |cands| && pick[i] && key in Keys(cands[i].victims) :: key
  }

  lemma {:induction false} PickedKeysSnoc(cands: seq<Cand>, pick: seq<bool>)
    requires |pick| == |cands| > 0
    ensures var n := |cands| - 1;
      PickedKeys(cands, pick) == PickedKeys(cands[..n], pick[..n]) + (if pick[n] then Keys(cands[n].victims) else {})
  {
  }

  lemma {:induction false} PickedVictimsDistinct(q: Query, cands: seq<Cand>, pick: seq<bool>)
    requires |pick| == |cands| && OwnVictims(q, cands)
    ensures DistinctKeys(PickedVictims(cands, pick)) && Joined(PickedVictims(cands, pick), q.workloads, q.now)
    ensures Keys(PickedVictims(cands, pick)) == PickedKeys(cands, pick)
  {
    if cands == [] {
    } else {
      var n := |cands| - 1;
      assert Fresh(cands)[..n] == Fresh(cands[..n]);
      PickedVictimsDistinct(q, cands[..n], pick[..n]);
      PickedKeysSnoc(cands, pick);
      GroupVictimsMeaning(cands[n].domain.victims, q.workloads, q.now);
      var last: seq<VictimWorkload> := if pick[n] then cands[n].victims else [];
      JoinTwo(PickedVictims(cands[..n], pick[..n]), last, q.workloads, q.now);
    }
  }

  // ---- any other way to drain a group ----

  /** Another set of the group's drainable domains that holds every unit, with exactly their victims. */
  ghost predicate Alternative(q: Query, group: string, p: DrainPlan, home: seq<string>)
    requires ValidConfig(q.cfg)
  {
    && InGroup(q, p, group)
    && (forall id :: id in p.domainIds ==> id in q.snap.domains)
    && |home| == |Units(q.hero)| && (forall id :: id in home ==> id in p.domainIds)
    && (forall id :: id in p.domainIds ==> LoadAt(Units(q.hero), home, id) <= Reclaimable(q.snap.domains[id]))
    && EvictsExactly(q, p)
  }

  lemma {:induction false} GoodIsCandidate(q: Query, ids: seq<string>, group: string, id: string) returns (j: nat)
    requires ValidConfig(q.cfg) && KeyedById(q.snap) && forall x :: x in ids ==> x in q.snap.domains
    requires id in ids && GoodDomain(q, group, id)
    ensures j < |GroupCands(q, ids, group)| && GroupCands(q, ids, group)[j].domain.id == id
  {
    var n := |ids| - 1;
    assert forall x :: x in ids[..n] ==> x in ids;
    if ids[n] == id {
      j := |GroupCands(q, ids, group)| - 1;
    } else {
      assert id in ids[..n];
      j := GoodIsCandidate(q, ids[..n], group, id);
    }
  }

  ghost function PickIds(cands: seq<Cand>, ids: seq<string>): (pick: seq<bool>)
    ensures |pick| == |cands| && forall i :: 0 <= i < |cands| ==> pick[i] == (cands[i].domain.id in ids)
  {
    seq(|cands|, i requires 0 <= i < |cands| => cands[i].domain.id in ids)
  }

  lemma {:induction false} NoLoadAt(units: seq<nat>, home: seq<string>, id: string)
    requires |home| == |units| && id !in home
    ensures LoadAt(units, home, id) == 0
  {
    if units == [] {
    } else {
      assert home[0] in home && forall x :: x in home[1..] ==> x in home;
      NoLoadAt(units[1..], home[1..], id);
    }
  }

  ghost predicate IsCandidate(cands: seq<Cand>, id: string) {
    exists j :: 0 <= j < |cands| && cands[j].domain.id == id
  }

  lemma {:induction false} AssignHomes(cands: seq<Cand>, home: seq<string>) returns (assign: seq<nat>)
    requires forall id :: id in home ==> IsCandidate(cands, id)
    ensures |assign| == |home|
    ensures forall i :: 0 <= i < |home| ==> assign[i] < |cands| && cands[assign[i]].domain.id == home[i]
  {
    if home == [] {
      assign := [];
    } else {
      var n := |home| - 1;
      assert home[n] in home && forall id :: id in home[..n] ==> id in home;
      var rest := AssignHomes(cands, home[..n]);
      var j :| 0 <= j < |cands| && cands[j].domain.id == home[n];
      assign := rest + [j];
    }
  }

  lemma {:induction false} AlternativeAssigns(q: Query, group: string, p: DrainPlan,
      home: seq<string>) returns (assign: seq<nat>)
    requires ValidConfig(q.cfg) && KeyedById(q.snap) && Alternative(q, group, p, home)
    ensures var cands := Cands(q, group);
      IsAssignment(PickedCaps(cands, PickIds(cands, p.domainIds)), Units(q.hero), assign)
  {
    var cands, units := Cands(q, group), Units(q.hero);
    CandsFacts(q, group);
    forall id | id in home ensures IsCandidate(cands, id) {
      assert GoodDomain(q, group, id);
      var j := GoodIsCandidate(q, SortedIds(q), group, id);
    }
    assign := AssignHomes(cands, home);
    forall j | 0 <= j < |cands| ensures Load(units, assign, j) <= PickedCaps(cands, PickIds(cands, p.domainIds))[j] {
      LoadByName(cands, units, assign, home, j);
      assert CandOf(q, group, cands[j]);
      if cands[j].domain.id !in p.domainIds {
        NoLoadAt(units, home, cands[j].domain.id);
      }
    }
  }

  lemma {:induction false} AlternativeCost(q: Query, group: string, p: DrainPlan)
    requires ValidConfig(q.cfg) && KeyedById(q.snap) && NoSharedVictims(q, group) && InGroup(q, p, group)
    requires (forall id :: id in p.domainIds ==> id in q.snap.domains) && EvictsExactly(q, p)
    ensures PickedCost(Cands(q, group), PickIds(Cands(q, group), p.domainIds)) <= p.totalCost
  {
    var cands := Cands(q, group);
    var pick := PickIds(cands, p.domainIds);
    CandsFacts(q, group);
    forall i, j | 0 <= i < j < |cands| ensures Keys(cands[i].victims) !! Keys(cands[j].victims) {
      assert CandOf(q, group, cands[i]) && CandOf(q, group, cands[j]);
      assert Fresh(cands)[i].cand == cands[i] && Fresh(cands)[j].cand == cands[j];
      assert GoodDomain(q, group, cands[i].domain.id) && GoodDomain(q, group, cands[j].domain.id);
    }
    forall i | 0 <= i < |cands|
      ensures cands[i].victims == VictimsOf(q, cands[i].domain)
      ensures cands[i].cost == TotalCost(cands[i].victims, q.hero, q.cfg)
    {
      assert CandOf(q, group, cands[i]);
    }
    PickedVictimsDistinct(q, cands, pick);
    PickedVictimsCost(cands, pick, q.hero, q.cfg);
    PickedInPlan(q, group, cands, p);
    JoinedWithin(PickedVictims(cands, pick), p.victims, q.workloads, q.now);
    FewerVictimsCheaper(PickedVictims(cands, pick), p.victims, q.hero, q.cfg);
  }

  lemma {:induction false} PickedInPlan(q: Query, group: string, cands: seq<Cand>, p: DrainPlan)
    requires ValidConfig(q.cfg) && forall i :: 0 <= i < |cands| ==> CandOf(q, group, cands[i])
    requires (forall id :: id in p.domainIds ==> id in q.snap.domains) && EvictsExactly(q, p)
    ensures PickedKeys(cands, PickIds(cands, p.domainIds)) <= Keys(p.victims)
  {
    forall key | key in PickedKeys(cands, PickIds(cands, p.domainIds)) ensures key in Keys(p.victims) {
      var i :| 0 <= i < |cands| && cands[i].domain.id in p.domainIds && key in Keys(cands[i].victims);
      assert CandOf(q, group, cands[i]);
      assert key in Keys(VictimsOf(q, q.snap.domains[cands[i].domain.id]));
    }
  }

  /**
   For one chunk size the plan costs no more than any other way of draining domains of one group that holds
   the demand, provided the drainable domains of that group hold equally many units and share no victims.
   */
  lemma {:induction false} UniformPlanIsCheapest(q: Query, group: string, size: nat, n: nat, k: nat, p: DrainPlan,
      home: seq<string>)
    requires ValidConfig(q.cfg) && KeyedById(q.snap) && size > 0 && n > 0 && Units(q.hero) == Repeat(size, n)
    requires forall id :: GoodDomain(q, group, id) ==> Reclaimable(q.snap.domains[id]) / size == k
    requires NoSharedVictims(q, group) && Alternative(q, group, p, home)
    ensures SelectSpec(q).Planned? && SelectSpec(q).plan.totalCost <= p.totalCost
  {
    var cands := Cands(q, group);
    var pick := PickIds(cands, p.domainIds);
    CandsFacts(q, group);
    var assign := AlternativeAssigns(q, group, p, home);
    forall i | 0 <= i < |cands|
      ensures Capacity(cands[i]) / size == k && cands[i].cost == TotalCost(cands[i].victims, q.hero, q.cfg)
    {
      assert CandOf(q, group, cands[i]) && GoodDomain(q, group, cands[i].domain.id);
    }
    UniformGreedyCheapest(cands, size, n, k, pick, assign);
    AlternativeCost(q, group, p);
    GroupPlanCost(q, group, pick);
    var _ := SelectMeaning(q);
  }

  lemma {:induction false} GroupPlanCost(q: Query, group: string, pick: seq<bool>)
    requires ValidConfig(q.cfg) && |pick| == |Cands(q, group)|
    requires forall i :: 0 <= i < |pick| ==>
      Cands(q, group)[i].cost == TotalCost(Cands(q, group)[i].victims, q.hero, q.cfg)
    requires PackUnits(Fresh(Cands(q, group)), Units(q.hero)).Some?
    ensures GroupPlan(q, group).Some?
    ensures GroupPlan(q, group).value.totalCost
      <= PickedCost(Cands(q, group), Opens(PackUnits(Fresh(Cands(q, group)), Units(q.hero)).value))
  {
    var cands := Cands(q, group);
    PackUnitsSound(Fresh(cands), Units(q.hero));
    OpenedCost(PackUnits(Fresh(cands), Units(q.hero)).value, cands, q.hero, q.cfg);
  }
}
