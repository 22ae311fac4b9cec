/**
 pkg/selection: score every drainable domain by the disruption its drain would cause and greedily
 pack the hero's demand into the cheapest group of domains. The methods follow the source's loops over
 mutable candidates; the functions say what each loop computes.
 */
module Selection {
  import opened Base
  import opened Kube
  import opened Snapshots
  import opened Heroes

  datatype HeroSpec = HeroSpec(key: Name, priority: int, podCount: nat, clusterQueue: string, demand: seq<Chunk>)

  datatype VictimWorkload = VictimWorkload(key: Name, clusterQueue: string, priority: int, podCount: nat,
    runningFor: int)

  datatype DrainPlan = DrainPlan(domainIds: seq<string>, nodes: seq<string>, totalCost: real,
    victims: seq<VictimWorkload>)

  datatype Outcome = Planned(plan: DrainPlan) | NoFeasibleDomains | AllFeasibleHeroOccupied

  /** Everything SelectDomains is given. */
  datatype Query = Query(snap: Snapshot, hero: HeroSpec, workloads: map<Name, Workload>, cfg: Config, now: int)

  // ---- cost ----

  function Min1(x: real): real {
    if x < 1.0 then x else 1.0
  }

  function PriorityShare(v: VictimWorkload, hero: HeroSpec): real {
    if hero.priority > 0 && v.priority > 0 then Min1(v.priority as real / hero.priority as real) else 0.0
  }

  function SizeShare(v: VictimWorkload, hero: HeroSpec): real {
    if v.podCount > 0 then v.podCount as real / (v.podCount + hero.podCount) as real else 0.0
  }

  function AgeShare(v: VictimWorkload, cfg: Config): real
    requires ValidConfig(cfg)
  {
    if v.runningFor > 0 then v.runningFor as real / (v.runningFor as real + cfg.halfLife as real) else 0.0
  }

  function QueueFactor(v: VictimWorkload, hero: HeroSpec, cfg: Config): real {
    if v.clusterQueue != hero.clusterQueue then cfg.crossQueue else 1.0
  }

  function Disruption(v: VictimWorkload, hero: HeroSpec, cfg: Config): real
    requires ValidConfig(cfg)
  {
    cfg.weightPriority * PriorityShare(v, hero) + cfg.weightPodCount * SizeShare(v, hero)
      + cfg.weightRuntime * AgeShare(v, cfg)
  }

  function Cost(v: VictimWorkload, hero: HeroSpec, cfg: Config): real
    requires ValidConfig(cfg)
  {
    QueueFactor(v, hero, cfg) * Disruption(v, hero, cfg)
  }

  lemma {:induction false} Scaled(w: real, x: real) returns (p: real)
    requires w >= 0.0 && 0.0 <= x <= 1.0
    ensures p == w * x && 0.0 <= p <= w
  {
    p := w * x;
  }

  lemma {:induction false} ShareBounds(a: real, b: real)
    requires 0.0 < a <= b
    ensures 0.0 < a / b <= 1.0
  {
  }

  lemma {:induction false} ShareRanges(v: VictimWorkload, hero: HeroSpec, cfg: Config)
    requires ValidConfig(cfg)
    ensures 0.0 <= PriorityShare(v, hero) <= 1.0
    ensures 0.0 <= SizeShare(v, hero) <= 1.0
    ensures 0.0 <= AgeShare(v, cfg) <= 1.0
  {
    if hero.priority > 0 && v.priority > 0 {
      assert v.priority as real / hero.priority as real > 0.0;
    }
    if v.podCount > 0 {
      ShareBounds(v.podCount as real, (v.podCount + hero.podCount) as real);
    }
    if v.runningFor > 0 {
      ShareBounds(v.runningFor as real, v.runningFor as real + cfg.halfLife as real);
    }
  }

  lemma {:induction false} DisruptionBounds(v: VictimWorkload, hero: HeroSpec, cfg: Config)
    requires ValidConfig(cfg)
    ensures 0.0 <= Disruption(v, hero, cfg) <= 1.0
  {
    ShareRanges(v, hero, cfg);
    var a := Scaled(cfg.weightPriority, PriorityShare(v, hero));
    var b := Scaled(cfg.weightPodCount, SizeShare(v, hero));
    var c := Scaled(cfg.weightRuntime, AgeShare(v, cfg));
    DisruptionIs(v, hero, cfg, a, b, c);
  }

  /** No victim costs less than nothing, nor more than the cross-queue multiplier. */
  lemma {:induction false} CostBounds(v: VictimWorkload, hero: HeroSpec, cfg: Config)
    requires ValidConfig(cfg)
    ensures 0.0 <= Cost(v, hero, cfg) <= QueueFactor(v, hero, cfg) <= cfg.crossQueue
  {
    DisruptionBounds(v, hero, cfg);
    var cost := Scaled(QueueFactor(v, hero, cfg), Disruption(v, hero, cfg));
    assert Cost(v, hero, cfg) == cost;
  }

  lemma {:induction false} CrossMultiply(x: real, y: real, q: real, s: real, p: real, r: real)
    requires q > 0.0 && s > 0.0 && p == x * q && r == y * s
    ensures x > y ==> p * s > r * q
  {
    var z := q * s;
    assert z > 0.0;
    assert p * s == x * z by {
      assert (x * q) * s == x * (q * s);
    }
    assert r * q == y * z by {
      assert (y * s) * q == y * (q * s);
    }
    assert x > y ==> (x - y) * z > 0.0;
  }

  lemma {:induction false} ShareTimesWhole(a: real, b: real)
    requires b > 0.0
    ensures (a / b) * b == a
  {
  }

  /**
   The cost formula, each share given by its equation: priority relative to the hero's and at most one, pods
   relative to victim and hero together, age relative to itself and the half-life, and a multiplier for other
   queues only.
   */
  lemma {:induction false} CostFormula(v: VictimWorkload, hero: HeroSpec, cfg: Config)
    returns (p: real, n: real, r: real, m: real)
    requires ValidConfig(cfg)
    ensures Cost(v, hero, cfg) == m * (cfg.weightPriority * p + cfg.weightPodCount * n + cfg.weightRuntime * r)
    ensures hero.priority <= 0 || v.priority <= 0 ==> p == 0.0
    ensures 0 < v.priority <= hero.priority ==> p * hero.priority as real == v.priority as real
    ensures 0 < hero.priority <= v.priority ==> p == 1.0
    ensures n * (v.podCount + hero.podCount) as real == v.podCount as real && (v.podCount == 0 ==> n == 0.0)
    ensures if v.runningFor > 0 then r * (v.runningFor + cfg.halfLife) as real == v.runningFor as real else r == 0.0
    ensures m == if v.clusterQueue == hero.clusterQueue then 1.0 else cfg.crossQueue
  {
    p, n, r, m := PriorityShare(v, hero), SizeShare(v, hero), AgeShare(v, cfg), QueueFactor(v, hero, cfg);
    if hero.priority > 0 && v.priority > 0 {
      PriorityShareIs(v, hero);
    }
    if v.podCount > 0 {
      ShareTimesWhole(v.podCount as real, (v.podCount + hero.podCount) as real);
    }
    if v.runningFor > 0 {
      ShareTimesWhole(v.runningFor as real, v.runningFor as real + cfg.halfLife as real);
    }
    assert Disruption(v, hero, cfg) == cfg.weightPriority * p + cfg.weightPodCount * n + cfg.weightRuntime * r;
  }

  lemma {:induction false} PriorityShareIs(v: VictimWorkload, hero: HeroSpec)
    requires hero.priority > 0 && v.priority > 0
    ensures v.priority <= hero.priority ==> PriorityShare(v, hero) * hero.priority as real == v.priority as real
    ensures v.priority >= hero.priority ==> PriorityShare(v, hero) == 1.0
  {
    var x, y := v.priority as real, hero.priority as real;
    ShareTimesWhole(x, y);
    if v.priority <= hero.priority {
      ShareBounds(x, y);
    } else {
      ShareBounds(y, x);
      CrossMultiply(1.0, x / y, y, y, y, x);
    }
  }

  lemma {:induction false} FractionGrows(a: real, b: real, h: real)
    requires 0.0 < a <= b && h >= 0.0
    ensures a / (a + h) <= b / (b + h)
  {
    assert a * h <= b * h;
    assert a * (b + h) == a * b + a * h && b * (a + h) == a * b + b * h;
    CrossMultiply(a / (a + h), b / (b + h), a + h, b + h, a, b);
  }

  lemma {:induction false} ScaledGrows(w: real, x: real, y: real) returns (p: real, q: real)
    requires w >= 0.0 && x <= y
    ensures p == w * x && q == w * y && p <= q
  {
    p, q := w * x, w * y;
  }

  lemma {:induction false} RatioGrows(a: real, b: real, h: real)
    requires a <= b && h > 0.0
    ensures a / h <= b / h
  {
  }

  lemma {:induction false} SharesGrow(v: VictimWorkload, u: VictimWorkload, hero: HeroSpec, cfg: Config)
    requires ValidConfig(cfg) && v.priority <= u.priority && v.podCount <= u.podCount && v.runningFor <= u.runningFor
    ensures PriorityShare(v, hero) <= PriorityShare(u, hero)
    ensures SizeShare(v, hero) <= SizeShare(u, hero)
    ensures AgeShare(v, cfg) <= AgeShare(u, cfg)
  {
    ShareRanges(u, hero, cfg);
    if hero.priority > 0 && v.priority > 0 {
      RatioGrows(v.priority as real, u.priority as real, hero.priority as real);
    }
    if v.podCount > 0 {
      FractionGrows(v.podCount as real, u.podCount as real, hero.podCount as real);
    }
    if v.runningFor > 0 {
      FractionGrows(v.runningFor as real, u.runningFor as real, cfg.halfLife as real);
    }
  }

  lemma {:induction false} DisruptionGrows(v: VictimWorkload, u: VictimWorkload, hero: HeroSpec, cfg: Config)
    requires ValidConfig(cfg) && v.priority <= u.priority && v.podCount <= u.podCount && v.runningFor <= u.runningFor
    ensures Disruption(v, hero, cfg) <= Disruption(u, hero, cfg)
  {
    SharesGrow(v, u, hero, cfg);
    var p1, q1 := ScaledGrows(cfg.weightPriority, PriorityShare(v, hero), PriorityShare(u, hero));
    var p2, q2 := ScaledGrows(cfg.weightPodCount, SizeShare(v, hero), SizeShare(u, hero));
    var p3, q3 := ScaledGrows(cfg.weightRuntime, AgeShare(v, cfg), AgeShare(u, cfg));
    DisruptionIs(v, hero, cfg, p1, p2, p3);
    DisruptionIs(u, hero, cfg, q1, q2, q3);
  }

  lemma {:induction false} DisruptionIs(v: VictimWorkload, hero: HeroSpec, cfg: Config, a: real, b: real, c: real)
    requires ValidConfig(cfg) && a == cfg.weightPriority * PriorityShare(v, hero)
    requires b == cfg.weightPodCount * SizeShare(v, hero) && c == cfg.weightRuntime * AgeShare(v, cfg)
    ensures Disruption(v, hero, cfg) == a + b + c
  {
  }

  lemma {:induction false} BothGrow(m: real, n: real, a: real, b: real)
    requires 0.0 <= m <= n && 0.0 <= a <= b
    ensures m * a <= n * b
  {
    var ma, mb := ScaledGrows(m, a, b);
    var bm, bn := ScaledGrows(b, m, n);
  }

  /**
   Sparing the smaller, younger and less important: a victim that is no larger in any respect costs no
   more, and being in the hero's own queue never makes it dearer.
   */
  lemma {:induction false} CostGrows(v: VictimWorkload, u: VictimWorkload, hero: HeroSpec, cfg: Config)
    requires ValidConfig(cfg) && v.priority <= u.priority && v.podCount <= u.podCount && v.runningFor <= u.runningFor
    requires v.clusterQueue == u.clusterQueue || v.clusterQueue == hero.clusterQueue
    ensures Cost(v, hero, cfg) <= Cost(u, hero, cfg)
  {
    DisruptionBounds(v, hero, cfg);
    DisruptionGrows(v, u, hero, cfg);
    BothGrow(QueueFactor(v, hero, cfg), QueueFactor(u, hero, cfg), Disruption(v, hero, cfg), Disruption(u, hero, cfg));
  }

  function TotalCost(vs: seq<VictimWorkload>, hero: HeroSpec, cfg: Config): real
    requires ValidConfig(cfg)
  {
    if vs == [] then 0.0 else TotalCost(vs[..|vs| - 1], hero, cfg) + Cost(vs[|vs| - 1], hero, cfg)
  }

  // ---- victims ----

  function RunningFor(w: Workload, now: int): int {
    if ConditionTrue(w, ADMITTED) then now - w.conditions[ADMITTED].since
    else if ConditionTrue(w, QUOTA_RESERVED) then now - w.conditions[QUOTA_RESERVED].since
    else now - w.createdAt
  }

  function Join(key: Name, w: Workload, now: int): VictimWorkload {
    VictimWorkload(key, if w.admission.Some? then w.admission.value.clusterQueue else "",
                   Priority(w), AdmittedPodCount(w), RunningFor(w, now))
  }

  function Keys(vs: seq<VictimWorkload>): set<Name> {
    set v | v in vs :: v.key
  }

  function PodOwners(vs: seq<Victim>): set<Name> {
    set v | v in vs :: v.workload
  }

  function GroupVictimsSpec(vs: seq<Victim>, workloads: map<Name, Workload>, now: int): seq<VictimWorkload> {
    if vs == [] then []
    else
      var init, key := vs[..|vs| - 1], vs[|vs| - 1].workload;
      var rest := GroupVictimsSpec(init, workloads, now);
      if key in PodOwners(init) || key !in workloads then rest else rest + [Join(key, workloads[key], now)]
  }

  ghost predicate DistinctKeys(vs: seq<VictimWorkload>) {
    forall i, j :: 0 <= i < j < |vs| ==> vs[i].key != vs[j].key
  }

  ghost predicate Joined(vs: seq<VictimWorkload>, workloads: map<Name, Workload>, now: int) {
    forall v :: v in vs ==> v.key in workloads && v == Join(v.key, workloads[v.key], now)
  }

  lemma {:induction false} KeysSnoc(vs: seq<VictimWorkload>, v: VictimWorkload)
    ensures Keys(vs + [v]) == Keys(vs) + {v.key}
  {
    assert forall x :: x in vs + [v] <==> x in vs || x == v;
  }

  lemma {:induction false} AppendKeyed(vs: seq<VictimWorkload>, v: VictimWorkload, workloads: map<Name, Workload>,
      now: int)
    requires DistinctKeys(vs) && Joined(vs, workloads, now) && v.key !in Keys(vs)
    requires v.key in workloads && v == Join(v.key, workloads[v.key], now)
    ensures DistinctKeys(vs + [v]) && Joined(vs + [v], workloads, now) && Keys(vs + [v]) == Keys(vs) + {v.key}
  {
    KeysSnoc(vs, v);
    assert forall x :: x in vs ==> x.key in Keys(vs);
  }

  lemma {:induction false} PodOwnersSnoc(vs: seq<Victim>, v: Victim)
    ensures PodOwners(vs + [v]) == PodOwners(vs) + {v.workload}
  {
    assert forall x :: x in vs + [v] <==> x in vs || x == v;
  }

  /** Eviction is per workload: each known owner of a victim pod appears once, with its own record. */
  lemma {:induction false} GroupVictimsMeaning(vs: seq<Victim>, workloads: map<Name, Workload>, now: int)
    ensures var r := GroupVictimsSpec(vs, workloads, now);
      Keys(r) == PodOwners(vs) * workloads.Keys && DistinctKeys(r) && Joined(r, workloads, now)
  {
    if vs == [] {
    } else {
      var init, key := vs[..|vs| - 1], vs[|vs| - 1].workload;
      GroupVictimsMeaning(init, workloads, now);
      assert vs == init + [vs[|vs| - 1]];
      PodOwnersSnoc(init, vs[|vs| - 1]);
      if key !in PodOwners(init) && key in workloads {
        AppendKeyed(GroupVictimsSpec(init, workloads, now), Join(key, workloads[key], now), workloads, now);
      }
    }
  }

  /** A victim's record: its admitting queue, its priority or 0, its admitted pods, its age since admission. */
  lemma {:induction false} JoinedRecord(w: Workload, now: int)
    ensures var v := Join(w.key, w, now);
      && v.key == w.key
      && (w.admission.Some? ==> v.clusterQueue == w.admission.value.clusterQueue)
      && (w.admission.None? ==> v.clusterQueue == "")
      && v.priority == (match w.priority case Some(p) => p case None => 0)
      && v.podCount == Admitted(w)
      && (ADMITTED in w.conditions && w.conditions[ADMITTED].status == True ==>
            v.runningFor == now - w.conditions[ADMITTED].since)
      && (!(ADMITTED in w.conditions && w.conditions[ADMITTED].status == True) ==>
            v.runningFor == now - if QUOTA_RESERVED in w.conditions && w.conditions[QUOTA_RESERVED].status == True
              then w.conditions[QUOTA_RESERVED].since else w.createdAt)
  {
    AdmittedMeaning(w);
  }

  method GroupVictims(d: Domain, workloads: map<Name, Workload>, now: int) returns (out: seq<VictimWorkload>)
    ensures out == GroupVictimsSpec(d.victims, workloads, now)
  {
    var seen: set<Name> := {};
    out := [];
    for i := 0 to |d.victims|
      invariant seen == PodOwners(d.victims[..i])
      invariant out == GroupVictimsSpec(d.victims[..i], workloads, now)
    {
      var key := d.victims[i].workload;
      assert d.victims[..i + 1] == d.victims[..i] + [d.victims[i]];
      assert d.victims[..i + 1][..i] == d.victims[..i];
      assert PodOwners(d.victims[..i + 1]) == PodOwners(d.victims[..i]) + {key};
      if key in seen {
        continue;
      }
      seen := seen + {key};
      if key in workloads {
        out := out + [Join(key, workloads[key], now)];
      }
    }
    assert d.victims[..|d.victims|] == d.victims;
  }

  // ---- candidates ----

  function Reclaimable(d: Domain): nat {
    if d.allocatable >= d.nonReclaimable then d.allocatable - d.nonReclaimable else 0
  }

  predicate BelowHero(vs: seq<VictimWorkload>, priority: int) {
    forall i :: 0 <= i < |vs| ==> vs[i].priority < priority
  }

  datatype Cand = Cand(domain: Domain, victims: seq<VictimWorkload>, cost: real)

  function Capacity(c: Cand): nat {
    Reclaimable(c.domain)
  }

  /** A candidate together with its packing state. */
  datatype Slot = Slot(cand: Cand, remaining: nat, selected: bool)

  class Candidate {
    const domain: Domain
    const victims: seq<VictimWorkload>
    const cost: real
    var remaining: nat
    var selected: bool

    constructor (domain: Domain, victims: seq<VictimWorkload>, cost: real)
      ensures AsCand() == Cand(domain, victims, cost)
      ensures remaining == Reclaimable(domain) && !selected
    {
      this.domain := domain;
      this.victims := victims;
      this.cost := cost;
      this.remaining := Reclaimable(domain);
      this.selected := false;
    }

    function AsCand(): Cand {
      Cand(domain, victims, cost)
    }

    function View(): Slot
      reads this
    {
      Slot(AsCand(), remaining, selected)
    }
  }

  function Marginal(s: Slot): real {
    if s.selected then 0.0 else s.cand.cost
  }

  /** Lower marginal cost, then already selected, then roomier, then the smaller ID. */
  predicate PackBetter(a: Slot, b: Slot) {
    if Marginal(a) != Marginal(b) then Marginal(a) < Marginal(b)
    else if a.selected != b.selected then a.selected
    else if a.remaining != b.remaining then a.remaining > b.remaining
    else StrLess(a.cand.domain.id, b.cand.domain.id)
  }

  // ---- packing one group ----

  function Fresh(cands: seq<Cand>): (slots: seq<Slot>)
    ensures |slots| == |cands|
    ensures forall i :: 0 <= i < |cands| ==> slots[i] == Slot(cands[i], Capacity(cands[i]), false)
  {
    seq(|cands|, i requires 0 <= i < |cands| => Slot(cands[i], Capacity(cands[i]), false))
  }

  /** The running best of the first n slots for one unit. */
  function BestSlot(slots: seq<Slot>, unit: nat, n: nat): (best: Option<nat>)
    requires n <= |slots|
    ensures best.Some? ==> best.value < n && slots[best.value].remaining >= unit
  {
    if n == 0 then None
    else
      var best := BestSlot(slots, unit, n - 1);
      if slots[n - 1].remaining < unit then best
      else if best.None? || PackBetter(slots[n - 1], slots[best.value]) then Some(n - 1)
      else best
  }

  function Choose(slots: seq<Slot>, unit: nat): (best: Option<nat>)
    ensures best.Some? ==> best.value < |slots| && slots[best.value].remaining >= unit
  {
    BestSlot(slots, unit, |slots|)
  }

  function Place(slots: seq<Slot>, i: nat, unit: nat): seq<Slot>
    requires i < |slots| && slots[i].remaining >= unit
  {
    slots[i := Slot(slots[i].cand, slots[i].remaining - unit, true)]
  }

  /** Greedy fit of the units in order; None when some unit fits nowhere. */
  function PackUnits(slots: seq<Slot>, units: seq<nat>): (r: Option<seq<Slot>>)
    ensures r.Some? ==> |r.value| == |slots|
    decreases units
  {
    if units == [] then Some(slots)
    else
      var i := Choose(slots, units[0]);
      if i.None? then None else PackUnits(Place(slots, i.value, units[0]), units[1..])
  }

  function Opened(slots: seq<Slot>): seq<Cand> {
    if slots == [] then []
    else
      var rest, last := Opened(slots[..|slots| - 1]), slots[|slots| - 1];
      if last.selected then rest + [last.cand] else rest
  }

  /** acc followed by the workloads of vs it does not hold yet. */
  function AddVictims(acc: seq<VictimWorkload>, vs: seq<VictimWorkload>): seq<VictimWorkload> {
    if vs == [] then acc
    else
      var rest, v := AddVictims(acc, vs[..|vs| - 1]), vs[|vs| - 1];
      if v.key in Keys(rest) then rest else rest + [v]
  }

  function PlanVictims(cs: seq<Cand>): seq<VictimWorkload> {
    if cs == [] then [] else AddVictims(PlanVictims(cs[..|cs| - 1]), cs[|cs| - 1].victims)
  }

  function PlanIds(cs: seq<Cand>): seq<string> {
    if cs == [] then [] else PlanIds(cs[..|cs| - 1]) + [cs[|cs| - 1].domain.id]
  }

  function PlanNodes(cs: seq<Cand>): seq<string> {
    if cs == [] then [] else PlanNodes(cs[..|cs| - 1]) + cs[|cs| - 1].domain.nodes
  }

  function PlanFor(cs: seq<Cand>, hero: HeroSpec, cfg: Config): DrainPlan
    requires ValidConfig(cfg)
  {
    DrainPlan(PlanIds(cs), PlanNodes(cs), TotalCost(PlanVictims(cs), hero, cfg), PlanVictims(cs))
  }

  function PackGroup(cands: seq<Cand>, units: seq<nat>, hero: HeroSpec, cfg: Config): Option<DrainPlan>
    requires ValidConfig(cfg)
  {
    var packed := PackUnits(Fresh(cands), units);
    if packed.None? then None else Some(PlanFor(Opened(packed.value), hero, cfg))
  }

  function Views(cs: seq<Candidate>): (slots: seq<Slot>)
    reads cs
    ensures |slots| == |cs| && forall i :: 0 <= i < |cs| ==> slots[i] == cs[i].View()
  {
    seq(|cs|, i requires 0 <= i < |cs| reads cs => cs[i].View())
  }

  function AsCands(cs: seq<Candidate>): (r: seq<Cand>)
    ensures |r| == |cs| && forall i :: 0 <= i < |cs| ==> r[i] == cs[i].AsCand()
  {
    seq(|cs|, i requires 0 <= i < |cs| => cs[i].AsCand())
  }

  ghost predicate Separate(cs: seq<Candidate>) {
    forall i, j :: 0 <= i < j < |cs| ==> cs[i] != cs[j]
  }

  method PackWithinGroup(cands: seq<Candidate>, units: seq<nat>, hero: HeroSpec,
      cfg: Config) returns (plan: Option<DrainPlan>)
    requires Separate(cands) && ValidConfig(cfg)
    modifies cands
    ensures plan == PackGroup(AsCands(cands), units, hero, cfg)
  {
    ResetPacking(cands);
    ghost var start := Views(cands);
    for k := 0 to |units|
      invariant PackUnits(start, units) == PackUnits(Views(cands), units[k..])
    {
      assert units[k..][0] == units[k] && units[k..][1..] == units[k + 1..];
      var best := BestHome(cands, units[k]);
      if best.None? {
        return None;
      }
      GiveUnit(cands, best.value, units[k]);
    }
    assert units[|units|..] == [];
    var collected := CollectPlan(cands, hero, cfg);
    plan := Some(collected);
  }

  method GiveUnit(cands: seq<Candidate>, i: nat, unit: nat)
    requires Separate(cands) && i < |cands| && cands[i].remaining >= unit
    modifies cands[i]
    ensures Views(cands) == Place(old(Views(cands)), i, unit)
  {
    ghost var before := Views(cands);
    var home := cands[i];
    home.remaining := home.remaining - unit;
    home.selected := true;
    assert Views(cands) == Place(before, i, unit);
  }

  /** Groups are retried, so packing state starts over. */
  method ResetPacking(cands: seq<Candidate>)
    modifies cands
    ensures Views(cands) == Fresh(AsCands(cands))
  {
    for i := 0 to |cands|
      invariant forall j :: 0 <= j < i ==>
        cands[j].View() == Slot(cands[j].AsCand(), Reclaimable(cands[j].domain), false)
    {
      cands[i].remaining := Reclaimable(cands[i].domain);
      cands[i].selected := false;
    }
    assert Views(cands) == Fresh(AsCands(cands));
  }

  method BestHome(cands: seq<Candidate>, unit: nat) returns (best: Option<nat>)
    ensures best == Choose(Views(cands), unit)
  {
    best := None;
    for i := 0 to |cands|
      invariant best == BestSlot(Views(cands), unit, i)
    {
      if cands[i].remaining < unit {
        continue;
      }
      if best.None? || PackBetter(cands[i].View(), cands[best.value].View()) {
        best := Some(i);
      }
    }
  }

  method CollectPlan(cands: seq<Candidate>, hero: HeroSpec, cfg: Config) returns (plan: DrainPlan)
    requires ValidConfig(cfg)
    ensures plan == PlanFor(Opened(Views(cands)), hero, cfg)
  {
    plan := DrainPlan([], [], 0.0, []);
    ghost var slots := Views(cands);
    for i := 0 to |cands|
      invariant plan == PlanFor(Opened(slots[..i]), hero, cfg)
    {
      assert slots[..i + 1][..i] == slots[..i] && slots[..i + 1][i] == cands[i].View();
      if !cands[i].selected {
        continue;
      }
      ghost var cs := Opened(slots[..i]);
      assert (cs + [cands[i].AsCand()])[..|cs|] == cs;
      plan := plan.(domainIds := plan.domainIds + [cands[i].domain.id], nodes := plan.nodes + cands[i].domain.nodes);
      var victims, cost := MergeVictims(plan.victims, plan.totalCost, cands[i].victims, hero, cfg);
      plan := plan.(victims := victims, totalCost := cost);
    }
    assert slots[..|cands|] == slots;
  }

  /** A workload spanning domains is evicted, and costed, once. */
  method MergeVictims(acc: seq<VictimWorkload>, accCost: real, vs: seq<VictimWorkload>, hero: HeroSpec, cfg: Config)
    returns (victims: seq<VictimWorkload>, cost: real)
    requires ValidConfig(cfg) && accCost == TotalCost(acc, hero, cfg)
    ensures victims == AddVictims(acc, vs) && cost == TotalCost(victims, hero, cfg)
  {
    victims, cost := acc, accCost;
    for j := 0 to |vs|
      invariant victims == AddVictims(acc, vs[..j]) && cost == TotalCost(victims, hero, cfg)
    {
      assert vs[..j + 1][..j] == vs[..j];
      if vs[j].key in Keys(victims) {
        continue;
      }
      assert (victims + [vs[j]])[..|victims|] == victims;
      victims := victims + [vs[j]];
      cost := cost + Cost(vs[j], hero, cfg);
    }
    assert vs[..|vs|] == vs;
  }

  // ---- choosing among the groups ----

  function VictimsOf(q: Query, d: Domain): seq<VictimWorkload> {
    GroupVictimsSpec(d.victims, q.workloads, q.now)
  }

  /** Drainable: no other hero inside, something to gain, and only victims below the hero. */
  predicate Eligible(q: Query, d: Domain) {
    !d.hasOtherHero && Reclaimable(d) > 0 && BelowHero(VictimsOf(q, d), q.hero.priority)
  }

  function CandFor(q: Query, d: Domain): Cand
    requires ValidConfig(q.cfg)
  {
    Cand(d, VictimsOf(q, d), TotalCost(VictimsOf(q, d), q.hero, q.cfg))
  }

  function GroupCands(q: Query, ids: seq<string>, group: string): seq<Cand>
    requires ValidConfig(q.cfg) && forall id :: id in ids ==> id in q.snap.domains
  {
    if ids == [] then []
    else
      var d := q.snap.domains[ids[|ids| - 1]];
      var rest := GroupCands(q, ids[..|ids| - 1], group);
      if Eligible(q, d) && d.group == group then rest + [CandFor(q, d)] else rest
  }

  function GroupsOf(q: Query, ids: seq<string>): set<string>
    requires forall id :: id in ids ==> id in q.snap.domains
  {
    set id | id in ids && Eligible(q, q.snap.domains[id]) :: q.snap.domains[id].group
  }

  function Units(hero: HeroSpec): seq<nat> {
    SortDesc(Expand(hero.demand))
  }

  ghost function SortedIds(q: Query): seq<string>
    ensures forall id :: id in SortedIds(q) <==> id in q.snap.domains
  {
    var ids := SortedListing(q.snap.domains.Keys);
    assert forall id :: id in ids <==> id in Elements(ids);
    ids
  }

  ghost function Cands(q: Query, group: string): seq<Cand>
    requires ValidConfig(q.cfg)
  {
    GroupCands(q, SortedIds(q), group)
  }

  ghost function GroupPlan(q: Query, group: string): Option<DrainPlan>
    requires ValidConfig(q.cfg)
  {
    PackGroup(Cands(q, group), Units(q.hero), q.hero, q.cfg)
  }

  ghost function Groups(q: Query): set<string> {
    GroupsOf(q, SortedIds(q))
  }

  ghost function GroupPlans(q: Query, groups: seq<string>): (plans: seq<Option<DrainPlan>>)
    requires ValidConfig(q.cfg)
    ensures |plans| == |groups| && forall i :: 0 <= i < |groups| ==> plans[i] == GroupPlan(q, groups[i])
  {
    seq(|groups|, i requires 0 <= i < |groups| => GroupPlan(q, groups[i]))
  }

  /** The first cheapest of the plans. */
  function Cheapest(plans: seq<Option<DrainPlan>>): Option<DrainPlan> {
    if plans == [] then None
    else
      var best, plan := Cheapest(plans[..|plans| - 1]), plans[|plans| - 1];
      if plan.Some? && (best.None? || plan.value.totalCost < best.value.totalCost) then plan else best
  }

  predicate HeroBlocked(q: Query, ids: seq<string>)
    requires forall id :: id in ids ==> id in q.snap.domains
  {
    exists id :: id in ids && q.snap.domains[id].hasOtherHero
  }

  ghost function SelectSpec(q: Query): Outcome
    requires ValidConfig(q.cfg)
  {
    if Units(q.hero) == [] then NoFeasibleDomains
    else
      var best := Cheapest(GroupPlans(q, SortedListing(Groups(q))));
      if best.Some? then Planned(best.value)
      else if HeroBlocked(q, SortedIds(q)) then AllFeasibleHeroOccupied
      else NoFeasibleDomains
  }

  /** The keys of a map in sorted order, whatever order ranging over it produced them in. */
  method SortedKeys(keys: set<string>) returns (ids: seq<string>)
    ensures ids == SortedListing(keys)
  {
    ids := [];
    var rest := keys;
    while rest != {}
      invariant Elements(ids) + rest == keys && Elements(ids) !! rest
      invariant Distinct(ids)
      decreases rest
    {
      var id :| id in rest;
      assert id !in ids by { assert id !in Elements(ids); }
      assert Elements(ids + [id]) == Elements(ids) + {id};
      ids, rest := ids + [id], rest - {id};
    }
    ghost var unsorted := ids;
    ids := SortStrings(ids);
    assert Elements(ids) == Elements(unsorted);
    SortedListingUnique(keys, ids);
  }

  ghost predicate GroupedSoFar(q: Query, ids: seq<string>, byGroup: map<string, seq<Candidate>>)
    requires ValidConfig(q.cfg) && forall id :: id in ids ==> id in q.snap.domains
  {
    && byGroup.Keys == GroupsOf(q, ids)
    && forall g :: g in byGroup ==> Separate(byGroup[g]) && AsCands(byGroup[g]) == GroupCands(q, ids, g)
  }

  lemma {:induction false} NoCandidates(q: Query, ids: seq<string>, group: string)
    requires ValidConfig(q.cfg) && forall id :: id in ids ==> id in q.snap.domains
    requires group !in GroupsOf(q, ids)
    ensures GroupCands(q, ids, group) == []
  {
    if ids == [] {
    } else {
      var init := ids[..|ids| - 1];
      assert ids[|ids| - 1] in ids && forall id :: id in init ==> id in ids;
      NoCandidates(q, init, group);
    }
  }

  lemma {:induction false} GroupsOfSnoc(q: Query, ids: seq<string>, id: string)
    requires id in q.snap.domains && forall x :: x in ids ==> x in q.snap.domains
    ensures GroupsOf(q, ids + [id])
      == GroupsOf(q, ids) + (if Eligible(q, q.snap.domains[id]) then {q.snap.domains[id].group} else {})
  {
    assert forall x :: x in ids + [id] <==> x in ids || x == id;
  }

  lemma {:induction false} GroupCandsSnoc(q: Query, ids: seq<string>, id: string, group: string)
    requires ValidConfig(q.cfg) && id in q.snap.domains && forall x :: x in ids ==> x in q.snap.domains
    ensures var d := q.snap.domains[id];
      GroupCands(q, ids + [id], group) ==
        GroupCands(q, ids, group) + (if Eligible(q, d) && d.group == group then [CandFor(q, d)] else [])
  {
    assert (ids + [id])[..|ids|] == ids;
  }

  lemma {:induction false} GroupedSkip(q: Query, ids: seq<string>, id: string, byGroup: map<string, seq<Candidate>>)
    requires ValidConfig(q.cfg) && id in q.snap.domains && forall x :: x in ids ==> x in q.snap.domains
    requires GroupedSoFar(q, ids, byGroup) && !Eligible(q, q.snap.domains[id])
    ensures GroupedSoFar(q, ids + [id], byGroup)
  {
    GroupsOfSnoc(q, ids, id);
    forall g | g in byGroup ensures AsCands(byGroup[g]) == GroupCands(q, ids + [id], g) {
      GroupCandsSnoc(q, ids, id, g);
    }
  }

  function AppendTo(byGroup: map<string, seq<Candidate>>, group: string, c: Candidate): map<string, seq<Candidate>> {
    byGroup[group := (if group in byGroup then byGroup[group] else []) + [c]]
  }

  lemma {:induction false} GroupedStep(q: Query, ids: seq<string>, id: string, byGroup: map<string, seq<Candidate>>,
      c: Candidate)
    requires ValidConfig(q.cfg) && id in q.snap.domains && forall x :: x in ids ==> x in q.snap.domains
    requires GroupedSoFar(q, ids, byGroup) && forall g :: g in byGroup ==> c !in byGroup[g]
    requires Eligible(q, q.snap.domains[id]) && c.AsCand() == CandFor(q, q.snap.domains[id])
    ensures GroupedSoFar(q, ids + [id], AppendTo(byGroup, q.snap.domains[id].group, c))
  {
    var group := q.snap.domains[id].group;
    var after := AppendTo(byGroup, group, c);
    GroupsOfSnoc(q, ids, id);
    if group !in byGroup {
      NoCandidates(q, ids, group);
    }
    forall g | g in after ensures Separate(after[g]) && AsCands(after[g]) == GroupCands(q, ids + [id], g) {
      GroupCandsSnoc(q, ids, id, g);
      if g == group {
        AppendedCand(if g in byGroup then byGroup[g] else [], c);
      }
    }
  }

  lemma {:induction false} AppendedCand(cs: seq<Candidate>, c: Candidate)
    requires Separate(cs) && c !in cs
    ensures Separate(cs + [c]) && AsCands(cs + [c]) == AsCands(cs) + [c.AsCand()]
  {
  }

  lemma {:induction false} HeroBlockedSnoc(q: Query, ids: seq<string>, id: string)
    requires id in q.snap.domains && forall x :: x in ids ==> x in q.snap.domains
    ensures HeroBlocked(q, ids + [id]) <==> HeroBlocked(q, ids) || q.snap.domains[id].hasOtherHero
  {
    assert forall x :: x in ids + [id] <==> x in ids || x == id;
  }

  ghost predicate Within(byGroup: map<string, seq<Candidate>>, made: set<Candidate>) {
    forall g :: g in byGroup ==> Elements(byGroup[g]) <= made
  }

  /** The candidates of every group, in domain-ID order. */
  method CollectCandidates(q: Query, ids: seq<string>)
    returns (byGroup: map<string, seq<Candidate>>, heroBlocked: bool, ghost made: set<Candidate>)
    requires ValidConfig(q.cfg) && forall id :: id in ids ==> id in q.snap.domains
    ensures GroupedSoFar(q, ids, byGroup)
    ensures fresh(made) && Within(byGroup, made)
    ensures heroBlocked <==> HeroBlocked(q, ids)
  {
    byGroup, heroBlocked, made := map[], false, {};
    for i := 0 to |ids|
      invariant GroupedSoFar(q, ids[..i], byGroup)
      invariant fresh(made) && Within(byGroup, made)
      invariant heroBlocked <==> HeroBlocked(q, ids[..i])
    {
      var d := q.snap.domains[ids[i]];
      assert ids[..i + 1] == ids[..i] + [ids[i]];
      HeroBlockedSnoc(q, ids[..i], ids[i]);
      if d.hasOtherHero {
        heroBlocked := true;
        GroupedSkip(q, ids[..i], ids[i], byGroup);
        continue;
      }
      var victims := GroupVictims(d, q.workloads, q.now);
      if Reclaimable(d) == 0 || !BelowHero(victims, q.hero.priority) {
        GroupedSkip(q, ids[..i], ids[i], byGroup);
        continue;
      }
      var cost := SumCosts(victims, q.hero, q.cfg);
      var c := new Candidate(d, victims, cost);
      GroupedStep(q, ids[..i], ids[i], byGroup, c);
      byGroup := AppendTo(byGroup, d.group, c);
      made := made + {c};
    }
    assert ids[..|ids|] == ids;
  }

  method SumCosts(vs: seq<VictimWorkload>, hero: HeroSpec, cfg: Config) returns (cost: real)
    requires ValidConfig(cfg)
    ensures cost == TotalCost(vs, hero, cfg)
  {
    cost := 0.0;
    for i := 0 to |vs|
      invariant cost == TotalCost(vs[..i], hero, cfg)
    {
      assert vs[..i + 1][..i] == vs[..i];
      cost := cost + Cost(vs[i], hero, cfg);
    }
    assert vs[..|vs|] == vs;
  }

  method ExpandUnits(chunks: seq<Chunk>) returns (units: seq<nat>)
    ensures units == Expand(chunks)
  {
    units := [];
    for i := 0 to |chunks|
      invariant units == Expand(chunks[..i])
    {
      ghost var before := units;
      for k := 0 to chunks[i].count
        invariant units == before + Repeat(chunks[i].size, k)
      {
        units := units + [chunks[i].size];
      }
      assert chunks[..i + 1][..i] == chunks[..i];
    }
    assert chunks[..|chunks|] == chunks;
  }

  /** The cheapest plan over the groups; the first of equals wins. */
  method CheapestGroup(q: Query, groups: seq<string>, byGroup: map<string, seq<Candidate>>, units: seq<nat>,
      ghost made: set<Candidate>)
    returns (best: Option<DrainPlan>)
    requires ValidConfig(q.cfg) && units == Units(q.hero)
    requires forall g :: g in groups ==> g in byGroup
    requires forall g :: g in byGroup ==> Separate(byGroup[g]) && AsCands(byGroup[g]) == Cands(q, g)
    requires Within(byGroup, made)
    modifies made
    ensures best == Cheapest(GroupPlans(q, groups))
  {
    best := None;
    ghost var plans := GroupPlans(q, groups);
    for i := 0 to |groups|
      invariant best == Cheapest(plans[..i])
    {
      assert plans[..i + 1][..i] == plans[..i];
      assert forall c :: c in byGroup[groups[i]] ==> c in Elements(byGroup[groups[i]]);
      var plan := PackWithinGroup(byGroup[groups[i]], units, q.hero, q.cfg);
      if plan.None? {
        continue;
      }
      if best.None? || plan.value.totalCost < best.value.totalCost {
        best := plan;
      }
    }
    assert plans[..|groups|] == plans;
  }

  /** The cheapest covering group's plan, or why there is none; the result depends on no iteration order. */
  method SelectDomains(q: Query) returns (outcome: Outcome)
    requires ValidConfig(q.cfg)
    ensures outcome == SelectSpec(q)
  {
    var ids := SortedKeys(q.snap.domains.Keys);
    assert ids == SortedIds(q);
    ghost var made;
    var byGroup, heroBlocked;
    byGroup, heroBlocked, made := CollectCandidates(q, ids);
    var units := ExpandUnits(q.hero.demand);
    units := SortDesc(units);
    if units == [] {
      return NoFeasibleDomains;
    }
    var groups := SortedKeys(byGroup.Keys);
    assert forall g :: g in groups ==> g in Elements(groups);
    var best := CheapestGroup(q, groups, byGroup, units, made);
    if best.None? {
      return if heroBlocked then AllFeasibleHeroOccupied else NoFeasibleDomains;
    }
    return Planned(best.value);
  }
}
