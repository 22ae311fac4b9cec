/** When a stuck hero has a plan, said of the cluster's own nodes, pods and workloads. */
module Placement {
  import opened Base
  import opened Kube
  import opened Snapshots
  import opened Capacities
  import opened Heroes
  import opened Selection
  import opened Plans
  import opened Feasibility
  import opened SnapshotFacts
  import opened Replanning
  import opened Clusters
  import opened DrainCalls
  import opened Entitlement

  /** What the planner reads for a hero: all nodes and pods, at its levels, its own taints tolerated. */
  ghost function Seen(s: State, cfg: Config, l: Listing, levels: (string, string), self: Name): Input
    requires Lists(l, s)
  {
    Input(levels.0, levels.1, NodeSeq(s, l.nodes), s.pods, OtherHeroes(s, l, self), self, cfg)
  }

  /** Another hero that is admitted and not finished. */
  ghost predicate Settled(s: State, v: Name, self: Name) {
    && v in s.workloads && v != self && s.workloads[v].isHero && s.workloads[v].admission.Some?
    && !(FINISHED in s.workloads[v].conditions && s.workloads[v].conditions[FINISHED].status == True)
  }

  /** Some settled hero has pods assigned to the domain. */
  ghost predicate Inhabited(s: State, input: Input, id: string) {
    exists v :: Settled(s, v, input.self)
      && AssignedTo(s.workloads[v], input.level, NodeDomain(input.nodes, input.level), id)
  }

  lemma {:induction false} SettledListed(s: State, l: Listing, w: Workload, self: Name)
    requires WellFormed(s) && Lists(l, s)
    ensures w in OtherHeroes(s, l, self) <==> Settled(s, w.key, self) && s.workloads[w.key] == w
  {
    ListedIffStored(s, l, w);
    FilterMember(WorkloadSeq(s, l.workloads), (x: Workload) => OtherAdmittedHero(x, self), w);
  }

  /** A domain is off limits exactly while another settled hero has pods there. */
  lemma {:induction false} OccupiedIffInhabited(s: State, cfg: Config, l: Listing, levels: (string, string), self: Name,
      id: string)
    requires WellFormed(s) && Lists(l, s) && id in BuildSpec(Seen(s, cfg, l, levels, self)).domains
    ensures BuildSpec(Seen(s, cfg, l, levels, self)).domains[id].hasOtherHero
      <==> Inhabited(s, Seen(s, cfg, l, levels, self), id)
  {
    var input := Seen(s, cfg, l, levels, self);
    var at := NodeDomain(input.nodes, input.level);
    OccupiedIff(input, id);
    if h :| h in input.otherHeroes && AssignedTo(h, input.level, at, id) {
      SettledListed(s, l, h, self);
      assert Settled(s, h.key, self);
    }
    if v :| Settled(s, v, self) && AssignedTo(s.workloads[v], input.level, at, id) {
      SettledListed(s, l, s.workloads[v], self);
    }
  }

  /** Everybody the drain would evict there ranks below the hero. */
  ghost predicate OnlyLesser(s: State, input: Input, id: string, w: Workload) {
    forall p :: p in s.pods && HoldsMovable(input, p, id) && PodOwner(p) in s.workloads ==>
      (match s.workloads[PodOwner(p)].priority case Some(n) => n case None => 0)
        < (match w.priority case Some(n) => n case None => 0)
  }

  /** GPUs of the domain's nodes where the hero can land, and of the pods there that nothing moves. */
  ghost predicate RoomFor(input: Input, id: string, load: nat) {
    var held := Sum(FixedShares(input, input.pods, id));
    held < Sum(NodeShares(input, input.nodes, id)) && load + held <= Sum(NodeShares(input, input.nodes, id))
  }

  /** The domain's victims are its movable pods, so their owners are whom OnlyLesser speaks of. */
  lemma {:induction false} LesserVictims(s: State, input: Input, id: string, w: Workload, victims: seq<Victim>)
    requires input.pods == s.pods
    requires forall v :: v in victims <==> IsMovable(input, id, v)
    ensures OnlyLesser(s, input, id, w) <==>
      forall v :: v in victims && v.workload in s.workloads ==> Priority(s.workloads[v.workload]) < Priority(w)
  {
    if OnlyLesser(s, input, id, w) {
      forall v | v in victims && v.workload in s.workloads
        ensures Priority(s.workloads[v.workload]) < Priority(w)
      {
        assert IsMovable(input, id, v);
        var p :| p in input.pods && HoldsMovable(input, p, id) && v == AsVictim(p, input.cfg);
      }
    } else {
      var p :| p in s.pods && HoldsMovable(input, p, id) && PodOwner(p) in s.workloads
        && Priority(s.workloads[PodOwner(p)]) >= Priority(w);
      assert IsMovable(input, id, AsVictim(p, input.cfg));
    }
  }

  ghost predicate IsMovable(input: Input, id: string, v: Victim) {
    exists p :: p in input.pods && HoldsMovable(input, p, id) && v == AsVictim(p, input.cfg)
  }

  lemma {:induction false} MovableVictims(input: Input, id: string)
    requires id in BuildSpec(input).domains
    ensures forall v :: v in BuildSpec(input).domains[id].victims <==> IsMovable(input, id, v)
  {
    forall v ensures v in BuildSpec(input).domains[id].victims <==> IsMovable(input, id, v) {
      MovableMeaning(input, input.pods, id, v);
    }
  }

  /** The domain is of the group, nobody else inhabits it, and it has room once the lesser workloads are gone. */
  ghost predicate CanHost(s: State, input: Input, w: Workload, group: string, id: string, load: nat) {
    && id in BuildSpec(input).domains && BuildSpec(input).domains[id].group == group
    && !Inhabited(s, input, id) && OnlyLesser(s, input, id, w) && RoomFor(input, id, load)
  }

  /** The units can move into domains of one group. */
  ghost predicate CanMove(s: State, cfg: Config, l: Listing, look: Look, w: Workload, group: string, home: seq<string>)
    requires Lists(l, s) && look.levels.Some?
  {
    var input, units := Seen(s, cfg, l, look.levels.value, w.key), SortDesc(Expand(look.demand));
    |home| == |units| && forall id :: id in home ==> CanHost(s, input, w, group, id, LoadAt(units, home, id))
  }

  lemma {:induction false} DomainTakes(s: State, q: Query, input: Input, w: Workload, id: string, load: nat, d: Domain)
    requires q.workloads == s.workloads && q.hero.priority == Priority(w)
    requires d.hasOtherHero <==> Inhabited(s, input, id)
    requires OnlyLesser(s, input, id, w) <==>
      forall v :: v in d.victims && v.workload in s.workloads ==> Priority(s.workloads[v.workload]) < Priority(w)
    requires d.allocatable == Sum(NodeShares(input, input.nodes, id))
    requires d.nonReclaimable == Sum(FixedShares(input, input.pods, id))
    ensures !Inhabited(s, input, id) && OnlyLesser(s, input, id, w) && RoomFor(input, id, load) <==>
      Drainable(q, d) && load + d.nonReclaimable <= d.allocatable
  {
  }

  lemma {:induction false} HostIffTakes(s: State, q: Query, input: Input, w: Workload, group: string, id: string,
      load: nat)
    requires q.snap == BuildSpec(input) && input.pods == s.pods
    requires q.workloads == s.workloads && q.hero.priority == Priority(w)
    requires id in q.snap.domains ==> (q.snap.domains[id].hasOtherHero <==> Inhabited(s, input, id))
    ensures CanHost(s, input, w, group, id, load) <==> Takes(q, group, id, load)
  {
    if id in q.snap.domains {
      MovableVictims(input, id);
      LesserVictims(s, input, id, w, q.snap.domains[id].victims);
      AllocatableByNode(input, id);
      NonReclaimableByPod(input, id);
      DomainTakes(s, q, input, w, id, load, q.snap.domains[id]);
    }
  }

  lemma {:induction false} MovesIffFits(s: State, cfg: Config, l: Listing, look: Look, w: Workload, group: string,
      home: seq<string>)
    requires ValidConfig(cfg) && WellFormed(s) && Lists(l, s) && look.levels.Some?
    ensures CanMove(s, cfg, l, look, w, group, home) <==>
      Fits(Plan(Seen(s, cfg, l, look.levels.value, w.key), HeroOf(w, look), s.workloads, s.now), group, home)
  {
    var input, units := Seen(s, cfg, l, look.levels.value, w.key), SortDesc(Expand(look.demand));
    var q := Plan(input, HeroOf(w, look), s.workloads, s.now);
    if |home| == |units| {
      forall id ensures var load := LoadAt(units, home, id);
        CanHost(s, input, w, group, id, load) <==> Takes(q, group, id, load)
      {
        if id in q.snap.domains {
          OccupiedIffInhabited(s, cfg, l, look.levels.value, w.key, id);
        }
        HostIffTakes(s, q, input, w, group, id, LoadAt(units, home, id));
      }
    }
  }

  /** Every plan is such a move, onto exactly the domains it drains. */
  lemma {:induction false} PlanMoves(s: State, cfg: Config, l: Listing, look: Look, w: Workload)
    returns (group: string, home: seq<string>)
    requires ValidConfig(cfg) && WellFormed(s) && Lists(l, s) && OutcomeFor(s, cfg, l, look, w).Planned?
    ensures CanMove(s, cfg, l, look, w, group, home)
    ensures forall id :: id in home <==> id in OutcomeFor(s, cfg, l, look, w).plan.domainIds
  {
    var input := Seen(s, cfg, l, look.levels.value, w.key);
    BuildKeyed(input);
    group, home := PlanFits(Plan(input, HeroOf(w, look), s.workloads, s.now));
    MovesIffFits(s, cfg, l, look, w, group, home);
  }

  /** For divisor-chain demand the hero has a plan exactly when its units can be moved somewhere at all. */
  lemma {:induction false} PlanIffMove(s: State, cfg: Config, l: Listing, look: Look, w: Workload)
    requires ValidConfig(cfg) && WellFormed(s) && Lists(l, s) && look.levels.Some?
    requires DivisorChain(Expand(look.demand)) && SortDesc(Expand(look.demand)) != []
    ensures OutcomeFor(s, cfg, l, look, w).Planned?
      <==> exists group, home :: CanMove(s, cfg, l, look, w, group, home)
  {
    var input := Seen(s, cfg, l, look.levels.value, w.key);
    BuildKeyed(input);
    PlannedIffFits(Plan(input, HeroOf(w, look), s.workloads, s.now));
    forall group, home
      ensures CanMove(s, cfg, l, look, w, group, home)
        <==> Fits(Plan(input, HeroOf(w, look), s.workloads, s.now), group, home)
    {
      MovesIffFits(s, cfg, l, look, w, group, home);
    }
  }
}
