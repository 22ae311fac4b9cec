/**
 pkg/controller/drain: what one reconcile of a workload does, as the sequence of API calls it makes.
 The reconciler class further on makes exactly these calls.
 */
module DrainCalls {
  import opened Base
  import opened Kube
  import opened Taints
  import opened Snapshots
  import opened Heroes
  import opened Selection
  import opened Replanning
  import opened Order
  import opened Clusters

  // ---- victims on the tainted nodes ----

  function PodOwner(p: Pod): Name
    requires WORKLOAD_ANNOTATION in p.annotations
  {
    Name(p.key.ns, p.annotations[WORKLOAD_ANNOTATION])
  }

  /** A live kueue-managed pod on the node that is not the hero's own. */
  predicate Occupies(p: Pod, node: string, self: Name) {
    && p.node == node && node != "" && !Terminal(p)
    && WORKLOAD_ANNOTATION in p.annotations && PodOwner(p) != self
  }

  function AddOccupants(acc: seq<Name>, pods: seq<Pod>, node: string, self: Name): seq<Name> {
    if pods == [] then acc
    else
      var rest, p := AddOccupants(acc, pods[..|pods| - 1], node, self), pods[|pods| - 1];
      if Occupies(p, node, self) && PodOwner(p) !in rest then rest + [PodOwner(p)] else rest
  }

  function Occupants(pods: seq<Pod>, nodes: seq<string>, self: Name): seq<Name> {
    if nodes == [] then []
    else AddOccupants(Occupants(pods, nodes[..|nodes| - 1], self), pods, nodes[|nodes| - 1], self)
  }

  lemma {:induction false} AddOccupantsMeaning(acc: seq<Name>, pods: seq<Pod>, node: string, self: Name)
    requires NoRepeats(acc)
    ensures var r := AddOccupants(acc, pods, node, self);
      && NoRepeats(r)
      && forall v :: v in r <==> v in acc || exists p :: p in pods && Occupies(p, node, self) && PodOwner(p) == v
  {
    if pods == [] {
    } else {
      var init, p := pods[..|pods| - 1], pods[|pods| - 1];
      AddOccupantsMeaning(acc, init, node, self);
      var rest := AddOccupants(acc, init, node, self);
      assert pods == init + [p];
      if Occupies(p, node, self) && PodOwner(p) !in rest {
        NoRepeatsSnoc(rest, PodOwner(p));
      }
      forall v ensures v in AddOccupants(acc, pods, node, self)
        <==> v in acc || exists p :: p in pods && Occupies(p, node, self) && PodOwner(p) == v
      {
        if Occupies(p, node, self) && PodOwner(p) == v {
          assert p in pods;
        }
      }
    }
  }

  /** Each workload with a live pod on some of the nodes once, never the hero itself. */
  lemma {:induction false} OccupantsMeaning(pods: seq<Pod>, nodes: seq<string>, self: Name)
    ensures NoRepeats(Occupants(pods, nodes, self))
    ensures forall v :: v in Occupants(pods, nodes, self) <==>
      exists p, n :: p in pods && n in nodes && Occupies(p, n, self) && PodOwner(p) == v
    ensures self !in Occupants(pods, nodes, self)
  {
    if nodes == [] {
    } else {
      var init, node := nodes[..|nodes| - 1], nodes[|nodes| - 1];
      OccupantsMeaning(pods, init, self);
      AddOccupantsMeaning(Occupants(pods, init, self), pods, node, self);
      assert nodes == init + [node];
      forall v ensures v in Occupants(pods, nodes, self)
        <==> exists p, n :: p in pods && n in nodes && Occupies(p, n, self) && PodOwner(p) == v
      {
        if p, n :| p in pods && n in nodes && Occupies(p, n, self) && PodOwner(p) == v {
          assert n in init || n == node;
        }
        if p :| p in pods && Occupies(p, node, self) && PodOwner(p) == v {
          assert node in nodes;
        }
      }
    }
  }

  // ---- suspending and reactivating ----

  /** Never a hero-classed workload, whatever the selection thought of its domain. */
  predicate IsVictimNow(s: State, v: Name) {
    v in s.workloads && !s.workloads[v].heroClass
  }

  /** Someone on the nodes is still to be waited for. */
  predicate SomeVictim(s: State, occupants: seq<Name>) {
    exists v :: v in occupants && IsVictimNow(s, v)
  }

  lemma {:induction false} SomeVictimSnoc(s: State, occupants: seq<Name>, v: Name)
    ensures SomeVictim(s, occupants + [v]) <==> SomeVictim(s, occupants) || IsVictimNow(s, v)
  {
    assert forall x :: x in occupants + [v] <==> x in occupants || x == v;
  }

  predicate ToSuspend(s: State, v: Name) {
    IsVictimNow(s, v) && !Inactive(s.workloads[v])
  }

  function SuspendCalls(s: State, victims: seq<Name>, hero: Name): seq<Call> {
    SuspendAll(Filter(victims, (v: Name) => ToSuspend(s, v)), hero)
  }

  /** kueue finished evicting the workload after spec.active went false. */
  predicate EvictedByDeactivation(w: Workload) {
    ConditionTrue(w, EVICTED) && DEACTIVATED <= w.conditions[EVICTED].reason
  }

  predicate Returnable(w: Workload) {
    Inactive(w) && EvictedByDeactivation(w)
  }

  predicate ReadyToReturn(s: State, text: string, v: Name) {
    IsMarkedFor(s, text, v) && Returnable(s.workloads[v])
  }

  /** One more listed victim looked at. */
  lemma {:induction false} ReturnStep(s: State, done: seq<Name>, v: Name, keep: Name -> bool, key: string)
    requires forall x :: keep(x) ==> x in s.workloads
    ensures var t := Run(s, ReactivateAll(Filter(done, keep)), key);
      && t.workloads.Keys == s.workloads.Keys
      && Run(s, ReactivateAll(Filter(done + [v], keep)), key) == if keep(v) then Apply(t, Reactivate(v), key) else t
  {
    var back := Filter(done, keep);
    assert (done + [v])[..|done|] == done;
    forall x | x in back ensures x in s.workloads {
      FilterMember(done, keep, x);
    }
    ReactivateEffect(s, back, key);
    if keep(v) {
      RunSnoc(s, ReactivateAll(back), Reactivate(v), key);
      assert ReactivateAll(back + [v]) == ReactivateAll(back) + [Reactivate(v)];
    }
  }

  function ReturnCalls(s: State, l: Listing, text: string): seq<Call> {
    ReactivateAll(Filter(l.workloads, (v: Name) => ReadyToReturn(s, text, v)))
  }

  /** One more occupant looked at: the earlier suspensions do not change what is read of it. */
  lemma {:induction false} SuspendStep(s: State, done: seq<Name>, v: Name, hero: Name, key: string)
    requires v !in done
    ensures var t := Run(s, SuspendCalls(s, done, hero), key);
      && t.workloads.Keys == s.workloads.Keys && (v in s.workloads ==> t.workloads[v] == s.workloads[v])
      && Run(s, SuspendCalls(s, done + [v], hero), key)
        == if ToSuspend(s, v) then Apply(t, Suspend(v, hero), key) else t
  {
    var keep := (x: Name) => ToSuspend(s, x);
    var vs := Filter(done, keep);
    forall x | x in vs ensures x in s.workloads && x in done {
      FilterMember(done, keep, x);
    }
    SuspendEffect(s, vs, hero, key);
    assert (done + [v])[..|done|] == done;
    if ToSuspend(s, v) {
      assert Filter(done + [v], keep) == vs + [v];
      assert SuspendAll(vs + [v], hero) == SuspendAll(vs, hero) + [Suspend(v, hero)];
      RunSnoc(s, SuspendAll(vs, hero), Suspend(v, hero), key);
    } else {
      assert Filter(done + [v], keep) == vs;
    }
  }

  // ---- the nudge ----

  function MinString(xs: seq<string>): string
    requires xs != []
  {
    if |xs| == 1 then xs[0]
    else
      var rest, last := MinString(xs[..|xs| - 1]), xs[|xs| - 1];
      if StrLess(last, rest) then last else rest
  }

  predicate NudgeDue(s: State, node: string, interval: int) {
    node in s.nodes &&
    var last := s.nodes[node].nudge;
    !(last.Some? && last.value.At? && s.now - last.value.time < interval)
  }

  function NudgeCalls(s: State, hero: Workload, nodes: seq<string>, interval: int): seq<Call> {
    if hero.admission.Some? || nodes == [] then []
    else if MinString(nodes) !in s.nodes || NudgeDue(s, MinString(nodes), interval) then [StampNudge(MinString(nodes))]
    else []
  }

  // ---- phases ----

  /** cycleVictims: suspend who is still there, return who is out, and nudge kueue once nobody is left. */
  function CycleCalls(s: State, cfg: Config, l: Listing, hero: Workload, nodes: seq<string>): seq<Call> {
    var occupants := Occupants(s.pods, nodes, hero.key);
    var suspends := SuspendCalls(s, occupants, hero.key);
    var mid := Run(s, suspends, cfg.taintKey);
    var back := ReturnCalls(mid, l, OwnerRef(hero.key));
    var pending := SomeVictim(s, occupants);
    suspends + back
      + (if pending then [] else NudgeCalls(Run(mid, back, cfg.taintKey), hero, nodes, cfg.nudgeInterval))
  }

  function AbortCalls(s: State, l: Listing, hero: Name, nodes: seq<string>): seq<Call> {
    SweepCalls(s, l, OwnerRef(hero)) + DropAll(nodes, hero) + [CountEnd]
  }

  /** A victim's own event: back at once if its hero is gone, else when kueue has evicted it. */
  function VictimEventCalls(s: State, v: Name): seq<Call>
    requires v in s.workloads && s.workloads[v].deactivatedFor.Some?
  {
    var w := s.workloads[v];
    var owner := Cut(w.deactivatedFor.value);
    if !Inactive(w) then []
    else if owner.Some? && Name(owner.value.0, owner.value.1) !in s.workloads then [Reactivate(v)]
    else if EvictedByDeactivation(w) then [Reactivate(v)]
    else []
  }

  lemma {:induction false} SuspendsComplete(s: State, victims: seq<Name>, hero: Name, key: string)
    ensures Completes(s, SuspendCalls(s, victims, hero), key)
    ensures SameObjects(s, Run(s, SuspendCalls(s, victims, hero), key))
  {
    var keep := (v: Name) => ToSuspend(s, v);
    forall v | v in Filter(victims, keep) ensures v in s.workloads {
      FilterMember(victims, keep, v);
    }
    SuspendEffect(s, Filter(victims, keep), hero, key);
    RunSameObjects(s, SuspendCalls(s, victims, hero), key);
  }

  lemma {:induction false} ReturnsComplete(s: State, l: Listing, text: string, key: string)
    requires Lists(l, s)
    ensures Completes(s, ReturnCalls(s, l, text), key)
  {
    var keep := (v: Name) => ReadyToReturn(s, text, v);
    forall v | v in Filter(l.workloads, keep) ensures v in s.workloads {
      FilterMember(l.workloads, keep, v);
    }
    ReactivateEffect(s, Filter(l.workloads, keep), key);
  }

  /** The three parts of a cycle, run one after the other. */
  lemma {:induction false} CycleCompletes(s: State, cfg: Config, l: Listing, hero: Workload, nodes: seq<string>)
    requires Lists(l, s)
    ensures var occupants := Occupants(s.pods, nodes, hero.key);
      var mid := Run(s, SuspendCalls(s, occupants, hero.key), cfg.taintKey);
      var after := Run(mid, ReturnCalls(mid, l, OwnerRef(hero.key)), cfg.taintKey);
      && Lists(l, mid)
      && Run(s, CycleCalls(s, cfg, l, hero, nodes), cfg.taintKey) ==
          if SomeVictim(s, occupants) then after
          else Run(after, NudgeCalls(after, hero, nodes, cfg.nudgeInterval), cfg.taintKey)
  {
    var occupants := Occupants(s.pods, nodes, hero.key);
    var suspends := SuspendCalls(s, occupants, hero.key);
    SuspendsComplete(s, occupants, hero.key, cfg.taintKey);
    var mid := Run(s, suspends, cfg.taintKey);
    var back := ReturnCalls(mid, l, OwnerRef(hero.key));
    ReturnsComplete(mid, l, OwnerRef(hero.key), cfg.taintKey);
    RunConcat(s, suspends, back, cfg.taintKey);
    var after := Run(mid, back, cfg.taintKey);
    var last := if SomeVictim(s, occupants) then [] else NudgeCalls(after, hero, nodes, cfg.nudgeInterval);
    RunConcat(s, suspends + back, last, cfg.taintKey);
    assert Run(after, [], cfg.taintKey) == after;
  }

  /** An abort runs to its end: swept, then untainted, then counted. */
  lemma {:induction false} AbortCompletes(s: State, l: Listing, hero: Name, nodes: seq<string>, key: string)
    requires Lists(l, s)
    ensures var mid := Run(s, SweepCalls(s, l, OwnerRef(hero)), key);
      var after := Run(mid, DropAll(nodes, hero), key);
      && Completes(s, AbortCalls(s, l, hero, nodes), key)
      && Run(s, AbortCalls(s, l, hero, nodes), key) == Apply(after, CountEnd, key)
  {
    var sweep := SweepCalls(s, l, OwnerRef(hero));
    SweepEffect(s, l, OwnerRef(hero), key);
    var mid := Run(s, sweep, key);
    DropEffect(mid, nodes, hero, key);
    RunConcat(s, sweep, DropAll(nodes, hero), key);
    RunSnoc(s, sweep + DropAll(nodes, hero), CountEnd, key);
  }

  // ---- the line and the plan ----

  predicate StuckHero(w: Workload) {
    !Inactive(w) && w.stuck && w.isHero
  }

  function StuckHeroes(s: State, l: Listing): seq<Workload>
    requires forall v :: v in l.workloads ==> v in s.workloads
  {
    Filter(WorkloadSeq(s, l.workloads), StuckHero)
  }

  predicate OtherAdmittedHero(w: Workload, self: Name) {
    w.key != self && w.admission.Some? && !ConditionTrue(w, FINISHED) && w.isHero
  }

  function OtherHeroes(s: State, l: Listing, self: Name): seq<Workload>
    requires forall v :: v in l.workloads ==> v in s.workloads
  {
    Filter(WorkloadSeq(s, l.workloads), (w: Workload) => OtherAdmittedHero(w, self))
  }

  /** What a reconcile looks up beside nodes, pods and workloads: the queue, the levels and the demand. */
  datatype Look = Look(queue: string, levels: Option<(string, string)>, demand: seq<Chunk>)

  /** topo: the level labels of the Topology behind the ClusterQueue, coarsest first. */
  ghost predicate LevelsFor(podSets: seq<PodSet>, topo: seq<string>, levels: Option<(string, string)>) {
    if SliceLevels(podSets) == {} || !AllKnown(SliceLevels(podSets), topo) || !AllKnown(RequiredLevels(podSets), topo)
    then levels.None?
    else
      && levels.Some?
      && IsCoarsest(SliceLevels(podSets), topo, levels.value.0)
      && IsGrouping(RequiredLevels(podSets), topo, levels.value.0, levels.value.1)
  }

  /** Level a is level b or coarser: it is listed no later. */
  ghost predicate AtOrAbove(topo: seq<string>, a: string, b: string) {
    b in topo && exists i :: 0 <= i < |topo| && topo[i] == a && b !in topo[..i]
  }

  lemma {:induction false} AboveIffIndex(topo: seq<string>, a: string, b: string)
    requires a in topo && b in topo
    ensures AtOrAbove(topo, a, b) <==> IndexOf(topo, a) <= IndexOf(topo, b)
  {
    var i, j := IndexOf(topo, a), IndexOf(topo, b);
    assert forall k :: 0 <= k < i ==> topo[k] == topo[..i][k];
    if i <= j {
      assert forall k :: 0 <= k < i ==> topo[..i][k] == topo[..j][k];
    }
    if AtOrAbove(topo, a, b) {
      var k :| 0 <= k < |topo| && topo[k] == a && b !in topo[..k];
      assert forall x :: 0 <= x < k ==> topo[x] == topo[..k][x];
    }
  }

  ghost predicate SliceAt(podSets: seq<PodSet>, level: string) {
    exists ps :: ps in podSets && AsksForSlices(ps) && ps.topology.value.sliceRequired == Some(level)
  }

  /** A slice podset must stay within one domain of this level. */
  ghost predicate BoundTo(podSets: seq<PodSet>, level: string) {
    level != "" && exists ps :: ps in podSets && AsksForSlices(ps) && ps.topology.value.required == Some(level)
  }

  lemma {:induction false} LevelSets(podSets: seq<PodSet>)
    ensures forall level :: level in SliceLevels(podSets) <==> SliceAt(podSets, level)
    ensures forall level :: level in RequiredLevels(podSets) <==> BoundTo(podSets, level)
  {
    forall ps | ps in podSets ensures RequiresSliceTopology(ps) <==> AsksForSlices(ps) {
    }
    forall level
      ensures level in SliceLevels(podSets) <==> SliceAt(podSets, level)
      ensures level in RequiredLevels(podSets) <==> BoundTo(podSets, level)
    {
    }
  }

  /** level is the coarsest level some slice podset asks for. */
  ghost predicate Coarsest(podSets: seq<PodSet>, topo: seq<string>, level: string) {
    SliceAt(podSets, level) && forall other :: SliceAt(podSets, other) ==> AtOrAbove(topo, level, other)
  }

  /** group is the finest level at or above the given one that some slice podset is bound to, "" without any. */
  ghost predicate Grouping(podSets: seq<PodSet>, topo: seq<string>, level: string, group: string) {
    && (group != "" ==> BoundTo(podSets, group) && AtOrAbove(topo, group, level))
    && forall r :: BoundTo(podSets, r) && AtOrAbove(topo, r, level) ==> group != "" && AtOrAbove(topo, r, group)
  }

  ghost predicate Unresolvable(podSets: seq<PodSet>, topo: seq<string>) {
    || (forall level :: !SliceAt(podSets, level))
    || (exists level :: level !in topo && (SliceAt(podSets, level) || BoundTo(podSets, level)))
  }

  /** The levels a hero is drained at and kept inside; none if it has no slices or names an unknown level. */
  lemma {:induction false} LevelsMeaning(podSets: seq<PodSet>, topo: seq<string>, levels: Option<(string, string)>)
    requires LevelsFor(podSets, topo, levels)
    ensures levels.None? <==> Unresolvable(podSets, topo)
    ensures levels.Some? ==>
      Coarsest(podSets, topo, levels.value.0) && Grouping(podSets, topo, levels.value.0, levels.value.1)
  {
    LevelSets(podSets);
    if levels.Some? {
      CoarsestMeaning(podSets, topo, levels.value.0);
      GroupingMeaning(podSets, topo, levels.value.0, levels.value.1);
    } else if SliceLevels(podSets) == {} {
      forall level ensures !SliceAt(podSets, level) {
        assert level !in SliceLevels(podSets);
      }
    }
  }

  lemma {:induction false} CoarsestMeaning(podSets: seq<PodSet>, topo: seq<string>, level: string)
    requires IsCoarsest(SliceLevels(podSets), topo, level)
    ensures Coarsest(podSets, topo, level)
  {
    LevelSets(podSets);
    forall other | SliceAt(podSets, other) ensures AtOrAbove(topo, level, other) {
      AboveIffIndex(topo, level, other);
    }
  }

  lemma {:induction false} GroupingMeaning(podSets: seq<PodSet>, topo: seq<string>, level: string, group: string)
    requires level in topo && IsGrouping(RequiredLevels(podSets), topo, level, group)
    ensures Grouping(podSets, topo, level, group)
  {
    LevelSets(podSets);
    var applicable := Applicable(RequiredLevels(podSets), topo, level);
    forall r | BoundTo(podSets, r) ensures r in applicable <==> AtOrAbove(topo, r, level) {
      assert r in RequiredLevels(podSets);
      AboveIffIndex(topo, r, level);
    }
    if applicable != {} {
      assert group in applicable && group in RequiredLevels(podSets);
      AboveIffIndex(topo, group, level);
      forall r | r in applicable ensures AtOrAbove(topo, r, group) {
        AboveIffIndex(topo, r, group);
      }
    }
  }

  ghost predicate LookFor(w: Workload, topo: seq<string>, cfg: Config, look: Look) {
    && LevelsFor(w.podSets, topo, look.levels)
    && multiset(Expand(look.demand)) == multiset(Slices(w.podSets, cfg.gpu))
  }

  function PlanInput(s: State, cfg: Config, l: Listing, levels: (string, string), self: Name): Input
    requires forall n :: n in l.nodes ==> n in s.nodes
    requires forall v :: v in l.workloads ==> v in s.workloads
  {
    Input(levels.0, levels.1, NodeSeq(s, l.nodes), s.pods, OtherHeroes(s, l, self), self, cfg)
  }

  function HeroOf(w: Workload, look: Look): HeroSpec {
    HeroSpec(w.key, Priority(w), PodCount(w.podSets), look.queue, look.demand)
  }

  /** The plan the selection makes for this hero on this cluster. */
  ghost function OutcomeFor(s: State, cfg: Config, l: Listing, look: Look, w: Workload): Outcome
    requires ValidConfig(cfg)
    requires forall n :: n in l.nodes ==> n in s.nodes
    requires forall v :: v in l.workloads ==> v in s.workloads
  {
    if look.levels.None? then NoFeasibleDomains
    else SelectSpec(Plan(PlanInput(s, cfg, l, look.levels.value, w.key), HeroOf(w, look), s.workloads, s.now))
  }

  /** Taint every planned node, count the start if this is one, then cycle the victims. */
  function StartCalls(s: State, cfg: Config, l: Listing, look: Look, w: Workload, nodes: seq<string>,
      resuming: bool): seq<Call> {
    var taints := TaintAllCalls(nodes, w.key, look.queue) + (if resuming then [] else [CountStart]);
    taints + CycleCalls(Run(s, taints, cfg.taintKey), cfg, l, w, nodes)
  }

  lemma {:induction false} TaintsKeepWorkloads(s: State, calls: seq<Call>, key: string)
    requires forall i :: 0 <= i < |calls| ==> calls[i].PutTaint? || calls[i].CountStart?
    ensures Run(s, calls, key).workloads == s.workloads && Run(s, calls, key).pods == s.pods
    decreases |calls|
  {
    if calls != [] && !Fails(s, calls[0], key) {
      TaintsKeepWorkloads(Apply(s, calls[0], key), calls[1..], key);
    }
  }

  /** A start either stops inside the taint loop or counts and cycles. */
  lemma {:induction false} StartRuns(s: State, cfg: Config, l: Listing, look: Look, w: Workload, nodes: seq<string>,
      resuming: bool)
    ensures var key, taints := cfg.taintKey, TaintAllCalls(nodes, w.key, look.queue);
      var tainted := Run(s, taints, key);
      var counted := if resuming then tainted else Apply(tainted, CountStart, key);
      Run(s, StartCalls(s, cfg, l, look, w, nodes, resuming), key)
        == if Completes(s, taints, key) then Run(counted, CycleCalls(counted, cfg, l, w, nodes), key) else tainted
  {
    var key, taints := cfg.taintKey, TaintAllCalls(nodes, w.key, look.queue);
    var count: seq<Call> := if resuming then [] else [CountStart];
    RunConcat(s, taints, count, key);
    RunOne(Run(s, taints, key), CountStart, key);
    var mid := Run(s, taints + count, key);
    RunConcat(s, taints + count, CycleCalls(mid, cfg, l, w, nodes), key);
  }

  // ---- Reconcile ----

  /** From the serialization gate on, given what the selection answers if it is asked. */
  function HeroCalls(s: State, cfg: Config, l: Listing, look: Look, w: Workload, outcome: Outcome): seq<Call>
    requires Lists(l, s)
  {
    var drains := DrainsIn(s, cfg.taintKey, l);
    var own := w.key in drains;
    var front := Front(StuckHeroes(s, l));
    if !(drains.Keys <= {w.key}) then []
    else if !own && (front.None? || front.value.key != w.key) then []
    else if look.levels.None? then []
    else if !outcome.Planned? then (if own then AbortCalls(s, l, w.key, drains[w.key].nodes) else [])
    else if cfg.dryRun then []
    else StartCalls(s, cfg, l, look, w, outcome.plan.nodes, own)
  }

  ghost function ReconcileCalls(s: State, cfg: Config, l: Listing, look: Look, key: Name): seq<Call>
    requires ValidConfig(cfg) && Lists(l, s)
  {
    if key !in s.workloads then []
    else
      var w, drains := s.workloads[key], DrainsIn(s, cfg.taintKey, l);
      if w.deactivatedFor.Some? then VictimEventCalls(s, key)
      else if Inactive(w) then []
      else if !w.isHero then (if key in drains then AbortCalls(s, l, key, drains[key].nodes) else [])
      else if !w.stuck then (if key in drains then CycleCalls(s, cfg, l, w, drains[key].nodes) else [])
      else if w.overQuota then (if key in drains then AbortCalls(s, l, key, drains[key].nodes) else [])
      else HeroCalls(s, cfg, l, look, w, OutcomeFor(s, cfg, l, look, w))
  }
}
