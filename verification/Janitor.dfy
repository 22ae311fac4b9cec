/**
 pkg/controller/janitor: one question about one tainted node, does its taint still serve its hero, and the
 calls that follow from the answer.
 */
module Janitor {
  import opened Base
  import opened Kube
  import opened Taints
  import opened Clusters

  // ---- what the ladder asks ----

  function LastOf(xs: seq<string>): Option<string> {
    if xs == [] then None else Some(xs[|xs| - 1])
  }

  predicate DomainHits(ta: TopologyAssignment, d: TopologyDomain, node: Node) {
    var lowest := LastOf(ta.levels);
    && lowest.Some? && d.values != []
    && if lowest.value == HOSTNAME then LastOf(d.values) == Some(node.name)
       else lowest.value in node.labels && LastOf(d.values) == Some(node.labels[lowest.value]) && d.count > 0
  }

  predicate TopologyHits(ta: TopologyAssignment, node: Node) {
    exists i :: 0 <= i < |ta.domains| && DomainHits(ta, ta.domains[i], node)
  }

  /** The assignment places pods on the node: by host name, or by its label at the lowest assigned level. */
  predicate Touches(adm: Admission, node: Node) {
    exists i :: 0 <= i < |adm.assignments| && adm.assignments[i].topology.Some?
      && TopologyHits(adm.assignments[i].topology.value, node)
  }

  predicate IsRunningPodOf(p: Pod, hero: Name) {
    && p.key.ns == hero.ns && WORKLOAD_ANNOTATION in p.annotations && p.annotations[WORKLOAD_ANNOTATION] == hero.name
    && p.phase == Running
  }

  function RunningPods(pods: seq<Pod>, hero: Name): nat {
    |Filter(pods, (p: Pod) => IsRunningPodOf(p, hero))|
  }

  datatype Reason = Abandoned | DeactivatedHero | FinishedHero | PlacedElsewhere | Placed | TimedOut

  datatype Verdict = NotOurs | Tear(owner: Name, reason: Reason) | RestartTheClock | Wait(delay: int)

  /** The decision ladder; the first answer wins. */
  function Ladder(node: Node, cfg: Config, heroes: map<Name, Workload>, pods: seq<Pod>, now: int): Verdict {
    var owner := Owner(node, cfg.taintKey);
    if owner.None? then NotOurs
    else if owner.value !in heroes then Tear(owner.value, Abandoned)
    else
      var hero := heroes[owner.value];
      if Inactive(hero) then Tear(owner.value, DeactivatedHero)
      else if ConditionTrue(hero, FINISHED) then Tear(owner.value, FinishedHero)
      else if hero.admission.Some? && !Touches(hero.admission.value, node) then Tear(owner.value, PlacedElsewhere)
      else if hero.admission.Some? && RunningPods(pods, hero.key) >= AdmittedPodCount(hero)
      then Tear(owner.value, Placed)
      else if ClockOf(node).None? then RestartTheClock
      else
        var remaining := cfg.drainTimeout - (now - ClockOf(node).value);
        if remaining > 0 then Wait(remaining) else Tear(owner.value, TimedOut)
  }

  // ---- the calls ----

  predicate IsLastNode(s: State, cfg: Config, l: Listing, node: string, owner: Name)
    requires forall n :: n in l.nodes ==> n in s.nodes
  {
    var drains := DrainsIn(s, cfg.taintKey, l);
    owner in drains && drains[owner].nodes == [node]
  }

  /** Count a drain's last node first, then untaint, then sweep. */
  function TeardownCalls(s: State, cfg: Config, l: Listing, node: string, owner: Name): seq<Call>
    requires forall n :: n in l.nodes ==> n in s.nodes
  {
    var drop := (if IsLastNode(s, cfg, l, node, owner) then [CountEnd] else []) + [DropTaint(node, owner)];
    drop + SweepCalls(Run(s, drop, cfg.taintKey), l, OwnerRef(owner))
  }

  function VisitCalls(s: State, cfg: Config, l: Listing, node: string): seq<Call>
    requires forall n :: n in l.nodes ==> n in s.nodes
  {
    if node !in s.nodes then []
    else
      match Ladder(s.nodes[node], cfg, s.workloads, s.pods, s.now)
      case Tear(owner, _) => TeardownCalls(s, cfg, l, node, owner)
      case RestartTheClock => [StampClock(node)]
      case _ => []
  }

  lemma {:induction false} VisitCases(s: State, cfg: Config, l: Listing, node: string)
    requires forall n :: n in l.nodes ==> n in s.nodes
    ensures var calls := VisitCalls(s, cfg, l, node);
      if node in s.nodes && Ladder(s.nodes[node], cfg, s.workloads, s.pods, s.now).Tear?
      then calls == TeardownCalls(s, cfg, l, node, Ladder(s.nodes[node], cfg, s.workloads, s.pods, s.now).owner)
      else calls == [] || calls == [StampClock(node)]
  {
  }

  lemma {:induction false} TornIsOwned(s: State, cfg: Config, node: string)
    requires node in s.nodes && Ladder(s.nodes[node], cfg, s.workloads, s.pods, s.now).Tear?
    ensures node in OwnedBy(s, cfg.taintKey, Ladder(s.nodes[node], cfg, s.workloads, s.pods, s.now).owner)
  {
  }

  /** The wake-up a visit asks for. */
  function VisitDelay(s: State, cfg: Config, node: string): Option<int> {
    if node !in s.nodes then None
    else
      match Ladder(s.nodes[node], cfg, s.workloads, s.pods, s.now)
      case RestartTheClock => Some(cfg.drainTimeout)
      case Wait(delay) => Some(delay)
      case _ => None
  }

  /** The cluster once the node is untainted and, if it was the drain's last, the drain counted. */
  function Untainted(s: State, cfg: Config, l: Listing, node: string, owner: Name): State
    requires forall n :: n in l.nodes ==> n in s.nodes
  {
    var counted := if IsLastNode(s, cfg, l, node, owner) then Apply(s, CountEnd, cfg.taintKey) else s;
    Apply(counted, DropTaint(node, owner), cfg.taintKey)
  }

  lemma {:induction false} UntaintedObjects(s: State, cfg: Config, l: Listing, node: string, owner: Name)
    requires Lists(l, s)
    ensures Lists(l, Untainted(s, cfg, l, node, owner))
    ensures Untainted(s, cfg, l, node, owner).workloads == s.workloads
    ensures Untainted(s, cfg, l, node, owner).nodes == Apply(s, DropTaint(node, owner), cfg.taintKey).nodes
  {
  }

  /** A teardown runs to its end: the taint is off, then the drain's markers are gone. */
  lemma {:induction false} TeardownCompletes(s: State, cfg: Config, l: Listing, node: string, owner: Name)
    requires Lists(l, s)
    ensures var mid := Untainted(s, cfg, l, node, owner);
      && Lists(l, mid)
      && Completes(s, TeardownCalls(s, cfg, l, node, owner), cfg.taintKey)
      && Run(s, TeardownCalls(s, cfg, l, node, owner), cfg.taintKey)
        == Run(mid, SweepCalls(mid, l, OwnerRef(owner)), cfg.taintKey)
  {
    var key := cfg.taintKey;
    var count: seq<Call> := if IsLastNode(s, cfg, l, node, owner) then [CountEnd] else [];
    if count != [] {
      RunOne(s, CountEnd, key);
    }
    RunSnoc(s, count, DropTaint(node, owner), key);
    UntaintedObjects(s, cfg, l, node, owner);
    var mid := Untainted(s, cfg, l, node, owner);
    SweepEffect(mid, l, OwnerRef(owner), key);
    RunConcat(s, count + [DropTaint(node, owner)], SweepCalls(mid, l, OwnerRef(owner)), key);
  }

  class Reconciler {
    const api: ApiServer
    const cfg: Config

    constructor (api: ApiServer, cfg: Config)
      requires ValidConfig(cfg) && api.taintKey == cfg.taintKey
      ensures this.api == api && this.cfg == cfg && Valid()
    {
      this.api := api;
      this.cfg := cfg;
    }

    ghost predicate Valid() {
      ValidConfig(cfg) && api.taintKey == cfg.taintKey
    }

    method AssignmentTouchesNode(adm: Admission, node: Node) returns (touches: bool)
      ensures touches == Touches(adm, node)
    {
      for i := 0 to |adm.assignments|
        invariant forall k :: 0 <= k < i && adm.assignments[k].topology.Some? ==>
          !TopologyHits(adm.assignments[k].topology.value, node)
      {
        if adm.assignments[i].topology.None? {
          continue;
        }
        var ta := adm.assignments[i].topology.value;
        for j := 0 to |ta.domains|
          invariant forall k :: 0 <= k < j ==> !DomainHits(ta, ta.domains[k], node)
        {
          if DomainHits(ta, ta.domains[j], node) {
            return true;
          }
        }
      }
      touches := false;
    }

    method RunningHeroPods(hero: Name) returns (running: nat)
      ensures running == RunningPods(api.View().pods, hero)
    {
      running := 0;
      for i := 0 to |api.pods|
        invariant running == RunningPods(api.pods[..i], hero)
      {
        assert api.pods[..i + 1][..i] == api.pods[..i];
        if IsRunningPodOf(api.pods[i], hero) {
          running := running + 1;
        }
      }
      assert api.pods[..|api.pods|] == api.pods;
    }

    method CountAdmitted(hero: Workload) returns (total: nat)
      ensures total == AdmittedPodCount(hero)
    {
      total := 0;
      if hero.admission.Some? {
        var assignments := hero.admission.value.assignments;
        for i := 0 to |assignments|
          invariant total == AssignedPodCount(assignments[..i])
        {
          assert assignments[..i + 1][..i] == assignments[..i];
          if assignments[i].count.Some? {
            total := total + assignments[i].count.value;
          }
        }
        assert assignments[..|assignments|] == assignments;
      }
      if total > 0 {
        return;
      }
      for i := 0 to |hero.podSets|
        invariant total == SpecPodCount(hero.podSets[..i])
      {
        assert hero.podSets[..i + 1][..i] == hero.podSets[..i];
        total := total + hero.podSets[i].count;
      }
      assert hero.podSets[..|hero.podSets|] == hero.podSets;
    }

    method Decide(node: Node) returns (verdict: Verdict)
      requires Valid() && WellFormed(api.View())
      ensures verdict == Ladder(node, cfg, api.workloads, api.pods, api.now)
    {
      var owner := Owner(node, cfg.taintKey);
      if owner.None? {
        return NotOurs;
      }
      if owner.value !in api.workloads {
        return Tear(owner.value, Abandoned);
      }
      var hero := api.workloads[owner.value];
      if Inactive(hero) {
        return Tear(owner.value, DeactivatedHero);
      }
      if ConditionTrue(hero, FINISHED) {
        return Tear(owner.value, FinishedHero);
      }
      if hero.admission.Some? {
        var touches := AssignmentTouchesNode(hero.admission.value, node);
        if !touches {
          return Tear(owner.value, PlacedElsewhere);
        }
        var running := RunningHeroPods(hero.key);
        var wanted := CountAdmitted(hero);
        if running >= wanted {
          return Tear(owner.value, Placed);
        }
      }
      var startedAt := ClockOf(node);
      if startedAt.None? {
        return RestartTheClock;
      }
      var remaining := cfg.drainTimeout - (api.now - startedAt.value);
      if remaining > 0 {
        return Wait(remaining);
      }
      return Tear(owner.value, TimedOut);
    }

    method Teardown(l: Listing, node: string, owner: Name)
      requires Valid() && Lists(l, api.View())
      modifies api
      ensures api.View() == Run(old(api.View()), TeardownCalls(old(api.View()), cfg, l, node, owner), cfg.taintKey)
    {
      TeardownCompletes(api.View(), cfg, l, node, owner);
      var drains := api.DrainsInFlight(l);
      var last := owner in drains && |drains[owner].nodes| == 1 && drains[owner].nodes[0] == node;
      assert last == IsLastNode(api.View(), cfg, l, node, owner);
      if last {
        api.CountDrainCompleted();
      }
      api.RemoveOwnedTaint(node, owner);
      var swept := api.SweepFor(l, owner);
    }

    /** One visit of one node, and the delay after which it wants to be back. */
    method Reconcile(req: string) returns (ghost l: Listing, requeueAfter: Option<int>)
      requires Valid() && WellFormed(api.View())
      modifies api
      ensures Lists(l, old(api.View()))
      ensures api.View() == Run(old(api.View()), VisitCalls(old(api.View()), cfg, l, req), cfg.taintKey)
      ensures requeueAfter == VisitDelay(old(api.View()), cfg, req)
    {
      var listing := api.List();
      l := listing;
      if req !in api.nodes {
        return l, None;
      }
      var verdict := Decide(api.nodes[req]);
      match verdict {
        case NotOurs =>
          requeueAfter := None;
        case Tear(owner, reason) =>
          Teardown(listing, req, owner);
          requeueAfter := None;
        case RestartTheClock =>
          RunOne(api.View(), StampClock(req), cfg.taintKey);
          api.RestartClock(req);
          requeueAfter := Some(cfg.drainTimeout);
        case Wait(delay) =>
          requeueAfter := Some(delay);
      }
    }
  }
}
