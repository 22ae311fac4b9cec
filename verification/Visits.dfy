/** What one janitor visit does to the cluster: which taints outlive it, said of the hero and its pods. */
module Visits {
  import opened Base
  import opened Kube
  import opened Taints
  import opened Clusters
  import opened Janitor
  import opened Marks
  import opened Outcomes

  // ---- the ladder's questions ----

  /** By host name when hosts are the lowest level, else by the node's own label there and with pods assigned. */
  ghost predicate NamesNode(levels: seq<string>, d: TopologyDomain, node: Node) {
    && levels != [] && d.values != []
    && var lowest, value := levels[|levels| - 1], d.values[|d.values| - 1];
      if lowest == HOSTNAME then value == node.name
      else lowest in node.labels && node.labels[lowest] == value && d.count > 0
  }

  ghost predicate PutsPodsOn(adm: Admission, node: Node) {
    exists a, d :: a in adm.assignments && a.topology.Some? && d in a.topology.value.domains
      && NamesNode(a.topology.value.levels, d, node)
  }

  lemma {:induction false} TouchesMeaning(adm: Admission, node: Node)
    ensures Touches(adm, node) <==> PutsPodsOn(adm, node)
  {
    if Touches(adm, node) {
      var i :| 0 <= i < |adm.assignments| && adm.assignments[i].topology.Some?
        && TopologyHits(adm.assignments[i].topology.value, node);
      var ta := adm.assignments[i].topology.value;
      var j :| 0 <= j < |ta.domains| && DomainHits(ta, ta.domains[j], node);
      assert adm.assignments[i] in adm.assignments && ta.domains[j] in ta.domains;
    }
    if PutsPodsOn(adm, node) {
      var a, d :| a in adm.assignments && a.topology.Some? && d in a.topology.value.domains
        && NamesNode(a.topology.value.levels, d, node);
      var i :| 0 <= i < |adm.assignments| && adm.assignments[i] == a;
      var j :| 0 <= j < |a.topology.value.domains| && a.topology.value.domains[j] == d;
      assert DomainHits(a.topology.value, a.topology.value.domains[j], node);
    }
  }

  /** The places in the pod list of h's running pods. */
  ghost function RunningAt(pods: seq<Pod>, h: Name): set<nat> {
    set i: nat | i < |pods| && pods[i].phase == Running && pods[i].key.ns == h.ns
      && WORKLOAD_ANNOTATION in pods[i].annotations && pods[i].annotations[WORKLOAD_ANNOTATION] == h.name
  }

  lemma {:induction false} RunningMeaning(pods: seq<Pod>, h: Name)
    ensures RunningPods(pods, h) == |RunningAt(pods, h)|
  {
    if pods == [] {
      assert RunningAt(pods, h) == {};
    } else {
      var n := |pods| - 1;
      RunningMeaning(pods[..n], h);
      assert RunningAt(pods, h) == RunningAt(pods[..n], h) + if IsRunningPodOf(pods[n], h) then {n} else {};
    }
  }

  // ---- the taint outlives the visit, or not ----

  /** Not there yet: unplaced, or placed here with pods still to come. */
  ghost predicate Arriving(s: State, w: Workload, node: Node) {
    w.admission.Some? ==> PutsPodsOn(w.admission.value, node) && |RunningAt(s.pods, w.key)| < Admitted(w)
  }

  /** The taint still serves h: h lives, wants to run, is still arriving, and its time is not up. */
  ghost predicate StillServes(s: State, cfg: Config, node: Node, h: Name) {
    && h in s.workloads && s.workloads[h].active != Some(false)
    && !(FINISHED in s.workloads[h].conditions && s.workloads[h].conditions[FINISHED].status == True)
    && Arriving(s, s.workloads[h], node)
    && (match node.startedAt case Some(At(t)) => s.now < t + cfg.drainTimeout case _ => true)
  }

  lemma {:induction false} LadderServes(s: State, cfg: Config, node: Node, h: Name)
    requires WellFormed(s) && Owner(node, cfg.taintKey) == Some(h)
    ensures var v := Ladder(node, cfg, s.workloads, s.pods, s.now);
      && (v.Tear? <==> !StillServes(s, cfg, node, h)) && (v.Tear? ==> v.owner == h)
      && (v.RestartTheClock? <==> StillServes(s, cfg, node, h) && ClockOf(node).None?)
  {
    if h in s.workloads {
      var w := s.workloads[h];
      AdmittedMeaning(w);
      RunningMeaning(s.pods, w.key);
      if w.admission.Some? {
        TouchesMeaning(w.admission.value, node);
      }
    }
  }

  ghost predicate OwnsAnother(s: State, key: string, node: string, h: Name) {
    exists n :: n in s.nodes && n != node && Owner(s.nodes[n], key) == Some(h)
  }

  /** The node is freed; the markers of its drain are gone; the drain has ended if this was its last node. */
  ghost predicate TornDown(s: State, t: State, key: string, node: string, h: Name)
    requires node in s.nodes
  {
    && t == s.(nodes := t.nodes, workloads := t.workloads, ended := t.ended, reactivated := t.reactivated)
    && t.nodes.Keys == s.nodes.Keys
    && Freed(s.nodes[node], t.nodes[node], key)
    && (forall n :: n in s.nodes && n != node ==> t.nodes[n] == s.nodes[n])
    && t.ended == s.ended + (if OwnsAnother(s, key, node, h) then 0 else 1)
    && HandedBack(s, t, h)
  }

  ghost predicate HandedBack(s: State, t: State, h: Name) {
    && t.workloads.Keys == s.workloads.Keys
    && forall v :: v in s.workloads ==>
      t.workloads[v] == if s.workloads[v].deactivatedFor == Some(OwnerRef(h))
        then s.workloads[v].(active := Some(true), deactivatedFor := None) else s.workloads[v]
  }

  lemma {:induction false} LastNodeMeaning(s: State, cfg: Config, l: Listing, node: string, h: Name)
    requires WellFormed(s) && Lists(l, s) && node in s.nodes && Owner(s.nodes[node], cfg.taintKey) == Some(h)
    ensures IsLastNode(s, cfg, l, node, h) <==> !OwnsAnother(s, cfg.taintKey, node, h)
  {
    LastMeansOnly(s, cfg, l, node, h);
    var own := OwnedBy(s, cfg.taintKey, h);
    assert node in own;
    if OwnsAnother(s, cfg.taintKey, node, h) {
      var n :| n in s.nodes && n != node && Owner(s.nodes[n], cfg.taintKey) == Some(h);
      assert n in own && n !in {node};
    } else {
      assert own == {node};
    }
  }

  lemma {:induction false} DropFreesOnly(s: State, node: string, h: Name, key: string)
    requires ValidName(h) && node in s.nodes && Owner(s.nodes[node], key) == Some(h)
    ensures var t := Apply(s, DropTaint(node, h), key);
      && t == s.(nodes := t.nodes) && t.nodes.Keys == s.nodes.Keys
      && Freed(s.nodes[node], t.nodes[node], key)
      && forall n :: n in s.nodes && n != node ==> t.nodes[n] == s.nodes[n]
  {
    RemoveOwnedTaintFrees(s.nodes[node], key, h);
  }

  lemma {:induction false} UntaintedFrees(s: State, cfg: Config, l: Listing, node: string, h: Name)
    requires WellFormed(s) && Lists(l, s) && node in s.nodes && Owner(s.nodes[node], cfg.taintKey) == Some(h)
    ensures var t := Untainted(s, cfg, l, node, h);
      && t == s.(nodes := t.nodes, ended := s.ended + if OwnsAnother(s, cfg.taintKey, node, h) then 0 else 1)
      && t.nodes.Keys == s.nodes.Keys && Freed(s.nodes[node], t.nodes[node], cfg.taintKey)
      && forall n :: n in s.nodes && n != node ==> t.nodes[n] == s.nodes[n]
  {
    LastNodeMeaning(s, cfg, l, node, h);
    ParsedOwnerIsText(s.nodes[node].owner.value, h);
    var counted := if IsLastNode(s, cfg, l, node, h) then Apply(s, CountEnd, cfg.taintKey) else s;
    DropFreesOnly(counted, node, h, cfg.taintKey);
  }

  lemma {:induction false} SweepHandsBack(s: State, l: Listing, h: Name, key: string)
    requires Lists(l, s)
    ensures var t := Run(s, SweepCalls(s, l, OwnerRef(h)), key);
      t == s.(workloads := t.workloads, reactivated := t.reactivated) && HandedBack(s, t, h)
  {
    SweepEffect(s, l, OwnerRef(h), key);
  }

  lemma {:induction false} TeardownTears(s: State, cfg: Config, l: Listing, node: string, h: Name)
    requires WellFormed(s) && Lists(l, s) && node in s.nodes && Owner(s.nodes[node], cfg.taintKey) == Some(h)
    ensures TornDown(s, Run(s, TeardownCalls(s, cfg, l, node, h), cfg.taintKey), cfg.taintKey, node, h)
  {
    TeardownCompletes(s, cfg, l, node, h);
    UntaintedFrees(s, cfg, l, node, h);
    SweepHandsBack(Untainted(s, cfg, l, node, h), l, h, cfg.taintKey);
  }

  /**
   A visit of an owned node: the taint stays exactly while it serves its hero, with the clock restarted if none
   can be read; otherwise the node is torn down, and nothing else in the cluster changes either way.
   */
  lemma {:induction false} VisitExactly(s: State, cfg: Config, l: Listing, node: string, h: Name)
    requires WellFormed(s) && Lists(l, s) && node in s.nodes && Owner(s.nodes[node], cfg.taintKey) == Some(h)
    ensures var t := Run(s, VisitCalls(s, cfg, l, node), cfg.taintKey);
      && node in t.nodes
      && (Owner(t.nodes[node], cfg.taintKey).Some? <==> StillServes(s, cfg, s.nodes[node], h))
      && if !StillServes(s, cfg, s.nodes[node], h) then TornDown(s, t, cfg.taintKey, node, h)
         else if s.nodes[node].startedAt.Some? && s.nodes[node].startedAt.value.At? then t == s
         else t == s.(nodes := s.nodes[node := s.nodes[node].(startedAt := Some(At(s.now)))])
  {
    LadderServes(s, cfg, s.nodes[node], h);
    if StillServes(s, cfg, s.nodes[node], h) {
      RunOne(s, StampClock(node), cfg.taintKey);
      assert Run(s, [], cfg.taintKey) == s;
    } else {
      TeardownTears(s, cfg, l, node, h);
    }
  }

  /** A node nobody's drain holds is left alone. */
  lemma {:induction false} UnownedLeftAlone(s: State, cfg: Config, l: Listing, node: string)
    requires Lists(l, s) && (node in s.nodes ==> Owner(s.nodes[node], cfg.taintKey).None?)
    ensures Run(s, VisitCalls(s, cfg, l, node), cfg.taintKey) == s
  {
    assert VisitCalls(s, cfg, l, node) == [];
  }
}
