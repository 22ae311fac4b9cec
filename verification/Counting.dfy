/** Drains are counted once: started is completed plus the drains in flight, in every reachable state. */
module Counting {
  import opened Base
  import opened Kube
  import opened Taints
  import opened Snapshots
  import opened SnapshotFacts
  import opened Selection
  import opened Plans
  import opened Replanning
  import opened Clusters
  import opened DrainCalls
  import opened Janitor
  import opened Runs
  import opened Marks

  /** Taints under the drain key have the shape this controller writes. */
  ghost predicate TidyNode(node: Node, key: string) {
    forall i :: 0 <= i < |node.taints| && node.taints[i].key == key ==> node.taints[i].effect == NoSchedule
  }

  lemma {:induction false} TidyIsHonest(node: Node, key: string)
    requires TidyNode(node, key)
    ensures HonestNode(node, key)
  {
    if HasKey(node.taints, key) {
      var i :| 0 <= i < |node.taints| && node.taints[i].key == key;
      assert IsDrainTaint(node.taints[i], key);
    }
  }

  lemma {:induction false} EnsureTidy(node: Node, key: string, hero: Name, queue: string, now: int)
    requires TidyNode(node, key)
    ensures TidyNode(After(node, EnsureTaint(node, key, hero, queue, now)), key)
  {
    var b := After(node, EnsureTaint(node, key, hero, queue, now));
    forall i | 0 <= i < |b.taints| && b.taints[i].key == key ensures b.taints[i].effect == NoSchedule {
      if i < |node.taints| {
        assert b.taints[i] == node.taints[i];
      }
    }
  }

  ghost predicate CleanNode(node: Node, key: string) {
    TidyNode(node, key) && (HasKey(node.taints, key) ==> Owner(node, key).Some?)
  }

  /** Every taint under the drain key is this controller's. */
  ghost predicate Clean(s: State, key: string) {
    forall n :: n in s.nodes ==> CleanNode(s.nodes[n], key)
  }

  ghost predicate Counted(s: State, key: string) {
    s.started == s.ended + |DrainOwners(s, key)|
  }

  // ---- calls that neither taint nor count ----

  ghost predicate Quiet(c: Call) {
    c.Suspend? || c.Reactivate? || c.StampClock? || c.StampNudge?
  }

  ghost predicate SameDrains(s: State, t: State, key: string) {
    && t.nodes.Keys == s.nodes.Keys && t.started == s.started && t.ended == s.ended
    && forall n :: n in s.nodes ==> t.nodes[n].taints == s.nodes[n].taints && t.nodes[n].owner == s.nodes[n].owner
  }

  lemma {:induction false} QuietRun(s: State, calls: seq<Call>, key: string)
    requires forall i :: 0 <= i < |calls| ==> Quiet(calls[i])
    ensures SameDrains(s, Run(s, calls, key), key)
    decreases |calls|
  {
    if calls != [] && !Fails(s, calls[0], key) {
      assert Quiet(calls[0]);
      assert SameDrains(s, Apply(s, calls[0], key), key);
      QuietRun(Apply(s, calls[0], key), calls[1..], key);
    }
  }

  lemma {:induction false} SameDrainsCounted(s: State, t: State, key: string)
    requires SameDrains(s, t, key)
    ensures DrainOwners(t, key) == DrainOwners(s, key)
    ensures Clean(s, key) ==> Clean(t, key)
    ensures Counted(s, key) ==> Counted(t, key)
  {
    forall n | n in s.nodes
      ensures Owner(t.nodes[n], key) == Owner(s.nodes[n], key)
      ensures CleanNode(s.nodes[n], key) ==> CleanNode(t.nodes[n], key)
    {
    }
    assert DrainOwners(t, key) == DrainOwners(s, key);
  }

  lemma {:induction false} CycleQuiet(s: State, cfg: Config, l: Listing, hero: Workload, nodes: seq<string>)
    ensures var calls := CycleCalls(s, cfg, l, hero, nodes); forall i :: 0 <= i < |calls| ==> Quiet(calls[i])
  {
  }

  // ---- starting ----

  lemma {:induction false} PutOne(s: State, n: string, hero: Name, queue: string, key: string)
    requires Clean(s, key) && ValidName(hero) && DrainOwners(s, key) <= {hero} && n in s.nodes
    requires |queue| <= MAX_TAINT_VALUE
    ensures var c := PutTaint(n, hero, queue);
      && !Fails(s, c, key) && Clean(Apply(s, c, key), key)
      && DrainOwners(Apply(s, c, key), key) == {hero}
  {
    var c := PutTaint(n, hero, queue);
    var t := Apply(s, c, key);
    assert CleanNode(s.nodes[n], key);
    if Owner(s.nodes[n], key).Some? {
      assert Owner(s.nodes[n], key).value in DrainOwners(s, key);
      ParsedOwnerIsText(s.nodes[n].owner.value, hero);
    }
    TidyIsHonest(s.nodes[n], key);
    EnsureKeepsOwner(s.nodes[n], key, hero, queue, s.now);
    EnsureTidy(s.nodes[n], key, hero, queue, s.now);
    assert Owner(t.nodes[n], key) == Some(hero);
    forall h ensures h in DrainOwners(t, key) <==> h == hero {
      if h in DrainOwners(t, key) {
        var m :| m in t.nodes && Owner(t.nodes[m], key) == Some(h);
        if m != n {
          assert h in DrainOwners(s, key);
        }
      }
    }
    forall m | m in t.nodes ensures CleanNode(t.nodes[m], key) {
      assert CleanNode(s.nodes[m], key);
    }
  }

  /** Behind the gate the taint loop meets no one else's taint, so it goes through. */
  lemma {:induction false} TaintLoop(s: State, nodes: seq<string>, hero: Name, queue: string, key: string)
    requires Clean(s, key) && ValidName(hero) && DrainOwners(s, key) <= {hero} && |queue| <= MAX_TAINT_VALUE
    requires forall n :: n in nodes ==> n in s.nodes
    ensures var calls := TaintAllCalls(nodes, hero, queue);
      var t := Run(s, calls, key);
      && Completes(s, calls, key) && Clean(t, key) && t == s.(nodes := t.nodes)
      && DrainOwners(t, key) == if nodes == [] then DrainOwners(s, key) else {hero}
    decreases |nodes|
  {
    if nodes == [] {
    } else {
      assert TaintAllCalls(nodes, hero, queue)[0] == PutTaint(nodes[0], hero, queue);
      assert TaintAllCalls(nodes, hero, queue)[1..] == TaintAllCalls(nodes[1..], hero, queue);
      assert nodes[0] in nodes && forall n :: n in nodes[1..] ==> n in nodes;
      PutOne(s, nodes[0], hero, queue, key);
      TaintLoop(Apply(s, PutTaint(nodes[0], hero, queue), key), nodes[1..], hero, queue, key);
    }
  }

  lemma {:induction false} PlanNodesKnown(input: Input, q: Query)
    requires ValidConfig(q.cfg) && q.snap == BuildSpec(input) && SelectSpec(q).Planned?
    ensures SelectSpec(q).plan.nodes != []
    ensures forall name :: name in SelectSpec(q).plan.nodes ==> exists n :: n in input.nodes && n.name == name
  {
    BuildKeyed(input);
    var group, home := PlanSound(q);
    var p := SelectSpec(q).plan;
    assert forall id :: id in p.domainIds ==> GoodDomain(q, group, id);
    SnapshotFacts.PlanNodes(input, p.domainIds);
    forall name | name in p.nodes ensures exists n :: n in input.nodes && n.name == name {
      assert OnPlannedDomain(input, p.domainIds, name);
    }
  }

  lemma {:induction false} NamesListed(s: State, l: Listing, name: string)
    requires WellFormed(s) && Lists(l, s) && exists n :: n in NodeSeq(s, l.nodes) && n.name == name
    ensures name in s.nodes
  {
    var ns := NodeSeq(s, l.nodes);
    var n :| n in ns && n.name == name;
    var i :| 0 <= i < |ns| && ns[i] == n;
    assert l.nodes[i] in l.nodes;
  }

  lemma {:induction false} PlanNodesExist(s: State, cfg: Config, l: Listing, look: Look, w: Workload)
    requires ValidConfig(cfg) && WellFormed(s) && Lists(l, s) && look.levels.Some?
    requires OutcomeFor(s, cfg, l, look, w).Planned?
    ensures var nodes := OutcomeFor(s, cfg, l, look, w).plan.nodes;
      nodes != [] && forall n :: n in nodes ==> n in s.nodes
  {
    var input := PlanInput(s, cfg, l, look.levels.value, w.key);
    PlanNodesKnown(input, Plan(input, HeroOf(w, look), s.workloads, s.now));
    forall name | name in OutcomeFor(s, cfg, l, look, w).plan.nodes ensures name in s.nodes {
      NamesListed(s, l, name);
    }
  }

  lemma {:induction false} TaintedCounted(s: State, nodes: seq<string>, hero: Name, queue: string, key: string,
      resuming: bool)
    requires Clean(s, key) && Counted(s, key) && ValidName(hero) && |queue| <= MAX_TAINT_VALUE
    requires DrainOwners(s, key) == if resuming then {hero} else {}
    requires nodes != [] && forall n :: n in nodes ==> n in s.nodes
    ensures Completes(s, TaintAllCalls(nodes, hero, queue), key)
    ensures var tainted := Run(s, TaintAllCalls(nodes, hero, queue), key);
      var t := if resuming then tainted else Apply(tainted, CountStart, key);
      Clean(t, key) && Counted(t, key)
  {
    TaintLoop(s, nodes, hero, queue, key);
    var tainted := Run(s, TaintAllCalls(nodes, hero, queue), key);
    assert DrainOwners(tainted.(started := tainted.started + 1), key) == DrainOwners(tainted, key);
  }

  lemma {:induction false} LongQueueStops(s: State, nodes: seq<string>, hero: Name, queue: string, key: string)
    requires nodes != [] && |queue| > MAX_TAINT_VALUE
    ensures !Completes(s, TaintAllCalls(nodes, hero, queue), key) && Run(s, TaintAllCalls(nodes, hero, queue), key) == s
  {
    assert TaintAllCalls(nodes, hero, queue)[0] == PutTaint(nodes[0], hero, queue);
  }

  lemma {:induction false} StartCounted(s: State, cfg: Config, l: Listing, look: Look, w: Workload,
      nodes: seq<string>, resuming: bool)
    requires Clean(s, cfg.taintKey) && Counted(s, cfg.taintKey) && ValidName(w.key)
    requires DrainOwners(s, cfg.taintKey) == if resuming then {w.key} else {}
    requires nodes != [] && forall n :: n in nodes ==> n in s.nodes
    ensures var t := Run(s, StartCalls(s, cfg, l, look, w, nodes, resuming), cfg.taintKey);
      Clean(t, cfg.taintKey) && Counted(t, cfg.taintKey)
  {
    StartRuns(s, cfg, l, look, w, nodes, resuming);
    if |look.queue| > MAX_TAINT_VALUE {
      LongQueueStops(s, nodes, w.key, look.queue, cfg.taintKey);
    } else {
      TaintedCounted(s, nodes, w.key, look.queue, cfg.taintKey, resuming);
      var tainted := Run(s, TaintAllCalls(nodes, w.key, look.queue), cfg.taintKey);
      CycleCounted(if resuming then tainted else Apply(tainted, CountStart, cfg.taintKey), cfg, l, w, nodes);
    }
  }

  lemma {:induction false} CycleCounted(s: State, cfg: Config, l: Listing, hero: Workload, nodes: seq<string>)
    requires Clean(s, cfg.taintKey) && Counted(s, cfg.taintKey)
    ensures var t := Run(s, CycleCalls(s, cfg, l, hero, nodes), cfg.taintKey);
      Clean(t, cfg.taintKey) && Counted(t, cfg.taintKey)
  {
    CycleQuiet(s, cfg, l, hero, nodes);
    QuietCounted(s, CycleCalls(s, cfg, l, hero, nodes), cfg.taintKey);
  }

  // ---- ending ----

  lemma {:induction false} RemoveCleans(node: Node, key: string, hero: Name)
    requires CleanNode(node, key) && ValidName(hero)
    ensures var b := After(node, RemoveOwnedTaint(node, key, hero));
      CleanNode(b, key) && Owner(b, key) == if Owner(node, key) == Some(hero) then None else Owner(node, key)
  {
    RemoveOwnedTaintFrees(node, key, hero);
    TidyIsHonest(node, key);
    RemoveKeepsOthers(node, key, hero);
    var b := After(node, RemoveOwnedTaint(node, key, hero));
    if Owner(node, key) == Some(hero) {
      WithoutDrainTaintFacts(node.taints, key);
      forall i | 0 <= i < |b.taints| ensures b.taints[i].key != key {
        assert b.taints[i] in node.taints && !IsDrainTaint(b.taints[i], key);
      }
    }
  }

  /** Dropping h's taint from some of its nodes. */
  lemma {:induction false} DropsOwners(s: State, t: State, names: set<string>, hero: Name, key: string)
    requires Clean(s, key) && ValidName(hero) && t.nodes.Keys == s.nodes.Keys && names <= OwnedBy(s, key, hero)
    requires forall n :: n in s.nodes ==>
      t.nodes[n] == if n in names then After(s.nodes[n], RemoveOwnedTaint(s.nodes[n], key, hero)) else s.nodes[n]
    ensures Clean(t, key)
    ensures DrainOwners(t, key)
      == if names == OwnedBy(s, key, hero) then DrainOwners(s, key) - {hero} else DrainOwners(s, key)
  {
    forall n | n in s.nodes
      ensures CleanNode(t.nodes[n], key)
      ensures Owner(t.nodes[n], key) == if n in names then None else Owner(s.nodes[n], key)
    {
      assert CleanNode(s.nodes[n], key);
      RemoveCleans(s.nodes[n], key, hero);
    }
    forall h
      ensures h in DrainOwners(t, key) <==> h in DrainOwners(s, key) && !(h == hero && names == OwnedBy(s, key, hero))
    {
      if h in DrainOwners(s, key) && h != hero {
        var n :| n in s.nodes && Owner(s.nodes[n], key) == Some(h);
        assert n !in names && n in t.nodes && Owner(t.nodes[n], key) == Some(h);
      }
      if h == hero && names != OwnedBy(s, key, hero) {
        var n :| n in OwnedBy(s, key, hero) && n !in names;
        assert n in t.nodes && Owner(t.nodes[n], key) == Some(h);
      }
      if h in DrainOwners(t, key) {
        var n :| n in t.nodes && Owner(t.nodes[n], key) == Some(h);
        assert n !in names && Owner(s.nodes[n], key) == Some(h);
        assert h == hero ==> n in OwnedBy(s, key, hero);
      }
    }
  }

  lemma {:induction false} EndOne(s: State, t: State, hero: Name, key: string)
    requires Counted(s, key) && Clean(t, key) && t.started == s.started && t.ended == s.ended
    requires hero in DrainOwners(s, key) && DrainOwners(t, key) == DrainOwners(s, key) - {hero}
    ensures Counted(Apply(t, CountEnd, key), key) && Clean(Apply(t, CountEnd, key), key)
  {
    assert DrainOwners(s, key) == DrainOwners(t, key) + {hero};
    assert DrainOwners(Apply(t, CountEnd, key), key) == DrainOwners(t, key);
  }

  lemma {:induction false} AbortCounted(s: State, cfg: Config, l: Listing, hero: Name)
    requires WellFormed(s) && Lists(l, s) && Clean(s, cfg.taintKey) && Counted(s, cfg.taintKey) && ValidName(hero)
    requires hero in DrainsIn(s, cfg.taintKey, l)
    ensures var t := Run(s, AbortCalls(s, l, hero, DrainsIn(s, cfg.taintKey, l)[hero].nodes), cfg.taintKey);
      Clean(t, cfg.taintKey) && Counted(t, cfg.taintKey)
  {
    var key, nodes := cfg.taintKey, DrainsIn(s, cfg.taintKey, l)[hero].nodes;
    DrainsInMeaning(s, key, l, hero);
    AbortCompletes(s, l, hero, nodes, key);
    SweepEffect(s, l, OwnerRef(hero), key);
    DropOwned(s, Run(s, SweepCalls(s, l, OwnerRef(hero)), key), nodes, hero, key);
  }

  lemma {:induction false} DropOwned(s: State, mid: State, nodes: seq<string>, hero: Name, key: string)
    requires Clean(s, key) && Counted(s, key) && ValidName(hero) && hero in DrainOwners(s, key)
    requires mid.nodes == s.nodes && mid.started == s.started && mid.ended == s.ended
    requires forall n :: n in nodes <==> n in OwnedBy(s, key, hero)
    ensures var end := Apply(Run(mid, DropAll(nodes, hero), key), CountEnd, key);
      Clean(end, key) && Counted(end, key)
  {
    DropEffect(mid, nodes, hero, key);
    var t := Run(mid, DropAll(nodes, hero), key);
    DropsOwners(s, t, OwnedBy(s, key, hero), hero, key);
    EndOne(s, t, hero, key);
  }

  lemma {:induction false} DropLast(s: State, node: string, owner: Name, key: string)
    requires Clean(s, key) && Counted(s, key) && ValidName(owner) && node in OwnedBy(s, key, owner)
    ensures var counted := if OwnedBy(s, key, owner) == {node} then Apply(s, CountEnd, key) else s;
      var t := Apply(counted, DropTaint(node, owner), key);
      Clean(t, key) && Counted(t, key)
  {
    var t := Apply(s, DropTaint(node, owner), key);
    DropsOwners(s, t, {node}, owner, key);
    assert owner in DrainOwners(s, key);
    if OwnedBy(s, key, owner) == {node} {
      EndOne(s, t, owner, key);
      assert Apply(Apply(s, CountEnd, key), DropTaint(node, owner), key) == Apply(t, CountEnd, key);
    }
  }

  lemma {:induction false} SweepCounted(mid: State, l: Listing, text: string, key: string)
    requires Clean(mid, key) && Counted(mid, key)
    ensures var t := Run(mid, SweepCalls(mid, l, text), key); Clean(t, key) && Counted(t, key)
  {
    QuietRun(mid, SweepCalls(mid, l, text), key);
    SameDrainsCounted(mid, Run(mid, SweepCalls(mid, l, text), key), key);
  }

  lemma {:induction false} TeardownCounted(s: State, cfg: Config, l: Listing, node: string, owner: Name)
    requires WellFormed(s) && Lists(l, s) && Clean(s, cfg.taintKey) && Counted(s, cfg.taintKey)
    requires node in OwnedBy(s, cfg.taintKey, owner)
    ensures var t := Run(s, TeardownCalls(s, cfg, l, node, owner), cfg.taintKey);
      Clean(t, cfg.taintKey) && Counted(t, cfg.taintKey)
  {
    var key := cfg.taintKey;
    TeardownCompletes(s, cfg, l, node, owner);
    LastMeansOnly(s, cfg, l, node, owner);
    ParsedOwnerIsText(s.nodes[node].owner.value, owner);
    DropLast(s, node, owner, key);
    SweepCounted(Untainted(s, cfg, l, node, owner), l, OwnerRef(owner), key);
  }

  // ---- whole reconciles ----

  lemma {:induction false} QuietCounted(s: State, calls: seq<Call>, key: string)
    requires Clean(s, key) && Counted(s, key) && forall i :: 0 <= i < |calls| ==> Quiet(calls[i])
    ensures Clean(Run(s, calls, key), key) && Counted(Run(s, calls, key), key)
  {
    QuietRun(s, calls, key);
    SameDrainsCounted(s, Run(s, calls, key), key);
  }

  lemma {:induction false} GateOpen(s: State, key: string, l: Listing, h: Name)
    requires WellFormed(s) && Lists(l, s) && DrainsIn(s, key, l).Keys <= {h}
    ensures DrainOwners(s, key) == if h in DrainsIn(s, key, l) then {h} else {}
  {
    DrainsInMeaning(s, key, l, h);
  }

  ghost predicate Accounted(s: State, key: string) {
    Clean(s, key) && Counted(s, key)
  }

  lemma {:induction false} HeroCounted(s: State, cfg: Config, l: Listing, look: Look, w: Workload, outcome: Outcome)
    requires WellFormed(s) && Lists(l, s) && ValidName(w.key) && Accounted(s, cfg.taintKey)
    requires outcome.Planned? ==> outcome.plan.nodes != [] && forall n :: n in outcome.plan.nodes ==> n in s.nodes
    ensures Accounted(Run(s, HeroCalls(s, cfg, l, look, w, outcome), cfg.taintKey), cfg.taintKey)
  {
    var calls, drains := HeroCalls(s, cfg, l, look, w, outcome), DrainsIn(s, cfg.taintKey, l);
    if calls == [] {
      QuietCounted(s, calls, cfg.taintKey);
    } else if outcome.Planned? {
      GateOpen(s, cfg.taintKey, l, w.key);
      StartCounted(s, cfg, l, look, w, outcome.plan.nodes, w.key in drains);
    } else {
      AbortCounted(s, cfg, l, w.key);
    }
  }

  lemma {:induction false} ReconcileCounted(s: State, cfg: Config, l: Listing, look: Look, key: Name)
    requires ValidConfig(cfg) && WellFormed(s) && Lists(l, s) && Accounted(s, cfg.taintKey)
    ensures Accounted(Run(s, ReconcileCalls(s, cfg, l, look, key), cfg.taintKey), cfg.taintKey)
  {
    var calls, drains := ReconcileCalls(s, cfg, l, look, key), DrainsIn(s, cfg.taintKey, l);
    if calls == [] {
      QuietCounted(s, calls, cfg.taintKey);
    } else {
      var w := s.workloads[key];
      assert w.key == key && ValidName(key);
      if w.deactivatedFor.Some? {
        QuietCounted(s, VictimEventCalls(s, key), cfg.taintKey);
      } else if w.isHero && !w.stuck {
        CycleCounted(s, cfg, l, w, drains[key].nodes);
      } else if !w.isHero || w.overQuota {
        AbortCounted(s, cfg, l, key);
      } else {
        if OutcomeFor(s, cfg, l, look, w).Planned? {
          PlanNodesExist(s, cfg, l, look, w);
        }
        HeroCounted(s, cfg, l, look, w, OutcomeFor(s, cfg, l, look, w));
      }
    }
  }

  lemma {:induction false} VisitCounted(s: State, cfg: Config, l: Listing, node: string)
    requires WellFormed(s) && Lists(l, s) && Clean(s, cfg.taintKey) && Counted(s, cfg.taintKey)
    ensures var t := Run(s, VisitCalls(s, cfg, l, node), cfg.taintKey);
      Clean(t, cfg.taintKey) && Counted(t, cfg.taintKey)
  {
    var calls := VisitCalls(s, cfg, l, node);
    VisitCases(s, cfg, l, node);
    if node in s.nodes && Ladder(s.nodes[node], cfg, s.workloads, s.pods, s.now).Tear? {
      var owner := Ladder(s.nodes[node], cfg, s.workloads, s.pods, s.now).owner;
      TornIsOwned(s, cfg, node);
      TeardownCounted(s, cfg, l, node, owner);
    } else {
      QuietCounted(s, calls, cfg.taintKey);
    }
  }

  // ---- all runs ----

  /** No drain taint appears, disappears or changes hands, no tainted node is deleted, no counter moves. */
  ghost predicate LeavesTaintsAlone(s: State, t: State, key: string) {
    && Clean(t, key) && t.started == s.started && t.ended == s.ended
    && DrainOwners(t, key) == DrainOwners(s, key)
  }

  ghost predicate CountedRun(s: State, es: seq<Event>, cfg: Config)
    requires ValidConfig(cfg)
    decreases |es|
  {
    es == [] || (
      && Legal(s, es[0], cfg) && ToTheEnd(s, es[0], cfg)
      && (es[0].Outside? ==> LeavesTaintsAlone(s, es[0].after, cfg.taintKey))
      && CountedRun(Step(s, es[0], cfg), es[1..], cfg))
  }

  ghost function Final(s: State, es: seq<Event>, cfg: Config): State
    requires ValidConfig(cfg) && CountedRun(s, es, cfg)
    decreases |es|
  {
    if es == [] then s else Final(Step(s, es[0], cfg), es[1..], cfg)
  }

  lemma {:induction false} StepCounted(s: State, e: Event, cfg: Config)
    requires ValidConfig(cfg) && WellFormed(s) && Legal(s, e, cfg) && ToTheEnd(s, e, cfg)
    requires e.Outside? ==> LeavesTaintsAlone(s, e.after, cfg.taintKey)
    requires Accounted(s, cfg.taintKey)
    ensures Accounted(Step(s, e, cfg), cfg.taintKey)
  {
    if !e.Outside? {
      WholeStep(s, e, cfg);
    }
    if e.Reconcile? {
      ReconcileCounted(s, cfg, e.listing, e.look, e.key);
    } else if e.Visit? {
      VisitCounted(s, cfg, e.listing, e.node);
    }
  }

  /** Over all runs of whole reconciles: started == completed + the drains FindDrains sees. */
  lemma {:induction false} DrainsCountedOnce(s: State, es: seq<Event>, cfg: Config, l: Listing)
    requires ValidConfig(cfg) && WellFormed(s) && Accounted(s, cfg.taintKey)
    requires CountedRun(s, es, cfg) && Lists(l, Final(s, es, cfg))
    ensures Final(s, es, cfg).started == Final(s, es, cfg).ended + |DrainsIn(Final(s, es, cfg), cfg.taintKey, l)|
    decreases |es|
  {
    if es != [] {
      StepCounted(s, es[0], cfg);
      StepWellFormed(s, es[0], cfg);
      DrainsCountedOnce(Step(s, es[0], cfg), es[1..], cfg, l);
    } else {
      DrainsInMeaning(s, cfg.taintKey, l, NOBODY);
      assert |DrainsIn(s, cfg.taintKey, l)| == |DrainsIn(s, cfg.taintKey, l).Keys|;
    }
  }
}
