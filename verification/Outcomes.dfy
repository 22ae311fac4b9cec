/** What a whole drain reconcile leaves behind, branch by branch, said of the cluster and not of its calls. */
module Outcomes {
  import opened Base
  import opened Kube
  import opened Taints
  import opened Clusters
  import opened DrainCalls
  import opened Entitlement
  import opened Eviction

  // ---- own nodes and others' ----

  ghost predicate Owns(s: State, key: string, h: Name) {
    exists n :: n in s.nodes && Owner(s.nodes[n], key) == Some(h)
  }

  ghost predicate OthersOwn(s: State, key: string, h: Name) {
    exists n :: n in s.nodes && Owner(s.nodes[n], key).Some? && Owner(s.nodes[n], key) != Some(h)
  }

  lemma {:induction false} DrainsOnNodes(s: State, key: string, l: Listing, h: Name)
    requires WellFormed(s) && Lists(l, s)
    ensures h in DrainsIn(s, key, l) <==> Owns(s, key, h)
    ensures h in DrainsIn(s, key, l) ==>
      forall n :: n in DrainsIn(s, key, l)[h].nodes <==> n in s.nodes && Owner(s.nodes[n], key) == Some(h)
    ensures DrainsIn(s, key, l).Keys <= {h} <==> !OthersOwn(s, key, h)
  {
    DrainsInMeaning(s, key, l, h);
    if OthersOwn(s, key, h) {
      var n :| n in s.nodes && Owner(s.nodes[n], key).Some? && Owner(s.nodes[n], key) != Some(h);
      assert Owner(s.nodes[n], key).value in DrainOwners(s, key);
    } else {
      forall o | o in DrainOwners(s, key) ensures o == h {
        var n :| n in s.nodes && Owner(s.nodes[n], key) == Some(o);
      }
    }
  }

  // ---- a drain that ends ----

  /** The taints under the key are gone with their annotations; nothing else of the node changed. */
  ghost predicate Freed(a: Node, b: Node, key: string) {
    && Owner(b, key).None? && OtherTaints(b.taints, key) == OtherTaints(a.taints, key)
    && b == a.(taints := b.taints, owner := None, startedAt := None, nudge := None)
  }

  /** h holds no node and no marker any more, one more drain has ended, nobody else noticed. */
  ghost predicate DrainOver(s: State, t: State, key: string, h: Name) {
    && t == s.(nodes := t.nodes, workloads := t.workloads, ended := s.ended + 1, reactivated := t.reactivated)
    && t.nodes.Keys == s.nodes.Keys && t.workloads.Keys == s.workloads.Keys
    && (forall n :: n in s.nodes ==>
      if Owner(s.nodes[n], key) == Some(h) then Freed(s.nodes[n], t.nodes[n], key) else t.nodes[n] == s.nodes[n])
    && forall v :: v in s.workloads ==>
      t.workloads[v] == if s.workloads[v].deactivatedFor == Some(OwnerRef(h))
        then s.workloads[v].(active := Some(true), deactivatedFor := None) else s.workloads[v]
  }

  lemma {:induction false} AbortEnds(s: State, l: Listing, h: Name, nodes: seq<string>, key: string)
    requires Lists(l, s) && ValidName(h)
    requires forall n :: n in nodes <==> n in s.nodes && Owner(s.nodes[n], key) == Some(h)
    ensures DrainOver(s, Run(s, AbortCalls(s, l, h, nodes), key), key, h)
  {
    AbortCompletes(s, l, h, nodes, key);
    SweepEffect(s, l, OwnerRef(h), key);
    var mid := Run(s, SweepCalls(s, l, OwnerRef(h)), key);
    DropEffect(mid, nodes, h, key);
    forall n | n in s.nodes && Owner(s.nodes[n], key) == Some(h)
      ensures Freed(s.nodes[n], After(s.nodes[n], RemoveOwnedTaint(s.nodes[n], key, h)), key)
    {
      RemoveOwnedTaintFrees(s.nodes[n], key, h);
    }
  }

  /** The workload is active, nobody's victim, and has nodes tainted for it. */
  ghost predicate Draining(s: State, key: string, h: Name) {
    h in s.workloads && s.workloads[h].active != Some(false) && s.workloads[h].deactivatedFor.None? && Owns(s, key, h)
  }

  /** No hero any more; or still stuck and now over quota; or still stuck and, its turn, without any plan. */
  ghost predicate MustStop(s: State, cfg: Config, l: Listing, look: Look, w: Workload)
    requires ValidConfig(cfg) && Lists(l, s)
  {
    || !w.isHero
    || (w.stuck && w.overQuota)
    || (w.stuck && !OthersOwn(s, cfg.taintKey, w.key) && look.levels.Some?
        && !OutcomeFor(s, cfg, l, look, w).Planned?)
  }

  /** A drain that must stop is over after one reconcile, and that reconcile suspends nobody. */
  lemma {:induction false} StoppedDrainEnds(s: State, cfg: Config, l: Listing, look: Look, key: Name)
    requires ValidConfig(cfg) && WellFormed(s) && Lists(l, s) && Draining(s, cfg.taintKey, key)
    requires MustStop(s, cfg, l, look, s.workloads[key])
    ensures DrainOver(s, Run(s, ReconcileCalls(s, cfg, l, look, key), cfg.taintKey), cfg.taintKey, key)
    ensures NoSuspends(ReconcileCalls(s, cfg, l, look, key))
  {
    DrainsOnNodes(s, cfg.taintKey, l, key);
    var nodes := DrainsIn(s, cfg.taintKey, l)[key].nodes;
    AbortEnds(s, l, key, nodes, cfg.taintKey);
    AbortNeverSuspends(s, l, key, nodes);
    assert ReconcileCalls(s, cfg, l, look, key) == AbortCalls(s, l, key, nodes);
  }

  // ---- a drain that goes on ----

  /** Another workload's live managed pod sits on one of the nodes. */
  ghost predicate LiveOn(s: State, nodes: set<string>, hero: Name, v: Name) {
    v != hero &&
    exists p :: p in s.pods && p.node in nodes && p.node != "" && p.phase != Succeeded && p.phase != Failed
      && WORKLOAD_ANNOTATION in p.annotations && v == Name(p.key.ns, p.annotations[WORKLOAD_ANNOTATION])
  }

  lemma {:induction false} LiveIffOccupant(s: State, nodes: seq<string>, hero: Name, v: Name)
    ensures v in Occupants(s.pods, nodes, hero) <==> LiveOn(s, Elements(nodes), hero, v)
  {
    OccupantsMeaning(s.pods, nodes, hero);
    if LiveOn(s, Elements(nodes), hero, v) {
      var p :| p in s.pods && p.node in Elements(nodes) && p.node != "" && p.phase != Succeeded && p.phase != Failed
        && WORKLOAD_ANNOTATION in p.annotations && v == Name(p.key.ns, p.annotations[WORKLOAD_ANNOTATION]);
      assert Occupies(p, p.node, hero);
    }
  }

  /** Nobody is left to wait for, the hero is not admitted, and the first node by name is due for its nudge. */
  ghost predicate NudgeFalls(s: State, cfg: Config, hero: Workload, nodes: seq<string>, n: string) {
    && n in nodes && n in s.nodes && (forall m :: m in nodes && m != n ==> StrLess(n, m))
    && hero.admission.None?
    && (forall v :: v in s.workloads && LiveOn(s, Elements(nodes), hero.key, v) ==> s.workloads[v].heroClass)
    && (s.nodes[n].nudge.None? || s.nodes[n].nudge.value.Unparsable?
        || s.now - s.nodes[n].nudge.value.time >= cfg.nudgeInterval)
  }

  lemma {:induction false} MinStringLeast(xs: seq<string>)
    requires xs != []
    ensures MinString(xs) in xs && forall x :: x in xs && x != MinString(xs) ==> StrLess(MinString(xs), x)
  {
    if |xs| == 1 {
    } else {
      var n := |xs| - 1;
      MinStringLeast(xs[..n]);
      var rest := MinString(xs[..n]);
      StrLessTotal(rest, xs[n]);
      forall x | x in xs && x != MinString(xs) ensures StrLess(MinString(xs), x) {
        assert x in xs[..n] || x == xs[n];
        if StrLess(xs[n], rest) && x in xs[..n] && x != rest {
          StrLessTrans(xs[n], rest, x);
        }
      }
    }
  }

  /** Before the nudge a cycle has touched workloads only. */
  lemma {:induction false} CycleBeforeNudge(s: State, cfg: Config, l: Listing, hero: Workload, nodes: seq<string>)
    requires Lists(l, s)
    ensures var mid := Run(s, SuspendCalls(s, Occupants(s.pods, nodes, hero.key), hero.key), cfg.taintKey);
      var after := Run(mid, ReturnCalls(mid, l, OwnerRef(hero.key)), cfg.taintKey);
      && after == s.(workloads := after.workloads, suspended := after.suspended, reactivated := after.reactivated)
      && after.workloads.Keys == s.workloads.Keys
  {
    var keep := (v: Name) => ToSuspend(s, v);
    var occupants := Occupants(s.pods, nodes, hero.key);
    forall v | v in Filter(occupants, keep) ensures v in s.workloads {
      FilterMember(occupants, keep, v);
    }
    SuspendEffect(s, Filter(occupants, keep), hero.key, cfg.taintKey);
    var mid := Run(s, SuspendCalls(s, occupants, hero.key), cfg.taintKey);
    ReturnsTouchWorkloads(mid, l, OwnerRef(hero.key), cfg.taintKey);
  }

  lemma {:induction false} ReturnsTouchWorkloads(s: State, l: Listing, text: string, key: string)
    ensures var t := Run(s, ReturnCalls(s, l, text), key);
      t == s.(workloads := t.workloads, reactivated := t.reactivated) && t.workloads.Keys == s.workloads.Keys
  {
    var keep := (v: Name) => ReadyToReturn(s, text, v);
    forall v | v in Filter(l.workloads, keep) ensures v in s.workloads {
      FilterMember(l.workloads, keep, v);
    }
    ReactivateEffect(s, Filter(l.workloads, keep), key);
  }

  lemma {:induction false} NudgeEffect(s: State, hero: Workload, nodes: seq<string>, interval: int, key: string)
    ensures var t := Run(s, NudgeCalls(s, hero, nodes, interval), key);
      && t == s.(nodes := t.nodes) && t.nodes.Keys == s.nodes.Keys
      && forall n :: n in s.nodes ==>
        t.nodes[n] == if hero.admission.None? && nodes != [] && n == MinString(nodes) && NudgeDue(s, n, interval)
          then s.nodes[n].(nudge := Some(At(s.now))) else s.nodes[n]
  {
    if nodes != [] {
      RunOne(s, StampNudge(MinString(nodes)), key);
    }
    assert Run(s, [], key) == s;
  }

  lemma {:induction false} NobodyLeft(s: State, hero: Name, nodes: seq<string>)
    ensures !SomeVictim(s, Occupants(s.pods, nodes, hero)) <==>
      forall v :: v in s.workloads && LiveOn(s, Elements(nodes), hero, v) ==> s.workloads[v].heroClass
  {
    forall v ensures v in Occupants(s.pods, nodes, hero) <==> LiveOn(s, Elements(nodes), hero, v) {
      LiveIffOccupant(s, nodes, hero, v);
    }
  }

  lemma {:induction false} FirstByName(nodes: seq<string>, n: string)
    ensures nodes != [] && n == MinString(nodes) <==> n in nodes && forall m :: m in nodes && m != n ==> StrLess(n, m)
  {
    if nodes != [] {
      MinStringLeast(nodes);
      StrLessTotal(n, MinString(nodes));
    }
  }

  /** A cycle writes a nudge exactly when it is due, on that one node, and touches no other part of any node. */
  lemma {:induction false} CycleNudges(s: State, cfg: Config, l: Listing, hero: Workload, nodes: seq<string>)
    requires Lists(l, s)
    ensures var t := Run(s, CycleCalls(s, cfg, l, hero, nodes), cfg.taintKey);
      && t == s.(nodes := t.nodes, workloads := t.workloads, suspended := t.suspended, reactivated := t.reactivated)
      && t.nodes.Keys == s.nodes.Keys && t.workloads.Keys == s.workloads.Keys
      && forall n :: n in s.nodes ==>
        t.nodes[n] == if NudgeFalls(s, cfg, hero, nodes, n) then s.nodes[n].(nudge := Some(At(s.now))) else s.nodes[n]
  {
    CycleCompletes(s, cfg, l, hero, nodes);
    CycleBeforeNudge(s, cfg, l, hero, nodes);
    NobodyLeft(s, hero.key, nodes);
    var mid := Run(s, SuspendCalls(s, Occupants(s.pods, nodes, hero.key), hero.key), cfg.taintKey);
    var after := Run(mid, ReturnCalls(mid, l, OwnerRef(hero.key)), cfg.taintKey);
    NudgeEffect(after, hero, nodes, cfg.nudgeInterval, cfg.taintKey);
    var nobody := !SomeVictim(s, Occupants(s.pods, nodes, hero.key));
    forall n | n in s.nodes
      ensures NudgeFalls(s, cfg, hero, nodes, n) == (nobody && hero.admission.None? && nodes != []
                && n == MinString(nodes) && NudgeDue(after, n, cfg.nudgeInterval))
    {
      FirstByName(nodes, n);
    }
  }

  /** The fate of one workload in a cycle: suspended for the hero, handed back to kueue, or left as it is. */
  ghost predicate Cycled(w: Workload, x: Workload, hero: Name, liveHere: bool) {
    var taken := liveHere && !w.heroClass && w.active != Some(false);
    var ours := taken || (w.active == Some(false) && w.deactivatedFor == Some(OwnerRef(hero)));
    var out := EVICTED in w.conditions && w.conditions[EVICTED].status == True
      && DEACTIVATED <= w.conditions[EVICTED].reason;
    if ours && out then x == w.(active := Some(true), deactivatedFor := None)
    else if taken then x == w.(active := Some(false), deactivatedFor := Some(OwnerRef(hero)))
    else x == w
  }

  lemma {:induction false} AfterCycleIsCycled(w: Workload, hero: Name, liveHere: bool)
    ensures Cycled(w, AfterCycle(w, hero, liveHere), hero, liveHere)
  {
  }

  function NodesOwned(s: State, key: string, h: Name): set<string> {
    set n | n in s.nodes && Owner(s.nodes[n], key) == Some(h)
  }

  /** Every workload is cycled over the nodes; nodes change by a due nudge only; no drain starts or ends. */
  ghost predicate CycledOver(s: State, t: State, h: Name, nodes: set<string>) {
    && t == s.(nodes := t.nodes, workloads := t.workloads, suspended := t.suspended, reactivated := t.reactivated)
    && t.nodes.Keys == s.nodes.Keys && t.workloads.Keys == s.workloads.Keys
    && (forall n :: n in s.nodes ==> t.nodes[n] == s.nodes[n].(nudge := t.nodes[n].nudge))
    && forall v :: v in s.workloads ==> Cycled(s.workloads[v], t.workloads[v], h, LiveOn(s, nodes, h, v))
  }

  lemma {:induction false} CycleIsCycledOver(s: State, cfg: Config, l: Listing, hero: Workload, nodes: seq<string>)
    requires Lists(l, s)
    ensures CycledOver(s, Run(s, CycleCalls(s, cfg, l, hero, nodes), cfg.taintKey), hero.key, Elements(nodes))
  {
    CycleNudges(s, cfg, l, hero, nodes);
    var t := Run(s, CycleCalls(s, cfg, l, hero, nodes), cfg.taintKey);
    forall v | v in s.workloads
      ensures Cycled(s.workloads[v], t.workloads[v], hero.key, LiveOn(s, Elements(nodes), hero.key, v))
    {
      CycleExactly(s, cfg, l, hero, nodes, v);
      LiveIffOccupant(s, nodes, hero.key, v);
      AfterCycleIsCycled(s.workloads[v], hero.key, v in Occupants(s.pods, nodes, hero.key));
    }
  }

  lemma {:induction false} OwnNodesCycled(s: State, cfg: Config, l: Listing, hero: Workload)
    requires WellFormed(s) && Lists(l, s) && hero.key in DrainsIn(s, cfg.taintKey, l)
    ensures CycledOver(s,
      Run(s, CycleCalls(s, cfg, l, hero, DrainsIn(s, cfg.taintKey, l)[hero.key].nodes), cfg.taintKey), hero.key,
      NodesOwned(s, cfg.taintKey, hero.key))
  {
    DrainsOnNodes(s, cfg.taintKey, l, hero.key);
    var nodes := DrainsIn(s, cfg.taintKey, l)[hero.key].nodes;
    assert Elements(nodes) == NodesOwned(s, cfg.taintKey, hero.key);
    CycleIsCycledOver(s, cfg, l, hero, nodes);
  }

  lemma {:induction false} UnstuckCalls(s: State, cfg: Config, l: Listing, look: Look, key: Name)
    requires ValidConfig(cfg) && Lists(l, s) && key in DrainsIn(s, cfg.taintKey, l) && key in s.workloads
    requires s.workloads[key].active != Some(false) && s.workloads[key].deactivatedFor.None?
    requires s.workloads[key].isHero && !s.workloads[key].stuck
    ensures ReconcileCalls(s, cfg, l, look, key)
      == CycleCalls(s, cfg, l, s.workloads[key], DrainsIn(s, cfg.taintKey, l)[key].nodes)
  {
  }

  /** A hero that got unstuck keeps its nodes, and the victims on them are cycled. */
  lemma {:induction false} UnstuckHeroCycles(s: State, cfg: Config, l: Listing, look: Look, key: Name)
    requires ValidConfig(cfg) && WellFormed(s) && Lists(l, s) && Draining(s, cfg.taintKey, key)
    requires s.workloads[key].isHero && !s.workloads[key].stuck
    ensures CycledOver(s, Run(s, ReconcileCalls(s, cfg, l, look, key), cfg.taintKey), key,
      NodesOwned(s, cfg.taintKey, key))
  {
    DrainsOnNodes(s, cfg.taintKey, l, key);
    UnstuckCalls(s, cfg, l, look, key);
    OwnNodesCycled(s, cfg, l, s.workloads[key]);
  }

  // ---- a drain that starts or resumes ----

  /** A turn has come: stuck within quota, nobody else drains, mid-drain or foremost in line, levels known. */
  ghost predicate Turn(s: State, cfg: Config, look: Look, key: Name) {
    && Waits(s, key) && s.workloads[key].deactivatedFor.None? && !s.workloads[key].overQuota
    && !OthersOwn(s, cfg.taintKey, key) && look.levels.Some?
    && (Owns(s, cfg.taintKey, key) || Foremost(s, key))
  }

  lemma {:induction false} TurnPlans(s: State, cfg: Config, l: Listing, look: Look, key: Name)
    requires ValidConfig(cfg) && WellFormed(s) && Lists(l, s) && Turn(s, cfg, look, key)
    requires OutcomeFor(s, cfg, l, look, s.workloads[key]).Planned? && !cfg.dryRun
    ensures ReconcileCalls(s, cfg, l, look, key)
      == StartCalls(s, cfg, l, look, s.workloads[key], OutcomeFor(s, cfg, l, look, s.workloads[key]).plan.nodes,
                    Owns(s, cfg.taintKey, key))
  {
    DrainsOnNodes(s, cfg.taintKey, l, key);
    FrontIsForemost(s, l, key);
  }

  /** The node may take h's taint: whatever taint of the key it has already stands beside h's annotation. */
  ghost predicate Taintable(s: State, key: string, h: Name, n: string) {
    && n in s.nodes
    && forall i :: 0 <= i < |s.nodes[n].taints| && s.nodes[n].taints[i].key == key ==>
      s.nodes[n].owner == Some(h.ns + "/" + h.name)
  }

  /** The node as h's drain leaves it: one more taint, h's annotation and a clock if it had no taint of the key. */
  ghost predicate TaintedFor(a: Node, b: Node, key: string, h: Name, queue: string, now: int) {
    if exists i :: 0 <= i < |a.taints| && a.taints[i].key == key then b == a
    else b == a.(taints := a.taints + [Taint(key, queue, NoSchedule)], owner := Some(h.ns + "/" + h.name),
                 startedAt := if a.startedAt.None? then Some(At(now)) else a.startedAt)
  }

  /** The taint loop gets through exactly when the queue name fits and every node may be taken; then all are. */
  lemma {:induction false} TaintLoopExactly(s: State, nodes: seq<string>, h: Name, queue: string, key: string)
    ensures var taints := TaintAllCalls(nodes, h, queue);
      var t := Run(s, taints, key);
      && (Completes(s, taints, key) <==>
            nodes == [] || (|queue| <= 63 && forall n :: n in nodes ==> Taintable(s, key, h, n)))
      && t == s.(nodes := t.nodes) && t.nodes.Keys == s.nodes.Keys
      && (Completes(s, taints, key) ==> forall n :: n in s.nodes ==>
            if n in nodes then TaintedFor(s.nodes[n], t.nodes[n], key, h, queue, s.now) else t.nodes[n] == s.nodes[n])
    decreases |nodes|
  {
    if nodes == [] {
    } else {
      var c := PutTaint(nodes[0], h, queue);
      assert TaintAllCalls(nodes, h, queue)[0] == c;
      assert TaintAllCalls(nodes, h, queue)[1..] == TaintAllCalls(nodes[1..], h, queue);
      assert forall n :: n in nodes <==> n == nodes[0] || n in nodes[1..];
      TaintFailsIff(s, nodes[0], h, queue, key);
      if !Fails(s, c, key) {
        TaintedOnce(s, nodes[0], h, queue, key);
        TaintLoopExactly(Apply(s, c, key), nodes[1..], h, queue, key);
      }
    }
  }

  lemma {:induction false} TaintFailsIff(s: State, n: string, h: Name, queue: string, key: string)
    ensures Fails(s, PutTaint(n, h, queue), key) <==> |queue| > 63 || !Taintable(s, key, h, n)
  {
  }

  lemma {:induction false} TaintedOnce(s: State, n: string, h: Name, queue: string, key: string)
    requires !Fails(s, PutTaint(n, h, queue), key)
    ensures var t := Apply(s, PutTaint(n, h, queue), key);
      && TaintedFor(s.nodes[n], t.nodes[n], key, h, queue, s.now)
      && HasKey(t.nodes[n].taints, key) && t.nodes[n].owner == Some(OwnerRef(h))
      && forall m :: Taintable(t, key, h, m) <==> Taintable(s, key, h, m)
  {
    var t := Apply(s, PutTaint(n, h, queue), key);
    var k := |s.nodes[n].taints|;
    if !HasKey(s.nodes[n].taints, key) {
      assert t.nodes[n].taints[k].key == key;
    }
  }

  lemma {:induction false} StartIsCycledOver(s: State, cfg: Config, l: Listing, look: Look, w: Workload,
      nodes: seq<string>, resuming: bool)
    requires Lists(l, s)
    ensures var tainted := Run(s, TaintAllCalls(nodes, w.key, look.queue), cfg.taintKey);
      var t := Run(s, StartCalls(s, cfg, l, look, w, nodes, resuming), cfg.taintKey);
      if Completes(s, TaintAllCalls(nodes, w.key, look.queue), cfg.taintKey)
      then CycledOver(tainted.(started := s.started + if resuming then 0 else 1), t, w.key, Elements(nodes))
      else t == tainted
  {
    var taints := TaintAllCalls(nodes, w.key, look.queue);
    StartRuns(s, cfg, l, look, w, nodes, resuming);
    RunSameObjects(s, taints, cfg.taintKey);
    TaintLoopExactly(s, nodes, w.key, look.queue, cfg.taintKey);
    var tainted := Run(s, taints, cfg.taintKey);
    CycleIsCycledOver(if resuming then tainted else Apply(tainted, CountStart, cfg.taintKey), cfg, l, w, nodes);
  }

  /**
   Outside dry-run a hero whose turn has come and who has a plan gets its nodes tainted; if no taint fails, the
   victims living on them are cycled, and a start is counted unless it had a drain already.
   */
  lemma {:induction false} PlannedDrainRuns(s: State, cfg: Config, l: Listing, look: Look, key: Name)
    requires ValidConfig(cfg) && WellFormed(s) && Lists(l, s) && Turn(s, cfg, look, key) && !cfg.dryRun
    requires OutcomeFor(s, cfg, l, look, s.workloads[key]).Planned?
    ensures var nodes := OutcomeFor(s, cfg, l, look, s.workloads[key]).plan.nodes;
      var tainted := Run(s, TaintAllCalls(nodes, key, look.queue), cfg.taintKey);
      var t := Run(s, ReconcileCalls(s, cfg, l, look, key), cfg.taintKey);
      if Completes(s, TaintAllCalls(nodes, key, look.queue), cfg.taintKey)
      then CycledOver(tainted.(started := s.started + if Owns(s, cfg.taintKey, key) then 0 else 1), t, key,
                      Elements(nodes))
      else t == tainted
  {
    TurnPlans(s, cfg, l, look, key);
    StartIsCycledOver(s, cfg, l, look, s.workloads[key],
      OutcomeFor(s, cfg, l, look, s.workloads[key]).plan.nodes, Owns(s, cfg.taintKey, key));
  }

  // ---- a reconcile that does nothing ----

  /** Nothing to drain for and nothing to end: every way out of a reconcile that leaves the cluster alone. */
  ghost predicate NothingToDo(s: State, cfg: Config, l: Listing, look: Look, key: Name)
    requires ValidConfig(cfg) && Lists(l, s)
  {
    key in s.workloads ==>
      var w, own := s.workloads[key], Owns(s, cfg.taintKey, key);
      && w.deactivatedFor.None?
      && (|| w.active == Some(false)
          || (!own && !(w.isHero && w.stuck && !w.overQuota))
          || (w.isHero && w.stuck && !w.overQuota
              && (|| OthersOwn(s, cfg.taintKey, key)
                  || (!own && !Foremost(s, key))
                  || look.levels.None?
                  || (!own && !OutcomeFor(s, cfg, l, look, w).Planned?)
                  || (cfg.dryRun && OutcomeFor(s, cfg, l, look, w).Planned?))))
  }

  /** Queued, not next in line, unresolvable, infeasible without a drain, dry-run: the cluster stays as it is. */
  lemma {:induction false} IdleReconcile(s: State, cfg: Config, l: Listing, look: Look, key: Name)
    requires ValidConfig(cfg) && WellFormed(s) && Lists(l, s) && NothingToDo(s, cfg, l, look, key)
    ensures Run(s, ReconcileCalls(s, cfg, l, look, key), cfg.taintKey) == s
  {
    DrainsOnNodes(s, cfg.taintKey, l, key);
    FrontIsForemost(s, l, key);
    assert ReconcileCalls(s, cfg, l, look, key) == [];
  }

  /** The cases are all there are: an unmarked workload's reconcile idles, ends its drain, cycles or drains. */
  lemma {:induction false} EveryReconcile(s: State, cfg: Config, l: Listing, look: Look, key: Name)
    requires ValidConfig(cfg) && WellFormed(s) && Lists(l, s)
    requires key in s.workloads && s.workloads[key].deactivatedFor.None?
    ensures var w := s.workloads[key];
      || NothingToDo(s, cfg, l, look, key)
      || (Draining(s, cfg.taintKey, key) && MustStop(s, cfg, l, look, w))
      || (Draining(s, cfg.taintKey, key) && w.isHero && !w.stuck)
      || (Turn(s, cfg, look, key) && OutcomeFor(s, cfg, l, look, w).Planned? && !cfg.dryRun)
  {
    assert s.workloads[key].key == key;
  }

  // ---- a victim's own event ----

  /** The marker names a workload that is no longer there. */
  ghost predicate OwnerGone(s: State, text: string) {
    exists h: Name :: '/' !in h.ns && text == h.ns + "/" + h.name && h !in s.workloads
  }

  lemma {:induction false} OwnerGoneIffCut(s: State, text: string)
    ensures OwnerGone(s, text) <==>
      Cut(text).Some? && Name(Cut(text).value.0, Cut(text).value.1) !in s.workloads
  {
    CutJoins(text);
    if OwnerGone(s, text) {
      var h: Name :| '/' !in h.ns && text == h.ns + "/" + h.name && h !in s.workloads;
      CutOfJoin(h.ns, h.name);
    }
    if Cut(text).Some? {
      var h := Name(Cut(text).value.0, Cut(text).value.1);
      assert text == h.ns + "/" + h.name;
    }
  }

  /**
   A suspended victim's event hands it back exactly when its hero is gone or kueue has evicted it for the
   deactivation; otherwise, and when it is already active, nothing changes.
   */
  lemma {:induction false} VictimEventExactly(s: State, cfg: Config, l: Listing, look: Look, key: Name)
    requires ValidConfig(cfg) && Lists(l, s)
    requires key in s.workloads && s.workloads[key].deactivatedFor.Some?
    ensures var w, t := s.workloads[key], Run(s, ReconcileCalls(s, cfg, l, look, key), cfg.taintKey);
      var out := EVICTED in w.conditions && w.conditions[EVICTED].status == True
        && DEACTIVATED <= w.conditions[EVICTED].reason;
      t == if w.active == Some(false) && (OwnerGone(s, w.deactivatedFor.value) || out)
        then s.(workloads := s.workloads[key := w.(active := Some(true), deactivatedFor := None)],
                reactivated := s.reactivated + 1)
        else s
  {
    OwnerGoneIffCut(s, s.workloads[key].deactivatedFor.value);
    RunOne(s, Reactivate(key), cfg.taintKey);
    assert Run(s, [], cfg.taintKey) == s;
  }
}
