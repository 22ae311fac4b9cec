/**
 Suspensions are conserved: a marked workload is inactive, an unmarked one is as its users left it, and the
 two counters differ by the workloads marked, over every run and every way a victim comes back.
 */
module Suspensions {
  import opened Base
  import opened Kube
  import opened Taints
  import opened Selection
  import opened Clusters
  import opened DrainCalls
  import opened Janitor
  import opened Runs

  predicate IsMarked(s: State, v: Name) {
    v in s.workloads && s.workloads[v].deactivatedFor.Some?
  }

  function Marked(s: State): set<Name> {
    set v | v in s.workloads && s.workloads[v].deactivatedFor.Some?
  }

  /** user: whether its users want the workload active. */
  ghost predicate Faithful(s: State, user: map<Name, bool>) {
    forall v :: v in s.workloads ==> v in user && AsWanted(s.workloads[v], user[v])
  }

  ghost predicate AsWanted(w: Workload, active: bool) {
    if w.deactivatedFor.Some? then Inactive(w) && active else Inactive(w) == !active
  }

  ghost predicate Balanced(s: State) {
    s.suspended == s.reactivated + |Marked(s)|
  }

  // ---- single calls ----

  ghost predicate Guarded(s: State, c: Call) {
    match c
    case Suspend(v, _) => v in s.workloads && !Inactive(s.workloads[v])
    case Reactivate(v) => IsMarked(s, v)
    case _ => true
  }

  lemma {:induction false} SuspendKeeps(s: State, v: Name, hero: Name, key: string, user: map<Name, bool>)
    requires Faithful(s, user) && Balanced(s) && v in s.workloads && !Inactive(s.workloads[v])
    ensures Faithful(Apply(s, Suspend(v, hero), key), user) && Balanced(Apply(s, Suspend(v, hero), key))
  {
    assert AsWanted(s.workloads[v], user[v]);
    assert Marked(Apply(s, Suspend(v, hero), key)) == Marked(s) + {v};
  }

  lemma {:induction false} ReactivateKeeps(s: State, v: Name, key: string, user: map<Name, bool>)
    requires Faithful(s, user) && Balanced(s) && IsMarked(s, v)
    ensures Faithful(Apply(s, Reactivate(v), key), user) && Balanced(Apply(s, Reactivate(v), key))
  {
    assert AsWanted(s.workloads[v], user[v]);
    assert Marked(Apply(s, Reactivate(v), key)) == Marked(s) - {v};
  }

  lemma {:induction false} GuardedKeeps(s: State, c: Call, key: string, user: map<Name, bool>)
    requires Faithful(s, user) && Balanced(s) && Guarded(s, c)
    ensures Faithful(Apply(s, c, key), user) && Balanced(Apply(s, c, key))
  {
    match c {
      case Suspend(v, hero) => SuspendKeeps(s, v, hero, key, user);
      case Reactivate(v) => ReactivateKeeps(s, v, key, user);
      case _ =>
        assert Apply(s, c, key).workloads == s.workloads;
        assert Marked(Apply(s, c, key)) == Marked(s);
    }
  }

  /** Acting on a stale read miscounts: reactivating keeps the balance exactly when the workload is still marked, */
  lemma {:induction false} StaleReactivationMiscounts(s: State, v: Name, key: string)
    requires Balanced(s) && v in s.workloads
    ensures Balanced(Apply(s, Reactivate(v), key)) <==> IsMarked(s, v)
  {
    assert Marked(Apply(s, Reactivate(v), key)) == Marked(s) - {v};
  }

  /** and suspending exactly when it is not yet marked. */
  lemma {:induction false} StaleSuspensionMiscounts(s: State, v: Name, hero: Name, key: string)
    requires Balanced(s) && v in s.workloads
    ensures Balanced(Apply(s, Suspend(v, hero), key)) <==> !IsMarked(s, v)
  {
    assert Marked(Apply(s, Suspend(v, hero), key)) == Marked(s) + {v};
  }

  // ---- sequences of calls ----

  ghost predicate GuardedRun(s: State, calls: seq<Call>, key: string)
    decreases |calls|
  {
    calls == [] || Fails(s, calls[0], key)
    || (Guarded(s, calls[0]) && GuardedRun(Apply(s, calls[0], key), calls[1..], key))
  }

  lemma {:induction false} GuardedRunKeeps(s: State, calls: seq<Call>, k: nat, key: string, user: map<Name, bool>)
    requires Faithful(s, user) && Balanced(s) && GuardedRun(s, calls, key) && k <= |calls|
    ensures Faithful(Run(s, calls[..k], key), user) && Balanced(Run(s, calls[..k], key))
    decreases |calls|
  {
    if k > 0 && !Fails(s, calls[0], key) {
      GuardedKeeps(s, calls[0], key, user);
      GuardedRunKeeps(Apply(s, calls[0], key), calls[1..], k - 1, key, user);
      assert calls[..k][1..] == calls[1..][..k - 1];
    }
  }

  lemma {:induction false} GuardedConcat(s: State, a: seq<Call>, b: seq<Call>, key: string)
    requires GuardedRun(s, a, key) && (Completes(s, a, key) ==> GuardedRun(Run(s, a, key), b, key))
    ensures GuardedRun(s, a + b, key)
    decreases |a|
  {
    if a == [] {
      assert a + b == b;
    } else if !Fails(s, a[0], key) {
      GuardedConcat(Apply(s, a[0], key), a[1..], b, key);
      assert (a + b)[1..] == a[1..] + b;
    }
  }

  lemma {:induction false} NodeCallsGuarded(s: State, calls: seq<Call>, key: string)
    requires forall i :: 0 <= i < |calls| ==> !calls[i].Suspend? && !calls[i].Reactivate?
    ensures GuardedRun(s, calls, key)
    decreases |calls|
  {
    if calls != [] && !Fails(s, calls[0], key) {
      NodeCallsGuarded(Apply(s, calls[0], key), calls[1..], key);
    }
  }

  lemma {:induction false} SuspendsGuarded(s: State, vs: seq<Name>, hero: Name, key: string)
    requires NoRepeats(vs) && forall v :: v in vs ==> v in s.workloads && !Inactive(s.workloads[v])
    ensures GuardedRun(s, SuspendAll(vs, hero), key)
    decreases |vs|
  {
    if vs == [] {
    } else {
      var t := Apply(s, Suspend(vs[0], hero), key);
      assert SuspendAll(vs, hero)[1..] == SuspendAll(vs[1..], hero);
      assert vs[0] in vs;
      forall v | v in vs[1..] ensures v in t.workloads && !Inactive(t.workloads[v]) {
        assert v in vs && v != vs[0];
      }
      SuspendsGuarded(t, vs[1..], hero, key);
    }
  }

  lemma {:induction false} ReactivatesGuarded(s: State, vs: seq<Name>, key: string)
    requires NoRepeats(vs) && forall v :: v in vs ==> IsMarked(s, v)
    ensures GuardedRun(s, ReactivateAll(vs), key)
    decreases |vs|
  {
    if vs == [] {
    } else {
      var t := Apply(s, Reactivate(vs[0]), key);
      assert ReactivateAll(vs)[1..] == ReactivateAll(vs[1..]);
      assert vs[0] in vs;
      forall v | v in vs[1..] ensures IsMarked(t, v) {
        assert v in vs && v != vs[0] && IsMarked(s, v);
      }
      ReactivatesGuarded(t, vs[1..], key);
    }
  }

  lemma {:induction false} SweepGuarded(s: State, l: Listing, text: string, key: string)
    requires Lists(l, s)
    ensures GuardedRun(s, SweepCalls(s, l, text), key)
  {
    FilterDistinct(l.workloads, (v: Name) => IsMarkedFor(s, text, v));
    forall v | v in MarkedFor(s, l, text) ensures IsMarked(s, v) {
      MarkedForMeaning(s, l, text, v);
    }
    ReactivatesGuarded(s, MarkedFor(s, l, text), key);
  }

  // ---- the reconciles, stopped anywhere ----

  lemma {:induction false} CycleGuarded(s: State, cfg: Config, l: Listing, hero: Workload, nodes: seq<string>)
    requires Lists(l, s)
    ensures GuardedRun(s, CycleCalls(s, cfg, l, hero, nodes), cfg.taintKey)
  {
    var key := cfg.taintKey;
    var occupants := Occupants(s.pods, nodes, hero.key);
    OccupantsMeaning(s.pods, nodes, hero.key);
    var suspends := SuspendCalls(s, occupants, hero.key);
    var keep := (v: Name) => ToSuspend(s, v);
    FilterDistinct(occupants, keep);
    forall v | v in Filter(occupants, keep) ensures ToSuspend(s, v) {
      FilterMember(occupants, keep, v);
    }
    SuspendsGuarded(s, Filter(occupants, keep), hero.key, key);
    var mid := Run(s, suspends, key);
    RunSameObjects(s, suspends, key);
    ReturnsGuarded(mid, l, OwnerRef(hero.key), key);
    var back := ReturnCalls(mid, l, OwnerRef(hero.key));
    GuardedConcat(s, suspends, back, key);
    var last := if SomeVictim(s, occupants) then []
      else NudgeCalls(Run(mid, back, key), hero, nodes, cfg.nudgeInterval);
    NodeCallsGuarded(Run(s, suspends + back, key), last, key);
    GuardedConcat(s, suspends + back, last, key);
  }

  lemma {:induction false} ReturnsGuarded(s: State, l: Listing, text: string, key: string)
    requires Lists(l, s)
    ensures GuardedRun(s, ReturnCalls(s, l, text), key)
  {
    var keep := (v: Name) => ReadyToReturn(s, text, v);
    FilterDistinct(l.workloads, keep);
    forall v | v in Filter(l.workloads, keep) ensures IsMarked(s, v) {
      FilterMember(l.workloads, keep, v);
    }
    ReactivatesGuarded(s, Filter(l.workloads, keep), key);
  }

  lemma {:induction false} AbortGuarded(s: State, l: Listing, hero: Name, nodes: seq<string>, key: string)
    requires Lists(l, s)
    ensures GuardedRun(s, AbortCalls(s, l, hero, nodes), key)
  {
    var sweep := SweepCalls(s, l, OwnerRef(hero));
    SweepGuarded(s, l, OwnerRef(hero), key);
    NodeCallsGuarded(Run(s, sweep, key), DropAll(nodes, hero), key);
    GuardedConcat(s, sweep, DropAll(nodes, hero), key);
    NodeCallsGuarded(Run(s, sweep + DropAll(nodes, hero), key), [CountEnd], key);
    GuardedConcat(s, sweep + DropAll(nodes, hero), [CountEnd], key);
  }

  lemma {:induction false} StartGuarded(s: State, cfg: Config, l: Listing, look: Look, w: Workload,
      nodes: seq<string>, resuming: bool)
    requires Lists(l, s)
    ensures GuardedRun(s, StartCalls(s, cfg, l, look, w, nodes, resuming), cfg.taintKey)
  {
    var key := cfg.taintKey;
    var taints := TaintAllCalls(nodes, w.key, look.queue) + (if resuming then [] else [CountStart]);
    NodeCallsGuarded(s, taints, key);
    RunSameObjects(s, taints, key);
    CycleGuarded(Run(s, taints, key), cfg, l, w, nodes);
    GuardedConcat(s, taints, CycleCalls(Run(s, taints, key), cfg, l, w, nodes), key);
  }

  lemma {:induction false} ReconcileGuarded(s: State, cfg: Config, l: Listing, look: Look, key: Name)
    requires ValidConfig(cfg) && Lists(l, s)
    ensures GuardedRun(s, ReconcileCalls(s, cfg, l, look, key), cfg.taintKey)
  {
    var drains := DrainsIn(s, cfg.taintKey, l);
    if key in s.workloads {
      var w := s.workloads[key];
      if w.deactivatedFor.Some? {
        ReactivatesGuarded(s, [key], cfg.taintKey);
        assert ReactivateAll([key]) == [Reactivate(key)];
      } else {
        if key in drains {
          AbortGuarded(s, l, key, drains[key].nodes, cfg.taintKey);
          CycleGuarded(s, cfg, l, w, drains[key].nodes);
        }
        HeroGuarded(s, cfg, l, look, w, OutcomeFor(s, cfg, l, look, w));
      }
    }
  }

  lemma {:induction false} HeroGuarded(s: State, cfg: Config, l: Listing, look: Look, w: Workload, outcome: Outcome)
    requires Lists(l, s)
    ensures GuardedRun(s, HeroCalls(s, cfg, l, look, w, outcome), cfg.taintKey)
  {
    var drains := DrainsIn(s, cfg.taintKey, l);
    if w.key in drains {
      AbortGuarded(s, l, w.key, drains[w.key].nodes, cfg.taintKey);
    }
    if outcome.Planned? {
      StartGuarded(s, cfg, l, look, w, outcome.plan.nodes, w.key in drains);
    }
  }

  lemma {:induction false} TeardownGuarded(s: State, cfg: Config, l: Listing, node: string, owner: Name)
    requires Lists(l, s)
    ensures GuardedRun(s, TeardownCalls(s, cfg, l, node, owner), cfg.taintKey)
  {
    var drop := (if IsLastNode(s, cfg, l, node, owner) then [CountEnd] else []) + [DropTaint(node, owner)];
    var mid := Run(s, drop, cfg.taintKey);
    NodeCallsGuarded(s, drop, cfg.taintKey);
    RunSameObjects(s, drop, cfg.taintKey);
    SweepGuarded(mid, l, OwnerRef(owner), cfg.taintKey);
    GuardedConcat(s, drop, SweepCalls(mid, l, OwnerRef(owner)), cfg.taintKey);
  }

  lemma {:induction false} VisitGuarded(s: State, cfg: Config, l: Listing, node: string)
    requires Lists(l, s)
    ensures GuardedRun(s, VisitCalls(s, cfg, l, node), cfg.taintKey)
  {
    VisitCases(s, cfg, l, node);
    if node in s.nodes && Ladder(s.nodes[node], cfg, s.workloads, s.pods, s.now).Tear? {
      TeardownGuarded(s, cfg, l, node, Ladder(s.nodes[node], cfg, s.workloads, s.pods, s.now).owner);
    } else {
      NodeCallsGuarded(s, VisitCalls(s, cfg, l, node), cfg.taintKey);
    }
  }

  // ---- all runs ----

  /** Nobody else toggles, unmarks or deletes a marked workload, marks one, or touches the counters. */
  ghost predicate LeavesMarkedAlone(s: State, t: State) {
    && t.suspended == s.suspended && t.reactivated == s.reactivated
    && Marked(t) == Marked(s)
    && forall v :: IsMarked(s, v) ==> v in t.workloads && t.workloads[v].active == s.workloads[v].active
  }

  /** What users want after an outside step: for unmarked workloads, whatever they set. */
  ghost function WantedAfter(t: State, user: map<Name, bool>): map<Name, bool> {
    map v | v in t.workloads :: if IsMarked(t, v) && v in user then user[v] else !Inactive(t.workloads[v])
  }

  ghost predicate SuspensionRun(s: State, es: seq<Event>, cfg: Config)
    requires ValidConfig(cfg)
    decreases |es|
  {
    es == [] || (
      && Legal(s, es[0], cfg)
      && (es[0].Outside? ==> LeavesMarkedAlone(s, es[0].after))
      && SuspensionRun(Step(s, es[0], cfg), es[1..], cfg))
  }

  ghost function Final(s: State, user: map<Name, bool>, es: seq<Event>, cfg: Config): (State, map<Name, bool>)
    requires ValidConfig(cfg) && SuspensionRun(s, es, cfg)
    decreases |es|
  {
    if es == [] then (s, user)
    else Final(Step(s, es[0], cfg), if es[0].Outside? then WantedAfter(es[0].after, user) else user, es[1..], cfg)
  }

  lemma {:induction false} StepConserves(s: State, e: Event, cfg: Config, user: map<Name, bool>)
    requires ValidConfig(cfg) && Legal(s, e, cfg) && Faithful(s, user) && Balanced(s)
    requires e.Outside? ==> LeavesMarkedAlone(s, e.after)
    ensures Balanced(Step(s, e, cfg))
    ensures Faithful(Step(s, e, cfg), if e.Outside? then WantedAfter(e.after, user) else user)
  {
    match e {
      case Reconcile(l, look, key, k) =>
        ReconcileGuarded(s, cfg, l, look, key);
        GuardedRunKeeps(s, CallsOf(s, e, cfg), k, cfg.taintKey, user);
      case Visit(l, node, k) =>
        VisitGuarded(s, cfg, l, node);
        GuardedRunKeeps(s, CallsOf(s, e, cfg), k, cfg.taintKey, user);
      case Outside(t) =>
        var after := WantedAfter(t, user);
        forall v | v in t.workloads ensures AsWanted(t.workloads[v], after[v]) {
          if IsMarked(t, v) {
            assert v in Marked(t);
            assert AsWanted(s.workloads[v], user[v]);
          }
        }
    }
  }

  /** Whatever is cut short or happens outside, suspensions balance and nobody's choice is lost. */
  lemma {:induction false} SuspensionsConserved(s: State, user: map<Name, bool>, es: seq<Event>, cfg: Config)
    requires ValidConfig(cfg) && Faithful(s, user) && Balanced(s) && SuspensionRun(s, es, cfg)
    ensures var (end, wanted) := Final(s, user, es, cfg);
      Balanced(end) && Faithful(end, wanted)
    decreases |es|
  {
    if es == [] {
    } else {
      StepConserves(s, es[0], cfg, user);
      SuspensionsConserved(Step(s, es[0], cfg), if es[0].Outside? then WantedAfter(es[0].after, user) else user,
        es[1..], cfg);
    }
  }
}
