/** No victim stays marked past its drain: every marker names a hero that still holds a tainted node. */
module Marks {
  import opened Base
  import opened Kube
  import opened Taints
  import opened Selection
  import opened Clusters
  import opened DrainCalls
  import opened Janitor
  import opened Runs

  ghost predicate Holds(s: State, key: string, text: string) {
    exists n :: n in s.nodes && Owner(s.nodes[n], key).Some? && OwnerRef(Owner(s.nodes[n], key).value) == text
  }

  ghost predicate SomeMarked(s: State, text: string) {
    exists v :: IsMarkedFor(s, text, v)
  }

  ghost predicate Backed(s: State, key: string) {
    forall text :: SomeMarked(s, text) ==> Holds(s, key, text)
  }

  /** Where the owner annotation stands beside a taint of the key, the NoSchedule taint is there too. */
  ghost predicate Honest(s: State, key: string) {
    forall n :: n in s.nodes ==> HonestNode(s.nodes[n], key)
  }

  ghost predicate HonestNode(node: Node, key: string) {
    HasKey(node.taints, key) && node.owner.Some? ==> HasDrainTaint(node.taints, key)
  }

  // ---- single calls ----

  ghost predicate Safe(s: State, c: Call, key: string) {
    match c
    case Suspend(_, hero) => Holds(s, key, OwnerRef(hero))
    case DropTaint(_, hero) => !SomeMarked(s, OwnerRef(hero))
    case _ => true
  }

  lemma {:induction false} EnsureKeepsOwner(node: Node, key: string, hero: Name, queue: string, now: int)
    requires HonestNode(node, key)
    ensures var b := After(node, EnsureTaint(node, key, hero, queue, now));
      && HonestNode(b, key)
      && (Owner(node, key).Some? ==> b == node)
      && (ValidName(hero) && !EnsureTaint(node, key, hero, queue, now).Refused? ==> Owner(b, key) == Some(hero))
  {
    var a := EnsureTaint(node, key, hero, queue, now);
    if ValidName(hero) {
      EnsureTaintOwnsExactly(node, key, hero, queue, now);
    }
    if Owner(node, key).Some? {
      var i :| 0 <= i < |node.taints| && IsDrainTaint(node.taints[i], key);
      assert HasKey(node.taints, key);
    }
    if a.Write? {
      assert IsDrainTaint(a.node.taints[|node.taints|], key);
    }
  }

  lemma {:induction false} RemoveKeepsOthers(node: Node, key: string, hero: Name)
    requires HonestNode(node, key)
    ensures var b := After(node, RemoveOwnedTaint(node, key, hero));
      && HonestNode(b, key)
      && (Owner(node, key).Some? && OwnerRef(Owner(node, key).value) != OwnerRef(hero) ==> b == node)
  {
    if Owner(node, key).Some? {
      ParsedOwnerIsText(node.owner.value, Owner(node, key).value);
    }
  }

  lemma {:induction false} HeldElsewhere(s: State, t: State, key: string, n: string, text: string)
    requires Holds(s, key, text) && n in s.nodes && n in t.nodes && t == PutNode(s, n, t.nodes[n])
    requires Owner(s.nodes[n], key).Some? && OwnerRef(Owner(s.nodes[n], key).value) == text ==>
      Owner(t.nodes[n], key) == Owner(s.nodes[n], key)
    ensures Holds(t, key, text)
  {
    var m :| m in s.nodes && Owner(s.nodes[m], key).Some? && OwnerRef(Owner(s.nodes[m], key).value) == text;
    assert m in t.nodes && Owner(t.nodes[m], key) == Owner(s.nodes[m], key);
  }

  /** A safe call leaves every marker that was backed, and every holder of another text, as it was. */
  lemma {:induction false} HoldsKept(s: State, c: Call, key: string, text: string)
    requires Honest(s, key) && Holds(s, key, text) && (c.DropTaint? ==> text != OwnerRef(c.hero))
    ensures Holds(Apply(s, c, key), key, text)
  {
    var t := Apply(s, c, key);
    match c {
      case PutTaint(n, hero, queue) =>
        if n in s.nodes {
          EnsureKeepsOwner(s.nodes[n], key, hero, queue, s.now);
          HeldElsewhere(s, t, key, n, text);
        }
      case DropTaint(n, hero) =>
        if n in s.nodes {
          RemoveKeepsOthers(s.nodes[n], key, hero);
          HeldElsewhere(s, t, key, n, text);
        }
      case StampClock(n) =>
        if n in s.nodes {
          HeldElsewhere(s, t, key, n, text);
        }
      case StampNudge(n) =>
        if n in s.nodes {
          HeldElsewhere(s, t, key, n, text);
        }
      case _ =>
        assert t.nodes == s.nodes;
    }
  }

  lemma {:induction false} HonestKept(s: State, c: Call, key: string)
    requires Honest(s, key)
    ensures Honest(Apply(s, c, key), key)
  {
    var t := Apply(s, c, key);
    forall n | n in t.nodes ensures HonestNode(t.nodes[n], key) {
      assert HonestNode(s.nodes[n], key);
      if c.PutTaint? {
        EnsureKeepsOwner(s.nodes[n], key, c.hero, c.queue, s.now);
      } else if c.DropTaint? {
        RemoveKeepsOthers(s.nodes[n], key, c.hero);
      }
    }
  }

  lemma {:induction false} HonestRun(s: State, calls: seq<Call>, key: string)
    requires Honest(s, key)
    ensures Honest(Run(s, calls, key), key)
    decreases |calls|
  {
    if calls != [] && !Fails(s, calls[0], key) {
      HonestKept(s, calls[0], key);
      HonestRun(Apply(s, calls[0], key), calls[1..], key);
    }
  }

  lemma {:induction false} MarksFrom(s: State, c: Call, key: string, text: string)
    requires SomeMarked(Apply(s, c, key), text)
    ensures SomeMarked(s, text) || (c.Suspend? && text == OwnerRef(c.hero))
  {
    var v :| IsMarkedFor(Apply(s, c, key), text, v);
    if !(c.Suspend? && text == OwnerRef(c.hero)) {
      assert IsMarkedFor(s, text, v);
    }
  }

  lemma {:induction false} SafeKeepsBacked(s: State, c: Call, key: string)
    requires Backed(s, key) && Honest(s, key) && Safe(s, c, key)
    ensures Backed(Apply(s, c, key), key) && Honest(Apply(s, c, key), key)
  {
    HonestKept(s, c, key);
    var t := Apply(s, c, key);
    forall text | SomeMarked(t, text) ensures Holds(t, key, text) {
      MarksFrom(s, c, key, text);
      assert Holds(s, key, text);
      HoldsKept(s, c, key, text);
    }
  }

  // ---- sequences of calls ----

  ghost predicate SafeRun(s: State, calls: seq<Call>, key: string)
    decreases |calls|
  {
    calls == [] || Fails(s, calls[0], key)
    || (Safe(s, calls[0], key) && SafeRun(Apply(s, calls[0], key), calls[1..], key))
  }

  lemma {:induction false} SafeRunKeepsBacked(s: State, calls: seq<Call>, k: nat, key: string)
    requires Backed(s, key) && Honest(s, key) && SafeRun(s, calls, key) && k <= |calls|
    ensures Backed(Run(s, calls[..k], key), key) && Honest(Run(s, calls[..k], key), key)
    decreases |calls|
  {
    if k > 0 && !Fails(s, calls[0], key) {
      SafeKeepsBacked(s, calls[0], key);
      SafeRunKeepsBacked(Apply(s, calls[0], key), calls[1..], k - 1, key);
      assert calls[..k][1..] == calls[1..][..k - 1];
    }
  }

  lemma {:induction false} SafeConcat(s: State, a: seq<Call>, b: seq<Call>, key: string)
    requires SafeRun(s, a, key) && (Completes(s, a, key) ==> SafeRun(Run(s, a, key), b, key))
    ensures SafeRun(s, a + b, key)
    decreases |a|
  {
    if a == [] {
      assert a + b == b;
    } else if !Fails(s, a[0], key) {
      SafeConcat(Apply(s, a[0], key), a[1..], b, key);
      assert (a + b)[1..] == a[1..] + b;
    }
  }

  ghost predicate AlwaysSafe(c: Call) {
    !c.Suspend? && !c.DropTaint?
  }

  lemma {:induction false} AlwaysSafeRun(s: State, calls: seq<Call>, key: string)
    requires forall i :: 0 <= i < |calls| ==> AlwaysSafe(calls[i])
    ensures SafeRun(s, calls, key)
    decreases |calls|
  {
    if calls != [] && !Fails(s, calls[0], key) {
      AlwaysSafeRun(Apply(s, calls[0], key), calls[1..], key);
    }
  }

  lemma {:induction false} SuspendsSafe(s: State, vs: seq<Name>, hero: Name, key: string)
    requires Holds(s, key, OwnerRef(hero))
    ensures SafeRun(s, SuspendAll(vs, hero), key)
    decreases |vs|
  {
    if vs != [] && !Fails(s, Suspend(vs[0], hero), key) {
      assert SuspendAll(vs, hero)[1..] == SuspendAll(vs[1..], hero);
      assert Apply(s, Suspend(vs[0], hero), key).nodes == s.nodes;
      SuspendsSafe(Apply(s, Suspend(vs[0], hero), key), vs[1..], hero, key);
    }
  }

  lemma {:induction false} DropsSafe(s: State, names: seq<string>, hero: Name, key: string)
    requires !SomeMarked(s, OwnerRef(hero))
    ensures SafeRun(s, DropAll(names, hero), key)
    decreases |names|
  {
    if names == [] {
    } else {
      var t := Apply(s, DropTaint(names[0], hero), key);
      assert DropAll(names, hero)[1..] == DropAll(names[1..], hero);
      forall v ensures !IsMarkedFor(t, OwnerRef(hero), v) {
        assert !IsMarkedFor(s, OwnerRef(hero), v);
      }
      DropsSafe(t, names[1..], hero, key);
    }
  }

  lemma {:induction false} SweptClean(s: State, l: Listing, text: string, key: string)
    requires Lists(l, s)
    ensures !SomeMarked(Run(s, SweepCalls(s, l, text), key), text)
  {
    SweepEffect(s, l, text, key);
  }

  // ---- the drain reconciler, stopped anywhere ----

  lemma {:induction false} CycleSafe(s: State, cfg: Config, l: Listing, hero: Workload, nodes: seq<string>)
    requires nodes == [] || Holds(s, cfg.taintKey, OwnerRef(hero.key))
    ensures SafeRun(s, CycleCalls(s, cfg, l, hero, nodes), cfg.taintKey)
  {
    var key := cfg.taintKey;
    var occupants := Occupants(s.pods, nodes, hero.key);
    var suspends := SuspendCalls(s, occupants, hero.key);
    if nodes != [] {
      SuspendsSafe(s, Filter(occupants, (v: Name) => ToSuspend(s, v)), hero.key, key);
    }
    var mid := Run(s, suspends, key);
    var back := ReturnCalls(mid, l, OwnerRef(hero.key));
    AlwaysSafeRun(mid, back, key);
    SafeConcat(s, suspends, back, key);
    var last := if SomeVictim(s, occupants) then []
      else NudgeCalls(Run(mid, back, key), hero, nodes, cfg.nudgeInterval);
    AlwaysSafeRun(Run(s, suspends + back, key), last, key);
    SafeConcat(s, suspends + back, last, key);
  }

  lemma {:induction false} AbortSafe(s: State, l: Listing, hero: Name, nodes: seq<string>, key: string)
    requires Lists(l, s)
    ensures SafeRun(s, AbortCalls(s, l, hero, nodes), key)
  {
    var sweep := SweepCalls(s, l, OwnerRef(hero));
    AlwaysSafeRun(s, sweep, key);
    SweptClean(s, l, OwnerRef(hero), key);
    DropsSafe(Run(s, sweep, key), nodes, hero, key);
    SafeConcat(s, sweep, DropAll(nodes, hero), key);
    AlwaysSafeRun(Run(s, sweep + DropAll(nodes, hero), key), [CountEnd], key);
    SafeConcat(s, sweep + DropAll(nodes, hero), [CountEnd], key);
  }

  /** Once the whole taint loop went through, the hero holds a node. */
  lemma {:induction false} TaintedHolds(s: State, nodes: seq<string>, hero: Name, queue: string, key: string)
    requires Honest(s, key) && ValidName(hero) && Completes(s, TaintAllCalls(nodes, hero, queue), key)
    requires nodes != [] || Holds(s, key, OwnerRef(hero))
    ensures Holds(Run(s, TaintAllCalls(nodes, hero, queue), key), key, OwnerRef(hero))
    decreases |nodes|
  {
    if nodes == [] {
    } else {
      var c := PutTaint(nodes[0], hero, queue);
      assert TaintAllCalls(nodes, hero, queue)[0] == c;
      assert TaintAllCalls(nodes, hero, queue)[1..] == TaintAllCalls(nodes[1..], hero, queue);
      var t := Apply(s, c, key);
      EnsureKeepsOwner(s.nodes[nodes[0]], key, hero, queue, s.now);
      assert Owner(t.nodes[nodes[0]], key) == Some(hero);
      HonestKept(s, c, key);
      TaintedHolds(t, nodes[1..], hero, queue, key);
    }
  }

  lemma {:induction false} StartSafe(s: State, cfg: Config, l: Listing, look: Look, w: Workload, nodes: seq<string>,
      resuming: bool)
    requires Honest(s, cfg.taintKey) && ValidName(w.key)
    ensures SafeRun(s, StartCalls(s, cfg, l, look, w, nodes, resuming), cfg.taintKey)
  {
    var key := cfg.taintKey;
    var taints := TaintAllCalls(nodes, w.key, look.queue);
    var count: seq<Call> := if resuming then [] else [CountStart];
    var mid := Run(s, taints + count, key);
    var cycle := CycleCalls(mid, cfg, l, w, nodes);
    AlwaysSafeRun(s, taints + count, key);
    if Completes(s, taints + count, key) {
      RunConcat(s, taints, count, key);
      if nodes != [] {
        TaintedHolds(s, nodes, w.key, look.queue, key);
        RunOne(Run(s, taints, key), CountStart, key);
        assert mid.nodes == Run(s, taints, key).nodes;
        assert Holds(mid, key, OwnerRef(w.key));
      }
      CycleSafe(mid, cfg, l, w, nodes);
    }
    SafeConcat(s, taints + count, cycle, key);
  }

  lemma {:induction false} OwnDrainHolds(s: State, cfg: Config, l: Listing, h: Name)
    requires WellFormed(s) && Lists(l, s) && h in DrainsIn(s, cfg.taintKey, l)
    ensures Holds(s, cfg.taintKey, OwnerRef(h))
  {
    DrainsInMeaning(s, cfg.taintKey, l, h);
    var n :| n in OwnedBy(s, cfg.taintKey, h);
    assert n in s.nodes && Owner(s.nodes[n], cfg.taintKey).Some?;
  }

  lemma {:induction false} HeroSafe(s: State, cfg: Config, l: Listing, look: Look, w: Workload, outcome: Outcome)
    requires Lists(l, s) && Honest(s, cfg.taintKey) && ValidName(w.key)
    ensures SafeRun(s, HeroCalls(s, cfg, l, look, w, outcome), cfg.taintKey)
  {
    var drains := DrainsIn(s, cfg.taintKey, l);
    if w.key in drains {
      AbortSafe(s, l, w.key, drains[w.key].nodes, cfg.taintKey);
    }
    if outcome.Planned? {
      StartSafe(s, cfg, l, look, w, outcome.plan.nodes, w.key in drains);
    }
  }

  lemma {:induction false} ReconcileSafe(s: State, cfg: Config, l: Listing, look: Look, key: Name)
    requires ValidConfig(cfg) && WellFormed(s) && Lists(l, s) && Honest(s, cfg.taintKey)
    ensures SafeRun(s, ReconcileCalls(s, cfg, l, look, key), cfg.taintKey)
  {
    var drains := DrainsIn(s, cfg.taintKey, l);
    if key in s.workloads {
      var w := s.workloads[key];
      assert w.key == key && ValidName(key);
      if w.deactivatedFor.Some? {
        AlwaysSafeRun(s, VictimEventCalls(s, key), cfg.taintKey);
      } else {
        if key in drains {
          AbortSafe(s, l, key, drains[key].nodes, cfg.taintKey);
          OwnDrainHolds(s, cfg, l, key);
          CycleSafe(s, cfg, l, w, drains[key].nodes);
        }
        HeroSafe(s, cfg, l, look, w, OutcomeFor(s, cfg, l, look, w));
      }
    }
  }

  // ---- the janitor, stopped anywhere ----

  lemma {:induction false} OnlyElement(xs: seq<string>, all: set<string>, x: string)
    requires NoRepeats(xs) && x in all && forall n :: n in xs <==> n in all
    ensures xs == [x] <==> all == {x}
  {
    assert x in xs;
    assert |xs| >= 2 ==> xs[0] != xs[1];
    if all == {x} {
      forall i | 0 <= i < |xs| ensures xs[i] == x {
        assert xs[i] in xs;
      }
    }
    if xs == [x] {
      forall n ensures n in all <==> n in {x} {
        assert n in xs <==> n == x;
      }
    }
  }

  lemma {:induction false} LastMeansOnly(s: State, cfg: Config, l: Listing, node: string, owner: Name)
    requires WellFormed(s) && Lists(l, s) && node in OwnedBy(s, cfg.taintKey, owner)
    ensures IsLastNode(s, cfg, l, node, owner) <==> OwnedBy(s, cfg.taintKey, owner) == {node}
  {
    DrainsInMeaning(s, cfg.taintKey, l, owner);
    OnlyElement(DrainsIn(s, cfg.taintKey, l)[owner].nodes, OwnedBy(s, cfg.taintKey, owner), node);
  }

  lemma {:induction false} OwnerOfText(node: Node, key: string, owner: Name)
    requires ValidName(owner) && Owner(node, key).Some?
    ensures OwnerRef(Owner(node, key).value) == OwnerRef(owner) <==> Owner(node, key) == Some(owner)
  {
    ParsedOwnerIsText(node.owner.value, Owner(node, key).value);
    OwnerRefRoundTrip(owner);
    OwnerRefRoundTrip(Owner(node, key).value);
  }

  /** Who still holds what once one node of owner is untainted. */
  lemma {:induction false} HoldsAfterDrop(s: State, t: State, key: string, node: string, owner: Name, text: string)
    requires ValidName(owner) && node in OwnedBy(s, key, owner)
    requires t.nodes == s.nodes[node := After(s.nodes[node], RemoveOwnedTaint(s.nodes[node], key, owner))]
    ensures Holds(t, key, text)
      <==> Holds(s, key, text) && !(text == OwnerRef(owner) && OwnedBy(s, key, owner) == {node})
  {
    RemoveOwnedTaintFrees(s.nodes[node], key, owner);
    OwnerOfText(s.nodes[node], key, owner);
    if Holds(t, key, text) {
      var n :| n in t.nodes && Owner(t.nodes[n], key).Some? && OwnerRef(Owner(t.nodes[n], key).value) == text;
      assert n in s.nodes && t.nodes[n] == s.nodes[n];
      OwnerOfText(s.nodes[n], key, owner);
      assert text == OwnerRef(owner) ==> n in OwnedBy(s, key, owner) && n != node;
    }
    if Holds(s, key, text) && text != OwnerRef(owner) {
      var n :| n in s.nodes && Owner(s.nodes[n], key).Some? && OwnerRef(Owner(s.nodes[n], key).value) == text;
      assert n != node && n in t.nodes && t.nodes[n] == s.nodes[n];
    }
    if text == OwnerRef(owner) && OwnedBy(s, key, owner) != {node} {
      var rest := OwnedBy(s, key, owner) - {node};
      assert OwnedBy(s, key, owner) == rest + {node};
      var n :| n in rest;
      assert n in t.nodes && t.nodes[n] == s.nodes[n];
    }
  }

  /** The calls of a teardown that come before its sweep. */
  ghost function DropCalls(s: State, cfg: Config, l: Listing, node: string, owner: Name): seq<Call>
    requires Lists(l, s)
  {
    (if IsLastNode(s, cfg, l, node, owner) then [CountEnd] else []) + [DropTaint(node, owner)]
  }

  lemma {:induction false} DropRuns(s: State, cfg: Config, l: Listing, node: string, owner: Name)
    requires Lists(l, s)
    ensures var drop := DropCalls(s, cfg, l, node, owner);
      && Completes(s, drop, cfg.taintKey) && Run(s, drop, cfg.taintKey) == Janitor.Untainted(s, cfg, l, node, owner)
  {
    var count: seq<Call> := if IsLastNode(s, cfg, l, node, owner) then [CountEnd] else [];
    if count != [] {
      RunOne(s, CountEnd, cfg.taintKey);
    }
    RunSnoc(s, count, DropTaint(node, owner), cfg.taintKey);
  }

  lemma {:induction false} CutBeforeDrop(s: State, cfg: Config, l: Listing, node: string, owner: Name, k: nat)
    requires Lists(l, s) && k < |DropCalls(s, cfg, l, node, owner)|
    ensures var t := Run(s, TeardownCalls(s, cfg, l, node, owner)[..k], cfg.taintKey);
      t.nodes == s.nodes && t.workloads == s.workloads
  {
    if k == 1 {
      assert TeardownCalls(s, cfg, l, node, owner)[..k] == [CountEnd];
      RunOne(s, CountEnd, cfg.taintKey);
    }
  }

  /** Of s's workloads exactly the swept ones have been reactivated. */
  ghost predicate SweptSoFar(s: State, t: State, swept: seq<Name>) {
    && t.workloads.Keys == s.workloads.Keys
    && forall v :: v in s.workloads ==>
        t.workloads[v] == if v in swept then Reactivated(s.workloads[v]) else s.workloads[v]
  }

  lemma {:induction false} TeardownSplits(s: State, cfg: Config, l: Listing, node: string, owner: Name, j: nat)
    requires Lists(l, s) && node in s.nodes && j <= |MarkedFor(s, l, OwnerRef(owner))|
    ensures var drop, vs := DropCalls(s, cfg, l, node, owner), MarkedFor(s, l, OwnerRef(owner));
      && |TeardownCalls(s, cfg, l, node, owner)| == |drop| + |vs|
      && TeardownCalls(s, cfg, l, node, owner)[..|drop| + j] == drop + ReactivateAll(vs[..j])
  {
    var drop, vs := DropCalls(s, cfg, l, node, owner), MarkedFor(s, l, OwnerRef(owner));
    DropRuns(s, cfg, l, node, owner);
    UntaintedObjects(s, cfg, l, node, owner);
    SameMarked(s, Janitor.Untainted(s, cfg, l, node, owner), l, OwnerRef(owner));
    assert TeardownCalls(s, cfg, l, node, owner) == drop + ReactivateAll(vs);
    assert ReactivateAll(vs)[..j] == ReactivateAll(vs[..j]);
  }

  /** Stopped in the sweep after j of its victims: the node is untainted and the rest is still marked. */
  lemma {:induction false} CutInSweep(s: State, cfg: Config, l: Listing, node: string, owner: Name, j: nat)
    requires Lists(l, s) && node in s.nodes && j <= |MarkedFor(s, l, OwnerRef(owner))|
    ensures |TeardownCalls(s, cfg, l, node, owner)|
      == |DropCalls(s, cfg, l, node, owner)| + |MarkedFor(s, l, OwnerRef(owner))|
    ensures var t := Run(s, TeardownCalls(s, cfg, l, node, owner)[..|DropCalls(s, cfg, l, node, owner)| + j],
      cfg.taintKey);
      && t.nodes == s.nodes[node := After(s.nodes[node], RemoveOwnedTaint(s.nodes[node], cfg.taintKey, owner))]
      && SweptSoFar(s, t, MarkedFor(s, l, OwnerRef(owner))[..j])
  {
    var key, text, drop := cfg.taintKey, OwnerRef(owner), DropCalls(s, cfg, l, node, owner);
    var mid := Janitor.Untainted(s, cfg, l, node, owner);
    TeardownSplits(s, cfg, l, node, owner, j);
    DropRuns(s, cfg, l, node, owner);
    UntaintedObjects(s, cfg, l, node, owner);
    var vs := MarkedFor(s, l, text);
    RunConcat(s, drop, ReactivateAll(vs[..j]), key);
    forall v | v in vs[..j] ensures v in mid.workloads {
      assert v in vs;
      MarkedForMeaning(s, l, text, v);
    }
    ReactivateEffect(mid, vs[..j], key);
  }

  lemma {:induction false} SameMarked(s: State, t: State, l: Listing, text: string)
    requires t.workloads == s.workloads
    ensures MarkedFor(t, l, text) == MarkedFor(s, l, text)
  {
    FilterSame(l.workloads, (v: Name) => IsMarkedFor(s, text, v), (v: Name) => IsMarkedFor(t, text, v));
  }

  lemma {:induction false} MarksInSweep(s: State, t: State, l: Listing, owner: Name, j: nat, text: string)
    requires Lists(l, s) && j <= |MarkedFor(s, l, OwnerRef(owner))|
    requires SweptSoFar(s, t, MarkedFor(s, l, OwnerRef(owner))[..j])
    ensures SomeMarked(t, text)
      <==> SomeMarked(s, text) && (text == OwnerRef(owner) ==> j < |MarkedFor(s, l, OwnerRef(owner))|)
  {
    var vs := MarkedFor(s, l, OwnerRef(owner));
    forall v ensures v in vs <==> IsMarkedFor(s, OwnerRef(owner), v) {
      MarkedForMeaning(s, l, OwnerRef(owner), v);
    }
    FilterDistinct(l.workloads, (v: Name) => IsMarkedFor(s, OwnerRef(owner), v));
    if SomeMarked(t, text) {
      var v :| IsMarkedFor(t, text, v);
      assert IsMarkedFor(s, text, v);
      assert v in vs ==> v !in vs[..j];
    }
    if SomeMarked(s, text) && text != OwnerRef(owner) {
      var v :| IsMarkedFor(s, text, v);
      assert v !in vs && IsMarkedFor(t, text, v);
    }
    if j < |vs| {
      assert vs[j] in vs && vs[j] !in vs[..j];
      assert IsMarkedFor(t, OwnerRef(owner), vs[j]);
    }
  }

  /** Where a teardown must not stop: the drain's last node is untainted and the sweep is not through. */
  ghost predicate LeaksAt(s: State, cfg: Config, l: Listing, node: string, owner: Name, k: nat)
    requires Lists(l, s)
  {
    && IsLastNode(s, cfg, l, node, owner)
    && |DropCalls(s, cfg, l, node, owner)| <= k < |TeardownCalls(s, cfg, l, node, owner)|
  }

  /**
   The janitor untaints before it sweeps. Stopped after any number of its calls, a teardown leaves a marker
   without a drain exactly when it untainted the drain's last node and has victims left to sweep.
   */
  lemma {:induction false} TeardownCutLeaks(s: State, cfg: Config, l: Listing, node: string, owner: Name, k: nat)
    requires WellFormed(s) && Lists(l, s) && Backed(s, cfg.taintKey) && node in OwnedBy(s, cfg.taintKey, owner)
    requires k <= |TeardownCalls(s, cfg, l, node, owner)|
    ensures Backed(Run(s, TeardownCalls(s, cfg, l, node, owner)[..k], cfg.taintKey), cfg.taintKey)
      <==> !LeaksAt(s, cfg, l, node, owner, k)
  {
    var d := |DropCalls(s, cfg, l, node, owner)|;
    if k < d {
      CutBeforeDrop(s, cfg, l, node, owner, k);
      SameBacked(s, Run(s, TeardownCalls(s, cfg, l, node, owner)[..k], cfg.taintKey), cfg.taintKey);
    } else {
      CutInSweep(s, cfg, l, node, owner, 0);
      CutInSweep(s, cfg, l, node, owner, k - d);
      SweepCutBacked(s, Run(s, TeardownCalls(s, cfg, l, node, owner)[..d + (k - d)], cfg.taintKey), cfg, l, node,
        owner, k - d);
    }
  }

  lemma {:induction false} SameBacked(s: State, t: State, key: string)
    requires t.nodes == s.nodes && t.workloads == s.workloads
    ensures Backed(t, key) <==> Backed(s, key)
  {
    forall text ensures SomeMarked(t, text) <==> SomeMarked(s, text) {
      assert forall v :: IsMarkedFor(t, text, v) <==> IsMarkedFor(s, text, v);
    }
  }

  lemma {:induction false} SweepCutBacked(s: State, t: State, cfg: Config, l: Listing, node: string, owner: Name,
      j: nat)
    requires WellFormed(s) && Lists(l, s) && Backed(s, cfg.taintKey) && node in OwnedBy(s, cfg.taintKey, owner)
    requires j <= |MarkedFor(s, l, OwnerRef(owner))| && SweptSoFar(s, t, MarkedFor(s, l, OwnerRef(owner))[..j])
    requires t.nodes == s.nodes[node := After(s.nodes[node], RemoveOwnedTaint(s.nodes[node], cfg.taintKey, owner))]
    ensures Backed(t, cfg.taintKey)
      <==> !(IsLastNode(s, cfg, l, node, owner) && j < |MarkedFor(s, l, OwnerRef(owner))|)
  {
    LastMeansOnly(s, cfg, l, node, owner);
    ParsedOwnerIsText(s.nodes[node].owner.value, owner);
    forall text
      ensures SomeMarked(t, text)
        <==> SomeMarked(s, text) && (text == OwnerRef(owner) ==> j < |MarkedFor(s, l, OwnerRef(owner))|)
      ensures Holds(t, cfg.taintKey, text)
        <==> Holds(s, cfg.taintKey, text) && !(text == OwnerRef(owner) && OwnedBy(s, cfg.taintKey, owner) == {node})
    {
      MarksInSweep(s, t, l, owner, j, text);
      HoldsAfterDrop(s, t, cfg.taintKey, node, owner, text);
    }
    if j < |MarkedFor(s, l, OwnerRef(owner))| {
      MarkedForMeaning(s, l, OwnerRef(owner), MarkedFor(s, l, OwnerRef(owner))[j]);
      assert SomeMarked(s, OwnerRef(owner));
    }
  }

  /** A visit stopped after k calls stops in a teardown where it must not. */
  ghost predicate VisitLeaks(s: State, cfg: Config, l: Listing, node: string, k: nat)
    requires Lists(l, s)
  {
    && node in s.nodes && Ladder(s.nodes[node], cfg, s.workloads, s.pods, s.now).Tear?
    && LeaksAt(s, cfg, l, node, Ladder(s.nodes[node], cfg, s.workloads, s.pods, s.now).owner, k)
  }

  /** A janitor visit cut anywhere keeps every marker backed, except exactly at the leaking cuts. */
  lemma {:induction false} VisitCutBacked(s: State, cfg: Config, l: Listing, node: string, k: nat)
    requires WellFormed(s) && Lists(l, s) && Backed(s, cfg.taintKey) && k <= |VisitCalls(s, cfg, l, node)|
    ensures Backed(Run(s, VisitCalls(s, cfg, l, node)[..k], cfg.taintKey), cfg.taintKey)
      <==> !VisitLeaks(s, cfg, l, node, k)
  {
    var calls := VisitCalls(s, cfg, l, node);
    VisitCases(s, cfg, l, node);
    if node in s.nodes && Ladder(s.nodes[node], cfg, s.workloads, s.pods, s.now).Tear? {
      var owner := Ladder(s.nodes[node], cfg, s.workloads, s.pods, s.now).owner;
      TornIsOwned(s, cfg, node);
      TornCutBacked(s, cfg, l, node, owner, calls, k);
    } else {
      RestartCutBacked(s, cfg.taintKey, node, calls, k);
    }
  }

  lemma {:induction false} TornCutBacked(s: State, cfg: Config, l: Listing, node: string, owner: Name, calls: seq<Call>,
      k: nat)
    requires WellFormed(s) && Lists(l, s) && Backed(s, cfg.taintKey) && node in OwnedBy(s, cfg.taintKey, owner)
    requires calls == TeardownCalls(s, cfg, l, node, owner) && k <= |calls|
    ensures Backed(Run(s, calls[..k], cfg.taintKey), cfg.taintKey) <==> !LeaksAt(s, cfg, l, node, owner, k)
  {
    TeardownCutLeaks(s, cfg, l, node, owner, k);
  }

  lemma {:induction false} RestartCutBacked(s: State, key: string, node: string, calls: seq<Call>, k: nat)
    requires Backed(s, key) && (calls == [] || calls == [StampClock(node)]) && k <= |calls|
    ensures Backed(Run(s, calls[..k], key), key)
  {
    RestartBacked(s, key, node);
    assert calls[..k] == [] || calls[..k] == [StampClock(node)];
    RunOne(s, StampClock(node), key);
    assert Run(s, [], key) == s;
  }

  lemma {:induction false} RestartBacked(s: State, key: string, node: string)
    requires Backed(s, key)
    ensures Backed(Apply(s, StampClock(node), key), key)
  {
    var t := Apply(s, StampClock(node), key);
    forall text | SomeMarked(t, text) ensures Holds(t, key, text) {
      MarksFrom(s, StampClock(node), key, text);
      assert Holds(s, key, text);
      if node in s.nodes {
        HeldElsewhere(s, t, key, node, text);
      }
    }
  }

  /** A whole visit never leaks. */
  lemma {:induction false} WholeVisitBacked(s: State, cfg: Config, l: Listing, node: string)
    requires WellFormed(s) && Lists(l, s) && Backed(s, cfg.taintKey)
    ensures Backed(Run(s, VisitCalls(s, cfg, l, node), cfg.taintKey), cfg.taintKey)
  {
    var calls := VisitCalls(s, cfg, l, node);
    VisitCases(s, cfg, l, node);
    VisitCutBacked(s, cfg, l, node, |calls|);
    assert calls[..|calls|] == calls;
  }

  /**
   Honesty is needed: beside our own annotation a taint of the key under another effect counts as already
   ours, so a drain of that node alone would mark victims with no drain on record.
   */
  lemma {:induction false} DishonestNodeLeaks(s: State, key: string, hero: Name, queue: string, node: string, v: Name)
    requires node in s.nodes && v in s.workloads && |queue| <= MAX_TAINT_VALUE && !Holds(s, key, OwnerRef(hero))
    requires HasKey(s.nodes[node].taints, key) && !HasDrainTaint(s.nodes[node].taints, key)
    requires s.nodes[node].owner == Some(OwnerRef(hero))
    ensures !HonestNode(s.nodes[node], key)
    ensures Completes(s, [PutTaint(node, hero, queue), Suspend(v, hero)], key)
    ensures !Backed(Run(s, [PutTaint(node, hero, queue), Suspend(v, hero)], key), key)
  {
    var c := PutTaint(node, hero, queue);
    assert Apply(s, c, key).nodes == s.nodes;
    RunOne(s, c, key);
    RunSnoc(s, [c], Suspend(v, hero), key);
    assert [c] + [Suspend(v, hero)] == [c, Suspend(v, hero)];
    var t := Run(s, [c, Suspend(v, hero)], key);
    assert IsMarkedFor(t, OwnerRef(hero), v);
    assert SomeMarked(t, OwnerRef(hero)) && t.nodes == s.nodes;
  }

  // ---- all runs ----

  /** Others may do anything but write markers, or take away or reassign an attributable drain taint. */
  ghost predicate LeavesDrainsAlone(s: State, t: State, key: string) {
    && Honest(t, key)
    && (forall n :: n in s.nodes && Owner(s.nodes[n], key).Some? ==>
          n in t.nodes && Owner(t.nodes[n], key) == Owner(s.nodes[n], key))
    && (forall text :: SomeMarked(t, text) ==> SomeMarked(s, text))
  }

  /** Reconciles and visits may stop after any call, visits not at a leaking cut. */
  ghost predicate MarkRun(s: State, es: seq<Event>, cfg: Config)
    requires ValidConfig(cfg)
    decreases |es|
  {
    es == [] || (
      && Legal(s, es[0], cfg)
      && (es[0].Visit? ==> !VisitLeaks(s, cfg, es[0].listing, es[0].node, es[0].calls))
      && (es[0].Outside? ==> LeavesDrainsAlone(s, es[0].after, cfg.taintKey))
      && MarkRun(Step(s, es[0], cfg), es[1..], cfg))
  }

  ghost function Final(s: State, es: seq<Event>, cfg: Config): State
    requires ValidConfig(cfg) && MarkRun(s, es, cfg)
    decreases |es|
  {
    if es == [] then s else Final(Step(s, es[0], cfg), es[1..], cfg)
  }

  lemma {:induction false} StepBacked(s: State, e: Event, cfg: Config)
    requires ValidConfig(cfg) && WellFormed(s) && Backed(s, cfg.taintKey) && Honest(s, cfg.taintKey) && Legal(s, e, cfg)
    requires e.Visit? ==> !VisitLeaks(s, cfg, e.listing, e.node, e.calls)
    requires e.Outside? ==> LeavesDrainsAlone(s, e.after, cfg.taintKey)
    ensures Backed(Step(s, e, cfg), cfg.taintKey) && Honest(Step(s, e, cfg), cfg.taintKey)
  {
    match e {
      case Reconcile(l, look, key, k) =>
        ReconcileSafe(s, cfg, l, look, key);
        SafeRunKeepsBacked(s, CallsOf(s, e, cfg), k, cfg.taintKey);
      case Visit(l, node, k) =>
        VisitCutBacked(s, cfg, l, node, k);
        HonestRun(s, CallsOf(s, e, cfg)[..k], cfg.taintKey);
      case Outside(t) =>
        forall text | SomeMarked(t, text) ensures Holds(t, cfg.taintKey, text) {
          assert Holds(s, cfg.taintKey, text);
          var n :| n in s.nodes && Owner(s.nodes[n], cfg.taintKey).Some?
            && OwnerRef(Owner(s.nodes[n], cfg.taintKey).value) == text;
          assert n in t.nodes;
        }
    }
  }

  /** Over all runs, reconciles and visits cut short: every marked victim's drain still holds a node. */
  lemma {:induction false} NoMarkOutlivesItsDrain(s: State, es: seq<Event>, cfg: Config)
    requires ValidConfig(cfg) && WellFormed(s) && Backed(s, cfg.taintKey) && Honest(s, cfg.taintKey)
    requires MarkRun(s, es, cfg)
    ensures Backed(Final(s, es, cfg), cfg.taintKey)
    decreases |es|
  {
    if es == [] {
    } else {
      StepBacked(s, es[0], cfg);
      StepWellFormed(s, es[0], cfg);
      NoMarkOutlivesItsDrain(Step(s, es[0], cfg), es[1..], cfg);
    }
  }
}
