/**
 The cluster as both controllers see it: objects on an API server, and the few calls that change them.
 Every call is a fresh read and a write; a reconcile is a sequence of calls that stops at the first error.
 */
module Clusters {
  import opened Base
  import opened Kube
  import opened Taints

  const MAX_TAINT_VALUE := 63

  datatype State = State(
    nodes: map<string, Node>,
    workloads: map<Name, Workload>,
    pods: seq<Pod>,
    now: int,
    started: nat,
    ended: nat,
    suspended: nat,
    reactivated: nat)

  datatype Call =
    | PutTaint(node: string, hero: Name, queue: string)
    | DropTaint(node: string, hero: Name)
    | StampClock(node: string)
    | StampNudge(node: string)
    | Suspend(victim: Name, hero: Name)
    | Reactivate(victim: Name)
    | CountStart
    | CountEnd

  predicate Fails(s: State, c: Call, key: string) {
    match c
    case PutTaint(node, hero, queue) =>
      || |queue| > MAX_TAINT_VALUE || node !in s.nodes
      || EnsureTaint(s.nodes[node], key, hero, queue, s.now).Refused?
    case Suspend(victim, _) => victim !in s.workloads
    case Reactivate(victim) => victim !in s.workloads
    case StampNudge(node) => node !in s.nodes
    case _ => false
  }

  function PutNode(s: State, name: string, node: Node): State {
    s.(nodes := s.nodes[name := node])
  }

  function PutWorkload(s: State, name: Name, w: Workload): State {
    s.(workloads := s.workloads[name := w])
  }

  function Suspended(w: Workload, hero: Name): Workload {
    w.(active := Some(false), deactivatedFor := Some(OwnerRef(hero)))
  }

  function Reactivated(w: Workload): Workload {
    w.(active := Some(true), deactivatedFor := None)
  }

  /** The cluster after a call; a call on an object that is gone changes nothing. */
  function Apply(s: State, c: Call, key: string): State {
    match c
    case PutTaint(n, hero, queue) =>
      if n !in s.nodes then s
      else PutNode(s, n, After(s.nodes[n], EnsureTaint(s.nodes[n], key, hero, queue, s.now)))
    case DropTaint(n, hero) =>
      if n !in s.nodes then s
      else PutNode(s, n, After(s.nodes[n], RemoveOwnedTaint(s.nodes[n], key, hero)))
    case StampClock(n) =>
      if n !in s.nodes then s else PutNode(s, n, s.nodes[n].(startedAt := Some(At(s.now))))
    case StampNudge(n) =>
      if n !in s.nodes then s else PutNode(s, n, s.nodes[n].(nudge := Some(At(s.now))))
    case Suspend(v, hero) =>
      if v !in s.workloads then s
      else PutWorkload(s, v, Suspended(s.workloads[v], hero)).(suspended := s.suspended + 1)
    case Reactivate(v) =>
      if v !in s.workloads then s
      else PutWorkload(s, v, Reactivated(s.workloads[v])).(reactivated := s.reactivated + 1)
    case CountStart => s.(started := s.started + 1)
    case CountEnd => s.(ended := s.ended + 1)
  }

  /** Calls in order, up to the first that fails. */
  function Run(s: State, calls: seq<Call>, key: string): State
    decreases |calls|
  {
    if calls == [] || Fails(s, calls[0], key) then s
    else Run(Apply(s, calls[0], key), calls[1..], key)
  }

  predicate Completes(s: State, calls: seq<Call>, key: string)
    decreases |calls|
  {
    calls == [] || (!Fails(s, calls[0], key) && Completes(Apply(s, calls[0], key), calls[1..], key))
  }

  lemma {:induction false} RunConcat(s: State, a: seq<Call>, b: seq<Call>, key: string)
    ensures Run(s, a + b, key) == if Completes(s, a, key) then Run(Run(s, a, key), b, key) else Run(s, a, key)
    ensures Completes(s, a + b, key) <==> Completes(s, a, key) && Completes(Run(s, a, key), b, key)
    decreases |a|
  {
    if a == [] {
      assert a + b == b;
    } else {
      assert (a + b)[1..] == a[1..] + b;
      if !Fails(s, a[0], key) {
        RunConcat(Apply(s, a[0], key), a[1..], b, key);
      }
    }
  }

  lemma {:induction false} RunOne(s: State, c: Call, key: string)
    ensures Run(s, [c], key) == if Fails(s, c, key) then s else Apply(s, c, key)
    ensures Completes(s, [c], key) <==> !Fails(s, c, key)
  {
    assert [c][1..] == [];
    assert Run(Apply(s, c, key), [], key) == Apply(s, c, key);
  }

  /** Running a prefix of the prefix that completed: a crash after k calls. */
  lemma {:induction false} RunSnoc(s: State, calls: seq<Call>, c: Call, key: string)
    requires Completes(s, calls, key)
    ensures Run(s, calls + [c], key) == if Fails(Run(s, calls, key), c, key) then Run(s, calls, key)
      else Apply(Run(s, calls, key), c, key)
    ensures Completes(s, calls + [c], key) <==> !Fails(Run(s, calls, key), c, key)
  {
    RunConcat(s, calls, [c], key);
    RunOne(Run(s, calls, key), c, key);
  }

  // ---- well-formed clusters and listings ----

  ghost predicate WellFormed(s: State) {
    && (forall n :: n in s.nodes ==> s.nodes[n].name == n)
    && (forall v :: v in s.workloads ==> s.workloads[v].key == v && ValidName(v))
  }

  /** The order in which lists return the objects; informer caches promise none. */
  datatype Listing = Listing(nodes: seq<string>, workloads: seq<Name>)

  ghost predicate NoRepeats<T(!new)>(xs: seq<T>) {
    forall i, j :: 0 <= i < j < |xs| ==> xs[i] != xs[j]
  }

  lemma {:induction false} NoRepeatsSnoc<T(!new)>(xs: seq<T>, x: T)
    requires NoRepeats(xs) && x !in xs
    ensures NoRepeats(xs + [x])
  {
    forall i, j | 0 <= i < j < |xs + [x]| ensures (xs + [x])[i] != (xs + [x])[j] {
      assert (xs + [x])[i] == xs[i] && xs[i] in xs;
    }
  }

  ghost predicate Lists(l: Listing, s: State) {
    && NoRepeats(l.nodes) && (forall n :: n in l.nodes <==> n in s.nodes)
    && NoRepeats(l.workloads) && (forall v :: v in l.workloads <==> v in s.workloads)
  }

  /** No call creates or deletes an object, renames one, or moves time. */
  ghost predicate SameObjects(s: State, t: State) {
    && t.nodes.Keys == s.nodes.Keys && t.workloads.Keys == s.workloads.Keys
    && t.pods == s.pods && t.now == s.now
    && (forall n :: n in s.nodes ==> t.nodes[n].name == s.nodes[n].name)
    && (forall v :: v in s.workloads ==> t.workloads[v].key == s.workloads[v].key)
  }

  lemma {:induction false} ApplySameObjects(s: State, c: Call, key: string)
    ensures SameObjects(s, Apply(s, c, key))
  {
  }

  lemma {:induction false} RunSameObjects(s: State, calls: seq<Call>, key: string)
    ensures SameObjects(s, Run(s, calls, key))
    decreases |calls|
  {
    if calls != [] && !Fails(s, calls[0], key) {
      ApplySameObjects(s, calls[0], key);
      RunSameObjects(Apply(s, calls[0], key), calls[1..], key);
    }
  }

  function NodeSeq(s: State, names: seq<string>): (r: seq<Node>)
    requires forall n :: n in names ==> n in s.nodes
    ensures |r| == |names| && forall i :: 0 <= i < |names| ==> r[i] == s.nodes[names[i]]
  {
    seq(|names|, i requires 0 <= i < |names| => assert names[i] in names; s.nodes[names[i]])
  }

  function WorkloadSeq(s: State, names: seq<Name>): (r: seq<Workload>)
    requires forall v :: v in names ==> v in s.workloads
    ensures |r| == |names| && forall i :: 0 <= i < |names| ==> r[i] == s.workloads[names[i]]
  {
    seq(|names|, i requires 0 <= i < |names| => assert names[i] in names; s.workloads[names[i]])
  }

  // ---- who holds what ----

  function OwnedBy(s: State, key: string, h: Name): set<string> {
    set n | n in s.nodes && Owner(s.nodes[n], key) == Some(h)
  }

  function DrainOwners(s: State, key: string): set<Name> {
    set n | n in s.nodes && Owner(s.nodes[n], key).Some? :: Owner(s.nodes[n], key).value
  }

  function DrainsIn(s: State, key: string, l: Listing): map<Name, Drain>
    requires forall n :: n in l.nodes ==> n in s.nodes
  {
    FindDrainsSpec(NodeSeq(s, l.nodes), key)
  }

  lemma {:induction false} NodesOfDistinct(ns: seq<Node>, key: string, h: Name)
    requires forall i, j :: 0 <= i < j < |ns| ==> ns[i].name != ns[j].name
    ensures NoRepeats(NodesOf(ns, key, h))
  {
    if ns == [] {
    } else {
      var init := ns[..|ns| - 1];
      NodesOfDistinct(init, key, h);
      forall name | name in NodesOf(init, key, h) ensures name != ns[|ns| - 1].name {
        NodesOfMember(init, key, h, name);
        var n :| n in init && n.name == name;
      }
      if ns[|ns| - 1].name !in NodesOf(init, key, h) {
        NoRepeatsSnoc(NodesOf(init, key, h), ns[|ns| - 1].name);
      }
    }
  }

  /** The drains read back from a node list are the owners and their nodes, whatever the list's order. */
  lemma {:induction false} DrainsInMeaning(s: State, key: string, l: Listing, h: Name)
    requires WellFormed(s) && Lists(l, s)
    ensures DrainsIn(s, key, l).Keys == DrainOwners(s, key)
    ensures h in DrainOwners(s, key) <==> OwnedBy(s, key, h) != {}
    ensures h in DrainsIn(s, key, l) ==>
      && DrainsIn(s, key, l)[h].owner == h
      && NoRepeats(DrainsIn(s, key, l)[h].nodes)
      && forall n :: n in DrainsIn(s, key, l)[h].nodes <==> n in OwnedBy(s, key, h)
  {
    var ns := NodeSeq(s, l.nodes);
    forall o ensures o in Owners(ns, key) <==> o in DrainOwners(s, key) {
      if o in Owners(ns, key) {
        var i :| 0 <= i < |ns| && Owner(ns[i], key) == Some(o);
        assert l.nodes[i] in s.nodes;
      }
      if o in DrainOwners(s, key) {
        var n :| n in s.nodes && Owner(s.nodes[n], key) == Some(o);
        assert n in l.nodes;
        var i :| 0 <= i < |l.nodes| && l.nodes[i] == n;
        assert ns[i] in ns;
      }
    }
    if h in DrainOwners(s, key) {
      var n :| n in s.nodes && Owner(s.nodes[n], key) == Some(h);
      assert n in OwnedBy(s, key, h);
    }
    if h in DrainsIn(s, key, l) {
      OwnedNodes(s, key, l, h);
    }
  }

  lemma {:induction false} OwnedNodes(s: State, key: string, l: Listing, h: Name)
    requires WellFormed(s) && Lists(l, s)
    ensures NoRepeats(NodesOf(NodeSeq(s, l.nodes), key, h))
    ensures forall n :: n in NodesOf(NodeSeq(s, l.nodes), key, h) <==> n in OwnedBy(s, key, h)
  {
    var ns := NodeSeq(s, l.nodes);
    forall i | 0 <= i < |ns| ensures ns[i].name == l.nodes[i] && l.nodes[i] in s.nodes {
      assert l.nodes[i] in l.nodes;
    }
    NodesOfDistinct(ns, key, h);
    forall n ensures n in NodesOf(ns, key, h) <==> n in OwnedBy(s, key, h) {
      NodesOfMember(ns, key, h, n);
      if n in OwnedBy(s, key, h) {
        var i :| 0 <= i < |l.nodes| && l.nodes[i] == n;
        assert ns[i] in ns;
      }
    }
  }

  /** A drain always has a nameable owner: taints that cannot be attributed are nobody's drain. */
  lemma {:induction false} NoDrainOfNobody(s: State, key: string)
    ensures Name("", "") !in DrainOwners(s, key)
    ensures forall h :: h in DrainOwners(s, key) ==> ValidName(h)
  {
    forall h | h in DrainOwners(s, key) ensures ValidName(h) {
      var n :| n in s.nodes && Owner(s.nodes[n], key) == Some(h);
      ParsedOwnerIsText(s.nodes[n].owner.value, h);
    }
  }

  predicate IsMarkedFor(s: State, text: string, v: Name) {
    v in s.workloads && s.workloads[v].deactivatedFor == Some(text)
  }

  /** The workloads the deactivated-for index returns for one drain. */
  function MarkedFor(s: State, l: Listing, text: string): seq<Name> {
    Filter(l.workloads, (v: Name) => IsMarkedFor(s, text, v))
  }

  // ---- runs of one kind of call ----

  function SuspendAll(vs: seq<Name>, hero: Name): seq<Call> {
    Map(vs, (v: Name) => Suspend(v, hero))
  }

  function ReactivateAll(vs: seq<Name>): seq<Call> {
    Map(vs, (v: Name) => Reactivate(v))
  }

  function DropAll(names: seq<string>, hero: Name): seq<Call> {
    Map(names, (n: string) => DropTaint(n, hero))
  }

  function TaintAllCalls(names: seq<string>, hero: Name, queue: string): seq<Call> {
    Map(names, (n: string) => PutTaint(n, hero, queue))
  }

  /** victims.SweepFor: every workload the drain suspended, evicted or not. */
  function SweepCalls(s: State, l: Listing, text: string): seq<Call> {
    ReactivateAll(MarkedFor(s, l, text))
  }

  lemma {:induction false} SuspendEffect(s: State, vs: seq<Name>, hero: Name, key: string)
    requires forall v :: v in vs ==> v in s.workloads
    ensures Completes(s, SuspendAll(vs, hero), key)
    ensures var t := Run(s, SuspendAll(vs, hero), key);
      && t == s.(workloads := t.workloads, suspended := s.suspended + |vs|)
      && t.workloads.Keys == s.workloads.Keys
      && forall v :: v in s.workloads ==>
        t.workloads[v] == if v in vs then Suspended(s.workloads[v], hero) else s.workloads[v]
    decreases |vs|
  {
    if vs == [] {
    } else {
      assert vs[0] in vs && forall v :: v in vs[1..] ==> v in vs;
      assert SuspendAll(vs, hero)[1..] == SuspendAll(vs[1..], hero);
      var next := Apply(s, Suspend(vs[0], hero), key);
      SuspendEffect(next, vs[1..], hero, key);
      var t := Run(next, SuspendAll(vs[1..], hero), key);
      assert t == Run(s, SuspendAll(vs, hero), key);
      forall v | v in s.workloads
        ensures t.workloads[v] == if v in vs then Suspended(s.workloads[v], hero) else s.workloads[v]
      {
        assert v in vs <==> v == vs[0] || v in vs[1..];
      }
    }
  }

  lemma {:induction false} ReactivateEffect(s: State, vs: seq<Name>, key: string)
    requires forall v :: v in vs ==> v in s.workloads
    ensures Completes(s, ReactivateAll(vs), key)
    ensures var t := Run(s, ReactivateAll(vs), key);
      && t == s.(workloads := t.workloads, reactivated := s.reactivated + |vs|)
      && t.workloads.Keys == s.workloads.Keys
      && forall v :: v in s.workloads ==>
        t.workloads[v] == if v in vs then Reactivated(s.workloads[v]) else s.workloads[v]
    decreases |vs|
  {
    if vs == [] {
    } else {
      assert vs[0] in vs && forall v :: v in vs[1..] ==> v in vs;
      assert ReactivateAll(vs)[1..] == ReactivateAll(vs[1..]);
      var next := Apply(s, Reactivate(vs[0]), key);
      ReactivateEffect(next, vs[1..], key);
      var t := Run(next, ReactivateAll(vs[1..]), key);
      assert t == Run(s, ReactivateAll(vs), key);
      forall v | v in s.workloads
        ensures t.workloads[v] == if v in vs then Reactivated(s.workloads[v]) else s.workloads[v]
      {
        assert v in vs <==> v == vs[0] || v in vs[1..];
      }
    }
  }

  lemma {:induction false} DropEffect(s: State, names: seq<string>, hero: Name, key: string)
    ensures Completes(s, DropAll(names, hero), key)
    ensures var t := Run(s, DropAll(names, hero), key);
      && t == s.(nodes := t.nodes) && t.nodes.Keys == s.nodes.Keys
      && forall n :: n in s.nodes ==>
        t.nodes[n] == if n in names then After(s.nodes[n], RemoveOwnedTaint(s.nodes[n], key, hero)) else s.nodes[n]
    decreases |names|
  {
    if names == [] {
    } else {
      assert DropAll(names, hero)[1..] == DropAll(names[1..], hero);
      DropEffect(Apply(s, DropTaint(names[0], hero), key), names[1..], hero, key);
      assert forall n :: n in names <==> n == names[0] || n in names[1..];
    }
  }

  lemma {:induction false} MarkedForMeaning(s: State, l: Listing, text: string, v: Name)
    requires Lists(l, s)
    ensures v in MarkedFor(s, l, text) <==> IsMarkedFor(s, text, v)
  {
    FilterMember(l.workloads, (x: Name) => IsMarkedFor(s, text, x), v);
  }

  /** A sweep completes and leaves no marker of that drain; every other workload is untouched. */
  lemma {:induction false} SweepEffect(s: State, l: Listing, text: string, key: string)
    requires Lists(l, s)
    ensures Completes(s, SweepCalls(s, l, text), key)
    ensures var t := Run(s, SweepCalls(s, l, text), key);
      && t == s.(workloads := t.workloads, reactivated := s.reactivated + |MarkedFor(s, l, text)|)
      && t.workloads.Keys == s.workloads.Keys
      && forall v :: v in s.workloads ==>
          t.workloads[v] == if IsMarkedFor(s, text, v) then Reactivated(s.workloads[v]) else s.workloads[v]
  {
    var vs := MarkedFor(s, l, text);
    forall v ensures v in vs <==> IsMarkedFor(s, text, v) {
      MarkedForMeaning(s, l, text, v);
    }
    ReactivateEffect(s, vs, key);
  }

  // ---- the API server ----

  class ApiServer {
    const taintKey: string
    var nodes: map<string, Node>
    var workloads: map<Name, Workload>
    var pods: seq<Pod>
    var now: int
    var started: nat
    var ended: nat
    var suspended: nat
    var reactivated: nat

    constructor (taintKey: string, s: State)
      ensures View() == s && this.taintKey == taintKey
    {
      this.taintKey := taintKey;
      nodes, workloads, pods, now := s.nodes, s.workloads, s.pods, s.now;
      started, ended, suspended, reactivated := s.started, s.ended, s.suspended, s.reactivated;
    }

    function View(): State
      reads this
    {
      State(nodes, workloads, pods, now, started, ended, suspended, reactivated)
    }

    method List() returns (l: Listing)
      ensures Lists(l, View())
    {
      var ns := ListKeys(nodes.Keys);
      var vs := ListKeys(workloads.Keys);
      l := Listing(ns, vs);
    }

    method ListNodes(l: Listing) returns (list: seq<Node>)
      requires Lists(l, View())
      ensures list == NodeSeq(View(), l.nodes)
    {
      list := [];
      for i := 0 to |l.nodes|
        invariant |list| == i && forall j :: 0 <= j < i ==> list[j] == nodes[l.nodes[j]]
      {
        assert l.nodes[i] in l.nodes;
        list := list + [nodes[l.nodes[i]]];
      }
    }

    method DrainsInFlight(l: Listing) returns (drains: map<Name, Drain>)
      requires Lists(l, View())
      ensures drains == DrainsIn(View(), taintKey, l)
    {
      var list := ListNodes(l);
      drains := FindDrains(list, taintKey);
    }

    /** EnsureTaint: refuses an over-long ClusterQueue name before it reads the node. */
    method EnsureTaint(node: string, hero: Name, queue: string) returns (ok: bool)
      modifies this
      ensures View() == Run(old(View()), [PutTaint(node, hero, queue)], taintKey)
      ensures ok == Completes(old(View()), [PutTaint(node, hero, queue)], taintKey)
    {
      RunOne(View(), PutTaint(node, hero, queue), taintKey);
      if |queue| > MAX_TAINT_VALUE || node !in nodes {
        return false;
      }
      var a := TryEnsureTaint(nodes[node], taintKey, hero, queue, now);
      match a {
        case Unchanged =>
          assert nodes[node := nodes[node]] == nodes;
        case Refused =>
          return false;
        case Write(tainted) =>
          nodes := nodes[node := tainted];
      }
      ok := true;
    }

    method RemoveOwnedTaint(node: string, hero: Name)
      modifies this
      ensures View() == Apply(old(View()), DropTaint(node, hero), taintKey)
    {
      if node !in nodes {
        return;
      }
      var a := TryRemoveOwnedTaint(nodes[node], taintKey, hero);
      if a.Write? {
        nodes := nodes[node := a.node];
      } else {
        assert nodes[node := nodes[node]] == nodes;
      }
    }

    method RestartClock(node: string)
      modifies this
      ensures View() == Apply(old(View()), StampClock(node), taintKey)
    {
      if node !in nodes {
        return;
      }
      nodes := nodes[node := nodes[node].(startedAt := Some(At(now)))];
    }

    method DeactivateVictim(victim: Name, hero: Name)
      requires victim in workloads
      modifies this
      ensures View() == Apply(old(View()), Suspend(victim, hero), taintKey)
    {
      var w := workloads[victim].(active := Some(false), deactivatedFor := Some(OwnerRef(hero)));
      workloads := workloads[victim := w];
      suspended := suspended + 1;
    }

    /** Active again and the marker gone, in one patch. */
    method Reactivate(victim: Name)
      requires victim in workloads
      modifies this
      ensures View() == Apply(old(View()), Call.Reactivate(victim), taintKey)
    {
      var w := workloads[victim].(active := Some(true), deactivatedFor := None);
      workloads := workloads[victim := w];
      reactivated := reactivated + 1;
    }

    method ListMarked(l: Listing, text: string) returns (ours: seq<Name>)
      ensures ours == MarkedFor(View(), l, text)
    {
      ours := [];
      ghost var s := View();
      for i := 0 to |l.workloads|
        invariant ours == Filter(l.workloads[..i], (v: Name) => IsMarkedFor(s, text, v))
      {
        assert l.workloads[..i + 1][..i] == l.workloads[..i];
        var v := l.workloads[i];
        if v in workloads && workloads[v].deactivatedFor == Some(text) {
          ours := ours + [v];
        }
      }
      assert l.workloads[..|l.workloads|] == l.workloads;
    }

    method SweepFor(l: Listing, owner: Name) returns (swept: nat)
      requires Lists(l, View())
      modifies this
      ensures View() == Run(old(View()), SweepCalls(old(View()), l, OwnerRef(owner)), taintKey)
      ensures swept == View().reactivated - old(View()).reactivated
    {
      var ours := ListMarked(l, OwnerRef(owner));
      ghost var s := View();
      forall v | v in ours ensures v in s.workloads {
        MarkedForMeaning(s, l, OwnerRef(owner), v);
      }
      swept := 0;
      for i := 0 to |ours|
        invariant View() == Run(s, ReactivateAll(ours[..i]), taintKey)
        invariant View().workloads.Keys == s.workloads.Keys
        invariant swept == i && View().reactivated == s.reactivated + i
      {
        assert forall v :: v in ours[..i] ==> v in ours;
        ReactivateEffect(s, ours[..i], taintKey);
        RunSnoc(s, ReactivateAll(ours[..i]), Call.Reactivate(ours[i]), taintKey);
        assert ReactivateAll(ours[..i + 1]) == ReactivateAll(ours[..i]) + [Call.Reactivate(ours[i])];
        Reactivate(ours[i]);
        swept := swept + 1;
      }
      assert ours[..|ours|] == ours;
    }

    method CountDrainStarted()
      modifies this
      ensures View() == Apply(old(View()), CountStart, taintKey)
    {
      started := started + 1;
    }

    method CountDrainCompleted()
      modifies this
      ensures View() == Apply(old(View()), CountEnd, taintKey)
    {
      ended := ended + 1;
    }
  }

  method ListKeys<T(==, !new)>(keys: set<T>) returns (xs: seq<T>)
    ensures NoRepeats(xs) && forall x :: x in xs <==> x in keys
  {
    xs := [];
    var todo := keys;
    while todo != {}
      invariant todo <= keys && NoRepeats(xs)
      invariant forall x :: x in xs <==> x in keys - todo
      decreases |todo|
    {
      var x :| x in todo;
      NoRepeatsSnoc(xs, x);
      xs := xs + [x];
      todo := todo - {x};
    }
  }
}
