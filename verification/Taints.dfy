/** pkg/taint: the drain taint and its ownership annotations are the controller's persistent state. */
module Taints {
  import opened Base
  import opened Kube

  // ---- owner annotation text ----

  /** strings.Cut(s, "/") */
  function Cut(s: string): Option<(string, string)> {
    if s == "" then None
    else if s[0] == '/' then Some(("", s[1..]))
    else
      var rest := Cut(s[1..]);
      if rest.None? then None else Some(([s[0]] + rest.value.0, rest.value.1))
  }

  function OwnerRef(h: Name): string {
    h.ns + "/" + h.name
  }

  function ParseOwner(s: string): Option<Name> {
    var c := Cut(s);
    if c.None? || c.value.0 == "" || c.value.1 == "" then None
    else Some(Name(c.value.0, c.value.1))
  }

  predicate ValidName(h: Name) {
    h.ns != "" && h.name != "" && '/' !in h.ns
  }

  lemma {:induction false} CutJoins(s: string)
    ensures Cut(s).Some? ==> '/' !in Cut(s).value.0 && s == Cut(s).value.0 + "/" + Cut(s).value.1
  {
    if s != "" {
      assert s == [s[0]] + s[1..];
      if s[0] != '/' {
        CutJoins(s[1..]);
      }
    }
  }

  lemma {:induction false} CutOfJoin(a: string, b: string)
    requires '/' !in a
    ensures Cut(a + "/" + b) == Some((a, b))
  {
    var s := a + "/" + b;
    if a == "" {
      assert s[1..] == b;
    } else {
      assert s[1..] == a[1..] + "/" + b;
      CutOfJoin(a[1..], b);
      assert [a[0]] + a[1..] == a;
    }
  }

  /** The ownership text round-trips for exactly the names with a slash-free namespace and no empty part. */
  lemma {:induction false} OwnerRefRoundTrip(h: Name)
    ensures ParseOwner(OwnerRef(h)) == Some(h) <==> ValidName(h)
  {
    CutJoins(OwnerRef(h));
    if '/' !in h.ns {
      CutOfJoin(h.ns, h.name);
    }
  }

  lemma {:induction false} ParsedOwnerIsText(s: string, h: Name)
    requires ParseOwner(s) == Some(h)
    ensures s == OwnerRef(h) && ValidName(h)
  {
    CutJoins(s);
  }

  // ---- Owner ----

  predicate HasKey(taints: seq<Taint>, key: string) {
    exists i :: 0 <= i < |taints| && taints[i].key == key
  }

  predicate IsDrainTaint(t: Taint, key: string) {
    t.key == key && t.effect == NoSchedule
  }

  predicate HasDrainTaint(taints: seq<Taint>, key: string) {
    exists i :: 0 <= i < |taints| && IsDrainTaint(taints[i], key)
  }

  function Owner(node: Node, key: string): Option<Name> {
    if !HasDrainTaint(node.taints, key) || node.owner.None? then None
    else ParseOwner(node.owner.value)
  }

  // ---- EnsureTaint, RemoveOwnedTaint: one read-modify-write attempt on the node that was read ----

  datatype Attempt = Unchanged | Refused | Write(node: Node)

  function EnsureTaint(node: Node, key: string, h: Name, queue: string, now: int): Attempt {
    if HasKey(node.taints, key) then
      if node.owner == Some(OwnerRef(h)) then Unchanged else Refused
    else
      Write(node.(
        taints := node.taints + [Taint(key, queue, NoSchedule)],
        owner := Some(OwnerRef(h)),
        startedAt := if node.startedAt.None? then Some(At(now)) else node.startedAt))
  }

  function WithoutDrainTaint(taints: seq<Taint>, key: string): seq<Taint> {
    Filter(taints, (t: Taint) => !IsDrainTaint(t, key))
  }

  function RemoveOwnedTaint(node: Node, key: string, h: Name): Attempt {
    if node.owner != Some(OwnerRef(h)) || !HasDrainTaint(node.taints, key) then Unchanged
    else
      Write(node.(
        taints := WithoutDrainTaint(node.taints, key),
        owner := None,
        startedAt := None,
        nudge := None))
  }

  /** The node a read-modify-write leaves behind when no one else writes in between. */
  function After(node: Node, a: Attempt): Node {
    if a.Write? then a.node else node
  }

  /** One attempt of EnsureTaint's retry loop on the node just read. */
  method TryEnsureTaint(node: Node, key: string, h: Name, queue: string, now: int) returns (a: Attempt)
    ensures a == EnsureTaint(node, key, h, queue, now)
  {
    for i := 0 to |node.taints|
      invariant forall j :: 0 <= j < i ==> node.taints[j].key != key
    {
      if node.taints[i].key != key {
        continue;
      }
      assert HasKey(node.taints, key);
      return if node.owner == Some(OwnerRef(h)) then Unchanged else Refused;
    }
    var tainted := node.(taints := node.taints + [Taint(key, queue, NoSchedule)], owner := Some(OwnerRef(h)));
    if tainted.startedAt.None? {
      tainted := tainted.(startedAt := Some(At(now)));
    }
    a := Write(tainted);
  }

  /** One attempt of RemoveOwnedTaint's retry loop: the drain taints are squeezed out of the read copy in place. */
  method TryRemoveOwnedTaint(node: Node, key: string, h: Name) returns (a: Attempt)
    ensures a == RemoveOwnedTaint(node, key, h)
  {
    if node.owner != Some(OwnerRef(h)) {
      return Unchanged;
    }
    var n := |node.taints|;
    var backing := new Taint[n](i requires 0 <= i < n => node.taints[i]);
    assert backing[..n] == node.taints;
    ghost var keep := (t: Taint) => !IsDrainTaint(t, key);
    var kept := Compact(backing, n, (t: Taint) => !IsDrainTaint(t, key), (t: Taint) => t);
    assert backing[..kept] == Filter(node.taints, keep);
    FilterLength(node.taints, keep);
    if kept == n {
      return Unchanged;
    }
    a := Write(node.(taints := backing[..kept], owner := None, startedAt := None, nudge := None));
  }

  function OtherTaints(taints: seq<Taint>, key: string): seq<Taint> {
    Filter(taints, (t: Taint) => t.key != key)
  }

  lemma {:induction false} WithoutDrainTaintFacts(taints: seq<Taint>, key: string)
    ensures !HasDrainTaint(WithoutDrainTaint(taints, key), key)
    ensures OtherTaints(WithoutDrainTaint(taints, key), key) == OtherTaints(taints, key)
    ensures forall t :: t in WithoutDrainTaint(taints, key) ==> t in taints
  {
    if taints == [] {
    } else {
      WithoutDrainTaintFacts(taints[..|taints| - 1], key);
      assert taints == taints[..|taints| - 1] + [taints[|taints| - 1]];
    }
  }

  /** A write by EnsureTaint takes an unowned node to h; it starts the clock only if none is running. */
  lemma {:induction false} EnsureTaintOwns(node: Node, key: string, h: Name, queue: string, now: int)
    requires ValidName(h)
    ensures var a := EnsureTaint(node, key, h, queue, now);
      && (a.Write? ==>
            && Owner(node, key) == None
            && Owner(a.node, key) == Some(h)
            && OtherTaints(a.node.taints, key) == OtherTaints(node.taints, key)
            && a.node.startedAt == (if node.startedAt.None? then Some(At(now)) else node.startedAt))
      && (a.Refused? <==> HasKey(node.taints, key) && node.owner != Some(OwnerRef(h)))
      && (Owner(node, key) == Some(h) ==> a.Unchanged?)
      && (forall h' :: Owner(node, key) == Some(h') && h' != h ==> a.Refused?)
  {
    var a := EnsureTaint(node, key, h, queue, now);
    OwnerRefRoundTrip(h);
    if Owner(node, key).Some? {
      ParsedOwnerIsText(node.owner.value, Owner(node, key).value);
      var i :| 0 <= i < |node.taints| && IsDrainTaint(node.taints[i], key);
      assert HasKey(node.taints, key);
    }
    if a.Write? {
      var ts := a.node.taints;
      assert IsDrainTaint(ts[|ts| - 1], key);
      assert ts[..|ts| - 1] == node.taints;
    }
  }

  /**
   The write appends one NoSchedule taint of the key whose value is the ClusterQueue name, which hero pods of
   that queue tolerate, and touches only taints, owner and clock.
   */
  lemma {:induction false} WrittenTaint(node: Node, key: string, h: Name, queue: string, now: int)
    requires EnsureTaint(node, key, h, queue, now).Write?
    ensures var b := EnsureTaint(node, key, h, queue, now).node;
      && |b.taints| == |node.taints| + 1 && b.taints[..|node.taints|] == node.taints
      && b.taints[|node.taints|].key == key && b.taints[|node.taints|].value == queue
      && b.taints[|node.taints|].effect == NoSchedule
      && b.(taints := node.taints, owner := node.owner, startedAt := node.startedAt) == node
  {
  }

  /** RemoveOwnedTaint writes exactly on h's nodes, and what it writes is unowned. */
  lemma {:induction false} RemoveOwnedTaintFrees(node: Node, key: string, h: Name)
    requires ValidName(h)
    ensures var a := RemoveOwnedTaint(node, key, h);
      && (a.Write? <==> Owner(node, key) == Some(h))
      && (a.Write? ==>
            && Owner(a.node, key) == None
            && OtherTaints(a.node.taints, key) == OtherTaints(node.taints, key))
  {
    OwnerRefRoundTrip(h);
    WithoutDrainTaintFacts(node.taints, key);
    if Owner(node, key) == Some(h) {
      ParsedOwnerIsText(node.owner.value, h);
    }
  }

  /**
   "Already ours" is not always an owned node: a taint of the key under another effect beside our
   annotation also answers so. EnsureTaint leaves the node owned by h exactly when it did not refuse
   and some taint of the key, if any was there, has the NoSchedule effect.
   */
  lemma {:induction false} EnsureTaintOwnsExactly(node: Node, key: string, h: Name, queue: string, now: int)
    requires ValidName(h)
    ensures Owner(After(node, EnsureTaint(node, key, h, queue, now)), key) == Some(h)
      <==> (HasKey(node.taints, key) ==> HasDrainTaint(node.taints, key) && node.owner == Some(OwnerRef(h)))
  {
    EnsureTaintOwns(node, key, h, queue, now);
    OwnerRefRoundTrip(h);
    if Owner(node, key) == Some(h) {
      ParsedOwnerIsText(node.owner.value, h);
    }
  }

  /** For instance: a PreferNoSchedule taint of the key beside our annotation is "already ours", yet owned by nobody. */
  lemma {:induction false} AlreadyOursUnowned(node: Node, key: string, h: Name, value: string, queue: string, now: int)
    requires node.taints == [Taint(key, value, PreferNoSchedule)] && node.owner == Some(OwnerRef(h))
    ensures EnsureTaint(node, key, h, queue, now).Unchanged? && Owner(node, key).None?
  {
    assert node.taints[0].key == key;
  }

  /** Taint, then untaint: every other taint, label and annotation of the node is back. */
  lemma {:induction false} TaintUntaintRoundTrip(node: Node, key: string, h: Name, queue: string, now: int)
    requires ValidName(h)
    requires !HasKey(node.taints, key)
    ensures var tainted := After(node, EnsureTaint(node, key, h, queue, now));
      After(tainted, RemoveOwnedTaint(tainted, key, h)) == node.(owner := None, startedAt := None, nudge := None)
  {
    var tainted := After(node, EnsureTaint(node, key, h, queue, now));
    var n := |node.taints|;
    assert tainted.taints[..n] == node.taints && IsDrainTaint(tainted.taints[n], key);
    assert HasDrainTaint(tainted.taints, key);
    FilterAll(node.taints, (t: Taint) => !IsDrainTaint(t, key));
  }

  // ---- FindDrains ----

  datatype Drain = Drain(owner: Name, nodes: seq<string>, startedAt: Option<int>)

  function ClockOf(node: Node): Option<int> {
    if node.startedAt.Some? && node.startedAt.value.At? then Some(node.startedAt.value.time) else None
  }

  function Earliest(a: Option<int>, b: Option<int>): Option<int> {
    if b.None? || (a.Some? && a.value <= b.value) then a else b
  }

  function NodesOf(nodes: seq<Node>, key: string, h: Name): seq<string> {
    if nodes == [] then []
    else
      var rest := NodesOf(nodes[..|nodes| - 1], key, h);
      if Owner(nodes[|nodes| - 1], key) == Some(h) then rest + [nodes[|nodes| - 1].name] else rest
  }

  function EarliestClock(nodes: seq<Node>, key: string, h: Name): Option<int> {
    if nodes == [] then None
    else
      var rest := EarliestClock(nodes[..|nodes| - 1], key, h);
      if Owner(nodes[|nodes| - 1], key) == Some(h) then Earliest(rest, ClockOf(nodes[|nodes| - 1])) else rest
  }

  function Owners(nodes: seq<Node>, key: string): set<Name> {
    set n | n in nodes && Owner(n, key).Some? :: Owner(n, key).value
  }

  function FindDrainsSpec(nodes: seq<Node>, key: string): map<Name, Drain> {
    map h | h in Owners(nodes, key) :: Drain(h, NodesOf(nodes, key, h), EarliestClock(nodes, key, h))
  }

  lemma {:induction false} DrainSnoc(nodes: seq<Node>, node: Node, key: string, h: Name)
    ensures NodesOf(nodes + [node], key, h)
      == NodesOf(nodes, key, h) + (if Owner(node, key) == Some(h) then [node.name] else [])
    ensures EarliestClock(nodes + [node], key, h)
      == (if Owner(node, key) == Some(h) then Earliest(EarliestClock(nodes, key, h), ClockOf(node))
          else EarliestClock(nodes, key, h))
  {
    var all := nodes + [node];
    assert all[..|all| - 1] == nodes;
  }

  lemma {:induction false} OwnersSnoc(nodes: seq<Node>, node: Node, key: string)
    ensures Owners(nodes + [node], key)
      == Owners(nodes, key) + (if Owner(node, key).Some? then {Owner(node, key).value} else {})
  {
    forall h ensures h in Owners(nodes + [node], key)
      <==> h in Owners(nodes, key) || Owner(node, key) == Some(h)
    {
      if Owner(node, key) == Some(h) {
        assert node in nodes + [node];
      }
      if h in Owners(nodes, key) {
        var n :| n in nodes && Owner(n, key) == Some(h);
        assert n in nodes + [node];
      }
    }
  }

  function AddToDrain(drains: map<Name, Drain>, h: Name, name: string, clock: Option<int>): map<Name, Drain> {
    var d := if h in drains then drains[h] else Drain(h, [], None);
    drains[h := Drain(h, d.nodes + [name], Earliest(d.startedAt, clock))]
  }

  lemma {:induction false} FindDrainsStep(nodes: seq<Node>, node: Node, key: string)
    ensures FindDrainsSpec(nodes + [node], key) ==
      if Owner(node, key).None? then FindDrainsSpec(nodes, key)
      else AddToDrain(FindDrainsSpec(nodes, key), Owner(node, key).value, node.name, ClockOf(node))
  {
    var before, after := FindDrainsSpec(nodes, key), FindDrainsSpec(nodes + [node], key);
    var owner := Owner(node, key);
    var expected := if owner.None? then before else AddToDrain(before, owner.value, node.name, ClockOf(node));
    OwnersSnoc(nodes, node, key);
    if owner.Some? && owner.value !in before {
      NoDrainYet(nodes, key, owner.value);
    }
    assert after.Keys == expected.Keys;
    forall h | h in after ensures after[h] == expected[h] {
      DrainSnoc(nodes, node, key, h);
    }
    assert after == expected;
  }

  /** The drains in flight are rebuilt from the node list alone. */
  method FindDrains(nodes: seq<Node>, key: string) returns (drains: map<Name, Drain>)
    ensures drains == FindDrainsSpec(nodes, key)
  {
    drains := map[];
    for i := 0 to |nodes|
      invariant drains == FindDrainsSpec(nodes[..i], key)
    {
      var node := nodes[i];
      assert nodes[..i + 1] == nodes[..i] + [node];
      FindDrainsStep(nodes[..i], node, key);
      var owner := Owner(node, key);
      if owner.None? {
        continue;
      }
      var h := owner.value;
      var d := if h in drains then drains[h] else Drain(h, [], None);
      d := d.(nodes := d.nodes + [node.name]);
      if node.startedAt.Some? && node.startedAt.value.At? {
        var t := node.startedAt.value.time;
        if d.startedAt.None? || t < d.startedAt.value {
          d := d.(startedAt := Some(t));
        }
      }
      drains := drains[h := d];
    }
    assert nodes[..|nodes|] == nodes;
  }

  lemma {:induction false} NoDrainYet(nodes: seq<Node>, key: string, h: Name)
    requires h !in Owners(nodes, key)
    ensures NodesOf(nodes, key, h) == [] && EarliestClock(nodes, key, h) == None
  {
    if nodes == [] {
    } else {
      var init := nodes[..|nodes| - 1];
      assert forall n :: n in init ==> n in nodes;
      assert nodes[|nodes| - 1] in nodes;
      NoDrainYet(init, key, h);
    }
  }

  /** A drain's clock is the earliest parseable one on its nodes, if any of them has one. */
  lemma {:induction false} EarliestIsLeast(nodes: seq<Node>, key: string, h: Name)
    ensures var clock := EarliestClock(nodes, key, h);
      && (clock.None? <==> forall n :: n in nodes && Owner(n, key) == Some(h) ==> ClockOf(n).None?)
      && (clock.Some? ==>
            && (exists n :: n in nodes && Owner(n, key) == Some(h) && n.startedAt == Some(At(clock.value)))
            && forall n :: n in nodes && Owner(n, key) == Some(h) && n.startedAt.Some? && n.startedAt.value.At? ==>
                clock.value <= n.startedAt.value.time)
  {
    if nodes == [] {
    } else {
      var k := |nodes| - 1;
      EarliestIsLeast(nodes[..k], key, h);
      assert nodes[k] in nodes && forall n :: n in nodes <==> n in nodes[..k] || n == nodes[k];
    }
  }

  lemma {:induction false} NodesOfMember(nodes: seq<Node>, key: string, h: Name, name: string)
    ensures name in NodesOf(nodes, key, h) <==> exists n :: n in nodes && n.name == name && Owner(n, key) == Some(h)
  {
    if nodes == [] {
    } else {
      var init := nodes[..|nodes| - 1];
      NodesOfMember(init, key, h, name);
      assert nodes == init + [nodes[|nodes| - 1]];
    }
  }
}
