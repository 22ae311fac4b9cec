/**
 Ownership of one node under stale caches: every read may return any past version, and an update is
 accepted only against the version it was computed from.
 */
module StaleReads {
  import opened Base
  import opened Kube
  import opened Taints

  datatype Operation =
    | Ensure(hero: Name, queue: string, now: int)
    | Remove(hero: Name)

  function Attempted(node: Node, key: string, op: Operation): Attempt {
    match op
    case Ensure(h, queue, now) => EnsureTaint(node, key, h, queue, now)
    case Remove(h) => RemoveOwnedTaint(node, key, h)
  }

  /** An update in flight: the version it was computed from, and by what. */
  datatype Update = Update(base: nat, op: Operation)

  /** Every version the node ever had, oldest first, the updates not yet answered, and the versions we wrote. */
  datatype Store = Store(versions: seq<Node>, pending: set<Update>, ours: set<nat>)

  datatype Act =
    | Read(version: nat, op: Operation)
    | Submit(update: Update)
    | Patch(node: Node)
    | Elsewhere(node: Node)

  predicate Valid(op: Operation) {
    ValidName(op.hero)
  }

  function Current(st: Store): Node
    requires st.versions != []
  {
    st.versions[|st.versions| - 1]
  }

  /** The node without its drain state: taints of other keys in order, and all other fields. */
  ghost function Foreign(node: Node, key: string): Node {
    node.(taints := OtherTaints(node.taints, key), owner := None, startedAt := None, nudge := None)
  }

  ghost predicate LegalAct(st: Store, a: Act, key: string)
    requires st.versions != []
  {
    match a
    // a cache read of any version this process may still see
    case Read(i, op) => i < |st.versions| && Valid(op)
    case Submit(p) => p in st.pending
    // a merge patch of a drain annotation other than the owner goes to the current version
    case Patch(node) => node == Current(st).(startedAt := node.startedAt, nudge := node.nudge)
    // anyone else may write anything but a change of the drain's owner
    case Elsewhere(node) => Owner(node, key) == Owner(Current(st), key)
  }

  ghost function Perform(st: Store, a: Act, key: string): Store
    requires st.versions != [] && LegalAct(st, a, key)
  {
    match a
    case Read(i, op) =>
      if Attempted(st.versions[i], key, op).Write? then st.(pending := st.pending + {Update(i, op)}) else st
    case Submit(p) =>
      if p.base != |st.versions| - 1 || !Attempted(Current(st), key, p.op).Write? then st.(pending := st.pending - {p})
      else Store(st.versions + [Attempted(Current(st), key, p.op).node], st.pending - {p}, st.ours + {|st.versions|})
    case Patch(node) => st.(versions := st.versions + [node], ours := st.ours + {|st.versions|})
    case Elsewhere(node) => st.(versions := st.versions + [node])
  }

  /** One version after the other: the owner is kept, gained by an unowned node, or lost. */
  ghost predicate Handover(a: Node, b: Node, key: string) {
    Owner(a, key) == Owner(b, key) || Owner(a, key).None? || Owner(b, key).None?
  }

  ghost predicate Orderly(versions: seq<Node>, key: string) {
    forall i :: 0 <= i < |versions| - 1 ==> Handover(versions[i], versions[i + 1], key)
  }

  /** Nothing of anyone else's is lost: what we wrote differs from the version before only in drain state. */
  ghost predicate NothingLost(st: Store, key: string) {
    forall i :: i in st.ours ==>
      0 < i < |st.versions| && Foreign(st.versions[i], key) == Foreign(st.versions[i - 1], key)
  }

  ghost predicate Consistent(st: Store, key: string) {
    && st.versions != [] && Orderly(st.versions, key) && NothingLost(st, key)
    && forall p :: p in st.pending ==>
        p.base < |st.versions| && Valid(p.op) && Attempted(st.versions[p.base], key, p.op).Write?
  }

  /** A write of ours hands the node from nobody to its hero or from its hero to nobody; other taints stay. */
  lemma {:induction false} WriteHandsOver(node: Node, key: string, op: Operation)
    requires Valid(op) && Attempted(node, key, op).Write?
    ensures var b := Attempted(node, key, op).node;
      && Foreign(b, key) == Foreign(node, key)
      && (op.Ensure? ==> Owner(node, key).None? && Owner(b, key) == Some(op.hero))
      && (op.Remove? ==> Owner(node, key) == Some(op.hero) && Owner(b, key).None?)
  {
    match op {
      case Ensure(h, queue, now) => EnsureTaintOwns(node, key, h, queue, now);
      case Remove(h) => RemoveOwnedTaintFrees(node, key, h);
    }
  }

  lemma {:induction false} AppendOrderly(versions: seq<Node>, b: Node, key: string)
    requires versions != [] && Orderly(versions, key) && Handover(versions[|versions| - 1], b, key)
    ensures Orderly(versions + [b], key)
  {
    var all := versions + [b];
    forall i | 0 <= i < |all| - 1 ensures Handover(all[i], all[i + 1], key) {
      if i < |versions| - 1 {
        assert all[i] == versions[i] && all[i + 1] == versions[i + 1];
      }
    }
  }

  lemma {:induction false} ActConsistent(st: Store, a: Act, key: string)
    requires Consistent(st, key) && LegalAct(st, a, key)
    ensures Consistent(Perform(st, a, key), key)
    ensures st.versions <= Perform(st, a, key).versions
  {
    match a {
      case Read(_, _) =>
      case Submit(p) =>
        if p.base == |st.versions| - 1 {
          assert Attempted(Current(st), key, p.op).Write?;
          WriteHandsOver(Current(st), key, p.op);
          AppendOrderly(st.versions, Attempted(Current(st), key, p.op).node, key);
        }
      case Patch(node) =>
        AppendOrderly(st.versions, node, key);
      case Elsewhere(node) =>
        AppendOrderly(st.versions, node, key);
    }
  }

  ghost predicate Interleaving(st: Store, acts: seq<Act>, key: string)
    decreases |acts|
  {
    acts == [] || (
      && st.versions != [] && LegalAct(st, acts[0], key)
      && Interleaving(Perform(st, acts[0], key), acts[1..], key))
  }

  ghost function Outcome(st: Store, acts: seq<Act>, key: string): Store
    requires Interleaving(st, acts, key)
    decreases |acts|
  {
    if acts == [] then st else Outcome(Perform(st, acts[0], key), acts[1..], key)
  }

  lemma {:induction false} OutcomeConsistent(st: Store, acts: seq<Act>, key: string)
    requires Consistent(st, key) && Interleaving(st, acts, key)
    ensures Consistent(Outcome(st, acts, key), key)
    decreases |acts|
  {
    if acts == [] {
    } else {
      ActConsistent(st, acts[0], key);
      OutcomeConsistent(Perform(st, acts[0], key), acts[1..], key);
    }
  }

  /** Between versions owned by different heroes lies an unowned one. */
  lemma {:induction false} UnownedBetween(versions: seq<Node>, key: string, i: nat, j: nat) returns (k: nat)
    requires Orderly(versions, key) && i < j < |versions|
    requires Owner(versions[i], key).Some? && Owner(versions[j], key).Some?
    requires Owner(versions[i], key) != Owner(versions[j], key)
    ensures i < k < j && Owner(versions[k], key).None?
    decreases j - i
  {
    assert Handover(versions[i], versions[i + 1], key);
    if Owner(versions[i + 1], key).None? {
      k := i + 1;
    } else {
      k := UnownedBetween(versions, key, i + 1, j);
    }
  }

  /** However stale the reads, each of our writes leaves other taints, labels and annotations as they were. */
  lemma {:induction false} WritesKeepForeignState(st: Store, acts: seq<Act>, key: string, i: nat)
    requires Consistent(st, key) && Interleaving(st, acts, key) && i in Outcome(st, acts, key).ours
    ensures 0 < i < |Outcome(st, acts, key).versions|
    ensures Foreign(Outcome(st, acts, key).versions[i], key) == Foreign(Outcome(st, acts, key).versions[i - 1], key)
  {
    OutcomeConsistent(st, acts, key);
  }

  /** However stale the reads, the node never passes from one hero straight to another. */
  lemma {:induction false} NeverHeroToHero(st: Store, acts: seq<Act>, key: string, i: nat, j: nat) returns (k: nat)
    requires Consistent(st, key) && Interleaving(st, acts, key)
    requires i < j < |Outcome(st, acts, key).versions|
    requires var vs := Outcome(st, acts, key).versions;
      Owner(vs[i], key).Some? && Owner(vs[j], key).Some? && Owner(vs[i], key) != Owner(vs[j], key)
    ensures i < k < j && Owner(Outcome(st, acts, key).versions[k], key).None?
  {
    OutcomeConsistent(st, acts, key);
    k := UnownedBetween(Outcome(st, acts, key).versions, key, i, j);
  }
}
