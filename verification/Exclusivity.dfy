/**
 One drain at a time, cluster-wide: with one drain worker, all attributable drain taints name one hero at
 every moment, although the janitor, crashes and everyone else act between any two API calls.
 */
module Exclusivity {
  import opened Base
  import opened Kube
  import opened Taints
  import opened Selection
  import opened Clusters
  import opened DrainCalls
  import opened Janitor

  ghost predicate Exclusive(s: State, key: string) {
    forall a, b :: a in DrainOwners(s, key) && b in DrainOwners(s, key) ==> a == b
  }

  // ---- what a reconcile may do ----

  ghost predicate TaintsOnlyFor(calls: seq<Call>, h: Name) {
    forall i :: 0 <= i < |calls| && calls[i].PutTaint? ==> calls[i].hero == h
  }

  ghost predicate NoTaints(calls: seq<Call>) {
    forall i :: 0 <= i < |calls| ==> !calls[i].PutTaint?
  }

  /** The serialization gate: taints only for h, and none unless h alone has a drain. */
  ghost predicate Authorized(s: State, key: string, h: Name, calls: seq<Call>) {
    TaintsOnlyFor(calls, h) && (NoTaints(calls) || DrainOwners(s, key) <= {h})
  }

  lemma {:induction false} CycleNeverTaints(s: State, cfg: Config, l: Listing, hero: Workload, nodes: seq<string>)
    ensures NoTaints(CycleCalls(s, cfg, l, hero, nodes))
  {
  }

  lemma {:induction false} AbortNeverTaints(s: State, l: Listing, hero: Name, nodes: seq<string>)
    ensures NoTaints(AbortCalls(s, l, hero, nodes))
  {
  }

  lemma {:induction false} StartTaintsForHero(s: State, cfg: Config, l: Listing, look: Look, w: Workload,
      nodes: seq<string>, resuming: bool)
    ensures TaintsOnlyFor(StartCalls(s, cfg, l, look, w, nodes, resuming), w.key)
  {
    var taints := TaintAllCalls(nodes, w.key, look.queue) + (if resuming then [] else [CountStart]);
    CycleNeverTaints(Run(s, taints, cfg.taintKey), cfg, l, w, nodes);
  }

  lemma {:induction false} HeroAuthorized(s: State, cfg: Config, l: Listing, look: Look, w: Workload, outcome: Outcome)
    requires WellFormed(s) && Lists(l, s)
    ensures Authorized(s, cfg.taintKey, w.key, HeroCalls(s, cfg, l, look, w, outcome))
  {
    var drains := DrainsIn(s, cfg.taintKey, l);
    DrainsInMeaning(s, cfg.taintKey, l, w.key);
    if w.key in drains {
      AbortNeverTaints(s, l, w.key, drains[w.key].nodes);
    }
    if outcome.Planned? {
      StartTaintsForHero(s, cfg, l, look, w, outcome.plan.nodes, w.key in drains);
    }
  }

  lemma {:induction false} VictimEventNeverTaints(s: State, v: Name)
    requires v in s.workloads && s.workloads[v].deactivatedFor.Some?
    ensures NoTaints(VictimEventCalls(s, v))
  {
  }

  /** Every reconcile goes through the gate before it taints, and taints for its own workload only. */
  lemma {:induction false} ReconcileAuthorized(s: State, cfg: Config, l: Listing, look: Look, key: Name)
    requires ValidConfig(cfg) && WellFormed(s) && Lists(l, s)
    ensures Authorized(s, cfg.taintKey, key, ReconcileCalls(s, cfg, l, look, key))
  {
    if key in s.workloads {
      var w, drains := s.workloads[key], DrainsIn(s, cfg.taintKey, l);
      if w.deactivatedFor.Some? {
        VictimEventNeverTaints(s, key);
      } else if w.isHero && w.stuck && !w.overQuota {
        HeroAuthorized(s, cfg, l, look, w, OutcomeFor(s, cfg, l, look, w));
      } else if key in drains {
        AbortNeverTaints(s, l, key, drains[key].nodes);
        CycleNeverTaints(s, cfg, l, w, drains[key].nodes);
      }
    }
  }

  lemma {:induction false} VisitNeverTaints(s: State, cfg: Config, l: Listing, node: string)
    requires forall n :: n in l.nodes ==> n in s.nodes
    ensures NoTaints(VisitCalls(s, cfg, l, node))
  {
  }

  // ---- single calls ----

  lemma {:induction false} OthersOnlyShrink(s: State, c: Call, key: string)
    requires !c.PutTaint?
    ensures DrainOwners(Apply(s, c, key), key) <= DrainOwners(s, key)
  {
    var t := Apply(s, c, key);
    forall n | n in t.nodes && Owner(t.nodes[n], key).Some? ensures Owner(s.nodes[n], key) == Owner(t.nodes[n], key) {
      if c.DropTaint? && n == c.node {
        WithoutDrainTaintFacts(s.nodes[n].taints, key);
      }
    }
  }

  lemma {:induction false} TaintAddsOnlyHero(s: State, c: Call, key: string)
    requires c.PutTaint? && ValidName(c.hero)
    ensures DrainOwners(Apply(s, c, key), key) <= DrainOwners(s, key) + {c.hero}
  {
    if c.node in s.nodes {
      EnsureTaintOwns(s.nodes[c.node], key, c.hero, c.queue, s.now);
    }
  }

  // ---- interleavings ----

  /**
   The drain worker: the workload it reconciles, whether that passed the serialization gate, and the calls it
   has decided on. It may read the cluster and decide again as often as it likes.
   */
  datatype Worker = Idle | Busy(hero: Name, passed: bool, todo: seq<Call>)

  datatype World = World(s: State, worker: Worker)

  /** Any single thing that can happen next. */
  datatype Act =
    | Begin(hero: Name)
    | PassGate
    | Decide(calls: seq<Call>)
    | WorkerCall
    | Crash
    | JanitorCall(call: Call)
    | Others(after: State)

  ghost predicate MayDecide(calls: seq<Call>, h: Name, passed: bool) {
    TaintsOnlyFor(calls, h) && (passed || NoTaints(calls))
  }

  /** The gate reads the cluster at its moment; decisions come from any later one. */
  ghost predicate LegalAct(w: World, a: Act, key: string) {
    match a
    case Begin(h) => w.worker.Idle? && ValidName(h)
    case PassGate => w.worker.Busy? && DrainOwners(w.s, key) <= {w.worker.hero}
    case Decide(calls) => w.worker.Busy? && MayDecide(calls, w.worker.hero, w.worker.passed)
    case WorkerCall => w.worker.Busy? && w.worker.todo != []
    case Crash => true
    case JanitorCall(c) => !c.PutTaint?
    case Others(t) => DrainOwners(t, key) <= DrainOwners(w.s, key)
  }

  ghost function Perform(w: World, a: Act, key: string): World
    requires LegalAct(w, a, key)
  {
    match a
    case Begin(h) => World(w.s, Busy(h, false, []))
    case PassGate => World(w.s, w.worker.(passed := true))
    case Decide(calls) => World(w.s, w.worker.(todo := calls))
    case WorkerCall =>
      if Fails(w.s, w.worker.todo[0], key) then World(w.s, Idle)
      else World(Apply(w.s, w.worker.todo[0], key), w.worker.(todo := w.worker.todo[1..]))
    case Crash => World(w.s, Idle)
    case JanitorCall(c) => World(Apply(w.s, c, key), w.worker)
    case Others(t) => World(t, w.worker)
  }

  ghost predicate Serialized(w: World, key: string) {
    && Exclusive(w.s, key)
    && (w.worker.Busy? ==>
          && ValidName(w.worker.hero) && MayDecide(w.worker.todo, w.worker.hero, w.worker.passed)
          && (w.worker.passed ==> DrainOwners(w.s, key) <= {w.worker.hero}))
  }

  lemma {:induction false} ActKeepsSerialized(w: World, a: Act, key: string)
    requires Serialized(w, key) && LegalAct(w, a, key)
    ensures Serialized(Perform(w, a, key), key)
  {
    match a {
      case Begin(_) =>
      case PassGate =>
      case Decide(_) =>
      case WorkerCall =>
        var c := w.worker.todo[0];
        if c.PutTaint? {
          TaintAddsOnlyHero(w.s, c, key);
        } else {
          OthersOnlyShrink(w.s, c, key);
        }
      case Crash =>
      case JanitorCall(c) =>
        OthersOnlyShrink(w.s, c, key);
      case Others(_) =>
    }
  }

  /**
   Every phase of a reconcile is such a decision, whatever state it is worked out from: only the start of a
   drain needs the gate passed, and no phase taints for anyone but the workload itself.
   */
  lemma {:induction false} PhasesMayBeDecided(s: State, cfg: Config, l: Listing, look: Look, w: Workload,
      nodes: seq<string>, resuming: bool, passed: bool)
    ensures MayDecide(CycleCalls(s, cfg, l, w, nodes), w.key, passed)
    ensures MayDecide(AbortCalls(s, l, w.key, nodes), w.key, passed)
    ensures MayDecide(StartCalls(s, cfg, l, look, w, nodes, resuming), w.key, true)
    ensures w.key in s.workloads && s.workloads[w.key].deactivatedFor.Some? ==>
      MayDecide(VictimEventCalls(s, w.key), w.key, passed)
  {
    CycleNeverTaints(s, cfg, l, w, nodes);
    AbortNeverTaints(s, l, w.key, nodes);
    StartTaintsForHero(s, cfg, l, look, w, nodes, resuming);
  }

  /** From the gate on, the calls worked out from a later cluster are decisions a worker past the gate may take. */
  lemma {:induction false} LaterCallsMayBeDecided(later: State, cfg: Config, l: Listing, look: Look, key: Name)
    requires ValidConfig(cfg) && WellFormed(later) && Lists(l, later)
    ensures MayDecide(ReconcileCalls(later, cfg, l, look, key), key, true)
  {
    ReconcileAuthorized(later, cfg, l, look, key);
  }

  ghost predicate Interleaving(w: World, acts: seq<Act>, key: string)
    decreases |acts|
  {
    acts == [] || (LegalAct(w, acts[0], key) && Interleaving(Perform(w, acts[0], key), acts[1..], key))
  }

  ghost function Outcome(w: World, acts: seq<Act>, key: string): World
    requires Interleaving(w, acts, key)
    decreases |acts|
  {
    if acts == [] then w else Outcome(Perform(w, acts[0], key), acts[1..], key)
  }

  /** After every interleaving of single API calls, all attributable drain taints name one hero. */
  lemma {:induction false} OneDrainAtATime(w: World, acts: seq<Act>, key: string)
    requires Serialized(w, key) && Interleaving(w, acts, key)
    ensures Exclusive(Outcome(w, acts, key).s, key)
    decreases |acts|
  {
    if acts == [] {
    } else {
      ActKeepsSerialized(w, acts[0], key);
      OneDrainAtATime(Perform(w, acts[0], key), acts[1..], key);
    }
  }

  /** One worker is essential: two that both pass the gate end with two drains. */
  lemma {:induction false} TwoWorkersCollide(s: State, key: string, a: Name, b: Name, m: string, n: string,
      queue: string)
    requires ValidName(a) && ValidName(b) && a != b && m != n && m in s.nodes && n in s.nodes
    requires DrainOwners(s, key) == {} && !HasKey(s.nodes[m].taints, key) && !HasKey(s.nodes[n].taints, key)
    ensures Authorized(s, key, a, [PutTaint(m, a, queue)]) && Authorized(s, key, b, [PutTaint(n, b, queue)])
    ensures !Exclusive(Apply(Apply(s, PutTaint(m, a, queue), key), PutTaint(n, b, queue), key), key)
  {
    var t := Apply(s, PutTaint(m, a, queue), key);
    var u := Apply(t, PutTaint(n, b, queue), key);
    EnsureTaintOwns(s.nodes[m], key, a, queue, s.now);
    EnsureTaintOwns(s.nodes[n], key, b, queue, s.now);
    assert u.nodes[m] == t.nodes[m] && Owner(u.nodes[m], key) == Some(a);
    assert Owner(u.nodes[n], key) == Some(b);
    assert a in DrainOwners(u, key) && b in DrainOwners(u, key);
  }
}
