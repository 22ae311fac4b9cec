/**
 Bounded tenancy: however its hero fares, a node's drain taint does not outlive its clock, and every
 tenancy ends in bounded time once its clock is left alone.
 */
module Tenancy {
  import opened Base
  import opened Kube
  import opened Taints
  import opened Clusters
  import opened Janitor

  predicate Owned(s: State, node: string, key: string) {
    node in s.nodes && Owner(s.nodes[node], key).Some?
  }

  // ---- one visit ----

  /** At or past the deadline the verdict is a teardown for the owner, whatever else is going on. */
  lemma {:induction false} DeadlineTearsDown(node: Node, cfg: Config, heroes: map<Name, Workload>, pods: seq<Pod>,
      now: int)
    requires Owner(node, cfg.taintKey).Some? && ClockOf(node).Some?
    requires now >= ClockOf(node).value + cfg.drainTimeout
    ensures var v := Ladder(node, cfg, heroes, pods, now); v.Tear? && Some(v.owner) == Owner(node, cfg.taintKey)
  {
  }

  lemma {:induction false} DropFrees(s: State, node: string, owner: Name, key: string)
    requires node in OwnedBy(s, key, owner)
    ensures !Owned(Apply(s, DropTaint(node, owner), key), node, key)
  {
    ParsedOwnerIsText(s.nodes[node].owner.value, owner);
    RemoveOwnedTaintFrees(s.nodes[node], key, owner);
  }

  lemma {:induction false} TeardownFrees(s: State, cfg: Config, l: Listing, node: string, owner: Name)
    requires Lists(l, s) && node in OwnedBy(s, cfg.taintKey, owner)
    ensures !Owned(Run(s, TeardownCalls(s, cfg, l, node, owner), cfg.taintKey), node, cfg.taintKey)
  {
    TeardownCompletes(s, cfg, l, node, owner);
    UntaintedObjects(s, cfg, l, node, owner);
    DropFrees(s, node, owner, cfg.taintKey);
    SweepKeepsNodes(Untainted(s, cfg, l, node, owner), l, OwnerRef(owner), cfg.taintKey);
  }

  lemma {:induction false} SweepKeepsNodes(s: State, l: Listing, text: string, key: string)
    requires Lists(l, s)
    ensures Run(s, SweepCalls(s, l, text), key).nodes == s.nodes
  {
    SweepEffect(s, l, text, key);
  }

  lemma {:induction false} TornIsUntainted(s: State, cfg: Config, l: Listing, node: string)
    requires Lists(l, s) && node in s.nodes && Ladder(s.nodes[node], cfg, s.workloads, s.pods, s.now).Tear?
    ensures !Owned(Run(s, VisitCalls(s, cfg, l, node), cfg.taintKey), node, cfg.taintKey)
  {
    var owner := Ladder(s.nodes[node], cfg, s.workloads, s.pods, s.now).owner;
    VisitCases(s, cfg, l, node);
    TeardownFrees(s, cfg, l, node, owner);
  }

  lemma {:induction false} KeptIsKept(s: State, cfg: Config, l: Listing, node: string)
    requires Lists(l, s) && Owned(s, node, cfg.taintKey)
    requires !Ladder(s.nodes[node], cfg, s.workloads, s.pods, s.now).Tear?
    ensures var t := Run(s, VisitCalls(s, cfg, l, node), cfg.taintKey);
      && Owned(t, node, cfg.taintKey)
      && ClockOf(t.nodes[node]) == if ClockOf(s.nodes[node]).None? then Some(s.now) else ClockOf(s.nodes[node])
  {
    RunOne(s, StampClock(node), cfg.taintKey);
  }

  /**
   A visit of an owned node: past the deadline it frees the node; if it keeps the taint it comes back after
   a positive delay, at the deadline itself, and no later than a timeout from now exactly when the clock is
   not ahead of now.
   */
  lemma {:induction false} VisitServesDeadline(s: State, cfg: Config, l: Listing, node: string)
    requires ValidConfig(cfg) && Lists(l, s) && Owned(s, node, cfg.taintKey)
    ensures var t := Run(s, VisitCalls(s, cfg, l, node), cfg.taintKey);
      var clock, delay := ClockOf(s.nodes[node]), VisitDelay(s, cfg, node);
      && (clock.Some? && s.now >= clock.value + cfg.drainTimeout ==> !Owned(t, node, cfg.taintKey))
      && (Owned(t, node, cfg.taintKey) ==>
            && ClockOf(t.nodes[node]).Some? && delay.Some? && delay.value > 0
            && s.now + delay.value == ClockOf(t.nodes[node]).value + cfg.drainTimeout
            && (delay.value <= cfg.drainTimeout <==> clock.None? || clock.value <= s.now))
  {
    if Ladder(s.nodes[node], cfg, s.workloads, s.pods, s.now).Tear? {
      TornIsUntainted(s, cfg, l, node);
    } else {
      KeptIsKept(s, cfg, l, node);
    }
  }

  /** Only a teardown, an abort or the janitor's own restart moves the clock of a tainted node. */
  lemma {:induction false} ClockKept(s: State, c: Call, key: string, node: string)
    requires Owned(s, node, key) && !c.DropTaint? && !c.StampClock?
    ensures Owned(Apply(s, c, key), node, key)
    ensures ClockOf(Apply(s, c, key).nodes[node]) == ClockOf(s.nodes[node])
  {
    var i :| 0 <= i < |s.nodes[node].taints| && IsDrainTaint(s.nodes[node].taints[i], key);
    assert HasKey(s.nodes[node].taints, key);
  }

  ghost predicate NotAhead(s: State) {
    forall n :: n in s.nodes ==> ClockOf(s.nodes[n]).None? || ClockOf(s.nodes[n]).value <= s.now
  }

  /** No call writes a clock that is ahead of now. */
  lemma {:induction false} ClocksNotAhead(s: State, calls: seq<Call>, key: string)
    requires NotAhead(s)
    ensures NotAhead(Run(s, calls, key))
    decreases |calls|
  {
    if calls != [] && !Fails(s, calls[0], key) {
      assert NotAhead(Apply(s, calls[0], key));
      ClocksNotAhead(Apply(s, calls[0], key), calls[1..], key);
    }
  }

  // ---- timed runs ----

  /**
   One node under watch: due is the pending visit. since, breaks and ahead record when the current tenancy
   began, how often someone tampered with its clock, and by how much in all clocks were set ahead of now.
   */
  datatype Watch = Watch(s: State, due: Option<int>, since: int, breaks: nat, ahead: nat)

  datatype Beat = Tick(now: int) | VisitNow(listing: Listing) | Change(after: State)

  /** Time does not pass a pending visit; a change takes no time. */
  ghost predicate LegalBeat(w: Watch, b: Beat, node: string) {
    match b
    case Tick(now) => w.s.now <= now && (w.due.Some? ==> now <= w.due.value)
    case VisitNow(l) => Lists(l, w.s)
    case Change(t) => t.now == w.s.now
  }

  ghost predicate ClockChanged(s: State, t: State, node: string)
    requires node in s.nodes && node in t.nodes
  {
    ClockOf(s.nodes[node]) != ClockOf(t.nodes[node])
  }

  function Lead(s: State, node: string): nat
    requires node in s.nodes
  {
    var clock := ClockOf(s.nodes[node]);
    if clock.Some? && clock.value > s.now then clock.value - s.now else 0
  }

  /** A change of the tainted node is an event: its visit is due at once. */
  ghost function Changed(w: Watch, t: State, node: string, key: string): Watch {
    var seen := Owned(t, node, key) && (node !in w.s.nodes || w.s.nodes[node] != t.nodes[node]);
    var due := if seen then Some(t.now) else w.due;
    if !Owned(t, node, key) then w.(s := t, due := due)
    else if !Owned(w.s, node, key) then Watch(t, due, t.now, 0, Lead(t, node))
    else if !ClockChanged(w.s, t, node) then Watch(t, due, w.since, w.breaks, w.ahead)
    else Watch(t, due, w.since, w.breaks + 1, w.ahead + Lead(t, node))
  }

  ghost function Visited(w: Watch, l: Listing, node: string, cfg: Config): Watch
    requires Lists(l, w.s)
  {
    var delay := VisitDelay(w.s, cfg, node);
    w.(s := Run(w.s, VisitCalls(w.s, cfg, l, node), cfg.taintKey),
       due := if delay.Some? then Some(w.s.now + delay.value) else None)
  }

  ghost function Next(w: Watch, b: Beat, node: string, cfg: Config): Watch
    requires LegalBeat(w, b, node)
  {
    match b
    case Tick(now) => w.(s := w.s.(now := now))
    case VisitNow(l) => Visited(w, l, node, cfg)
    case Change(t) => Changed(w, t, node, cfg.taintKey)
  }

  ghost function Bound(w: Watch, cfg: Config): int {
    w.since + (w.breaks + 1) * cfg.drainTimeout + w.ahead
  }

  lemma {:induction false} BoundGrows(w: Watch, cfg: Config)
    ensures Bound(w.(breaks := w.breaks + 1), cfg) == Bound(w, cfg) + cfg.drainTimeout
  {
    assert (w.breaks + 2) * cfg.drainTimeout == (w.breaks + 1) * cfg.drainTimeout + cfg.drainTimeout;
  }

  /** While the node is owned a visit is pending: now, or no later than the deadline on the node's clock. */
  ghost predicate Armed(w: Watch, node: string, cfg: Config) {
    Owned(w.s, node, cfg.taintKey) ==>
      && w.due.Some? && w.s.now <= w.due.value <= Bound(w, cfg)
      && var clock := ClockOf(w.s.nodes[node]);
        if clock.None? then w.due.value == w.s.now && w.s.now + cfg.drainTimeout <= Bound(w, cfg)
        else
          && clock.value + cfg.drainTimeout <= Bound(w, cfg)
          && (w.due.value == w.s.now || w.due.value <= clock.value + cfg.drainTimeout)
  }

  lemma {:induction false} VisitArms(w: Watch, l: Listing, node: string, cfg: Config)
    requires ValidConfig(cfg) && Lists(l, w.s) && Armed(w, node, cfg)
    ensures Armed(Visited(w, l, node, cfg), node, cfg)
  {
    var t := Visited(w, l, node, cfg);
    RunSameObjects(w.s, VisitCalls(w.s, cfg, l, node), cfg.taintKey);
    if Owned(w.s, node, cfg.taintKey) {
      VisitServesDeadline(w.s, cfg, l, node);
      if Owned(t.s, node, cfg.taintKey) {
        KeptVisit(w.s, cfg, l, node);
      }
    } else if node in w.s.nodes {
      assert VisitCalls(w.s, cfg, l, node) == [];
    }
  }

  lemma {:induction false} KeptVisit(s: State, cfg: Config, l: Listing, node: string)
    requires Lists(l, s) && Owned(s, node, cfg.taintKey)
    requires Owned(Run(s, VisitCalls(s, cfg, l, node), cfg.taintKey), node, cfg.taintKey)
    ensures ClockOf(Run(s, VisitCalls(s, cfg, l, node), cfg.taintKey).nodes[node])
      == if ClockOf(s.nodes[node]).None? then Some(s.now) else ClockOf(s.nodes[node])
  {
    if Ladder(s.nodes[node], cfg, s.workloads, s.pods, s.now).Tear? {
      TornIsUntainted(s, cfg, l, node);
    } else {
      KeptIsKept(s, cfg, l, node);
    }
  }

  lemma {:induction false} ChangeArms(w: Watch, t: State, node: string, cfg: Config)
    requires ValidConfig(cfg) && LegalBeat(w, Change(t), node) && Armed(w, node, cfg)
    ensures Armed(Changed(w, t, node, cfg.taintKey), node, cfg)
  {
    BoundGrows(w, cfg);
  }

  lemma {:induction false} BeatArms(w: Watch, b: Beat, node: string, cfg: Config)
    requires ValidConfig(cfg) && LegalBeat(w, b, node) && Armed(w, node, cfg)
    ensures Armed(Next(w, b, node, cfg), node, cfg)
  {
    match b {
      case Tick(_) =>
      case VisitNow(l) => VisitArms(w, l, node, cfg);
      case Change(t) => ChangeArms(w, t, node, cfg);
    }
  }

  ghost predicate TimedRun(w: Watch, bs: seq<Beat>, node: string, cfg: Config)
    decreases |bs|
  {
    bs == [] || (LegalBeat(w, bs[0], node) && TimedRun(Next(w, bs[0], node, cfg), bs[1..], node, cfg))
  }

  ghost function Last(w: Watch, bs: seq<Beat>, node: string, cfg: Config): Watch
    requires TimedRun(w, bs, node, cfg)
    decreases |bs|
  {
    if bs == [] then w else Last(Next(w, bs[0], node, cfg), bs[1..], node, cfg)
  }

  lemma {:induction false} RunArms(w: Watch, bs: seq<Beat>, node: string, cfg: Config)
    requires ValidConfig(cfg) && TimedRun(w, bs, node, cfg) && Armed(w, node, cfg)
    ensures Armed(Last(w, bs, node, cfg), node, cfg)
    decreases |bs|
  {
    if bs == [] {
    } else {
      BeatArms(w, bs[0], node, cfg);
      RunArms(Next(w, bs[0], node, cfg), bs[1..], node, cfg);
    }
  }

  /**
   In every timed run with its visits served, a node still tainted is within its clock's deadline or being
   visited this instant, and its tenancy is no older than a timeout for the start, one for every tampering and
   whatever clocks were set ahead of their time.
   */
  lemma {:induction false} TenancyBounded(w: Watch, bs: seq<Beat>, node: string, cfg: Config)
    requires ValidConfig(cfg) && !Owned(w.s, node, cfg.taintKey) && TimedRun(w, bs, node, cfg)
    ensures var end := Last(w, bs, node, cfg);
      Owned(end.s, node, cfg.taintKey) ==>
        && end.due.Some?
        && (end.due.value == end.s.now
            || (ClockOf(end.s.nodes[node]).Some? && end.s.now <= ClockOf(end.s.nodes[node]).value + cfg.drainTimeout))
        && end.s.now <= end.since + (end.breaks + 1) * cfg.drainTimeout + end.ahead
  {
    RunArms(w, bs, node, cfg);
  }
}
