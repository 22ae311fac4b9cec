/**
 Runs of both controllers against a changing cluster. A step is a reconcile, possibly cut short after some
 of its calls by a crash or an API failure, or an outside change.
 */
module Runs {
  import opened Kube
  import opened Clusters
  import opened DrainCalls
  import opened Janitor

  datatype Event =
    | Reconcile(listing: Listing, look: Look, key: Name, calls: nat)
    | Visit(listing: Listing, node: string, calls: nat)
    | Outside(after: State)

  ghost function CallsOf(s: State, e: Event, cfg: Config): seq<Call>
    requires ValidConfig(cfg) && (e.Outside? || Lists(e.listing, s))
  {
    match e
    case Reconcile(l, look, key, _) => ReconcileCalls(s, cfg, l, look, key)
    case Visit(l, node, _) => VisitCalls(s, cfg, l, node)
    case Outside(_) => []
  }

  /** The listing is of this cluster and the calls made are a prefix of the reconcile's. */
  ghost predicate Legal(s: State, e: Event, cfg: Config)
    requires ValidConfig(cfg)
  {
    if e.Outside? then WellFormed(e.after)
    else Lists(e.listing, s) && e.calls <= |CallsOf(s, e, cfg)|
  }

  ghost predicate ToTheEnd(s: State, e: Event, cfg: Config)
    requires ValidConfig(cfg) && Legal(s, e, cfg)
  {
    !e.Outside? ==> e.calls == |CallsOf(s, e, cfg)|
  }

  ghost function Step(s: State, e: Event, cfg: Config): State
    requires ValidConfig(cfg) && Legal(s, e, cfg)
  {
    if e.Outside? then e.after else Run(s, CallsOf(s, e, cfg)[..e.calls], cfg.taintKey)
  }

  lemma {:induction false} StepWellFormed(s: State, e: Event, cfg: Config)
    requires ValidConfig(cfg) && Legal(s, e, cfg) && WellFormed(s)
    ensures WellFormed(Step(s, e, cfg))
    ensures !e.Outside? ==> SameObjects(s, Step(s, e, cfg))
  {
    if !e.Outside? {
      RunSameObjects(s, CallsOf(s, e, cfg)[..e.calls], cfg.taintKey);
    }
  }

  lemma {:induction false} WholeStep(s: State, e: Event, cfg: Config)
    requires ValidConfig(cfg) && Legal(s, e, cfg) && ToTheEnd(s, e, cfg) && !e.Outside?
    ensures Step(s, e, cfg) == Run(s, CallsOf(s, e, cfg), cfg.taintKey)
  {
    assert CallsOf(s, e, cfg)[..e.calls] == CallsOf(s, e, cfg);
  }
}
