# Hero drains: the planner and the drain protocol

A hero is a large GPU workload that kueue cannot place because its topology domain is fragmented. The
controller empties a set of domains for it: it plans which domains to drain, taints their nodes, suspends
the kueue workloads running there, hands each of them back once kueue has evicted it, and takes the taints
down when the hero runs, goes away or takes too long. Nothing is kept in memory between reconciles: the
taints and annotations on nodes and the markers on workloads are the whole state.

The project models two cores and proves what holds of them for every input and every run.

**The planner.** `Snapshots` turns nodes and pods into per-domain capacity, victims and hero occupancy;
`Heroes` turns a hero into demand and topology levels; `Selection` scores domains and packs the demand
greedily over mutable candidates, each loop proved equal to a function. `Packing` and `Plans` say what the
greedy result means: sound, complete for divisor-chain demand, the shortest sufficient prefix for one chunk
size; `Optimality` and `Overpaying` say when the plan is the cheapest and when not. `Capacities` and
`Feasibility` account for domains and plans GPU by GPU, and `Placement` joins them: when a hero has a plan, said of
nodes, pods and workloads. `Progress` and `Replanning` compare two runs of the planner during a drain in flight.
`Conservation`, `Cache` and `NodeFilter` are about what the snapshot depends on.

**The protocol.** `Clusters` holds the API objects and the calls on them. `DrainCalls` and `Janitor` give a
reconcile as the sequence of API calls it makes; the classes `DrainReconciler.Reconciler` and
`Janitor.Reconciler` follow the source's control flow and are proved to make exactly those calls. A crash or
an API failure is a prefix of the sequence. `Runs`, `Marks`, `Suspensions` and `Counting` prove invariants
over all runs of reconciles, `Tenancy` over timed runs, `Exclusivity` over interleavings of single calls,
and `StaleReads` over one node with arbitrarily stale reads. `Entitlement` and `Eviction` connect the gates
and the plan to the calls that come out; `Outcomes` and `Visits` say of every branch of a reconcile and of every
visit what the cluster is afterwards.

Conventions. Resource quantities are natural numbers of milli-units, costs are reals, times are integers.
An annotation holding a timestamp is either a parsed time or some other text. Sorting is insertion by the
same order. Lists returned by the API come in an arbitrary order, one order per reconcile (`Listing`). What
kueue or other packages decide about a workload (hero or not, stuck, over quota, queue-order timestamp) is
a field of it. Run `dafny verify dfyconfig.toml`.

Where code and comments differ, the model follows the code:

- `pkg/selection/select.go:101` promises a minimum-cost set; the greedy packing can open a cheap small domain
  and then still need the large one (`Overpaying.GreedyOverpays`). It is the cheapest for one chunk size in a
  group whose domains hold equally many units and share no victims (`Optimality.UniformPlanIsCheapest`).
  Outside divisor-chain demand it can also miss a packing that exists (`Packing.GreedyMissesAPacking`).
- `AllFeasibleHeroOccupied` only means that some domain hosts another hero, feasible or not
  (`Plans.SelectMeaning`, `Plans.OccupiedButUseless`).
- `pkg/drain/order.go:60-64` speaks of unresolvable taints as drains of a zero owner; such taints never
  become a drain (`Clusters.NoDrainOfNobody`).
- `pkg/taint/taint.go:80-83` promises an error for a foreign owner; a taint of the key under another effect
  next to our own annotation is instead reported as "already ours" (`Taints.AlreadyOursUnowned`).
- `pkg/victims/victims.go:63-65` promises that no victim stays marked past its drain's end; the janitor
  untaints first, and a stop between untainting the last node and the end of its sweep leaves one
  (`Marks.TeardownCutLeaks`).

## Model

| member | source | states |
|---|---|---|
| Taints.OwnerRefRoundTrip | pkg/victims/victims.go:36-39 | the ownership text reads back as the hero exactly for names with no empty part and no slash in the namespace |
| Taints.EnsureTaintOwns | pkg/taint/taint.go:84-119 | a write takes an unowned node to the hero, keeps every other taint, and starts the clock only if none is recorded; another hero's node is refused, the hero's own is left alone |
| Taints.WrittenTaint | pkg/taint/taint.go:105-118 | the write appends one NoSchedule taint of the key whose value is the ClusterQueue name, and changes nothing but taints, owner and clock |
| Taints.EnsureTaintOwnsExactly | pkg/taint/taint.go:95-103 | after the call the hero owns the node if and only if the node had no taint of the key, or was already its own with the NoSchedule effect |
| Taints.AlreadyOursUnowned | pkg/taint/taint.go:95-101 | a PreferNoSchedule taint of the key beside our annotation is answered as already ours although nobody owns the node |
| Taints.RemoveOwnedTaintFrees | pkg/taint/taint.go:121-161 | it writes exactly on the hero's own nodes, leaves them unowned, and keeps every other taint in order |
| Taints.TaintUntaintRoundTrip | pkg/taint/taint.go:84-161 | tainting and then untainting gives the node back, drain annotations cleared |
| Taints.TryRemoveOwnedTaint | pkg/taint/taint.go:138-158 | the in-place filter over the read copy's taints is the removal specified, and reports "nothing removed" in the right cases |
| Taints.FindDrains | pkg/taint/taint.go:174-203 | the loop over any node list yields for every owner its nodes in list order and the earliest parseable clock |
| Taints.EarliestIsLeast | pkg/taint/taint.go:186-199 | the clock of a drain is the least of its nodes' readable clocks, and none exactly when none is readable |
| Clusters.DrainsInMeaning | pkg/taint/taint.go:174-203 | on a cluster, the drains found are exactly the owners of tainted nodes, each with exactly its nodes once, whatever the list order |
| Clusters.NoDrainOfNobody | pkg/drain/order.go:60-64 | every drain has an owner with a namespace and a name, so no unattributable taint ever is one |
| Snapshots.Build | pkg/snapshot/snapshot.go:111-189 | the node pass, the pod pass and the hero marks compute the snapshot function, for every input |
| Snapshots.MarkHeroDomains | pkg/snapshot/snapshot.go:244-276 | the three nested loops mark the domains the heroes' assignments resolve to and change nothing else |
| Snapshots.OccupiedIff | pkg/snapshot/snapshot.go:238-276 | a domain is marked if and only if some topology domain assigned to some other hero lies in it, by its value at the level or, without the level, by the host it names |
| SnapshotFacts.BuildSameNodes | pkg/snapshot/snapshot.go:112-138 | the snapshot depends on a node only through name, labels, usability for the hero and GPUs when usable |
| SnapshotFacts.OwnTaintKeepsUsability | pkg/snapshot/snapshot.go:205-222 | the hero's own drain taint changes no node's usability for it |
| SnapshotFacts.OwnTaintsInvisible | pkg/snapshot/snapshot.go:101-107 | tainting any nodes for the hero leaves the snapshot taken for it unchanged |
| SnapshotFacts.PlanNodes | pkg/selection/select.go:226-227 | the nodes of planned domains are exactly the nodes labelled into them, and there is at least one |
| Conservation.SnapshotConservesNodes | pkg/snapshot/snapshot.go:112-138 | over all domains the node lists are the labelled nodes, each once, and the allocatable GPUs those of the usable labelled nodes |
| Conservation.SnapshotConservesPods | pkg/snapshot/snapshot.go:140-185 | class by class: the victims are exactly the managed live GPU pods on labelled nodes, each once, and the non-reclaimable GPUs exactly those of fixed live GPU pods on usable labelled nodes |
| Conservation.ReclaimableIgnoresVictims | pkg/snapshot/snapshot.go:178-181 | removing any kueue-managed pods changes no domain's reclaimable capacity |
| Capacities.UsableMeaning | pkg/snapshot/snapshot.go:205-236 | a hero can land on a node exactly when it is schedulable, its last Ready condition is True and every NoSchedule or NoExecute taint is of the drain key on a node held by that hero |
| Capacities.AllocatableByNode | pkg/snapshot/snapshot.go:117-138 | a domain's allocatable GPUs are the sum over the nodes labelled into it where the hero can land; all other nodes add nothing |
| Capacities.NonReclaimableByPod | pkg/snapshot/snapshot.go:140-183 | its non-reclaimable GPUs are the sum over live, not terminating GPU pods on such nodes that lack the kueue annotation and match none of the non-blocking labels |
| Capacities.VictimsByPod | pkg/snapshot/snapshot.go:170-177 | its victims are exactly the live, not terminating, kueue-managed GPU pods on its nodes, each under its workload's name |
| Capacities.GroupByNode | pkg/snapshot/snapshot.go:127-131 | its group is the group label of the first of its nodes that has one, and empty exactly when none has |
| Heroes.SlicesCoverPods | pkg/hero/demand.go:48 | the slices are just enough for all pods: one fewer would not hold them |
| Heroes.Demand | pkg/hero/demand.go:30-66 | however chunks are merged, expanded they are exactly the podsets' slices, none is empty and no size is listed twice; they hold the GPUs of all slice podsets' pods and exceed them by less than one slice for each podset |
| Heroes.DemandOfOne | pkg/hero/demand.go:42-66 | a single slice podset with pods and GPUs is one chunk of slice-size times a pod's GPUs, as many as hold all pods and not one more; without slices, pods or GPUs there is no demand |
| Heroes.SlicesConcat | pkg/hero/demand.go:30-52 | the slices of podset lists put together are the slices of each |
| Heroes.CoarsestLevel | pkg/hero/topology.go:118-139 | answers exactly when all required levels are known, and then with the highest of them |
| Heroes.FinestLevel | pkg/hero/topology.go:141-162 | answers exactly when all required levels are known, and then with the lowest of them |
| Heroes.GroupingLevel | pkg/hero/topology.go:73-93 | fails exactly on an unknown required level; otherwise the finest required level at or above the drain level, or none |
| Heroes.GroupingUnique | pkg/hero/topology.go:73-93 | the grouping level is determined by the requirements and the hierarchy, not by podset order |
| Heroes.FinerRequirementIgnored | pkg/hero/topology.go:66-72 | adding a requirement finer than the drain level changes no grouping level |
| DrainCalls.LevelsMeaning | pkg/controller/drain/reconciler.go:709-748 | the level drained at is the coarsest any slice podset asks for, the grouping level the finest at or above it that one is bound to; none exactly without slices or with a level the hierarchy does not know |
| Selection.CostBounds | pkg/selection/cost.go:21-42 | a cost lies between zero and the cross-queue multiplier |
| Selection.CostGrows | pkg/selection/cost.go:8-42 | a victim of no higher priority, size and age costs no more, and being in the hero's own queue never costs more |
| Selection.CostFormula | pkg/selection/cost.go:21-42 | the cost is the weighted sum of three shares, each fixed by its own equation, times one in the hero's queue and times the cross-queue factor elsewhere |
| Selection.JoinedRecord | pkg/selection/victims.go:50-106 | a victim's record has its admitting queue, its priority or 0, its admitted pods or else the specified ones, and its age since admission, else quota reservation, else creation |
| Selection.GroupVictimsMeaning | pkg/selection/victims.go:32-60 | the known owners of the victim pods, each once, each with its own record |
| Selection.GroupVictims | pkg/selection/victims.go:38-60 | the loop with its seen-set computes that grouping |
| Selection.PackWithinGroup | pkg/selection/select.go:198-238 | the loop over mutable candidates, from any earlier packing state, computes the greedy packing of fresh candidates |
| Selection.SelectDomains | pkg/selection/select.go:115-194 | the answer is the selection function of the snapshot, hero, records and time: no map order or candidate state shows in it |
| Packing.BestSlotMeaning | pkg/selection/select.go:204-212 | the running best is preferred to every other candidate that can hold the unit |
| Packing.ChosenHome | pkg/selection/select.go:198-269 | whenever some domain can hold a unit one takes it: of all that can, the one that adds least to the cost, then one already in the plan, then the one with the most room left, then the smallest ID |
| Packing.OpensOnlyWhenNeeded | pkg/selection/select.go:240-262 | a unit opens a new domain only if no domain already in the plan can hold it |
| Packing.PackUnitsSound | pkg/selection/select.go:203-218 | the greedy choices assign every unit within capacity, and exactly the domains used are selected |
| Packing.GreedyComplete | pkg/selection/select.go:198-218 | for divisor-chain units a group packs if and only if some assignment of units to its domains within capacity exists |
| Packing.GreedyMissesAPacking | pkg/selection/select.go:198-218 | capacities 4 and 3 with units 3, 2, 2 fail although an assignment exists |
| Optimality.UniformPlanIsCheapest | pkg/selection/select.go:101-115 | for one chunk size the plan costs no more than any set of drainable domains of any group that holds the demand, when that group's drainable domains hold equally many units and share no victims |
| Optimality.UniformGreedyCheapest | pkg/selection/select.go:203-218 | among candidates that hold equally many units, no choice that holds all units sums to less than the greedy one |
| Overpaying.GreedyOverpays | pkg/selection/select.go:115-194 | on a concrete input the whole selection returns a plan that costs more than another set of the same group that holds the demand |
| Packing.OpensShortestPrefix | pkg/selection/select.go:203-269 | for one chunk size the selected domains are the shortest prefix by cost, then size, then ID whose whole-unit capacity covers the demand |
| Plans.SelectMeaning | pkg/selection/select.go:171-194 | a plan is returned if and only if some group packs, is the first cheapest over all groups, and the two refusals are told apart by hero occupancy |
| Plans.OccupiedButUseless | pkg/selection/select.go:132-140 | a hero-occupied domain without any GPU to free turns "no feasible domain" into "all feasible domains occupied" |
| Plans.SelectComplete | pkg/selection/select.go:101-115 | for divisor-chain demand there is a plan if and only if one group of drainable domains can hold the demand |
| Feasibility.PlannedIffFits | pkg/selection/select.go:79-115 | for divisor-chain demand there is a plan if and only if the units can be given whole to domains of one group, each without another hero, with victims below the hero only, and with load plus non-reclaimable within allocatable GPUs |
| Feasibility.NothingToFree | pkg/selection/select.go:131-194 | where non-reclaimable reaches allocatable in every domain there is no plan, and the refusal names occupancy exactly if some domain holds another hero |
| Plans.PlanSound | pkg/selection/select.go:115-238 | every unit sits whole in one planned domain within its reclaimable capacity; the domains are distinct, drainable, of one group and all used; victims are distinct, rank below the hero and are exactly those of the domains; the cost counts each once and is no other group's better |
| Feasibility.PlanFits | pkg/selection/select.go:79-238 | in every planned domain the units put there and the non-reclaimable GPUs together are within the allocatable ones |
| Feasibility.PlanEvictsOwners | pkg/selection/select.go:222-236 | a plan evicts exactly the known owners of victim pods in its domains |
| Placement.PlanMoves | pkg/controller/drain/reconciler.go:225-268 | on the cluster a reconcile reads: every plan puts the units where the GPUs of landable nodes less those of pods nothing moves suffice, away from every other settled hero, evicting lower priorities only |
| Placement.PlanIffMove | pkg/controller/drain/reconciler.go:225-268 | and for divisor-chain demand the hero has a plan if and only if such a move exists at all |
| Placement.OccupiedIffInhabited | pkg/controller/drain/reconciler.go:803-826 | a domain is off limits exactly while some other hero that is admitted and not finished has pods assigned to it |
| Plans.UnitsAreSlices | pkg/selection/select.go:158-166 | the units packed are the podsets' slices, largest first |
| Progress.PlanSurvives | pkg/controller/drain/reconciler.go:257-268 | a divisor-chain plan still exists as long as no drainable domain stops being drainable, whatever happens to costs |
| Progress.DrainNeverGrows | pkg/selection/select.go:177-262 | if only planned domains lost victims, the new plan stays in the same group, within the old domains, at no higher cost |
| Replanning.ReplanNeverGrows | pkg/selection/select.go:177-262 | on nodes and pods: after tainting any nodes for the hero and removing any planned victims' pods, the planner's new plan is within the old one |
| Replanning.OwnProgressNeverAborts | pkg/controller/drain/reconciler.go:257-268 | a hero with a plan still has one after any kueue-managed pods left, any nodes got its taint, time passed and records changed, unless a victim's owner rises to the hero's priority; so its own work never takes the abort branch |
| Replanning.ResumePlansTheSame | pkg/controller/drain/reconciler.go:218-223 | after a crash at any point of tainting, the resumed reconcile computes the identical plan |
| Replanning.TriesTaintExactly | pkg/controller/drain/reconciler.go:285-293 | however often and wherever the taint loop is cut short, the hero owns exactly the nodes some try reached and those it owned before, and each clock is the time of the first try that reached the free node |
| Replanning.ResumeTaintsExactlyThePlan | pkg/controller/drain/reconciler.go:218-223 | after any number of crashes a try that gets through leaves exactly the plan's nodes, beside those owned before, tainted for the hero, every clock as first written |
| Replanning.PlanAvoidsOtherHeroes | pkg/selection/select.go:131-140 | no planned domain holds any part of another admitted hero's assignment |
| Replanning.PlanHonoursRequiredLevels | pkg/hero/topology.go:53-93 | where finer labels determine coarser ones, all nodes of a plan agree on every required level at or above the drain level |
| Cache.PodObject.Transform | pkg/cache/cache.go:63-95 | the in-place strip, compacting the container slice over its own backing array, leaves exactly the GPU-asking containers reduced to their GPU quantities |
| Cache.TransformNode | pkg/cache/cache.go:107-123 | the loop keeps exactly the Ready conditions, in order, and everything of metadata and spec |
| Cache.StripToResources | pkg/cache/cache.go:152-162 | the in-place loop maps every container to its resources |
| Cache.CacheAgrees | pkg/cache/cache.go:38-123 | the snapshot built from the filtered, stripped cache is the one built from the whole objects |
| Cache.CacheKeepsDrains | pkg/cache/cache.go:97-123 | the drains read back from stripped nodes are those on the whole nodes |
| Cache.TaintWriteThroughCache | pkg/cache/cache.go:97-106 | a taint write computed on a stripped node is the write on the whole node, stripped |
| Cache.StrippedDemand | pkg/cache/cache.go:125-150 | slices, pod count and required levels of a stripped workload are those of the whole one |
| Cache.TransformsIdempotent | pkg/cache/cache.go:55-162 | stripping twice is stripping once, for pods, nodes and podsets |
| Cache.StrippedPodHolds | pkg/cache/cache.go:63-95 | of a cached pod only identity, place, phase, labels, the kueue annotation and bare GPU quantities are left |
| Cache.StrippedNodeHolds | pkg/cache/cache.go:107-123 | a cached node keeps metadata and spec whole, and of its status the capacity and exactly the Ready conditions |
| NodeFilter.DroppedIsHarmlessIff | pkg/controller/drain/reconciler.go:868-913 | a dropped node update changes no snapshot, for any hero, levels and cluster around it, if and only if the GPU quantity is the same, or the node is unusable for its owner, or it carries no non-empty label |
| NodeFilter.DroppedUpdatesInvisible | pkg/controller/drain/reconciler.go:875-913 | with whole GPUs, dropped updates leave every snapshot and the drains in flight unchanged |
| NodeFilter.NoiseIsDropped | pkg/controller/drain/reconciler.go:868-913 | updates of heartbeats and conditions that keep the readiness, of images and of foreign annotations are dropped; updates of labels never |
| NodeFilter.FractionalGpuSlipsThrough | pkg/controller/drain/reconciler.go:897-908 | half a GPU becoming a whole one on a labelled node is dropped although the two snapshots differ |
| Order.HeroBeforeIsOrder | pkg/drain/order.go:46-58 | the line is a strict order, total on distinct keys (who comes first in it is in Order.NextHero) |
| Order.NextHero | pkg/drain/order.go:32-58 | the answer is one of the stuck heroes, and none of them has a higher priority, an equal one and an earlier queue time, or both equal and a smaller namespace and name |
| Order.OneFrontRunner | pkg/drain/order.go:32-44 | lists of the same stuck heroes in any order give the same next hero |
| Order.BlockingDrain | pkg/drain/order.go:60-84 | none if and only if no other owner has a drain; otherwise the first other owner's, whatever the map order |
| Clusters.ApiServer.EnsureTaint | pkg/taint/taint.go:84-119 | the new cluster is the taint call's, and it fails exactly for an over-long queue name, a missing node or a foreign taint |
| Clusters.ApiServer.Reactivate | pkg/victims/victims.go:41-58 | active again and unmarked in one patch, counted once |
| Clusters.ApiServer.SweepFor | pkg/victims/victims.go:60-79 | reactivates every workload marked for the owner and returns how many |
| Clusters.SweepEffect | pkg/victims/victims.go:60-79 | after a sweep exactly the owner's marked workloads are active and unmarked, and no other workload changed |
| DrainCalls.OccupantsMeaning | pkg/controller/drain/reconciler.go:426-463 | the occupants are the workloads with a live managed pod on the nodes, each once, never the hero |
| DrainReconciler.Reconciler.VictimWorkloadsOn | pkg/controller/drain/reconciler.go:431-463 | the nested loops list the occupants in order |
| DrainReconciler.Reconciler.CycleVictims | pkg/controller/drain/reconciler.go:307-371 | suspends the active occupants, returns the evicted victims, nudges only when nobody is left |
| DrainReconciler.Reconciler.AbortDrain | pkg/controller/drain/reconciler.go:541-568 | sweeps, then untaints the drain's nodes, then counts |
| DrainReconciler.Reconciler.DrainLevel | pkg/controller/drain/reconciler.go:709-748 | the coarsest slice level with its grouping level, or none exactly when a level cannot be resolved |
| DrainReconciler.Reconciler.Reconcile | pkg/controller/drain/reconciler.go:97-305 | one reconcile leaves the cluster as the sequence of calls says, through every gate and phase |
| Outcomes.EveryReconcile | pkg/controller/drain/reconciler.go:106-305 | the reconcile of an unmarked workload is one of four: idle, ending its drain, cycling for an unstuck hero, or draining to a plan |
| Outcomes.StoppedDrainEnds | pkg/controller/drain/reconciler.go:140-268 | with a drain of its own and no hero any more, or stuck and over quota, or stuck and without a plan on its turn: afterwards it holds no node and no marker, one more end is counted, its victims are active again, nothing else changed and nobody was suspended |
| Outcomes.UnstuckHeroCycles | pkg/controller/drain/reconciler.go:157-169 | a hero no longer stuck keeps its nodes, and exactly the workloads living on them are suspended, or handed back once evicted |
| Outcomes.PlannedDrainRuns | pkg/controller/drain/reconciler.go:285-305 | a hero whose turn has come and who has a plan taints its nodes and, if no taint fails, cycles those living on them, counting a start unless it had a drain |
| Outcomes.TaintLoopExactly | pkg/controller/drain/reconciler.go:285-293 | the taint loop gets through exactly when the queue name fits and every node exists and carries the key's taint only beside the hero's annotation; then each free node has the taint, the annotation and a clock |
| Outcomes.IdleReconcile | pkg/controller/drain/reconciler.go:106-283 | missing, inactive, queued, behind another, unresolvable, infeasible without a drain, or dry-run: the cluster stays as it is |
| Outcomes.VictimEventExactly | pkg/controller/drain/reconciler.go:480-506 | a suspended victim's own event hands it back exactly when its hero is gone or kueue evicted it for the deactivation; otherwise it stays suspended |
| Outcomes.CycleNudges | pkg/controller/drain/reconciler.go:364-391 | a nudge is written exactly when no victim lives on the nodes, the hero is not admitted and the first node by name is due for one; no other part of any node changes |
| DrainCalls.StartRuns | pkg/controller/drain/reconciler.go:285-304 | a start stops at the first failed taint with nobody suspended, or counts and cycles |
| Entitlement.OnlyEntitledTaint | pkg/controller/drain/reconciler.go:114-223 | a reconcile that taints is for an active, unmarked, stuck hero within quota, outside dry-run, while all drained nodes are its own; and if it has none, no waiting hero comes before it by priority, queue time or name |
| Entitlement.FrontIsForemost | pkg/controller/drain/reconciler.go:189-216 | the front of the line is exactly the active, stuck hero that no other such hero comes before |
| Entitlement.OneEntitled | pkg/controller/drain/reconciler.go:189-216 | on one cluster at most one workload is entitled to taint, whatever order its reconcile lists objects in |
| Entitlement.OnlyVictimsSuspended | pkg/controller/drain/reconciler.go:321-342 | a reconcile suspends only active workloads with live managed pods, never a hero-classed one or its own, marks them with its own key, and does so only for an active, unmarked hero |
| Eviction.PlannedVictimsAreOccupants | pkg/controller/drain/reconciler.go:426-463 | every workload the plan evicts is among the occupants of the plan's nodes |
| Eviction.CycleExactly | pkg/controller/drain/reconciler.go:312-371 | a whole cycle changes every workload as stated: active victims on the nodes suspended, this drain's evicted ones handed back, everybody else untouched |
| Eviction.PlannedVictimsSuspended | pkg/controller/drain/reconciler.go:285-371 | after the reconcile that tainted its plan every planned victim that is not hero-classed is inactive, except exactly those found already evicted by a deactivation, which the same cycle hands back |
| Exclusivity.ReconcileAuthorized | pkg/controller/drain/reconciler.go:179-187 | a reconcile's taints are for its own workload only, and only when no other hero holds one |
| Exclusivity.PhasesMayBeDecided | pkg/controller/drain/reconciler.go:225-304 | each phase, worked out from any later state, taints for its own workload only, and only the start of a drain needs the gate |
| Exclusivity.VisitNeverTaints | pkg/controller/janitor/reconciler.go:87-191 | no janitor visit puts a taint on any node |
| Exclusivity.OneDrainAtATime | pkg/controller/drain/reconciler.go:844-858 | over every interleaving of single calls with the janitor, crashes and outside changes, the worker deciding anew after the gate as often as it likes, all attributable taints name one hero |
| Exclusivity.TwoWorkersCollide | pkg/controller/drain/reconciler.go:844-858 | two concurrent workers could both pass the gate and leave two drains, so the single worker is essential |
| StaleReads.WriteHandsOver | pkg/taint/taint.go:89-158 | an accepted write hands the node from nobody to its hero or from its hero to nobody |
| StaleReads.NeverHeroToHero | pkg/taint/taint.go:84-161 | with reads of any past version and version-checked updates, between versions owned by different heroes lies an unowned one |
| StaleReads.WritesKeepForeignState | pkg/taint/taint.go:76-79 | however stale the reads, each controller write keeps other taints in order and every other field of the version before |
| Marks.NoMarkOutlivesItsDrain | pkg/controller/drain/reconciler.go:285-304 | over all runs, with drain reconciles stopped after any call and visits anywhere but at a leaking cut, every marked workload's owner still holds a tainted node |
| Marks.ReconcileSafe | pkg/controller/drain/reconciler.go:541-568 | no call of a drain reconcile, in the order made, can leave a marker without a drain |
| Marks.VisitCutBacked | pkg/controller/janitor/reconciler.go:296-329 | a visit stopped after any number of its calls keeps every marker backed if and only if it did not stop between untainting a drain's last node and the end of its sweep |
| Marks.WholeVisitBacked | pkg/controller/janitor/reconciler.go:296-329 | a visit run to its end keeps every marker backed by a drain |
| Marks.TeardownCutLeaks | pkg/controller/janitor/reconciler.go:304-321 | for every cut of a teardown: a marker is left without a drain exactly when the node was the last, it is untainted and victims are left to sweep |
| Marks.DishonestNodeLeaks | pkg/taint/taint.go:95-101 | a node taken for already ours over a taint of another effect lets a drain mark victims with no drain on record |
| Suspensions.SuspensionsConserved | pkg/controller/drain/reconciler.go:312-362 | over all runs, reconciles cut short anywhere: suspended minus reactivated is the number of marked workloads, marked ones are inactive, unmarked ones are as their users left them |
| Suspensions.ReconcileGuarded | pkg/controller/drain/reconciler.go:480-525 | through cycle, victim event and abort alike, only active workloads are suspended and only marked ones reactivated |
| Suspensions.VisitGuarded | pkg/controller/janitor/reconciler.go:319-321 | the janitor's sweep reactivates only marked workloads |
| Suspensions.StaleReactivationMiscounts | pkg/victims/victims.go:43-58 | a reactivation keeps the counters balanced exactly when the workload is still marked |
| Suspensions.StaleSuspensionMiscounts | pkg/controller/drain/reconciler.go:508-525 | a suspension keeps the counters balanced exactly when the workload is not yet marked |
| Counting.DrainsCountedOnce | pkg/controller/janitor/reconciler.go:296-317 | over all runs of whole reconciles, drains started are drains completed plus the drains found on the nodes |
| Counting.ReconcileCounted | pkg/controller/drain/reconciler.go:294-296 | starting, resuming, cycling or aborting keeps that balance |
| Counting.VisitCounted | pkg/controller/janitor/reconciler.go:296-317 | tearing down node by node counts the drain at its last node and only there |
| Counting.PlanNodesExist | pkg/controller/drain/reconciler.go:285-293 | a planned drain always has nodes to taint and all of them exist |
| Janitor.Reconciler.AssignmentTouchesNode | pkg/controller/janitor/reconciler.go:220-244 | the loops find whether any assigned domain is this node by host name or by its label at the lowest level |
| Janitor.Reconciler.CountAdmitted | pkg/controller/janitor/reconciler.go:263-282 | admitted counts when there are any, else the spec counts |
| Janitor.Reconciler.Teardown | pkg/controller/janitor/reconciler.go:284-329 | counts a drain's last node, untaints, then sweeps, in that order |
| Janitor.Reconciler.Reconcile | pkg/controller/janitor/reconciler.go:67-191 | one visit leaves the cluster as the ladder's verdict says and asks for the wake-up it implies |
| Visits.VisitExactly | pkg/controller/janitor/reconciler.go:87-329 | an owned node stays tainted exactly while its hero exists, is active, unfinished, is unadmitted or has pods assigned to this very node with fewer running than admitted, and its clock is unreadable or not run out; otherwise it is freed, the drain's markers are handed back, and the drain has ended if no other node is the hero's |
| Visits.TouchesMeaning | pkg/controller/janitor/reconciler.go:220-244 | the placement test holds exactly when some assigned domain is this node's host name, or its label at the lowest assigned level with pods counted there |
| Visits.UnownedLeftAlone | pkg/controller/janitor/reconciler.go:87-105 | a visit of a missing or unowned node changes nothing |
| Tenancy.DeadlineTearsDown | pkg/controller/janitor/reconciler.go:172-190 | past the deadline the verdict is a teardown for the owner, whatever the hero, its pods and its admission look like |
| Tenancy.VisitServesDeadline | pkg/controller/janitor/reconciler.go:158-190 | a visit at or past the deadline frees the node whatever the hero's state; one that keeps the taint returns at the deadline after a positive delay, within a timeout exactly when the clock is not ahead |
| Tenancy.ClockKept | pkg/taint/taint.go:95-116 | no call but an untaint or the janitor's restart moves a tainted node's clock |
| Tenancy.ClocksNotAhead | pkg/taint/taint.go:114-116 | no reconcile writes a clock that is ahead of now |
| Tenancy.TenancyBounded | pkg/controller/janitor/reconciler.go:158-190 | in timed runs with visits served, a node still tainted is within its clock's deadline or being visited, and held no longer than a timeout for the start, one per tampering with its clock, and what clocks were set ahead of their time |

## Left out

- Manager wiring, flags, metrics registration, events, log text, Helm charts and CRDs.
- kueue's admission and eviction and the API server's internals: outside steps and versioned objects.
- RFC 3339 parsing, sub-second truncation, float rounding and int32 overflow: integers, naturals and reals.
- Stuck-condition matching, toleration matching, ClusterQueue and quota lookups: fields of the workload or
  inputs of the reconcile; configuration validation is the precondition `ValidConfig`.
- Decoding of topology assignments: taken as one value per level; a domain with fewer values than levels
  is treated as naming no domain, where the source would not get that far.
- One list order is used throughout a reconcile, although two lists of the source could be ordered differently.
- Requeue delays of the drain reconcile: only the janitor's wake-ups are modelled.
- Completion outcome labels and the timed-out and in-flight gauges: only the started, completed, suspended
  and reactivated counts are kept.
- Marks.NoMarkOutlivesItsDrain: visits do not stop at a leaking cut, outside steps write no markers and take no
  attributable taint away, and where an owner annotation stands beside a taint of the key its NoSchedule taint
  is there too (`Marks.Honest`; `Marks.DishonestNodeLeaks` shows why).
- Marks.ReconcileSafe: the same condition on owner annotations.
- Counting.DrainsCountedOnce: reconciles run to their end, as the counter promises at-least-once counting under
  crashes, and every taint of the key is a NoSchedule taint with a readable owner (`Counting.Clean`).
- Tenancy.TenancyBounded: per node and per tenancy; re-tainting a node starts a new one. Visits that are due
  happen and succeed before time passes.
- Whether the hero line moves on: an over-quota or infeasible front-runner holds it, so nothing is claimed.
- Leftover annotations under races of patches without version checks: the code does not recheck the taint.
