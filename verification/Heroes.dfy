/** pkg/hero: the hero's demand in slices, and the topology levels it drains at and groups by. */
module Heroes {
  import opened Base
  import opened Kube

  predicate RequiresSliceTopology(ps: PodSet) {
    ps.topology.Some? &&
    var tr := ps.topology.value;
    && tr.sliceRequired.Some? && tr.sliceRequired.value != ""
    && tr.sliceSize.Some? && tr.sliceSize.value > 0
  }

  // ---- demand ----

  datatype Chunk = Chunk(size: nat, count: nat)

  function SliceGpu(ps: PodSet, gpu: string): nat
    requires RequiresSliceTopology(ps)
  {
    ps.topology.value.sliceSize.value * GpuRequest(ps.containers, gpu)
  }

  function SliceCount(ps: PodSet): nat
    requires RequiresSliceTopology(ps)
  {
    var size := ps.topology.value.sliceSize.value;
    (ps.count + size - 1) / size
  }

  /** The slices are just enough to hold every pod of the podset. */
  lemma {:induction false} SlicesCoverPods(ps: PodSet)
    requires RequiresSliceTopology(ps)
    ensures var size := ps.topology.value.sliceSize.value;
      && SliceCount(ps) * size >= ps.count
      && (SliceCount(ps) > 0 ==> (SliceCount(ps) - 1) * size < ps.count)
  {
    var size := ps.topology.value.sliceSize.value;
    var x := ps.count + size - 1;
    assert x == (x / size) * size + x % size;
    assert (SliceCount(ps) - 1) * size == SliceCount(ps) * size - size;
  }

  /** The GPU slices the podsets ask for, one by one and unmerged. */
  function Slices(podSets: seq<PodSet>, gpu: string): seq<nat> {
    if podSets == [] then []
    else
      var rest, ps := Slices(podSets[..|podSets| - 1], gpu), podSets[|podSets| - 1];
      if RequiresSliceTopology(ps) && SliceGpu(ps, gpu) > 0
      then rest + Repeat(SliceGpu(ps, gpu), SliceCount(ps)) else rest
  }

  /** The chunks spelled out: count units of size each. */
  function Expand(chunks: seq<Chunk>): seq<nat> {
    if chunks == [] then []
    else Expand(chunks[..|chunks| - 1]) + Repeat(chunks[|chunks| - 1].size, chunks[|chunks| - 1].count)
  }

  lemma {:induction false} ExpandConcat(a: seq<Chunk>, b: seq<Chunk>)
    ensures Expand(a + b) == Expand(a) + Expand(b)
  {
    if b == [] {
      assert a + b == a;
    } else {
      assert (a + b)[..|a + b| - 1] == a + b[..|b| - 1];
      ExpandConcat(a, b[..|b| - 1]);
    }
  }

  lemma {:induction false} ExpandSplit(l: seq<Chunk>, c: Chunk, r: seq<Chunk>)
    ensures multiset(Expand(l + [c] + r))
      == multiset(Expand(l)) + multiset(Repeat(c.size, c.count)) + multiset(Expand(r))
  {
    ExpandConcat(l + [c], r);
    ExpandConcat(l, [c]);
    assert [c][..0] == [];
    assert Expand([c]) == [] + Repeat(c.size, c.count);
  }

  lemma {:induction false} ExpandMore(l: seq<Chunk>, c: Chunk, r: seq<Chunk>, count: nat)
    ensures multiset(Expand(l + [Chunk(c.size, c.count + count)] + r))
      == multiset(Expand(l + [c] + r)) + multiset(Repeat(c.size, count))
  {
    ExpandSplit(l, c, r);
    ExpandSplit(l, Chunk(c.size, c.count + count), r);
    assert Repeat(c.size, c.count + count) == Repeat(c.size, c.count) + Repeat(c.size, count);
  }

  lemma {:induction false} ExpandUpdate(chunks: seq<Chunk>, i: nat, count: nat)
    requires i < |chunks|
    ensures multiset(Expand(chunks[i := Chunk(chunks[i].size, chunks[i].count + count)]))
      == multiset(Expand(chunks)) + multiset(Repeat(chunks[i].size, count))
  {
    var c := chunks[i];
    ExpandMore(chunks[..i], c, chunks[i + 1..], count);
    assert chunks == chunks[..i] + [c] + chunks[i + 1..];
    assert chunks[i := Chunk(c.size, c.count + count)]
      == chunks[..i] + [Chunk(c.size, c.count + count)] + chunks[i + 1..];
  }

  // ---- what the slices add up to ----

  /** The podset asks for whole slices at a named level. */
  ghost predicate AsksForSlices(ps: PodSet) {
    match ps.topology
    case Some(TopologyRequest(_, Some(level), Some(size))) => level != "" && size > 0
    case _ => false
  }

  /** The GPUs of all the pods of slice podsets. */
  ghost function WantedGpu(podSets: seq<PodSet>, gpu: string): nat {
    if podSets == [] then 0
    else
      var rest, ps := WantedGpu(podSets[..|podSets| - 1], gpu), podSets[|podSets| - 1];
      if AsksForSlices(ps) then rest + ps.count * GpuRequest(ps.containers, gpu) else rest
  }

  /** One slice less a pod for every slice podset: what rounding up may add. */
  ghost function RoundingGpu(podSets: seq<PodSet>, gpu: string): nat {
    if podSets == [] then 0
    else
      var rest, ps := RoundingGpu(podSets[..|podSets| - 1], gpu), podSets[|podSets| - 1];
      if AsksForSlices(ps) then rest + (ps.topology.value.sliceSize.value - 1) * GpuRequest(ps.containers, gpu)
      else rest
  }

  lemma {:induction false} TimesMore(a: nat, b: nat, g: nat)
    requires a <= b
    ensures a * g <= b * g
  {
    assert b * g == a * g + (b - a) * g;
  }

  lemma {:induction false} SliceSum(k: nat, s: nat, g: nat, c: nat)
    requires s > 0 && k * s >= c && (k > 0 ==> (k - 1) * s < c)
    ensures c * g <= k * (s * g) <= c * g + (s - 1) * g
  {
    var whole := k * s;
    assert k * (s * g) == whole * g;
    assert k > 0 ==> (k - 1) * s == whole - s;
    assert k == 0 ==> whole == 0;
    TimesMore(c, whole, g);
    TimesMore(whole, c + (s - 1), g);
    assert (c + (s - 1)) * g == c * g + (s - 1) * g;
  }

  /** The slices of one podset: each a slice size of its pods' GPUs, as many as it takes to hold them all. */
  lemma {:induction false} SlicesOfOne(ps: PodSet, gpu: string) returns (k: nat)
    ensures !AsksForSlices(ps) ==> Slices([ps], gpu) == []
    ensures AsksForSlices(ps) ==>
      var s, g := ps.topology.value.sliceSize.value, GpuRequest(ps.containers, gpu);
      && k * s >= ps.count && (k > 0 ==> (k - 1) * s < ps.count)
      && Slices([ps], gpu) == if g > 0 then Repeat(s * g, k) else []
  {
    k := 0;
    assert Slices([ps][..0], gpu) == [];
    if RequiresSliceTopology(ps) {
      k := SliceCount(ps);
      SlicesCoverPods(ps);
      ProductPositive(ps.topology.value.sliceSize.value, GpuRequest(ps.containers, gpu));
    }
  }

  lemma {:induction false} ProductPositive(s: nat, g: nat)
    requires s > 0
    ensures s * g > 0 <==> g > 0
  {
  }

  lemma {:induction false} SlicesConcat(a: seq<PodSet>, b: seq<PodSet>, gpu: string)
    ensures Slices(a + b, gpu) == Slices(a, gpu) + Slices(b, gpu)
  {
    if b == [] {
      assert a + b == a;
    } else {
      var n := |b| - 1;
      assert (a + b)[..|a + b| - 1] == a + b[..n];
      SlicesConcat(a, b[..n], gpu);
    }
  }

  /** The slices hold the GPUs of all the slice podsets' pods, and less than one more slice for each. */
  lemma {:induction false} SlicesSum(podSets: seq<PodSet>, gpu: string)
    ensures WantedGpu(podSets, gpu) <= Sum(Slices(podSets, gpu)) <= WantedGpu(podSets, gpu) + RoundingGpu(podSets, gpu)
  {
    if podSets == [] {
    } else {
      var n := |podSets| - 1;
      var ps := podSets[n];
      SlicesSum(podSets[..n], gpu);
      SlicesConcat(podSets[..n], [ps], gpu);
      assert podSets == podSets[..n] + [ps];
      SumConcat(Slices(podSets[..n], gpu), Slices([ps], gpu));
      SliceSumOfOne(ps, gpu);
    }
  }

  lemma {:induction false} SliceSumOfOne(ps: PodSet, gpu: string)
    ensures if AsksForSlices(ps) then
        var wanted := ps.count * GpuRequest(ps.containers, gpu);
        wanted <= Sum(Slices([ps], gpu))
          <= wanted + (ps.topology.value.sliceSize.value - 1) * GpuRequest(ps.containers, gpu)
      else Slices([ps], gpu) == []
  {
    var k := SlicesOfOne(ps, gpu);
    if AsksForSlices(ps) {
      SumOfSlices(Slices([ps], gpu), k, ps.topology.value.sliceSize.value, GpuRequest(ps.containers, gpu), ps.count);
    }
  }

  lemma {:induction false} SumOfSlices(slices: seq<nat>, k: nat, s: nat, g: nat, c: nat)
    requires s > 0 && k * s >= c && (k > 0 ==> (k - 1) * s < c)
    requires slices == if g > 0 then Repeat(s * g, k) else []
    ensures c * g <= Sum(slices) <= c * g + (s - 1) * g
  {
    if g > 0 {
      var size: nat := s * g;
      SliceSum(k, s, g, c);
      SumRepeat(size, k);
      assert slices == Repeat(size, k);
    }
  }

  predicate DistinctSizes(chunks: seq<Chunk>) {
    forall i, j :: 0 <= i < j < |chunks| ==> chunks[i].size != chunks[j].size
  }

  predicate NoEmptyChunk(chunks: seq<Chunk>) {
    forall i :: 0 <= i < |chunks| ==> chunks[i].size > 0 && chunks[i].count > 0
  }

  lemma {:induction false} MergedChunk(chunks: seq<Chunk>, i: nat, count: nat)
    requires i < |chunks| && DistinctSizes(chunks)
    ensures var r := chunks[i := Chunk(chunks[i].size, chunks[i].count + count)];
      && DistinctSizes(r) && (NoEmptyChunk(chunks) ==> NoEmptyChunk(r))
      && multiset(Expand(r)) == multiset(Expand(chunks)) + multiset(Repeat(chunks[i].size, count))
  {
    ExpandUpdate(chunks, i, count);
  }

  lemma {:induction false} AddedChunk(chunks: seq<Chunk>, size: nat, count: nat)
    requires DistinctSizes(chunks) && size > 0 && count > 0
    requires forall j :: 0 <= j < |chunks| ==> chunks[j].size != size
    ensures var r := chunks + [Chunk(size, count)];
      && DistinctSizes(r) && (NoEmptyChunk(chunks) ==> NoEmptyChunk(r))
      && multiset(Expand(r)) == multiset(Expand(chunks)) + multiset(Repeat(size, count))
  {
    assert (chunks + [Chunk(size, count)])[..|chunks|] == chunks;
  }

  /** Adds count units of size, merged into an equal-size chunk when there is one. */
  method AppendChunk(chunks: seq<Chunk>, size: nat, count: nat) returns (r: seq<Chunk>)
    requires DistinctSizes(chunks)
    ensures DistinctSizes(r)
    ensures NoEmptyChunk(chunks) ==> NoEmptyChunk(r)
    ensures multiset(Expand(r))
      == multiset(Expand(chunks)) + (if size == 0 then multiset{} else multiset(Repeat(size, count)))
  {
    if size == 0 || count == 0 {
      return chunks;
    }
    for i := 0 to |chunks|
      invariant forall j :: 0 <= j < i ==> chunks[j].size != size
    {
      if chunks[i].size == size {
        MergedChunk(chunks, i, count);
        return chunks[i := Chunk(size, chunks[i].count + count)];
      }
    }
    AddedChunk(chunks, size, count);
    r := chunks + [Chunk(size, count)];
  }

  method SliceSize(ps: PodSet, gpu: string) returns (size: nat)
    requires RequiresSliceTopology(ps)
    ensures size == SliceGpu(ps, gpu)
  {
    var perPod := GpuRequest(ps.containers, gpu);
    size := 0;
    for k := 0 to ps.topology.value.sliceSize.value
      invariant size == k * perPod
    {
      size := size + perPod;
    }
  }

  /**
   Whatever is merged, the demand is exactly the podsets' slices, each size listed once: the GPUs of all slice
   podsets' pods, and less than one more slice for each podset.
   */
  method Demand(podSets: seq<PodSet>, gpu: string) returns (chunks: seq<Chunk>)
    ensures multiset(Expand(chunks)) == multiset(Slices(podSets, gpu))
    ensures DistinctSizes(chunks) && NoEmptyChunk(chunks)
    ensures WantedGpu(podSets, gpu) <= Sum(Expand(chunks)) <= WantedGpu(podSets, gpu) + RoundingGpu(podSets, gpu)
  {
    chunks := [];
    for i := 0 to |podSets|
      invariant multiset(Expand(chunks)) == multiset(Slices(podSets[..i], gpu))
      invariant DistinctSizes(chunks) && NoEmptyChunk(chunks)
    {
      var ps := podSets[i];
      assert podSets[..i + 1][..i] == podSets[..i];
      if !RequiresSliceTopology(ps) {
        continue;
      }
      var size := SliceSize(ps, gpu);
      chunks := AppendChunk(chunks, size, SliceCount(ps));
    }
    assert podSets[..|podSets|] == podSets;
    SlicesSum(podSets, gpu);
    SumReordered(Expand(chunks), Slices(podSets, gpu));
  }

  /** A single slice podset with pods and GPUs is one chunk: slices of slice-size pods, one fewer would not do. */
  lemma {:induction false} DemandOfOne(ps: PodSet, gpu: string, chunks: seq<Chunk>)
    requires multiset(Expand(chunks)) == multiset(Slices([ps], gpu)) && DistinctSizes(chunks) && NoEmptyChunk(chunks)
    ensures !AsksForSlices(ps) || ps.count == 0 || GpuRequest(ps.containers, gpu) == 0 ==> chunks == []
    ensures AsksForSlices(ps) && ps.count > 0 && GpuRequest(ps.containers, gpu) > 0 ==>
      var s := ps.topology.value.sliceSize.value;
      && |chunks| == 1 && chunks[0].size == s * GpuRequest(ps.containers, gpu)
      && (chunks[0].count - 1) * s < ps.count <= chunks[0].count * s
  {
    var k := SlicesOfOne(ps, gpu);
    forall i | 0 <= i < |chunks| ensures chunks[i].size in Slices([ps], gpu) {
      ExpandHas(chunks, i);
      assert chunks[i].size in multiset(Expand(chunks));
    }
    if |chunks| == 1 {
      assert chunks[..0] == [];
      assert Expand(chunks) == [] + Repeat(chunks[0].size, chunks[0].count);
    }
    assert |multiset(Expand(chunks))| == |Slices([ps], gpu)|;
  }

  lemma {:induction false} ExpandHas(chunks: seq<Chunk>, i: nat)
    requires i < |chunks| && chunks[i].count > 0
    ensures chunks[i].size in Expand(chunks)
  {
    var n := |chunks| - 1;
    if i < n {
      ExpandHas(chunks[..n], i);
    } else {
      assert Repeat(chunks[n].size, chunks[n].count)[0] in Repeat(chunks[n].size, chunks[n].count);
    }
  }

  function PodCount(podSets: seq<PodSet>): nat {
    SpecPodCount(podSets)
  }

  // ---- topology levels, ordered from the coarsest to the finest ----

  /** The slice levels that make the podsets drain-relevant. */
  function SliceLevels(podSets: seq<PodSet>): set<string> {
    set ps | ps in podSets && RequiresSliceTopology(ps) :: ps.topology.value.sliceRequired.value
  }

  predicate DeclaresRequired(ps: PodSet) {
    RequiresSliceTopology(ps) && ps.topology.value.required.Some? && ps.topology.value.required.value != ""
  }

  /** The podset-level required levels of those podsets. */
  function RequiredLevels(podSets: seq<PodSet>): set<string> {
    set ps | ps in podSets && DeclaresRequired(ps) :: ps.topology.value.required.value
  }

  ghost predicate Distinct(s: seq<string>) {
    forall i, j :: 0 <= i < j < |s| ==> s[i] != s[j]
  }

  method RequiredTopologyLevels(podSets: seq<PodSet>) returns (levels: seq<string>)
    ensures Elements(levels) == SliceLevels(podSets) && Distinct(levels)
  {
    levels := [];
    for i := 0 to |podSets|
      invariant Elements(levels) == SliceLevels(podSets[..i]) && Distinct(levels)
    {
      assert podSets[..i + 1] == podSets[..i] + [podSets[i]];
      if RequiresSliceTopology(podSets[i]) {
        var level := podSets[i].topology.value.sliceRequired.value;
        assert SliceLevels(podSets[..i + 1]) == SliceLevels(podSets[..i]) + {level};
        assert level in Elements(levels) <==> level in levels;
        if level !in levels {
          levels := levels + [level];
        }
      } else {
        assert SliceLevels(podSets[..i + 1]) == SliceLevels(podSets[..i]);
      }
    }
    assert podSets[..|podSets|] == podSets;
  }

  method GroupingLevels(podSets: seq<PodSet>) returns (levels: seq<string>)
    ensures Elements(levels) == RequiredLevels(podSets) && Distinct(levels)
  {
    levels := [];
    for i := 0 to |podSets|
      invariant Elements(levels) == RequiredLevels(podSets[..i]) && Distinct(levels)
    {
      assert podSets[..i + 1] == podSets[..i] + [podSets[i]];
      if DeclaresRequired(podSets[i]) {
        var level := podSets[i].topology.value.required.value;
        assert RequiredLevels(podSets[..i + 1]) == RequiredLevels(podSets[..i]) + {level};
        assert level in Elements(levels) <==> level in levels;
        if level !in levels {
          levels := levels + [level];
        }
      } else {
        assert RequiredLevels(podSets[..i + 1]) == RequiredLevels(podSets[..i]);
      }
    }
    assert podSets[..|podSets|] == podSets;
  }

  ghost predicate AllKnown(required: set<string>, levels: seq<string>) {
    forall r :: r in required ==> r in levels
  }

  /** level is the coarsest of the required ones. */
  ghost predicate IsCoarsest(required: set<string>, levels: seq<string>, level: string) {
    level in required && AllKnown(required, levels)
    && forall r :: r in required ==> IndexOf(levels, level) <= IndexOf(levels, r)
  }

  ghost predicate IsFinest(required: set<string>, levels: seq<string>, level: string) {
    level in required && AllKnown(required, levels)
    && forall r :: r in required ==> IndexOf(levels, r) <= IndexOf(levels, level)
  }

  /** The coarsest required level; none when nothing is required or a level is not in the hierarchy. */
  method CoarsestLevel(required: seq<string>, levels: seq<string>) returns (level: Option<string>)
    ensures level.Some? <==> required != [] && AllKnown(Elements(required), levels)
    ensures level.Some? ==> IsCoarsest(Elements(required), levels, level.value)
  {
    var best := -1;
    for i := 0 to |required|
      invariant forall j :: 0 <= j < i ==> required[j] in levels
      invariant i == 0 ==> best == -1
      invariant i > 0 ==> 0 <= best < |levels| && levels[best] in required && IndexOf(levels, levels[best]) == best
      invariant forall j :: 0 <= j < i ==> best <= IndexOf(levels, required[j])
    {
      var idx := IndexOf(levels, required[i]);
      if idx < 0 {
        assert required[i] in Elements(required);
        return None;
      }
      if best == -1 || idx < best {
        best := idx;
      }
    }
    if best < 0 {
      return None;
    }
    level := Some(levels[best]);
  }

  method FinestLevel(required: seq<string>, levels: seq<string>) returns (level: Option<string>)
    ensures level.Some? <==> required != [] && AllKnown(Elements(required), levels)
    ensures level.Some? ==> IsFinest(Elements(required), levels, level.value)
  {
    var best := -1;
    for i := 0 to |required|
      invariant forall j :: 0 <= j < i ==> required[j] in levels
      invariant i == 0 ==> best == -1
      invariant i > 0 ==> 0 <= best < |levels| && levels[best] in required && IndexOf(levels, levels[best]) == best
      invariant forall j :: 0 <= j < i ==> IndexOf(levels, required[j]) <= best
    {
      var idx := IndexOf(levels, required[i]);
      if idx < 0 {
        assert required[i] in Elements(required);
        return None;
      }
      if idx > best {
        best := idx;
      }
    }
    if best < 0 {
      return None;
    }
    level := Some(levels[best]);
  }

  /** The required levels at or above the drain level: the only ones a multi-domain drain can break. */
  function Applicable(required: set<string>, levels: seq<string>, drainLevel: string): set<string> {
    set r | r in required && IndexOf(levels, r) <= IndexOf(levels, drainLevel)
  }

  /** group is the level to keep the drain inside: "" when nothing applies, else the finest that applies. */
  ghost predicate IsGrouping(required: set<string>, levels: seq<string>, drainLevel: string, group: string) {
    && AllKnown(required, levels)
    && var applicable := Applicable(required, levels, drainLevel);
      if applicable == {} then group == "" else IsFinest(applicable, levels, group)
  }

  method GroupingLevel(podSets: seq<PodSet>, levels: seq<string>, drainLevel: string) returns (group: Option<string>)
    ensures group.Some? <==> AllKnown(RequiredLevels(podSets), levels)
    ensures group.Some? ==> IsGrouping(RequiredLevels(podSets), levels, drainLevel, group.value)
  {
    var required := GroupingLevels(podSets);
    ElementsEmpty(required);
    if required == [] {
      return Some("");
    }
    var drainIdx := IndexOf(levels, drainLevel);
    var applicable: seq<string> := [];
    for i := 0 to |required|
      invariant forall j :: 0 <= j < i ==> required[j] in levels
      invariant Elements(applicable) == Applicable(Elements(required[..i]), levels, drainLevel)
    {
      assert required[..i + 1] == required[..i] + [required[i]];
      assert Elements(required[..i + 1]) == Elements(required[..i]) + {required[i]};
      var idx := IndexOf(levels, required[i]);
      if idx < 0 {
        assert required[i] in Elements(required);
        return None;
      }
      if idx <= drainIdx {
        ghost var before := applicable;
        applicable := applicable + [required[i]];
        assert Elements(applicable) == Elements(before) + {required[i]};
      }
    }
    assert required[..|required|] == required;
    ElementsEmpty(applicable);
    if applicable == [] {
      return Some("");
    }
    group := FinestLevel(applicable, levels);
  }

  /** The grouping level is determined, so the loops above decide nothing by podset order. */
  lemma {:induction false} GroupingUnique(required: set<string>, levels: seq<string>, drainLevel: string, g1: string,
      g2: string)
    requires IsGrouping(required, levels, drainLevel, g1) && IsGrouping(required, levels, drainLevel, g2)
    ensures g1 == g2
  {
    if Applicable(required, levels, drainLevel) != {} {
      assert levels[IndexOf(levels, g1)] == g1 && levels[IndexOf(levels, g2)] == g2;
    }
  }

  /** A requirement finer than the drain level changes nothing: it cannot mask a coarser one. */
  lemma {:induction false} FinerRequirementIgnored(required: set<string>, levels: seq<string>, drainLevel: string,
      finer: string, group: string)
    requires finer in levels && IndexOf(levels, drainLevel) < IndexOf(levels, finer)
    ensures IsGrouping(required + {finer}, levels, drainLevel, group)
      <==> IsGrouping(required, levels, drainLevel, group)
  {
    assert Applicable(required + {finer}, levels, drainLevel) == Applicable(required, levels, drainLevel);
    assert AllKnown(required + {finer}, levels) <==> AllKnown(required, levels) by {
      assert forall r :: r in required ==> r in required + {finer};
    }
  }
}
