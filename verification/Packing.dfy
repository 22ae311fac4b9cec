/** What one group's greedy packing guarantees: sound, complete for divisor chains, minimal for one size. */
module Packing {
  import opened Base
  import opened Kube
  import opened Selection

  // ---- the preference order ----

  ghost predicate DistinctIds(slots: seq<Slot>) {
    forall i, j :: 0 <= i < j < |slots| ==> slots[i].cand.domain.id != slots[j].cand.domain.id
  }

  lemma {:induction false} BetterTrans(a: Slot, b: Slot, c: Slot)
    requires PackBetter(a, b) && PackBetter(b, c)
    ensures PackBetter(a, c)
  {
    if StrLess(a.cand.domain.id, b.cand.domain.id) && StrLess(b.cand.domain.id, c.cand.domain.id) {
      StrLessTrans(a.cand.domain.id, b.cand.domain.id, c.cand.domain.id);
    }
  }

  lemma {:induction false} BetterTotal(a: Slot, b: Slot)
    ensures !(PackBetter(a, b) && PackBetter(b, a))
    ensures a.cand.domain.id != b.cand.domain.id ==> PackBetter(a, b) || PackBetter(b, a)
  {
    StrLessTotal(a.cand.domain.id, b.cand.domain.id);
  }

  /** The running best is the one preferred over every other domain the unit fits. */
  lemma {:induction false} BestSlotMeaning(slots: seq<Slot>, unit: nat, n: nat)
    requires n <= |slots| && DistinctIds(slots)
    ensures var best := BestSlot(slots, unit, n);
      && (best.None? ==> forall j :: 0 <= j < n ==> slots[j].remaining < unit)
      && (best.Some? ==>
            (forall j :: 0 <= j < n && j != best.value && slots[j].remaining >= unit ==>
               PackBetter(slots[best.value], slots[j])))
  {
    if n == 0 {
    } else {
      BestSlotMeaning(slots, unit, n - 1);
      var best := BestSlot(slots, unit, n - 1);
      var last := slots[n - 1];
      if last.remaining >= unit && best.Some? {
        BetterTotal(last, slots[best.value]);
        if PackBetter(last, slots[best.value]) {
          forall j | 0 <= j < n - 1 && slots[j].remaining >= unit ensures PackBetter(last, slots[j]) {
            if j != best.value {
              BetterTrans(last, slots[best.value], slots[j]);
            }
          }
        }
      }
    }
  }

  /** a's disruption is not yet paid for in the plan. */
  ghost function Extra(a: Slot): real {
    if a.selected then 0.0 else a.cand.cost
  }

  /**
   Which domain takes the unit: of those it fits, the one that adds least to the cost; then one already in the
   plan; then the one with most room left; then the smallest ID.
   */
  lemma {:induction false} ChosenHome(slots: seq<Slot>, unit: nat, j: nat)
    requires DistinctIds(slots) && j < |slots| && slots[j].remaining >= unit
    ensures Choose(slots, unit).Some?
    ensures var i := Choose(slots, unit).value;
      var a, b := slots[i], slots[j];
      i != j ==>
        && Extra(a) <= Extra(b)
        && (Extra(a) == Extra(b) ==> a.selected || !b.selected)
        && (Extra(a) == Extra(b) && a.selected == b.selected ==> a.remaining >= b.remaining)
        && (Extra(a) == Extra(b) && a.selected == b.selected && a.remaining == b.remaining ==>
              StrLess(a.cand.domain.id, b.cand.domain.id))
  {
    BestSlotMeaning(slots, unit, |slots|);
  }

  lemma {:induction false} NoHome(slots: seq<Slot>, unit: nat, n: nat)
    requires n <= |slots|
    ensures BestSlot(slots, unit, n).None? <==> forall j :: 0 <= j < n ==> slots[j].remaining < unit
  {
    if n == 0 {
    } else {
      NoHome(slots, unit, n - 1);
    }
  }

  ghost predicate CostsNonNegative(slots: seq<Slot>) {
    forall i :: 0 <= i < |slots| ==> slots[i].cand.cost >= 0.0
  }

  /** An untouched domain is opened only when the unit fits no domain already in the plan. */
  lemma {:induction false} OpensOnlyWhenNeeded(slots: seq<Slot>, unit: nat)
    requires DistinctIds(slots) && CostsNonNegative(slots)
    requires Choose(slots, unit).Some? && !slots[Choose(slots, unit).value].selected
    ensures forall j :: 0 <= j < |slots| && slots[j].selected ==> slots[j].remaining < unit
  {
    BestSlotMeaning(slots, unit, |slots|);
  }

  // ---- soundness: every unit lands whole in one domain, within its capacity ----

  /** The GPUs an assignment of units puts into domain j. */
  ghost function Load(units: seq<nat>, assign: seq<nat>, j: nat): nat
    requires |assign| == |units|
  {
    if units == [] then 0 else (if assign[0] == j then units[0] else 0) + Load(units[1..], assign[1..], j)
  }

  ghost predicate IsAssignment(caps: seq<nat>, units: seq<nat>, assign: seq<nat>) {
    && |assign| == |units|
    && (forall i :: 0 <= i < |assign| ==> assign[i] < |caps|)
    && (forall j :: 0 <= j < |caps| ==> Load(units, assign, j) <= caps[j])
  }

  ghost function Choices(slots: seq<Slot>, units: seq<nat>): (assign: seq<nat>)
    requires PackUnits(slots, units).Some?
    ensures |assign| == |units| && forall i :: 0 <= i < |assign| ==> assign[i] < |slots|
    decreases units
  {
    if units == [] then []
    else
      var i := Choose(slots, units[0]).value;
      [i] + Choices(Place(slots, i, units[0]), units[1..])
  }

  lemma {:induction false} PackUnitsSound(slots: seq<Slot>, units: seq<nat>)
    requires PackUnits(slots, units).Some?
    ensures var r := PackUnits(slots, units).value;
      var assign := Choices(slots, units);
      forall j :: 0 <= j < |slots| ==>
        && r[j].cand == slots[j].cand
        && r[j].remaining + Load(units, assign, j) == slots[j].remaining
        && (r[j].selected <==> slots[j].selected || j in assign)
    decreases units
  {
    if units == [] {
    } else {
      var i := Choose(slots, units[0]).value;
      var next := Place(slots, i, units[0]);
      PackUnitsSound(next, units[1..]);
      var assign := Choices(slots, units);
      assert assign[1..] == Choices(next, units[1..]);
      assert assign == [i] + assign[1..];
    }
  }

  ghost function Caps(cands: seq<Cand>): (caps: seq<nat>)
    ensures |caps| == |cands| && forall i :: 0 <= i < |cands| ==> caps[i] == Capacity(cands[i])
  {
    seq(|cands|, i requires 0 <= i < |cands| => Capacity(cands[i]))
  }

  // ---- completeness: counting room in units ----

  /** Each smaller unit divides every larger one, largest first. */
  ghost predicate Chain(units: seq<nat>) {
    forall i, j :: 0 <= i <= j < |units| ==> units[j] > 0 && units[i] % units[j] == 0
  }

  ghost function Room(caps: seq<nat>, u: nat): nat
    requires u > 0
  {
    if caps == [] then 0 else Room(caps[..|caps| - 1], u) + caps[|caps| - 1] / u
  }

  ghost function Left(slots: seq<Slot>): (caps: seq<nat>)
    ensures |caps| == |slots| && forall i :: 0 <= i < |slots| ==> caps[i] == slots[i].remaining
  {
    seq(|slots|, i requires 0 <= i < |slots| => slots[i].remaining)
  }

  lemma {:induction false} MultipleQuotient(v: nat, u: nat)
    requires u > 0 && v % u == 0
    ensures (v / u) * u == v
  {
  }

  lemma {:induction false} TimesAtLeast(d: int, u: nat)
    requires d >= 1
    ensures d * u >= u
  {
  }

  lemma {:induction false} QuotientUnique(a: int, u: nat, q: int, r: int)
    requires u > 0 && a == q * u + r && 0 <= r < u
    ensures a / u == q
  {
    var d := a / u - q;
    assert a == (a / u) * u + a % u;
    assert d * u == r - a % u;
    if d > 0 {
      TimesAtLeast(d, u);
    } else if d < 0 {
      TimesAtLeast(-d, u);
    }
  }

  lemma {:induction false} TakeMultiple(rem: nat, v: nat, u: nat)
    requires u > 0 && v <= rem && v % u == 0
    ensures (rem - v) / u + v / u == rem / u
  {
    MultipleQuotient(v, u);
    assert rem == (rem / u) * u + rem % u;
    assert (rem / u - v / u) * u == (rem / u) * u - v;
    QuotientUnique(rem - v, u, rem / u - v / u, rem % u);
  }

  lemma {:induction false} RoomUpdate(caps: seq<nat>, i: nat, v: nat, u: nat)
    requires i < |caps| && u > 0 && v <= caps[i] && v % u == 0
    ensures Room(caps[i := caps[i] - v], u) + v / u == Room(caps, u)
  {
    var n := |caps| - 1;
    if i == n {
      assert caps[i := caps[i] - v][..n] == caps[..n];
      TakeMultiple(caps[i], v, u);
    } else {
      assert caps[i := caps[i] - v][..n] == caps[..n][i := caps[i] - v];
      RoomUpdate(caps[..n], i, v, u);
    }
  }

  lemma {:induction false} NoRoom(caps: seq<nat>, u: nat)
    requires u > 0 && forall i :: 0 <= i < |caps| ==> caps[i] < u
    ensures Room(caps, u) == 0
  {
    if caps == [] {
    } else {
      NoRoom(caps[..|caps| - 1], u);
    }
  }

  /** Enough room at every size of the chain for all the units at least that large. */
  ghost predicate Enough(caps: seq<nat>, units: seq<nat>) {
    forall k :: 0 <= k < |units| && units[k] > 0 ==> Sum(units[..k + 1]) <= Room(caps, units[k]) * units[k]
  }

  lemma {:induction false} RoomAfterPlace(slots: seq<Slot>, i: nat, v: nat, u: nat)
    requires i < |slots| && slots[i].remaining >= v && u > 0 && v % u == 0
    ensures Room(Left(slots), u) * u == Room(Left(Place(slots, i, v)), u) * u + v
  {
    assert Left(Place(slots, i, v)) == Left(slots)[i := Left(slots)[i] - v];
    RoomUpdate(Left(slots), i, v, u);
    MultipleQuotient(v, u);
    AddedMultiple(Room(Left(slots), u), Room(Left(Place(slots, i, v)), u), v / u, v, u);
  }

  lemma {:induction false} AddedMultiple(a: nat, b: nat, q: nat, v: nat, u: nat)
    requires a == b + q && q * u == v
    ensures a * u == b * u + v
  {
    Distribute(b, q, u);
  }

  lemma {:induction false} SumFront(x: nat, xs: seq<nat>)
    ensures Sum([x] + xs) == x + Sum(xs)
  {
    SumConcat([x], xs);
    assert [x][..0] == [];
    assert Sum([x]) == x;
  }

  lemma {:induction false} PackingFailsShort(slots: seq<Slot>, units: seq<nat>) returns (k: nat)
    requires Chain(units) && PackUnits(slots, units).None?
    ensures k < |units| && Sum(units[..k + 1]) > Room(Left(slots), units[k]) * units[k]
    decreases units
  {
    var u0 := units[0];
    var c := Choose(slots, u0);
    if c.None? {
      NoHome(slots, u0, |slots|);
      NoRoom(Left(slots), u0);
      k := 0;
      assert units[..1] == [u0] + [];
      SumFront(u0, []);
    } else {
      var next := Place(slots, c.value, u0);
      var k' := PackingFailsShort(next, units[1..]);
      k := k' + 1;
      RoomAfterPlace(slots, c.value, u0, units[k]);
      assert units[..k + 1] == [u0] + units[1..][..k' + 1];
      SumFront(u0, units[1..][..k' + 1]);
    }
  }

  lemma {:induction false} ProductIsMultiple(v: nat, q: nat, u: nat)
    requires u > 0 && v == q * u
    ensures v % u == 0
  {
    QuotientUnique(v, u, q, 0);
    assert v == (v / u) * u + v % u;
  }

  lemma {:induction false} MultiplesAdd(a: nat, b: nat, u: nat)
    requires u > 0 && a % u == 0 && b % u == 0
    ensures (a + b) % u == 0
  {
    MultipleQuotient(a, u);
    MultipleQuotient(b, u);
    Distribute(a / u, b / u, u);
    ProductIsMultiple(a + b, a / u + b / u, u);
  }

  lemma {:induction false} LoadMultiple(units: seq<nat>, assign: seq<nat>, j: nat, u: nat)
    requires |assign| == |units| && u > 0 && forall i :: 0 <= i < |units| ==> units[i] % u == 0
    ensures Load(units, assign, j) % u == 0
  {
    if units == [] {
    } else {
      LoadMultiple(units[1..], assign[1..], j, u);
      MultiplesAdd(if assign[0] == j then units[0] else 0, Load(units[1..], assign[1..], j), u);
    }
  }

  lemma {:induction false} LoadPrefix(units: seq<nat>, assign: seq<nat>, j: nat, k: nat)
    requires |assign| == |units| && k <= |units|
    ensures Load(units[..k], assign[..k], j) <= Load(units, assign, j)
  {
    if k == 0 {
    } else {
      assert units[..k][1..] == units[1..][..k - 1] && assign[..k][1..] == assign[1..][..k - 1];
      LoadPrefix(units[1..], assign[1..], j, k - 1);
    }
  }

  ghost function LoadSum(units: seq<nat>, assign: seq<nat>, n: nat): nat
    requires |assign| == |units|
  {
    if n == 0 then 0 else LoadSum(units, assign, n - 1) + Load(units, assign, n - 1)
  }

  lemma {:induction false} LoadSumStep(units: seq<nat>, assign: seq<nat>, n: nat)
    requires |assign| == |units| > 0
    ensures LoadSum(units, assign, n) == (if assign[0] < n then units[0] else 0) + LoadSum(units[1..], assign[1..], n)
  {
    if n == 0 {
    } else {
      LoadSumStep(units, assign, n - 1);
    }
  }

  lemma {:induction false} LoadSumZero(n: nat)
    ensures LoadSum([], [], n) == 0
  {
    if n == 0 {
    } else {
      LoadSumZero(n - 1);
    }
  }

  lemma {:induction false} LoadsAreAllUnits(units: seq<nat>, assign: seq<nat>, n: nat)
    requires |assign| == |units| && forall i :: 0 <= i < |assign| ==> assign[i] < n
    ensures LoadSum(units, assign, n) == Sum(units)
  {
    if units == [] {
      LoadSumZero(n);
    } else {
      LoadSumStep(units, assign, n);
      LoadsAreAllUnits(units[1..], assign[1..], n);
      assert units == [units[0]] + units[1..];
      SumFront(units[0], units[1..]);
    }
  }

  lemma {:induction false} MultipleFits(load: nat, cap: nat, u: nat)
    requires u > 0 && load % u == 0 && load <= cap
    ensures load <= (cap / u) * u
  {
    MultipleQuotient(load, u);
    TakeMultiple(cap, load, u);
    assert (cap / u) * u == (load / u) * u + ((cap - load) / u) * u;
  }

  lemma {:induction false} Distribute(a: nat, b: nat, u: nat)
    ensures (a + b) * u == a * u + b * u
  {
  }

  lemma {:induction false} LoadsFitRoom(caps: seq<nat>, units: seq<nat>, assign: seq<nat>, u: nat, n: nat)
    requires |assign| == |units| && u > 0 && n <= |caps|
    requires forall i :: 0 <= i < |units| ==> units[i] % u == 0
    requires forall j :: 0 <= j < n ==> Load(units, assign, j) <= caps[j]
    ensures LoadSum(units, assign, n) <= Room(caps[..n], u) * u
  {
    if n == 0 {
    } else {
      LoadsFitRoom(caps, units, assign, u, n - 1);
      assert caps[..n][..n - 1] == caps[..n - 1];
      var load := Load(units, assign, n - 1);
      LoadMultiple(units, assign, n - 1, u);
      MultipleFits(load, caps[n - 1], u);
      Distribute(Room(caps[..n - 1], u), caps[n - 1] / u, u);
    }
  }

  lemma {:induction false} AssignmentNeedsRoom(caps: seq<nat>, units: seq<nat>, assign: seq<nat>)
    requires Chain(units) && IsAssignment(caps, units, assign)
    ensures Enough(caps, units)
  {
    forall k | 0 <= k < |units| ensures Sum(units[..k + 1]) <= Room(caps, units[k]) * units[k] {
      var p, a := units[..k + 1], assign[..k + 1];
      forall j | 0 <= j < |caps| ensures Load(p, a, j) <= caps[j] {
        LoadPrefix(units, assign, j, k + 1);
      }
      LoadsFitRoom(caps, p, a, units[k], |caps|);
      assert caps[..|caps|] == caps;
      LoadsAreAllUnits(p, a, |caps|);
    }
  }

  lemma {:induction false} FreshLeft(cands: seq<Cand>)
    ensures Left(Fresh(cands)) == Caps(cands)
  {
  }

  lemma {:induction false} PackedIsAssignment(cands: seq<Cand>, units: seq<nat>)
    requires PackUnits(Fresh(cands), units).Some?
    ensures IsAssignment(Caps(cands), units, Choices(Fresh(cands), units))
  {
    PackUnitsSound(Fresh(cands), units);
  }

  /** Greedy success is exactly having enough room at each size, whatever the costs make it choose. */
  lemma {:induction false} PacksIffRoom(cands: seq<Cand>, units: seq<nat>)
    requires Chain(units)
    ensures PackUnits(Fresh(cands), units).Some? <==> Enough(Caps(cands), units)
  {
    FreshLeft(cands);
    if PackUnits(Fresh(cands), units).Some? {
      PackedIsAssignment(cands, units);
      AssignmentNeedsRoom(Caps(cands), units, Choices(Fresh(cands), units));
    } else {
      var k := PackingFailsShort(Fresh(cands), units);
      assert units[k] > 0;
    }
  }

  /** For divisor-chain demand the greedy packing succeeds if and only if any packing does. */
  lemma {:induction false} GreedyComplete(cands: seq<Cand>, units: seq<nat>, hero: HeroSpec, cfg: Config)
    requires Chain(units) && ValidConfig(cfg)
    ensures PackGroup(cands, units, hero, cfg).Some? <==> exists assign :: IsAssignment(Caps(cands), units, assign)
  {
    PacksIffRoom(cands, units);
    if PackUnits(Fresh(cands), units).Some? {
      PackedIsAssignment(cands, units);
    }
    if assign :| IsAssignment(Caps(cands), units, assign) {
      AssignmentNeedsRoom(Caps(cands), units, assign);
    }
  }

  /** Outside divisor chains greed can miss: 3 takes the 4-GPU domain, and the two 2s no longer fit. */
  lemma {:induction false} GreedyMissesAPacking(a: Cand, b: Cand)
    requires Capacity(a) == 4 && Capacity(b) == 3 && 0.0 <= a.cost <= b.cost
    ensures PackUnits(Fresh([a, b]), [3, 2, 2]).None?
    ensures IsAssignment(Caps([a, b]), [3, 2, 2], [1, 0, 0])
  {
    var s0 := Fresh([a, b]);
    assert BestSlot(s0, 3, 1) == Some(0);
    var s1 := Place(s0, 0, 3);
    assert s1 == [Slot(a, 1, true), Slot(b, 3, false)];
    assert BestSlot(s1, 2, 0) == None && BestSlot(s1, 2, 1) == None;
    assert Choose(s1, 2) == Some(1);
    var s2 := Place(s1, 1, 2);
    assert s2 == [Slot(a, 1, true), Slot(b, 1, true)];
    assert BestSlot(s2, 2, 0) == None && BestSlot(s2, 2, 1) == None;
    assert [3, 2, 2][1..] == [2, 2] && [2, 2][1..] == [2];
    assert PackUnits(s2, [2]).None?;
    assert PackUnits(s1, [2, 2]).None?;
    assert [1, 0, 0][1..] == [0, 0] && [0, 0][1..] == [0];
    assert Load([2], [0], 0) == 2 && Load([2], [0], 1) == 0;
  }

  // ---- one chunk size: the opened domains are the shortest sufficient prefix ----

  /** Preference between untouched domains: cheaper, then larger, then the smaller ID. */
  ghost predicate Before(a: Cand, b: Cand) {
    if a.cost != b.cost then a.cost < b.cost
    else if Capacity(a) != Capacity(b) then Capacity(a) > Capacity(b)
    else StrLess(a.domain.id, b.domain.id)
  }

  lemma {:induction false} BeforeTrans(a: Cand, b: Cand, c: Cand)
    requires Before(a, b) && Before(b, c)
    ensures Before(a, c)
  {
    if StrLess(a.domain.id, b.domain.id) && StrLess(b.domain.id, c.domain.id) {
      StrLessTrans(a.domain.id, b.domain.id, c.domain.id);
    }
  }

  lemma {:induction false} BeforeTotal(a: Cand, b: Cand)
    ensures !(Before(a, b) && Before(b, a))
    ensures a.domain.id != b.domain.id ==> Before(a, b) || Before(b, a)
  {
    StrLessTotal(a.domain.id, b.domain.id);
  }

  ghost function RoomIfBefore(a: Cand, c: Cand, size: nat): nat
    requires size > 0
  {
    if Before(a, c) then Capacity(a) / size else 0
  }

  /** The units that the domains preferred over c can hold. */
  ghost function Ahead(slots: seq<Slot>, c: Cand, size: nat): nat
    requires size > 0
  {
    if slots == [] then 0
    else
      var last := slots[|slots| - 1].cand;
      Ahead(slots[..|slots| - 1], c, size) + RoomIfBefore(last, c, size)
  }

  /** The units the selected domains can hold. */
  ghost function SelectedRoom(slots: seq<Slot>, size: nat): nat
    requires size > 0
  {
    if slots == [] then 0
    else
      var last := slots[|slots| - 1];
      SelectedRoom(slots[..|slots| - 1], size) + (if last.selected then Capacity(last.cand) / size else 0)
  }

  /** The units that still fit the selected domains. */
  ghost function SelectedLeft(slots: seq<Slot>, size: nat): nat
    requires size > 0
  {
    if slots == [] then 0
    else
      var last := slots[|slots| - 1];
      SelectedLeft(slots[..|slots| - 1], size) + (if last.selected then last.remaining / size else 0)
  }

  lemma {:induction false} TooSmall(a: nat, size: nat)
    requires a < size
    ensures a / size == 0
  {
  }

  lemma {:induction false} SelectedBeforeCount(slots: seq<Slot>, c: Cand, size: nat)
    requires size > 0
    requires forall i :: 0 <= i < |slots| && slots[i].selected && Capacity(slots[i].cand) >= size ==>
      Before(slots[i].cand, c)
    ensures SelectedRoom(slots, size) <= Ahead(slots, c, size)
  {
    if slots == [] {
    } else {
      var last := slots[|slots| - 1];
      SelectedBeforeCount(slots[..|slots| - 1], c, size);
      if Capacity(last.cand) < size {
        TooSmall(Capacity(last.cand), size);
      }
    }
  }

  lemma {:induction false} AheadAllSelected(slots: seq<Slot>, c: Cand, size: nat)
    requires size > 0
    requires forall i :: 0 <= i < |slots| && Before(slots[i].cand, c) && Capacity(slots[i].cand) >= size ==>
      slots[i].selected
    ensures Ahead(slots, c, size) <= SelectedRoom(slots, size)
  {
    if slots == [] {
    } else {
      var last := slots[|slots| - 1];
      AheadAllSelected(slots[..|slots| - 1], c, size);
      if Capacity(last.cand) < size {
        TooSmall(Capacity(last.cand), size);
      }
    }
  }

  lemma {:induction false} RoomIfBeforeGrows(a: Cand, b: Cand, c: Cand, size: nat)
    requires size > 0 && Before(b, c)
    ensures RoomIfBefore(a, b, size) <= RoomIfBefore(a, c, size)
  {
    if Before(a, b) {
      BeforeTrans(a, b, c);
    }
  }

  lemma {:induction false} AheadGrows(slots: seq<Slot>, k: nat, c: Cand, size: nat, room: nat)
    requires size > 0 && k < |slots| && Before(slots[k].cand, c) && room == Capacity(slots[k].cand) / size
    ensures Ahead(slots, slots[k].cand, size) + room <= Ahead(slots, c, size)
  {
    var n := |slots| - 1;
    if k == n {
      AheadOfLast(slots, c, size, room);
    } else {
      assert slots[..n][k] == slots[k];
      AheadGrows(slots[..n], k, c, size, room);
      RoomIfBeforeGrows(slots[n].cand, slots[k].cand, c, size);
    }
  }

  lemma {:induction false} AheadOfLast(slots: seq<Slot>, c: Cand, size: nat, room: nat)
    requires size > 0 && slots != [] && Before(slots[|slots| - 1].cand, c)
    requires room == Capacity(slots[|slots| - 1].cand) / size
    ensures Ahead(slots, slots[|slots| - 1].cand, size) + room <= Ahead(slots, c, size)
  {
    var b := slots[|slots| - 1].cand;
    BeforeTotal(b, b);
    AheadMonotone(slots[..|slots| - 1], b, c, size);
  }

  lemma {:induction false} AheadMonotone(slots: seq<Slot>, b: Cand, c: Cand, size: nat)
    requires size > 0 && Before(b, c)
    ensures Ahead(slots, b, size) <= Ahead(slots, c, size)
  {
    if slots == [] {
    } else {
      AheadMonotone(slots[..|slots| - 1], b, c, size);
      RoomIfBeforeGrows(slots[|slots| - 1].cand, b, c, size);
    }
  }

  ghost predicate Untouched(s: Slot) {
    !s.selected && s.remaining == Capacity(s.cand)
  }

  /** After placing m units of one size: the opened domains are those not enough units precede. */
  ghost predicate OneSize(slots: seq<Slot>, size: nat, m: nat)
    requires size > 0
  {
    && DistinctIds(slots) && CostsNonNegative(slots)
    && (forall i :: 0 <= i < |slots| ==> slots[i].selected || Untouched(slots[i]))
    && (forall i :: 0 <= i < |slots| ==>
          (slots[i].selected <==> Capacity(slots[i].cand) >= size && Ahead(slots, slots[i].cand, size) < m))
    && SelectedRoom(slots, size) == m + SelectedLeft(slots, size)
  }

  lemma {:induction false} QuotientPositive(a: nat, size: nat)
    requires size > 0
    ensures a / size >= 1 <==> a >= size
  {
  }

  /** Selected domains are preferred over the unselected ones a unit would fit. */
  lemma {:induction false} SelectedPreferred(slots: seq<Slot>, size: nat, m: nat, i: nat, b: nat)
    requires size > 0 && OneSize(slots, size, m) && i < |slots| && b < |slots|
    requires slots[i].selected && !slots[b].selected && Capacity(slots[b].cand) >= size
    ensures Before(slots[i].cand, slots[b].cand)
  {
    BeforeTotal(slots[i].cand, slots[b].cand);
    assert slots[i].cand.domain.id != slots[b].cand.domain.id;
    if Before(slots[b].cand, slots[i].cand) {
      AheadGrows(slots, b, slots[i].cand, size, Capacity(slots[b].cand) / size);
      QuotientPositive(Capacity(slots[b].cand), size);
    }
  }

  lemma {:induction false} AheadOfUnselected(slots: seq<Slot>, size: nat, m: nat, b: nat)
    requires size > 0 && OneSize(slots, size, m) && b < |slots|
    requires !slots[b].selected && Capacity(slots[b].cand) >= size
    ensures Ahead(slots, slots[b].cand, size) >= SelectedRoom(slots, size)
  {
    forall i | 0 <= i < |slots| && slots[i].selected ensures Before(slots[i].cand, slots[b].cand) {
      SelectedPreferred(slots, size, m, i, b);
    }
    SelectedBeforeCount(slots, slots[b].cand, size);
  }

  lemma {:induction false} SameCands(a: seq<Slot>, b: seq<Slot>, c: Cand, size: nat)
    requires size > 0 && |a| == |b| && forall i :: 0 <= i < |a| ==> a[i].cand == b[i].cand
    ensures Ahead(a, c, size) == Ahead(b, c, size)
  {
    if a == [] {
    } else {
      SameCands(a[..|a| - 1], b[..|b| - 1], c, size);
    }
  }

  lemma {:induction false} SelectedUpdate(slots: seq<Slot>, i: nat, size: nat)
    requires size > 0 && i < |slots| && slots[i].remaining >= size && (slots[i].selected || Untouched(slots[i]))
    ensures var next := Place(slots, i, size);
      && SelectedRoom(next, size)
        == SelectedRoom(slots, size) + (if slots[i].selected then 0 else Capacity(slots[i].cand) / size)
      && SelectedRoom(next, size) - SelectedLeft(next, size)
        == SelectedRoom(slots, size) - SelectedLeft(slots, size) + 1
  {
    var n := |slots| - 1;
    var next := Place(slots, i, size);
    TakeMultiple(slots[i].remaining, size, size);
    QuotientUnique(size, size, 1, 0);
    if i == n {
      assert next[..n] == slots[..n];
    } else {
      assert next[..n] == Place(slots[..n], i, size);
      SelectedUpdate(slots[..n], i, size);
    }
  }

  lemma {:induction false} SelectedFull(slots: seq<Slot>, size: nat)
    requires size > 0
    ensures (forall i :: 0 <= i < |slots| && slots[i].selected ==> slots[i].remaining < size) ==>
      SelectedLeft(slots, size) == 0
    ensures forall i :: 0 <= i < |slots| && slots[i].selected && slots[i].remaining >= size ==>
      SelectedLeft(slots, size) >= 1
  {
    if slots == [] {
    } else {
      var n := |slots| - 1;
      SelectedFull(slots[..n], size);
      QuotientPositive(slots[n].remaining, size);
      forall i | 0 <= i < |slots| && slots[i].selected && slots[i].remaining >= size
        ensures SelectedLeft(slots, size) >= 1
      {
        if i < n {
          assert slots[..n][i] == slots[i];
        }
      }
    }
  }

  lemma {:induction false} OneSizeStep(slots: seq<Slot>, size: nat, m: nat)
    requires size > 0 && OneSize(slots, size, m) && Choose(slots, size).Some?
    ensures OneSize(Place(slots, Choose(slots, size).value, size), size, m + 1)
  {
    var b := Choose(slots, size).value;
    var next := Place(slots, b, size);
    BestSlotMeaning(slots, size, |slots|);
    SelectedUpdate(slots, b, size);
    SelectedFull(slots, size);
    forall i | 0 <= i < |slots|
      ensures next[i].selected <==> Capacity(next[i].cand) >= size && Ahead(next, next[i].cand, size) < m + 1
    {
      SameCands(next, slots, slots[i].cand, size);
      if slots[b].selected {
        if !slots[i].selected && Capacity(slots[i].cand) >= size {
          AheadOfUnselected(slots, size, m, i);
        }
      } else {
        OpensOnlyWhenNeeded(slots, size);
        NewlyOpened(slots, size, m, b);
        if i != b && !slots[i].selected && Capacity(slots[i].cand) >= size {
          assert PackBetter(slots[b], slots[i]);
          assert Before(slots[b].cand, slots[i].cand);
          AheadGrows(slots, b, slots[i].cand, size, Capacity(slots[b].cand) / size);
          QuotientPositive(Capacity(slots[b].cand), size);
        }
      }
    }
  }

  /** A newly opened domain has exactly the placed units ahead of it. */
  lemma {:induction false} NewlyOpened(slots: seq<Slot>, size: nat, m: nat, b: nat)
    requires size > 0 && OneSize(slots, size, m) && Choose(slots, size) == Some(b) && !slots[b].selected
    ensures Ahead(slots, slots[b].cand, size) == m
  {
    OpensOnlyWhenNeeded(slots, size);
    SelectedFull(slots, size);
    AheadOfUnselected(slots, size, m, b);
    BestSlotMeaning(slots, size, |slots|);
    forall i | 0 <= i < |slots| && Before(slots[i].cand, slots[b].cand) && Capacity(slots[i].cand) >= size
      ensures slots[i].selected
    {
      BeforeTotal(slots[b].cand, slots[i].cand);
      if !slots[i].selected {
        assert i != b;
        assert PackBetter(slots[b], slots[i]);
        assert Before(slots[b].cand, slots[i].cand);
      }
    }
    AheadAllSelected(slots, slots[b].cand, size);
  }

  lemma {:induction false} OneSizeRun(slots: seq<Slot>, size: nat, m: nat, n: nat)
    requires size > 0 && OneSize(slots, size, m) && PackUnits(slots, Repeat(size, n)).Some?
    ensures OneSize(PackUnits(slots, Repeat(size, n)).value, size, m + n)
    decreases n
  {
    if n == 0 {
    } else {
      var units := Repeat(size, n);
      assert units[1..] == Repeat(size, n - 1);
      OneSizeStep(slots, size, m);
      OneSizeRun(Place(slots, Choose(slots, size).value, size), size, m + 1, n - 1);
    }
  }

  lemma {:induction false} FreshOneSize(cands: seq<Cand>, size: nat)
    requires size > 0 && DistinctIds(Fresh(cands)) && CostsNonNegative(Fresh(cands))
    ensures OneSize(Fresh(cands), size, 0)
  {
    NothingSelected(Fresh(cands), size);
  }

  lemma {:induction false} NothingSelected(slots: seq<Slot>, size: nat)
    requires size > 0 && forall i :: 0 <= i < |slots| ==> !slots[i].selected
    ensures SelectedRoom(slots, size) == 0 && SelectedLeft(slots, size) == 0
  {
    if slots == [] {
    } else {
      NothingSelected(slots[..|slots| - 1], size);
    }
  }

  /**
   For one chunk size the plan opens exactly the domains that can hold a unit and that the domains
   preferred over them could not already satisfy: the shortest sufficient prefix by (cost, larger, ID).
   */
  lemma {:induction false} OpensShortestPrefix(cands: seq<Cand>, size: nat, n: nat)
    requires size > 0 && DistinctIds(Fresh(cands)) && CostsNonNegative(Fresh(cands))
    requires PackUnits(Fresh(cands), Repeat(size, n)).Some?
    ensures var r := PackUnits(Fresh(cands), Repeat(size, n)).value;
      && (forall i :: 0 <= i < |cands| ==> r[i].cand == cands[i])
      && (forall i :: 0 <= i < |cands| ==>
            (r[i].selected <==> Capacity(cands[i]) >= size && Ahead(Fresh(cands), cands[i], size) < n))
      && SelectedRoom(r, size) >= n
      && OneSize(r, size, n)
  {
    var start, units := Fresh(cands), Repeat(size, n);
    FreshOneSize(cands, size);
    OneSizeRun(start, size, 0, n);
    PackUnitsSound(start, units);
    var r := PackUnits(start, units).value;
    forall i | 0 <= i < |cands| ensures Ahead(r, cands[i], size) == Ahead(start, cands[i], size) {
      SameCands(r, start, cands[i], size);
    }
  }
}
