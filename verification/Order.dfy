/** pkg/drain: which stuck hero drains next, and which drain makes the others wait. */
module Order {
  import opened Base
  import opened Kube
  import opened Taints

  predicate OwnerBefore(a: Name, b: Name) {
    if a.ns != b.ns then StrLess(a.ns, b.ns) else StrLess(a.name, b.name)
  }

  /** Higher priority, then the earlier place in kueue's queue order, then the name. */
  predicate HeroBefore(a: Workload, b: Workload) {
    if Priority(a) != Priority(b) then Priority(a) > Priority(b)
    else if a.queueTime != b.queueTime then a.queueTime < b.queueTime
    else OwnerBefore(a.key, b.key)
  }

  lemma {:induction false} OwnerBeforeTotal(a: Name, b: Name)
    ensures !(OwnerBefore(a, b) && OwnerBefore(b, a))
    ensures a == b <==> !OwnerBefore(a, b) && !OwnerBefore(b, a)
  {
    StrLessTotal(a.ns, b.ns);
    StrLessTotal(a.name, b.name);
  }

  lemma {:induction false} OwnerBeforeTrans(a: Name, b: Name, c: Name)
    requires OwnerBefore(a, b) && OwnerBefore(b, c)
    ensures OwnerBefore(a, c)
  {
    StrLessTotal(a.ns, b.ns);
    if a.ns == b.ns == c.ns {
      StrLessTrans(a.name, b.name, c.name);
    } else if a.ns != b.ns && b.ns != c.ns {
      StrLessTrans(a.ns, b.ns, c.ns);
      StrLessTotal(a.ns, c.ns);
    }
  }

  /** heroBefore is a strict order, total on workloads with distinct keys. */
  lemma {:induction false} HeroBeforeIsOrder(a: Workload, b: Workload, c: Workload)
    ensures !(HeroBefore(a, b) && HeroBefore(b, a))
    ensures a.key != b.key ==> HeroBefore(a, b) || HeroBefore(b, a)
    ensures HeroBefore(a, b) && HeroBefore(b, c) ==> HeroBefore(a, c)
  {
    OwnerBeforeTotal(a.key, b.key);
    if OwnerBefore(a.key, b.key) && OwnerBefore(b.key, c.key) {
      OwnerBeforeTrans(a.key, b.key, c.key);
    }
  }

  // ---- NextHero ----

  function Front(ws: seq<Workload>): Option<Workload> {
    if ws == [] then None
    else
      var best, w := Front(ws[..|ws| - 1]), ws[|ws| - 1];
      if best.None? || HeroBefore(w, best.value) then Some(w) else best
  }

  /** w's place in the line is no later than v's: by priority, queue time, namespace and name, in that order. */
  ghost predicate NotBehind(w: Workload, v: Workload) {
    var p, q := if w.priority.Some? then w.priority.value else 0, if v.priority.Some? then v.priority.value else 0;
    && p >= q
    && (p == q ==> w.queueTime <= v.queueTime)
    && (p == q && w.queueTime == v.queueTime ==>
          w.key == v.key || StrLess(w.key.ns, v.key.ns) || (w.key.ns == v.key.ns && StrLess(w.key.name, v.key.name)))
  }

  lemma {:induction false} NotBehindUnlessBefore(w: Workload, v: Workload)
    ensures NotBehind(w, v) <==> !HeroBefore(v, w)
  {
    StrLessTotal(w.key.ns, v.key.ns);
    StrLessTotal(w.key.name, v.key.name);
  }

  lemma {:induction false} FrontLeads(ws: seq<Workload>)
    ensures Front(ws).None? <==> ws == []
    ensures Front(ws).Some? ==> Front(ws).value in ws && forall v :: v in ws ==> NotBehind(Front(ws).value, v)
  {
    if ws == [] {
    } else {
      var n := |ws| - 1;
      FrontLeads(ws[..n]);
      assert ws == ws[..n] + [ws[n]];
      NotBehindUnlessBefore(ws[n], ws[n]);
      HeroBeforeIsOrder(ws[n], ws[n], ws[n]);
      if ws[..n] != [] {
        var best := Front(ws[..n]).value;
        NotBehindUnlessBefore(best, ws[n]);
        forall v | v in ws[..n] ensures NotBehind(Front(ws).value, v) {
          NotBehindUnlessBefore(best, v);
          NotBehindUnlessBefore(ws[n], v);
          HeroBeforeIsOrder(v, ws[n], best);
        }
      }
    }
  }

  /** The first in line: nobody has a higher priority, then an earlier queue time, then a smaller name. */
  method NextHero(stuck: seq<Workload>) returns (best: Option<Workload>)
    ensures best == Front(stuck)
    ensures best.None? <==> stuck == []
    ensures best.Some? ==> best.value in stuck && forall v :: v in stuck ==> NotBehind(best.value, v)
  {
    FrontLeads(stuck);
    best := None;
    for i := 0 to |stuck|
      invariant best == Front(stuck[..i])
    {
      assert stuck[..i + 1][..i] == stuck[..i];
      if best.None? || HeroBefore(stuck[i], best.value) {
        best := Some(stuck[i]);
      }
    }
    assert stuck[..|stuck|] == stuck;
  }

  ghost predicate First(w: Workload, ws: set<Workload>) {
    w in ws && forall v :: v in ws && v.key != w.key ==> HeroBefore(w, v)
  }

  ghost predicate KeyedWorkloads(ws: set<Workload>) {
    forall a, b :: a in ws && b in ws && a.key == b.key ==> a == b
  }

  lemma {:induction false} FrontIsFirst(ws: seq<Workload>)
    requires KeyedWorkloads(Elements(ws))
    ensures Front(ws).None? <==> ws == []
    ensures Front(ws).Some? ==> First(Front(ws).value, Elements(ws))
  {
    if ws == [] {
    } else {
      var init, w := ws[..|ws| - 1], ws[|ws| - 1];
      assert Elements(ws) == Elements(init) + {w};
      FrontIsFirst(init);
      var best := Front(init);
      if best.Some? {
        HeroBeforeIsOrder(w, best.value, w);
        forall v | v in Elements(ws) && v.key != Front(ws).value.key ensures HeroBefore(Front(ws).value, v) {
          HeroBeforeIsOrder(w, best.value, v);
        }
      }
    }
  }

  /**
   Two reconciles that list the same stuck heroes, in whatever orders, name the same next hero: at most
   one passes the line.
   */
  lemma {:induction false} OneFrontRunner(ws: seq<Workload>, vs: seq<Workload>)
    requires Elements(ws) == Elements(vs) && KeyedWorkloads(Elements(ws))
    ensures Front(ws) == Front(vs)
  {
    FrontIsFirst(ws);
    FrontIsFirst(vs);
    ElementsEmpty(ws);
    ElementsEmpty(vs);
    if ws != [] {
      HeroBeforeIsOrder(Front(ws).value, Front(vs).value, Front(ws).value);
    }
  }

  // ---- BlockingDrain ----

  ghost predicate OwnedByKey(drains: map<Name, Drain>) {
    forall h :: h in drains ==> drains[h].owner == h
  }

  /** o is the first owner other than self among those seen. */
  ghost predicate FirstOther(seen: set<Name>, self: Name, o: Name) {
    o in seen && o != self && forall h :: h in seen && h != self && h != o ==> OwnerBefore(o, h)
  }

  lemma {:induction false} FirstOtherStep(seen: set<Name>, self: Name, o: Name, next: Name)
    requires FirstOther(seen, self, o) && next !in seen && next != self
    ensures FirstOther(seen + {next}, self, if OwnerBefore(next, o) then next else o)
  {
    OwnerBeforeTotal(next, o);
    if OwnerBefore(next, o) {
      forall h | h in seen && h != self ensures OwnerBefore(next, h) {
        if h != o {
          OwnerBeforeTrans(next, o, h);
        }
      }
    }
  }

  /** The drain of the first other owner, whatever order the map is ranged in; none iff no other owner has one. */
  method BlockingDrain(drains: map<Name, Drain>, self: Name) returns (blocking: Option<Drain>)
    requires OwnedByKey(drains)
    ensures blocking.None? <==> drains.Keys <= {self}
    ensures blocking.Some? ==>
      FirstOther(drains.Keys, self, blocking.value.owner) && blocking.value == drains[blocking.value.owner]
  {
    blocking := None;
    var todo := drains.Keys;
    while todo != {}
      invariant todo <= drains.Keys
      invariant blocking.None? ==> drains.Keys - todo <= {self}
      invariant blocking.Some? ==>
        FirstOther(drains.Keys - todo, self, blocking.value.owner) && blocking.value == drains[blocking.value.owner]
      decreases |todo|
    {
      var owner :| owner in todo;
      ghost var seen := drains.Keys - todo;
      todo := todo - {owner};
      assert drains.Keys - todo == seen + {owner};
      if owner == self {
        continue;
      }
      if blocking.Some? {
        FirstOtherStep(seen, self, blocking.value.owner, owner);
      }
      if blocking.None? || OwnerBefore(owner, blocking.value.owner) {
        blocking := Some(drains[owner]);
      }
    }
    assert drains.Keys - {} == drains.Keys;
  }
}
