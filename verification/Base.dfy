/** Sequences, sums and the two orders (strings, descending numbers) that the planner sorts by. */
module Base {

  datatype Option<+T> = None | Some(value: T)

  function Sum(xs: seq<nat>): nat {
    if xs == [] then 0 else Sum(xs[..|xs| - 1]) + xs[|xs| - 1]
  }

  lemma {:induction false} SumConcat(xs: seq<nat>, ys: seq<nat>)
    ensures Sum(xs + ys) == Sum(xs) + Sum(ys)
  {
    if ys == [] {
      assert xs + ys == xs;
    } else {
      var n := |ys| - 1;
      assert (xs + ys)[..|xs + ys| - 1] == xs + ys[..n];
      SumConcat(xs, ys[..n]);
    }
  }

  function Repeat<T>(x: T, n: nat): (r: seq<T>)
    ensures |r| == n && forall i :: 0 <= i < n ==> r[i] == x
  {
    seq(n, _ => x)
  }

  lemma {:induction false} SumRepeat(x: nat, n: nat)
    ensures Sum(Repeat(x, n)) == n * x
  {
    if n == 0 {
    } else {
      SumRepeat(x, n - 1);
      assert Repeat(x, n)[..n - 1] == Repeat(x, n - 1);
      assert n * x == (n - 1) * x + x;
    }
  }

  lemma {:induction false} SumWithout(xs: seq<nat>, i: nat)
    requires i < |xs|
    ensures Sum(xs) == Sum(xs[..i] + xs[i + 1..]) + xs[i]
  {
    SumConcat(xs[..i], xs[i + 1..]);
    SumConcat(xs[..i + 1], xs[i + 1..]);
    assert xs == xs[..i + 1] + xs[i + 1..];
    assert xs[..i + 1][..i] == xs[..i];
  }

  lemma {:induction false} WithoutOne(xs: seq<nat>, i: nat)
    requires i < |xs|
    ensures multiset(xs[..i] + xs[i + 1..]) == multiset(xs) - multiset{xs[i]}
  {
    assert xs == xs[..i] + [xs[i]] + xs[i + 1..];
  }

  /** A sum does not depend on the order. */
  lemma {:induction false} SumReordered(xs: seq<nat>, ys: seq<nat>)
    requires multiset(xs) == multiset(ys)
    ensures Sum(xs) == Sum(ys)
    decreases |xs|
  {
    if xs == [] {
      assert |multiset(ys)| == 0;
    } else {
      var n := |xs| - 1;
      assert xs[n] in multiset(ys);
      var i :| 0 <= i < |ys| && ys[i] == xs[n];
      WithoutOne(xs, n);
      WithoutOne(ys, i);
      assert xs[..n] + xs[n + 1..] == xs[..n];
      SumReordered(xs[..n], ys[..i] + ys[i + 1..]);
      SumWithout(ys, i);
    }
  }

  function Filter<T>(s: seq<T>, keep: T -> bool): seq<T> {
    if s == [] then []
    else
      var rest := Filter(s[..|s| - 1], keep);
      if keep(s[|s| - 1]) then rest + [s[|s| - 1]] else rest
  }

  lemma {:induction false} FilterMember<T>(s: seq<T>, keep: T -> bool, x: T)
    ensures x in Filter(s, keep) <==> x in s && keep(x)
  {
    if s == [] {
    } else {
      FilterMember(s[..|s| - 1], keep, x);
      assert s == s[..|s| - 1] + [s[|s| - 1]];
    }
  }

  lemma {:induction false} FilterAll<T>(s: seq<T>, keep: T -> bool)
    requires forall x :: x in s ==> keep(x)
    ensures Filter(s, keep) == s
  {
    if s == [] {
    } else {
      FilterAll(s[..|s| - 1], keep);
    }
  }

  lemma {:induction false} FilterFilter<T>(s: seq<T>, p: T -> bool, q: T -> bool, both: T -> bool)
    requires forall x :: x in s ==> (both(x) <==> p(x) && q(x))
    ensures Filter(Filter(s, p), q) == Filter(s, both)
  {
    if s == [] {
    } else {
      var n := |s| - 1;
      assert s[n] in s && forall x :: x in s[..n] ==> x in s;
      FilterFilter(s[..n], p, q, both);
      if p(s[n]) {
        var rest := Filter(s[..n], p);
        assert (rest + [s[n]])[..|rest|] == rest;
      }
    }
  }

  lemma {:induction false} FilterSame<T>(s: seq<T>, p: T -> bool, q: T -> bool)
    requires forall x :: x in s ==> (p(x) <==> q(x))
    ensures Filter(s, p) == Filter(s, q)
  {
    if s == [] {
    } else {
      var n := |s| - 1;
      assert s[n] in s && forall x :: x in s[..n] ==> x in s;
      FilterSame(s[..n], p, q);
    }
  }

  lemma {:induction false} FilterDistinct<T>(s: seq<T>, keep: T -> bool)
    requires forall i, j :: 0 <= i < j < |s| ==> s[i] != s[j]
    ensures forall i, j :: 0 <= i < j < |Filter(s, keep)| ==> Filter(s, keep)[i] != Filter(s, keep)[j]
  {
    if s == [] {
    } else {
      var n := |s| - 1;
      FilterDistinct(s[..n], keep);
      var rest := Filter(s[..n], keep);
      forall i | 0 <= i < |rest| ensures rest[i] != s[n] {
        FilterMember(s[..n], keep, rest[i]);
      }
    }
  }

  lemma {:induction false} FilterLength<T>(s: seq<T>, keep: T -> bool)
    ensures |Filter(s, keep)| <= |s|
    ensures |Filter(s, keep)| == |s| <==> forall i :: 0 <= i < |s| ==> keep(s[i])
  {
    if s == [] {
    } else {
      FilterLength(s[..|s| - 1], keep);
    }
  }

  function Map<S, T>(s: seq<S>, f: S -> T): (r: seq<T>)
    ensures |r| == |s| && forall i :: 0 <= i < |s| ==> r[i] == f(s[i])
  {
    seq(|s|, i requires 0 <= i < |s| => f(s[i]))
  }

  /**
   The `kept := s[:0]` idiom: the elements to keep, rewritten by f, are packed to the front of the same
   backing array. Reads stay ahead of writes, so nothing is lost; what lies behind the result is garbage.
   */
  method Compact<T>(a: array<T>, n: nat, keep: T -> bool, f: T -> T) returns (k: nat)
    requires n <= a.Length
    modifies a
    ensures k <= n && a[..k] == Map(Filter(old(a[..n]), keep), f)
    ensures a[n..] == old(a[n..])
  {
    k := 0;
    for i := 0 to n
      invariant k <= i
      invariant a[i..] == old(a[i..])
      invariant a[..k] == Map(Filter(old(a[..i]), keep), f)
    {
      assert old(a[..i + 1])[..i] == old(a[..i]);
      assert a[i] == old(a[i]) by {
        assert a[i..][0] == old(a[i..])[0];
      }
      if !keep(a[i]) {
        continue;
      }
      a[k] := f(a[i]);
      k := k + 1;
    }
  }

  /** slices.Index */
  function IndexOf(s: seq<string>, x: string): (i: int)
    ensures -1 <= i < |s|
    ensures i >= 0 ==> s[i] == x && x !in s[..i]
    ensures i < 0 <==> x !in s
  {
    if s == [] then -1
    else if s[0] == x then 0
    else
      var i := IndexOf(s[1..], x);
      assert s == [s[0]] + s[1..];
      if i < 0 then -1
      else
        assert s[..i + 1] == [s[0]] + s[1..][..i];
        i + 1
  }

  // ---- strings.Compare(a, b) < 0: byte-wise lexicographic order ----

  predicate StrLess(a: string, b: string) {
    if b == "" then false
    else if a == "" then true
    else a[0] < b[0] || (a[0] == b[0] && StrLess(a[1..], b[1..]))
  }

  lemma {:induction false} StrLessTotal(a: string, b: string)
    ensures !(StrLess(a, b) && StrLess(b, a))
    ensures a == b || StrLess(a, b) || StrLess(b, a)
    ensures a == b ==> !StrLess(a, b)
  {
    if a != "" && b != "" {
      StrLessTotal(a[1..], b[1..]);
      assert a == [a[0]] + a[1..] && b == [b[0]] + b[1..];
    }
  }

  lemma {:induction false} StrLessTrans(a: string, b: string, c: string)
    requires StrLess(a, b) && StrLess(b, c)
    ensures StrLess(a, c)
  {
    if a != "" && a[0] == b[0] == c[0] {
      StrLessTrans(a[1..], b[1..], c[1..]);
    }
  }

  /** a ends or has the smaller character where the two first differ. */
  lemma {:induction false} StrLessMeaning(a: string, b: string)
    ensures StrLess(a, b) <==> exists k :: 0 <= k < |b| && k <= |a| && a[..k] == b[..k] && (k == |a| || a[k] < b[k])
  {
    if b != "" && a != "" && a[0] == b[0] {
      StrLessMeaning(a[1..], b[1..]);
      if StrLess(a, b) {
        var k :| 0 <= k < |b[1..]| && k <= |a[1..]| && a[1..][..k] == b[1..][..k]
          && (k == |a[1..]| || a[1..][k] < b[1..][k]);
        assert a[..k + 1] == [a[0]] + a[1..][..k] && b[..k + 1] == [b[0]] + b[1..][..k];
      }
      if k :| 0 <= k < |b| && k <= |a| && a[..k] == b[..k] && (k == |a| || a[k] < b[k]) {
        assert k > 0;
        assert a[1..][..k - 1] == a[..k][1..] == b[..k][1..] == b[1..][..k - 1];
      }
    } else if b != "" {
      assert a[..0] == b[..0];
      if k :| 0 < k < |b| && k <= |a| && a[..k] == b[..k] {
        assert a[..k][0] == b[..k][0];
      }
    }
  }

  ghost predicate Ascending(s: seq<string>) {
    forall i, j :: 0 <= i < j < |s| ==> StrLess(s[i], s[j])
  }

  ghost function Elements<T>(s: seq<T>): set<T> {
    set x | x in s
  }

  lemma {:induction false} ElementsEmpty<T>(s: seq<T>)
    ensures Elements(s) == {} <==> s == []
  {
    if s == [] {
    } else {
      assert s[0] in Elements(s);
    }
  }

  /** slices.Sort on distinct strings: insertion keeps the result ascending. */
  function InsertString(x: string, s: seq<string>): (r: seq<string>)
    ensures forall y :: y in r <==> y == x || y in s
    ensures x !in s && Ascending(s) ==> Ascending(r)
  {
    if s == [] then [x]
    else if StrLess(s[0], x) then
      var t := InsertString(x, s[1..]);
      assert s == [s[0]] + s[1..];
      assert Ascending(s) && x !in s ==> Ascending([s[0]] + t) by {
        if Ascending(s) && x !in s {
          forall j | 0 <= j < |t| ensures StrLess(s[0], t[j]) {
            assert t[j] in t;
          }
        }
      }
      [s[0]] + t
    else
      assert Ascending(s) && x !in s ==> Ascending([x] + s) by {
        if Ascending(s) && x !in s {
          StrLessTotal(x, s[0]);
          forall j | 0 < j < |s| ensures StrLess(x, s[j]) {
            StrLessTrans(x, s[0], s[j]);
          }
        }
      }
      [x] + s
  }

  function SortStrings(s: seq<string>): (r: seq<string>)
    ensures forall y :: y in r <==> y in s
    ensures (forall i, j :: 0 <= i < j < |s| ==> s[i] != s[j]) ==> Ascending(r)
  {
    if s == [] then []
    else
      assert s == [s[0]] + s[1..];
      InsertString(s[0], SortStrings(s[1..]))
  }

  /** An ascending listing of a set is unique, so sorting hides the order a Go map was ranged in. */
  lemma {:induction false} AscendingUnique(s: seq<string>, t: seq<string>)
    requires Ascending(s) && Ascending(t)
    requires Elements(s) == Elements(t)
    ensures s == t
  {
    if s == [] || t == [] {
      ElementsEmpty(s);
      ElementsEmpty(t);
    } else {
      assert s[0] in Elements(t) && t[0] in Elements(s);
      var i :| 0 <= i < |t| && t[i] == s[0];
      var j :| 0 <= j < |s| && s[j] == t[0];
      StrLessTotal(s[0], t[0]);
      assert s[0] == t[0];
      forall x ensures x in s[1..] <==> x in t[1..] {
        if x in s[1..] {
          var k :| 0 < k < |s| && s[k] == x;
          StrLessTotal(x, s[0]);
          assert x in Elements(t);
          assert t == [t[0]] + t[1..];
        }
        if x in t[1..] {
          var k :| 0 < k < |t| && t[k] == x;
          StrLessTotal(x, t[0]);
          assert x in Elements(s);
          assert s == [s[0]] + s[1..];
        }
      }
      AscendingUnique(s[1..], t[1..]);
      assert s == [s[0]] + s[1..] && t == [t[0]] + t[1..];
    }
  }

  ghost predicate IsSortedListing(s: set<string>, r: seq<string>) {
    Ascending(r) && Elements(r) == s
  }

  lemma {:induction false} SortedListingExists(s: set<string>)
    ensures exists r :: IsSortedListing(s, r)
  {
    if s == {} {
      assert IsSortedListing(s, []);
    } else {
      var x :| x in s;
      SortedListingExists(s - {x});
      var r :| IsSortedListing(s - {x}, r);
      assert x !in r by { assert x !in Elements(r); }
      var r' := InsertString(x, r);
      forall y ensures y in Elements(r') <==> y in s {
        assert y in r <==> y in Elements(r);
      }
      assert IsSortedListing(s, r');
    }
  }

  /** The ascending listing of a set of strings: what ranging over map keys and sorting yields. */
  ghost function SortedListing(s: set<string>): (r: seq<string>)
    ensures IsSortedListing(s, r)
  {
    SortedListingExists(s);
    var r :| IsSortedListing(s, r);
    r
  }

  lemma {:induction false} SortedListingUnique(s: set<string>, r: seq<string>)
    requires IsSortedListing(s, r)
    ensures r == SortedListing(s)
  {
    AscendingUnique(r, SortedListing(s));
  }

  // ---- slices.SortFunc(units, descending) ----

  predicate Descending(s: seq<nat>) {
    forall i, j :: 0 <= i < j < |s| ==> s[i] >= s[j]
  }

  function InsertDesc(x: nat, s: seq<nat>): (r: seq<nat>)
    ensures forall y :: y in r <==> y == x || y in s
  {
    if s == [] || x >= s[0] then [x] + s
    else
      assert s == [s[0]] + s[1..];
      [s[0]] + InsertDesc(x, s[1..])
  }

  function SortDesc(s: seq<nat>): seq<nat> {
    if s == [] then [] else InsertDesc(s[0], SortDesc(s[1..]))
  }

  lemma {:induction false} InsertDescKeeps(x: nat, s: seq<nat>)
    ensures multiset(InsertDesc(x, s)) == multiset(s) + multiset{x}
  {
    if s != [] && x < s[0] {
      InsertDescKeeps(x, s[1..]);
      assert s == [s[0]] + s[1..];
    }
  }

  lemma {:induction false} InsertDescSorts(x: nat, s: seq<nat>)
    requires Descending(s)
    ensures Descending(InsertDesc(x, s))
  {
    if s != [] && x < s[0] {
      InsertDescSorts(x, s[1..]);
      var t := InsertDesc(x, s[1..]);
      assert s == [s[0]] + s[1..];
      forall j | 0 <= j < |t| ensures s[0] >= t[j] {
        assert t[j] in t;
      }
    }
  }

  lemma {:induction false} SortDescSorts(s: seq<nat>)
    ensures Descending(SortDesc(s))
    ensures multiset(SortDesc(s)) == multiset(s)
    ensures |SortDesc(s)| == |s|
  {
    if s != [] {
      SortDescSorts(s[1..]);
      InsertDescSorts(s[0], SortDesc(s[1..]));
      InsertDescKeeps(s[0], SortDesc(s[1..]));
      assert s == [s[0]] + s[1..];
    }
    assert |multiset(SortDesc(s))| == |multiset(s)|;
  }
}
