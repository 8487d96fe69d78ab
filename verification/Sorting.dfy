/** Python's `sorted`: a stable sort, as insertion sort over an arbitrary total preorder. */
module Sorting {

  ghost predicate TotalPreorder<T(!new)>(le: (T, T) -> bool) {
    && (forall a, b :: le(a, b) || le(b, a))
    && (forall a, b, c :: le(a, b) && le(b, c) ==> le(a, c))
  }

  ghost predicate Antisymmetric<T(!new)>(le: (T, T) -> bool) {
    forall a, b :: le(a, b) && le(b, a) ==> a == b
  }

  ghost predicate Sorted<T(!new)>(le: (T, T) -> bool, xs: seq<T>) {
    forall i, j | 0 <= i < j < |xs| :: le(xs[i], xs[j])
  }

  function Insert<T>(le: (T, T) -> bool, x: T, ys: seq<T>): seq<T> {
    if ys == [] then [x]
    else if le(x, ys[0]) then [x] + ys
    else [ys[0]] + Insert(le, x, ys[1..])
  }

  function Sort<T>(le: (T, T) -> bool, xs: seq<T>): seq<T> {
    if xs == [] then [] else Insert(le, xs[0], Sort(le, xs[1..]))
  }

  function Filter<T>(p: T -> bool, xs: seq<T>): seq<T> {
    if xs == [] then [] else if p(xs[0]) then [xs[0]] + Filter(p, xs[1..]) else Filter(p, xs[1..])
  }

  lemma {:induction false} InsertMultiset<T>(le: (T, T) -> bool, x: T, ys: seq<T>)
    ensures multiset(Insert(le, x, ys)) == multiset{x} + multiset(ys)
  {
    if ys != [] && !le(x, ys[0]) {
      InsertMultiset(le, x, ys[1..]);
      assert ys == [ys[0]] + ys[1..];
    }
  }

  lemma {:induction false} SortMultiset<T>(le: (T, T) -> bool, xs: seq<T>)
    ensures multiset(Sort(le, xs)) == multiset(xs)
    ensures |Sort(le, xs)| == |xs|
  {
    if xs != [] {
      SortMultiset(le, xs[1..]);
      InsertMultiset(le, xs[0], Sort(le, xs[1..]));
      assert xs == [xs[0]] + xs[1..];
    }
    assert |multiset(Sort(le, xs))| == |multiset(xs)|;
  }

  lemma InSort<T>(le: (T, T) -> bool, xs: seq<T>, x: T)
    ensures x in Sort(le, xs) <==> x in xs
  {
    SortMultiset(le, xs);
    assert x in multiset(Sort(le, xs)) <==> x in multiset(xs);
  }

  lemma {:induction false} InsertSorted<T(!new)>(le: (T, T) -> bool, x: T, ys: seq<T>)
    requires TotalPreorder(le) && Sorted(le, ys)
    ensures Sorted(le, Insert(le, x, ys))
  {
    if ys != [] && !le(x, ys[0]) {
      var tail := Insert(le, x, ys[1..]);
      InsertSorted(le, x, ys[1..]);
      forall z | z in tail ensures le(ys[0], z) {
        InsertMultiset(le, x, ys[1..]);
        assert z in multiset(tail);
        if z != x {
          var k :| 0 <= k < |ys[1..]| && ys[1..][k] == z;
          assert ys[k + 1] == z;
        }
      }
    } else if ys != [] {
      var r := [x] + ys;
      forall i, j | 0 <= i < j < |r| ensures le(r[i], r[j]) {
        if i == 0 && j > 1 {
          assert le(x, ys[0]) && le(ys[0], ys[j - 1]);
        }
      }
    }
  }

  lemma {:induction false} SortSorted<T(!new)>(le: (T, T) -> bool, xs: seq<T>)
    requires TotalPreorder(le)
    ensures Sorted(le, Sort(le, xs))
  {
    if xs != [] {
      SortSorted(le, xs[1..]);
      InsertSorted(le, xs[0], Sort(le, xs[1..]));
    }
  }

  lemma {:induction false} FilterFrom<T>(p: T -> bool, xs: seq<T>)
    ensures forall z :: z in Filter(p, xs) <==> z in xs && p(z)
    ensures |Filter(p, xs)| <= |xs|
  {
    if xs != [] {
      FilterFrom(p, xs[1..]);
      assert xs == [xs[0]] + xs[1..];
    }
  }

  lemma {:induction false} FilterInsert<T(!new)>(p: T -> bool, le: (T, T) -> bool, x: T, ys: seq<T>)
    requires TotalPreorder(le) && Sorted(le, ys)
    ensures Filter(p, Insert(le, x, ys)) == if p(x) then Insert(le, x, Filter(p, ys)) else Filter(p, ys)
  {
    if ys == [] {
    } else if le(x, ys[0]) {
      var fs := Filter(p, ys);
      assert ([x] + ys)[1..] == ys;
      if fs != [] {
        FilterFrom(p, ys);
        assert fs[0] in fs;
        var k :| 0 <= k < |ys| && ys[k] == fs[0];
        assert le(x, fs[0]);
      }
    } else {
      assert ([ys[0]] + Insert(le, x, ys[1..]))[1..] == Insert(le, x, ys[1..]);
      FilterInsert(p, le, x, ys[1..]);
      if p(ys[0]) && p(x) {
        assert Filter(p, ys)[1..] == Filter(p, ys[1..]);
      }
    }
  }

  /** A stable sort commutes with filtering. */
  lemma {:induction false} FilterSort<T(!new)>(p: T -> bool, le: (T, T) -> bool, xs: seq<T>)
    requires TotalPreorder(le)
    ensures Filter(p, Sort(le, xs)) == Sort(le, Filter(p, xs))
  {
    if xs != [] {
      FilterSort(p, le, xs[1..]);
      SortSorted(le, xs[1..]);
      FilterInsert(p, le, xs[0], Sort(le, xs[1..]));
      if p(xs[0]) {
        assert Filter(p, xs)[1..] == Filter(p, xs[1..]);
      }
    }
  }

  /** Items the order does not tell apart keep their places. */
  lemma {:induction false} SortStable<T(!new)>(le: (T, T) -> bool, xs: seq<T>)
    requires forall i, j | 0 <= i < |xs| && 0 <= j < |xs| :: le(xs[i], xs[j])
    ensures Sort(le, xs) == xs
  {
    if xs != [] {
      SortStable(le, xs[1..]);
      assert |xs| > 1 ==> le(xs[0], xs[1]);
    }
  }

  /** So within a sorted list the items of one rank stand in their original order. */
  lemma TiesKeepOrder<T(!new)>(p: T -> bool, le: (T, T) -> bool, xs: seq<T>)
    requires TotalPreorder(le) && forall a, b :: p(a) && p(b) ==> le(a, b)
    ensures Filter(p, Sort(le, xs)) == Filter(p, xs)
  {
    FilterSort(p, le, xs);
    FilterFrom(p, xs);
    var ys := Filter(p, xs);
    forall i | 0 <= i < |ys| ensures p(ys[i]) {
      assert ys[i] in ys;
    }
    SortStable(le, ys);
  }

  lemma {:induction false} FilterConcat<T>(p: T -> bool, xs: seq<T>, ys: seq<T>)
    ensures Filter(p, xs + ys) == Filter(p, xs) + Filter(p, ys)
  {
    if xs == [] {
      assert xs + ys == ys;
    } else {
      assert (xs + ys)[1..] == xs[1..] + ys;
      FilterConcat(p, xs[1..], ys);
    }
  }

  lemma {:induction false} FilterTwice<T>(p: T -> bool, q: T -> bool, both: T -> bool, xs: seq<T>)
    requires forall i | 0 <= i < |xs| :: both(xs[i]) == (q(xs[i]) && p(xs[i]))
    ensures Filter(p, Filter(q, xs)) == Filter(both, xs)
  {
    if xs != [] {
      FilterTwice(p, q, both, xs[1..]);
      if q(xs[0]) {
        assert ([xs[0]] + Filter(q, xs[1..]))[1..] == Filter(q, xs[1..]);
      }
    }
  }

  lemma {:induction false} FilterSame<T>(p: T -> bool, q: T -> bool, xs: seq<T>)
    requires forall i | 0 <= i < |xs| :: p(xs[i]) == q(xs[i])
    ensures Filter(p, xs) == Filter(q, xs)
  {
    if xs != [] {
      FilterSame(p, q, xs[1..]);
    }
  }

  lemma {:induction false} FilterKeeps<T>(p: T -> bool, xs: seq<T>)
    requires forall i | 0 <= i < |xs| :: p(xs[i])
    ensures Filter(p, xs) == xs
  {
    if xs != [] {
      FilterKeeps(p, xs[1..]);
    }
  }

  lemma {:induction false} FilterNone<T>(p: T -> bool, xs: seq<T>)
    ensures Filter(p, xs) == [] <==> forall i | 0 <= i < |xs| :: !p(xs[i])
  {
    if xs != [] {
      FilterNone(p, xs[1..]);
      assert forall i | 0 <= i < |xs| :: xs[i] == if i == 0 then xs[0] else xs[1..][i - 1];
    }
  }

  lemma SortedHead<T(!new)>(le: (T, T) -> bool, xs: seq<T>, ys: seq<T>)
    requires Antisymmetric(le) && Sorted(le, xs) && Sorted(le, ys) && multiset(xs) == multiset(ys)
    requires xs != [] && ys != []
    ensures xs[0] == ys[0]
  {
    assert xs[0] in multiset(ys) && ys[0] in multiset(xs);
    var i :| 0 <= i < |ys| && ys[i] == xs[0];
    var j :| 0 <= j < |xs| && xs[j] == ys[0];
    if i != 0 && j != 0 {
      assert le(ys[0], ys[i]) && le(xs[0], xs[j]);
    }
  }

  lemma RestMultiset<T>(xs: seq<T>)
    requires xs != []
    ensures multiset(xs[1..]) == multiset(xs) - multiset{xs[0]}
  {
    assert xs == [xs[0]] + xs[1..];
  }

  lemma {:induction false} SortedUnique<T(!new)>(le: (T, T) -> bool, xs: seq<T>, ys: seq<T>)
    requires Antisymmetric(le) && Sorted(le, xs) && Sorted(le, ys) && multiset(xs) == multiset(ys)
    ensures xs == ys
  {
    if xs == [] {
      assert |multiset(ys)| == |ys|;
    } else {
      assert |multiset(xs)| == |xs| && |multiset(ys)| == |ys|;
      SortedHead(le, xs, ys);
      RestMultiset(xs);
      RestMultiset(ys);
      assert xs == [xs[0]] + xs[1..] && ys == [ys[0]] + ys[1..];
      SortedUnique(le, xs[1..], ys[1..]);
    }
  }

  /** Over a total order the sorted list is canonical: it forgets the order and nothing else. */
  lemma SortCanonical<T(!new)>(le: (T, T) -> bool, xs: seq<T>, ys: seq<T>)
    requires Antisymmetric(le) && TotalPreorder(le)
    ensures Sort(le, xs) == Sort(le, ys) <==> multiset(xs) == multiset(ys)
  {
    SortMultiset(le, xs);
    SortMultiset(le, ys);
    if multiset(xs) == multiset(ys) {
      SortSorted(le, xs);
      SortSorted(le, ys);
      SortedUnique(le, Sort(le, xs), Sort(le, ys));
    }
  }

  /** Code point order on strings. */
  predicate StrLe(a: string, b: string) {
    a == [] || (b != [] && (a[0] < b[0] || (a[0] == b[0] && StrLe(a[1..], b[1..]))))
  }

  lemma {:induction false} StrLeTransitive(a: string, b: string, c: string)
    requires StrLe(a, b) && StrLe(b, c)
    ensures StrLe(a, c)
  {
    if a != [] && a[0] == b[0] && b[0] == c[0] {
      StrLeTransitive(a[1..], b[1..], c[1..]);
    }
  }

  lemma {:induction false} StrLeTotal(a: string, b: string)
    ensures StrLe(a, b) || StrLe(b, a)
    ensures StrLe(a, b) && StrLe(b, a) ==> a == b
  {
    if a != [] && b != [] && a[0] == b[0] {
      StrLeTotal(a[1..], b[1..]);
      assert a == [a[0]] + a[1..] && b == [b[0]] + b[1..];
    }
  }

  /** The first different character decides, and a prefix comes first. */
  lemma {:induction false} StrLeDecides(p: string, a: char, b: char, x: string, y: string)
    ensures a < b ==> StrLe(p + [a] + x, p + [b] + y) && !StrLe(p + [b] + y, p + [a] + x)
    ensures StrLe(p, p + x)
    decreases |p|
  {
    var s, t := p + [a] + x, p + [b] + y;
    if p == [] {
      assert s[0] == a && t[0] == b;
    } else {
      assert s[0] == t[0] == p[0] && s[1..] == p[1..] + [a] + x && t[1..] == p[1..] + [b] + y;
      assert (p + x)[0] == p[0] && (p + x)[1..] == p[1..] + x;
      StrLeDecides(p[1..], a, b, x, y);
    }
  }

  lemma StrLeOrder()
    ensures TotalPreorder(StrLe) && Antisymmetric(StrLe)
  {
    forall a: string, b: string ensures StrLe(a, b) || StrLe(b, a) {
      StrLeTotal(a, b);
    }
    forall a: string, b: string | StrLe(a, b) && StrLe(b, a) ensures a == b {
      StrLeTotal(a, b);
    }
    forall a: string, b: string, c: string | StrLe(a, b) && StrLe(b, c) ensures StrLe(a, c) {
      StrLeTransitive(a, b, c);
    }
  }
}
