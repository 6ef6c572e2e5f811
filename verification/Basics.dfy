/**
  Shared vocabulary: optional values, ordered name lists and finite sums.

  A player's name is an arbitrary string in the program; all that is ever asked of
  it is equality and the total order of std::map and QStringList::sort, so a
  natural number stands for a name's rank in that order.
 */
module Basics {
  type Name = nat

  datatype Option<+T> = None | Some(value: T)

  function Min(a: int, b: int): int {
    if a <= b then a else b
  }

  // ----- the least element of a set, and a set read out in ascending order -----

  ghost predicate IsLeast(m: Name, s: set<Name>) {
    m in s && forall x <- s :: m <= x
  }

  lemma LeastExists(s: set<Name>)
    requires s != {}
    ensures exists m :: IsLeast(m, s)
  {
    var x :| x in s;
    if s == {x} {
      assert IsLeast(x, s);
    } else {
      LeastExists(s - {x});
      var m :| IsLeast(m, s - {x});
      assert forall y <- s :: y == x || y in s - {x};
      assert IsLeast(if x < m then x else m, s);
    }
  }

  ghost function Least(s: set<Name>): (m: Name)
    requires s != {}
    ensures IsLeast(m, s)
  {
    LeastExists(s);
    var m :| IsLeast(m, s);
    m
  }

  ghost predicate Ascending(l: seq<int>) {
    forall i, j | 0 <= i < j < |l| :: l[i] < l[j]
  }

  ghost function Sorted(s: set<Name>): (r: seq<Name>)
    ensures forall n :: n in r <==> n in s
    ensures |r| == |s|
    ensures forall i, j | 0 <= i < j < |r| :: r[i] < r[j]
  {
    if s == {} then []
    else
      var m := Least(s);
      [m] + Sorted(s - {m})
  }

  // An ascending list is determined by the names on it.
  lemma {:induction false} SortedUnique(s: set<Name>, r: seq<Name>)
    requires forall n :: n in r <==> n in s
    requires forall i, j | 0 <= i < j < |r| :: r[i] < r[j]
    ensures r == Sorted(s)
  {
    if |r| == 0 {
      assert s == {};
    } else {
      assert r[0] in r;
      var m := Least(s);
      var k :| 0 <= k < |r| && r[k] == m;
      assert k == 0;
      var t := r[1..];
      assert r == [m] + t;
      forall n ensures n in t <==> n in s - {m} {
        if n in t {
          var i :| 0 <= i < |t| && t[i] == n;
          assert r[i + 1] == n && r[0] < r[i + 1];
        }
      }
      SortedUnique(s - {m}, t);
    }
  }

  // ----- sums over a finite set of names -----

  ghost function Sum(s: set<Name>, f: map<Name, int>): int
    requires s <= f.Keys
  {
    if s == {} then 0 else f[Least(s)] + Sum(s - {Least(s)}, f)
  }

  lemma {:induction false} SumRemove(s: set<Name>, x: Name, f: map<Name, int>)
    requires s <= f.Keys && x in s
    ensures Sum(s, f) == f[x] + Sum(s - {x}, f)
  {
    var m := Least(s);
    if x != m {
      var rest := s - {x};
      SumRemove(s - {m}, x, f);
      assert s - {m} - {x} == rest - {m};
      assert IsLeast(m, rest);
      assert Least(rest) == m;
    }
  }

  lemma {:induction false} SumEqual(s: set<Name>, f: map<Name, int>, g: map<Name, int>)
    requires s <= f.Keys && s <= g.Keys
    requires forall n <- s :: f[n] == g[n]
    ensures Sum(s, f) == Sum(s, g)
  {
    if s != {} { SumEqual(s - {Least(s)}, f, g); }
  }

  lemma {:induction false} SumAtMost(s: set<Name>, f: map<Name, int>, g: map<Name, int>)
    requires s <= f.Keys && s <= g.Keys
    requires forall n <- s :: f[n] <= g[n]
    ensures Sum(s, f) <= Sum(s, g)
  {
    if s != {} { SumAtMost(s - {Least(s)}, f, g); }
  }

  lemma {:induction false} SumBelow(s: set<Name>, f: map<Name, int>, g: map<Name, int>, x: Name)
    requires s <= f.Keys && s <= g.Keys
    requires forall n <- s :: f[n] <= g[n]
    requires x in s && f[x] < g[x]
    ensures Sum(s, f) < Sum(s, g)
  {
    SumRemove(s, x, f);
    SumRemove(s, x, g);
    SumAtMost(s - {x}, f, g);
  }

  lemma {:induction false} SumConstant(s: set<Name>, f: map<Name, int>, k: int)
    requires s <= f.Keys
    requires forall n <- s :: f[n] == k
    ensures Sum(s, f) == |s| * k
  {
    if s != {} { SumConstant(s - {Least(s)}, f, k); }
  }

  lemma {:induction false} SumAdd(s: set<Name>, f: map<Name, int>, g: map<Name, int>, h: map<Name, int>)
    requires s <= f.Keys && s <= g.Keys && s <= h.Keys
    requires forall n <- s :: h[n] == f[n] + g[n]
    ensures Sum(s, h) == Sum(s, f) + Sum(s, g)
  {
    if s != {} { SumAdd(s - {Least(s)}, f, g, h); }
  }

  lemma {:induction false} SumDropZeros(s: set<Name>, t: set<Name>, f: map<Name, int>)
    requires t <= s <= f.Keys
    requires forall n <- s - t :: f[n] == 0
    ensures Sum(s, f) == Sum(t, f)
    decreases s
  {
    if x :| x in s - t {
      SumRemove(s, x, f);
      SumDropZeros(s - {x}, t, f);
    } else {
      assert s == t;
    }
  }

  // ----- finite sets -----

  lemma SomeElement(s: set<int>)
    ensures s == {} || exists x :: x in s
  {
    if forall x :: x !in s { assert s == {}; }
  }

  lemma {:induction false} SubsetSize<T>(a: set<T>, b: set<T>)
    requires a <= b
    ensures |a| <= |b|
    ensures |a| == |b| ==> a == b
  {
    assert b == a + (b - a);
  }

  ghost function Upto(n: nat): (s: set<int>)
    ensures |s| == n
    ensures forall i :: i in s <==> 1 <= i <= n
  {
    if n == 0 then {} else Upto(n - 1) + {n}
  }
}
