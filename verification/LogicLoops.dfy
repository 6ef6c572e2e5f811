/**
  The loops of the round engine over hashes and lists, each proved against the set-level function
  it computes. Hashes are walked in any order.
 */
module LogicLoops {
  import opened Basics
  import opened Rules
  import opened Rps
  import opened Machine
  import opened Accounting

  // ----- keys in name order -----

  method SortNames(s: set<Name>) returns (r: seq<Name>)
    ensures r == Sorted(s)
  {
    hide Sorted;
    r := [];
    var left := s;
    BeginsAll(s, r);
    while left != {}
      invariant Begins(s, r, left)
      decreases left
    {
      var m := LeastOf(left);
      LeastFirst(left, m);
      BeginsOn(s, r, left, m);
      r := r + [m];
      left := left - {m};
    }
    BeginsAll(s, r);
  }

  ghost predicate Begins(s: set<Name>, r: seq<Name>, left: set<Name>) {
    Sorted(s) == r + Sorted(left)
  }

  lemma BeginsOn(s: set<Name>, r: seq<Name>, left: set<Name>, m: Name)
    requires Begins(s, r, left) && Sorted(left) == [m] + Sorted(left - {m})
    ensures Begins(s, r + [m], left - {m})
  {
    hide Sorted;
    assert r + ([m] + Sorted(left - {m})) == r + [m] + Sorted(left - {m});
  }

  lemma BeginsAll(s: set<Name>, r: seq<Name>)
    ensures Begins(s, [], s)
    ensures Begins(s, r, {}) ==> r == Sorted(s)
  {
    assert Sorted({}) == [];
  }

  method LeastOf(s: set<Name>) returns (m: Name)
    requires s != {}
    ensures IsLeast(m, s)
  {
    m :| m in s;
    var left := s;
    while left != {}
      invariant left <= s && m in s
      invariant forall x | x in s && x !in left :: m <= x
      decreases left
    {
      var x :| x in left;
      if x < m { m := x; }
      left := left - {x};
    }
  }

  lemma LeastFirst(s: set<Name>, m: Name)
    requires IsLeast(m, s)
    ensures Sorted(s) == [m] + Sorted(s - {m})
  {
    assert Least(s) == m;
  }

  // ----- what each winner is owed, and the orders left -----

  function RemoveAll(l: seq<int>, x: int): seq<int>
    decreases |l|
  {
    if l == [] then [] else RemoveAll(l[..|l| - 1], x) + (if l[|l| - 1] == x then [] else [l[|l| - 1]])
  }

  lemma {:induction false} TakeOrder(n: nat, taken: set<int>, o: int)
    ensures FreeOrders(n, taken + {o}) == RemoveAll(FreeOrders(n, taken), o)
  {
    if n > 0 {
      TakeOrder(n - 1, taken, o);
      var below, after := FreeOrders(n - 1, taken), FreeOrders(n - 1, taken + {o});
      assert below + [] == below && after + [] == after;
      if n !in taken {
        RemoveLast(below, n, o);
        assert (n in taken + {o}) == (n == o);
      }
    }
  }

  lemma RemoveLast(l: seq<int>, n: int, x: int)
    ensures RemoveAll(l + [n], x) == RemoveAll(l, x) + (if n == x then [] else [n])
  {
    assert (l + [n])[..|l|] == l;
  }

  method CountWinners(winners: seq<Name>) returns (counts: map<Name, int>, orders: seq<int>)
    ensures forall n :: n in counts <==> n in winners
    ensures forall n <- counts :: counts[n] == multiset(winners)[n]
    ensures orders == FreeOrders(|winners|, {})
  {
    counts, orders := map[], [];
    for i := 0 to |winners|
      invariant forall n :: n in counts <==> n in winners[..i]
      invariant forall n <- counts :: counts[n] == multiset(winners[..i])[n]
      invariant orders == FreeOrders(i, {})
    {
      var p := winners[i];
      assert winners[..i + 1] == winners[..i] + [p];
      counts := counts[p := (if p in counts then counts[p] else 0) + 1];
      orders := orders + [i + 1];
    }
    assert winners[..|winners|] == winners;
  }

  lemma OneLessLeft(mine: set<int>, left: set<int>, o: int)
    requires o in left
    ensures |mine - (left - {o})| == |mine - left| + (if o in mine then 1 else 0)
  {
    assert mine - (left - {o}) == (mine - left) + (if o in mine then {o} else {});
  }

  method DropConfirmed(counts0: map<Name, int>, orders0: seq<int>, n: nat, confirmed: map<int, Name>)
    returns (counts: map<Name, int>, orders: seq<int>)
    requires orders0 == FreeOrders(n, {}) && forall o <- confirmed :: confirmed[o] in counts0
    ensures counts.Keys == counts0.Keys
    ensures forall p <- counts :: counts[p] == counts0[p] - |OrdersOf(confirmed, p)|
    ensures orders == FreeOrders(n, confirmed.Keys)
  {
    hide FreeOrders, RemoveAll;
    counts, orders := counts0, orders0;
    var left := confirmed.Keys;
    assert confirmed.Keys - left == {};
    assert forall p :: OrdersOf(confirmed, p) - left == {};
    while left != {}
      invariant left <= confirmed.Keys && counts.Keys == counts0.Keys
      invariant orders == FreeOrders(n, confirmed.Keys - left)
      invariant forall p <- counts :: counts[p] == counts0[p] - |OrdersOf(confirmed, p) - left|
      decreases left
    {
      SomeElement(left);
      var o: int :| o in left;
      TakeOrder(n, confirmed.Keys - left, o);
      assert confirmed.Keys - (left - {o}) == confirmed.Keys - left + {o};
      counts, orders := DropOne(counts, orders, counts0, confirmed, left, o);
      left := left - {o};
    }
    assert confirmed.Keys - {} == confirmed.Keys;
    forall p ensures OrdersOf(confirmed, p) - {} == OrdersOf(confirmed, p) {}
  }

  method DropOne(counts1: map<Name, int>, orders1: seq<int>, ghost counts0: map<Name, int>, confirmed: map<int, Name>, ghost left: set<int>, o: int)
    returns (counts: map<Name, int>, orders: seq<int>)
    requires o in left && o in confirmed && confirmed[o] in counts1 && counts1.Keys == counts0.Keys
    requires forall p <- counts1 :: counts1[p] == counts0[p] - |OrdersOf(confirmed, p) - left|
    ensures counts.Keys == counts1.Keys && orders == RemoveAll(orders1, o)
    ensures forall p <- counts :: counts[p] == counts0[p] - |OrdersOf(confirmed, p) - (left - {o})|
  {
    forall p ensures |OrdersOf(confirmed, p) - (left - {o})| == |OrdersOf(confirmed, p) - left| + (if p == confirmed[o] then 1 else 0) {
      OneLessLeft(OrdersOf(confirmed, p), left, o);
    }
    hide OrdersOf;
    counts := counts1[confirmed[o] := counts1[confirmed[o]] - 1];
    orders := RemoveAll(orders1, o);
  }

  method EraseZeros(counts: map<Name, int>) returns (owed: map<Name, int>)
    ensures owed == map p | p in counts && counts[p] != 0 :: counts[p]
  {
    owed := counts;
    var left := counts.Keys;
    while left != {}
      invariant left <= counts.Keys
      invariant owed == map p | p in counts && (p in left || counts[p] != 0) :: counts[p]
      decreases left
    {
      var p :| p in left;
      if counts[p] == 0 { owed := owed - {p}; }
      left := left - {p};
    }
  }

  method StillStriving(owed: map<Name, int>, yielded: map<Name, int>) returns (striving: map<Name, int>)
    ensures striving == map p | p in owed && owed[p] - CountOf(yielded, p) > 0 :: owed[p] - CountOf(yielded, p)
  {
    striving := map[];
    var left := owed.Keys;
    while left != {}
      invariant left <= owed.Keys
      invariant striving == map p | p in owed && p !in left && owed[p] - CountOf(yielded, p) > 0 :: owed[p] - CountOf(yielded, p)
      decreases left
    {
      var p :| p in left;
      var k := owed[p] - CountOf(yielded, p);
      if k > 0 { striving := striving[p := k]; }
      left := left - {p};
    }
  }

  // ----- handing out the leftovers -----

  function Total(names: seq<Name>, owed: map<Name, int>): int
    requires forall n <- names :: n in owed
  {
    if names == [] then 0 else owed[names[0]] + Total(names[1..], owed)
  }

  lemma {:induction false} TotalIsSum(s: set<Name>, owed: map<Name, int>)
    requires s <= owed.Keys
    ensures Total(Sorted(s), owed) == Sum(s, owed)
  {
    if s != {} {
      assert Sorted(s)[1..] == Sorted(s - {Least(s)});
      TotalIsSum(s - {Least(s)}, owed);
    }
  }

  lemma {:induction false} TotalNonNegative(names: seq<Name>, owed: map<Name, int>)
    requires forall n <- names :: n in owed && owed[n] >= 0
    ensures Total(names, owed) >= 0
  {
    if names != [] { TotalNonNegative(names[1..], owed); }
  }

  method GiveBlock(start: map<int, Name>, orders: seq<int>, from: nat, count: nat, p: Name) returns (result: map<int, Name>)
    requires from + count <= |orders|
    ensures result == start + (map o | o in orders[from..][..count] :: p)
  {
    result := start;
    var index := from;
    ghost var rest := orders[from..];
    for k := 0 to count
      invariant index == from + k
      invariant result == start + (map o | o in rest[..k] :: p)
    {
      assert rest[..k + 1] == rest[..k] + [orders[index]];
      result := result[orders[index] := p];
      index := index + 1;
    }
  }

  // The goal is what has been handed out so far and the deal of the rest, for which there are
  // exactly enough orders.
  ghost predicate Dealing(goal: map<int, Name>, result: map<int, Name>, names: seq<Name>, owed: map<Name, int>, rest: seq<int>) {
    && (forall n <- names :: n in owed && owed[n] >= 0)
    && Total(names, owed) == |rest|
    && goal == result + Deal(names, owed, rest)
  }

  lemma DealingOn(goal: map<int, Name>, result: map<int, Name>, names: seq<Name>, owed: map<Name, int>, rest: seq<int>)
    requires Dealing(goal, result, names, owed, rest) && names != []
    ensures var p := names[0];
            && p in owed && 0 <= owed[p] <= |rest|
            && Dealing(goal, result + (map o | o in rest[..owed[p]] :: p), names[1..], owed, rest[owed[p]..])
  {
    var p := names[0];
    TotalNonNegative(names[1..], owed);
    var block := map o | o in rest[..owed[p]] :: p;
    var tail := Deal(names[1..], owed, rest[owed[p]..]);
    assert Deal(names, owed, rest) == block + tail;
    assert result + (block + tail) == result + block + tail;
  }

  method HandOut(owed: map<Name, int>, orders: seq<int>, confirmed: map<int, Name>) returns (result: map<int, Name>)
    requires forall p <- owed :: owed[p] >= 0
    requires Sum(owed.Keys, owed) == |orders|
    ensures result == confirmed + Deal(Sorted(owed.Keys), owed, orders)
  {
    hide *;
    var names := SortNames(owed.Keys);
    ghost var goal := confirmed + Deal(names, owed, orders);
    DealingStarts(names, owed, orders, confirmed);
    assert names[0..] == names && orders[0..] == orders;
    result := confirmed;
    var index := 0;
    for i := 0 to |names|
      invariant 0 <= index <= |orders|
      invariant Dealing(goal, result, names[i..], owed, orders[index..])
    {
      var p := names[i];
      DealingOn(goal, result, names[i..], owed, orders[index..]);
      assert names[i..][1..] == names[i + 1..] && names[i..][0] == p;
      assert orders[index..][owed[p]..] == orders[index + owed[p]..];
      result := GiveBlock(result, orders, index, owed[p], p);
      index := index + owed[p];
    }
    assert names[|names|..] == [];
    DealtAll(goal, result, owed, orders[index..]);
  }

  lemma DealingStarts(names: seq<Name>, owed: map<Name, int>, orders: seq<int>, confirmed: map<int, Name>)
    requires names == Sorted(owed.Keys) && forall p <- owed :: owed[p] >= 0
    requires Sum(owed.Keys, owed) == |orders|
    ensures Dealing(confirmed + Deal(names, owed, orders), confirmed, names, owed, orders)
  {
    TotalIsSum(owed.Keys, owed);
  }

  lemma DealtAll(goal: map<int, Name>, result: map<int, Name>, owed: map<Name, int>, rest: seq<int>)
    requires Dealing(goal, result, [], owed, rest)
    ensures goal == result
  {
  }

  // ----- orders only one player strives for -----

  type MultiHash = map<int, seq<Name>>

  predicate Distinct<T(==)>(l: seq<T>) {
    forall i, j | 0 <= i < j < |l| :: l[i] != l[j]
  }

  function Members(l: seq<Name>): (s: set<Name>)
  {
    set n | n in l
  }

  // The multi-hash as sets.
  function Claims(d: MultiHash): map<int, set<Name>> {
    map o | o in d :: Members(d[o])
  }

  ghost predicate WellKept(d: MultiHash) {
    forall o <- d :: d[o] != [] && Distinct(d[o])
  }

  lemma {:induction false} MembersCount(l: seq<Name>)
    requires Distinct(l)
    ensures |Members(l)| == |l|
  {
    if l != [] {
      var last := |l| - 1;
      assert l == l[..last] + [l[last]];
      MembersCount(l[..last]);
      assert Members(l) == Members(l[..last]) + {l[last]};
    }
  }

  method SettleSole(desired: MultiHash, confirmed: map<int, Name>) returns (d: MultiHash, m: map<int, Name>)
    requires WellKept(desired)
    ensures WellKept(d) && Claims(d) == Contested(Claims(desired))
    ensures m == confirmed + SettledOrders(Claims(desired))
  {
    d, m := desired, confirmed;
    var left := desired.Keys;
    hide Claims, SettledOrders, Contested, Members;
    while left != {}
      invariant left <= desired.Keys
      invariant forall o :: o in d <==> o in desired && (o in left || |desired[o]| != 1)
      invariant forall o <- d :: d[o] == desired[o]
      invariant forall o :: o in m <==> o in confirmed || (o in desired && o !in left && |desired[o]| == 1)
      invariant forall o <- m :: m[o] == if o in desired && o !in left && |desired[o]| == 1 then desired[o][0] else confirmed[o]
      decreases left
    {
      SomeElement(left);
      var o: int :| o in left;
      if |desired[o]| == 1 {
        m := m[o := desired[o][0]];
        d := d - {o};
      }
      left := left - {o};
    }
    SettledMeans(desired);
    ghost var kept := map o | o in desired && |desired[o]| != 1 :: desired[o];
    ghost var given := map o | o in desired && |desired[o]| == 1 :: desired[o][0];
    forall o: int ensures o in d <==> o in kept {}
    forall o: int ensures o in m <==> o in confirmed + given {}
    forall o | o in d ensures d[o] == kept[o] {}
    forall o | o in m ensures m[o] == (confirmed + given)[o] {}
    assert d == kept && m == confirmed + given;
  }

  lemma SettledMeans(desired: MultiHash)
    requires WellKept(desired)
    ensures SettledOrders(Claims(desired)) == map o | o in desired && |desired[o]| == 1 :: desired[o][0]
    ensures Contested(Claims(desired)) == Claims(map o | o in desired && |desired[o]| != 1 :: desired[o])
  {
    forall o | o in desired ensures |Claims(desired)[o]| == |desired[o]| && (|desired[o]| == 1 ==> SettledOrders(Claims(desired))[o] == desired[o][0]) {
      MembersCount(desired[o]);
      if |desired[o]| == 1 { SoleUnique(Members(desired[o])); assert desired[o][0] in Members(desired[o]); }
    }
  }

  method LowestContested(d: MultiHash, n: nat) returns (k: int)
    ensures k == LowestFrom(Claims(d), 1, n)
  {
    k := 0;
    var i := 1;
    while i <= n
      invariant 1 <= i
      invariant LowestFrom(Claims(d), i, n) == LowestFrom(Claims(d), 1, n)
      decreases n - i
    {
      if i in d { return i; }
      i := i + 1;
    }
  }

  // ----- the losers of a throw leave the order -----

  function Without(l: seq<Name>, n: Name): seq<Name> {
    if l == [] then [] else (if l[0] == n then [] else [l[0]]) + Without(l[1..], n)
  }

  lemma {:induction false} WithoutMeans(l: seq<Name>, n: Name)
    ensures forall m :: m in Without(l, n) <==> m in l && m != n
    ensures Distinct(l) ==> Distinct(Without(l, n))
  {
    if l != [] {
      WithoutMeans(l[1..], n);
      assert forall m :: m in l <==> m == l[0] || m in l[1..];
      if Distinct(l) {
        assert l[0] !in l[1..];
        assert Distinct(l[1..]);
      }
    }
  }

  // QMultiHash::remove(key, value).
  function RemovePair(d: MultiHash, o: int, n: Name): MultiHash {
    if o !in d then d
    else if Without(d[o], n) == [] then d - {o}
    else d[o := Without(d[o], n)]
  }

  method DropLosers(d0: MultiHash, o: int, winners: seq<Name>) returns (d: MultiHash)
    requires WellKept(d0)
    ensures WellKept(d) && Claims(d) == Narrowed(Claims(d0), o, Members(winners))
  {
    var losers := if o in d0 then d0[o] else [];
    for i := 0 to |winners|
      invariant Distinct(losers)
      invariant forall m :: m in losers <==> m in ClaimantsOf(Claims(d0), o) && m !in winners[..i]
    {
      WithoutMeans(losers, winners[i]);
      losers := Without(losers, winners[i]);
      assert winners[..i + 1] == winners[..i] + [winners[i]];
    }
    assert winners[..|winners|] == winners;
    d := d0;
    for i := 0 to |losers|
      invariant WellKept(d) && d - {o} == d0 - {o}
      invariant forall m :: m in ClaimantsOf(Claims(d), o) <==> m in ClaimantsOf(Claims(d0), o) && m !in losers[..i]
    {
      if o in d { WithoutMeans(d[o], losers[i]); }
      assert losers[..i + 1] == losers[..i] + [losers[i]];
      d := RemovePair(d, o, losers[i]);
    }
    assert losers[..|losers|] == losers;
    NarrowedMeans(d0, d, o, winners);
  }

  lemma NarrowedMeans(d0: MultiHash, d: MultiHash, o: int, winners: seq<Name>)
    requires WellKept(d) && WellKept(d0) && d - {o} == d0 - {o}
    requires forall m :: m in ClaimantsOf(Claims(d), o) <==> m in ClaimantsOf(Claims(d0), o) && m in winners
    ensures Claims(d) == Narrowed(Claims(d0), o, Members(winners))
  {
    var left := ClaimantsOf(Claims(d0), o) * Members(winners);
    assert ClaimantsOf(Claims(d), o) == left;
    if o in d { assert d[o][0] in Members(d[o]); }
    forall x | x != o ensures x in d <==> x in d0
    {
      assert x in d <==> x in d - {o};
      assert x in d0 <==> x in d0 - {o};
    }
    forall x | x in d && x != o ensures d[x] == d0[x] {
      assert (d - {o})[x] == (d0 - {o})[x];
    }
  }

  // ----- one player's picks -----

  predicate GoodList(orders: seq<int>, maximum: nat, confirmed: map<int, Name>) {
    && (forall o <- orders :: o == 0 || (1 <= o <= maximum && o !in confirmed))
    && (forall i, j | 0 <= i < j < |orders| :: orders[i] == 0 || orders[i] != orders[j])
  }

  lemma GoodListMore(orders: seq<int>, i: nat, maximum: nat, confirmed: map<int, Name>)
    requires i < |orders| && GoodList(orders[..i], maximum, confirmed)
    ensures var order := orders[i];
            var fits := order == 0 || (1 <= order <= maximum && order !in confirmed && order !in orders[..i]);
            && (fits ==> GoodList(orders[..i + 1], maximum, confirmed))
            && (!fits ==> !GoodList(orders, maximum, confirmed))
  {
    var order := orders[i];
    assert orders[..i + 1] == orders[..i] + [order];
    assert order in orders;
    if order in orders[..i] && order != 0 {
      var a :| 0 <= a < i && orders[..i][a] == order;
      assert orders[a] == orders[i];
    }
  }

  // The picks read so far: those that name an order, and how many yield one.
  ghost predicate ReadSoFar(orders: seq<int>, chosen: seq<int>, passed: int) {
    && Distinct(chosen)
    && (forall o :: o in chosen <==> o in Machine.Chosen(orders))
    && passed == Zeros(orders)
  }

  lemma ReadMore(orders: seq<int>, order: int, chosen: seq<int>, passed: int)
    requires ReadSoFar(orders, chosen, passed)
    ensures order == 0 ==> ReadSoFar(orders + [order], chosen, passed + 1)
    ensures order != 0 && order !in chosen ==> ReadSoFar(orders + [order], chosen + [order], passed)
    ensures order != 0 ==> (order in chosen <==> order in orders)
  {
    assert multiset(orders + [order]) == multiset(orders) + multiset{order};
    assert forall o :: o in orders + [order] <==> o in orders || o == order;
    assert forall o :: o in chosen + [order] <==> o in chosen || o == order;
  }

  lemma ReadAll(orders: seq<int>, chosen: seq<int>, passed: int)
    ensures ReadSoFar([], [], 0)
    ensures ReadSoFar(orders, chosen, passed) ==> (set o | o in chosen) == Machine.Chosen(orders) && Distinct(chosen) && passed == Zeros(orders)
  {
    assert Machine.Chosen([]) == {};
    if ReadSoFar(orders, chosen, passed) {
      forall o: int ensures o in (set x | x in chosen) <==> o in Machine.Chosen(orders) {}
      assert (set x | x in chosen) == Machine.Chosen(orders);
    }
  }

  method ReadPicks(orders: seq<int>, selections: int, maximum: nat, confirmed: map<int, Name>)
    returns (accepted: bool, chosen: seq<int>, passed: int)
    ensures accepted <==> |orders| == selections && GoodList(orders, maximum, confirmed)
    ensures Distinct(chosen)
    ensures (set o | o in chosen) == if accepted then Machine.Chosen(orders) else {}
    ensures passed == if accepted then Zeros(orders) else selections
  {
    hide GoodList, ReadSoFar, Zeros, Machine.Chosen;
    chosen, passed := [], 0;
    accepted := |orders| == selections;
    if accepted {
      var i := 0;
      assert orders[..0] == [];
      NothingIsGood(maximum, confirmed);
      ReadAll(orders, chosen, passed);
      while i < |orders| && accepted
        invariant 0 <= i <= |orders|
        invariant accepted ==> GoodList(orders[..i], maximum, confirmed) && ReadSoFar(orders[..i], chosen, passed)
        invariant !accepted ==> !GoodList(orders, maximum, confirmed)
        decreases |orders| - i, accepted
      {
        var order := orders[i];
        GoodListMore(orders, i, maximum, confirmed);
        ReadMore(orders[..i], order, chosen, passed);
        assert orders[..i + 1] == orders[..i] + [order];
        if order == 0 {
          passed := passed + 1;
          i := i + 1;
        } else if order >= 1 && order <= maximum && order !in confirmed && order !in chosen {
          chosen := chosen + [order];
          i := i + 1;
        } else {
          accepted := false;
        }
      }
      assert orders[..|orders|] == orders;
    }
    if !accepted {
      chosen := [];
      passed := selections;
    }
    ReadAll(orders, chosen, passed);
  }

  lemma NothingIsGood(maximum: nat, confirmed: map<int, Name>)
    ensures GoodList([], maximum, confirmed)
  {
  }

  lemma MembersPrepend(p: Name, l: seq<Name>)
    ensures Members([p] + l) == {p} + Members(l)
    ensures Distinct(l) && p !in l ==> Distinct([p] + l)
  {
    assert ([p] + l)[1..] == l;
  }

  // QMultiHash::insert(order, player) for each chosen order.
  method InsertClaims(d0: MultiHash, chosen: seq<int>, p: Name) returns (d: MultiHash)
    requires WellKept(d0) && forall o <- d0 :: p !in d0[o]
    requires Distinct(chosen)
    ensures WellKept(d) && Claims(d) == Claim(Claims(d0), (set o | o in chosen), p)
  {
    hide Claims, Members;
    d := d0;
    for i := 0 to |chosen|
      invariant WellKept(d)
      invariant d.Keys == d0.Keys + (set o | o in chosen[..i])
      invariant forall o <- d :: o !in chosen[..i] ==> d[o] == d0[o]
      invariant forall o <- d :: o in chosen[..i] ==> Members(d[o]) == {p} + (if o in d0 then Members(d0[o]) else {})
    {
      var o := chosen[i];
      assert chosen[..i + 1] == chosen[..i] + [o];
      assert o !in chosen[..i];
      var before := if o in d then d[o] else [];
      MembersPrepend(p, before);
      NoMembers();
      d := d[o := [p] + before];
    }
    assert chosen[..|chosen|] == chosen;
    ClaimsAre(d0, d, chosen, p);
  }

  lemma NoMembers()
    ensures Members([]) == {}
  {
  }

  lemma ClaimsAre(d0: MultiHash, d: MultiHash, chosen: seq<int>, p: Name)
    requires d.Keys == d0.Keys + (set o | o in chosen)
    requires forall o <- d :: o !in chosen ==> d[o] == d0[o]
    requires forall o <- d :: o in chosen ==> Members(d[o]) == {p} + (if o in d0 then Members(d0[o]) else {})
    ensures Claims(d) == Claim(Claims(d0), (set o | o in chosen), p)
  {
    hide Members;
    var claim := Claim(Claims(d0), (set o | o in chosen), p);
    assert Claims(d).Keys == claim.Keys;
    forall o <- d ensures Claims(d)[o] == claim[o] {
      if o in chosen { assert claim[o] == ClaimantsOf(Claims(d0), o) + {p}; }
    }
  }
}
