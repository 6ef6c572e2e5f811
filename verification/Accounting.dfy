/**
  Bookkeeping of the action-order negotiation: what dealing, settling, narrowing and
  picking do to the number of orders each winner holds, claims, has yielded or is
  still to be asked for.
 */
module Accounting {
  import opened Basics
  import opened Rules
  import opened Machine

  // A complete and fair result: orders 1..`orders` each have one owner, every winner owns exactly
  // `chances` of them and nobody else owns any.
  ghost predicate IsAllotment(m: map<int, Name>, winners: set<Name>, chances: nat, orders: nat) {
    && m.Keys == Upto(orders)
    && (forall o <- m :: m[o] in winners)
    && (forall p <- winners :: |OrdersOf(m, p)| == chances)
  }

  // Only winners hold orders, orders are within range, and nobody holds or yields too many.
  ghost predicate Negotiable(s: State) {
    && s.winners != {} && s.chances >= 1 && s.orders == |s.winners| * s.chances
    && s.winners <= s.players.Keys
    && s.confirmed.Keys <= Upto(s.orders)
    && (forall o <- s.confirmed :: s.confirmed[o] in s.winners)
    && (forall p <- s.yielded :: p in s.winners && s.yielded[p] >= 0)
    && (forall p <- s.winners :: |OrdersOf(s.confirmed, p)| + CountOf(s.yielded, p) <= s.chances)
  }

  // Claims are by winners, on orders within range that nobody owns yet.
  ghost predicate Claimed(s: State) {
    forall o <- s.desired :: 1 <= o <= s.orders && o !in s.confirmed && s.desired[o] != {} && s.desired[o] <= s.winners
  }

  // Every selection of p: settled, yielded, claimed or still to be made.
  ghost function Selections(s: State, p: Name): int {
    |OrdersOf(s.confirmed, p)| + CountOf(s.yielded, p) + |ClaimsOf(s.desired, p)| + CountOf(s.remaining, p)
  }

  // ----- free orders -----

  lemma {:induction false} FreeOrdersAre(n: nat, taken: set<int>)
    ensures forall o :: o in FreeOrders(n, taken) <==> 1 <= o <= n && o !in taken
    ensures forall i, j | 0 <= i < j < |FreeOrders(n, taken)| :: FreeOrders(n, taken)[i] < FreeOrders(n, taken)[j]
  {
    if n > 0 {
      FreeOrdersAre(n - 1, taken);
      var below := FreeOrders(n - 1, taken);
      assert forall i | 0 <= i < |below| :: below[i] in below;
    }
  }

  lemma {:induction false} FreeOrdersSize(n: nat, taken: set<int>)
    requires taken <= Upto(n)
    ensures |FreeOrders(n, taken)| == n - |taken|
    decreases n
  {
    if n > 0 {
      var rest := taken - {n as int};
      forall o | o in rest ensures o in Upto(n - 1) { assert o in Upto(n); }
      FreeOrdersSize(n - 1, rest);
      FreeOrdersAgree(n - 1, taken, rest);
      assert |taken| == |rest| + (if n in taken then 1 else 0) by { assert taken == rest + (if n in taken then {n as int} else {}); }
    } else {
      assert taken == {};
    }
  }

  lemma {:induction false} FreeOrdersAgree(n: nat, a: set<int>, b: set<int>)
    requires forall o | 1 <= o <= n :: o in a <==> o in b
    ensures FreeOrders(n, a) == FreeOrders(n, b)
  {
    if n > 0 { FreeOrdersAgree(n - 1, a, b); }
  }

  // ----- counting owners -----

  lemma DropOwner(m: map<int, Name>, p: Name)
    ensures |m| == |OrdersOf(m, p)| + |m - OrdersOf(m, p)|
    ensures forall q | q != p :: OrdersOf(m - OrdersOf(m, p), q) == OrdersOf(m, q)
  {
    var mine := OrdersOf(m, p);
    var rest := m - mine;
    assert |m.Keys| == |mine| + |rest.Keys| by { assert m.Keys == mine + rest.Keys; }
    assert |m| == |m.Keys| && |rest| == |rest.Keys|;
  }

  lemma EmptyMap(m: map<int, Name>, owners: set<Name>)
    requires forall o <- m :: m[o] in owners
    ensures owners == {} ==> |m| == 0
  {
    assert |m| == |m.Keys|;
    if exists o :: o in m {
      var o :| o in m;
      assert m[o] in owners;
    } else {
      assert m.Keys == {};
    }
  }

  lemma {:induction false} OwnersAddUp(m: map<int, Name>, owners: set<Name>, counts: map<Name, int>)
    requires owners <= counts.Keys
    requires forall o <- m :: m[o] in owners
    requires forall p <- owners :: counts[p] == |OrdersOf(m, p)|
    ensures Sum(owners, counts) == |m|
  {
    if owners == {} {
      EmptyMap(m, owners);
    } else {
      var p := Least(owners);
      DropOwner(m, p);
      OwnersAddUp(m - OrdersOf(m, p), owners - {p}, counts);
    }
  }

  // What the winners are owed together is exactly the number of free orders.
  lemma OwedAddsUp(s: State)
    requires Negotiable(s)
    ensures Unsettled(s).Keys <= s.winners
    ensures Sum(Unsettled(s).Keys, Unsettled(s)) == |Free(s)|
  {
    hide OrdersOf, FreeOrders, Sum;
    var held := map p | p in s.winners :: |OrdersOf(s.confirmed, p)|;
    var owed := map p | p in s.winners :: Owed(s, p);
    OwnersAddUp(s.confirmed, s.winners, held);
    OwedComplement(s.winners, s.chances, held, owed);
    FreeOrdersSize(s.orders, s.confirmed.Keys);
    assert |s.confirmed| == |s.confirmed.Keys|;
    SumDropZeros(s.winners, Unsettled(s).Keys, owed);
    SumEqual(Unsettled(s).Keys, owed, Unsettled(s));
  }

  lemma OwedComplement(names: set<Name>, k: int, held: map<Name, int>, owed: map<Name, int>)
    requires names <= held.Keys && names <= owed.Keys
    requires forall p <- names :: owed[p] == k - held[p]
    ensures Sum(names, held) + Sum(names, owed) == |names| * k
  {
    var all := map p | p in names :: k;
    SumConstant(names, all, k);
    SumAdd(names, held, owed, all);
  }

  // ----- dealing out what is left -----

  lemma AscendingSplit(orders: seq<int>, k: nat)
    requires Ascending(orders) && k <= |orders|
    ensures Ascending(orders[..k]) && Ascending(orders[k..])
    ensures forall o :: o in orders <==> o in orders[..k] || o in orders[k..]
    ensures forall o | o in orders[..k] :: o !in orders[k..]
  {
    assert orders == orders[..k] + orders[k..];
    forall o | o in orders[..k] ensures o !in orders[k..] {
      var i :| 0 <= i < k && orders[i] == o;
      assert forall j | 0 <= j < |orders[k..]| :: orders[k..][j] == orders[k + j] > orders[i];
    }
  }

  lemma OwnersOfUnion(block: map<int, Name>, rest: map<int, Name>, p: Name)
    requires block.Keys !! rest.Keys
    ensures OrdersOf(block + rest, p) == OrdersOf(block, p) + OrdersOf(rest, p)
    ensures |OrdersOf(block + rest, p)| == |OrdersOf(block, p)| + |OrdersOf(rest, p)|
  {
  }

  lemma OwnersOfBlock(orders: seq<int>, p: Name, q: Name)
    requires Ascending(orders)
    ensures |OrdersOf(map o | o in orders :: p, q)| == if q == p then |orders| else 0
  {
    var block: map<int, Name> := map o | o in orders :: p;
    if q == p {
      assert OrdersOf(block, q) == block.Keys;
      BlockSize(orders, block);
    } else {
      assert OrdersOf(block, q) == {};
    }
  }

  // The deal gives out exactly the orders on offer, to the names, each as many as it is owed.
  ghost predicate Exact(deal: map<int, Name>, names: set<Name>, owed: map<Name, int>, orders: seq<int>)
    requires names <= owed.Keys
  {
    && (forall o :: o in deal <==> o in orders)
    && (forall o <- deal :: deal[o] in names)
    && (forall p <- names :: |OrdersOf(deal, p)| == owed[p])
  }

  lemma DealBlock(names: set<Name>, owed: map<Name, int>, orders: seq<int>, p: Name, rest: map<int, Name>)
    requires names <= owed.Keys && p in names && 0 <= owed[p] <= |orders| && Ascending(orders)
    requires Exact(rest, names - {p}, owed, orders[owed[p]..])
    ensures Exact((map o | o in orders[..owed[p]] :: p) + rest, names, owed, orders)
  {
    AscendingSplit(orders, owed[p]);
    var block: map<int, Name> := map o | o in orders[..owed[p]] :: p;
    assert block.Keys !! rest.Keys;
    forall q <- names ensures |OrdersOf(block + rest, q)| == owed[q] {
      DealBlockShare(names, owed, orders[..owed[p]], p, rest, q);
    }
  }

  lemma DealBlockShare(names: set<Name>, owed: map<Name, int>, head: seq<int>, p: Name, rest: map<int, Name>, q: Name)
    requires names <= owed.Keys && q in names && |head| == (if p in owed then owed[p] else 0) && Ascending(head)
    requires forall o <- rest :: rest[o] in names - {p} && o !in head
    requires forall r <- names - {p} :: |OrdersOf(rest, r)| == owed[r]
    ensures |OrdersOf((map o | o in head :: p) + rest, q)| == owed[q]
  {
    var block: map<int, Name> := map o | o in head :: p;
    OwnersOfBlock(head, p, q);
    OwnersOfUnion(block, rest, q);
    assert forall o <- rest :: rest[o] != p;
  }

  lemma {:induction false} DealIsExact(names: set<Name>, owed: map<Name, int>, orders: seq<int>)
    requires names <= owed.Keys
    requires forall p <- names :: owed[p] >= 0
    requires Sum(names, owed) == |orders| && Ascending(orders)
    ensures Exact(Deal(Sorted(names), owed, orders), names, owed, orders)
  {
    if names != {} {
      var p := Least(names);
      SumNonNegative(names - {p}, owed);
      AscendingSplit(orders, owed[p]);
      assert Sorted(names)[1..] == Sorted(names - {p});
      DealIsExact(names - {p}, owed, orders[owed[p]..]);
      DealBlock(names, owed, orders, p, Deal(Sorted(names - {p}), owed, orders[owed[p]..]));
    }
  }

  lemma {:induction false} SumNonNegative(names: set<Name>, f: map<Name, int>)
    requires names <= f.Keys && forall p <- names :: f[p] >= 0
    ensures Sum(names, f) >= 0
  {
    if names != {} { SumNonNegative(names - {Least(names)}, f); }
  }

  lemma {:induction false} BlockSize(orders: seq<int>, block: map<int, Name>)
    requires forall i, j | 0 <= i < j < |orders| :: orders[i] < orders[j]
    requires forall o :: o in block <==> o in orders
    ensures |block.Keys| == |orders|
  {
    if orders != [] {
      var last := orders[|orders| - 1];
      var init := orders[..|orders| - 1];
      assert orders == init + [last];
      assert last !in init;
      BlockSize(init, block - {last});
      assert block.Keys == (block - {last}).Keys + {last};
    } else {
      assert forall o :: o !in block;
      assert block.Keys == {};
    }
  }

  // Lower orders go to lesser names.
  predicate InNameOrder(deal: map<int, Name>) {
    forall o, u | o in deal && u in deal && o < u :: deal[o] <= deal[u]
  }

  lemma {:induction false} DealInNameOrder(names: set<Name>, owed: map<Name, int>, orders: seq<int>)
    requires names <= owed.Keys
    requires forall p <- names :: owed[p] >= 0
    requires Sum(names, owed) == |orders| && Ascending(orders)
    ensures InNameOrder(Deal(Sorted(names), owed, orders))
  {
    if names != {} {
      var p := Least(names);
      SumNonNegative(names - {p}, owed);
      AscendingSplit(orders, owed[p]);
      assert Sorted(names)[1..] == Sorted(names - {p});
      var head, tail := orders[..owed[p]], orders[owed[p]..];
      DealInNameOrder(names - {p}, owed, tail);
      DealIsExact(names - {p}, owed, tail);
      HeadBeforeTail(orders, owed[p]);
      BlockThenRest(names, p, head, tail, Deal(Sorted(names - {p}), owed, tail));
    }
  }

  lemma HeadBeforeTail(orders: seq<int>, k: nat)
    requires Ascending(orders) && k <= |orders|
    ensures forall o, u | o in orders[..k] && u in orders[k..] :: o < u
  {
  }

  lemma BlockThenRest(names: set<Name>, p: Name, head: seq<int>, tail: seq<int>, rest: map<int, Name>)
    requires IsLeast(p, names) && InNameOrder(rest)
    requires (forall o <- rest :: o in tail && rest[o] in names) && forall o, u | o in head && u in tail :: o < u
    ensures InNameOrder((map o | o in head :: p) + rest)
  {
  }

  // The leftovers go round in name order, the lowest orders first.
  lemma LeftoversInNameOrder(s: State, o: int, u: int)
    requires Negotiable(s) && o in Dealt(s) && u in Dealt(s) && o !in s.confirmed && u !in s.confirmed && o < u
    ensures Dealt(s)[o] <= Dealt(s)[u]
  {
    var owed := Unsettled(s);
    OwedAddsUp(s);
    FreeOrdersAre(s.orders, s.confirmed.Keys);
    DealInNameOrder(owed.Keys, owed, Free(s));
  }

  // However the negotiation went, handing out the leftovers completes it.
  lemma DealtIsAllotment(s: State)
    requires Negotiable(s)
    ensures IsAllotment(Dealt(s), s.winners, s.chances, s.orders)
    ensures forall o <- s.confirmed :: Dealt(s)[o] == s.confirmed[o]
  {
    var owed := Unsettled(s);
    OwedAddsUp(s);
    FreeOrdersAre(s.orders, s.confirmed.Keys);
    DealIsExact(owed.Keys, owed, Free(s));
    CompletedBy(s, Deal(Sorted(owed.Keys), owed, Free(s)));
  }

  lemma CompletedBy(s: State, deal: map<int, Name>)
    requires Negotiable(s)
    requires forall o :: o in deal <==> 1 <= o <= s.orders && o !in s.confirmed
    requires forall o <- deal :: deal[o] in Unsettled(s)
    requires forall p <- Unsettled(s) :: |OrdersOf(deal, p)| == Unsettled(s)[p]
    ensures IsAllotment(s.confirmed + deal, s.winners, s.chances, s.orders)
    ensures forall o <- s.confirmed :: (s.confirmed + deal)[o] == s.confirmed[o]
  {
    hide *;
    var m := s.confirmed + deal;
    OwnersAreWinners(s, deal);
    CompletedKeys(s, deal);
    forall p <- s.winners ensures |OrdersOf(m, p)| == s.chances {
      CompletedShare(s, deal, p);
    }
    Completed(m, s.winners, s.chances, s.orders);
  }

  lemma OwnersAreWinners(s: State, deal: map<int, Name>)
    requires Negotiable(s) && forall o <- deal :: deal[o] in Unsettled(s)
    ensures s.confirmed.Keys <= Upto(s.orders)
    ensures forall o <- s.confirmed + deal :: (s.confirmed + deal)[o] in s.winners
  {
  }

  lemma Completed(m: map<int, Name>, winners: set<Name>, chances: nat, orders: nat)
    requires m.Keys == Upto(orders) && forall o <- m :: m[o] in winners
    requires forall p <- winners :: |OrdersOf(m, p)| == chances
    ensures IsAllotment(m, winners, chances, orders)
  {
  }

  lemma CompletedKeys(s: State, deal: map<int, Name>)
    requires s.confirmed.Keys <= Upto(s.orders)
    requires forall o :: o in deal <==> 1 <= o <= s.orders && o !in s.confirmed
    ensures (s.confirmed + deal).Keys == Upto(s.orders)
  {
    forall o: int ensures o in s.confirmed || o in deal <==> o in Upto(s.orders) {
    }
  }

  lemma CompletedShare(s: State, deal: map<int, Name>, p: Name)
    requires p in s.winners && s.confirmed.Keys !! deal.Keys
    requires forall o <- deal :: deal[o] in Unsettled(s)
    requires p in Unsettled(s) ==> |OrdersOf(deal, p)| == Unsettled(s)[p]
    ensures |OrdersOf(s.confirmed + deal, p)| == s.chances
  {
    OwnersOfUnion(s.confirmed, deal, p);
    NothingOwed(s, deal, p);
  }

  lemma NothingOwed(s: State, deal: map<int, Name>, p: Name)
    requires p in s.winners
    requires forall o <- deal :: deal[o] in Unsettled(s)
    requires p in Unsettled(s) ==> |OrdersOf(deal, p)| == Unsettled(s)[p]
    ensures |OrdersOf(deal, p)| == Owed(s, p)
  {
    if p !in Unsettled(s) {
      assert forall o <- deal :: deal[o] != p;
      assert OrdersOf(deal, p) == {};
    }
  }

  // ----- settling orders only one player wants -----

  lemma SettleKeeps(s: State, p: Name)
    requires Claimed(s)
    ensures var t := s.confirmed + SettledOrders(s.desired);
            |OrdersOf(t, p)| + |ClaimsOf(Contested(s.desired), p)| == |OrdersOf(s.confirmed, p)| + |ClaimsOf(s.desired, p)|
  {
    assert forall o <- SettledOrders(s.desired) :: o in s.desired && o !in s.confirmed;
    OwnersOfUnion(s.confirmed, SettledOrders(s.desired), p);
    ClaimsSplit(s.desired, p);
  }

  lemma SettledTo(desired: map<int, set<Name>>, p: Name)
    ensures forall o :: o in OrdersOf(SettledOrders(desired), p) <==> o in desired && |desired[o]| == 1 && p in desired[o]
  {
    forall o | o in desired && |desired[o]| == 1
      ensures p in desired[o] <==> Sole(desired[o]) == p
    {
      SoleUnique(desired[o]);
    }
  }

  lemma ClaimsSplit(desired: map<int, set<Name>>, p: Name)
    ensures |ClaimsOf(desired, p)| == |ClaimsOf(Contested(desired), p)| + |OrdersOf(SettledOrders(desired), p)|
  {
    SettledTo(desired, p);
    var kept, settled := ClaimsOf(Contested(desired), p), OrdersOf(SettledOrders(desired), p);
    forall o ensures o in ClaimsOf(desired, p) <==> o in kept || o in settled {}
    assert ClaimsOf(desired, p) == kept + settled;
    assert kept !! settled;
  }

  lemma NarrowShrinks(desired: map<int, set<Name>>, o: int, winners: set<Name>, p: Name)
    ensures |ClaimsOf(Narrowed(desired, o, winners), p)| <= |ClaimsOf(desired, p)|
    ensures forall x <- Narrowed(desired, o, winners) :: x in desired && Narrowed(desired, o, winners)[x] <= desired[x]
  {
    SubsetSize(ClaimsOf(Narrowed(desired, o, winners), p), ClaimsOf(desired, p));
  }

  // ----- one player's picks -----

  lemma {:induction false} PicksSplit(orders: seq<int>)
    requires forall i, j | 0 <= i < j < |orders| :: orders[i] == 0 || orders[i] != orders[j]
    ensures |Chosen(orders)| + Zeros(orders) == |orders|
  {
    if orders != [] {
      var last := orders[|orders| - 1];
      var init := orders[..|orders| - 1];
      assert orders == init + [last];
      PicksSplit(init);
      assert multiset(orders) == multiset(init) + multiset{last};
      if last == 0 {
        assert Chosen(orders) == Chosen(init);
      } else {
        assert last !in init;
        assert Chosen(orders) == Chosen(init) + {last};
      }
    }
  }

  lemma ClaimCounts(desired: map<int, set<Name>>, orders: set<int>, p: Name, q: Name)
    requires forall o <- orders :: p !in ClaimantsOf(desired, o)
    ensures |ClaimsOf(Claim(desired, orders, p), q)| == |ClaimsOf(desired, q)| + (if q == p then |orders| else 0)
  {
    hide *;
    var before, after := ClaimsOf(desired, q), ClaimsOf(Claim(desired, orders, p), q);
    var added: set<int> := if q == p then orders else {};
    forall o: int
      ensures o in after <==> o in before || o in added
      ensures o in added ==> o !in before
    {
      ClaimMember(desired, orders, p, q, o);
    }
    assert after == before + added && before !! added;
  }

  lemma ClaimMember(desired: map<int, set<Name>>, orders: set<int>, p: Name, q: Name, o: int)
    ensures o in ClaimsOf(Claim(desired, orders, p), q) <==> o in ClaimsOf(desired, q) || (q == p && o in orders)
    ensures o in ClaimsOf(desired, q) <==> q in ClaimantsOf(desired, o)
  {
  }

  // A reply moves the player's pending selections to claims and yields, one for one.
  lemma TakePicksKeeps(s: State, p: Name, orders: seq<int>, q: Name)
    requires p in s.remaining && s.remaining[p] >= 1
    requires forall o <- s.desired :: p !in s.desired[o]
    ensures Selections(TakePicks(s, p, orders), q) == Selections(s, q)
  {
    PicksAddUp(s, p, orders);
    ClaimCounts(s.desired, PicksClaimed(s, p, orders), p, q);
    YieldCounts(s.yielded, PicksYielded(s, p, orders), p, q);
  }

  lemma PicksAddUp(s: State, p: Name, orders: seq<int>)
    requires p in s.remaining && s.remaining[p] >= 1
    ensures |PicksClaimed(s, p, orders)| + PicksYielded(s, p, orders) == s.remaining[p]
    ensures PicksYielded(s, p, orders) >= 0
  {
    if GoodPicks(s, s.remaining[p], orders) {
      PicksSplit(orders);
    }
  }

  lemma YieldCounts(m: map<Name, int>, passed: int, p: Name, q: Name)
    requires passed >= 0
    ensures CountOf(if passed > 0 then m[p := CountOf(m, p) + passed] else m, q) == CountOf(m, q) + (if q == p then passed else 0)
  {
  }
}
