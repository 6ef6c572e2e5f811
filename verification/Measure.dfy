/**
  Why a negotiation ends: a lexicographic rank falls with every reply except one that completes
  a tied throw, which only asks the same players again.
 */
module Measure {
  import opened Basics
  import opened Rules
  import opened Rps
  import opened Machine
  import opened Accounting
  import opened Invariants
  import opened Steps
  import opened Runs
  import opened Contests

  // Selections neither settled nor yielded, player by player.
  ghost function OpenSelections(s: State): map<Name, int> {
    map p | p in s.winners :: s.chances - |OrdersOf(s.confirmed, p)| - CountOf(s.yielded, p)
  }

  ghost function ClaimCountOf(s: State): map<Name, int> {
    map p | p in s.winners :: |ClaimsOf(s.desired, p)|
  }

  datatype Rank = Rank(left: int, stage: int, claims: int, pending: int)

  // Open selections first, then picking before throwing, then claims, then missing replies.
  ghost function RankOf(s: State): Rank {
    if s.phase == ActionOrder then
      Rank(Sum(s.winners, OpenSelections(s)), 1, 0, |s.remaining|)
    else
      Rank(Sum(s.winners, OpenSelections(s)), 0, Sum(s.winners, ClaimCountOf(s)), |ClaimantsOf(s.desired, s.striving)| - |s.orderReplies|)
  }

  predicate Below(a: Rank, b: Rank) {
    || a.left < b.left
    || (a.left == b.left && (a.stage < b.stage
       || (a.stage == b.stage && (a.claims < b.claims
          || (a.claims == b.claims && a.pending < b.pending)))))
  }

  // The reply completes a throw for an order in which nobody beats anybody.
  ghost predicate TieCompleted(s: State, e: Event) {
    && s.phase == RpsForActionOrder && e.RpsReply?
    && |s.orderReplies| + 1 == |ClaimantsOf(s.desired, s.striving)|
    && Winners(s.orderReplies[e.name := e.throw]) == {}
  }

  // ----- settling never opens selections -----

  ghost predicate SameStakes(s: State, t: State) {
    s.winners == t.winners && s.chances == t.chances
  }

  lemma OwnedGrows(s: State, t: State, p: Name)
    requires Keeps(s.confirmed, t)
    ensures |OrdersOf(s.confirmed, p)| <= |OrdersOf(t.confirmed, p)|
    ensures (exists o :: o in t.confirmed && t.confirmed[o] == p && o !in s.confirmed) ==> |OrdersOf(s.confirmed, p)| < |OrdersOf(t.confirmed, p)|
  {
    forall o <- OrdersOf(s.confirmed, p) ensures o in OrdersOf(t.confirmed, p) {}
    SubsetSize(OrdersOf(s.confirmed, p), OrdersOf(t.confirmed, p));
    if o :| o in t.confirmed && t.confirmed[o] == p && o !in s.confirmed {
      assert o in OrdersOf(t.confirmed, p);
    }
  }

  lemma LeftShrinks(s: State, t: State)
    requires SameStakes(s, t) && Keeps(s.confirmed, t)
    requires forall p <- s.winners :: CountOf(s.yielded, p) <= CountOf(t.yielded, p)
    ensures Sum(t.winners, OpenSelections(t)) <= Sum(s.winners, OpenSelections(s))
  {
    forall p <- s.winners ensures OpenSelections(t)[p] <= OpenSelections(s)[p] { OwnedGrows(s, t, p); }
    SumAtMost(s.winners, OpenSelections(t), OpenSelections(s));
  }

  lemma LeftShrinksAt(s: State, t: State, p: Name)
    requires SameStakes(s, t) && Keeps(s.confirmed, t) && p in s.winners
    requires forall q <- s.winners :: CountOf(s.yielded, q) <= CountOf(t.yielded, q)
    requires CountOf(s.yielded, p) < CountOf(t.yielded, p) || exists o :: o in t.confirmed && t.confirmed[o] == p && o !in s.confirmed
    ensures Sum(t.winners, OpenSelections(t)) < Sum(s.winners, OpenSelections(s))
  {
    forall q <- s.winners ensures OpenSelections(t)[q] <= OpenSelections(s)[q] { OwnedGrows(s, t, q); }
    OwnedGrows(s, t, p);
    SumBelow(s.winners, OpenSelections(t), OpenSelections(s), p);
  }

  // ----- what a settling round leads to -----

  lemma ActingIsNoNegotiation(s: State)
    requires Running(s)
    ensures !InNegotiation(StartAction(s).state)
  {
    hide NextTurn, Sorted, RoundOver;
    var o := StartAction(s);
    assert o.state.phase == InAction || o == StartRpsForAction(s.(current := s.orders + 1));
  }

  lemma OnlyPicksContinue(s: State)
    requires Running(s) && InNegotiation(StartActionOrder(s).state)
    ensures StartActionOrder(s) == AskForPicks(s)
  {
    hide StartAction, Striving, Dealt, RoundOver;
    ActingIsNoNegotiation(s.(confirmed := Dealt(s), current := 0));
  }

  // Either everything claimed was settled and picks are asked for again, or the contested
  // orders are thrown for.
  lemma SettlingLeadsOn(t: State)
    requires Running(t) && InNegotiation(StartRpsForActionOrder(t).state)
    ensures var u := StartRpsForActionOrder(t).state;
            && SameStakes(t, u) && u.yielded == t.yielded && u.confirmed == Settle(t).confirmed
            && (u.phase == ActionOrder ==> Settle(t).desired == map[])
            && (u.phase == RpsForActionOrder ==> u.desired == Settle(t).desired)
  {
    hide StartActionOrder, SettledOrders, Contested, RoundOver, Striving, PickRequests, Free;
    if Settle(t).desired == map[] { OnlyPicksContinue(Settle(t)); }
  }

  lemma SettlingSettles(t: State)
    requires Negotiating(t) && t.remaining == map[] && t.desired != map[] && Settle(t).desired == map[]
    ensures exists o :: o in Settle(t).confirmed && o !in t.confirmed && Settle(t).confirmed[o] in t.winners
  {
    SettleHonours(t);
    SettleClaims(t);
    NonEmptyMap(t.desired);
    hide Settle;
    var o :| o in t.desired;
  }

  lemma SettlingRank(t: State, u: State)
    requires Negotiating(t) && t.remaining == map[] && Running(t)
    requires u == StartRpsForActionOrder(t).state && InNegotiation(u)
    ensures SameStakes(t, u)
    ensures Sum(u.winners, OpenSelections(u)) <= Sum(t.winners, OpenSelections(t))
    ensures u.phase == ActionOrder && t.desired != map[] ==> Sum(u.winners, OpenSelections(u)) < Sum(t.winners, OpenSelections(t))
    ensures u.phase == RpsForActionOrder ==> Sum(u.winners, ClaimCountOf(u)) <= Sum(t.winners, ClaimCountOf(t))
  {
    hide StartRpsForActionOrder, RoundOver, Negotiating, OpenSelections, ClaimCountOf, Honoured, Keeps;
    SettlingLeadsOn(t);
    StartRpsForActionOrderHonours(t);
    LeftShrinks(t, u);
    if u.phase == ActionOrder && t.desired != map[] {
      SettlingSettles(t);
      var o :| o in Settle(t).confirmed && o !in t.confirmed && Settle(t).confirmed[o] in t.winners;
      LeftShrinksAt(t, u, u.confirmed[o]);
    }
    if u.phase == RpsForActionOrder { ContestedClaims(t, u); }
  }

  lemma ContestedClaims(t: State, u: State)
    requires SameStakes(t, u) && u.desired == Contested(t.desired)
    ensures Sum(u.winners, ClaimCountOf(u)) <= Sum(t.winners, ClaimCountOf(t))
  {
    forall p <- t.winners ensures ClaimCountOf(u)[p] <= ClaimCountOf(t)[p] {
      SubsetSize(ClaimsOf(u.desired, p), ClaimsOf(t.desired, p));
    }
    SumAtMost(t.winners, ClaimCountOf(u), ClaimCountOf(t));
  }

  // ----- picks -----

  lemma PicksOpen(s: State, n: Name, orders: seq<int>)
    requires Picking(s) && n in s.remaining
    ensures var t := TakePicks(s, n, orders);
            && SameStakes(s, t) && t.confirmed == s.confirmed
            && (forall p <- s.winners :: CountOf(s.yielded, p) <= CountOf(t.yielded, p))
            && (t.desired == map[] ==> CountOf(s.yielded, n) < CountOf(t.yielded, n))
  {
    PicksAddUp(s, n, orders);
    hide PicksClaimed, PicksYielded, Negotiating, Selections, Claim;
    YieldsGrow(s.yielded, PicksYielded(s, n, orders), n);
    if TakePicks(s, n, orders).desired == map[] {
      NothingClaimed(s.desired, PicksClaimed(s, n, orders), n);
    }
  }

  lemma YieldsGrow(m: map<Name, int>, passed: int, n: Name)
    requires passed >= 0
    ensures forall p :: CountOf(m, p) + (if p == n then passed else 0) == CountOf(if passed > 0 then m[n := CountOf(m, n) + passed] else m, p)
  {
  }

  lemma NothingClaimed(desired: map<int, set<Name>>, orders: set<int>, p: Name)
    requires Claim(desired, orders, p) == map[]
    ensures |orders| == 0
  {
    assert Claim(desired, orders, p).Keys == desired.Keys + orders;
    assert orders == {};
  }

  lemma PicksLower(s: State, kills: multiset<Name>, n: Name, orders: seq<int>)
    requires Inv(s, kills) && s.phase == ActionOrder && n in s.remaining
    requires InNegotiation(AdvanceActionOrder(TakePicks(s, n, orders)).state)
    ensures Below(RankOf(AdvanceActionOrder(TakePicks(s, n, orders)).state), RankOf(s))
  {
    hide Round, RoundOver, Picking, Negotiating, TakePicks, StartRpsForActionOrder, OpenSelections, ClaimCountOf;
    var t := TakePicks(s, n, orders);
    PicksOpen(s, n, orders);
    TakePicksPicks(s, n, orders);
    PicksLeft(s, kills, n, orders);
    if t.remaining == map[] {
      SettlingRank(t, StartRpsForActionOrder(t).state);
    } else {
      FewerRemain(s, n, orders);
    }
  }

  lemma FewerRemain(s: State, n: Name, orders: seq<int>)
    requires n in s.remaining
    ensures |TakePicks(s, n, orders).remaining| == |s.remaining| - 1
    ensures TakePicks(s, n, orders).phase == s.phase
  {
    hide PicksClaimed, PicksYielded, Claim;
    var t := TakePicks(s, n, orders);
    assert t.remaining.Keys == s.remaining.Keys - {n};
    assert |t.remaining.Keys| == |t.remaining| && |s.remaining.Keys| == |s.remaining|;
  }

  lemma PicksLeft(s: State, kills: multiset<Name>, n: Name, orders: seq<int>)
    requires Inv(s, kills) && s.phase == ActionOrder && n in s.remaining
    ensures var t := TakePicks(s, n, orders);
            && Sum(t.winners, OpenSelections(t)) <= Sum(s.winners, OpenSelections(s))
            && (t.desired == map[] ==> Sum(t.winners, OpenSelections(t)) < Sum(s.winners, OpenSelections(s)))
            && Running(t) && t.phase == ActionOrder
  {
    hide Round, RoundOver, OpenSelections, PicksClaimed, PicksYielded, Claim;
    var t := TakePicks(s, n, orders);
    PicksOpen(s, n, orders);
    KeepsSame(s, t);
    LeftShrinks(s, t);
    if t.desired == map[] { LeftShrinksAt(s, t, n); }
  }

  // ----- throws -----

  lemma NarrowLower(s: State, winners: set<Name>, loser: Name)
    requires Claimed(s) && s.striving in s.desired && loser in s.desired[s.striving] && loser !in winners
    ensures var v := s.(desired := Narrowed(s.desired, s.striving, winners));
            Sum(v.winners, ClaimCountOf(v)) < Sum(s.winners, ClaimCountOf(s))
  {
    var v := s.(desired := Narrowed(s.desired, s.striving, winners));
    forall p <- s.winners ensures ClaimCountOf(v)[p] <= ClaimCountOf(s)[p] {
      NarrowShrinks(s.desired, s.striving, winners, p);
    }
    LoserDropped(s.desired, s.striving, winners, loser);
    SumBelow(s.winners, ClaimCountOf(v), ClaimCountOf(s), loser);
  }

  lemma LoserDropped(desired: map<int, set<Name>>, o: int, winners: set<Name>, loser: Name)
    requires o in desired && loser in desired[o] && loser !in winners
    ensures |ClaimsOf(Narrowed(desired, o, winners), loser)| < |ClaimsOf(desired, loser)|
  {
    var after := ClaimsOf(Narrowed(desired, o, winners), loser);
    SubsetSize(after + {o}, ClaimsOf(desired, loser));
  }

  lemma DecidedLower(u: State)
    requires Running(u) && Negotiating(u) && u.remaining == map[] && u.striving in u.desired
    requires u.phase == RpsForActionOrder && AllThrown(u) && Winners(u.orderReplies) != {}
    requires InNegotiation(JudgeRpsForActionOrder(u).state)
    ensures var t := JudgeRpsForActionOrder(u).state;
            && Sum(t.winners, OpenSelections(t)) <= Sum(u.winners, OpenSelections(u))
            && (t.phase == ActionOrder ==> Sum(t.winners, OpenSelections(t)) < Sum(u.winners, OpenSelections(u)))
            && (t.phase == RpsForActionOrder ==> Sum(t.winners, ClaimCountOf(t)) < Sum(u.winners, ClaimCountOf(u)))
  {
    hide StartRpsForActionOrder, Winners, Losers, RoundOver, OpenSelections, ClaimCountOf, Negotiating, Narrowed, Settle;
    var winners := Winners(u.orderReplies);
    var loser := SomeLoser(u.orderReplies);
    var v := u.(desired := Narrowed(u.desired, u.striving, winners));
    assert |u.orderReplies| == |u.orderReplies.Keys|;
    NowClaimed(u);
    NarrowLower(u, winners, loser);
    NarrowNegotiates(u, winners);
    SameOpen(u, v);
    WinnersStrive(u);
    SettlingRank(v, StartRpsForActionOrder(v).state);
  }

  lemma SomeLoser(j: Throws) returns (loser: Name)
    requires Winners(j) != {}
    ensures loser in j && loser !in Winners(j)
  {
    WinnersCharacterised(j);
    loser :| loser in Losers(j);
  }

  lemma NowClaimed(s: State)
    requires Negotiating(s)
    ensures Claimed(s)
  {
  }

  lemma WinnersStrive(u: State)
    requires AllThrown(u) && Winners(u.orderReplies) != {} && u.striving in u.desired
    ensures u.striving in Narrowed(u.desired, u.striving, Winners(u.orderReplies))
    ensures Narrowed(u.desired, u.striving, Winners(u.orderReplies)) != map[]
  {
    WinnersThrew(u.orderReplies);
    assert ClaimantsOf(u.desired, u.striving) * Winners(u.orderReplies) == Winners(u.orderReplies);
  }

  lemma SameOpen(u: State, v: State)
    requires u.winners == v.winners && u.chances == v.chances && u.confirmed == v.confirmed && u.yielded == v.yielded
    ensures Sum(u.winners, OpenSelections(u)) == Sum(v.winners, OpenSelections(v))
  {
    SumEqual(u.winners, OpenSelections(u), OpenSelections(v));
  }

  lemma SameRank(u: State, v: State)
    requires u.winners == v.winners && u.chances == v.chances && u.confirmed == v.confirmed && u.yielded == v.yielded
    requires u.desired == v.desired
    ensures Sum(u.winners, OpenSelections(u)) == Sum(v.winners, OpenSelections(v))
    ensures Sum(u.winners, ClaimCountOf(u)) == Sum(v.winners, ClaimCountOf(v))
  {
    SumEqual(u.winners, OpenSelections(u), OpenSelections(v));
    SumEqual(u.winners, ClaimCountOf(u), ClaimCountOf(v));
  }

  // A tie settles nothing: the same players throw for the same order again.
  lemma TieRepeats(s: State, u: State)
    requires Throwing(s) && u == s.(orderReplies := u.orderReplies)
    ensures StartRpsForActionOrder(u) == AskToThrow(u, s.striving)
  {
    hide Negotiable, Claimed, Selections, StartActionOrder;
    NothingToSettle(s.desired);
    LowestOf(s);
    assert u.confirmed + map[] == u.confirmed;
  }

  lemma NothingToSettle(desired: map<int, set<Name>>)
    requires forall o <- desired :: |desired[o]| >= 2
    ensures SettledOrders(desired) == map[] && Contested(desired) == desired
  {
    assert forall o :: o !in SettledOrders(desired);
    assert forall o <- desired :: o in Contested(desired);
    assert Contested(desired).Keys == desired.Keys;
  }

  lemma LowestOf(s: State)
    requires Throwing(s)
    ensures LowestFrom(s.desired, 1, s.orders) == s.striving && s.desired != map[]
  {
    LowestFromIs(s.desired, 1, s.orders);
  }

  lemma LastThrow(s: State, n: Name, t: Throw)
    requires Throwing(s) && s.phase == RpsForActionOrder && OnlyAsked(s) && n in Waiting(s)
    ensures var u := s.(orderReplies := s.orderReplies[n := t]);
            && |u.orderReplies| == |s.orderReplies| + 1
            && u.orderReplies.Keys <= s.desired[s.striving]
            && (|u.orderReplies| == |s.desired[s.striving]| ==> AllThrown(u))
  {
    OrderThrowPending(s, n, t);
    var u := s.(orderReplies := s.orderReplies[n := t]);
    SubsetSize(u.orderReplies.Keys, s.desired[s.striving]);
    assert |u.orderReplies.Keys| == |u.orderReplies|;
  }

  lemma PendingThrow(s: State, u: State)
    requires u == s.(orderReplies := u.orderReplies) && s.phase == RpsForActionOrder
    requires |u.orderReplies| == |s.orderReplies| + 1 && |u.orderReplies| != |ClaimantsOf(u.desired, u.striving)|
    ensures Below(RankOf(JudgeRpsForActionOrder(u).state), RankOf(s))
  {
    hide OpenSelections, ClaimCountOf, StartRpsForActionOrder, Winners, ClaimantsOf;
    SameRank(s, u);
  }

  lemma TiedThrow(s: State, u: State)
    requires u == s.(orderReplies := u.orderReplies) && s.phase == RpsForActionOrder && Throwing(s)
    requires |u.orderReplies| == |ClaimantsOf(u.desired, u.striving)| && Winners(u.orderReplies) == {}
    ensures RankOf(JudgeRpsForActionOrder(u).state) == RankOf(s).(pending := |s.desired[s.striving]|)
  {
    hide OpenSelections, ClaimCountOf, StartRpsForActionOrder, Winners, Throwing, ClaimantsOf;
    TieRepeats(s, u);
    SameRank(s, AskToThrow(u, s.striving).state);
    StillContested(s);
  }

  lemma StillContested(s: State)
    requires Throwing(s)
    ensures s.striving in s.desired && ClaimantsOf(s.desired, s.striving) == s.desired[s.striving]
  {
  }

  lemma DecidedThrow(s: State, u: State)
    requires u == s.(orderReplies := u.orderReplies) && s.phase == RpsForActionOrder
    requires Running(u) && Negotiating(u) && u.remaining == map[] && u.striving in u.desired
    requires AllThrown(u) && Winners(u.orderReplies) != {}
    requires InNegotiation(JudgeRpsForActionOrder(u).state)
    ensures Below(RankOf(JudgeRpsForActionOrder(u).state), RankOf(s))
  {
    DecidedLower(u);
    hide OpenSelections, ClaimCountOf, JudgeRpsForActionOrder, Winners, ClaimantsOf, Negotiating, RoundOver, AllThrown;
    SameRank(s, u);
  }

  lemma ThrowLower(s: State, n: Name, t: Throw)
    requires Running(s) && Throwing(s) && s.phase == RpsForActionOrder && OnlyAsked(s) && n in Waiting(s)
    requires InNegotiation(JudgeRpsForActionOrder(s.(orderReplies := s.orderReplies[n := t])).state)
    ensures var r := JudgeRpsForActionOrder(s.(orderReplies := s.orderReplies[n := t])).state;
            if TieCompleted(s, RpsReply(n, t)) then RankOf(r) == RankOf(s).(pending := |ClaimantsOf(s.desired, s.striving)|)
            else Below(RankOf(r), RankOf(s))
  {
    var u := s.(orderReplies := s.orderReplies[n := t]);
    LastThrow(s, n, t);
    RepliesAside(s, u.orderReplies);
    hide Negotiating, Winners, RoundOver, RankOf, Below, JudgeRpsForActionOrder, Waiting, OnlyAsked, InNegotiation;
    if |u.orderReplies| != |ClaimantsOf(u.desired, u.striving)| {
      PendingThrow(s, u);
    } else if Winners(u.orderReplies) == {} {
      TiedThrow(s, u);
    } else {
      DecidedThrow(s, u);
    }
  }

  lemma PicksStep(s: State, kills: multiset<Name>, e: Event)
    requires Inv(s, kills) && s.phase == ActionOrder && IsReply(e) && KindMatches(s, e) && e.name in Waiting(s)
    ensures e.ActionOrderReply? && e.name in s.remaining
    ensures Step(s, e) == AdvanceActionOrder(TakePicks(s, e.name, e.orders))
  {
    WaitingPlay(s, kills);
    hide Inv, AdvanceActionOrder, TakePicks;
  }

  lemma ThrowStep(s: State, kills: multiset<Name>, e: Event)
    requires Inv(s, kills) && s.phase == RpsForActionOrder && IsReply(e) && KindMatches(s, e) && e.name in Waiting(s)
    ensures e.RpsReply?
    ensures Step(s, e) == JudgeRpsForActionOrder(s.(orderReplies := s.orderReplies[e.name := e.throw]))
  {
    WaitingPlay(s, kills);
    hide Inv, JudgeRpsForActionOrder;
  }

  // One reply in a negotiation that goes on: the rank falls, unless the reply completes a tie,
  // which only asks those who threw again.
  lemma ReplyLowers(w: World, e: Event)
    requires Healthy(w) && Legal(w, e) && IsReply(e)
    requires InNegotiation(w.state) && InNegotiation(Next(w, e).state)
    ensures if TieCompleted(w.state, e)
            then RankOf(Next(w, e).state) == RankOf(w.state).(pending := |ClaimantsOf(w.state.desired, w.state.striving)|)
            else Below(RankOf(Next(w, e).state), RankOf(w.state))
  {
    hide Below, RankOf, Step, Inv, OnlyAsked, Waiting, NextKills, AdvanceActionOrder, TakePicks, JudgeRpsForActionOrder, KindMatches, IsReply;
    LegalIsAwaited(w, e);
    if w.state.phase == ActionOrder {
      PicksStep(w.state, w.kills, e);
      PicksLower(w.state, w.kills, e.name, e.orders);
    } else {
      ThrowStep(w.state, w.kills, e);
      NowThrowing(w.state, w.kills);
      ThrowLower(w.state, e.name, e.throw);
    }
  }

  lemma NowThrowing(s: State, kills: multiset<Name>)
    requires Inv(s, kills) && s.phase == RpsForActionOrder
    ensures Running(s) && Throwing(s)
  {
  }
}
