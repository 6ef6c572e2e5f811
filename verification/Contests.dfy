/**
  How a negotiation moves: claims are honoured and settled orders stay settled.
 */
module Contests {
  import opened Basics
  import opened Rules
  import opened Rps
  import opened Machine
  import opened Accounting
  import opened Invariants
  import opened Steps
  import opened Runs

  predicate InNegotiation(s: State) {
    s.phase == ActionOrder || s.phase == RpsForActionOrder
  }

  // ----- claims are honoured -----

  // Each claimed order is still contested among its claimants, or belongs to one of them.
  predicate Honoured(claims: map<int, set<Name>>, t: State) {
    forall o <- claims ::
      || (o in t.desired && t.desired[o] != {} && t.desired[o] <= claims[o])
      || (o in t.confirmed && t.confirmed[o] in claims[o])
  }

  // Orders, once settled, keep their owner.
  predicate Keeps(m: map<int, Name>, t: State) {
    forall o <- m :: o in t.confirmed && t.confirmed[o] == m[o]
  }

  lemma StartActionOrderKeeps(s: State)
    requires Negotiable(s)
    ensures Keeps(s.confirmed, StartActionOrder(s).state)
    ensures StartActionOrder(s).state.desired in {map[], s.desired}
  {
    hide StartAction, Dealt, Striving, Free, Sorted, PickRequests;
    DealtIsAllotment(s);
    StartActionRoom(s.(confirmed := Dealt(s), current := 0));
  }

  lemma SettleHonours(s: State)
    requires Claimed(s)
    ensures Honoured(s.desired, Settle(s)) && Keeps(s.confirmed, Settle(s))
  {
    forall o | o in s.desired && |s.desired[o]| == 1 ensures SettledOrders(s.desired)[o] in s.desired[o] {}
  }

  lemma KeepsHonours(claims: map<int, set<Name>>, t: State, u: State)
    requires Honoured(claims, t) && Keeps(t.confirmed, u)
    requires t.desired == map[] || t.desired == u.desired
    ensures Honoured(claims, u)
  {
  }

  lemma KeepsOn(m: map<int, Name>, t: State, u: State)
    requires Keeps(m, t) && Keeps(t.confirmed, u)
    ensures Keeps(m, u)
  {
  }

  lemma StartRpsForActionOrderHonours(s: State)
    requires Negotiating(s) && s.remaining == map[]
    ensures Honoured(s.desired, StartRpsForActionOrder(s).state)
    ensures Keeps(s.confirmed, StartRpsForActionOrder(s).state)
    ensures StartRpsForActionOrder(s).state.phase == RpsForActionOrder || StartRpsForActionOrder(s).state.desired == map[]
  {
    SettleNegotiates(s);
    SettleHonours(s);
    hide StartActionOrder, SettledOrders, Contested, Negotiable, Selections, Claimed, Honoured, Keeps;
    var t := Settle(s);
    if t.desired == map[] {
      StartActionOrderKeeps(t);
    } else {
      KeepsSame(t, StartRpsForActionOrder(s).state);
    }
    KeepsHonours(s.desired, t, StartRpsForActionOrder(s).state);
    KeepsOn(s.confirmed, t, StartRpsForActionOrder(s).state);
  }

  lemma KeepsSame(t: State, u: State)
    requires t.confirmed == u.confirmed
    ensures Keeps(t.confirmed, u)
  {
  }

  // Everybody who was asked has thrown.
  predicate AllThrown(s: State) {
    s.orderReplies.Keys == ClaimantsOf(s.desired, s.striving)
  }

  lemma JudgeHonours(s: State)
    requires Negotiating(s) && s.remaining == map[] && s.striving in s.desired
    requires s.orderReplies.Keys <= s.desired[s.striving]
    ensures Honoured(s.desired, JudgeRpsForActionOrder(s).state)
    ensures Keeps(s.confirmed, JudgeRpsForActionOrder(s).state)
    ensures s.phase == RpsForActionOrder && JudgeRpsForActionOrder(s).state.phase != RpsForActionOrder ==> JudgeRpsForActionOrder(s).state.desired == map[]
  {
    hide StartRpsForActionOrder, Winners, Negotiating, Honoured, Keeps;
    if |s.orderReplies| == |ClaimantsOf(s.desired, s.striving)| {
      if Winners(s.orderReplies) == {} {
        StartRpsForActionOrderHonours(s);
      } else {
        WinnersThrew(s.orderReplies);
        NarrowNegotiates(s, Winners(s.orderReplies));
        var v := s.(desired := Narrowed(s.desired, s.striving, Winners(s.orderReplies)));
        StartRpsForActionOrderHonours(v);
        NarrowHonours(s, Winners(s.orderReplies), StartRpsForActionOrder(v).state);
      }
    } else {
      SelfHonours(s);
    }
  }

  lemma WinnersThrew(j: Throws)
    ensures Winners(j) <= j.Keys
  {
  }

  lemma SelfHonours(s: State)
    requires Negotiating(s)
    ensures Honoured(s.desired, s) && Keeps(s.confirmed, s)
  {
  }

  lemma NarrowHonours(s: State, winners: set<Name>, u: State)
    requires s.striving in s.desired && winners != {} && winners <= s.desired[s.striving]
    requires Honoured(Narrowed(s.desired, s.striving, winners), u)
    ensures Honoured(s.desired, u)
  {
    var narrowed := Narrowed(s.desired, s.striving, winners);
    assert narrowed[s.striving] == winners;
  }

  lemma PicksHonour(s: State, n: Name, orders: seq<int>)
    requires Picking(s) && n in s.remaining
    ensures Honoured(TakePicks(s, n, orders).desired, AdvanceActionOrder(TakePicks(s, n, orders)).state)
    ensures Keeps(s.confirmed, AdvanceActionOrder(TakePicks(s, n, orders)).state)
  {
    TakePicksPicks(s, n, orders);
    hide StartRpsForActionOrder, Negotiating, Picking, PicksClaimed, PicksYielded, Honoured, Keeps;
    var t := TakePicks(s, n, orders);
    if t.remaining == map[] {
      StartRpsForActionOrderHonours(t);
    } else {
      SelfHonours(t);
    }
  }

  // One legal step of a throw for an order: no claim is lost.
  lemma ThrowHonours(s: State, kills: multiset<Name>, e: Event)
    requires Inv(s, kills) && OnlyAsked(s) && s.phase == RpsForActionOrder
    requires e.RpsReply? && Enabled(s, e) ==> e.name in Waiting(s)
    ensures Honoured(s.desired, Step(s, e).state) && Keeps(s.confirmed, Step(s, e).state)
    ensures Step(s, e).state.phase != RpsForActionOrder ==> Step(s, e).state.desired == map[]
  {
    hide Round, RoundOver, JudgeRpsForActionOrder, Honoured, Keeps, Negotiating;
    if Enabled(s, e) {
      var u := s.(orderReplies := s.orderReplies[e.name := e.throw]);
      RepliesAside(s, u.orderReplies);
      JudgeHonours(u);
    } else {
      SelfHonours(s);
    }
  }

  // ----- over a whole negotiation -----

  ghost predicate StaysNegotiating(w: World, es: seq<Event>)
    decreases |es|
  {
    es == [] || (InNegotiation(w.state) && StaysNegotiating(Next(w, es[0]), es[1..]))
  }

  // All claims are settled, each to a claimant.
  predicate Settled(claims: map<int, set<Name>>, t: State) {
    forall o <- claims :: o in t.confirmed && t.confirmed[o] in claims[o]
  }

  lemma HonouredOn(claims: map<int, set<Name>>, t: State, u: State)
    requires Honoured(claims, t) && Honoured(t.desired, u) && Keeps(t.confirmed, u)
    ensures Honoured(claims, u)
  {
  }

  // Once the throws are over, an order somebody claimed belongs to a claimant.
  ghost predicate Fate(claims: map<int, set<Name>>, s: State) {
    Honoured(claims, s) && (s.phase != RpsForActionOrder ==> Settled(claims, s))
  }

  lemma SettledIsHonoured(claims: map<int, set<Name>>, t: State, u: State)
    requires Settled(claims, t) && Keeps(t.confirmed, u)
    ensures Settled(claims, u) && Honoured(claims, u)
  {
  }

  lemma StepKeepsConfirmed(s: State, kills: multiset<Name>, e: Event)
    requires Inv(s, kills) && OnlyAsked(s) && InNegotiation(s)
    requires IsReply(e) && Enabled(s, e) ==> e.name in Waiting(s)
    ensures Keeps(s.confirmed, Step(s, e).state)
  {
    hide Inv, Step, Honoured, Keeps;
    if s.phase == RpsForActionOrder {
      ThrowHonours(s, kills, e);
    } else if Enabled(s, e) {
      PicksKeepConfirmed(s, kills, e);
    } else {
      KeepsSame(s, s);
      DisabledStep(s, e);
    }
  }

  lemma DisabledStep(s: State, e: Event)
    requires !Enabled(s, e)
    ensures Step(s, e).state == s
  {
  }

  lemma PicksKeepConfirmed(s: State, kills: multiset<Name>, e: Event)
    requires Inv(s, kills) && s.phase == ActionOrder && Enabled(s, e)
    ensures Keeps(s.confirmed, Step(s, e).state)
  {
    hide Round, RoundOver, Honoured, AdvanceActionOrder, TakePicks, Keeps, Picking;
    PicksHonour(s, e.name, e.orders);
  }

  lemma FateNext(claims: map<int, set<Name>>, w: World, e: Event)
    requires Healthy(w) && Legal(w, e) && InNegotiation(w.state) && Fate(claims, w.state)
    ensures Fate(claims, Next(w, e).state)
  {
    hide Inv, Step, OnlyAsked, Waiting, NextKills, Honoured, Keeps, Settled, Enabled;
    var s := w.state;
    LegalIsAwaited(w, e);
    StepKeepsConfirmed(s, w.kills, e);
    if s.phase == RpsForActionOrder {
      ThrowHonours(s, w.kills, e);
      HonouredOn(claims, s, Step(s, e).state);
      if Step(s, e).state.phase != RpsForActionOrder {
        NothingContested(claims, Step(s, e).state);
      }
    } else {
      SettledIsHonoured(claims, s, Step(s, e).state);
    }
  }

  lemma NothingContested(claims: map<int, set<Name>>, t: State)
    requires Honoured(claims, t) && t.desired == map[]
    ensures Settled(claims, t)
  {
  }

  lemma LegalIsAwaited(w: World, e: Event)
    requires Healthy(w) && Legal(w, e)
    ensures IsReply(e) ==> e.name in Waiting(w.state) && KindMatches(w.state, e)
  {
    hide Inv, OnlyAsked, Waiting;
    if IsReply(e) { assert Awaited(w.state, ReplyKind(e), e.name) > 0; }
  }

  lemma {:induction false} FateRun(claims: map<int, set<Name>>, w: World, es: seq<Event>)
    requires Healthy(w) && LegalRun(w, es) && StaysNegotiating(w, es) && Fate(claims, w.state)
    ensures Fate(claims, Run(w, es).state)
    decreases |es|
  {
    hide Healthy, Next, Legal, Fate;
    if es != [] {
      FateNext(claims, w, es[0]);
      HealthyNext(w, es[0]);
      FateRun(claims, Next(w, es[0]), es[1..]);
    }
  }

  // Whatever is thrown from here on: as soon as the engine asks for picks again or announces the
  // result, every order that was claimed belongs to one of the players who claimed it. In
  // particular a sole claimant has got it.
  lemma ContestedGoesToClaimant(w: World, es: seq<Event>)
    requires Healthy(w) && w.state.phase == RpsForActionOrder
    requires LegalRun(w, es) && StaysNegotiating(w, es)
    ensures var t := Run(w, es).state;
            && Honoured(w.state.desired, t)
            && Keeps(w.state.confirmed, t)
            && (t.phase != RpsForActionOrder ==> Settled(w.state.desired, t))
  {
    hide Inv, Honoured, Keeps, Settled;
    NegotiatingNow(w.state, w.kills);
    SelfHonours(w.state);
    FateRun(w.state.desired, w, es);
    KeepsRun(w, es);
  }

  lemma NegotiatingNow(s: State, kills: multiset<Name>)
    requires Inv(s, kills) && InNegotiation(s)
    ensures Negotiating(s)
  {
  }

  lemma {:induction false} KeepsRun(w: World, es: seq<Event>)
    requires Healthy(w) && LegalRun(w, es) && StaysNegotiating(w, es)
    ensures Keeps(w.state.confirmed, Run(w, es).state)
    decreases |es|
  {
    hide Next, Legal, Inv, OnlyAsked, Waiting;
    if es != [] {
      LegalIsAwaited(w, es[0]);
      StepKeepsConfirmed(w.state, w.kills, es[0]);
      HealthyNext(w, es[0]);
      KeepsRun(Next(w, es[0]), es[1..]);
      NextState(w, es[0]);
      KeepsOn(w.state.confirmed, Next(w, es[0]).state, Run(w, es).state);
    }
  }

  lemma NextState(w: World, e: Event)
    ensures Next(w, e).state == Step(w.state, e).state
  {
  }

  // Settling gives every order with one claimant away, and it stays given.
  lemma SoleClaimsSettled(s: State)
    requires Negotiating(s) && s.remaining == map[]
    ensures Keeps(SettledOrders(s.desired), StartRpsForActionOrder(s).state)
  {
    SettleNegotiates(s);
    hide StartActionOrder, SettledOrders, Contested, Negotiable, Selections, Claimed, Keeps;
    var t := Settle(s);
    SettledAreConfirmed(s);
    if t.desired == map[] { StartActionOrderKeeps(t); } else { KeepsSame(t, StartRpsForActionOrder(s).state); }
    KeepsOn(SettledOrders(s.desired), t, StartRpsForActionOrder(s).state);
  }

  lemma SettledAreConfirmed(s: State)
    ensures Keeps(SettledOrders(s.desired), Settle(s))
  {
    hide SettledOrders;
  }

  // When the last picks arrive, an order picked by one player only is that player's at once, and
  // a contested one stays with those who picked it.
  lemma PicksAreHonoured(w: World, e: Event)
    requires Healthy(w) && w.state.phase == ActionOrder && e.ActionOrderReply? && Legal(w, e)
    ensures var t := TakePicks(w.state, e.name, e.orders); var u := Next(w, e).state;
            && Honoured(t.desired, u)
            && Keeps(w.state.confirmed, u)
            && (t.remaining == map[] ==> forall o, p | o in t.desired && t.desired[o] == {p} :: o in u.confirmed && u.confirmed[o] == p)
  {
    hide Round, RoundOver, Picking, TakePicks, AdvanceActionOrder, Honoured, Keeps, NextKills;
    LegalIsAwaited(w, e);
    WaitingPlay(w.state, w.kills);
    PicksHonour(w.state, e.name, e.orders);
    LastPicksSettle(w.state, e.name, e.orders);
  }

  lemma LastPicksSettle(s: State, n: Name, orders: seq<int>)
    requires Picking(s) && n in s.remaining
    ensures var t := TakePicks(s, n, orders); var u := AdvanceActionOrder(t).state;
            t.remaining == map[] ==> forall o, p | o in t.desired && t.desired[o] == {p} :: o in u.confirmed && u.confirmed[o] == p
  {
    TakePicksPicks(s, n, orders);
    hide StartRpsForActionOrder, Negotiating, Picking, TakePicks, SettledOrders;
    var t := TakePicks(s, n, orders);
    if t.remaining == map[] {
      SoleClaimsSettled(t);
      forall o, p | o in t.desired && t.desired[o] == {p} ensures o in SettledOrders(t.desired) && SettledOrders(t.desired)[o] == p {
        SettledToSole(t.desired, o, p);
      }
    }
  }

  lemma SettledToSole(desired: map<int, set<Name>>, o: int, p: Name)
    requires o in desired && desired[o] == {p}
    ensures o in SettledOrders(desired) && SettledOrders(desired)[o] == p
  {
    SoleUnique(desired[o]);
  }

  // ----- who gets what nobody asked for -----

  // The orders a result gives p that it neither owned nor claimed.
  function Unasked(m: map<int, Name>, t: State, p: Name): set<int> {
    OrdersOf(m, p) - OrdersOf(t.confirmed, p) - ClaimsOf(t.desired, p)
  }

  // Nobody is given more of those than it has yielded, unless there is only one winner to give to.
  predicate Unsurprising(m: map<int, Name>, t: State) {
    |t.winners| == 1 || forall p <- t.winners :: |Unasked(m, t, p)| <= CountOf(t.yielded, p)
  }

  lemma LeftoversWereYielded(u: State, t: State, p: Name)
    requires Negotiable(u) && Striving(u) == map[] && p in u.winners
    requires OrdersOf(u.confirmed, p) <= OrdersOf(t.confirmed, p) + ClaimsOf(t.desired, p) && t.yielded == u.yielded
    ensures |Unasked(Dealt(u), t, p)| <= CountOf(t.yielded, p)
  {
    NotStriving(u, p);
    DealtShare(u, p);
    HeldByBoth(u, t, Dealt(u), p);
    hide *;
    SizeWithout(Unasked(Dealt(u), t, p), OrdersOf(Dealt(u), p), OrdersOf(u.confirmed, p));
  }

  lemma SizeWithout(part: set<int>, all: set<int>, held: set<int>)
    requires held <= all && part <= all - held
    ensures |part| <= |all| - |held|
  {
    assert all == (all - held) + held;
    SubsetSize(part, all - held);
  }

  lemma NotStriving(u: State, p: Name)
    requires Striving(u) == map[] && p in u.winners
    ensures u.chances - |OrdersOf(u.confirmed, p)| <= CountOf(u.yielded, p)
  {
    hide OrdersOf, CountOf;
    assert p !in Striving(u);
  }

  lemma DealtShare(u: State, p: Name)
    requires Negotiable(u) && p in u.winners
    ensures OrdersOf(u.confirmed, p) <= OrdersOf(Dealt(u), p) && |OrdersOf(Dealt(u), p)| == u.chances
  {
    DealtIsAllotment(u);
    hide Dealt, Negotiable;
  }

  lemma HeldByBoth(u: State, t: State, m: map<int, Name>, p: Name)
    requires OrdersOf(u.confirmed, p) <= OrdersOf(t.confirmed, p) + ClaimsOf(t.desired, p) && t.yielded == u.yielded
    ensures Unasked(m, t, p) <= OrdersOf(m, p) - OrdersOf(u.confirmed, p) && CountOf(t.yielded, p) == CountOf(u.yielded, p)
  {
    hide OrdersOf, ClaimsOf;
  }

  ghost predicate NoSurprises(sent: seq<Message>, t: State) {
    forall m <- sent :: m.ActionOrderResult? ==> Unsurprising(m.allotment, t)
  }

  lemma NoSurpriseAfter(m: Message, o: Outcome, t: State)
    requires NoSurprises(o.sent, t) && (m.ActionOrderResult? ==> Unsurprising(m.allotment, t))
    ensures NoSurprises(After(m, o).sent, t)
  {
    hide Unsurprising;
  }

  lemma NothingAnnounced(sent: seq<Message>, t: State)
    requires forall m <- sent :: !m.ActionOrderResult?
    ensures NoSurprises(sent, t)
  {
  }

  // t is the table as the players left it, u the same with nothing contested any more.
  lemma DealtWithoutSurprise(u: State, t: State)
    requires Negotiable(u) && u.winners == t.winners && u.yielded == t.yielded
    requires forall p <- u.winners :: OrdersOf(u.confirmed, p) <= OrdersOf(t.confirmed, p) + ClaimsOf(t.desired, p)
    ensures NoSurprises(StartActionOrder(u).sent, t)
  {
    hide StartAction, Dealt, Striving, Free, Sorted, Negotiable, Unasked, OrdersOf, ClaimsOf, CountOf, NoSurprises;
    var v := u.(confirmed := Dealt(u), current := 0);
    if |u.winners| == 1 || Striving(u) == map[] {
      if |u.winners| != 1 {
        forall p <- t.winners ensures |Unasked(Dealt(u), t, p)| <= CountOf(t.yielded, p) { LeftoversWereYielded(u, t, p); }
      }
      StartActionSends(v);
      NothingAnnounced(StartAction(v).sent, t);
      NoSurpriseAfter(ActionOrderResult(Dealt(u)), StartAction(v), t);
    } else {
      PickRequestsAre(Sorted(Striving(u).Keys), Free(u), u.orders, Striving(u));
      NothingAnnounced(StartActionOrder(u).sent, t);
    }
  }

  lemma SettledWereClaimed(s: State, p: Name)
    requires Claimed(s)
    ensures OrdersOf(Settle(s).confirmed, p) <= OrdersOf(s.confirmed, p) + ClaimsOf(s.desired, p)
  {
    SettledTo(s.desired, p);
    hide Contested, Sole;
    forall o <- OrdersOf(Settle(s).confirmed, p) ensures o in OrdersOf(s.confirmed, p) || o in ClaimsOf(s.desired, p) {
      assert o in OrdersOf(s.confirmed, p) || o in OrdersOf(SettledOrders(s.desired), p);
    }
  }

  // The table s may have been narrowed from t.
  lemma SettleWithoutSurprise(s: State, t: State)
    requires Negotiating(s) && s.remaining == map[]
    requires s.winners == t.winners && s.yielded == t.yielded && s.confirmed == t.confirmed
    requires forall p :: ClaimsOf(s.desired, p) <= ClaimsOf(t.desired, p)
    ensures NoSurprises(StartRpsForActionOrder(s).sent, t)
  {
    hide StartActionOrder, SettledOrders, Contested, Negotiable, Selections, Claimed, NoSurprises, OrdersOf, ClaimsOf;
    SettleNegotiates(s);
    var u := Settle(s);
    if u.desired == map[] {
      forall p <- u.winners ensures OrdersOf(u.confirmed, p) <= OrdersOf(t.confirmed, p) + ClaimsOf(t.desired, p) { SettledWereClaimed(s, p); }
      DealtWithoutSurprise(u, t);
    } else {
      NothingAnnounced(StartRpsForActionOrder(s).sent, t);
    }
  }

  lemma NarrowedClaims(desired: map<int, set<Name>>, o: int, winners: set<Name>, p: Name)
    ensures ClaimsOf(Narrowed(desired, o, winners), p) <= ClaimsOf(desired, p)
  {
  }

  lemma JudgeWithoutSurprise(s: State)
    requires Negotiating(s) && s.remaining == map[]
    ensures NoSurprises(JudgeRpsForActionOrder(s).sent, s)
  {
    hide StartRpsForActionOrder, Winners, Negotiating, NoSurprises, Narrowed;
    var v := if Winners(s.orderReplies) == {} then s else s.(desired := Narrowed(s.desired, s.striving, Winners(s.orderReplies)));
    NarrowNegotiates(s, Winners(s.orderReplies));
    if |s.orderReplies| == |ClaimantsOf(s.desired, s.striving)| {
      forall p ensures ClaimsOf(v.desired, p) <= ClaimsOf(s.desired, p) { NarrowedClaims(s.desired, s.striving, Winners(s.orderReplies), p); }
      SettleWithoutSurprise(v, s);
      NoSurpriseAfter(RpsResult(s.orderReplies), StartRpsForActionOrder(v), s);
    } else {
      NothingAnnounced([], s);
    }
  }

  // The table a result is announced on: the picks of the reply are on it.
  function TableAt(s: State, e: Event): State {
    if e.ActionOrderReply? && e.name in s.remaining then TakePicks(s, e.name, e.orders) else s
  }

  // What is announced in a negotiation gives nobody but a lone winner more orders it neither owned
  // nor claimed than it has given up claiming - whoever replied.
  lemma LeftoversOnlyToYielders(s: State, kills: multiset<Name>, e: Event)
    requires Inv(s, kills) && InNegotiation(s)
    ensures NoSurprises(Step(s, e).sent, TableAt(s, e))
  {
    hide Round, RoundOver, JudgeRpsForActionOrder, AdvanceActionOrder, TakePicks, NoSurprises, Negotiating, Picking;
    if !Enabled(s, e) {
      NothingAnnounced([], TableAt(s, e));
    } else if s.phase == ActionOrder {
      PicksWithoutSurprise(s, e.name, e.orders);
    } else {
      var u := s.(orderReplies := s.orderReplies[e.name := e.throw]);
      RepliesAside(s, u.orderReplies);
      JudgeWithoutSurprise(u);
      SameTableSameSurprises(Step(s, e).sent, s, u);
    }
  }

  lemma SameTableSameSurprises(sent: seq<Message>, s: State, u: State)
    requires s.winners == u.winners && s.yielded == u.yielded && s.confirmed == u.confirmed && s.desired == u.desired
    requires NoSurprises(sent, u)
    ensures NoSurprises(sent, s)
  {
    hide CountOf, OrdersOf, ClaimsOf;
    forall m | m in sent && m.ActionOrderResult? ensures Unsurprising(m.allotment, s) {
      assert Unsurprising(m.allotment, u);
      forall p ensures Unasked(m.allotment, s, p) == Unasked(m.allotment, u, p) {}
    }
  }

  lemma PicksWithoutSurprise(s: State, n: Name, orders: seq<int>)
    requires Picking(s) && n in s.remaining
    ensures NoSurprises(AdvanceActionOrder(TakePicks(s, n, orders)).sent, TakePicks(s, n, orders))
  {
    TakePicksPicks(s, n, orders);
    hide StartRpsForActionOrder, Negotiating, Picking, TakePicks, NoSurprises;
    var t := TakePicks(s, n, orders);
    if t.remaining == map[] { SettleWithoutSurprise(t, t); } else { NothingAnnounced([], t); }
  }
}
