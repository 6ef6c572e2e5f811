/**
  The picks the server sends for an absent player are always ones the engine accepts as sent: a
  request for picks offers at least as many orders as it asks for, all of them free.
 */
module Defaults {
  import opened Basics
  import opened Rules
  import opened Rps
  import opened Machine
  import opened Accounting
  import opened Invariants
  import opened Steps
  import opened Runs
  import opened Contests
  import opened ActionPhase

  // ----- the offer is large enough -----

  lemma OneOfSum(names: set<Name>, f: map<Name, int>, p: Name)
    requires names <= f.Keys && p in names && forall n <- names :: f[n] >= 0
    ensures f[p] <= Sum(names, f)
  {
    SumRemove(names, p, f);
    SumNonNegative(names - {p}, f);
  }

  lemma OfferSuffices(s: State, p: Name)
    requires Picking(s) && p in s.remaining
    ensures 1 <= s.remaining[p] <= |Free(s)|
  {
    assert Selections(s, p) == s.chances;
    assert s.remaining[p] <= Owed(s, p);
    OwedAddsUp(s);
    forall q <- Unsettled(s) ensures Unsettled(s)[q] >= 0 {
      assert |OrdersOf(s.confirmed, q)| + CountOf(s.yielded, q) <= s.chances;
    }
    OneOfSum(Unsettled(s).Keys, Unsettled(s), p);
  }

  // Taking the first orders on offer is always a good answer.
  lemma FirstOffersAreGood(s: State, p: Name)
    requires Picking(s) && p in s.remaining
    ensures s.remaining[p] <= |Free(s)| && GoodPicks(s, s.remaining[p], Free(s)[..s.remaining[p]])
  {
    OfferSuffices(s, p);
    hide Picking, Free;
    FreePrefix(s, s.remaining[p]);
  }

  lemma FreePrefix(s: State, k: int)
    requires 0 <= k <= |Free(s)|
    ensures GoodPicks(s, k, Free(s)[..k])
  {
    FreeOrdersAre(s.orders, s.confirmed.Keys);
    var picks := Free(s)[..k];
    forall o <- picks ensures GoodOrder(s, o) {
      assert o in Free(s);
    }
  }

  // The offer stands until the player it was made to has answered.
  lemma OfferStands(s: State, p: Name, orders: seq<int>, q: Name)
    requires p in s.remaining && q in s.remaining && q != p
    ensures var t := TakePicks(s, p, orders);
            AdvanceActionOrder(t) == Silent(t) && q in t.remaining && t.remaining[q] == s.remaining[q] && Free(t) == Free(s)
  {
    hide PicksClaimed, PicksYielded, Claim, StartRpsForActionOrder;
    assert q in TakePicks(s, p, orders).remaining;
  }

  // ----- every request for picks makes that offer -----

  ghost predicate OffersFit(o: Outcome) {
    forall m <- o.sent :: m.RequestActionOrder? ==>
      && o.state.phase == ActionOrder && m.name in o.state.remaining
      && m.offered == Free(o.state) && m.maximum == o.state.orders && m.selections == o.state.remaining[m.name]
  }

  lemma NoOffers(o: Outcome)
    requires forall m <- o.sent :: !m.RequestActionOrder?
    ensures OffersFit(o)
  {
  }

  lemma OffersAfter(m: Message, o: Outcome)
    requires OffersFit(o) && !m.RequestActionOrder?
    ensures OffersFit(After(m, o))
  {
    hide Free;
  }

  lemma StartActionOrderOffers(s: State)
    ensures OffersFit(StartActionOrder(s))
  {
    hide StartAction, Dealt, Striving, Sorted, FreeOrders;
    var t := s.(confirmed := Dealt(s), current := 0);
    StartActionSends(t);
    PickRequestsAre(Sorted(Striving(s).Keys), Free(s), s.orders, Striving(s));
  }

  lemma StartRpsForActionOrderOffers(s: State)
    ensures OffersFit(StartRpsForActionOrder(s))
  {
    hide StartActionOrder, SettledOrders, Contested, Free;
    StartActionOrderOffers(Settle(s));
  }

  lemma ThrowOffers(s: State)
    ensures OffersFit(JudgeRpsForAction(s)) && OffersFit(JudgeRpsForActionOrder(s))
  {
    hide StartActionOrder, StartRpsForActionOrder, Winners, Losers, Sorted, Narrowed, Free, OffersFit;
    var v := s.(winners := Winners(s.rpsReplies), chances := |Losers(s.rpsReplies)|,
                orders := |Winners(s.rpsReplies)| * |Losers(s.rpsReplies)|, confirmed := map[], yielded := map[]);
    StartActionOrderOffers(v);
    OffersAfter(RpsResult(s.rpsReplies), StartActionOrder(v));
    NoOffers(StartRpsForAction(s));
    OffersAfter(RpsResult(s.rpsReplies), StartRpsForAction(s));
    NoOffers(Silent(s));
    StartRpsForActionOrderOffers(s);
    OffersAfter(RpsResult(s.orderReplies), StartRpsForActionOrder(s));
    var u := s.(desired := Narrowed(s.desired, s.striving, Winners(s.orderReplies)));
    StartRpsForActionOrderOffers(u);
    OffersAfter(RpsResult(s.orderReplies), StartRpsForActionOrder(u));
  }

  lemma OtherStepsNoOffer(s: State, e: Event)
    requires !e.RpsReply? && !e.ActionOrderReply?
    ensures OffersFit(Step(s, e))
  {
    hide StartAction, Perform, PreparedRoom, ResetRoom, Feasible, UpgradeFeasible, DefaultUpgrades, UpgradedRoom,
      RoundOver, Sorted, Pointed, OffersFit, MaxedNames;
    if e.ActionReply? && Enabled(s, e) {
      var act := if Feasible(s.config, s.players, e.name, e.action, e.toPlayer, e.toPlace) then e.action else DoNothing;
      StartActionSends(s.(players := Perform(s.config, s.players, e.name, act, e.toPlayer, e.toPlace)));
    }
    NoOffers(Step(s, e));
  }

  // Whatever happens: a request for picks offers all free orders and asks for what is still open.
  lemma StepOffers(s: State, e: Event)
    ensures OffersFit(Step(s, e))
  {
    hide JudgeRpsForAction, JudgeRpsForActionOrder, StartRpsForActionOrder, TakePicks, OffersFit, Enabled;
    if !Enabled(s, e) {
      NoOffers(Step(s, e));
    } else if e.RpsReply? {
      ThrowOffers(s.(rpsReplies := s.rpsReplies[e.name := e.throw]));
      ThrowOffers(s.(orderReplies := s.orderReplies[e.name := e.throw]));
    } else if e.ActionOrderReply? {
      EnabledPick(s, e);
      StartRpsForActionOrderOffers(TakePicks(s, e.name, e.orders));
      NoOffers(Silent(TakePicks(s, e.name, e.orders)));
    } else {
      OtherStepsNoOffer(s, e);
    }
  }

  lemma EnabledPick(s: State, e: Event)
    requires e.ActionOrderReply? && Enabled(s, e)
    ensures e.name in s.remaining
  {
  }

  // The default answer to any request for picks that is sent - its first orders, as many as it asks
  // for - exists and is accepted as it stands.
  lemma DefaultPicksAccepted(s: State, kills: multiset<Name>, e: Event, m: Message)
    requires Inv(s, kills) && m in Step(s, e).sent && m.RequestActionOrder?
    ensures var t := Step(s, e).state;
            && 1 <= m.selections <= |m.offered|
            && Accepted(t, ActionOrderReply(m.name, m.offered[..m.selections]))
  {
    hide Step, NextKills, Inv, Accepted, OffersFit, StandsOpen;
    StepKeeps(s, kills, e);
    StepOffers(s, e);
    FitsOpen(Step(s, e), m);
    OpenIsAccepted(Step(s, e).state, NextKills(s, kills, e), m);
  }

  // ----- until it is answered -----

  // The request m is the one player m.name has open, and what it offers is still all that is free.
  predicate StandsOpen(t: State, m: Message)
    requires m.RequestActionOrder?
  {
    t.phase == ActionOrder && m.name in t.remaining && m.selections == t.remaining[m.name] && m.offered == Free(t)
  }

  lemma StandsOn(t: State, m: Message, e: Event)
    requires m.RequestActionOrder? && StandsOpen(t, m) && !(e.ActionOrderReply? && e.name == m.name)
    ensures StandsOpen(Step(t, e).state, m)
  {
    hide Free, TakePicks, AdvanceActionOrder, GoodPicks;
    if Enabled(t, e) && e.ActionOrderReply? {
      OfferStands(t, e.name, e.orders, m.name);
      PicksPhase(t, e.name, e.orders);
    }
  }

  lemma PicksPhase(t: State, p: Name, orders: seq<int>)
    requires p in t.remaining
    ensures TakePicks(t, p, orders).phase == t.phase
  {
  }

  lemma {:induction false} StandsThrough(w: World, m: Message, es: seq<Event>)
    requires m.RequestActionOrder? && StandsOpen(w.state, m)
    requires forall e <- es :: !(e.ActionOrderReply? && e.name == m.name)
    ensures StandsOpen(Run(w, es).state, m)
    decreases |es|
  {
    hide StandsOpen, Step, NextKills;
    if es != [] {
      StandsOn(w.state, m, es[0]);
      forall e <- es[1..] ensures !(e.ActionOrderReply? && e.name == m.name) { assert e in es; }
      StandsThrough(Next(w, es[0]), m, es[1..]);
    }
  }

  lemma OpenIsAccepted(t: State, kills: multiset<Name>, m: Message)
    requires Inv(t, kills) && m.RequestActionOrder? && StandsOpen(t, m)
    ensures 1 <= m.selections <= |m.offered|
    ensures Accepted(t, ActionOrderReply(m.name, m.offered[..m.selections]))
  {
    hide Inv, Free, GoodPicks, Picking;
    NowPicking(t, kills);
    OfferSuffices(t, m.name);
    FirstOffersAreGood(t, m.name);
  }

  lemma FitsOpen(o: Outcome, m: Message)
    requires OffersFit(o) && m in o.sent && m.RequestActionOrder?
    ensures StandsOpen(o.state, m)
  {
    hide Free;
  }

  // In any run, from the moment a request for picks goes out until its player answers it, whoever
  // else replies and however: its default answer is accepted as it stands, even if it only comes
  // when the player is given up.
  lemma DefaultStaysAccepted(c: Config, es: seq<Event>, e: Event, m: Message, fs: seq<Event>)
    requires c.Playable() && m in Step(Run(Start(c), es).state, e).sent && m.RequestActionOrder?
    requires forall f <- fs :: !(f.ActionOrderReply? && f.name == m.name)
    ensures var t := Run(Next(Run(Start(c), es), e), fs).state;
            && 1 <= m.selections <= |m.offered|
            && Accepted(t, ActionOrderReply(m.name, m.offered[..m.selections]))
  {
    var w := Run(Start(c), es);
    StartIsSeated(c);
    NextState(w, e);
    hide *;
    InvRun(Start(c), es);
    StepKeeps(w.state, w.kills, e);
    NextInv(w, e);
    StepOffers(w.state, e);
    FitsOpen(Step(w.state, e), m);
    StandsThrough(Next(w, e), m, fs);
    InvRun(Next(w, e), fs);
    OpenIsAccepted(Run(Next(w, e), fs).state, Run(Next(w, e), fs).kills, m);
  }
}
