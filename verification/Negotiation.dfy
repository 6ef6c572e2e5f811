/**
  What a negotiation delivers: a complete and fair allotment of the orders.
 */
module Negotiation {
  import opened Basics
  import opened Rules
  import opened Rps
  import opened Machine
  import opened Accounting
  import opened Invariants
  import opened Steps
  import opened Runs
  import opened Contests
  import opened ActionPhase

  // ----- the result -----

  // The winners the negotiation is about when an event arrives.
  function WinnersAt(s: State, e: Event): set<Name> {
    if s.phase == RpsForAction && e.RpsReply? then Winners(s.rpsReplies[e.name := e.throw]) else s.winners
  }

  function ChancesAt(s: State, e: Event): nat {
    if s.phase == RpsForAction && e.RpsReply? then |Losers(s.rpsReplies[e.name := e.throw])| else s.chances
  }

  ghost predicate ResultsFair(sent: seq<Message>, winners: set<Name>, chances: nat) {
    forall m | m in sent && m.ActionOrderResult? :: IsAllotment(m.allotment, winners, chances, |winners| * chances)
  }

  lemma FairAfter(m: Message, o: Outcome, winners: set<Name>, chances: nat)
    requires ResultsFair(o.sent, winners, chances)
    requires m.ActionOrderResult? ==> IsAllotment(m.allotment, winners, chances, |winners| * chances)
    ensures ResultsFair(After(m, o).sent, winners, chances)
  {
    hide IsAllotment;
  }

  lemma StartActionOrderIs(s: State)
    ensures |s.winners| == 1 || Striving(s) == map[] ==>
              StartActionOrder(s) == After(ActionOrderResult(Dealt(s)), StartAction(s.(confirmed := Dealt(s), current := 0)))
    ensures !(|s.winners| == 1 || Striving(s) == map[]) ==> forall m <- StartActionOrder(s).sent :: !m.ActionOrderResult?
  {
    hide StartAction, Dealt, Striving, Free, Sorted;
    PickRequestsAre(Sorted(Striving(s).Keys), Free(s), s.orders, Striving(s));
  }

  lemma NegotiableOrders(s: State)
    requires Negotiable(s)
    ensures s.orders == |s.winners| * s.chances
  {
  }

  lemma StartActionOrderFair(s: State)
    requires Negotiable(s)
    ensures ResultsFair(StartActionOrder(s).sent, s.winners, s.chances)
  {
    hide *;
    StartActionOrderIs(s);
    DealtIsAllotment(s);
    NegotiableOrders(s);
    var t := s.(confirmed := Dealt(s), current := 0);
    StartActionSends(t);
    NoResultIsFair(StartAction(t).sent, s.winners, s.chances);
    if |s.winners| == 1 || Striving(s) == map[] {
      FairAfter(ActionOrderResult(Dealt(s)), StartAction(t), s.winners, s.chances);
    } else {
      NoResultIsFair(StartActionOrder(s).sent, s.winners, s.chances);
    }
  }

  lemma StartRpsForActionOrderFair(s: State)
    requires Negotiating(s) && s.remaining == map[]
    ensures ResultsFair(StartRpsForActionOrder(s).sent, s.winners, s.chances)
  {
    hide StartActionOrder, SettledOrders, Contested, ResultsFair, Negotiable, Selections, Claimed;
    SettleNegotiates(s);
    if Settle(s).desired == map[] {
      StartActionOrderFair(Settle(s));
    } else {
      NoResultIsFair([RequestRpsForActionOrder(ClaimantsOf(Settle(s).desired, LowestFrom(Settle(s).desired, 1, s.orders)),
                                               LowestFrom(Settle(s).desired, 1, s.orders))], s.winners, s.chances);
    }
  }

  lemma NoResultIsFair(sent: seq<Message>, winners: set<Name>, chances: nat)
    requires forall m <- sent :: !m.ActionOrderResult?
    ensures ResultsFair(sent, winners, chances)
  {
  }

  lemma ThrowResultFair(s: State, kills: multiset<Name>, e: Event)
    requires Inv(s, kills) && s.phase == RpsForAction && e.RpsReply? && Enabled(s, e)
    ensures ResultsFair(Step(s, e).sent, WinnersAt(s, e), ChancesAt(s, e))
  {
    var u := s.(rpsReplies := s.rpsReplies[e.name := e.throw]);
    NegotiationFairFrom(u);
  }

  lemma NegotiationFairFrom(u: State)
    requires u.rpsReplies.Keys <= u.players.Keys
    ensures ResultsFair(JudgeRpsForAction(u).sent, Winners(u.rpsReplies), |Losers(u.rpsReplies)|)
  {
    hide StartActionOrder, Winners, Losers, ResultsFair, Negotiable, StartRpsForAction;
    if |u.rpsReplies| == |u.Alive()| {
      if Winners(u.rpsReplies) == {} {
        NoResultIsFair([RequestRpsForAction(Sorted(u.Alive()))], {}, |Losers(u.rpsReplies)|);
        assert StartRpsForAction(u).sent == [RequestRpsForAction(Sorted(u.Alive()))] by { RpsMessage(u); }
        FairAfter(RpsResult(u.rpsReplies), StartRpsForAction(u), {}, |Losers(u.rpsReplies)|);
      } else {
        NegotiationOpens(u);
        var v := u.(winners := Winners(u.rpsReplies), chances := |Losers(u.rpsReplies)|,
                    orders := |Winners(u.rpsReplies)| * |Losers(u.rpsReplies)|, confirmed := map[], yielded := map[]);
        StartActionOrderFair(v);
        FairAfter(RpsResult(u.rpsReplies), StartActionOrder(v), Winners(u.rpsReplies), |Losers(u.rpsReplies)|);
      }
    } else {
      NoResultIsFair([], Winners(u.rpsReplies), |Losers(u.rpsReplies)|);
    }
  }

  lemma RpsMessage(u: State)
    ensures StartRpsForAction(u).sent == [RequestRpsForAction(Sorted(u.Alive()))]
  {
  }

  lemma OrderThrowFair(u: State)
    requires Negotiating(u) && u.remaining == map[]
    ensures ResultsFair(JudgeRpsForActionOrder(u).sent, u.winners, u.chances)
  {
    hide StartRpsForActionOrder, Winners, ResultsFair, Negotiating;
    if |u.orderReplies| == |ClaimantsOf(u.desired, u.striving)| {
      NarrowNegotiates(u, Winners(u.orderReplies));
      var v := if Winners(u.orderReplies) == {} then u else u.(desired := Narrowed(u.desired, u.striving, Winners(u.orderReplies)));
      StartRpsForActionOrderFair(v);
      FairAfter(RpsResult(u.orderReplies), StartRpsForActionOrder(v), u.winners, u.chances);
    } else {
      NoResultIsFair([], u.winners, u.chances);
    }
  }

  lemma PicksResultFair(s: State, kills: multiset<Name>, n: Name, orders: seq<int>)
    requires Inv(s, kills) && s.phase == ActionOrder && n in s.remaining
    ensures ResultsFair(AdvanceActionOrder(TakePicks(s, n, orders)).sent, s.winners, s.chances)
  {
    TakePicksPicks(s, n, orders);
    hide StartRpsForActionOrder, ResultsFair, Negotiating, Picking, PicksClaimed, PicksYielded;
    var t := TakePicks(s, n, orders);
    if t.remaining == map[] {
      StartRpsForActionOrderFair(t);
    } else {
      NoResultIsFair([], s.winners, s.chances);
    }
  }

  lemma ActionNoResult(s: State, e: Event)
    requires Enabled(s, e) && !e.RpsReply? && !e.ActionOrderReply?
    ensures forall m <- Step(s, e).sent :: !m.ActionOrderResult?
  {
    hide StartAction, Perform, PreparedRoom, ResetRoom, Feasible, UpgradeFeasible, DefaultUpgrades, UpgradedRoom, RoundOver, Sorted, Pointed;
    if e.ActionReply? {
      var act := if Feasible(s.config, s.players, e.name, e.action, e.toPlayer, e.toPlace) then e.action else DoNothing;
      StartActionSends(s.(players := Perform(s.config, s.players, e.name, act, e.toPlayer, e.toPlace)));
    }
  }

  // Whenever a negotiation result is announced, it maps each order 1..winners x losers to
  // exactly one winner, and every winner holds exactly as many orders as there are losers.
  // This does not depend on who sent which replies.
  lemma ResultIsComplete(s: State, kills: multiset<Name>, e: Event)
    requires Inv(s, kills)
    ensures ResultsFair(Step(s, e).sent, WinnersAt(s, e), ChancesAt(s, e))
  {
    hide ResultsFair, Round, JudgeRpsForAction, JudgeRpsForActionOrder, AdvanceActionOrder, TakePicks, Perform,
      StartAction, FinishUpgrade, StartRpsForAction, Negotiable, Selections, PreparedRoom, ResetRoom, Feasible, Winners, Losers;
    if !Enabled(s, e) {
      NoResultIsFair([], WinnersAt(s, e), ChancesAt(s, e));
    } else if e.RpsReply? && s.phase == RpsForAction {
      ThrowResultFair(s, kills, e);
    } else if e.RpsReply? {
      OrderReplyFair(s, e);
    } else if e.ActionOrderReply? {
      PicksResultFair(s, kills, e.name, e.orders);
    } else {
      ActionNoResult(s, e);
      NoResultIsFair(Step(s, e).sent, WinnersAt(s, e), ChancesAt(s, e));
    }
  }

  lemma OrderReplyFair(s: State, e: Event)
    requires s.phase == RpsForActionOrder && Throwing(s) && e.RpsReply? && Enabled(s, e)
    ensures ResultsFair(Step(s, e).sent, s.winners, s.chances)
  {
    hide ResultsFair, Negotiating, JudgeRpsForActionOrder;
    RepliesAside(s, s.orderReplies[e.name := e.throw]);
    OrderThrowFair(s.(orderReplies := s.orderReplies[e.name := e.throw]));
  }

  // So it is in any run, whoever replied so far.
  lemma EveryResultIsComplete(c: Config, es: seq<Event>, e: Event)
    requires c.Playable()
    ensures var s := Run(Start(c), es).state; ResultsFair(Step(s, e).sent, WinnersAt(s, e), ChancesAt(s, e))
  {
    hide *;
    var w := Run(Start(c), es);
    StartIsSeated(c);
    InvRun(Start(c), es);
    ResultIsComplete(w.state, w.kills, e);
  }

  lemma LeftoversInEveryRun(c: Config, es: seq<Event>, e: Event)
    requires c.Playable() && InNegotiation(Run(Start(c), es).state)
    ensures var s := Run(Start(c), es).state; NoSurprises(Step(s, e).sent, TableAt(s, e))
  {
    hide *;
    var w := Run(Start(c), es);
    StartIsSeated(c);
    InvRun(Start(c), es);
    LeftoversOnlyToYielders(w.state, w.kills, e);
  }

  // Straight after the throws a result is announced only to a single winner.
  lemma DealtAtOnce(s: State, e: Event, m: Message)
    requires s.phase == RpsForAction && e.RpsReply? && Enabled(s, e) && m in Step(s, e).sent && m.ActionOrderResult?
    ensures |Winners(s.rpsReplies[e.name := e.throw])| == 1
  {
    var u := s.(rpsReplies := s.rpsReplies[e.name := e.throw]);
    ThrowStepIs(s, e.name, e.throw);
    WinnersCharacterised(u.rpsReplies);
    hide Step, Enabled, Winners, Losers, JudgeRpsForAction;
    JudgedAtOnce(u, m);
  }

  lemma JudgedAtOnce(u: State, m: Message)
    requires m in JudgeRpsForAction(u).sent && m.ActionOrderResult?
    requires Winners(u.rpsReplies) != {} ==> Losers(u.rpsReplies) != {}
    ensures |Winners(u.rpsReplies)| == 1
  {
    hide Winners, Losers, StartActionOrder, Sorted;
    var v := u.(winners := Winners(u.rpsReplies), chances := |Losers(u.rpsReplies)|,
                orders := |Winners(u.rpsReplies)| * |Losers(u.rpsReplies)|, confirmed := map[], yielded := map[]);
    assert m in StartActionOrder(v).sent;
    OnlyOneIsDealt(v, m);
  }

  lemma OnlyOneIsDealt(s: State, m: Message)
    requires s.winners != {} && s.chances > 0 && s.confirmed == map[] && s.yielded == map[]
    requires m in StartActionOrder(s).sent && m.ActionOrderResult?
    ensures |s.winners| == 1
  {
    if |s.winners| != 1 {
      var p :| p in s.winners;
      assert OrdersOf(s.confirmed, p) == {};
      assert p in Striving(s);
      hide Striving, Dealt, StartAction, Sorted, Free;
      PickRequestsAre(Sorted(Striving(s).Keys), Free(s), s.orders, Striving(s));
    }
  }
}
