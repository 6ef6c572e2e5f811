/**
  Every slot call keeps the invariant. Nothing is assumed here about who replies.
 */
module Steps {
  import opened Basics
  import opened Rules
  import opened RuleFacts
  import opened Rps
  import opened Machine
  import opened Accounting
  import opened Invariants

  // The kills credited so far in this round, after one more event.
  ghost function NextKills(s: State, kills: multiset<Name>, e: Event): multiset<Name> {
    if !Enabled(s, e) then kills
    else
      match e
      case RoundStart => multiset{}
      case ActionReply(n, a, to, place) => kills + multiset(Killers(s.config, s.players, n, a, to, place))
      case _ => kills
  }

  // ----- before the round -----

  lemma ResetMatch(c: Config, ps: Players)
    requires c.Playable()
    ensures Match(c, ResetRoom(c, ps))
  {
  }

  lemma PreparedAlive(c: Config, ps: Players)
    requires c.Playable() && SoundRoom(c, ps)
    ensures AliveNames(c, PreparedRoom(ps)) == ps.Keys
    ensures DeadNames(c, PreparedRoom(ps)) == {}
  {
    forall n <- ps ensures Alive(c, PreparedRoom(ps)[n]) {
      PreparedStats(c, ps[n], Seat(ps.Keys, n));
    }
  }

  lemma PreparedMatch(c: Config, ps: Players)
    requires Match(c, ps)
    ensures Match(c, PreparedRoom(ps))
    ensures Credited(c, PreparedRoom(ps), multiset{})
  {
    var qs := PreparedRoom(ps);
    forall n <- ps ensures Sound(c, qs[n]) && (Maxed(c, qs[n]) <==> Maxed(c, ps[n])) && qs[n].upgradePoint == Earned(c, qs[n], 0) {
      PreparedStats(c, ps[n], Seat(ps.Keys, n));
    }
    hide Prepared, Seat, PreparedRoom, Earned, Maxed, Sound;
    assert MaxedNames(c, qs) == MaxedNames(c, ps);
  }

  lemma PreparedRound(c: Config, ps: Players)
    requires Match(c, ps) && |ps| >= 2
    ensures Round(c, PreparedRoom(ps), multiset{})
    ensures AliveNames(c, PreparedRoom(ps)) == ps.Keys
    ensures !RoundOver(c, PreparedRoom(ps))
  {
    PreparedAlive(c, ps);
    PreparedMatch(c, ps);
    hide PreparedRoom, Match, Credited, AliveNames, DeadNames;
    assert |PreparedRoom(ps)| == |PreparedRoom(ps).Keys| && |ps| == |ps.Keys|;
  }

  lemma PreparedStats(c: Config, p: Stats, seat: int)
    requires c.Playable() && Sound(c, p)
    ensures Alive(c, Prepared(p, seat)) && Sound(c, Prepared(p, seat))
    ensures Maxed(c, Prepared(p, seat)) <==> Maxed(c, p)
    ensures Prepared(p, seat).upgradePoint == Earned(c, Prepared(p, seat), 0)
  {
  }

  // ----- throwing -----

  lemma NegotiationOpens(s: State)
    requires s.rpsReplies.Keys <= s.players.Keys && Winners(s.rpsReplies) != {}
    ensures Negotiable(s.(winners := Winners(s.rpsReplies), chances := |Losers(s.rpsReplies)|,
                          orders := |Winners(s.rpsReplies)| * |Losers(s.rpsReplies)|,
                          confirmed := map[], yielded := map[]))
  {
    WinnersCharacterised(s.rpsReplies);
    forall p: Name ensures OrdersOf(map[], p) == {} {}
  }

  lemma ThrowKeeps(s: State, kills: multiset<Name>, n: Name, t: Throw)
    requires Inv(s, kills) && s.phase == RpsForAction && n in s.players && n !in s.rpsReplies
    ensures Inv(JudgeRpsForAction(s.(rpsReplies := s.rpsReplies[n := t])).state, kills)
    ensures |s.rpsReplies| + 1 == |s.Alive()| ==> Entered(JudgeRpsForAction(s.(rpsReplies := s.rpsReplies[n := t])), kills)
  {
    hide Round, StartRpsForAction, StartActionOrder, Winners, Losers, RoundOver, FreshlyAsked, Negotiable;
    var u := s.(rpsReplies := s.rpsReplies[n := t]);
    assert |u.rpsReplies| == |s.rpsReplies| + 1;
    if |u.rpsReplies| == |u.Alive()| {
      ThrowsJudged(u, kills);
    }
  }

  lemma ThrowsJudged(u: State, kills: multiset<Name>)
    requires Round(u.config, u.players, kills) && Running(u)
    requires u.rpsReplies.Keys <= u.players.Keys && |u.rpsReplies| == |u.Alive()|
    ensures Entered(JudgeRpsForAction(u), kills)
  {
    hide Round, StartRpsForAction, StartActionOrder, Entered, Inv, Winners, Losers, RoundOver, Negotiable;
    if Winners(u.rpsReplies) == {} {
      StartRpsForActionEnters(u, kills);
      EnteredAfter(RpsResult(u.rpsReplies), StartRpsForAction(u), kills);
    } else {
      var v := u.(winners := Winners(u.rpsReplies), chances := |Losers(u.rpsReplies)|,
                  orders := |Winners(u.rpsReplies)| * |Losers(u.rpsReplies)|, confirmed := map[], yielded := map[]);
      NegotiationOpens(u);
      StartActionOrderEnters(v, kills);
      EnteredAfter(RpsResult(u.rpsReplies), StartActionOrder(v), kills);
    }
  }

  // ----- throwing for an order -----

  lemma NarrowNegotiates(s: State, winners: set<Name>)
    requires Negotiating(s) && s.remaining == map[]
    ensures Negotiating(s.(desired := Narrowed(s.desired, s.striving, winners)))
  {
    var t := s.(desired := Narrowed(s.desired, s.striving, winners));
    forall p <- s.winners ensures Selections(t, p) <= s.chances {
      NarrowShrinks(s.desired, s.striving, winners, p);
      assert Selections(s, p) <= s.chances;
    }
    NarrowShrinks(s.desired, s.striving, winners, 0);
  }

  lemma OrderThrowsJudged(u: State, kills: multiset<Name>)
    requires Round(u.config, u.players, kills) && Running(u) && Negotiating(u) && u.remaining == map[]
    requires |u.orderReplies| == |ClaimantsOf(u.desired, u.striving)|
    ensures Entered(JudgeRpsForActionOrder(u), kills)
  {
    hide Round, StartRpsForActionOrder, Entered, Inv, Winners, RoundOver, Negotiating;
    if Winners(u.orderReplies) == {} {
      StartRpsForActionOrderEnters(u, kills);
      EnteredAfter(RpsResult(u.orderReplies), StartRpsForActionOrder(u), kills);
    } else {
      var v := u.(desired := Narrowed(u.desired, u.striving, Winners(u.orderReplies)));
      NarrowNegotiates(u, Winners(u.orderReplies));
      StartRpsForActionOrderEnters(v, kills);
      EnteredAfter(RpsResult(u.orderReplies), StartRpsForActionOrder(v), kills);
    }
  }

  lemma RepliesAside(s: State, replies: Throws)
    requires Negotiating(s)
    ensures Negotiating(s.(orderReplies := replies))
  {
    hide Negotiable;
    var u := s.(orderReplies := replies);
    forall p <- s.winners ensures Selections(u, p) <= s.chances {
      assert Selections(s, p) <= s.chances;
    }
    NegotiableAside(s, replies);
  }

  lemma NegotiableAside(s: State, replies: Throws)
    requires Negotiable(s)
    ensures Negotiable(s.(orderReplies := replies))
  {
  }

  lemma OrderThrowKeeps(s: State, kills: multiset<Name>, n: Name, t: Throw)
    requires Inv(s, kills) && s.phase == RpsForActionOrder && n in s.players && n !in s.orderReplies
    ensures Inv(JudgeRpsForActionOrder(s.(orderReplies := s.orderReplies[n := t])).state, kills)
    ensures |s.orderReplies| + 1 == |ClaimantsOf(s.desired, s.striving)|
            ==> Entered(JudgeRpsForActionOrder(s.(orderReplies := s.orderReplies[n := t])), kills)
  {
    hide Round, StartRpsForActionOrder, RoundOver, FreshlyAsked, Negotiating, Picking, Acting, Upgrading, Stalled;
    var u := s.(orderReplies := s.orderReplies[n := t]);
    assert |u.orderReplies| == |s.orderReplies| + 1;
    RepliesAside(s, u.orderReplies);
    if |u.orderReplies| == |ClaimantsOf(u.desired, u.striving)| {
      OrderThrowsJudged(u, kills);
    }
  }

  // ----- picking -----

  lemma PicksClaimFree(s: State, p: Name, orders: seq<int>)
    requires p in s.remaining
    ensures forall o <- PicksClaimed(s, p, orders) :: 1 <= o <= s.orders && o !in s.confirmed
  {
    forall o <- PicksClaimed(s, p, orders) ensures 1 <= o <= s.orders && o !in s.confirmed {
      assert GoodOrder(s, o);
    }
  }

  lemma TakePicksClaims(s: State, p: Name, orders: seq<int>)
    requires Claimed(s) && p in s.remaining && p in s.winners
    ensures Claimed(TakePicks(s, p, orders))
  {
    PicksClaimFree(s, p, orders);
    hide PicksClaimed, PicksYielded;
  }

  lemma TakePicksYields(s: State, p: Name, orders: seq<int>)
    requires p in s.remaining && s.remaining[p] >= 1 && p in s.winners
    requires forall q <- s.yielded :: q in s.winners && s.yielded[q] >= 0
    ensures forall q <- TakePicks(s, p, orders).yielded :: q in s.winners && TakePicks(s, p, orders).yielded[q] >= 0
  {
    PicksAddUp(s, p, orders);
    hide PicksClaimed, PicksYielded, Claim;
  }

  lemma TakePicksBounded(s: State, p: Name, orders: seq<int>, q: Name)
    requires p in s.remaining && s.remaining[p] >= 1
    requires Selections(TakePicks(s, p, orders), q) <= s.chances
    requires forall r <- s.remaining :: s.remaining[r] >= 1
    ensures |OrdersOf(s.confirmed, q)| + CountOf(TakePicks(s, p, orders).yielded, q) <= s.chances
  {
    hide PicksClaimed, PicksYielded, Claim, OrdersOf, ClaimsOf;
  }

  lemma TakePicksNegotiable(s: State, p: Name, orders: seq<int>)
    requires Negotiable(s) && p in s.remaining && p in s.winners
    requires forall q <- s.winners :: Selections(TakePicks(s, p, orders), q) <= s.chances
    requires forall q <- s.remaining :: s.remaining[q] >= 1
    ensures Negotiable(TakePicks(s, p, orders))
  {
    TakePicksYields(s, p, orders);
    forall q <- s.winners ensures |OrdersOf(s.confirmed, q)| + CountOf(TakePicks(s, p, orders).yielded, q) <= s.chances {
      TakePicksBounded(s, p, orders, q);
    }
    hide PicksClaimed, PicksYielded, Claim, OrdersOf, ClaimsOf, CountOf, Selections;
  }

  lemma TakePicksSelections(s: State, p: Name, orders: seq<int>)
    requires Picking(s) && p in s.remaining
    ensures forall q <- s.winners :: Selections(TakePicks(s, p, orders), q) == s.chances
  {
    hide Selections, TakePicks, Negotiable, Claimed;
    forall q <- s.winners ensures Selections(TakePicks(s, p, orders), q) == s.chances {
      TakePicksKeeps(s, p, orders, q);
    }
  }

  lemma TakePicksPicks(s: State, p: Name, orders: seq<int>)
    requires Picking(s) && p in s.remaining
    ensures var t := TakePicks(s, p, orders);
            Negotiating(t) && (t.remaining != map[] ==> Picking(t))
  {
    hide Negotiable, Claimed, Selections, PicksClaimed, PicksYielded;
    TakePicksClaims(s, p, orders);
    TakePicksSelections(s, p, orders);
    TakePicksNegotiable(s, p, orders);
  }

  lemma PicksAdvance(t: State, kills: multiset<Name>)
    requires Round(t.config, t.players, kills) && Running(t) && Negotiating(t) && t.phase == ActionOrder
    requires t.remaining != map[] ==> Picking(t)
    ensures Inv(AdvanceActionOrder(t).state, kills)
    ensures t.remaining == map[] ==> Entered(AdvanceActionOrder(t), kills)
  {
    hide Round, Negotiating, Picking, FreshlyAsked, RoundOver, StartRpsForActionOrder;
    if t.remaining == map[] {
      StartRpsForActionOrderEnters(t, kills);
    }
  }

  lemma PicksKeep(s: State, kills: multiset<Name>, n: Name, orders: seq<int>)
    requires Inv(s, kills) && s.phase == ActionOrder && n in s.remaining
    ensures Inv(AdvanceActionOrder(TakePicks(s, n, orders)).state, kills)
    ensures TakePicks(s, n, orders).remaining == map[] ==> Entered(AdvanceActionOrder(TakePicks(s, n, orders)), kills)
  {
    hide Round, Negotiating, Picking, FreshlyAsked, RoundOver, AdvanceActionOrder, PicksClaimed, PicksYielded;
    TakePicksPicks(s, n, orders);
    PicksAdvance(TakePicks(s, n, orders), kills);
  }

  // ----- acting -----

  lemma KillersPlay(c: Config, ps: Players, n: Name, a: Action, to: Name, place: int)
    requires n in ps
    ensures forall k | k in Killers(c, ps, n, a, to, place) :: k in ps
  {
  }

  lemma SameBuildSameRoom(c: Config, ps: Players, qs: Players)
    requires qs.Keys == ps.Keys && forall n <- ps :: SameBuild(ps[n], qs[n]) && qs[n].hp <= ps[n].hp
    ensures MaxedNames(c, qs) == MaxedNames(c, ps)
    ensures AliveNames(c, qs) <= AliveNames(c, ps)
  {
  }

  lemma EvolvedRound(c: Config, ps: Players, qs: Players, kills: multiset<Name>, killers: seq<Name>)
    requires Round(c, ps, kills) && Evolved(c, ps, qs, killers) && SoundRoom(c, qs)
    requires forall k | k in killers :: k in ps
    ensures Round(c, qs, kills + multiset(killers))
  {
    hide Credited, SoundRoom;
    SameBuildSameRoom(c, ps, qs);
    assert Credited(c, qs, kills + multiset(killers));
    assert |kills + multiset(killers)| == |kills| + |killers|;
    assert |qs| == |qs.Keys| && |ps| == |ps.Keys|;
  }

  lemma ActionKeepsRound(s: State, kills: multiset<Name>, n: Name, a: Action, to: Name, place: int)
    requires Round(s.config, s.players, kills) && n in s.players
    ensures Round(s.config, Perform(s.config, s.players, n, a, to, place), kills + multiset(Killers(s.config, s.players, n, a, to, place)))
    ensures AliveNames(s.config, Perform(s.config, s.players, n, a, to, place)) <= s.Alive()
  {
    var c, ps := s.config, s.players;
    PerformEvolves(c, ps, n, a, to, place);
    KillersPlay(c, ps, n, a, to, place);
    hide Perform, Killers, Credited, SoundRoom;
    var qs, killers := Perform(c, ps, n, a, to, place), Killers(c, ps, n, a, to, place);
    SameBuildSameRoom(c, ps, qs);
    EvolvedRound(c, ps, qs, kills, killers);
  }

  // An infeasible action is replaced by doing nothing, which kills nobody.
  lemma FallbackKillsNobody(c: Config, ps: Players, n: Name, a: Action, to: Name, place: int)
    requires n in ps
    ensures var act := if Feasible(c, ps, n, a, to, place) then a else DoNothing;
            && Killers(c, ps, n, act, to, place) == Killers(c, ps, n, a, to, place)
            && Perform(c, ps, n, act, to, place) == Perform(c, ps, n, a, to, place)
  {
  }

  lemma ThrowStepIs(s: State, n: Name, t: Throw)
    requires Enabled(s, RpsReply(n, t)) && s.phase == RpsForAction
    ensures Step(s, RpsReply(n, t)) == JudgeRpsForAction(s.(rpsReplies := s.rpsReplies[n := t]))
  {
    hide JudgeRpsForAction;
  }

  lemma ActionStepIs(s: State, e: Event)
    requires Enabled(s, e) && e.ActionReply?
    ensures e.name in s.players && s.phase == InAction
    ensures var act := if Feasible(s.config, s.players, e.name, e.action, e.toPlayer, e.toPlace) then e.action else DoNothing;
            Step(s, e) == After(ActionResult(e.name, act, e.toPlayer, e.toPlace),
                                StartAction(s.(players := Perform(s.config, s.players, e.name, e.action, e.toPlayer, e.toPlace))))
  {
    hide StartAction, Perform, Feasible, Killers;
    FallbackKillsNobody(s.config, s.players, e.name, e.action, e.toPlayer, e.toPlace);
  }

  lemma ActionKeeps(s: State, kills: multiset<Name>, n: Name, a: Action, to: Name, place: int)
    requires Inv(s, kills) && s.phase == InAction && n in s.players
    ensures Entered(StartAction(s.(players := Perform(s.config, s.players, n, a, to, place))),
                    kills + multiset(Killers(s.config, s.players, n, a, to, place)))
  {
    var t := s.(players := Perform(s.config, s.players, n, a, to, place));
    ActionKeepsRound(s, kills, n, a, to, place);
    SubsetSize(t.Alive(), s.Alive());
    hide Round, Entered, StartAction, Perform, Killers, IsAllotment;
    StartActionEnters(t, kills + multiset(Killers(s.config, s.players, n, a, to, place)));
  }

  // ----- upgrading -----

  lemma StoredListFits(s: State, kills: multiset<Name>, n: Name, items: seq<UpgradeItem>)
    requires Round(s.config, s.players, kills) && n in s.players
    ensures UpgradeFeasible(s.config, s.players[n],
              if UpgradeFeasible(s.config, s.players[n], items) then items else DefaultUpgrades(s.config, s.players[n]))
  {
    assert Sound(s.config, s.players[n]);
    assert s.players[n].upgradePoint == Earned(s.config, s.players[n], kills[n]);
    hide DefaultUpgrades;
    if !UpgradeFeasible(s.config, s.players[n], items) {
      DefaultUpgradesFeasible(s.config, s.players[n]);
    }
  }

  lemma UpgradedMatch(s: State)
    requires s.config.Playable() && SoundRoom(s.config, s.players) && UpgradesFit(s)
    ensures SoundRoom(s.config, UpgradedRoom(s.players, s.upgrades))
  {
    var ps := UpgradedRoom(s.players, s.upgrades);
    forall n <- ps ensures Sound(s.config, ps[n]) {
      assert Sound(s.config, s.players[n]);
      if n in s.upgrades { UpgradeSpends(s.config, s.players[n], s.upgrades[n]); }
    }
  }

  lemma FinishedMatch(s: State)
    requires s.config.Playable() && SoundRoom(s.config, s.players) && UpgradesFit(s)
    ensures var ps := UpgradedRoom(s.players, s.upgrades);
            if MaxedNames(s.config, ps) != {} then Match(s.config, ResetRoom(s.config, ps)) else Match(s.config, ps)
  {
    UpgradedMatch(s);
    hide UpgradedRoom;
    ResetMatch(s.config, UpgradedRoom(s.players, s.upgrades));
  }

  lemma FinishedKeeps(s: State, kills: multiset<Name>)
    requires !Running(s) && |s.upgrades| == |Pointed(s.players)|
    requires var ps := UpgradedRoom(s.players, s.upgrades);
             if MaxedNames(s.config, ps) != {} then Match(s.config, ResetRoom(s.config, ps)) else Match(s.config, ps)
    ensures FinishUpgrade(s).state.phase == BeforeRoundStart
    ensures Inv(FinishUpgrade(s).state, kills)
  {
    hide Round, Match, SoundRoom, UpgradedRoom, ResetRoom, UpgradesFit, Pointed, RoundOver, MaxedNames, Picking, Throwing, Acting, Stalled, Upgrading;
  }

  lemma UnfinishedKeeps(s: State, kills: multiset<Name>)
    requires Round(s.config, s.players, kills) && s.phase == InUpgrade && !Running(s) && UpgradesFit(s)
    requires |s.upgrades| < |Pointed(s.players)|
    ensures FinishUpgrade(s) == Silent(s)
    ensures Inv(s, kills)
  {
    hide Round, UpgradedRoom, ResetRoom, UpgradesFit, Pointed, RoundOver, MaxedNames, Picking, Throwing, Acting, Stalled;
  }

  lemma FinishKeeps(s: State, kills: multiset<Name>)
    requires Round(s.config, s.players, kills) && s.phase == InUpgrade && !Running(s) && UpgradesFit(s)
    requires |s.upgrades| <= |Pointed(s.players)|
    ensures Inv(FinishUpgrade(s).state, kills)
  {
    hide Inv, FinishUpgrade, Round, SoundRoom, UpgradesFit, Pointed, UpgradedRoom, ResetRoom, Match, MaxedNames;
    if |s.upgrades| == |Pointed(s.players)| {
      RoundMatch(s.config, s.players, kills);
      FinishedMatch(s);
      FinishedKeeps(s, kills);
    } else {
      UnfinishedKeeps(s, kills);
    }
  }

  lemma RoundMatch(c: Config, ps: Players, kills: multiset<Name>)
    requires Round(c, ps, kills)
    ensures c.Playable() && SoundRoom(c, ps)
  {
  }

  lemma UpgradeKeeps(s: State, kills: multiset<Name>, n: Name, items: seq<UpgradeItem>)
    requires Inv(s, kills) && s.phase == InUpgrade && n in s.players && n !in s.upgrades
    ensures var list := if UpgradeFeasible(s.config, s.players[n], items) then items else DefaultUpgrades(s.config, s.players[n]);
            Inv(FinishUpgrade(s.(upgrades := s.upgrades[n := list])).state, kills)
  {
    var list := if UpgradeFeasible(s.config, s.players[n], items) then items else DefaultUpgrades(s.config, s.players[n]);
    StoredListFits(s, kills, n, items);
    var t := s.(upgrades := s.upgrades[n := list]);
    hide Round, DefaultUpgrades, UpgradeFeasible, FinishUpgrade, Pointed, RoundOver;
    assert |t.upgrades| == |s.upgrades| + 1;
    FinishKeeps(t, kills);
  }

  // ----- the theorem -----

  // Every slot call, by anybody and with any argument, keeps the invariant.
  lemma StepKeeps(s: State, kills: multiset<Name>, e: Event)
    requires Inv(s, kills)
    ensures Inv(Step(s, e).state, NextKills(s, kills, e))
  {
    hide Inv, Perform, Killers, StartAction, FinishUpgrade, JudgeRpsForAction, JudgeRpsForActionOrder, AdvanceActionOrder,
      TakePicks, Entered, DefaultUpgrades, UpgradeFeasible, ResetRoom, PreparedRoom, StartRpsForAction, Feasible;
    if Enabled(s, e) {
      match e
      case AddPlayer(n) => LobbyKeeps(s, kills, e);
      case RemovePlayer(n) => LobbyKeeps(s, kills, e);
      case RoundStart =>
        RoundStartKeeps(s, kills);
        EnteredInv(Step(s, e), multiset{});
      case RpsReply(n, t) =>
        if s.phase == RpsForAction { ThrowKeeps(s, kills, n, t); } else { OrderThrowKeeps(s, kills, n, t); }
      case ActionOrderReply(n, orders) => PicksKeep(s, kills, n, orders);
      case ActionReply(n, a, to, place) =>
        FallbackKillsNobody(s.config, s.players, n, a, to, place);
        var act := if Feasible(s.config, s.players, n, a, to, place) then a else DoNothing;
        ActionKeeps(s, kills, n, act, to, place);
        EnteredInv(StartAction(s.(players := Perform(s.config, s.players, n, act, to, place))),
                   kills + multiset(Killers(s.config, s.players, n, act, to, place)));
      case UpgradeReply(n, items) => UpgradeKeeps(s, kills, n, items);
    }
  }

  lemma EnteredInv(o: Outcome, kills: multiset<Name>)
    requires Entered(o, kills)
    ensures Inv(o.state, kills)
  {
  }

  lemma LobbyKeeps(s: State, kills: multiset<Name>, e: Event)
    requires Inv(s, kills) && Enabled(s, e) && (e.AddPlayer? || e.RemovePlayer?)
    ensures Inv(Step(s, e).state, kills)
  {
    var ps := if e.AddPlayer? then s.players[e.name := Fresh(s.config)] else s.players - {e.name};
    ResetMatch(s.config, ps);
    hide Match, ResetRoom, Round;
  }

  lemma RoundStartKeeps(s: State, kills: multiset<Name>)
    requires Inv(s, kills) && Enabled(s, RoundStart)
    ensures Entered(Step(s, RoundStart), multiset{})
  {
    PreparedRound(s.config, s.players);
    var t := s.(players := PreparedRoom(s.players));
    hide Round, Match, PreparedRoom, StartRpsForAction, RoundOver, FreshlyAsked;
    StartRpsForActionEnters(t, multiset{});
  }
}
