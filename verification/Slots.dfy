/**
  What a slot call comes to, told from the replies and the rules and in none of the engine's own
  functions: who wins a throw, what picks become, which list is stored, how a round is closed.
 */
module Slots {
  import opened Basics
  import opened Rules
  import opened RuleFacts
  import opened Rps
  import opened Machine
  import opened Accounting
  import opened Invariants
  import opened Steps
  import opened Runs
  import opened Contests
  import opened ActionPhase
  import opened OrderThrows
  import opened Negotiation

  // ----- joining -----

  // Who joins has the configured statistics, full HP and nothing else, and waits in the Village; the
  // others are set back to the start of a match.
  lemma JoinsFresh(s: State, n: Name)
    requires s.phase == BeforeRoundStart && n !in s.players
    ensures var t, c := Step(s, AddPlayer(n)).state, s.config;
            && t.phase == BeforeRoundStart && t.players.Keys == s.players.Keys + {n}
            && t.players[n] == Stats(false, false, c.initialMaxHp, 0, 0, c.initialKnifeDamage, c.initialHorseDamage, c.initialMaxHp, 0)
            && forall m <- s.players :: AsAtFirst(c, t.players[m])
  {
  }

  lemma LeavesAlone(s: State, n: Name)
    requires s.phase == BeforeRoundStart && n in s.players
    ensures var t := Step(s, RemovePlayer(n)).state;
            && t.phase == BeforeRoundStart && t.players.Keys == s.players.Keys - {n}
            && forall m <- t.players :: AsAtFirst(s.config, t.players[m])
  {
  }

  // ----- throwing for the right to act -----

  // The last throw is announced. If it decides, exactly those win whose throw beats somebody else's,
  // and each of them gets as many orders as there are others; if it does not, everybody throws again.
  ghost predicate ThrowsJudged(s: State, throws: Throws, o: Outcome) {
    var t := o.state;
    if Decided(throws) then
      && o.sent != [] && o.sent[0] == RpsResult(throws)
      && t.winners == Best(throws) && t.chances == |throws| - |Best(throws)| && t.orders == |t.winners| * t.chances
      && (t.phase == ActionOrder || t.phase == InAction)
    else
      && o.sent == [RpsResult(throws), RequestRpsForAction(Sorted(s.Alive()))]
      && t.phase == RpsForAction && t.rpsReplies == map[]
  }

  lemma FirstThrowsDecide(w: World, e: Event)
    requires Healthy(w) && Legal(w, e) && w.state.phase == RpsForAction && e.RpsReply?
    ensures var s := w.state; var throws := s.rpsReplies[e.name := e.throw];
            && e.name in s.Alive() && e.name !in s.rpsReplies
            && if throws.Keys == s.Alive() then ThrowsJudged(s, throws, Step(s, e))
               else Step(s, e) == Outcome(s.(rpsReplies := throws), [])
  {
    var s := w.state;
    LegalIsAwaited(w, e);
    ThrowTaken(s, w.kills, e);
    ThrowStepIs(s, e.name, e.throw);
    hide Inv, Open, Step, Enabled, ThrowsJudged, JudgeRpsForAction;
    LastOfAll(s.(rpsReplies := s.rpsReplies[e.name := e.throw]));
  }

  lemma ThrowTaken(s: State, kills: multiset<Name>, e: Event)
    requires Inv(s, kills) && OnlyAsked(s) && s.phase == RpsForAction && e.RpsReply? && e.name in Waiting(s)
    ensures Enabled(s, e) && e.name in s.Alive() && e.name !in s.rpsReplies
    ensures (s.rpsReplies[e.name := e.throw]).Keys <= s.Alive() && Running(s)
  {
    hide Round, RoundOver;
  }

  lemma LastOfAll(u: State)
    requires u.rpsReplies.Keys <= u.Alive() && Running(u)
    ensures if u.rpsReplies.Keys == u.Alive() then ThrowsJudged(u, u.rpsReplies, JudgeRpsForAction(u))
            else JudgeRpsForAction(u) == Outcome(u, [])
  {
    SubsetSize(u.rpsReplies.Keys, u.Alive());
    assert |u.rpsReplies.Keys| == |u.rpsReplies|;
    WinnersAreBest(u.rpsReplies);
    WinnersCharacterised(u.rpsReplies);
    JudgedStepIs(u);
    var v := Opened(u, Winners(u.rpsReplies), |Losers(u.rpsReplies)|);
    if u.rpsReplies.Keys == u.Alive() {
      if Decided(u.rpsReplies) {
        assert v.Alive() == u.Alive() && Running(v);
        hide *;
        OpenedFields(u);
        NegotiationBegins(v);
        JudgedDecided(u, JudgeRpsForAction(u));
      } else {
        hide Winners, Losers, Decided, Best, Sorted, JudgeRpsForAction;
      }
    }
  }

  // The table as a decided throw opens it.
  function Opened(u: State, winners: set<Name>, chances: nat): State {
    u.(winners := winners, chances := chances, orders := |winners| * chances, confirmed := map[], yielded := map[])
  }

  lemma OpenedFields(u: State)
    ensures var v := Opened(u, Winners(u.rpsReplies), |Losers(u.rpsReplies)|);
            && v.winners == Winners(u.rpsReplies) && v.chances == |Losers(u.rpsReplies)| && v.orders == |v.winners| * v.chances
            && v.confirmed == map[] && v.yielded == map[]
  {
    hide Winners, Losers;
  }

  lemma JudgedStepIs(u: State)
    ensures JudgeRpsForAction(u) ==
              if |u.rpsReplies| != |u.Alive()| then Silent(u)
              else After(RpsResult(u.rpsReplies), if Winners(u.rpsReplies) == {} then StartRpsForAction(u) else StartActionOrder(Opened(u, Winners(u.rpsReplies), |Losers(u.rpsReplies)|)))
  {
    hide Winners, Losers, StartActionOrder, StartRpsForAction;
  }

  lemma JudgedDecided(u: State, o: Outcome)
    requires Decided(u.rpsReplies) && Winners(u.rpsReplies) == Best(u.rpsReplies)
    requires |Losers(u.rpsReplies)| == |u.rpsReplies| - |Winners(u.rpsReplies)|
    requires o == After(RpsResult(u.rpsReplies), StartActionOrder(Opened(u, Winners(u.rpsReplies), |Losers(u.rpsReplies)|)))
    requires var t := StartActionOrder(Opened(u, Winners(u.rpsReplies), |Losers(u.rpsReplies)|)).state;
             && t.winners == Winners(u.rpsReplies) && t.chances == |Losers(u.rpsReplies)| && t.orders == |t.winners| * t.chances
             && (t.phase == ActionOrder || t.phase == InAction)
    ensures ThrowsJudged(u, u.rpsReplies, o)
  {
    hide Winners, Losers, StartActionOrder, Opened, Decided, Best;
  }

  // Whether the orders are dealt at once or asked for, the winners stay the winners.
  lemma NegotiationBegins(v: State)
    requires v.winners != {} && v.winners <= v.Alive() && v.chances > 0 && v.orders == |v.winners| * v.chances
    requires v.confirmed == map[] && v.yielded == map[] && Running(v)
    ensures var t := StartActionOrder(v).state;
            t.winners == v.winners && t.chances == v.chances && t.orders == v.orders && (t.phase == ActionOrder || t.phase == InAction)
  {
    hide *;
    FreshTable(v);
    DealtIsAllotment(v);
    OrderOne(v, Dealt(v));
    var u := v.(confirmed := Dealt(v), current := 0);
    SameLiving(v, u);
    if |v.winners| == 1 || Striving(v) == map[] {
      StartActionOrderIs(v);
      FirstTurn(u);
    } else {
      PicksAskedFor(v);
    }
  }

  lemma SameLiving(v: State, u: State)
    requires u.config == v.config && u.players == v.players
    ensures u.Alive() == v.Alive() && Running(u) == Running(v)
  {
  }

  lemma FirstTurn(u: State)
    requires Running(u) && u.current == 0 && u.orders >= 1 && 1 in u.confirmed && u.confirmed[1] in u.Alive()
    ensures StartAction(u).state == u.(current := 1, phase := InAction)
    ensures forall m :: After(m, StartAction(u)).state == StartAction(u).state
  {
    assert TurnOwnerAlive(u, 1);
    assert NextTurn(u, 1) == Some(1);
    hide NextTurn, RoundOver, StartUpgrade, StartRpsForAction;
  }

  lemma PicksAskedFor(v: State)
    requires !(|v.winners| == 1 || Striving(v) == map[])
    ensures var t := StartActionOrder(v).state;
            t.winners == v.winners && t.chances == v.chances && t.orders == v.orders && t.phase == ActionOrder
  {
    hide Striving, Free, Sorted, StartAction, Dealt;
  }

  lemma FreshTable(v: State)
    requires v.winners != {} && v.winners <= v.Alive() && v.chances > 0 && v.orders == |v.winners| * v.chances
    requires v.confirmed == map[] && v.yielded == map[]
    ensures Negotiable(v) && v.orders >= 1
  {
    assert forall p :: OrdersOf(v.confirmed, p) == {};
    assert |v.winners| >= 1;
    assert v.orders >= 1 by { MulMonotone(1, |v.winners|, v.chances); }
  }

  lemma OrderOne(v: State, m: map<int, Name>)
    requires IsAllotment(m, v.winners, v.chances, v.orders) && v.orders >= 1 && v.winners <= v.Alive()
    ensures 1 in m && m[1] in v.Alive()
  {
    assert 1 in Upto(v.orders);
  }

  // ----- picks -----

  // What the engine takes as sent: as many entries as were asked for, each zero or a free order, no
  // order twice.
  predicate WellPicked(s: State, asked: int, orders: seq<int>) {
    && |orders| == asked
    && (forall i | 0 <= i < |orders| :: orders[i] == 0 || (1 <= orders[i] <= s.orders && orders[i] !in s.confirmed))
    && (forall i, j | 0 <= i < j < |orders| && orders[i] != 0 :: orders[i] != orders[j])
  }

  function Given(mine: bool, count: int): int {
    if mine then count else 0
  }

  // The picks of one player become its claims and yields, and nobody else's; a bad list is taken for
  // yielding everything. Only when it was the last to be asked does the engine go on.
  lemma PicksBecomeClaims(s: State, e: Event)
    requires e.ActionOrderReply? && Enabled(s, e)
    ensures var n, asked, t := e.name, s.remaining[e.name], TakePicks(s, e.name, e.orders); var good := WellPicked(s, asked, e.orders);
            && (Accepted(s, e) <==> good)
            && (forall o, q :: q in ClaimantsOf(t.desired, o) <==>
                  q in ClaimantsOf(s.desired, o) || (q == n && good && o in e.orders && o != 0))
            && (asked >= 0 ==>
                  forall q :: CountOf(t.yielded, q) == CountOf(s.yielded, q) + Given(q == n, if good then multiset(e.orders)[0] else asked))
            && t.confirmed == s.confirmed && t.remaining == s.remaining - {n}
            && Step(s, e) == (if s.remaining.Keys == {n} then StartRpsForActionOrder(t) else Outcome(t, []))
  {
    var n, asked := e.name, s.remaining[e.name];
    GoodIsWellPicked(s, asked, e.orders);
    hide StartRpsForActionOrder, GoodPicks, WellPicked;
    var t := TakePicks(s, n, e.orders);
    if asked >= 0 {
      forall q ensures CountOf(t.yielded, q) == CountOf(s.yielded, q) + (if q != n then 0 else PicksYielded(s, n, e.orders)) {
        YieldCounts(s.yielded, PicksYielded(s, n, e.orders), n, q);
      }
    }
    assert t.remaining.Keys == s.remaining.Keys - {n};
    if s.remaining.Keys != {n} { assert t.remaining.Keys != {}; } else { assert t.remaining == map[]; }
  }

  lemma GoodIsWellPicked(s: State, asked: int, orders: seq<int>)
    ensures GoodPicks(s, asked, orders) <==> WellPicked(s, asked, orders)
  {
    if WellPicked(s, asked, orders) {
      forall i, j | 0 <= i < j < |orders| ensures orders[i] == 0 || orders[i] != orders[j] {}
    }
    if GoodPicks(s, asked, orders) {
      forall i | 0 <= i < |orders| ensures orders[i] == 0 || (1 <= orders[i] <= s.orders && orders[i] !in s.confirmed) {
        assert orders[i] in orders;
      }
    }
  }

  // Orders that one player wants are that player's; those that more want stay as they are.
  ghost predicate SoleSettled(t: State, u: State) {
    && (forall j :: j in u.desired <==> j in t.desired && |t.desired[j]| >= 2)
    && (forall j <- u.desired :: u.desired[j] == t.desired[j])
    && (forall j :: j in u.confirmed <==> j in t.confirmed || (j in t.desired && |t.desired[j]| == 1))
    && (forall j <- t.confirmed :: u.confirmed[j] == t.confirmed[j])
    && (forall j, p | j in t.desired && t.desired[j] == {p} :: j in u.confirmed && u.confirmed[j] == p)
  }

  lemma SettleMeans(t: State)
    requires Claimed(t)
    ensures SoleSettled(t, Settle(t))
  {
    forall j <- t.desired ensures |t.desired[j]| >= 1 { assert t.desired[j] != {}; }
    forall j, p | j in t.desired && t.desired[j] == {p} ensures j in SettledOrders(t.desired) && SettledOrders(t.desired)[j] == p {
      SettledToSole(t.desired, j, p);
    }
  }

  // With everybody's picks in, sole claims are settled; and if some order is wanted by more than
  // one, those who want the lowest such order throw for it.
  lemma LastPicksGoOn(t: State, wanted: int)
    requires Negotiating(t) && t.remaining == map[] && wanted in t.desired && |t.desired[wanted]| >= 2
    ensures var o := StartRpsForActionOrder(t); var k := o.state.striving;
            && o.state.phase == RpsForActionOrder && o.state.orderReplies == map[] && SoleSettled(t, o.state)
            && k in o.state.desired && (forall j <- o.state.desired :: k <= j)
            && o.sent == [RequestRpsForActionOrder(t.desired[k], k)]
  {
    SettleMeans(t);
    SettleNegotiates(t);
    var u := Settle(t);
    InRange(u);
    LowestFromIs(u.desired, 1, u.orders);
    hide StartActionOrder, Negotiating, LowestFrom, SettledOrders, Contested, SoleSettled;
    Wanted(t, u, wanted);
    var o := StartRpsForActionOrder(t);
    assert o.state.desired == u.desired && o.state.confirmed == u.confirmed;
    SameSettled(t, u, o.state);
    SettledSame(t, u, o.state.striving);
  }

  lemma Wanted(t: State, u: State, wanted: int)
    requires SoleSettled(t, u) && wanted in t.desired && |t.desired[wanted]| >= 2
    ensures wanted in u.desired && u.desired != map[]
  {
  }

  lemma SameSettled(t: State, u: State, v: State)
    requires SoleSettled(t, u) && u.desired == v.desired && u.confirmed == v.confirmed
    ensures SoleSettled(t, v)
  {
  }

  lemma SettledSame(t: State, u: State, k: int)
    requires SoleSettled(t, u) && k in u.desired
    ensures k in t.desired && u.desired[k] == t.desired[k]
  {
  }

  // ----- replies are recorded, once -----

  // After the last picks there is always somebody to ask or something to announce.
  lemma NeverSilent(t: State)
    ensures StartRpsForActionOrder(t).sent != []
  {
    hide SettledOrders, Contested, StartAction, Dealt, Free, LowestFrom;
    var u := Settle(t);
    if u.desired == map[] && Striving(u) != map[] { assert Striving(u).Keys != {}; }
  }

  // Until its phase is complete a reply only adds to what is recorded, and a first reply stands.
  lemma FirstReplyStands(s: State, e: Event)
    requires IsReply(e) && Step(s, e).sent == []
    ensures var t := Step(s, e).state;
            && t.phase == s.phase
            && (forall n <- s.rpsReplies :: n in t.rpsReplies && t.rpsReplies[n] == s.rpsReplies[n])
            && (forall n <- s.orderReplies :: n in t.orderReplies && t.orderReplies[n] == s.orderReplies[n])
            && (forall n <- s.upgrades :: n in t.upgrades && t.upgrades[n] == s.upgrades[n])
  {
    hide StartActionOrder, StartRpsForActionOrder, StartRpsForAction, StartAction, Winners, Losers, Perform, Feasible, UpgradedRoom,
      ResetRoom, MaxedNames, UpgradeFeasible, DefaultUpgrades, PicksClaimed, PicksYielded, Claim, Sorted, Pointed, RoundOver;
    if Enabled(s, e) && e.ActionOrderReply? { NeverSilent(TakePicks(s, e.name, e.orders)); }
  }

  // ----- upgrade lists -----

  // One item for every point, and no statistic beyond its maximum.
  predicate Affordable(c: Config, p: Stats, list: seq<UpgradeItem>) {
    && |list| == p.upgradePoint
    && p.knifeDamage + Count(list, UpgradeKnife) <= c.maximumKnifeDamage
    && p.horseDamage + Count(list, UpgradeHorse) <= c.maximumHorseDamage
    && p.maxHp + Count(list, UpgradeMaxHp) <= c.maximumMaxHp
  }

  // Every point spent, on the knife first, then on the horse, then on max HP.
  predicate KnifeFirst(c: Config, p: Stats, list: seq<UpgradeItem>) {
    var knives := Min(p.upgradePoint, c.maximumKnifeDamage - p.knifeDamage);
    var horses := Min(p.upgradePoint - knives, c.maximumHorseDamage - p.horseDamage);
    && |list| == p.upgradePoint
    && Count(list, UpgradeKnife) == knives && Count(list, UpgradeHorse) == horses
    && Count(list, UpgradeMaxHp) == p.upgradePoint - knives - horses
  }

  // An affordable list is stored as sent; for any other the points are spent knife first. Nobody
  // else's list is touched.
  lemma StoredList(s: State, kills: multiset<Name>, n: Name, items: seq<UpgradeItem>)
    requires Inv(s, kills) && n in s.players && Enabled(s, UpgradeReply(n, items))
    ensures var lists, p := Step(s, UpgradeReply(n, items)).state.upgrades, s.players[n];
            && lists.Keys == s.upgrades.Keys + {n} && (forall m <- s.upgrades :: lists[m] == s.upgrades[m])
            && (Accepted(s, UpgradeReply(n, items)) <==> Affordable(s.config, p, items))
            && (if Affordable(s.config, p, items) then lists[n] == items else KnifeFirst(s.config, p, lists[n]))
  {
    var p := s.players[n];
    SpenderIsSound(s, kills, n, items);
    AffordableIsFeasible(s.config, p, items);
    DefaultIsKnifeFirst(s.config, p);
    UpgradeStoreIs(s, n, items);
    hide *;
    var list := if UpgradeFeasible(s.config, p, items) then items else DefaultUpgrades(s.config, p);
    FinishLeavesLists(s.(upgrades := s.upgrades[n := list]));
    OneMoreList(s.upgrades, n, list);
    assert Step(s, UpgradeReply(n, items)).state.upgrades == s.upgrades[n := list];
  }

  lemma OneMoreList(lists: map<Name, seq<UpgradeItem>>, n: Name, list: seq<UpgradeItem>)
    requires n !in lists
    ensures (lists[n := list]).Keys == lists.Keys + {n} && forall m <- lists :: (lists[n := list])[m] == lists[m]
  {
  }

  lemma StoredInEveryRun(c: Config, es: seq<Event>, n: Name, items: seq<UpgradeItem>)
    requires c.Playable() && var s := Run(Start(c), es).state; n in s.players && Enabled(s, UpgradeReply(n, items))
    ensures var s := Run(Start(c), es).state;
            var lists, p := Step(s, UpgradeReply(n, items)).state.upgrades, s.players[n];
            n in lists && (if Affordable(c, p, items) then lists[n] == items else KnifeFirst(c, p, lists[n]))
  {
    hide *;
    StartIsSeated(c);
    InvRun(Start(c), es);
    ConfigFixedRun(Start(c), es);
    StartConfig(c);
    StoredList(Run(Start(c), es).state, Run(Start(c), es).kills, n, items);
  }

  lemma StartConfig(c: Config)
    ensures Start(c).state.config == c
  {
  }

  lemma AffordableIsFeasible(c: Config, p: Stats, list: seq<UpgradeItem>)
    ensures UpgradeFeasible(c, p, list) <==> Affordable(c, p, list)
  {
    hide Count;
  }

  lemma DefaultIsKnifeFirst(c: Config, p: Stats)
    requires Sound(c, p) && 0 <= p.upgradePoint <= UpgradeRoom(c, p)
    ensures KnifeFirst(c, p, DefaultUpgrades(c, p))
  {
    DefaultUpgradesSpend(c, p);
    hide Count, DefaultUpgrades;
  }

  lemma UpgradeStoreIs(s: State, n: Name, items: seq<UpgradeItem>)
    requires n in s.players && Enabled(s, UpgradeReply(n, items))
    ensures var p, e := s.players[n], UpgradeReply(n, items);
            var list := if UpgradeFeasible(s.config, p, items) then items else DefaultUpgrades(s.config, p);
            && n !in s.upgrades && (Accepted(s, e) <==> UpgradeFeasible(s.config, p, items))
            && Step(s, e) == FinishUpgrade(s.(upgrades := s.upgrades[n := list]))
  {
    hide FinishUpgrade, DefaultUpgrades, UpgradeFeasible;
  }

  lemma SpenderIsSound(s: State, kills: multiset<Name>, n: Name, items: seq<UpgradeItem>)
    requires Inv(s, kills) && n in s.players && Enabled(s, UpgradeReply(n, items))
    ensures Sound(s.config, s.players[n]) && 0 <= s.players[n].upgradePoint <= UpgradeRoom(s.config, s.players[n])
  {
    assert s.players[n].upgradePoint == Earned(s.config, s.players[n], kills[n]);
  }

  lemma FinishLeavesLists(t: State)
    ensures FinishUpgrade(t).state.upgrades == t.upgrades
  {
    FinishSilently(t);
    hide FinishUpgrade;
    if FinishUpgrade(t).sent != [] { FinishCloses(t); }
  }

  // ----- closing a round -----

  // A player with its list carried out.
  function Better(p: Stats, list: seq<UpgradeItem>): Stats {
    Stats(p.hasKnife, p.hasHorse, p.hp, p.place, p.initialPlace,
          p.knifeDamage + Count(list, UpgradeKnife), p.horseDamage + Count(list, UpgradeHorse), p.maxHp + Count(list, UpgradeMaxHp), p.upgradePoint)
  }

  // The room with all lists carried out, told player by player.
  predicate Grown(ps: Players, lists: map<Name, seq<UpgradeItem>>, qs: Players) {
    qs.Keys == ps.Keys && forall n <- ps :: qs[n] == if n in lists then Better(ps[n], lists[n]) else ps[n]
  }

  // Nothing is left to upgrade.
  predicate AtTheTop(c: Config, p: Stats) {
    p.knifeDamage >= c.maximumKnifeDamage && p.horseDamage >= c.maximumHorseDamage && p.maxHp >= c.maximumMaxHp
  }

  // The round is closed on the room qs: if somebody is at the top the game is over, those at the top
  // have won it, and everybody is as at the start of a match; else the lists are announced.
  ghost predicate ClosedWith(c: Config, qs: Players, o: Outcome) {
    var top := set n | n in qs && AtTheTop(c, qs[n]);
    && o.state.phase == BeforeRoundStart && o.state.players.Keys == qs.Keys
    && if top == {} then o.sent == [UpgradeResult(o.state.upgrades)] && o.state.players == qs
       else
         && o.sent == [GameOver(Sorted(top))]
         && forall n <- qs :: AsAtFirst(c, o.state.players[n])
  }

  predicate AsAtFirst(c: Config, p: Stats) {
    p.knifeDamage == c.initialKnifeDamage && p.horseDamage == c.initialHorseDamage && p.maxHp == c.initialMaxHp && p.upgradePoint == 0
  }

  // With the last list in, everybody's is carried out and the round closed.
  lemma RoundCloses(s: State, n: Name, items: seq<UpgradeItem>)
    requires n in s.players && Enabled(s, UpgradeReply(n, items)) && Step(s, UpgradeReply(n, items)).sent != []
    ensures var o := Step(s, UpgradeReply(n, items)); exists qs :: Grown(s.players, o.state.upgrades, qs) && ClosedWith(s.config, qs, o)
  {
    var p := s.players[n];
    var t := s.(upgrades := s.upgrades[n := if UpgradeFeasible(s.config, p, items) then items else DefaultUpgrades(s.config, p)]);
    hide *;
    UpgradeStoreIs(s, n, items);
    FinishCloses(t);
    ClosedAs(s, t, Step(s, UpgradeReply(n, items)));
  }

  lemma FinishSilently(t: State)
    ensures FinishUpgrade(t).sent == [] ==> FinishUpgrade(t).state == t
  {
    hide UpgradedRoom, ResetRoom, MaxedNames, Pointed, RoundOver, Sorted;
  }

  lemma FinishCloses(t: State)
    requires FinishUpgrade(t).sent != []
    ensures FinishUpgrade(t).state.upgrades == t.upgrades && FinishUpgrade(t).state.phase == BeforeRoundStart
    ensures var qs, o := UpgradedRoom(t.players, t.upgrades), FinishUpgrade(t);
            if MaxedNames(t.config, qs) == {} then o.sent == [UpgradeResult(t.upgrades)] && o.state.players == qs
            else o.sent == [GameOver(Sorted(MaxedNames(t.config, qs)))] && o.state.players == ResetRoom(t.config, qs)
  {
    FinishIs(t);
    hide *;
  }

  lemma FinishIs(t: State)
    requires FinishUpgrade(t).sent != []
    ensures var qs := UpgradedRoom(t.players, t.upgrades);
            FinishUpgrade(t) ==
              if MaxedNames(t.config, qs) == {} then Outcome(t.(phase := BeforeRoundStart, players := qs), [UpgradeResult(t.upgrades)])
              else Outcome(t.(phase := BeforeRoundStart, players := ResetRoom(t.config, qs)), [GameOver(Sorted(MaxedNames(t.config, qs)))])
  {
    hide UpgradedRoom, ResetRoom, MaxedNames, Pointed, RoundOver, Sorted;
  }

  lemma ClosedAs(s: State, t: State, o: Outcome)
    requires t.players == s.players && t.config == s.config && o.state.upgrades == t.upgrades && o.state.phase == BeforeRoundStart
    requires var qs := UpgradedRoom(t.players, t.upgrades);
             if MaxedNames(t.config, qs) == {} then o.sent == [UpgradeResult(t.upgrades)] && o.state.players == qs
             else o.sent == [GameOver(Sorted(MaxedNames(t.config, qs)))] && o.state.players == ResetRoom(t.config, qs)
    ensures exists qs :: Grown(s.players, o.state.upgrades, qs) && ClosedWith(s.config, qs, o)
  {
    var qs := UpgradedRoom(t.players, t.upgrades);
    GrownByLists(t.players, t.upgrades);
    TopIsMaxed(s.config, qs);
    ResetToStart(s.config, qs);
    hide UpgradedRoom, ResetRoom, MaxedNames, Sorted, Grown, AtTheTop, AsAtFirst;
    assert MaxedNames(s.config, qs) == set n | n in qs && AtTheTop(s.config, qs[n]);
    assert ClosedWith(s.config, qs, o);
  }

  lemma GrownByLists(ps: Players, lists: map<Name, seq<UpgradeItem>>)
    ensures Grown(ps, lists, UpgradedRoom(ps, lists))
  {
    hide Count;
  }

  lemma TopIsMaxed(c: Config, ps: Players)
    ensures MaxedNames(c, ps) == set n | n in ps && AtTheTop(c, ps[n])
  {
  }

  lemma ResetToStart(c: Config, ps: Players)
    ensures ResetRoom(c, ps).Keys == ps.Keys && forall n <- ps :: AsAtFirst(c, ResetRoom(c, ps)[n])
  {
  }

  // Whoever is asked to upgrade is told its own number of points.
  lemma AskedForItsPoints(s: State, m: Message)
    requires m in StartUpgrade(s).sent
    ensures m.RequestUpgrade? && m.name in s.players && m.points == s.players[m.name].upgradePoint > 0
  {
    PointsAsked(Sorted(Pointed(s.players)), s.players, m);
  }

  lemma {:induction false} PointsAsked(names: seq<Name>, ps: Players, m: Message)
    requires (forall n <- names :: n in ps) && m in UpgradeRequests(names, ps)
    ensures m.RequestUpgrade? && m.name in names && m.points == ps[m.name].upgradePoint
    decreases |names|
  {
    if names != [] && m != UpgradeRequests(names, ps)[0] { PointsAsked(names[1..], ps, m); }
  }

  // ----- the map -----

  // Between round starts nobody gets anywhere but by a step between the Village and another place,
  // whoever sends what.
  lemma PlacesChangeByOneStep(s: State, e: Event, n: Name)
    requires !e.RoundStart? && n in s.players && n in Step(s, e).state.players
    ensures var from, to := s.players[n].place, Step(s, e).state.players[n].place;
            from == to || (from == VILLAGE && to != VILLAGE) || (from != VILLAGE && to == VILLAGE)
  {
    StepRoom(s, e);
    if Enabled(s, e) {
      if e.ActionReply? {
        StepByAction(s.config, s.players, e.name, e.action, e.toPlayer, e.toPlace, n);
      } else if e.UpgradeReply? {
        UpgradeStoreIs(s, e.name, e.items);
        FinishLeavesPlaces(s.(upgrades := s.upgrades[e.name := if UpgradeFeasible(s.config, s.players[e.name], e.items) then e.items
                                                              else DefaultUpgrades(s.config, s.players[e.name])]), n);
      } else if e.AddPlayer? || e.RemovePlayer? {
        LobbyLeavesPlaces(s, e, n);
      }
    }
    hide *;
  }

  lemma StepByAction(c: Config, ps: Players, from: Name, a: Action, to: Name, place: int, n: Name)
    requires from in ps && n in ps
    ensures var p, q := ps[n].place, Perform(c, ps, from, a, to, place)[n].place;
            p == q || (p == VILLAGE && q != VILLAGE) || (p != VILLAGE && q == VILLAGE)
  {
    MoveMeaning(c, ps, from, to, place);
    hide SlashPunishHp, Kills, CanSlash, Alive;
  }

  lemma FinishLeavesPlaces(t: State, n: Name)
    requires n in t.players
    ensures n in FinishUpgrade(t).state.players && FinishUpgrade(t).state.players[n].place == t.players[n].place
  {
    FinishSilently(t);
    hide FinishUpgrade, Count, MaxedNames;
    if FinishUpgrade(t).sent != [] { FinishCloses(t); }
  }

  lemma LobbyLeavesPlaces(s: State, e: Event, n: Name)
    requires (e.AddPlayer? || e.RemovePlayer?) && Enabled(s, e) && n in s.players && n in Step(s, e).state.players
    ensures Step(s, e).state.players[n].place == s.players[n].place
  {
  }
}
