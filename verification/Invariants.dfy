/**
  What holds in every state of the round engine, whoever replies and in whatever order:
  bounds of the statistics, crediting of kills, and the shape of each phase. And what
  every phase waits for: starting a phase asks exactly the players it then waits for.
 */
module Invariants {
  import opened Basics
  import opened Rules
  import opened RuleFacts
  import opened Rps
  import opened Machine
  import opened Accounting

  // ----- the invariant -----

  // The match as a whole, at any time.
  ghost predicate Match(c: Config, ps: Players) {
    && c.Playable()
    && SoundRoom(c, ps)
    && (c.Capacity() > 0 ==> MaxedNames(c, ps) == {})
  }

  // During a round: the kills credited so far account for every death and every point.
  ghost predicate Round(c: Config, ps: Players, kills: multiset<Name>) {
    && Match(c, ps)
    && |ps| >= 2
    && Credited(c, ps, kills)
    && |kills| == |DeadNames(c, ps)|
    && forall k <- kills :: k in ps
  }

  ghost predicate Running(s: State) {
    !RoundOver(s.config, s.players)
  }

  // Between requests for picks: what has been promised fits the orders there are.
  ghost predicate Negotiating(s: State) {
    && Negotiable(s) && Claimed(s)
    && forall p <- s.winners :: Selections(s, p) <= s.chances
  }

  // Waiting for picks: every selection of every winner is accounted for.
  ghost predicate Picking(s: State) {
    && Negotiating(s)
    && s.remaining != map[]
    && (forall p <- s.remaining :: p in s.winners && s.remaining[p] >= 1)
    && (forall p <- s.winners :: Selections(s, p) == s.chances)
    && (forall p <- s.remaining, o <- s.desired :: p !in s.desired[o])
  }

  // Throwing for the lowest contested order.
  ghost predicate Throwing(s: State) {
    && Negotiating(s)
    && s.remaining == map[]
    && s.striving in s.desired
    && (forall o <- s.desired :: |s.desired[o]| >= 2 && s.striving <= o)
    && |s.orderReplies| < |s.desired[s.striving]|
    && s.orderReplies.Keys <= s.players.Keys
  }

  ghost predicate Allotted(s: State) {
    && IsAllotment(s.confirmed, s.winners, s.chances, s.orders)
    && s.winners <= s.players.Keys
  }

  ghost predicate Acting(s: State) {
    && Allotted(s)
    && 1 <= s.current <= s.orders
    && s.confirmed[s.current] in s.Alive()
  }

  ghost predicate Upgrading(s: State) {
    && !Running(s)
    && |s.upgrades| < |Pointed(s.players)|
    && UpgradesFit(s)
  }

  // Every stored list can be carried out in full.
  ghost predicate UpgradesFit(s: State) {
    forall n <- s.upgrades :: n in s.players && UpgradeFeasible(s.config, s.players[n], s.upgrades[n])
  }

  // A round that ended without any point to spend. Only a configuration in which nothing can
  // be upgraded gets here.
  ghost predicate Stalled(s: State) {
    && s.phase == InAction && !Running(s)
    && Pointed(s.players) == {} && s.config.Capacity() == 0
  }

  ghost predicate Inv(s: State, kills: multiset<Name>) {
    && (if s.phase == BeforeRoundStart then Match(s.config, s.players) else Round(s.config, s.players, kills))
    && match s.phase
       case BeforeRoundStart => true
       case RpsForAction => Running(s) && s.rpsReplies.Keys <= s.players.Keys && |s.rpsReplies| < |s.Alive()|
       case ActionOrder => Running(s) && Picking(s)
       case RpsForActionOrder => Running(s) && Throwing(s)
       case InAction => Stalled(s) || (Running(s) && Acting(s))
       case InUpgrade => Upgrading(s)
  }

  // ----- who is waited for -----

  // Whose replies the phase's completion count is still missing.
  ghost function Waiting(s: State): set<Name> {
    match s.phase
    case BeforeRoundStart => {}
    case RpsForAction => s.Alive() - s.rpsReplies.Keys
    case ActionOrder => s.remaining.Keys
    case RpsForActionOrder => ClaimantsOf(s.desired, s.striving) - s.orderReplies.Keys
    case InAction => if Running(s) && s.current in s.confirmed then {s.confirmed[s.current]} else {}
    case InUpgrade => Pointed(s.players) - s.upgrades.Keys
  }

  datatype Kind = AskThrow | AskPicks | AskAction | AskUpgrade

  function KindOf(p: Phase): Kind {
    match p
    case BeforeRoundStart | RpsForAction | RpsForActionOrder => AskThrow
    case ActionOrder => AskPicks
    case InAction => AskAction
    case InUpgrade => AskUpgrade
  }

  // Whether a message asks player n for a reply of kind k.
  predicate Asks(m: Message, k: Kind, n: Name) {
    match m
    case RequestRpsForAction(names) => k == AskThrow && n in names
    case RequestActionOrder(name, _, _, _) => k == AskPicks && n == name
    case RequestRpsForActionOrder(names, _) => k == AskThrow && n in names
    case RequestAction(name, _) => k == AskAction && n == name
    case RequestUpgrade(name, _) => k == AskUpgrade && n == name
    case _ => false
  }

  // How many requests of kind k for player n are among the messages.
  function Requests(sent: seq<Message>, k: Kind, n: Name): nat {
    if sent == [] then 0 else (if Asks(sent[0], k, n) then 1 else 0) + Requests(sent[1..], k, n)
  }

  // One open request for each player waited for, and no other.
  ghost function Awaited(s: State, k: Kind, n: Name): nat {
    if k == KindOf(s.phase) && n in Waiting(s) then 1 else 0
  }

  // The phase has just been entered, and exactly those waited for have been asked, once each.
  ghost predicate FreshlyAsked(o: Outcome) {
    forall k, n :: Requests(o.sent, k, n) == Awaited(o.state, k, n)
  }

  // Replies counted by the current phase all come from players it asked.
  ghost predicate OnlyAsked(s: State) {
    match s.phase
    case RpsForAction => s.rpsReplies.Keys <= s.Alive()
    case RpsForActionOrder => s.orderReplies.Keys <= ClaimantsOf(s.desired, s.striving)
    case InUpgrade => s.upgrades.Keys <= Pointed(s.players)
    case _ => true
  }

  ghost predicate Entered(o: Outcome, kills: multiset<Name>) {
    Inv(o.state, kills) && FreshlyAsked(o) && OnlyAsked(o.state)
  }

  // ----- requests of a batch -----

  lemma RequestsAfter(m: Message, sent: seq<Message>, k: Kind, n: Name)
    ensures Requests([m] + sent, k, n) == (if Asks(m, k, n) then 1 else 0) + Requests(sent, k, n)
  {
    assert ([m] + sent)[1..] == sent;
  }

  lemma RequestsOne(m: Message, k: Kind, n: Name)
    ensures Requests([m], k, n) == if Asks(m, k, n) then 1 else 0
  {
    assert [m][1..] == [];
  }

  lemma {:induction false} PickRequestsAre(names: seq<Name>, offered: seq<int>, maximum: int, picks: map<Name, int>)
    requires forall n <- names :: n in picks
    ensures forall m <- PickRequests(names, offered, maximum, picks) ::
              m.RequestActionOrder? && m.name in picks && m.offered == offered && m.maximum == maximum && m.selections == picks[m.name]
  {
    if names != [] { PickRequestsAre(names[1..], offered, maximum, picks); }
  }

  lemma {:induction false} UpgradeRequestsAre(names: seq<Name>, ps: Players)
    requires forall n <- names :: n in ps
    ensures forall m <- UpgradeRequests(names, ps) :: m.RequestUpgrade?
  {
    if names != [] { UpgradeRequestsAre(names[1..], ps); }
  }

  // Acting and what comes after it: a request to act, the throws of the next deal of orders, or the
  // end of the round and its upgrades.
  lemma StartActionSends(s: State)
    ensures forall m <- StartAction(s).sent :: m.RequestAction? || m.RequestRpsForAction? || m.RoundIsOver? || m.RequestUpgrade?
  {
    hide NextTurn, RoundOver, Sorted;
    UpgradeRequestsAre(Sorted(Pointed(s.players)), s.players);
  }

  lemma AscendingTail(names: seq<Name>, n: Name)
    requires Ascending(names) && names != []
    ensures Ascending(names[1..]) && names[0] !in names[1..] && (n in names <==> n == names[0] || n in names[1..])
  {
    assert names == [names[0]] + names[1..];
  }

  lemma {:induction false} PickRequestsCount(names: seq<Name>, offered: seq<int>, maximum: int, picks: map<Name, int>, k: Kind, n: Name)
    requires Ascending(names) && forall m <- names :: m in picks
    ensures Requests(PickRequests(names, offered, maximum, picks), k, n) == if k == AskPicks && n in names then 1 else 0
    decreases |names|
  {
    if names != [] {
      hide Ascending;
      AscendingTail(names, n);
      PickRequestsCount(names[1..], offered, maximum, picks, k, n);
      RequestsAfter(RequestActionOrder(names[0], offered, maximum, picks[names[0]]), PickRequests(names[1..], offered, maximum, picks), k, n);
    }
  }

  lemma PickRequestsAsk(s: set<Name>, offered: seq<int>, maximum: int, picks: map<Name, int>, k: Kind, n: Name)
    requires s <= picks.Keys
    ensures Requests(PickRequests(Sorted(s), offered, maximum, picks), k, n) == if k == AskPicks && n in s then 1 else 0
  {
    hide Sorted, PickRequests, Requests;
    PickRequestsCount(Sorted(s), offered, maximum, picks, k, n);
  }

  lemma {:induction false} UpgradeRequestsCount(names: seq<Name>, ps: Players, k: Kind, n: Name)
    requires Ascending(names) && forall m <- names :: m in ps
    ensures Requests(UpgradeRequests(names, ps), k, n) == if k == AskUpgrade && n in names then 1 else 0
    decreases |names|
  {
    if names != [] {
      hide Ascending;
      AscendingTail(names, n);
      UpgradeRequestsCount(names[1..], ps, k, n);
      RequestsAfter(RequestUpgrade(names[0], ps[names[0]].upgradePoint), UpgradeRequests(names[1..], ps), k, n);
    }
  }

  lemma UpgradeRequestsAsk(s: set<Name>, ps: Players, k: Kind, n: Name)
    requires s <= ps.Keys
    ensures Requests(UpgradeRequests(Sorted(s), ps), k, n) == if k == AskUpgrade && n in s then 1 else 0
  {
    hide Sorted, UpgradeRequests, Requests;
    UpgradeRequestsCount(Sorted(s), ps, k, n);
  }

  // ----- entering the phases -----

  lemma StartRpsForActionEnters(s: State, kills: multiset<Name>)
    requires Round(s.config, s.players, kills) && Running(s)
    ensures Entered(StartRpsForAction(s), kills)
    ensures StartRpsForAction(s).state.phase == RpsForAction
  {
    StartRpsForActionAsks(s);
  }

  lemma StartRpsForActionAsks(s: State)
    ensures FreshlyAsked(StartRpsForAction(s))
  {
    var o := StartRpsForAction(s);
    forall k, n ensures Requests(o.sent, k, n) == Awaited(o.state, k, n) {
      RequestsOne(o.sent[0], k, n);
    }
  }

  // When a round ends somebody holds a point, unless nothing can ever be upgraded.
  lemma RoundEndsWithPoints(c: Config, ps: Players, kills: multiset<Name>)
    requires Round(c, ps, kills) && RoundOver(c, ps)
    ensures Pointed(ps) != {} <==> c.Capacity() > 0
    ensures c.Capacity() >= 0
  {
    assert ps.Keys == AliveNames(c, ps) + DeadNames(c, ps);
    assert |ps| == |ps.Keys|;
    assert |kills| >= 1;
    var k :| k in kills;
    if c.Capacity() > 0 {
      assert k !in MaxedNames(c, ps);
      assert k in Pointed(ps);
    } else {
      forall n <- ps ensures ps[n].upgradePoint <= 0 {
        assert Sound(c, ps[n]);
      }
    }
  }

  lemma StartUpgradeAsks(s: State)
    requires !Running(s) && s.phase == InAction
    ensures FreshlyAsked(StartUpgrade(s))
  {
    hide UpgradeRequests, Requests, Sorted, RoundOver;
    var o := StartUpgrade(s);
    forall k, n ensures Requests(o.sent, k, n) == Awaited(o.state, k, n) {
      UpgradeRequestsAsk(Pointed(s.players), s.players, k, n);
    }
  }

  lemma StartUpgradeEnters(s: State, kills: multiset<Name>)
    requires Round(s.config, s.players, kills) && !Running(s) && s.phase == InAction
    ensures Entered(StartUpgrade(s), kills)
    ensures s.config.Capacity() > 0 <==> StartUpgrade(s).state.phase == InUpgrade
  {
    hide FreshlyAsked, UpgradeRequests, Round, RoundOver, Picking, Throwing, Acting, Sorted, Pointed;
    RoundEndsWithPoints(s.config, s.players, kills);
    StartUpgradeAsks(s);
  }

  lemma {:induction false} NextTurnFinds(s: State, k: int)
    requires 1 <= k
    ensures NextTurn(s, k).Some? ==> k <= NextTurn(s, k).value <= s.orders && TurnOwnerAlive(s, NextTurn(s, k).value)
    ensures forall j | k <= j <= s.orders && (NextTurn(s, k).None? || j < NextTurn(s, k).value) :: !TurnOwnerAlive(s, j)
    decreases s.orders - k
  {
    if k <= s.orders && !TurnOwnerAlive(s, k) { NextTurnFinds(s, k + 1); }
  }

  lemma StartActionEnters(s: State, kills: multiset<Name>)
    requires Round(s.config, s.players, kills)
    requires if Running(s) then Allotted(s) && 0 <= s.current <= s.orders else s.phase == InAction
    ensures Entered(StartAction(s), kills)
  {
    hide Round, Inv, Entered, StartUpgrade, StartRpsForAction, Allotted;
    if !Running(s) {
      StartUpgradeEnters(s, kills);
      EnteredAfter(RoundIsOver, StartUpgrade(s), kills);
    } else {
      NextTurnFinds(s, s.current + 1);
      match NextTurn(s, s.current + 1)
      case None => StartRpsForActionEnters(s.(current := s.orders + 1), kills);
      case Some(k) => TurnEnters(s, kills, k);
    }
  }

  lemma EnteredAfter(m: Message, o: Outcome, kills: multiset<Name>)
    requires Entered(o, kills) && forall k, n :: !Asks(m, k, n)
    ensures Entered(After(m, o), kills)
  {
    forall k, n ensures Requests([m] + o.sent, k, n) == Requests(o.sent, k, n) {
      RequestsAfter(m, o.sent, k, n);
    }
  }

  lemma TurnEnters(s: State, kills: multiset<Name>, k: int)
    requires Round(s.config, s.players, kills) && Running(s) && Allotted(s)
    requires 1 <= k <= s.orders && TurnOwnerAlive(s, k)
    ensures k in s.confirmed
    ensures Entered(Outcome(s.(current := k, phase := InAction), [RequestAction(s.confirmed[k], k)]), kills)
  {
    hide FreshlyAsked, Round, IsAllotment, RoundOver;
    TurnAsks(s, k);
  }

  lemma TurnAsks(s: State, k: int)
    requires Running(s) && k in s.confirmed
    ensures FreshlyAsked(Outcome(s.(current := k, phase := InAction), [RequestAction(s.confirmed[k], k)]))
  {
    var t := s.(current := k, phase := InAction);
    var m := RequestAction(s.confirmed[k], k);
    forall kind, n ensures Requests([m], kind, n) == Awaited(t, kind, n) {
      RequestsOne(m, kind, n);
    }
  }

  lemma StartActionOrderEnters(s: State, kills: multiset<Name>)
    requires Round(s.config, s.players, kills) && Running(s) && Negotiable(s)
    ensures Entered(StartActionOrder(s), kills)
  {
    hide Round, Inv, Entered;
    if |s.winners| == 1 || Striving(s) == map[] {
      LeftoversEnter(s, kills);
    } else {
      PicksEnter(s, kills);
    }
  }

  lemma LeftoversEnter(s: State, kills: multiset<Name>)
    requires Round(s.config, s.players, kills) && Running(s) && Negotiable(s)
    ensures var t := s.(confirmed := Dealt(s), current := 0);
            Entered(After(ActionOrderResult(Dealt(s)), StartAction(t)), kills)
  {
    hide Round, Inv, Entered, StartAction, Dealt, IsAllotment;
    DealtIsAllotment(s);
    var t := s.(confirmed := Dealt(s), current := 0);
    StartActionEnters(t, kills);
    EnteredAfter(ActionOrderResult(Dealt(s)), StartAction(t), kills);
  }

  ghost function AskForPicks(s: State): Outcome {
    Outcome(s.(desired := map[], remaining := Striving(s), phase := ActionOrder),
            PickRequests(Sorted(Striving(s).Keys), Free(s), s.orders, Striving(s)))
  }

  lemma PicksAsk(s: State)
    ensures FreshlyAsked(AskForPicks(s))
  {
    var o := AskForPicks(s);
    forall k, n ensures Requests(o.sent, k, n) == Awaited(o.state, k, n) {
      PickRequestsAsk(Striving(s).Keys, Free(s), s.orders, Striving(s), k, n);
    }
  }

  lemma PicksEnter(s: State, kills: multiset<Name>)
    requires Round(s.config, s.players, kills) && Running(s) && Negotiable(s) && Striving(s) != map[]
    ensures Entered(AskForPicks(s), kills)
  {
    hide Round, Picking, Throwing, Acting, Upgrading, Stalled, Negotiable, RoundOver, FreshlyAsked, PickRequests, Free, Striving;
    StrivingPicks(s);
    PicksAsk(s);
  }

  lemma StrivingPicks(s: State)
    requires Negotiable(s) && Striving(s) != map[]
    ensures Picking(s.(desired := map[], remaining := Striving(s), phase := ActionOrder))
  {
    var t := s.(desired := map[], remaining := Striving(s), phase := ActionOrder);
    forall p <- s.winners ensures Selections(t, p) == s.chances {
      assert ClaimsOf(map[], p) == {};
      assert |OrdersOf(s.confirmed, p)| + CountOf(s.yielded, p) <= s.chances;
    }
  }

  // ----- settling what is not contested -----

  // The state once the orders with a single claimant have been given out.
  ghost function Settle(s: State): State {
    s.(confirmed := s.confirmed + SettledOrders(s.desired), desired := Contested(s.desired))
  }

  lemma SettleClaims(s: State)
    requires Negotiable(s) && Claimed(s)
    ensures Claimed(Settle(s))
    ensures Settle(s).confirmed.Keys <= Upto(s.orders)
    ensures forall o <- Settle(s).confirmed :: Settle(s).confirmed[o] in s.winners
    ensures forall o <- Settle(s).desired :: |Settle(s).desired[o]| >= 2
  {
    forall o | o in s.desired && |s.desired[o]| == 1 ensures Sole(s.desired[o]) in s.winners {
    }
  }

  lemma SettleShare(s: State, p: Name)
    requires Claimed(s) && s.remaining == map[]
    ensures Selections(Settle(s), p) == Selections(s, p)
    ensures |OrdersOf(Settle(s).confirmed, p)| + CountOf(s.yielded, p) <= Selections(s, p)
  {
    hide SettledOrders, Contested, Claimed;
    SettleKeeps(s, p);
  }

  lemma SettleNegotiates(s: State)
    requires Negotiating(s) && s.remaining == map[]
    ensures Negotiating(Settle(s))
  {
    hide Selections, SettledOrders, Contested, Claimed;
    SettleClaims(s);
    var t := Settle(s);
    forall p <- s.winners
      ensures Selections(t, p) <= t.chances && |OrdersOf(t.confirmed, p)| + CountOf(t.yielded, p) <= t.chances
    {
      SettleShare(s, p);
    }
  }

  lemma NonEmptyMap<V>(m: map<int, V>)
    ensures m == map[] || exists o :: o in m
  {
    if forall o :: o !in m { assert m == map[]; }
  }

  lemma {:induction false} LowestFromIs(desired: map<int, set<Name>>, k: int, n: int)
    requires forall o <- desired :: k <= o <= n
    requires desired != map[]
    ensures LowestFrom(desired, k, n) in desired
    ensures forall o <- desired :: LowestFrom(desired, k, n) <= o
    decreases n - k
  {
    NonEmptyMap(desired);
    if k !in desired { LowestFromIs(desired, k + 1, n); }
  }

  ghost function AskToThrow(t: State, k: int): Outcome {
    Outcome(t.(striving := k, orderReplies := map[], phase := RpsForActionOrder),
            [RequestRpsForActionOrder(ClaimantsOf(t.desired, k), k)])
  }

  lemma ThrowsAsk(t: State, k: int)
    ensures FreshlyAsked(AskToThrow(t, k))
  {
    var o := AskToThrow(t, k);
    forall kind, n ensures Requests(o.sent, kind, n) == Awaited(o.state, kind, n) {
      RequestsOne(o.sent[0], kind, n);
    }
  }

  lemma ThrowsEnter(t: State, k: int, kills: multiset<Name>)
    requires Round(t.config, t.players, kills) && Running(t) && Negotiating(t) && t.remaining == map[]
    requires k in t.desired && forall o <- t.desired :: |t.desired[o]| >= 2 && k <= o
    ensures Entered(AskToThrow(t, k), kills)
  {
    hide Round, Picking, Acting, Upgrading, Stalled, RoundOver, FreshlyAsked;
    ThrowsAsk(t, k);
    var u := AskToThrow(t, k).state;
    assert Negotiating(u) by {
      forall p <- t.winners ensures Selections(u, p) == Selections(t, p) {}
    }
  }

  lemma StartRpsForActionOrderEnters(s: State, kills: multiset<Name>)
    requires Round(s.config, s.players, kills) && Running(s) && Negotiating(s) && s.remaining == map[]
    ensures Entered(StartRpsForActionOrder(s), kills)
  {
    hide Round, Inv, Entered, RoundOver, StartActionOrder, SettledOrders, Contested, Selections;
    var t := Settle(s);
    SettleNegotiates(s);
    SettleClaims(s);
    if t.desired == map[] {
      StartActionOrderEnters(t, kills);
    } else {
      LowestFromIs(t.desired, 1, t.orders);
      ThrowsEnter(t, LowestFrom(t.desired, 1, t.orders), kills);
    }
  }

  lemma NowPicking(t: State, kills: multiset<Name>)
    requires Inv(t, kills) && t.phase == ActionOrder
    ensures Picking(t) && t.remaining.Keys <= t.players.Keys
  {
  }
}
