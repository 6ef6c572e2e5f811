/**
  Whole runs of the round engine. A run is any sequence of slot calls; a legal run is one
  in which replies come only from players with an open request of that kind. Requests that
  are open are counted from the messages sent and the replies taken, nothing else.
 */
module Runs {
  import opened Basics
  import opened Rules
  import opened Rps
  import opened Machine
  import opened Accounting
  import opened Invariants
  import opened Steps

  datatype World = World(state: State, kills: multiset<Name>, sent: seq<Message>, taken: seq<Event>)

  predicate IsReply(e: Event) {
    e.RpsReply? || e.ActionOrderReply? || e.ActionReply? || e.UpgradeReply?
  }

  function ReplyKind(e: Event): Kind
    requires IsReply(e)
  {
    match e
    case RpsReply(_, _) => AskThrow
    case ActionOrderReply(_, _) => AskPicks
    case ActionReply(_, _, _, _) => AskAction
    case UpgradeReply(_, _) => AskUpgrade
  }

  function Replies(taken: seq<Event>, k: Kind, n: Name): nat {
    if taken == [] then 0
    else (if Answers(taken[|taken| - 1], k, n) then 1 else 0) + Replies(taken[..|taken| - 1], k, n)
  }

  predicate Answers(e: Event, k: Kind, n: Name) {
    IsReply(e) && ReplyKind(e) == k && e.name == n
  }

  // Requests emitted minus replies taken.
  function Open(w: World, k: Kind, n: Name): int {
    Requests(w.sent, k, n) - Replies(w.taken, k, n)
  }

  predicate Legal(w: World, e: Event) {
    IsReply(e) ==> Open(w, ReplyKind(e), e.name) > 0
  }

  ghost function Next(w: World, e: Event): World {
    var o := Step(w.state, e);
    World(o.state, NextKills(w.state, w.kills, e), w.sent + o.sent, w.taken + [e])
  }

  function Start(c: Config): World {
    World(Initial(c), multiset{}, [], [])
  }

  ghost function Run(w: World, es: seq<Event>): World
    decreases |es|
  {
    if es == [] then w else Run(Next(w, es[0]), es[1..])
  }

  ghost predicate LegalRun(w: World, es: seq<Event>)
    decreases |es|
  {
    es == [] || (Legal(w, es[0]) && LegalRun(Next(w, es[0]), es[1..]))
  }

  // ----- one step under the discipline that only asked players reply -----

  // The phase is one that waits for replies of this kind.
  predicate KindMatches(s: State, e: Event)
    requires IsReply(e)
  {
    ReplyKind(e) == KindOf(s.phase)
  }

  // The reply is the last one waited for, and the engine moves on; or it is just recorded.
  ghost predicate Progress(s: State, o: Outcome, n: Name, kills: multiset<Name>) {
    || (Entered(o, kills) && Waiting(s) == {n})
    || (o.sent == [] && o.state.phase == s.phase && Waiting(o.state) == Waiting(s) - {n} && OnlyAsked(o.state))
    || (Finished(o) && Waiting(s) == {n})
  }

  // The round is over for good: nobody is asked any more.
  ghost predicate Finished(o: Outcome) {
    o.state.phase == BeforeRoundStart && forall k, n :: Requests(o.sent, k, n) == 0
  }

  lemma FullSet(replied: set<Name>, asked: set<Name>, n: Name)
    requires replied <= asked && n in asked && n !in replied
    ensures |replied| + 1 == |asked| <==> asked - replied == {n}
    ensures |replied| + 1 <= |asked|
  {
    SubsetSize(replied + {n}, asked);
    assert |replied + {n}| == |replied| + 1;
    if asked - replied == {n} { assert asked == replied + {n}; }
    if |replied| + 1 == |asked| { assert asked - replied == {n}; }
  }

  lemma ThrowProgress(s: State, kills: multiset<Name>, n: Name, t: Throw)
    requires Inv(s, kills) && OnlyAsked(s) && s.phase == RpsForAction && n in Waiting(s)
    ensures Progress(s, JudgeRpsForAction(s.(rpsReplies := s.rpsReplies[n := t])), n, kills)
  {
    var u := s.(rpsReplies := s.rpsReplies[n := t]);
    FullSet(s.rpsReplies.Keys, s.Alive(), n);
    assert |s.rpsReplies.Keys| == |s.rpsReplies|;
    ThrowKeeps(s, kills, n, t);
    hide Inv, Entered, StartRpsForAction, StartActionOrder, Winners, Losers, RoundOver, Finished;
    assert |u.rpsReplies| == |s.rpsReplies| + 1;
    if |u.rpsReplies| != |u.Alive()| {
      assert Waiting(u) == Waiting(s) - {n};
    }
  }

  lemma OrderThrowPending(s: State, n: Name, t: Throw)
    requires OnlyAsked(s) && s.phase == RpsForActionOrder && n in Waiting(s)
    ensures n !in s.orderReplies
    ensures |s.orderReplies| + 1 == |ClaimantsOf(s.desired, s.striving)| ==> Waiting(s) == {n}
    ensures var u := s.(orderReplies := s.orderReplies[n := t]);
            OnlyAsked(u) && Waiting(u) == Waiting(s) - {n} && |u.orderReplies| == |s.orderReplies| + 1
  {
    FullSet(s.orderReplies.Keys, ClaimantsOf(s.desired, s.striving), n);
    assert |s.orderReplies.Keys| == |s.orderReplies|;
  }

  lemma OrderThrowProgress(s: State, kills: multiset<Name>, n: Name, t: Throw)
    requires Inv(s, kills) && OnlyAsked(s) && s.phase == RpsForActionOrder && n in Waiting(s) && n in s.players
    ensures Progress(s, JudgeRpsForActionOrder(s.(orderReplies := s.orderReplies[n := t])), n, kills)
  {
    hide Inv, Entered, StartRpsForActionOrder, Winners, RoundOver, Finished, OnlyAsked, Waiting;
    OrderThrowPending(s, n, t);
    OrderThrowKeeps(s, kills, n, t);
  }

  lemma PicksPending(s: State, n: Name, orders: seq<int>)
    requires s.phase == ActionOrder && n in s.remaining
    ensures var t := TakePicks(s, n, orders);
            && t.phase == ActionOrder && Waiting(t) == Waiting(s) - {n}
            && (t.remaining == map[] ==> Waiting(s) == {n})
  {
    hide PicksClaimed, PicksYielded, Claim;
    var t := TakePicks(s, n, orders);
    assert t.remaining.Keys == s.remaining.Keys - {n};
    assert s.remaining.Keys == (s.remaining.Keys - {n}) + {n};
  }

  lemma PicksProgress(s: State, kills: multiset<Name>, n: Name, orders: seq<int>)
    requires Inv(s, kills) && s.phase == ActionOrder && n in s.remaining
    ensures Progress(s, AdvanceActionOrder(TakePicks(s, n, orders)), n, kills)
  {
    hide Inv, Entered, StartRpsForActionOrder, TakePicks, Waiting, Finished;
    PicksKeep(s, kills, n, orders);
    PicksPending(s, n, orders);
  }

  lemma UpgradePending(s: State, n: Name, list: seq<UpgradeItem>)
    requires OnlyAsked(s) && s.phase == InUpgrade && n in Waiting(s)
    ensures |s.upgrades| + 1 == |Pointed(s.players)| ==> Waiting(s) == {n}
    ensures var t := s.(upgrades := s.upgrades[n := list]);
            OnlyAsked(t) && Waiting(t) == Waiting(s) - {n} && |t.upgrades| == |s.upgrades| + 1
  {
    FullSet(s.upgrades.Keys, Pointed(s.players), n);
    assert |s.upgrades.Keys| == |s.upgrades|;
  }

  lemma FinishAsksNobody(t: State)
    requires |t.upgrades| == |Pointed(t.players)| && !Running(t)
    ensures Finished(FinishUpgrade(t))
  {
    hide UpgradedRoom, ResetRoom, Pointed, Sorted, MaxedNames, RoundOver;
    var o := FinishUpgrade(t);
    forall k, m ensures Requests(o.sent, k, m) == 0 { RequestsOne(o.sent[0], k, m); }
  }

  lemma UpgradeProgress(s: State, kills: multiset<Name>, n: Name, list: seq<UpgradeItem>)
    requires s.phase == InUpgrade && !Running(s) && OnlyAsked(s) && n in Waiting(s)
    ensures Progress(s, FinishUpgrade(s.(upgrades := s.upgrades[n := list])), n, kills)
  {
    hide Entered, RoundOver, UpgradedRoom, ResetRoom, Pointed, Finished, OnlyAsked, Waiting;
    var t := s.(upgrades := s.upgrades[n := list]);
    UpgradePending(s, n, list);
    if |t.upgrades| == |Pointed(t.players)| { FinishAsksNobody(t); }
  }

  lemma ReplyProgress(s: State, kills: multiset<Name>, e: Event)
    requires Inv(s, kills) && OnlyAsked(s)
    requires IsReply(e) && KindMatches(s, e) && e.name in Waiting(s)
    ensures Enabled(s, e)
    ensures Progress(s, Step(s, e), e.name, NextKills(s, kills, e))
  {
    WaitingPlay(s, kills);
    hide Progress, FinishUpgrade, JudgeRpsForAction, JudgeRpsForActionOrder, AdvanceActionOrder, TakePicks, StartAction,
      DefaultUpgrades, UpgradeFeasible, Perform, Killers, Feasible, Round, Picking, Throwing, Negotiating, Pointed, IsAllotment;
    match e
    case RpsReply(n, t) =>
      if s.phase == RpsForAction { ThrowProgress(s, kills, n, t); } else { OrderThrowProgress(s, kills, n, t); }
    case ActionOrderReply(n, orders) => PicksProgress(s, kills, n, orders);
    case ActionReply(n, a, to, place) => ActionProgress(s, kills, e);
    case UpgradeReply(n, items) =>
      UpgradeProgress(s, kills, n, if UpgradeFeasible(s.config, s.players[n], items) then items else DefaultUpgrades(s.config, s.players[n]));
  }

  lemma WaitingPlay(s: State, kills: multiset<Name>)
    requires Inv(s, kills)
    ensures Waiting(s) <= s.players.Keys
  {
  }

  lemma ActionProgress(s: State, kills: multiset<Name>, e: Event)
    requires Inv(s, kills) && s.phase == InAction && e.ActionReply? && e.name in Waiting(s) && e.name in s.players
    ensures Progress(s, Step(s, e), e.name, NextKills(s, kills, e))
  {
    hide Inv, Entered, StartAction, Perform, Killers, Feasible, RoundOver, Finished, OnlyAsked;
    assert Waiting(s) == {e.name};
    ActionEnters(s, kills, e);
  }

  lemma ActionEnters(s: State, kills: multiset<Name>, e: Event)
    requires Inv(s, kills) && s.phase == InAction && e.ActionReply? && e.name in s.players
    ensures Entered(Step(s, e), NextKills(s, kills, e))
  {
    hide Inv, Entered, StartAction, Perform, Killers, Feasible, RoundOver;
    var ActionReply(n, a, to, place) := e;
    var act := if Feasible(s.config, s.players, n, a, to, place) then a else DoNothing;
    FallbackKillsNobody(s.config, s.players, n, a, to, place);
    ActionKeeps(s, kills, n, act, to, place);
    EnteredAfter(ActionResult(n, act, to, place),
                 StartAction(s.(players := Perform(s.config, s.players, n, act, to, place))), NextKills(s, kills, e));
  }

  // ----- open requests and the players waited for stay in step -----

  ghost predicate Balanced(s: State, e: Event, o: Outcome) {
    && OnlyAsked(o.state)
    && forall k, n :: Awaited(o.state, k, n) == Awaited(s, k, n) + Requests(o.sent, k, n) - (if Answers(e, k, n) then 1 else 0)
  }

  lemma ReplyBalance(s: State, e: Event, o: Outcome, kills: multiset<Name>)
    requires IsReply(e) && KindMatches(s, e) && e.name in Waiting(s)
    requires Progress(s, o, e.name, kills)
    ensures Balanced(s, e, o)
  {
    hide Inv, Waiting;
    if o.state.phase == BeforeRoundStart { assert Waiting(o.state) == {} by { NobodyWaits(o.state); } }
  }

  lemma NobodyWaits(s: State)
    requires s.phase == BeforeRoundStart
    ensures Waiting(s) == {}
  {
  }

  lemma CommandBalance(s: State, kills: multiset<Name>, e: Event)
    requires Inv(s, kills) && !IsReply(e) && OnlyAsked(s)
    ensures Balanced(s, e, Step(s, e))
  {
    hide Inv, Entered, PreparedRoom, ResetRoom, StartRpsForAction, FreshlyAsked;
    if Enabled(s, e) {
      NobodyWaits(s);
      if e.RoundStart? {
        RoundStartKeeps(s, kills);
        EnteredBalance(s, e, Step(s, e), multiset{});
      } else {
        NobodyWaits(Step(s, e).state);
      }
    }
  }

  lemma EnteredBalance(s: State, e: Event, o: Outcome, kills: multiset<Name>)
    requires Entered(o, kills) && s.phase == BeforeRoundStart && !IsReply(e)
    ensures Balanced(s, e, o)
  {
    NobodyWaits(s);
    hide Inv, Waiting;
  }

  // What holds of every world a legal run can reach.
  ghost predicate Healthy(w: World) {
    && Inv(w.state, w.kills) && OnlyAsked(w.state)
    && forall k, n :: Open(w, k, n) == Awaited(w.state, k, n)
  }

  lemma {:induction false} RequestsConcat(a: seq<Message>, b: seq<Message>, k: Kind, n: Name)
    ensures Requests(a + b, k, n) == Requests(a, k, n) + Requests(b, k, n)
  {
    if a == [] {
      assert a + b == b;
    } else {
      RequestsConcat(a[1..], b, k, n);
      assert (a + b)[1..] == a[1..] + b;
    }
  }

  lemma OpenNext(w: World, e: Event, k: Kind, n: Name)
    ensures Open(Next(w, e), k, n) == Open(w, k, n) + Requests(Step(w.state, e).sent, k, n) - (if Answers(e, k, n) then 1 else 0)
  {
    hide Step, NextKills;
    RequestsConcat(w.sent, Step(w.state, e).sent, k, n);
    assert (w.taken + [e])[..|w.taken|] == w.taken;
  }

  lemma HealthyNext(w: World, e: Event)
    requires Healthy(w) && Legal(w, e)
    ensures Healthy(Next(w, e))
    ensures IsReply(e) ==> Enabled(w.state, e)
  {
    hide Inv, Step, Open, Enabled, OnlyAsked, Waiting, NextKills, Progress, Requests;
    StepKeeps(w.state, w.kills, e);
    if IsReply(e) {
      assert Awaited(w.state, ReplyKind(e), e.name) > 0;
      ReplyProgress(w.state, w.kills, e);
      ReplyBalance(w.state, e, Step(w.state, e), NextKills(w.state, w.kills, e));
    } else {
      CommandBalance(w.state, w.kills, e);
    }
    forall k, n ensures Open(Next(w, e), k, n) == Awaited(Next(w, e).state, k, n) {
      OpenNext(w, e, k, n);
    }
  }

  lemma HealthyStart(c: Config)
    requires c.Playable()
    ensures Healthy(Start(c))
  {
  }

  lemma {:induction false} HealthyRun(w: World, es: seq<Event>)
    requires Healthy(w) && LegalRun(w, es)
    ensures Healthy(Run(w, es))
    decreases |es|
  {
    hide Healthy, Next, Legal;
    if es != [] {
      HealthyNext(w, es[0]);
      HealthyRun(Next(w, es[0]), es[1..]);
    }
  }

  // No deadlock. In every world a legal run reaches, the open requests are exactly one for each
  // player the phase is waiting for; and while a round is on somebody is waited for, as long as
  // the configuration leaves anything to upgrade.
  lemma NoDeadlock(c: Config, es: seq<Event>)
    requires c.Playable() && LegalRun(Start(c), es)
    ensures var w := Run(Start(c), es);
            && (forall k, n :: Open(w, k, n) == if k == KindOf(w.state.phase) && n in Waiting(w.state) then 1 else 0)
            && (w.state.phase != BeforeRoundStart ==> (Waiting(w.state) == {} <==> Stalled(w.state)))
            && (c.Capacity() > 0 && w.state.phase != BeforeRoundStart ==> exists n :: Open(w, KindOf(w.state.phase), n) == 1)
  {
    var w := Run(Start(c), es);
    HealthyStart(c);
    HealthyRun(Start(c), es);
    ConfigFixedRun(Start(c), es);
    if w.state.phase != BeforeRoundStart {
      SomebodyWaits(w.state, w.kills);
      if c.Capacity() > 0 {
        var n :| n in Waiting(w.state);
        assert Open(w, KindOf(w.state.phase), n) == 1;
      }
    }
  }

  lemma SomebodyWaits(s: State, kills: multiset<Name>)
    requires Inv(s, kills) && s.phase != BeforeRoundStart
    ensures Waiting(s) == {} <==> Stalled(s)
  {
    hide Round;
    match s.phase
    case RpsForAction => assert |s.rpsReplies.Keys| == |s.rpsReplies|; Missing(s.rpsReplies.Keys, s.Alive());
    case ActionOrder => assert s.remaining.Keys != {};
    case RpsForActionOrder =>
      assert |s.orderReplies.Keys| == |s.orderReplies|;
      Missing(s.orderReplies.Keys, ClaimantsOf(s.desired, s.striving));
    case InAction => if !Stalled(s) { assert s.confirmed[s.current] in Waiting(s); }
    case InUpgrade => assert |s.upgrades.Keys| == |s.upgrades|; Missing(s.upgrades.Keys, Pointed(s.players));
  }

  lemma Missing(replied: set<Name>, asked: set<Name>)
    requires |replied| < |asked|
    ensures asked - replied != {}
  {
    if asked - replied == {} {
      assert forall x <- asked :: x in replied || x in asked - replied;
      SubsetSize(asked, replied);
    }
  }

  // ----- what the phases leave alone -----

  predicate SameRoom(s: State, t: State) {
    s.config == t.config && s.players == t.players
  }

  // Acting and upgrading leave the settled orders and the claims alone as well.
  predicate SameTable(s: State, t: State) {
    s.confirmed == t.confirmed && s.desired == t.desired
  }

  lemma StartUpgradeRoom(s: State)
    ensures SameRoom(s, StartUpgrade(s).state) && SameTable(s, StartUpgrade(s).state)
  {
  }

  lemma StartRpsForActionRoom(s: State)
    ensures SameRoom(s, StartRpsForAction(s).state) && SameTable(s, StartRpsForAction(s).state)
  {
  }

  lemma StartActionRoom(s: State)
    ensures SameRoom(s, StartAction(s).state) && SameTable(s, StartAction(s).state)
  {
    hide SameRoom, SameTable, StartUpgrade, StartRpsForAction, NextTurn, RoundOver, State.Alive;
    if RoundOver(s.config, s.players) {
      StartUpgradeRoom(s);
    } else {
      match NextTurn(s, s.current + 1)
      case Some(k) => TurnRoom(s, k, InAction);
      case None =>
        TurnRoom(s, s.orders + 1, s.phase);
        StartRpsForActionRoom(s.(current := s.orders + 1));
        RoomOn(s, s.(current := s.orders + 1), StartAction(s).state);
    }
  }

  lemma TurnRoom(s: State, k: int, p: Phase)
    ensures SameRoom(s, s.(current := k, phase := p)) && SameTable(s, s.(current := k, phase := p))
    ensures SameRoom(s, s.(current := k)) && SameTable(s, s.(current := k))
  {
  }

  lemma RoomOn(s: State, t: State, u: State)
    requires SameRoom(s, t) && SameTable(s, t) && SameRoom(t, u) && SameTable(t, u)
    ensures SameRoom(s, u) && SameTable(s, u)
  {
  }

  lemma StartActionOrderRoom(s: State)
    ensures SameRoom(s, StartActionOrder(s).state)
  {
    hide StartAction, Dealt, Striving, Free;
    StartActionRoom(s.(confirmed := Dealt(s), current := 0));
  }

  lemma StartRpsForActionOrderRoom(s: State)
    ensures SameRoom(s, StartRpsForActionOrder(s).state)
  {
    hide StartActionOrder, SettledOrders, Contested;
    StartActionOrderRoom(s.(confirmed := s.confirmed + SettledOrders(s.desired), desired := Contested(s.desired)));
  }

  lemma JudgeRpsForActionRoom(s: State)
    ensures SameRoom(s, JudgeRpsForAction(s).state)
  {
    hide StartActionOrder, StartRpsForAction, Winners, Losers;
    StartRpsForActionRoom(s);
    StartActionOrderRoom(s.(winners := Winners(s.rpsReplies), chances := |Losers(s.rpsReplies)|,
                            orders := |Winners(s.rpsReplies)| * |Losers(s.rpsReplies)|, confirmed := map[], yielded := map[]));
  }

  lemma JudgeRpsForActionOrderRoom(s: State)
    ensures SameRoom(s, JudgeRpsForActionOrder(s).state)
  {
    hide StartRpsForActionOrder, Winners;
    StartRpsForActionOrderRoom(s);
    StartRpsForActionOrderRoom(s.(desired := Narrowed(s.desired, s.striving, Winners(s.orderReplies))));
  }

  lemma AdvanceRoom(s: State)
    ensures SameRoom(s, AdvanceActionOrder(s).state)
  {
    hide StartRpsForActionOrder;
    StartRpsForActionOrderRoom(s);
  }

  lemma ActionRoom(s: State, e: Event)
    requires Enabled(s, e) && e.ActionReply?
    ensures Step(s, e).state.config == s.config
    ensures Step(s, e).state.players == Perform(s.config, s.players, e.name, e.action, e.toPlayer, e.toPlace)
  {
    hide StartAction, Perform, Feasible, Step, Enabled;
    ActionStepIs(s, e);
    StartActionRoom(s.(players := Perform(s.config, s.players, e.name, e.action, e.toPlayer, e.toPlace)));
  }

  lemma ThrowRoom(s: State, e: Event)
    requires Enabled(s, e) && (e.RpsReply? || e.ActionOrderReply?)
    ensures SameRoom(s, Step(s, e).state)
  {
    hide JudgeRpsForAction, JudgeRpsForActionOrder, AdvanceActionOrder, PicksClaimed, PicksYielded;
    if e.RpsReply? {
      JudgeRpsForActionRoom(s.(rpsReplies := s.rpsReplies[e.name := e.throw]));
      JudgeRpsForActionOrderRoom(s.(orderReplies := s.orderReplies[e.name := e.throw]));
    } else {
      AdvanceRoom(TakePicks(s, e.name, e.orders));
    }
  }

  // The room changes only with players joining or leaving, round starts, actions and upgrades.
  lemma StepRoom(s: State, e: Event)
    ensures Step(s, e).state.config == s.config
    ensures e.RpsReply? || e.ActionOrderReply? || !Enabled(s, e) ==> Step(s, e).state.players == s.players
    ensures Enabled(s, e) && e.RoundStart? ==> Step(s, e).state.players == PreparedRoom(s.players)
    ensures Enabled(s, e) && e.ActionReply? ==> Step(s, e).state.players == Perform(s.config, s.players, e.name, e.action, e.toPlayer, e.toPlace)
  {
    hide Perform, PreparedRoom, ResetRoom, UpgradeFeasible, DefaultUpgrades, StartAction, JudgeRpsForAction,
      JudgeRpsForActionOrder, AdvanceActionOrder, Feasible, TakePicks;
    if Enabled(s, e) {
      if e.ActionReply? { ActionRoom(s, e); }
      if e.RpsReply? || e.ActionOrderReply? { ThrowRoom(s, e); }
    }
  }

  lemma {:induction false} ConfigFixedRun(w: World, es: seq<Event>)
    ensures Run(w, es).state.config == w.state.config
    decreases |es|
  {
    hide Step;
    if es != [] {
      StepRoom(w.state, es[0]);
      ConfigFixedRun(Next(w, es[0]), es[1..]);
    }
  }
}
