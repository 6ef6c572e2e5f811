/**
  The action phase and the round around it: who is asked to act after whom, that death is for
  good, that kills are credited exactly, and how many players are left alive in each phase.
 */
module ActionPhase {
  import opened Basics
  import opened Rules
  import opened RuleFacts
  import opened Machine
  import opened Accounting
  import opened Invariants
  import opened Steps
  import opened Runs
  import opened Contests

  // ----- one turn -----

  // All orders strictly between two turns belong to dead players.
  predicate SkipsOnlyDead(confirmed: map<int, Name>, alive: set<Name>, from: int, to: int) {
    forall k | from < k < to :: k in confirmed && confirmed[k] !in alive
  }

  // What the engine does after the turn of order `from`, told from the room t it leaves behind:
  // the round is over, or the next order with a living owner is asked, or the list is exhausted
  // and the throws begin again.
  ghost predicate Follows(sent: seq<Message>, from: int, t: State) {
    && sent != []
    && match sent[0]
       case RoundIsOver => !Running(t) && sent[1..] == UpgradeRequests(Sorted(Pointed(t.players)), t.players)
       case RequestAction(n, k) =>
         && sent == [RequestAction(n, k)] && Running(t) && t.phase == InAction && t.current == k
         && from < k <= t.orders && k in t.confirmed && t.confirmed[k] == n && n in t.Alive()
         && SkipsOnlyDead(t.confirmed, t.Alive(), from, k)
       case RequestRpsForAction(names) =>
         && sent == [RequestRpsForAction(Sorted(t.Alive()))] && Running(t) && t.phase == RpsForAction
         && SkipsOnlyDead(t.confirmed, t.Alive(), from, t.orders + 1)
       case _ => false
  }

  lemma TurnFollows(s: State, kills: multiset<Name>, e: Event)
    requires Inv(s, kills) && s.phase == InAction && !Stalled(s) && e.ActionReply? && Enabled(s, e)
    ensures var sent := Step(s, e).sent;
            var act := if Feasible(s.config, s.players, e.name, e.action, e.toPlayer, e.toPlace) then e.action else DoNothing;
            && sent != [] && sent[0] == ActionResult(e.name, act, e.toPlayer, e.toPlace)
            && Follows(sent[1..], s.current, Step(s, e).state)
  {
    NowActing(s, kills);
    AllConfirmed(s);
    hide Perform, Feasible, Inv, StartAction, Follows, Step, Enabled;
    ActionStepIs(s, e);
    var u := s.(players := Perform(s.config, s.players, e.name, e.action, e.toPlayer, e.toPlace));
    StartActionFollows(u);
    assert Step(s, e).sent[1..] == StartAction(u).sent;
  }

  lemma NowActing(s: State, kills: multiset<Name>)
    requires Inv(s, kills) && s.phase == InAction && !Stalled(s)
    ensures Acting(s)
  {
  }

  lemma AllConfirmed(s: State)
    requires Acting(s)
    ensures forall k | 1 <= k <= s.orders :: k in s.confirmed
    ensures 1 <= s.current <= s.orders
  {
    forall k | 1 <= k <= s.orders ensures k in s.confirmed { assert k in Upto(s.orders); }
  }

  lemma StartActionFollows(u: State)
    requires 0 <= u.current <= u.orders && u.phase == InAction
    requires forall k | 1 <= k <= u.orders :: k in u.confirmed
    ensures Follows(StartAction(u).sent, u.current, StartAction(u).state)
  {
    if !Running(u) {
      RoundOverFollows(u);
    } else {
      NextTurnFinds(u, u.current + 1);
      TurnFound(u);
    }
  }

  lemma RoundOverFollows(u: State)
    requires !Running(u)
    ensures Follows(StartAction(u).sent, u.current, StartAction(u).state)
  {
    hide Pointed, UpgradeRequests, NextTurn, RoundOver, Sorted;
    assert StartAction(u).sent[1..] == StartUpgrade(u).sent;
  }

  lemma TurnFound(u: State)
    requires Running(u)
    requires forall k | 1 <= k <= u.orders :: k in u.confirmed
    requires 0 <= u.current <= u.orders
    requires var next := NextTurn(u, u.current + 1);
             && (next.Some? ==> u.current < next.value <= u.orders && TurnOwnerAlive(u, next.value))
             && forall j | u.current < j <= u.orders && (next.None? || j < next.value) :: !TurnOwnerAlive(u, j)
    ensures Follows(StartAction(u).sent, u.current, StartAction(u).state)
  {
    hide NextTurn, RoundOver, Sorted, AliveNames;
    match NextTurn(u, u.current + 1)
    case Some(k) =>
      var t := u.(current := k, phase := InAction);
      assert StartAction(u) == Outcome(t, [RequestAction(u.confirmed[k], k)]);
      assert SkipsOnlyDead(t.confirmed, t.Alive(), u.current, k) by { DeadBetween(u, u.current, k); }
    case None =>
      var t := StartAction(u).state;
      assert StartAction(u).sent == [RequestRpsForAction(Sorted(u.Alive()))];
      assert SkipsOnlyDead(t.confirmed, t.Alive(), u.current, u.orders + 1) by { DeadBetween(u, u.current, u.orders + 1); }
  }

  lemma DeadBetween(u: State, from: int, to: int)
    requires forall k | from < k < to :: k in u.confirmed && !TurnOwnerAlive(u, k)
    ensures SkipsOnlyDead(u.confirmed, u.Alive(), from, to)
  {
    hide AliveNames;
    forall k | from < k < to ensures k in u.confirmed && u.confirmed[k] !in u.Alive() {
      assert !TurnOwnerAlive(u, k);
    }
  }

  // ----- a whole action phase -----

  ghost predicate StaysActing(w: World, es: seq<Event>)
    decreases |es|
  {
    w.state.phase == InAction && Running(w.state) && (es == [] || StaysActing(Next(w, es[0]), es[1..]))
  }

  // The orders asked to act, from the present one on.
  ghost function Turns(w: World, es: seq<Event>): seq<int>
    decreases |es|
  {
    if es == [] then [w.state.current]
    else if Enabled(w.state, es[0]) then [w.state.current] + Turns(Next(w, es[0]), es[1..])
    else Turns(Next(w, es[0]), es[1..])
  }

  // In one action phase orders are asked in strictly ascending order, and an order that was
  // passed over belongs to a player who is dead for the rest of it.
  lemma {:induction false} TurnsAscend(w: World, es: seq<Event>)
    requires Inv(w.state, w.kills) && StaysActing(w, es)
    ensures var turns := Turns(w, es); var t := Run(w, es).state;
            && turns != [] && turns[0] == w.state.current && turns[|turns| - 1] == t.current
            && (forall i, j | 0 <= i < j < |turns| :: turns[i] < turns[j])
            && (forall k | w.state.current <= k <= t.current && k !in turns :: k in t.confirmed && t.confirmed[k] !in t.Alive())
            && t.confirmed == w.state.confirmed && t.Alive() <= w.state.Alive()
    decreases |es|
  {
    hide Inv, Next, RoundOver, AliveNames;
    if es != [] {
      var v := Next(w, es[0]);
      StepKeeps(w.state, w.kills, es[0]);
      NextInv(w, es[0]);
      TurnsAscend(v, es[1..]);
      if Enabled(w.state, es[0]) {
        TurnAdvances(w, es[0]);
        AscendOn(w.state.current, Turns(v, es[1..]));
        forall k | w.state.current <= k <= Run(v, es[1..]).state.current && k !in Turns(w, es)
          ensures k in Run(v, es[1..]).state.confirmed && Run(v, es[1..]).state.confirmed[k] !in Run(v, es[1..]).state.Alive()
        {
          assert k != w.state.current && k !in Turns(v, es[1..]);
        }
      } else {
        NothingHappens(w, es[0]);
      }
    }
  }

  lemma NextInv(w: World, e: Event)
    requires Inv(Step(w.state, e).state, NextKills(w.state, w.kills, e))
    ensures Inv(Next(w, e).state, Next(w, e).kills)
  {
    hide Inv, Step, NextKills;
  }

  lemma NothingHappens(w: World, e: Event)
    requires !Enabled(w.state, e)
    ensures Next(w, e).state == w.state
  {
  }

  lemma AscendOn(k: int, turns: seq<int>)
    requires turns != [] && k < turns[0]
    requires forall i, j | 0 <= i < j < |turns| :: turns[i] < turns[j]
    ensures forall i, j | 0 <= i < j < |[k] + turns| :: ([k] + turns)[i] < ([k] + turns)[j]
    ensures ([k] + turns)[|turns|] == turns[|turns| - 1]
    ensures forall x | x != k :: x in [k] + turns <==> x in turns
  {
  }

  lemma TurnAdvances(w: World, e: Event)
    requires Inv(w.state, w.kills) && w.state.phase == InAction && Running(w.state) && Enabled(w.state, e)
    requires Next(w, e).state.phase == InAction && Running(Next(w, e).state)
    ensures w.state.current < Next(w, e).state.current
    ensures SkipsOnlyDead(Next(w, e).state.confirmed, Next(w, e).state.Alive(), w.state.current, Next(w, e).state.current)
    ensures Next(w, e).state.confirmed == w.state.confirmed
    ensures Next(w, e).state.Alive() <= w.state.Alive()
  {
    ActingNow(w.state, w.kills);
    ActionRoom(w.state, e);
    ActionTable(w.state, e);
    ActionKeepsRound(w.state, w.kills, e.name, e.action, e.toPlayer, e.toPlace);
    TurnFollows(w.state, w.kills, e);
    ActingFollows(Step(w.state, e).sent[1..], w.state.current, Step(w.state, e).state);
    hide Follows, Step, Inv, RoundOver, Perform, Killers, SkipsOnlyDead, Round, NextKills;
  }

  lemma ActingFollows(sent: seq<Message>, from: int, t: State)
    requires Follows(sent, from, t) && t.phase == InAction && Running(t)
    ensures from < t.current && SkipsOnlyDead(t.confirmed, t.Alive(), from, t.current)
  {
  }

  lemma ActingNow(s: State, kills: multiset<Name>)
    requires Inv(s, kills) && s.phase == InAction && Running(s)
    ensures Acting(s) && !Stalled(s) && Round(s.config, s.players, kills)
  {
  }

  lemma ActionTable(s: State, e: Event)
    requires s.phase == InAction && Enabled(s, e)
    ensures e.ActionReply? && Step(s, e).state.confirmed == s.confirmed
  {
    hide Perform, Feasible, StartAction, Step;
    ActionStepIs(s, e);
    StartActionRoom(s.(players := Perform(s.config, s.players, e.name, e.action, e.toPlayer, e.toPlace)));
  }

  // ----- a whole round -----

  ghost predicate StaysInRound(w: World, es: seq<Event>)
    decreases |es|
  {
    w.state.phase != BeforeRoundStart && (es == [] || StaysInRound(Next(w, es[0]), es[1..]))
  }

  predicate NoneRevived(ps: Players, qs: Players) {
    qs.Keys == ps.Keys && forall n <- ps :: qs[n].hp <= ps[n].hp
  }

  lemma StepRevivesNobody(s: State, kills: multiset<Name>, e: Event)
    requires Inv(s, kills) && s.phase != BeforeRoundStart && Step(s, e).state.phase != BeforeRoundStart
    ensures NoneRevived(s.players, Step(s, e).state.players)
  {
    hide Inv, Step, Perform, PreparedRoom, Enabled;
    StepRoom(s, e);
    if Enabled(s, e) {
      EnabledKinds(s, e);
      if e.ActionReply? {
        ActionHurts(s, kills, e);
      } else if e.UpgradeReply? {
        UpgradeUnfinished(s, e);
      }
    } else {
      DisabledStep(s, e);
    }
  }

  lemma EnabledKinds(s: State, e: Event)
    requires Enabled(s, e) && s.phase != BeforeRoundStart
    ensures e.ActionReply? || e.UpgradeReply? || e.RpsReply? || e.ActionOrderReply?
    ensures e.ActionReply? ==> s.phase == InAction && e.name in s.players
    ensures e.UpgradeReply? ==> s.phase == InUpgrade && e.name in s.players
  {
  }

  lemma ActionHurts(s: State, kills: multiset<Name>, e: Event)
    requires Inv(s, kills) && e.ActionReply? && s.phase == InAction && e.name in s.players
    ensures NoneRevived(s.players, Perform(s.config, s.players, e.name, e.action, e.toPlayer, e.toPlace))
  {
    PerformEvolves(s.config, s.players, e.name, e.action, e.toPlayer, e.toPlace);
    hide Perform, Feasible, Credited;
  }

  lemma UpgradeUnfinished(s: State, e: Event)
    requires Enabled(s, e) && e.UpgradeReply? && Step(s, e).state.phase != BeforeRoundStart
    ensures Step(s, e).state.players == s.players
  {
    hide UpgradeFeasible, DefaultUpgrades, FinishUpgrade;
    var list := if UpgradeFeasible(s.config, s.players[e.name], e.items) then e.items else DefaultUpgrades(s.config, s.players[e.name]);
    UnfinishedRoom(s.(upgrades := s.upgrades[e.name := list]));
  }

  lemma UnfinishedRoom(t: State)
    ensures FinishUpgrade(t).state.phase != BeforeRoundStart ==> FinishUpgrade(t).state.players == t.players
  {
    hide UpgradedRoom, ResetRoom, MaxedNames, Pointed, RoundOver, Sorted;
    if !RoundOver(t.config, t.players) || |t.upgrades| != |Pointed(t.players)| {
      assert FinishUpgrade(t) == Silent(t);
    } else {
      assert FinishUpgrade(t).state.phase == BeforeRoundStart;
    }
  }

  // HP never rises while a round lasts, so who is dead stays dead - whoever sends what.
  lemma {:induction false} DeathIsPermanent(w: World, es: seq<Event>)
    requires Inv(w.state, w.kills) && StaysInRound(w, es)
    ensures NoneRevived(w.state.players, Run(w, es).state.players)
    ensures DeadNames(w.state.config, w.state.players) <= DeadNames(w.state.config, Run(w, es).state.players)
    decreases |es|
  {
    hide Inv, Next;
    if es != [] {
      StepKeeps(w.state, w.kills, es[0]);
      NextInv(w, es[0]);
      NextRoom(w, es[0]);
      DeathIsPermanent(Next(w, es[0]), es[1..]);
    }
  }

  lemma NextRoom(w: World, e: Event)
    requires Inv(w.state, w.kills) && w.state.phase != BeforeRoundStart && Next(w, e).state.phase != BeforeRoundStart
    ensures NoneRevived(w.state.players, Next(w, e).state.players)
  {
    hide Step, Inv, NextKills;
    StepRevivesNobody(w.state, w.kills, e);
  }

  // ----- how a round starts -----

  lemma SeatsAscend(names: set<Name>, m: Name, n: Name)
    requires m in names && n in names && m < n
    ensures 1 <= Seat(names, m) < Seat(names, n) <= |names|
  {
    SubsetSize(Before(names, m) + {m}, Before(names, n));
    SubsetSize(Before(names, n) + {n}, names);
  }

  // Everybody starts a round at full HP, bare, without points and alone in a city of its own, the
  // cities being dealt in name order.
  lemma RoundStartsEven(ps: Players, m: Name, n: Name)
    requires m in ps && n in ps && m < n
    ensures var p, q := PreparedRoom(ps)[m], PreparedRoom(ps)[n];
            && 1 <= p.place == p.initialPlace < q.place == q.initialPlace <= |ps|
            && p.hp == p.maxHp == ps[m].maxHp && !p.hasKnife && !p.hasHorse && p.upgradePoint == 0
            && p.knifeDamage == ps[m].knifeDamage && p.horseDamage == ps[m].horseDamage
  {
    SeatsAscend(ps.Keys, m, n);
    assert |ps.Keys| == |ps|;
  }

  // ----- shops -----

  // During a round everybody has started from a city.
  predicate Seated(s: State) {
    s.phase != BeforeRoundStart ==> forall n <- s.players :: s.players[n].initialPlace >= 1
  }

  lemma SeatsAreCities(ps: Players)
    ensures forall n <- ps :: PreparedRoom(ps)[n].initialPlace >= 1
  {
  }

  lemma StepSeated(s: State, kills: multiset<Name>, e: Event)
    requires Inv(s, kills) && Seated(s)
    ensures Seated(Step(s, e).state)
  {
    hide Inv, Step, Perform, PreparedRoom, Enabled;
    var t := Step(s, e).state;
    StepRoom(s, e);
    if !Enabled(s, e) {
      DisabledStep(s, e);
    } else if e.RoundStart? {
      SeatsAreCities(s.players);
    } else if s.phase == BeforeRoundStart {
      LobbyStays(s, e);
    } else {
      EnabledKinds(s, e);
      if e.ActionReply? {
        ActionKeepsSeats(s, kills, e);
      } else if e.UpgradeReply? && t.phase != BeforeRoundStart {
        UpgradeUnfinished(s, e);
      }
    }
  }

  lemma LobbyStays(s: State, e: Event)
    requires Enabled(s, e) && s.phase == BeforeRoundStart && !e.RoundStart?
    ensures Step(s, e).state.phase == BeforeRoundStart
  {
  }

  lemma ActionKeepsSeats(s: State, kills: multiset<Name>, e: Event)
    requires Inv(s, kills) && e.ActionReply? && e.name in s.players
    ensures var qs := Perform(s.config, s.players, e.name, e.action, e.toPlayer, e.toPlace);
            forall n <- qs :: qs[n].initialPlace == s.players[n].initialPlace
  {
    PerformEvolves(s.config, s.players, e.name, e.action, e.toPlayer, e.toPlace);
    hide Perform, Feasible, Credited;
    forall n <- s.players
      ensures SameBuild(s.players[n], Perform(s.config, s.players, e.name, e.action, e.toPlayer, e.toPlace)[n]) {}
  }

  lemma {:induction false} SeatedRun(w: World, es: seq<Event>)
    requires Inv(w.state, w.kills) && Seated(w.state)
    ensures Seated(Run(w, es).state)
    decreases |es|
  {
    hide Inv, Next, Seated;
    if es != [] {
      StepKeeps(w.state, w.kills, es[0]);
      NextInv(w, es[0]);
      StepSeated(w.state, w.kills, es[0]);
      NextState(w, es[0]);
      SeatedRun(Next(w, es[0]), es[1..]);
    }
  }

  // The Village sells nothing, whether or not the shops are kept to one's starting city.
  lemma NobodyBuysInTheVillage(c: Config, es: seq<Event>, n: Name)
    requires c.Playable()
    ensures var s := Run(Start(c), es).state;
            s.phase != BeforeRoundStart && n in s.players && (CanBuyKnife(c, s.players[n]) || CanBuyHorse(c, s.players[n]))
            ==> s.players[n].place != VILLAGE
  {
    StartIsSeated(c);
    hide Inv, Run, Start;
    SeatedRun(Start(c), es);
  }

  lemma StartIsSeated(c: Config)
    requires c.Playable()
    ensures Inv(Start(c).state, Start(c).kills) && Seated(Start(c).state)
  {
  }

  // ----- whole runs, with no assumption on who replies -----

  lemma {:induction false} InvRun(w: World, es: seq<Event>)
    requires Inv(w.state, w.kills)
    ensures Inv(Run(w, es).state, Run(w, es).kills)
    decreases |es|
  {
    hide Inv, Next;
    if es != [] {
      StepKeeps(w.state, w.kills, es[0]);
      NextInv(w, es[0]);
      InvRun(Next(w, es[0]), es[1..]);
    }
  }

  // At any time of a round each player holds exactly the points its kills have earned it, capped
  // by what it can still upgrade; every dead player was credited to somebody exactly once; and
  // when the round is over somebody has a point iff there is anything to upgrade at all.
  lemma KillsAreCredited(c: Config, es: seq<Event>)
    requires c.Playable()
    ensures var w := Run(Start(c), es); var ps := w.state.players;
            w.state.phase != BeforeRoundStart ==>
              && (forall n <- ps :: ps[n].upgradePoint == Min(w.kills[n], UpgradeRoom(c, ps[n])))
              && |w.kills| == |DeadNames(c, ps)|
              && (forall k <- w.kills :: k in ps)
              && (RoundOver(c, ps) ==> (Pointed(ps) != {} <==> c.Capacity() > 0))
  {
    var w := Run(Start(c), es);
    InvRun(Start(c), es);
    ConfigFixedRun(Start(c), es);
    if w.state.phase != BeforeRoundStart && RoundOver(c, w.state.players) {
      RoundEndsWithPoints(c, w.state.players, w.kills);
    }
  }

  // At least two players live through the four playing phases and at most one reaches the
  // upgrades, so startUpgrade and upgrade are never entered with the round still on.
  lemma SurvivorsByPhase(c: Config, es: seq<Event>)
    requires c.Playable()
    ensures var s := Run(Start(c), es).state;
            match s.phase
            case BeforeRoundStart => true
            case RpsForAction | ActionOrder | RpsForActionOrder => |s.Alive()| >= 2
            case InAction => |s.Alive()| >= 2 <==> !Stalled(s)
            case InUpgrade => |s.Alive()| <= 1
  {
    InvRun(Start(c), es);
    hide Round, Picking, Throwing, Allotted;
  }

  // Every list that is stored, as sent or in its stead, spends all the points and goes through item
  // by item, so the assertion in LogicP::upgrade never fails - whoever sends what.
  lemma StoredListsSucceed(c: Config, es: seq<Event>, n: Name)
    requires c.Playable()
    requires var s := Run(Start(c), es).state; s.phase == InUpgrade && n in s.upgrades
    ensures var s := Run(Start(c), es).state;
            && n in s.players && |s.upgrades[n]| == s.players[n].upgradePoint
            && ApplyUpgrades(c, s.players[n], s.upgrades[n]) == Some(Upgraded(s.players[n], s.upgrades[n]))
            && Sound(c, Upgraded(s.players[n], s.upgrades[n]))
  {
    var s := Run(Start(c), es).state;
    InvRun(Start(c), es);
    ConfigFixedRun(Start(c), es);
    hide Run, Start;
    StoredListFine(s, Run(Start(c), es).kills, n);
  }

  lemma StoredListFine(s: State, kills: multiset<Name>, n: Name)
    requires Inv(s, kills) && s.phase == InUpgrade && n in s.upgrades
    ensures n in s.players && |s.upgrades[n]| == s.players[n].upgradePoint
    ensures ApplyUpgrades(s.config, s.players[n], s.upgrades[n]) == Some(Upgraded(s.players[n], s.upgrades[n]))
    ensures Sound(s.config, Upgraded(s.players[n], s.upgrades[n]))
  {
    assert UpgradeFeasible(s.config, s.players[n], s.upgrades[n]) && Sound(s.config, s.players[n]);
    UpgradesSucceed(s.config, s.players[n], s.upgrades[n]);
    UpgradeSpends(s.config, s.players[n], s.upgrades[n]);
  }

  // No statistic ever leaves its configured range.
  lemma StatisticsStayInRange(c: Config, es: seq<Event>)
    requires c.Playable()
    ensures SoundRoom(c, Run(Start(c), es).state.players)
  {
    InvRun(Start(c), es);
    ConfigFixedRun(Start(c), es);
    hide SoundRoom;
  }
}
