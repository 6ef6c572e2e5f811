/**
  A game ends. Every finished round spends at least one upgrade point, what is spent is gone for
  the rest of the game, and a game goes on only while every player still has something to upgrade.
 */
module GameLength {
  import opened Basics
  import opened Rules
  import opened RuleFacts
  import opened Machine
  import opened Accounting
  import opened Invariants
  import opened Steps
  import opened Runs
  import opened Contests

  function RoomOf(c: Config, ps: Players): map<Name, int> {
    map n | n in ps :: UpgradeRoom(c, ps[n])
  }

  // What all players together can still upgrade.
  ghost function TotalRoom(c: Config, ps: Players): int {
    Sum(ps.Keys, RoomOf(c, ps))
  }

  ghost function TotalPoints(ps: Players): int {
    Sum(ps.Keys, map n | n in ps :: ps[n].upgradePoint)
  }

  // ----- one upgrade phase -----

  // Conservation: the room that disappears is exactly the points that were held.
  lemma UpgradesSpendPoints(s: State)
    requires SoundRoom(s.config, s.players) && UpgradesFit(s)
    requires forall n <- s.players :: n in s.upgrades || s.players[n].upgradePoint == 0
    ensures TotalRoom(s.config, UpgradedRoom(s.players, s.upgrades)) + TotalPoints(s.players) == TotalRoom(s.config, s.players)
  {
    var ps := UpgradedRoom(s.players, s.upgrades);
    var points := map n | n in s.players :: s.players[n].upgradePoint;
    forall n <- s.players ensures RoomOf(s.config, s.players)[n] == RoomOf(s.config, ps)[n] + points[n] {
      assert Sound(s.config, s.players[n]);
      if n in s.upgrades { UpgradeSpends(s.config, s.players[n], s.upgrades[n]); }
    }
    SumAdd(s.players.Keys, RoomOf(s.config, ps), points, RoomOf(s.config, s.players));
  }

  lemma SomePointIsHeld(ps: Players)
    requires Pointed(ps) != {} && forall n <- ps :: ps[n].upgradePoint >= 0
    ensures TotalPoints(ps) >= 1
  {
    var k :| k in Pointed(ps);
    var points := map n | n in ps :: ps[n].upgradePoint;
    SumRemove(ps.Keys, k, points);
    SumNonNegative(ps.Keys - {k}, points);
  }

  lemma PointsAreNotNegative(c: Config, ps: Players, kills: multiset<Name>)
    requires Round(c, ps, kills)
    ensures forall n <- ps :: ps[n].upgradePoint >= 0
  {
    forall n <- ps ensures ps[n].upgradePoint >= 0 {
      assert Sound(c, ps[n]) && ps[n].upgradePoint == Earned(c, ps[n], kills[n]);
    }
  }

  // All who were asked have answered: the round is closed and at least one point is spent.
  lemma FinishedSpends(t: State, kills: multiset<Name>)
    requires Round(t.config, t.players, kills) && !Running(t) && UpgradesFit(t)
    requires t.upgrades.Keys == Pointed(t.players) != {}
    ensures TotalRoom(t.config, UpgradedRoom(t.players, t.upgrades)) + 1 <= TotalRoom(t.config, t.players)
  {
    PointsAreNotNegative(t.config, t.players, kills);
    hide TotalRoom, TotalPoints, UpgradedRoom, RoundOver, UpgradeFeasible, Credited;
    UpgradesSpendPoints(t);
    SomePointIsHeld(t.players);
  }

  lemma AllAnswered(s: State, n: Name, list: seq<UpgradeItem>)
    requires OnlyAsked(s) && s.phase == InUpgrade && n in Waiting(s)
    requires |s.upgrades[n := list]| == |Pointed(s.players)|
    ensures s.upgrades[n := list].Keys == Pointed(s.players) != {}
  {
    var u := s.upgrades[n := list];
    assert |u.Keys| == |u|;
    SubsetSize(u.Keys, Pointed(s.players));
    assert n in u;
  }

  ghost predicate EndsGame(sent: seq<Message>) {
    exists m :: m in sent && m.GameOver?
  }

  lemma UpgradeRoomStep(s: State, kills: multiset<Name>, n: Name, list: seq<UpgradeItem>)
    requires Inv(s, kills) && OnlyAsked(s) && s.phase == InUpgrade && n in Waiting(s)
    requires UpgradesFit(s.(upgrades := s.upgrades[n := list]))
    ensures var o := FinishUpgrade(s.(upgrades := s.upgrades[n := list]));
            !EndsGame(o.sent) ==>
              && o.state.players.Keys == s.players.Keys
              && TotalRoom(s.config, o.state.players) + (if o.state.phase == BeforeRoundStart then 1 else 0) <= TotalRoom(s.config, s.players)
  {
    hide Round, UpgradesFit, Pointed, UpgradedRoom, ResetRoom, MaxedNames, RoundOver, TotalRoom, OnlyAsked, Waiting;
    var t := s.(upgrades := s.upgrades[n := list]);
    if |t.upgrades| == |Pointed(t.players)| {
      AllAnswered(s, n, list);
      SameFit(t);
      FinishedSpends(t, kills);
      if MaxedNames(t.config, UpgradedRoom(t.players, t.upgrades)) != {} {
        assert FinishUpgrade(t).sent[0] in FinishUpgrade(t).sent;
      }
    }
  }

  lemma SameFit(t: State)
    requires UpgradesFit(t)
    ensures UpgradedRoom(t.players, t.upgrades).Keys == t.players.Keys
  {
  }

  // ----- one event of a game with fixed players -----

  // Nobody joins or leaves.
  predicate KeepsPlayers(s: State, e: Event) {
    Enabled(s, e) ==> !e.AddPlayer? && !e.RemovePlayer?
  }

  ghost predicate RoundCloses(w: World, e: Event) {
    w.state.phase == InUpgrade && Next(w, e).state.phase == BeforeRoundStart
  }

  lemma SameRoomSameTotal(c: Config, ps: Players, qs: Players)
    requires ps.Keys == qs.Keys
    requires forall n <- ps :: UpgradeRoom(c, ps[n]) == UpgradeRoom(c, qs[n])
    ensures TotalRoom(c, ps) == TotalRoom(c, qs)
  {
    SumEqual(ps.Keys, RoomOf(c, ps), RoomOf(c, qs));
  }

  lemma PerformKeepsRoom(s: State, kills: multiset<Name>, e: Event)
    requires Inv(s, kills) && e.ActionReply? && Enabled(s, e)
    ensures TotalRoom(s.config, Perform(s.config, s.players, e.name, e.action, e.toPlayer, e.toPlace)) == TotalRoom(s.config, s.players)
  {
    var qs := Perform(s.config, s.players, e.name, e.action, e.toPlayer, e.toPlace);
    PerformEvolves(s.config, s.players, e.name, e.action, e.toPlayer, e.toPlace);
    forall n <- s.players ensures UpgradeRoom(s.config, s.players[n]) == UpgradeRoom(s.config, qs[n]) {
      assert SameBuild(s.players[n], qs[n]);
    }
    SameRoomSameTotal(s.config, s.players, qs);
  }

  lemma PreparedKeepsRoom(c: Config, ps: Players)
    ensures TotalRoom(c, PreparedRoom(ps)) == TotalRoom(c, ps)
  {
    SameRoomSameTotal(c, ps, PreparedRoom(ps));
  }

  lemma StoredFit(s: State, kills: multiset<Name>, n: Name, items: seq<UpgradeItem>)
    requires Inv(s, kills) && s.phase == InUpgrade && n in s.players
    ensures var list := if UpgradeFeasible(s.config, s.players[n], items) then items else DefaultUpgrades(s.config, s.players[n]);
            UpgradesFit(s.(upgrades := s.upgrades[n := list]))
  {
    StoredListFits(s, kills, n, items);
    hide UpgradeFeasible, DefaultUpgrades, Round, RoundOver, Pointed;
  }

  lemma UpgradeStep(s: State, kills: multiset<Name>, e: Event)
    requires Inv(s, kills) && OnlyAsked(s) && e.UpgradeReply? && s.phase == InUpgrade && e.name in Waiting(s) && Enabled(s, e)
    requires !EndsGame(Step(s, e).sent)
    ensures Step(s, e).state.players.Keys == s.players.Keys
    ensures TotalRoom(s.config, Step(s, e).state.players) + (if Step(s, e).state.phase == BeforeRoundStart then 1 else 0) <= TotalRoom(s.config, s.players)
  {
    var list := if UpgradeFeasible(s.config, s.players[e.name], e.items) then e.items else DefaultUpgrades(s.config, s.players[e.name]);
    hide UpgradeFeasible, DefaultUpgrades, FinishUpgrade, TotalRoom, Inv, OnlyAsked, Waiting, EndsGame, UpgradesFit;
    StoredFit(s, kills, e.name, e.items);
    UpgradeRoomStep(s, kills, e.name, list);
  }

  lemma RoomShrinks(w: World, e: Event)
    requires Healthy(w) && Legal(w, e) && KeepsPlayers(w.state, e)
    requires !EndsGame(Step(w.state, e).sent)
    ensures Next(w, e).state.players.Keys == w.state.players.Keys
    ensures TotalRoom(w.state.config, Next(w, e).state.players) + (if RoundCloses(w, e) then 1 else 0)
            <= TotalRoom(w.state.config, w.state.players)
  {
    hide Step, Inv, OnlyAsked, Waiting, NextKills, TotalRoom, EndsGame, KindMatches, PreparedRoom, Enabled, Perform;
    var s := w.state;
    StepRoom(s, e);
    LegalIsAwaited(w, e);
    if !Enabled(s, e) {
      DisabledStep(s, e);
    } else if e.UpgradeReply? {
      KindOfUpgrade(s, e);
      UpgradeStep(s, w.kills, e);
    } else if e.RoundStart? {
      PreparedKeepsRoom(s.config, s.players);
      EnabledInPhase(s, e);
    } else {
      if e.ActionReply? { PerformKeepsRoom(s, w.kills, e); KeysKept(s, e); }
      EnabledInPhase(s, e);
    }
  }

  lemma KeysKept(s: State, e: Event)
    requires e.ActionReply? && Enabled(s, e)
    ensures Perform(s.config, s.players, e.name, e.action, e.toPlayer, e.toPlace).Keys == s.players.Keys
  {
  }

  lemma KindOfUpgrade(s: State, e: Event)
    requires e.UpgradeReply? && Enabled(s, e)
    ensures s.phase == InUpgrade
  {
  }

  lemma EnabledInPhase(s: State, e: Event)
    requires Enabled(s, e) && !e.UpgradeReply?
    ensures s.phase != InUpgrade
  {
  }

  // ----- a whole game -----

  // A run in which nobody joins or leaves and no game ends.
  ghost predicate OneGame(w: World, es: seq<Event>)
    decreases |es|
  {
    es == [] || (KeepsPlayers(w.state, es[0]) && !EndsGame(Step(w.state, es[0]).sent) && OneGame(Next(w, es[0]), es[1..]))
  }

  ghost function RoundsClosed(w: World, es: seq<Event>): nat
    decreases |es|
  {
    if es == [] then 0 else (if RoundCloses(w, es[0]) then 1 else 0) + RoundsClosed(Next(w, es[0]), es[1..])
  }

  lemma {:induction false} RoomPays(w: World, es: seq<Event>)
    requires Healthy(w) && LegalRun(w, es) && OneGame(w, es)
    ensures TotalRoom(w.state.config, Run(w, es).state.players) + RoundsClosed(w, es) <= TotalRoom(w.state.config, w.state.players)
    ensures Run(w, es).state.players.Keys == w.state.players.Keys
    decreases |es|
  {
    hide Healthy, Next, Legal, TotalRoom, KeepsPlayers, EndsGame, RoundCloses;
    if es != [] {
      RoomShrinks(w, es[0]);
      HealthyNext(w, es[0]);
      ConfigNext(w, es[0]);
      RoomPays(Next(w, es[0]), es[1..]);
    }
  }

  lemma ConfigNext(w: World, e: Event)
    ensures Next(w, e).state.config == w.state.config
  {
    hide Step, NextKills;
    StepRoom(w.state, e);
  }

  lemma NobodyMaxed(c: Config, ps: Players)
    requires Match(c, ps) && c.Capacity() > 0
    ensures TotalRoom(c, ps) >= |ps|
  {
    var one := map n | n in ps :: 1;
    forall n <- ps ensures RoomOf(c, ps)[n] >= 1 {
      assert Sound(c, ps[n]) && n !in MaxedNames(c, ps);
    }
    SumAtMost(ps.Keys, one, RoomOf(c, ps));
    SumConstant(ps.Keys, one, 1);
    assert |ps.Keys| == |ps|;
  }

  lemma RoomAtMost(c: Config, ps: Players)
    requires SoundRoom(c, ps)
    ensures TotalRoom(c, ps) <= |ps| * c.Capacity()
  {
    var full := map n | n in ps :: c.Capacity();
    forall n <- ps ensures RoomOf(c, ps)[n] <= c.Capacity() { assert Sound(c, ps[n]); }
    SumAtMost(ps.Keys, RoomOf(c, ps), full);
    SumConstant(ps.Keys, full, c.Capacity());
    assert |ps.Keys| == |ps|;
  }

  lemma InvMatch(s: State, kills: multiset<Name>)
    requires Inv(s, kills)
    ensures Match(s.config, s.players)
  {
  }

  lemma HealthyMatch(w: World)
    requires Healthy(w)
    ensures Match(w.state.config, w.state.players)
  {
    hide Inv, OnlyAsked, Waiting;
    InvMatch(w.state, w.kills);
  }

  // With n players who neither join nor leave and R upgrades open to a fresh player, at most
  // n * (R - 1) rounds can close without ending the game: the next one to close ends it.
  lemma GameEnds(w: World, es: seq<Event>)
    requires Healthy(w) && LegalRun(w, es) && OneGame(w, es)
    requires w.state.config.Capacity() > 0
    ensures RoundsClosed(w, es) <= |w.state.players| * (w.state.config.Capacity() - 1)
  {
    hide Healthy, LegalRun, OneGame, RoundsClosed, TotalRoom, Run, Match, SoundRoom;
    var c, n := w.state.config, |w.state.players|;
    RoomPays(w, es);
    HealthyMatch(w);
    MatchIsSound(c, w.state.players);
    RoomAtMost(c, w.state.players);
    HealthyRun(w, es);
    ConfigFixedRun(w, es);
    HealthyMatch(Run(w, es));
    NobodyMaxed(c, Run(w, es).state.players);
    assert |Run(w, es).state.players| == |Run(w, es).state.players.Keys| == n by { assert |w.state.players.Keys| == n; }
    assert n * (c.Capacity() - 1) == n * c.Capacity() - n;
  }

  lemma MatchIsSound(c: Config, ps: Players)
    requires Match(c, ps)
    ensures SoundRoom(c, ps)
  {
  }
}
