/**
  The client's copy of the room. A client folds what the server broadcasts - players added and
  removed, round starts, actions, upgrades - into a room of its own. Here: that room equals the
  server's, action by action; and a client that lost part of a round is put right by the round's
  upgrades and the next round start.
 */
module Mirror {
  import opened Basics
  import opened Rules
  import opened RuleFacts
  import opened Rps
  import opened Machine
  import opened Accounting
  import opened Invariants
  import opened Steps
  import opened Runs
  import opened Contests
  import opened GameLength

  datatype Notice =
    | PlayerAdded(name: Name)
    | PlayerRemoved(name: Name)
    | RoundStarted
    | Acted(name: Name, action: Action, toPlayer: Name, toPlace: int)
    | UpgradesMade(lists: map<Name, seq<UpgradeItem>>)

  // ----- the client's handlers; None is a protocol error, which drops the connection -----

  ghost predicate AllApply(c: Config, ps: Players, lists: map<Name, seq<UpgradeItem>>) {
    forall n <- lists :: n in ps && ApplyUpgrades(c, ps[n], lists[n]).Some?
  }

  ghost function Handle(c: Config, ps: Players, m: Notice): Option<Players> {
    match m
    case PlayerAdded(n) => Some(if n in ps then ps else ps[n := Fresh(c)])
    case PlayerRemoved(n) => if n in ps then Some(ps - {n}) else None
    case RoundStarted => Some(PreparedRoom(ps))
    case Acted(n, a, to, place) =>
      if n !in ps || (NeedsTarget(a) && to !in ps) || (NeedsPlace(a) && !(0 <= place <= |ps|)) then None
      else if Feasible(c, ps, n, a, to, place) then Some(Perform(c, ps, n, a, to, place))
      else None
    case UpgradesMade(lists) => if AllApply(c, ps, lists) then Some(UpgradedRoom(ps, lists)) else None
  }

  ghost function Fold(c: Config, ps: Players, ms: seq<Notice>): Option<Players>
    decreases |ms|
  {
    if ms == [] then Some(ps)
    else
      match Handle(c, ps, ms[0])
      case None => None
      case Some(qs) => Fold(c, qs, ms[1..])
  }

  // ----- what the server broadcasts -----

  function Broadcasts(sent: seq<Message>): seq<Notice>
    decreases |sent|
  {
    if sent == [] then []
    else
      (match sent[0]
       case ActionResult(n, a, to, place) => [Acted(n, a, to, place)]
       case UpgradeResult(lists) => [UpgradesMade(lists)]
       case _ => [])
      + Broadcasts(sent[1..])
  }

  function Announced(s: State, e: Event): seq<Notice> {
    if !Enabled(s, e) then []
    else
      match e
      case AddPlayer(n) => [PlayerAdded(n)]
      case RemovePlayer(n) => [PlayerRemoved(n)]
      case RoundStart => [RoundStarted]
      case _ => []
  }

  ghost function Notices(s: State, e: Event): seq<Notice> {
    Announced(s, e) + Broadcasts(Step(s, e).sent)
  }

  ghost function NoticesOf(w: World, es: seq<Event>): seq<Notice>
    decreases |es|
  {
    if es == [] then [] else Notices(w.state, es[0]) + NoticesOf(Next(w, es[0]), es[1..])
  }

  lemma {:induction false} FoldConcat(c: Config, ps: Players, a: seq<Notice>, b: seq<Notice>)
    requires Fold(c, ps, a).Some?
    ensures Fold(c, ps, a + b) == Fold(c, Fold(c, ps, a).value, b)
    decreases |a|
  {
    if a == [] {
      assert a + b == b;
    } else {
      assert (a + b)[0] == a[0] && (a + b)[1..] == a[1..] + b;
      FoldConcat(c, Handle(c, ps, a[0]).value, a[1..], b);
    }
  }

  lemma FoldOne(c: Config, ps: Players, m: Notice)
    ensures Fold(c, ps, [m]) == Handle(c, ps, m)
  {
    hide Handle;
    assert [m][1..] == [];
  }

  // ----- phases that broadcast nothing the mirror applies -----

  ghost predicate Quiet(sent: seq<Message>) {
    forall m <- sent :: !m.ActionResult? && !m.UpgradeResult?
  }

  lemma {:induction false} QuietBroadcasts(sent: seq<Message>)
    requires Quiet(sent)
    ensures Broadcasts(sent) == []
    decreases |sent|
  {
    if sent != [] { QuietBroadcasts(sent[1..]); }
  }

  lemma StartActionOrderQuiet(s: State)
    ensures Quiet(StartActionOrder(s).sent)
  {
    hide StartAction, Dealt, Striving, Free, Sorted;
    StartActionSends(s.(confirmed := Dealt(s), current := 0));
    PickRequestsAre(Sorted(Striving(s).Keys), Free(s), s.orders, Striving(s));
  }

  lemma StartRpsForActionOrderQuiet(s: State)
    ensures Quiet(StartRpsForActionOrder(s).sent)
  {
    hide StartActionOrder, SettledOrders, Contested;
    StartActionOrderQuiet(Settle(s));
  }

  lemma JudgeRpsForActionQuiet(s: State)
    ensures Quiet(JudgeRpsForAction(s).sent)
  {
    hide StartActionOrder, Winners, Losers, Sorted;
    StartActionOrderQuiet(s.(winners := Winners(s.rpsReplies), chances := |Losers(s.rpsReplies)|,
                             orders := |Winners(s.rpsReplies)| * |Losers(s.rpsReplies)|, confirmed := map[], yielded := map[]));
  }

  lemma JudgeRpsForActionOrderQuiet(s: State)
    ensures Quiet(JudgeRpsForActionOrder(s).sent)
  {
    hide StartRpsForActionOrder, Winners, Narrowed;
    StartRpsForActionOrderQuiet(s);
    StartRpsForActionOrderQuiet(s.(desired := Narrowed(s.desired, s.striving, Winners(s.orderReplies))));
  }

  lemma ThrowsAndPicksQuiet(s: State, e: Event)
    requires e.RpsReply? || e.ActionOrderReply?
    ensures Notices(s, e) == []
  {
    hide JudgeRpsForAction, JudgeRpsForActionOrder, StartRpsForActionOrder, TakePicks;
    if Enabled(s, e) {
      if e.RpsReply? {
        JudgeRpsForActionQuiet(s.(rpsReplies := s.rpsReplies[e.name := e.throw]));
        JudgeRpsForActionOrderQuiet(s.(orderReplies := s.orderReplies[e.name := e.throw]));
      } else {
        StartRpsForActionOrderQuiet(TakePicks(s, e.name, e.orders));
      }
      QuietBroadcasts(Step(s, e).sent);
    }
  }

  // ----- one event, mirrored -----

  // What the client checks about a place and the server does not.
  predicate BoundedTarget(s: State, e: Event) {
    e.ActionReply? && Enabled(s, e) && Feasible(s.config, s.players, e.name, e.action, e.toPlayer, e.toPlace) && NeedsPlace(e.action)
    ==> 0 <= e.toPlace <= |s.players|
  }

  lemma ActionNotices(s: State, e: Event)
    requires e.ActionReply? && Enabled(s, e)
    ensures var act := if Feasible(s.config, s.players, e.name, e.action, e.toPlayer, e.toPlace) then e.action else DoNothing;
            Notices(s, e) == [Acted(e.name, act, e.toPlayer, e.toPlace)]
  {
    hide StartAction, Perform, Feasible;
    var act := if Feasible(s.config, s.players, e.name, e.action, e.toPlayer, e.toPlace) then e.action else DoNothing;
    var tail := StartAction(s.(players := Perform(s.config, s.players, e.name, act, e.toPlayer, e.toPlace))).sent;
    StartActionSends(s.(players := Perform(s.config, s.players, e.name, act, e.toPlayer, e.toPlace)));
    QuietBroadcasts(tail);
    assert ([ActionResult(e.name, act, e.toPlayer, e.toPlace)] + tail)[1..] == tail;
  }

  // A client with an equal room accepts an action the server took exactly when the actor is alive
  // and the place, if there is one, is on the star map; it then has the server's room again.
  lemma ActionMirrored(s: State, e: Event)
    requires e.ActionReply? && Enabled(s, e)
    ensures Fold(s.config, s.players, Notices(s, e)).Some? <==> Alive(s.config, s.players[e.name]) && BoundedTarget(s, e)
    ensures Fold(s.config, s.players, Notices(s, e)).Some? ==> Fold(s.config, s.players, Notices(s, e)).value == Step(s, e).state.players
  {
    var act := if Feasible(s.config, s.players, e.name, e.action, e.toPlayer, e.toPlace) then e.action else DoNothing;
    ActionNotices(s, e);
    ActionRoom(s, e);
    FeasibleMeans(s.config, s.players, e.name, e.action, e.toPlayer, e.toPlace);
    FallbackKillsNobody(s.config, s.players, e.name, e.action, e.toPlayer, e.toPlace);
    FoldOne(s.config, s.players, Acted(e.name, act, e.toPlayer, e.toPlace));
    hide Fold, Notices, Step, Perform, Killers;
  }

  // The place does matter: from the Village the server lets a player move to a city that does not
  // exist, and every client then drops its connection.
  lemma OffTheMap(c: Config, ps: Players, n: Name)
    requires n in ps && Alive(c, ps[n]) && ps[n].place == VILLAGE
    ensures Feasible(c, ps, n, Move, 0, |ps| + 1) && Handle(c, ps, Acted(n, Move, 0, |ps| + 1)).None?
  {
    hide Alive, Perform;
  }

  lemma FeasibleMeans(c: Config, ps: Players, n: Name, a: Action, to: Name, place: int)
    requires n in ps
    ensures Feasible(c, ps, n, a, to, place) ==> Alive(c, ps[n]) && (NeedsTarget(a) ==> to in ps)
  {
  }

  lemma FeasibleUpgradesApply(s: State)
    requires SoundRoom(s.config, s.players) && UpgradesFit(s)
    ensures AllApply(s.config, s.players, s.upgrades)
  {
    forall n <- s.upgrades ensures n in s.players && ApplyUpgrades(s.config, s.players[n], s.upgrades[n]).Some? {
      assert Sound(s.config, s.players[n]);
      UpgradesSucceed(s.config, s.players[n], s.upgrades[n]);
    }
  }

  lemma ClosingNotices(t: State)
    requires !EndsGame(FinishUpgrade(t).sent)
    ensures (FinishUpgrade(t).state == t && FinishUpgrade(t).sent == [])
         || (FinishUpgrade(t).sent == [UpgradeResult(t.upgrades)] && FinishUpgrade(t).state.players == UpgradedRoom(t.players, t.upgrades)
             && FinishUpgrade(t).state.phase == BeforeRoundStart)
  {
    hide UpgradedRoom, ResetRoom, MaxedNames, Pointed, RoundOver;
    if FinishUpgrade(t).sent != [] { assert FinishUpgrade(t).sent[0] in FinishUpgrade(t).sent; }
  }

  // The state in which a reply's list, or the substitute for it, has been stored.
  function Submitted(s: State, e: Event): State
    requires e.UpgradeReply? && e.name in s.players
  {
    s.(upgrades := s.upgrades[e.name := if UpgradeFeasible(s.config, s.players[e.name], e.items) then e.items
                                        else DefaultUpgrades(s.config, s.players[e.name])])
  }

  lemma UpgradeStepIs(s: State, kills: multiset<Name>, e: Event)
    requires Inv(s, kills) && e.UpgradeReply? && Enabled(s, e)
    ensures Step(s, e) == FinishUpgrade(Submitted(s, e)) && Notices(s, e) == Broadcasts(FinishUpgrade(Submitted(s, e)).sent)
    ensures UpgradesFit(Submitted(s, e)) && SoundRoom(s.config, s.players)
  {
    hide Inv, Notices, Step, UpgradesFit, SoundRoom, UpgradeFeasible, DefaultUpgrades, FinishUpgrade;
    PlayersEnabled(s, e);
    SubmittedFits(s, kills, e);
    InvMatch(s, kills);
    MatchIsSound(s.config, s.players);
    SubmittedStep(s, e);
  }

  lemma SubmittedFits(s: State, kills: multiset<Name>, e: Event)
    requires Inv(s, kills) && s.phase == InUpgrade && e.UpgradeReply? && e.name in s.players
    ensures UpgradesFit(Submitted(s, e))
  {
    hide Inv, UpgradesFit, UpgradeFeasible, DefaultUpgrades;
    StoredFit(s, kills, e.name, e.items);
  }

  lemma SubmittedStep(s: State, e: Event)
    requires e.UpgradeReply? && Enabled(s, e)
    ensures Step(s, e) == FinishUpgrade(Submitted(s, e)) && Notices(s, e) == Broadcasts(FinishUpgrade(Submitted(s, e)).sent)
  {
    hide UpgradeFeasible, DefaultUpgrades, FinishUpgrade, Broadcasts;
  }

  lemma FinishMirrored(t: State)
    requires UpgradesFit(t) && SoundRoom(t.config, t.players) && !EndsGame(FinishUpgrade(t).sent)
    ensures Fold(t.config, t.players, Broadcasts(FinishUpgrade(t).sent)) == Some(FinishUpgrade(t).state.players)
  {
    hide FinishUpgrade, UpgradesFit, SoundRoom, AllApply, UpgradedRoom, EndsGame;
    ClosingNotices(t);
    if FinishUpgrade(t).sent == [] {
      FoldNothing(t.config, t.players);
    } else {
      FeasibleUpgradesApply(t);
      BroadcastUpgrades(t.upgrades);
      FoldOne(t.config, t.players, UpgradesMade(t.upgrades));
    }
  }

  // When the upgrade phase closes, the lists that are broadcast can be carried out in full.
  lemma UpgradeMirrored(s: State, kills: multiset<Name>, e: Event)
    requires Inv(s, kills) && e.UpgradeReply? && Enabled(s, e) && !EndsGame(Step(s, e).sent)
    ensures Fold(s.config, s.players, Notices(s, e)) == Some(Step(s, e).state.players)
  {
    hide FinishUpgrade, Inv, UpgradesFit, SoundRoom, EndsGame, Fold, Notices, Step, Broadcasts, Enabled, UpgradeFeasible, DefaultUpgrades;
    PlayersEnabled(s, e);
    UpgradeStepIs(s, kills, e);
    FinishMirrored(Submitted(s, e));
  }

  lemma PlayersEnabled(s: State, e: Event)
    requires e.UpgradeReply? && Enabled(s, e)
    ensures e.name in s.players && s.phase == InUpgrade
  {
  }

  lemma BroadcastUpgrades(lists: map<Name, seq<UpgradeItem>>)
    ensures Broadcasts([UpgradeResult(lists)]) == [UpgradesMade(lists)]
  {
    assert [UpgradeResult(lists)][1..] == [];
  }

  lemma RoundStartMirrored(s: State)
    requires Enabled(s, RoundStart)
    ensures Fold(s.config, s.players, Notices(s, RoundStart)) == Some(Step(s, RoundStart).state.players)
  {
    hide PreparedRoom, Sorted;
    QuietBroadcasts(Step(s, RoundStart).sent);
    FoldOne(s.config, s.players, RoundStarted);
  }

  lemma EventMirrored(w: World, e: Event)
    requires Healthy(w) && Legal(w, e) && KeepsPlayers(w.state, e)
    requires !EndsGame(Step(w.state, e).sent) && BoundedTarget(w.state, e)
    ensures Fold(w.state.config, w.state.players, Notices(w.state, e)) == Some(Next(w, e).state.players)
  {
    hide Step, Inv, OnlyAsked, Waiting, NextKills, EndsGame, KindMatches, PreparedRoom, Enabled, Perform, Notices, BoundedTarget, Alive, Handle;
    var s := w.state;
    LegalIsAwaited(w, e);
    if !Enabled(s, e) {
      DisabledQuiet(s, e);
    } else if e.RpsReply? || e.ActionOrderReply? {
      ThrowsAndPicksQuiet(s, e);
      StepRoom(s, e);
    } else if e.ActionReply? {
      ActorIsAlive(s, w.kills, e);
      ActionMirrored(s, e);
    } else if e.UpgradeReply? {
      UpgradeMirrored(s, w.kills, e);
    } else {
      RoundStartMirrored(s);
    }
  }

  lemma DisabledQuiet(s: State, e: Event)
    requires !Enabled(s, e)
    ensures Notices(s, e) == [] && Step(s, e).state == s
  {
  }

  lemma ActorIsAlive(s: State, kills: multiset<Name>, e: Event)
    requires Inv(s, kills) && e.ActionReply? && Enabled(s, e) && e.name in Waiting(s)
    ensures Alive(s.config, s.players[e.name])
  {
    hide Round, Alive;
  }

  // ----- before the game -----

  predicate Lobby(c: Config, ps: Players) {
    forall n <- ps :: ps[n] == Fresh(c)
  }

  predicate Joins(es: seq<Event>) {
    forall e <- es :: e.AddPlayer? || e.RemovePlayer?
  }

  lemma JoinMirrored(s: State, e: Event)
    requires Lobby(s.config, s.players) && (e.AddPlayer? || e.RemovePlayer?)
    ensures Lobby(s.config, Step(s, e).state.players) && Step(s, e).state.config == s.config
    ensures Fold(s.config, s.players, Notices(s, e)) == Some(Step(s, e).state.players)
  {
    if Enabled(s, e) {
      FoldOne(s.config, s.players, Announced(s, e)[0]);
      assert Notices(s, e) == Announced(s, e);
      var ps := if e.AddPlayer? then s.players[e.name := Fresh(s.config)] else s.players - {e.name};
      ResetLobby(s.config, ps);
    }
  }

  lemma ResetLobby(c: Config, ps: Players)
    requires Lobby(c, ps)
    ensures ResetRoom(c, ps) == ps
  {
    forall n <- ps ensures ResetRoom(c, ps)[n] == ps[n] {}
  }

  lemma {:induction false} JoinsMirrored(w: World, es: seq<Event>)
    requires Lobby(w.state.config, w.state.players) && Joins(es)
    ensures Lobby(w.state.config, Run(w, es).state.players)
    ensures Fold(w.state.config, w.state.players, NoticesOf(w, es)) == Some(Run(w, es).state.players)
    decreases |es|
  {
    hide Lobby, Notices, Step, Handle, Fold;
    if es == [] {
      FoldNothing(w.state.config, w.state.players);
    } else {
      JoinMirrored(w.state, es[0]);
      JoinsMirrored(Next(w, es[0]), es[1..]);
      FoldConcat(w.state.config, w.state.players, Notices(w.state, es[0]), NoticesOf(Next(w, es[0]), es[1..]));
    }
  }

  lemma FoldNothing(c: Config, ps: Players)
    ensures Fold(c, ps, []) == Some(ps)
  {
  }

  function Additions(names: seq<Name>): seq<Notice>
    decreases |names|
  {
    if names == [] then [] else [PlayerAdded(names[0])] + Additions(names[1..])
  }

  // A player that joins late is told the players already there, one by one and in any order, itself
  // among them, possibly more than once: it then has the room the others have.
  lemma {:induction false} SnapshotBuildsLobby(c: Config, names: seq<Name>, ps: Players)
    requires Lobby(c, ps)
    ensures Fold(c, ps, Additions(names)).Some?
    ensures var qs := Fold(c, ps, Additions(names)).value;
            Lobby(c, qs) && qs.Keys == ps.Keys + (set n | n in names)
    decreases |names|
  {
    if names != [] {
      assert Additions(names)[1..] == Additions(names[1..]);
      var qs := Handle(c, ps, PlayerAdded(names[0])).value;
      SnapshotBuildsLobby(c, names[1..], qs);
      assert forall n :: n in names <==> n == names[0] || n in names[1..];
    }
  }

  // ----- a whole game -----

  ghost predicate Bounded(w: World, es: seq<Event>)
    decreases |es|
  {
    es == [] || (BoundedTarget(w.state, es[0]) && Bounded(Next(w, es[0]), es[1..]))
  }

  lemma {:induction false} GameMirrored(w: World, es: seq<Event>)
    requires Healthy(w) && LegalRun(w, es) && OneGame(w, es) && Bounded(w, es)
    ensures Fold(w.state.config, w.state.players, NoticesOf(w, es)) == Some(Run(w, es).state.players)
    decreases |es|
  {
    hide Healthy, Notices, Next, Fold, Handle, Legal, KeepsPlayers, EndsGame, BoundedTarget;
    if es == [] {
      FoldNothing(w.state.config, w.state.players);
    } else {
      EventMirrored(w, es[0]);
      HealthyNext(w, es[0]);
      ConfigNext(w, es[0]);
      GameMirrored(Next(w, es[0]), es[1..]);
      FoldConcat(w.state.config, w.state.players, Notices(w.state, es[0]), NoticesOf(Next(w, es[0]), es[1..]));
    }
  }

  // The mirror theorem: from an empty room, through players joining and leaving and then any legal
  // game whose targets are on the map, every broadcast is accepted and the client's room is the
  // server's.
  lemma MirrorEqualsRoom(c: Config, joins: seq<Event>, game: seq<Event>)
    requires c.Playable() && Joins(joins)
    requires LegalRun(Start(c), joins) && var w := Run(Start(c), joins); LegalRun(w, game) && OneGame(w, game) && Bounded(w, game)
    ensures var w := Run(Start(c), joins);
            Fold(c, map[], NoticesOf(Start(c), joins) + NoticesOf(w, game)) == Some(Run(w, game).state.players)
  {
    hide Healthy, LegalRun, OneGame, Bounded, Fold, NoticesOf, Run;
    var w := Run(Start(c), joins);
    HealthyStart(c);
    HealthyRun(Start(c), joins);
    ConfigFixedRun(Start(c), joins);
    JoinsMirrored(Start(c), joins);
    GameMirrored(w, game);
    FoldConcat(c, map[], NoticesOf(Start(c), joins), NoticesOf(w, game));
  }

  lemma LobbyIsItsNames(c: Config, ps: Players, qs: Players)
    requires Lobby(c, ps) && Lobby(c, qs) && ps.Keys == qs.Keys
    ensures ps == qs
  {
  }

  // The room a player finds it has joined: its own arrival first, then those who were there, in
  // whatever order the hash is walked.
  lemma JoinerHasTheRoom(w: World, n: Name, names: seq<Name>)
    requires Lobby(w.state.config, w.state.players) && Enabled(w.state, AddPlayer(n))
    requires forall m :: m in names <==> m in w.state.players
    ensures Fold(w.state.config, map[], [PlayerAdded(n)] + Additions(names)) == Some(Next(w, AddPlayer(n)).state.players)
    ensures Lobby(w.state.config, Next(w, AddPlayer(n)).state.players)
  {
    NextState(w, AddPlayer(n));
    JoinMirrored(w.state, AddPlayer(n));
    JoinKeys(w.state, n);
    SnapshotOf(w.state.config, n, names, w.state.players.Keys);
    hide *;
    LobbyIsItsNames(w.state.config, Fold(w.state.config, map[], [PlayerAdded(n)] + Additions(names)).value, Next(w, AddPlayer(n)).state.players);
  }

  lemma SnapshotOf(c: Config, n: Name, names: seq<Name>, there: set<Name>)
    requires forall m :: m in names <==> m in there
    ensures var snapshot := Fold(c, map[], [PlayerAdded(n)] + Additions(names));
            snapshot.Some? && Lobby(c, snapshot.value) && snapshot.value.Keys == there + {n}
  {
    assert ([n] + names)[1..] == names;
    assert Additions([n] + names) == [PlayerAdded(n)] + Additions(names);
    SnapshotBuildsLobby(c, [n] + names, map[]);
    hide Fold, Lobby;
  }

  lemma JoinKeys(s: State, n: Name)
    requires Enabled(s, AddPlayer(n))
    ensures Step(s, AddPlayer(n)).state.players.Keys == s.players.Keys + {n}
  {
  }

  // The mirror theorem for a client that joins a room with players in it: its snapshot, then players
  // joining and leaving, then any legal game whose targets are on the map.
  lemma LateJoinerMirrors(c: Config, before: seq<Event>, n: Name, names: seq<Name>, joins: seq<Event>, game: seq<Event>)
    requires c.Playable() && Joins(before) && Joins(joins)
    requires LegalRun(Start(c), before)
    requires var w0 := Run(Start(c), before);
             && Enabled(w0.state, AddPlayer(n)) && (forall m :: m in names <==> m in w0.state.players)
             && var w1 := Next(w0, AddPlayer(n));
                LegalRun(w1, joins) && var w2 := Run(w1, joins); LegalRun(w2, game) && OneGame(w2, game) && Bounded(w2, game)
    ensures var w1 := Next(Run(Start(c), before), AddPlayer(n)); var w2 := Run(w1, joins);
            Fold(c, map[], [PlayerAdded(n)] + Additions(names) + NoticesOf(w1, joins) + NoticesOf(w2, game)) == Some(Run(w2, game).state.players)
  {
    hide Healthy, LegalRun, OneGame, Bounded, Fold, NoticesOf, Run, Next, Lobby, Joins, Additions, Enabled;
    var w0 := Run(Start(c), before);
    var w1 := Next(w0, AddPlayer(n));
    var w2 := Run(w1, joins);
    EmptyLobby(c);
    HealthyStart(c);
    HealthyRun(Start(c), before);
    ConfigFixedRun(Start(c), before);
    JoinsMirrored(Start(c), before);
    HealthyNext(w0, AddPlayer(n));
    ConfigNext(w0, AddPlayer(n));
    JoinerHasTheRoom(w0, n, names);
    HealthyRun(w1, joins);
    ConfigFixedRun(w1, joins);
    JoinsMirrored(w1, joins);
    GameMirrored(w2, game);
    var snapshot := [PlayerAdded(n)] + Additions(names);
    FoldConcat(c, map[], snapshot, NoticesOf(w1, joins));
    FoldConcat(c, map[], snapshot + NoticesOf(w1, joins), NoticesOf(w2, game));
  }

  lemma EmptyLobby(c: Config)
    ensures Lobby(c, Start(c).state.players) && Start(c).state.config == c
  {
  }

  // ----- getting back in step -----

  // The fields that only upgrades change.
  predicate SameUpgrades(ps: Players, qs: Players) {
    ps.Keys == qs.Keys
    && forall n <- ps :: ps[n].knifeDamage == qs[n].knifeDamage && ps[n].horseDamage == qs[n].horseDamage && ps[n].maxHp == qs[n].maxHp
  }

  lemma SameUpgradesAfter(c: Config, ps: Players, qs: Players, lists: map<Name, seq<UpgradeItem>>)
    requires SameUpgrades(ps, qs) && AllApply(c, qs, lists) && SoundRoom(c, qs)
    ensures AllApply(c, ps, lists)
    ensures PreparedRoom(UpgradedRoom(ps, lists)) == PreparedRoom(UpgradedRoom(qs, lists))
  {
    hide ApplyUpgrades, Upgraded, Sound, Prepared, Seat;
    forall n <- lists ensures n in ps && ApplyUpgrades(c, ps[n], lists[n]).Some? {
      SameListsApply(c, ps[n], qs[n], lists[n]);
    }
    var a, b := UpgradedRoom(ps, lists), UpgradedRoom(qs, lists);
    assert a.Keys == b.Keys;
    forall n <- a ensures PreparedRoom(a)[n] == PreparedRoom(b)[n] {
      SamePrepared(ps[n], qs[n], if n in lists then lists[n] else [], Seat(a.Keys, n), n in lists);
    }
    assert PreparedRoom(a).Keys == PreparedRoom(b).Keys;
  }

  lemma SameListsApply(c: Config, p: Stats, q: Stats, list: seq<UpgradeItem>)
    requires p.knifeDamage == q.knifeDamage && p.horseDamage == q.horseDamage && p.maxHp == q.maxHp && Sound(c, q)
    ensures ApplyUpgrades(c, q, list).Some? ==> ApplyUpgrades(c, p, list).Some?
  {
    UpgradesSucceed(c, q, list);
    UpgradesSucceed(c, p, list);
  }

  lemma SamePrepared(p: Stats, q: Stats, list: seq<UpgradeItem>, seat: int, upgraded: bool)
    requires p.knifeDamage == q.knifeDamage && p.horseDamage == q.horseDamage && p.maxHp == q.maxHp
    ensures Prepared(if upgraded then Upgraded(p, list) else p, seat) == Prepared(if upgraded then Upgraded(q, list) else q, seat)
  {
  }

  lemma EventKeepsUpgrades(w: World, e: Event)
    requires Healthy(w) && Legal(w, e) && KeepsPlayers(w.state, e) && !EndsGame(Step(w.state, e).sent) && !RoundCloses(w, e)
    ensures SameUpgrades(w.state.players, Next(w, e).state.players)
  {
    hide Step, Inv, OnlyAsked, Waiting, NextKills, EndsGame, KindMatches, PreparedRoom, Enabled, Perform;
    StepRoom(w.state, e);
    if !Enabled(w.state, e) {
      DisabledStep(w.state, e);
    } else if e.RoundStart? {
      PreparedSame(w.state.players);
    } else if e.ActionReply? {
      PerformSame(w.state, w.kills, e);
    } else if e.UpgradeReply? {
      PendingUpgrade(w.state, w.kills, e);
    }
  }

  lemma PreparedSame(ps: Players)
    ensures SameUpgrades(ps, PreparedRoom(ps))
  {
  }

  lemma PerformSame(s: State, kills: multiset<Name>, e: Event)
    requires Inv(s, kills) && e.ActionReply? && Enabled(s, e)
    ensures SameUpgrades(s.players, Perform(s.config, s.players, e.name, e.action, e.toPlayer, e.toPlace))
  {
    InvMatch(s, kills);
    PerformEvolves(s.config, s.players, e.name, e.action, e.toPlayer, e.toPlace);
    hide Perform, Inv, Feasible, Credited;
    forall n <- s.players ensures SameBuild(s.players[n], Perform(s.config, s.players, e.name, e.action, e.toPlayer, e.toPlace)[n]) {}
  }

  lemma PendingUpgrade(s: State, kills: multiset<Name>, e: Event)
    requires Inv(s, kills) && e.UpgradeReply? && Enabled(s, e) && !EndsGame(Step(s, e).sent)
    requires Step(s, e).state.phase != BeforeRoundStart
    ensures Step(s, e).state.players == s.players
  {
    hide FinishUpgrade, Inv, UpgradesFit, SoundRoom, EndsGame, Notices, Step, Enabled, UpgradeFeasible, DefaultUpgrades, UpgradedRoom;
    PlayersEnabled(s, e);
    UpgradeStepIs(s, kills, e);
    ClosingNotices(Submitted(s, e));
  }

  lemma SameUpgradesOn(ps: Players, qs: Players, rs: Players)
    requires SameUpgrades(ps, qs) && SameUpgrades(qs, rs)
    ensures SameUpgrades(ps, rs)
  {
  }

  lemma {:induction false} RoundKeepsUpgrades(w: World, es: seq<Event>)
    requires Healthy(w) && LegalRun(w, es) && OneGame(w, es) && RoundsClosed(w, es) == 0
    ensures SameUpgrades(w.state.players, Run(w, es).state.players)
    decreases |es|
  {
    hide Healthy, Next, Legal, KeepsPlayers, EndsGame, RoundCloses;
    if es != [] {
      EventKeepsUpgrades(w, es[0]);
      HealthyNext(w, es[0]);
      RoundKeepsUpgrades(Next(w, es[0]), es[1..]);
      SameUpgradesOn(w.state.players, Next(w, es[0]).state.players, Run(w, es).state.players);
    }
  }

  // However much of a round a client has missed: the lists announced when the round closes apply to
  // its stale room, and after the next round start its room is the server's again.
  lemma Resynchronises(w: World, round: seq<Event>, e: Event, mirror: Players)
    requires Healthy(w) && SameUpgrades(mirror, w.state.players)
    requires LegalRun(w, round) && OneGame(w, round) && RoundsClosed(w, round) == 0
    requires var v := Run(w, round);
             Legal(v, e) && KeepsPlayers(v.state, e) && !EndsGame(Step(v.state, e).sent) && RoundCloses(v, e)
    ensures var v := Run(w, round); var c := w.state.config;
            && Notices(v.state, e) != [] && Handle(c, mirror, Notices(v.state, e)[0]).Some?
            && Notices(v.state, e) == [Notices(v.state, e)[0]]
            && Fold(c, mirror, Notices(v.state, e) + [RoundStarted]) == Some(PreparedRoom(Next(v, e).state.players))
  {
    hide Healthy, LegalRun, OneGame, RoundsClosed, Run, EndsGame, Legal, SameUpgrades, PreparedRoom, UpgradedRoom, AllApply, Handle;
    var v := Run(w, round);
    RoundKeepsUpgrades(w, round);
    SameUpgradesOn(mirror, w.state.players, v.state.players);
    HealthyRun(w, round);
    ConfigFixedRun(w, round);
    CloseResynchronises(v, e, mirror);
  }

  lemma CloseIsUpgrade(v: World, e: Event)
    requires RoundCloses(v, e)
    ensures e.UpgradeReply? && Enabled(v.state, e)
  {
  }

  lemma FinishResynchronises(t: State, mirror: Players)
    requires UpgradesFit(t) && SoundRoom(t.config, t.players) && SameUpgrades(mirror, t.players)
    requires !EndsGame(FinishUpgrade(t).sent) && t.phase != BeforeRoundStart && FinishUpgrade(t).state.phase == BeforeRoundStart
    ensures var ms := Broadcasts(FinishUpgrade(t).sent);
            && |ms| == 1 && Handle(t.config, mirror, ms[0]).Some?
            && Fold(t.config, mirror, ms + [RoundStarted]) == Some(PreparedRoom(FinishUpgrade(t).state.players))
  {
    hide FinishUpgrade, UpgradesFit, SoundRoom, AllApply, UpgradedRoom, PreparedRoom, EndsGame, SameUpgrades, Fold;
    ClosingNotices(t);
    FeasibleUpgradesApply(t);
    BroadcastUpgrades(t.upgrades);
    SameUpgradesAfter(t.config, mirror, t.players, t.upgrades);
    FoldOne(t.config, mirror, UpgradesMade(t.upgrades));
    FoldConcat(t.config, mirror, [UpgradesMade(t.upgrades)], [RoundStarted]);
    FoldOne(t.config, UpgradedRoom(mirror, t.upgrades), RoundStarted);
  }

  lemma CloseResynchronises(v: World, e: Event, mirror: Players)
    requires Healthy(v) && SameUpgrades(mirror, v.state.players) && RoundCloses(v, e) && !EndsGame(Step(v.state, e).sent)
    ensures var ms := Notices(v.state, e);
            && |ms| == 1 && Handle(v.state.config, mirror, ms[0]).Some?
            && Fold(v.state.config, mirror, ms + [RoundStarted]) == Some(PreparedRoom(Next(v, e).state.players))
  {
    CloseIsUpgrade(v, e);
    hide FinishUpgrade, Inv, OnlyAsked, Waiting, UpgradesFit, SoundRoom, PreparedRoom, EndsGame, SameUpgrades, NextKills,
      Fold, Handle, Notices, Step, Broadcasts, Enabled, UpgradeFeasible, DefaultUpgrades;
    PlayersEnabled(v.state, e);
    UpgradeStepIs(v.state, v.kills, e);
    FinishResynchronises(Submitted(v.state, e), mirror);
  }
}
