/**
  Matches of two players, played out from the empty room by legal replies only. One of them, in which
  nothing can be upgraded, ends with a stalled engine: the exception to the absence of deadlocks is
  reached.
 */
module TwoPlayers {
  import opened Basics
  import opened Rules
  import opened RuleFacts
  import opened Rps
  import opened Machine
  import opened Accounting
  import opened Invariants
  import opened Steps
  import opened Runs
  import opened Configuration

  // ----- the match -----

  const FIRST: Name := 1
  const SECOND: Name := 2

  // x wins the right to act and acts.
  function Turn(x: Name, a: Action, to: Name, place: int): seq<Event> {
    [RpsReply(FIRST, if x == FIRST then Rock else Scissors), RpsReply(SECOND, if x == FIRST then Scissors else Rock),
     ActionReply(x, a, to, place)]
  }

  // The first player buys a knife, and both walk to the Village.
  function Gathering(): seq<Event> {
    [AddPlayer(FIRST), AddPlayer(SECOND), RoundStart]
    + Turn(FIRST, BuyKnife, 0, 0) + Turn(FIRST, Move, 0, VILLAGE) + Turn(SECOND, Move, 0, VILLAGE)
  }

  // There the first player slashes the second until it is dead.
  function Beating(c: Config, hp: int): seq<Event>
    requires c.initialKnifeDamage > 0
    decreases hp + 1
  {
    var left := hp - c.initialKnifeDamage;
    Turn(FIRST, Slash, SECOND, 0) + if c.DeadAt(left) then [] else Beating(c, left)
  }

  function StallingMatch(c: Config): seq<Event>
    requires c.initialKnifeDamage > 0
  {
    Gathering() + Beating(c, c.initialMaxHp)
  }

  // ----- one turn -----

  // Both are asked for throws, and nobody has thrown.
  ghost predicate Ready(w: World, c: Config, ps: Players) {
    && Healthy(w) && w.state.config == c && w.state.players == ps && ps.Keys == {FIRST, SECOND}
    && w.state.phase == RpsForAction && w.state.rpsReplies == map[] && w.state.Alive() == ps.Keys
  }

  ghost predicate Half(w: World, c: Config, ps: Players, t: Throw) {
    && Healthy(w) && w.state.config == c && w.state.players == ps && ps.Keys == {FIRST, SECOND}
    && w.state.phase == RpsForAction && w.state.rpsReplies == map[FIRST := t] && w.state.Alive() == ps.Keys
  }

  // It is x's turn, the only one there is.
  ghost predicate Sole(w: World, c: Config, ps: Players, x: Name) {
    && Healthy(w) && w.state.config == c && w.state.players == ps && ps.Keys == {FIRST, SECOND} && x in ps
    && w.state.phase == InAction && w.state.confirmed == map[1 := x] && w.state.current == w.state.orders == 1
    && w.state.Alive() == ps.Keys
  }

  lemma AwaitedIsLegal(w: World, e: Event)
    requires Healthy(w) && IsReply(e) && ReplyKind(e) == KindOf(w.state.phase) && e.name in Waiting(w.state)
    ensures Legal(w, e) && Healthy(Next(w, e)) && Enabled(w.state, e)
  {
    assert Legal(w, e) by { hide Inv, Open, Waiting, OnlyAsked; }
    hide *;
    HealthyNext(w, e);
  }

  lemma FirstThrow(w: World, c: Config, ps: Players, t: Throw)
    requires Ready(w, c, ps)
    ensures Legal(w, RpsReply(FIRST, t)) && Half(Next(w, RpsReply(FIRST, t)), c, ps, t)
  {
    AwaitedIsLegal(w, RpsReply(FIRST, t));
    hide Healthy, Legal, StartActionOrder, StartRpsForAction;
    assert |{FIRST, SECOND}| == 2;
  }

  lemma SecondThrow(w: World, c: Config, ps: Players, x: Name, t: Throw, u: Throw)
    requires Half(w, c, ps, t) && x in {FIRST, SECOND}
    requires (t, u) == if x == FIRST then (Rock, Scissors) else (Scissors, Rock)
    ensures Legal(w, RpsReply(SECOND, u)) && Sole(Next(w, RpsReply(SECOND, u)), c, ps, x)
  {
    AwaitedIsLegal(w, RpsReply(SECOND, u));
    assert |{FIRST, SECOND}| == 2;
    hide Healthy, Legal, Step, Enabled;
    BothThrown(w.state, x, t, u);
  }

  lemma BothThrown(s: State, x: Name, t: Throw, u: Throw)
    requires Enabled(s, RpsReply(SECOND, u)) && s.phase == RpsForAction && s.rpsReplies == map[FIRST := t]
    requires s.Alive() == {FIRST, SECOND} && x in {FIRST, SECOND}
    requires (t, u) == if x == FIRST then (Rock, Scissors) else (Scissors, Rock)
    ensures var v := Step(s, RpsReply(SECOND, u)).state;
            && v.phase == InAction && v.confirmed == map[1 := x] && v.current == v.orders == 1
            && v.config == s.config && v.players == s.players
  {
    var throws := s.rpsReplies[SECOND := u];
    assert |{FIRST, SECOND}| == 2;
    assert |throws| == 2 by { assert throws.Keys == {FIRST, SECOND}; }
    assert throws == if x == FIRST then map[FIRST := Rock, SECOND := Scissors] else map[FIRST := Scissors, SECOND := Rock];
    var v := s.(rpsReplies := throws);
    var o := v.(winners := {x}, chances := 1, orders := 1, confirmed := map[], yielded := map[]);
    assert v.Alive() == s.Alive() == o.Alive() && !RoundOver(s.config, s.players);
    hide *;
    Decided(throws, x);
    ThrowStepIs(s, SECOND, u);
    LastThrow(v, x);
    OnlyOrder(o, x);
  }

  lemma LastThrow(s: State, x: Name)
    requires |s.rpsReplies| == |s.Alive()| && Winners(s.rpsReplies) == {x} && |Losers(s.rpsReplies)| == 1
    ensures JudgeRpsForAction(s).state == StartActionOrder(s.(winners := {x}, chances := 1, orders := 1, confirmed := map[], yielded := map[])).state
  {
    hide StartActionOrder, StartRpsForAction, Winners, Losers;
  }

  lemma Decided(throws: Throws, x: Name)
    requires x in {FIRST, SECOND}
    requires throws == if x == FIRST then map[FIRST := Rock, SECOND := Scissors] else map[FIRST := Scissors, SECOND := Rock]
    ensures Winners(throws) == {x} && |Losers(throws)| == 1
  {
    assert ThrowsUsed(throws) == {Rock, Scissors} by { assert throws[FIRST] in ThrowsUsed(throws) && throws[SECOND] in ThrowsUsed(throws); }
    WinnersOfTwo(throws, Rock, Scissors);
    assert ThrownBy(throws, Rock) == {x};
    assert |throws.Keys| == |{FIRST, SECOND}|;
  }

  // With one winner and one loser there is one order, and it is dealt at once.
  lemma OnlyOrder(s: State, x: Name)
    requires s.winners == {x} && s.chances == 1 && s.orders == 1 && s.confirmed == map[]
    requires x in s.Alive() && !RoundOver(s.config, s.players)
    ensures var t := StartActionOrder(s).state;
            t.phase == InAction && t.confirmed == map[1 := x] && t.current == t.orders == 1 && t.config == s.config && t.players == s.players
  {
    DealtIsOne(s, x);
    hide Dealt, Striving, RoundOver, StartUpgrade, StartRpsForAction;
    var u := s.(confirmed := map[1 := x], current := 0);
    assert NextTurn(u, 1) == Some(1);
  }

  lemma DealtIsOne(s: State, x: Name)
    requires s.winners == {x} && s.chances == 1 && s.orders == 1 && s.confirmed == map[]
    ensures Dealt(s) == map[1 := x]
  {
    OneIsOwed(s, x);
    DealOne(x);
    SortedUnique({x}, [x]);
    assert map[x := 1].Keys == {x} && map[] + map[1 := x] == map[1 := x];
    hide Sorted, Unsettled, Free, Deal;
  }

  lemma OneIsOwed(s: State, x: Name)
    requires s.winners == {x} && s.chances == 1 && s.orders == 1 && s.confirmed == map[]
    ensures Unsettled(s) == map[x := 1] && Free(s) == [1]
  {
    assert OrdersOf(s.confirmed, x) == {};
    assert s.confirmed.Keys == {};
    assert FreeOrders(1, {}) == FreeOrders(0, {}) + [1] == [1];
  }

  lemma DealOne(x: Name)
    ensures Deal([x], map[x := 1], [1]) == map[1 := x]
  {
    assert [x][1..] == [] && [1][..1] == [1] && [1][1..] == [];
    assert Deal([], map[x := 1], []) == map[];
  }

  lemma Acts(w: World, c: Config, ps: Players, x: Name, a: Action, to: Name, place: int)
    requires Sole(w, c, ps, x) && x in ps
    ensures var e := ActionReply(x, a, to, place); var qs := Perform(c, ps, x, a, to, place); var v := Next(w, e);
            && Legal(w, e) && Healthy(v) && v.state.config == c && v.state.players == qs
            && (AliveNames(c, qs) == ps.Keys ==> Ready(v, c, qs))
            && (|AliveNames(c, qs)| <= 1 && c.Capacity() == 0 ==> Stalled(v.state))
  {
    SoleIsAwaited(w, c, ps, x);
    hide Healthy, Legal, Perform, Step, Enabled, Sole, Ready, Stalled, AliveNames, Running, Waiting, NextKills;
    var e := ActionReply(x, a, to, place);
    var qs := Perform(c, ps, x, a, to, place);
    AwaitedIsLegal(w, e);
    LastTurn(w.state, e);
    if |AliveNames(c, qs)| <= 1 {
      StallsWhenOver(w, e);
    } else if AliveNames(c, qs) == ps.Keys {
      ReadyAgain(Next(w, e), c, qs);
    }
  }

  lemma LastTurn(s: State, e: Event)
    requires Enabled(s, e) && e.ActionReply? && s.current == s.orders
    ensures e.name in s.players
    ensures var qs := Perform(s.config, s.players, e.name, e.action, e.toPlayer, e.toPlace); var t := Step(s, e).state;
            && t.config == s.config && t.players == qs
            && if |AliveNames(s.config, qs)| <= 1 then !Running(t) else t.phase == RpsForAction && t.rpsReplies == map[]
  {
    hide Perform, Feasible, Step, Enabled, StartAction, AliveNames;
    ActionStepIs(s, e);
    ActionRoom(s, e);
    var u := s.(players := Perform(s.config, s.players, e.name, e.action, e.toPlayer, e.toPlace));
    if |AliveNames(s.config, u.players)| > 1 { ThrowsAgain(u); }
  }

  lemma ReadyAgain(w: World, c: Config, ps: Players)
    requires Healthy(w) && w.state.config == c && w.state.players == ps && ps.Keys == {FIRST, SECOND}
    requires w.state.phase == RpsForAction && w.state.rpsReplies == map[] && AliveNames(c, ps) == ps.Keys
    ensures Ready(w, c, ps)
  {
    hide Healthy;
  }

  lemma SoleIsAwaited(w: World, c: Config, ps: Players, x: Name)
    requires Sole(w, c, ps, x)
    ensures ps.Keys == {FIRST, SECOND} && x in ps && x in Waiting(w.state) && !Stalled(w.state) && Healthy(w) && KindOf(InAction) == AskAction
    ensures w.state.config == c && w.state.players == ps && w.state.phase == InAction && w.state.current == w.state.orders
  {
    hide Healthy;
    assert |{FIRST, SECOND}| == 2;
  }

  lemma StallsWhenOver(w: World, e: Event)
    requires Healthy(w) && w.state.phase == InAction && !Stalled(w.state) && e.ActionReply? && Enabled(w.state, e)
    requires e.name in w.state.players && !Running(Step(w.state, e).state)
    ensures Stalled(Step(w.state, e).state) <==> w.state.config.Capacity() == 0
  {
    hide Step, Stalled, Running, Enabled, Inv;
    RoundEndsInUpgrade(w.state, w.kills, e);
  }

  lemma ThrowsAgain(s: State)
    requires s.current == s.orders && !RoundOver(s.config, s.players)
    ensures var t := StartAction(s).state; t.phase == RpsForAction && t.rpsReplies == map[]
  {
    hide Sorted, RoundOver, StartUpgrade;
    assert NextTurn(s, s.current + 1) == None;
  }

  lemma TurnPlays(w: World, c: Config, ps: Players, x: Name, a: Action, to: Name, place: int)
    requires Ready(w, c, ps) && x in {FIRST, SECOND}
    ensures LegalRun(w, Turn(x, a, to, place))
    ensures var v := Run(w, Turn(x, a, to, place)); var qs := Perform(c, ps, x, a, to, place);
            && (AliveNames(c, qs) == ps.Keys ==> Ready(v, c, qs))
            && (|AliveNames(c, qs)| <= 1 && c.Capacity() == 0 ==> Healthy(v) && Stalled(v.state))
  {
    hide *;
    var es := Turn(x, a, to, place);
    InReady(w, c, ps);
    TurnIs(x, a, to, place);
    var t, u := es[0].throw, es[1].throw;
    FirstThrow(w, c, ps, t);
    SecondThrow(Next(w, es[0]), c, ps, x, t, u);
    Acts(Next(Next(w, es[0]), es[1]), c, ps, x, a, to, place);
    ThreeEvents(w, es);
  }

  lemma InReady(w: World, c: Config, ps: Players)
    requires Ready(w, c, ps)
    ensures ps.Keys == {FIRST, SECOND}
  {
  }

  lemma TurnIs(x: Name, a: Action, to: Name, place: int)
    ensures var es := Turn(x, a, to, place);
            && |es| == 3 && es[2] == ActionReply(x, a, to, place)
            && es[0].RpsReply? && es[0].name == FIRST && es[1].RpsReply? && es[1].name == SECOND
            && (es[0].throw, es[1].throw) == if x == FIRST then (Rock, Scissors) else (Scissors, Rock)
  {
  }

  lemma ThreeEvents(w: World, es: seq<Event>)
    requires |es| == 3 && Legal(w, es[0]) && Legal(Next(w, es[0]), es[1]) && Legal(Next(Next(w, es[0]), es[1]), es[2])
    ensures LegalRun(w, es) && Run(w, es) == Next(Next(Next(w, es[0]), es[1]), es[2])
  {
    hide Legal, Next;
    var w2 := Next(Next(w, es[0]), es[1]);
    assert es[1..][1..][1..] == [];
    assert LegalRun(w2, es[1..][1..]) && Run(w2, es[1..][1..]) == Next(w2, es[2]);
    assert LegalRun(Next(w, es[0]), es[1..]) && Run(Next(w, es[0]), es[1..]) == Next(w2, es[2]);
  }

  // One sequence of events after another.
  lemma {:induction false} RunOn(w: World, es: seq<Event>, fs: seq<Event>)
    requires LegalRun(w, es) && LegalRun(Run(w, es), fs)
    ensures LegalRun(w, es + fs) && Run(w, es + fs) == Run(Run(w, es), fs)
    decreases |es|
  {
    hide Legal, Next;
    if es == [] {
      assert es + fs == fs;
    } else {
      assert (es + fs)[0] == es[0] && (es + fs)[1..] == es[1..] + fs;
      RunOn(Next(w, es[0]), es[1..], fs);
    }
  }

  // ----- the match -----

  // The throws after what has been played give FIRST the turn.
  lemma FirstIsAsked(c: Config, es: seq<Event>, ps: Players)
    requires LegalRun(Start(c), es) && Ready(Run(Start(c), es), c, ps)
    ensures var fs := es + [RpsReply(FIRST, Rock)] + [RpsReply(SECOND, Scissors)];
            LegalRun(Start(c), fs) && Sole(Run(Start(c), fs), c, ps, FIRST)
  {
    hide *;
    var w := Run(Start(c), es);
    FirstThrow(w, c, ps, Rock);
    OneEvent(w, RpsReply(FIRST, Rock));
    RunOn(Start(c), es, [RpsReply(FIRST, Rock)]);
    var v := Next(w, RpsReply(FIRST, Rock));
    SecondThrow(v, c, ps, FIRST, Rock, Scissors);
    OneEvent(v, RpsReply(SECOND, Scissors));
    RunOn(Start(c), es + [RpsReply(FIRST, Rock)], [RpsReply(SECOND, Scissors)]);
  }

  lemma OneEvent(w: World, e: Event)
    requires Legal(w, e)
    ensures LegalRun(w, [e]) && Run(w, [e]) == Next(w, e)
  {
    hide Legal, Next;
    assert [e][1..] == [];
  }

  // Where they stand, and what they carry, in the Village.
  predicate Gathered(c: Config, ps: Players) {
    && ps.Keys == {FIRST, SECOND} && AliveNames(c, ps) == ps.Keys
    && ps[FIRST].hasKnife && ps[FIRST].knifeDamage == c.initialKnifeDamage
    && ps[FIRST].place == VILLAGE && ps[SECOND].place == VILLAGE
  }

  function Seated(c: Config): Players {
    map[FIRST := Prepared(Fresh(c), 1), SECOND := Prepared(Fresh(c), 2)]
  }

  function InVillage(c: Config): Players {
    map[FIRST := Prepared(Fresh(c), 1).(hasKnife := true, place := VILLAGE), SECOND := Prepared(Fresh(c), 2).(place := VILLAGE)]
  }

  lemma CommandIsLegal(w: World, e: Event)
    requires Healthy(w) && !IsReply(e)
    ensures Legal(w, e) && Healthy(Next(w, e))
  {
    hide Healthy, Next;
    HealthyNext(w, e);
  }

  lemma TheySitDown(c: Config)
    requires c.Playable()
    ensures var es := [AddPlayer(FIRST), AddPlayer(SECOND), RoundStart];
            LegalRun(Start(c), es) && Ready(Run(Start(c), es), c, Seated(c))
  {
    var es := [AddPlayer(FIRST), AddPlayer(SECOND), RoundStart];
    var w0 := Start(c);
    hide Healthy, LegalRun, Run, Legal, Next, Seated;
    HealthyStart(c);
    CommandIsLegal(w0, es[0]);
    CommandIsLegal(Next(w0, es[0]), es[1]);
    CommandIsLegal(Next(Next(w0, es[0]), es[1]), es[2]);
    ThreeEvents(w0, es);
    BothJoin(c);
  }

  lemma BothJoin(c: Config)
    requires c.Playable()
    ensures var w1 := Next(Start(c), AddPlayer(FIRST)); var w2 := Next(w1, AddPlayer(SECOND)); var t := Next(w2, RoundStart).state;
            && t.config == c && t.players == Seated(c) && t.players.Keys == {FIRST, SECOND}
            && t.phase == RpsForAction && t.rpsReplies == map[] && t.Alive() == {FIRST, SECOND}
  {
    hide NextKills, Sorted, Seated, PreparedRoom;
    var s1 := Step(Initial(c), AddPlayer(FIRST)).state;
    assert s1.players == map[FIRST := Fresh(c)];
    var s2 := Step(s1, AddPlayer(SECOND)).state;
    assert s2.players == map[FIRST := Fresh(c), SECOND := Fresh(c)];
    TakeSeats(c);
    hide AliveNames;
    assert s2.players.Keys == {FIRST, SECOND};
    assert |s2.players| == 2;
  }

  lemma TakeSeats(c: Config)
    requires c.Playable()
    ensures PreparedRoom(map[FIRST := Fresh(c), SECOND := Fresh(c)]) == Seated(c) && AliveNames(c, Seated(c)) == {FIRST, SECOND}
  {
    var names := (map[FIRST := Fresh(c), SECOND := Fresh(c)]).Keys;
    assert names == {FIRST, SECOND};
    assert Before(names, FIRST) == {} && Before(names, SECOND) == {FIRST};
  }

  lemma TheyGather(c: Config)
    requires c.Playable()
    ensures LegalRun(Start(c), Gathering()) && Ready(Run(Start(c), Gathering()), c, InVillage(c))
  {
    var p0 := Seated(c);
    var p1 := p0[FIRST := p0[FIRST].(hasKnife := true)];
    var p2 := p1[FIRST := p1[FIRST].(place := VILLAGE)];
    TheirWay(c, p0, p1, p2);
    var es0 := [AddPlayer(FIRST), AddPlayer(SECOND), RoundStart];
    var es1, es2, es3 := Turn(FIRST, BuyKnife, 0, 0), Turn(FIRST, Move, 0, VILLAGE), Turn(SECOND, Move, 0, VILLAGE);
    assert Gathering() == es0 + es1 + es2 + es3;
    hide *;
    TheySitDown(c);
    OneMore(c, es0, p0, FIRST, BuyKnife, 0, 0, p1);
    OneMore(c, es0 + es1, p1, FIRST, Move, 0, VILLAGE, p2);
    OneMore(c, es0 + es1 + es2, p2, SECOND, Move, 0, VILLAGE, InVillage(c));
  }

  lemma TheirWay(c: Config, p0: Players, p1: Players, p2: Players)
    requires c.Playable() && p0 == Seated(c)
    requires p1 == p0[FIRST := p0[FIRST].(hasKnife := true)] && p2 == p1[FIRST := p1[FIRST].(place := VILLAGE)]
    ensures p0.Keys == p1.Keys == p2.Keys == InVillage(c).Keys == {FIRST, SECOND}
    ensures Perform(c, p0, FIRST, BuyKnife, 0, 0) == p1
    ensures Perform(c, p1, FIRST, Move, 0, VILLAGE) == p2
    ensures Perform(c, p2, SECOND, Move, 0, VILLAGE) == InVillage(c)
    ensures AliveNames(c, p1) == p0.Keys && AliveNames(c, p2) == p0.Keys && AliveNames(c, InVillage(c)) == p0.Keys
  {
  }

  // A turn that leaves both alive, after what has been played.
  lemma OneMore(c: Config, es: seq<Event>, ps: Players, x: Name, a: Action, to: Name, place: int, qs: Players)
    requires LegalRun(Start(c), es) && Ready(Run(Start(c), es), c, ps) && x in {FIRST, SECOND} && x in ps
    requires Perform(c, ps, x, a, to, place) == qs && AliveNames(c, qs) == ps.Keys
    ensures LegalRun(Start(c), es + Turn(x, a, to, place)) && Ready(Run(Start(c), es + Turn(x, a, to, place)), c, qs)
  {
    hide *;
    TurnPlays(Run(Start(c), es), c, ps, x, a, to, place);
    RunOn(Start(c), es, Turn(x, a, to, place));
  }

  // A slash in the Village costs the slasher nothing.
  lemma VillageSlash(c: Config, ps: Players)
    requires Gathered(c, ps) && c.initialKnifeDamage > 0
    ensures var qs := Perform(c, ps, FIRST, Slash, SECOND, 0); var left := ps[SECOND].hp - c.initialKnifeDamage;
            && (c.DeadAt(left) ==> |AliveNames(c, qs)| <= 1)
            && (!c.DeadAt(left) ==> Gathered(c, qs) && qs[SECOND].hp == left)
  {
    var left := ps[SECOND].hp - c.initialKnifeDamage;
    assert FIRST in AliveNames(c, ps) && SECOND in AliveNames(c, ps);
    var qs := Perform(c, ps, FIRST, Slash, SECOND, 0);
    if c.DeadAt(left) {
      assert AliveNames(c, qs) <= {FIRST};
      SubsetSize(AliveNames(c, qs), {FIRST});
    } else {
      assert qs == ps[SECOND := ps[SECOND].(hp := left)];
      assert AliveNames(c, qs) == {FIRST, SECOND};
    }
  }

  lemma {:induction false} BeatenToDeath(w: World, c: Config, ps: Players, hp: int)
    requires Ready(w, c, ps) && Gathered(c, ps) && c.initialKnifeDamage > 0 && c.Capacity() == 0 && hp == ps[SECOND].hp
    ensures LegalRun(w, Beating(c, hp)) && Healthy(Run(w, Beating(c, hp))) && Stalled(Run(w, Beating(c, hp)).state)
    decreases hp + 1
  {
    hide *;
    var slash := Turn(FIRST, Slash, SECOND, 0);
    var left := hp - c.initialKnifeDamage;
    InReady(w, c, ps);
    VillageSlash(c, ps);
    TurnPlays(w, c, ps, FIRST, Slash, SECOND, 0);
    BeatingIs(c, hp);
    if c.DeadAt(left) {
      assert slash + [] == slash;
    } else {
      var qs := Perform(c, ps, FIRST, Slash, SECOND, 0);
      BothAlive(c, qs);
      BeatenToDeath(Run(w, slash), c, qs, left);
      RunOn(w, slash, Beating(c, left));
    }
  }

  lemma BeatingIs(c: Config, hp: int)
    requires c.initialKnifeDamage > 0
    ensures var left := hp - c.initialKnifeDamage;
            && Beating(c, hp) == Turn(FIRST, Slash, SECOND, 0) + (if c.DeadAt(left) then [] else Beating(c, left))
            && (!c.DeadAt(left) ==> left >= 0)
  {
    hide Turn;
  }

  lemma BothAlive(c: Config, ps: Players)
    requires Gathered(c, ps)
    ensures AliveNames(c, ps) == ps.Keys == {FIRST, SECOND}
  {
  }

  // In every configuration that leaves nothing to upgrade and gives a knife any damage, a legal
  // match from the empty room leads to an engine that waits for nobody, in the middle of a round.
  lemma StallIsReached(c: Config)
    requires c.Playable() && c.Capacity() == 0 && c.initialKnifeDamage > 0
    ensures LegalRun(Start(c), StallingMatch(c))
    ensures var s := Run(Start(c), StallingMatch(c)).state; Stalled(s) && s.phase == InAction && Waiting(s) == {}
  {
    TheyGather(c);
    assert InVillage(c).Keys == {FIRST, SECOND} && AliveNames(c, InVillage(c)) == {FIRST, SECOND};
    var w := Run(Start(c), Gathering());
    BeatenToDeath(w, c, InVillage(c), c.initialMaxHp);
    hide LegalRun, Run, Ready, Healthy, Gathering, Beating, Stalled;
    RunOn(Start(c), Gathering(), Beating(c, c.initialMaxHp));
    StalledWaits(Run(w, Beating(c, c.initialMaxHp)).state);
  }

  // Such a configuration: everything is one and stays one.
  const FIXED_STATS := Config(1, 1, 1, 1, 1, 1, 0, RoundDown, true, true, false)

  lemma FixedStatsStall()
    ensures FIXED_STATS.Ordered() && LegalRun(Start(FIXED_STATS), StallingMatch(FIXED_STATS))
    ensures StallingMatch(FIXED_STATS) == Gathering() + Turn(FIRST, Slash, SECOND, 0)
    ensures Stalled(Run(Start(FIXED_STATS), StallingMatch(FIXED_STATS)).state)
  {
    hide Turn, Gathering, LegalRun, Run, Stalled;
    StallIsReached(FIXED_STATS);
    assert FIXED_STATS.DeadAt(0);
    assert Turn(FIRST, Slash, SECOND, 0) + [] == Turn(FIRST, Slash, SECOND, 0);
  }
}
