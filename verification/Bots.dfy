/**
  The two style bots: whatever scores they give their peers, every answer they work out on an equal
  mirror is one the engine accepts as sent.
 */
module Bots {
  import opened Basics
  import opened Rules
  import opened RuleFacts
  import opened Machine
  import opened Accounting
  import opened Invariants
  import opened Steps
  import opened Runs
  import opened Contests
  import opened Mirror
  import opened Defaults
  import opened ActionPhase
  import TwoPlayers

  // ----- choosing whom to act against; scores are any numbers -----

  // A peer with the best positive score among the living, if any scores at all.
  ghost predicate Rated(alive: seq<Name>, self: Name, score: Name -> real, target: Option<Name>) {
    && (target.Some? <==> exists n :: n in alive && n != self && score(n) > 0.0)
    && (target.Some? ==>
          && target.value in alive && target.value != self
          && forall n | n in alive && n != self :: score(n) <= score(target.value))
  }

  // An opponent in the same place, the best scored if any of them scores, if one stands there at all.
  ghost predicate Struck(ps: Players, opponents: seq<Name>, self: Name, score: Name -> real, target: Option<Name>)
    requires self in ps && forall n <- opponents :: n in ps
  {
    && (target.Some? <==> exists n :: n in opponents && ps[n].place == ps[self].place)
    && (target.Some? ==>
          && target.value in opponents && ps[target.value].place == ps[self].place
          && forall n | n in opponents && ps[n].place == ps[self].place && score(n) > 0.0 :: score(n) <= score(target.value))
  }

  method SelectTarget(alive: seq<Name>, self: Name, score: Name -> real) returns (target: Option<Name>)
    ensures Rated(alive, self, score, target)
  {
    target := None;
    var best := 0.0;
    for i := 0 to |alive|
      invariant best >= 0.0
      invariant target.None? ==> best == 0.0
      invariant target.Some? ==> target.value in alive[..i] && target.value != self && best == score(target.value) > 0.0
      invariant forall n | n in alive[..i] && n != self :: score(n) <= best
    {
      if alive[i] != self && score(alive[i]) > best {
        best := score(alive[i]);
        target := Some(alive[i]);
      }
    }
    assert alive[..|alive|] == alive;
  }

  function Others(alive: seq<Name>, self: Name): (r: seq<Name>)
    ensures forall n :: n in r <==> n in alive && n != self
  {
    if alive == [] then [] else (if alive[0] != self then [alive[0]] else []) + Others(alive[1..], self)
  }

  lemma {:induction false} OthersSnoc(alive: seq<Name>, n: Name, self: Name)
    ensures Others(alive + [n], self) == Others(alive, self) + if n != self then [n] else []
  {
    if alive == [] {
      assert [n][1..] == [];
    } else {
      assert (alive + [n])[1..] == alive[1..] + [n];
      OthersSnoc(alive[1..], n, self);
    }
  }

  // The living but oneself, in room order.
  method Opponents(alive: seq<Name>, self: Name) returns (result: seq<Name>)
    ensures result == Others(alive, self)
  {
    result := [];
    for i := 0 to |alive|
      invariant result == Others(alive[..i], self)
    {
      OthersSnoc(alive[..i], alive[i], self);
      assert alive[..i + 1] == alive[..i] + [alive[i]];
      if alive[i] != self { result := result + [alive[i]]; }
    }
    assert alive[..|alive|] == alive;
  }

  method AttackTarget(ps: Players, opponents: seq<Name>, self: Name, score: Name -> real) returns (target: Option<Name>)
    requires self in ps && forall n <- opponents :: n in ps
    ensures Struck(ps, opponents, self, score, target)
  {
    var firstHere: Option<Name>, bestScored: Option<Name> := None, None;
    var bestScore := 0.0;
    for i := 0 to |opponents|
      invariant bestScore >= 0.0
      invariant firstHere.None? <==> forall n | n in opponents[..i] :: ps[n].place != ps[self].place
      invariant firstHere.Some? ==> firstHere.value in opponents[..i] && ps[firstHere.value].place == ps[self].place
      invariant bestScored.None? ==> bestScore == 0.0
      invariant bestScored.Some? ==> bestScored.value in opponents[..i] && ps[bestScored.value].place == ps[self].place
      invariant bestScored.Some? ==> bestScore == score(bestScored.value) > 0.0
      invariant forall n | n in opponents[..i] && ps[n].place == ps[self].place && score(n) > 0.0 :: score(n) <= bestScore
    {
      var to := opponents[i];
      if ps[to].place == ps[self].place {
        if firstHere.None? { firstHere := Some(to); }
        if score(to) > bestScore {
          bestScore := score(to);
          bestScored := Some(to);
        }
      }
    }
    assert opponents[..|opponents|] == opponents;
    target := if bestScored.Some? then bestScored else firstHere;
  }

  // ----- actions -----

  datatype Choice = Choice(action: Action, toPlayer: Name, toPlace: int)

  const IDLE := Choice(DoNothing, 0, 0)

  // What the two selections can come up with: a living peer that stands here, and a living peer.
  predicate Sighted(c: Config, ps: Players, self: Name, struck: Option<Name>, rated: Option<Name>, others: seq<Name>) {
    && self in ps && Alive(c, ps[self])
    && (struck.Some? ==> struck.value in ps && struck.value != self && Alive(c, ps[struck.value]) && ps[struck.value].place == ps[self].place)
    && (rated.Some? ==> rated.value in ps && rated.value != self && Alive(c, ps[rated.value]))
    && (forall n <- others :: n in ps && n != self && Alive(c, ps[n]))
  }

  // Everybody stands, and started, on the star map: the Village or one of the cities 1..n.
  predicate OnMap(ps: Players) {
    forall n <- ps :: 0 <= ps[n].place <= |ps| && 0 <= ps[n].initialPlace <= |ps|
  }

  predicate CanSlashSafely(c: Config, ps: Players, self: Name, to: Name)
    requires self in ps && to in ps
  {
    CanSlash(c, ps[self], ps[to], self == to) && !c.DeadAt(ps[self].hp - SlashPunishHp(c, ps[self]))
  }

  function HorseWantedPlace(c: Config, ps: Players, self: Name, rated: Option<Name>, others: seq<Name>): Option<int>
    requires Sighted(c, ps, self, None, rated, others)
  {
    var p := ps[self];
    var shopping := (!p.hasHorse && !CanBuyHorse(c, p)) || (!p.hasKnife && !CanBuyKnife(c, p));
    if rated.Some? && CanMove(c, p, ps[rated.value].place) then Some(ps[rated.value].place)
    else if shopping then Some(p.initialPlace)
    else if rated.Some? then Some(ps[rated.value].place)
    else if others != [] then Some(ps[others[0]].place)
    else None
  }

  function HorseAction(c: Config, ps: Players, self: Name, struck: Option<Name>, rated: Option<Name>, others: seq<Name>): Choice
    requires Sighted(c, ps, self, struck, rated, others)
  {
    var p := ps[self];
    if struck.Some? && CanKick(c, p, ps[struck.value], self == struck.value) then Choice(Kick, struck.value, 0)
    else if struck.Some? && CanSlashSafely(c, ps, self, struck.value) then Choice(Slash, struck.value, 0)
    else if !p.hasHorse && CanBuyHorse(c, p) then Choice(BuyHorse, 0, 0)
    else if p.place != VILLAGE && rated.Some? && CanLetMove(c, p, ps[rated.value], self == rated.value, p.place) then
      Choice(LetMove, rated.value, p.place)
    else if !p.hasKnife && CanBuyKnife(c, p) then Choice(BuyKnife, 0, 0)
    else
      match HorseWantedPlace(c, ps, self, rated, others)
      case None => IDLE
      case Some(wanted) =>
        var dest := if CanMove(c, p, wanted) then wanted else VILLAGE;
        if CanMove(c, p, dest) then Choice(Move, 0, dest) else IDLE
  }

  predicate TwoSlashesFinishEveryone(c: Config, ps: Players, self: Name)
    requires self in ps
  {
    forall n <- ps :: Alive(c, ps[n]) && n != self ==> ps[self].knifeDamage * 2 >= ps[n].maxHp
  }

  function PeerBlow(to: Stats): int {
    var knife := if to.hasKnife then to.knifeDamage else 0;
    if to.hasHorse && to.place != VILLAGE && to.horseDamage > knife then to.horseDamage else knife
  }

  predicate SlashIsWorthItsPunish(c: Config, ps: Players, self: Name, to: Name)
    requires self in ps && to in ps
  {
    && CanSlash(c, ps[self], ps[to], self == to)
    && TwoSlashesFinishEveryone(c, ps, self)
    && ps[to].hp <= ps[self].knifeDamage
    && PeerBlow(ps[to]) < ps[self].maxHp
    && |AliveNames(c, ps)| <= 2
  }

  // What the loop below finds, in closed form: from the Village every city is one step away, the
  // first one included; from a city none is.
  function FirstCity(c: Config, p: Stats, seatCount: nat): Option<int> {
    if seatCount >= 1 && CanMove(c, p, 1) then Some(1) else None
  }

  // The first city one step away, counting from 1; the knife bot's walk to a shop.
  method CityToShopIn(c: Config, p: Stats, seatCount: nat) returns (city: Option<int>)
    ensures city == FirstCity(c, p, seatCount)
    ensures city.None? <==> forall i | 1 <= i <= seatCount :: !CanMove(c, p, i)
    ensures city.Some? ==> 1 <= city.value <= seatCount && CanMove(c, p, city.value)
  {
    for place := 1 to seatCount + 1
      invariant forall i | 1 <= i < place :: !CanMove(c, p, i)
    {
      if CanMove(c, p, place) { return Some(place); }
    }
    return None;
  }

  function KnifeMarch(c: Config, ps: Players, self: Name, rated: Option<Name>, others: seq<Name>): Choice
    requires Sighted(c, ps, self, None, rated, others)
  {
    var goal := if rated.Some? then rated else if others != [] then Some(others[0]) else None;
    match goal
    case None => IDLE
    case Some(n) =>
      var dest := if ps[self].place == VILLAGE then ps[n].place else VILLAGE;
      if CanMove(c, ps[self], dest) then Choice(Move, 0, dest) else IDLE
  }

  function KnifeAction(c: Config, ps: Players, self: Name, struck: Option<Name>, rated: Option<Name>, others: seq<Name>): Choice
    requires Sighted(c, ps, self, struck, rated, others)
  {
    var p := ps[self];
    if !p.hasKnife && CanBuyKnife(c, p) then Choice(BuyKnife, 0, 0)
    else if !p.hasKnife && FirstCity(c, p, |ps|).Some? then Choice(Move, 0, FirstCity(c, p, |ps|).value)
    else if struck.Some? && (CanSlashSafely(c, ps, self, struck.value) || SlashIsWorthItsPunish(c, ps, self, struck.value)) then
      Choice(Slash, struck.value, 0)
    else if struck.Some? && CanKick(c, p, ps[struck.value], self == struck.value) then Choice(Kick, struck.value, 0)
    else if !TwoSlashesFinishEveryone(c, ps, self) && CanBuyHorse(c, p) then Choice(BuyHorse, 0, 0)
    else KnifeMarch(c, ps, self, rated, others)
  }

  // Whatever the scores, the two selections made among the living come up with what they should.
  lemma SelectionsAreSighted(c: Config, ps: Players, self: Name, score: Name -> real, struck: Option<Name>, rated: Option<Name>)
    requires self in ps && Alive(c, ps[self])
    requires Rated(Sorted(AliveNames(c, ps)), self, score, rated)
    requires Struck(ps, Others(Sorted(AliveNames(c, ps)), self), self, score, struck)
    ensures Sighted(c, ps, self, struck, rated, Others(Sorted(AliveNames(c, ps)), self))
  {
  }

  predicate LegalChoice(c: Config, ps: Players, self: Name, x: Choice)
    requires self in ps
  {
    Feasible(c, ps, self, x.action, x.toPlayer, x.toPlace) && (NeedsPlace(x.action) ==> 0 <= x.toPlace <= |ps|)
  }

  lemma HorseActionIsLegal(c: Config, ps: Players, self: Name, struck: Option<Name>, rated: Option<Name>, others: seq<Name>)
    requires Sighted(c, ps, self, struck, rated, others) && OnMap(ps)
    ensures LegalChoice(c, ps, self, HorseAction(c, ps, self, struck, rated, others))
  {
  }

  lemma KnifeActionIsLegal(c: Config, ps: Players, self: Name, struck: Option<Name>, rated: Option<Name>, others: seq<Name>)
    requires Sighted(c, ps, self, struck, rated, others) && OnMap(ps)
    ensures LegalChoice(c, ps, self, KnifeAction(c, ps, self, struck, rated, others))
  {
  }

  // What the horse style likes best: a kick, then a safe slash, then its horse; then it pulls its
  // victim to where it stands, outside the Village; only then comes the knife.
  lemma HorsePrefers(c: Config, ps: Players, self: Name, struck: Option<Name>, rated: Option<Name>, others: seq<Name>)
    requires Sighted(c, ps, self, struck, rated, others)
    ensures var x, p := HorseAction(c, ps, self, struck, rated, others), ps[self];
            var kick := struck.Some? && Feasible(c, ps, self, Kick, struck.value, 0);
            var slash := struck.Some? && Feasible(c, ps, self, Slash, struck.value, 0) && !c.DeadAt(p.hp - SlashPunishHp(c, p));
            var horse := Feasible(c, ps, self, BuyHorse, 0, 0);
            var pull := rated.Some? && p.place != VILLAGE && Feasible(c, ps, self, LetMove, rated.value, p.place);
            var knife := Feasible(c, ps, self, BuyKnife, 0, 0);
            if kick then x == Choice(Kick, struck.value, 0)
            else if slash then x == Choice(Slash, struck.value, 0)
            else if horse then x == Choice(BuyHorse, 0, 0)
            else if pull then x == Choice(LetMove, rated.value, p.place)
            else if knife then x == Choice(BuyKnife, 0, 0)
            else x.action == Move || x == IDLE
  {
  }

  // A walk into a city leads to a living peer or back to the shops; any other goes to the Village.
  lemma WalksLeadSomewhere(c: Config, ps: Players, self: Name, struck: Option<Name>, rated: Option<Name>, others: seq<Name>)
    requires Sighted(c, ps, self, struck, rated, others)
    ensures var x := HorseAction(c, ps, self, struck, rated, others);
            x.action == Move && x.toPlace != VILLAGE ==>
              x.toPlace == ps[self].initialPlace || exists n <- ps :: n != self && Alive(c, ps[n]) && ps[n].place == x.toPlace
    ensures var x := KnifeAction(c, ps, self, struck, rated, others);
            x.action == Move && x.toPlace != VILLAGE ==>
              (!ps[self].hasKnife && x.toPlace == 1) || exists n <- ps :: n != self && Alive(c, ps[n]) && ps[n].place == x.toPlace
  {
    hide CanKick, CanSlash, CanLetMove, SlashPunishHp;
    assert others != [] ==> others[0] in others;
  }

  // What the knife style likes best: its knife, or a step to where one is sold; then a slash that is
  // safe or worth its punish, then a kick; and a horse only while somebody would survive two slashes.
  lemma KnifePrefers(c: Config, ps: Players, self: Name, struck: Option<Name>, rated: Option<Name>, others: seq<Name>)
    requires Sighted(c, ps, self, struck, rated, others)
    ensures var x, p := KnifeAction(c, ps, self, struck, rated, others), ps[self];
            var slash := struck.Some? && Feasible(c, ps, self, Slash, struck.value, 0)
                         && (!c.DeadAt(p.hp - SlashPunishHp(c, p)) || SlashIsWorthItsPunish(c, ps, self, struck.value));
            if Feasible(c, ps, self, BuyKnife, 0, 0) then x == Choice(BuyKnife, 0, 0)
            else if !p.hasKnife && p.place == VILLAGE && |ps| >= 1 then x == Choice(Move, 0, 1)
            else if slash then x == Choice(Slash, struck.value, 0)
            else if struck.Some? && Feasible(c, ps, self, Kick, struck.value, 0) then x == Choice(Kick, struck.value, 0)
            else if Feasible(c, ps, self, BuyHorse, 0, 0) && exists n <- ps :: n != self && Alive(c, ps[n]) && 2 * p.knifeDamage < ps[n].maxHp
                 then x == Choice(BuyHorse, 0, 0)
            else x.action == Move || x == IDLE
  {
  }

  // The two handlers, selections and all: an answer that is legal on the map as it stands.
  method HorseAnswer(c: Config, ps: Players, self: Name, alive: seq<Name>, score: Name -> real) returns (x: Choice)
    requires self in ps && Alive(c, ps[self]) && OnMap(ps) && alive == Sorted(AliveNames(c, ps))
    ensures LegalChoice(c, ps, self, x)
    ensures exists struck, rated :: Rated(alive, self, score, rated) && Struck(ps, Others(alive, self), self, score, struck)
              && Sighted(c, ps, self, struck, rated, Others(alive, self)) && x == HorseAction(c, ps, self, struck, rated, Others(alive, self))
  {
    var others := Opponents(alive, self);
    var struck := AttackTarget(ps, others, self, score);
    var rated := SelectTarget(alive, self, score);
    SelectionsAreSighted(c, ps, self, score, struck, rated);
    hide HorseAction, LegalChoice, Sighted, OnMap, Rated, Struck;
    HorseActionIsLegal(c, ps, self, struck, rated, others);
    x := HorseAction(c, ps, self, struck, rated, others);
  }

  method KnifeAnswer(c: Config, ps: Players, self: Name, alive: seq<Name>, score: Name -> real) returns (x: Choice)
    requires self in ps && Alive(c, ps[self]) && OnMap(ps) && alive == Sorted(AliveNames(c, ps))
    ensures LegalChoice(c, ps, self, x)
    ensures exists struck, rated :: Rated(alive, self, score, rated) && Struck(ps, Others(alive, self), self, score, struck)
              && Sighted(c, ps, self, struck, rated, Others(alive, self)) && x == KnifeAction(c, ps, self, struck, rated, Others(alive, self))
  {
    var others := Opponents(alive, self);
    var struck := AttackTarget(ps, others, self, score);
    var rated := SelectTarget(alive, self, score);
    SelectionsAreSighted(c, ps, self, score, struck, rated);
    hide KnifeAction, LegalChoice, Sighted, OnMap, Rated, Struck;
    KnifeActionIsLegal(c, ps, self, struck, rated, others);
    x := KnifeAction(c, ps, self, struck, rated, others);
  }

  // A horse bot never slashes itself to death.
  lemma HorseBotSurvivesItsSlash(c: Config, ps: Players, self: Name, struck: Option<Name>, rated: Option<Name>, others: seq<Name>)
    requires Sighted(c, ps, self, struck, rated, others) && SoundRoom(c, ps) && c.Ordered()
    requires HorseAction(c, ps, self, struck, rated, others).action == Slash
    ensures Alive(c, Perform(c, ps, self, Slash, HorseAction(c, ps, self, struck, rated, others).toPlayer, 0)[self])
  {
    assert Feasible(c, ps, self, Slash, struck.value, 0);
    SlashCredit(c, ps, self, struck.value);
  }

  // The knife bot's reckless slash is meant to finish the peer off. It does exactly when zero HP is
  // death in this match or the blow takes the peer below zero.
  lemma RecklessSlashKills(c: Config, ps: Players, self: Name, to: Name)
    requires self in ps && to in ps && SoundRoom(c, ps) && c.Ordered()
    requires SlashIsWorthItsPunish(c, ps, self, to)
    ensures !Alive(c, Perform(c, ps, self, Slash, to, 0)[to]) <==> c.zeroHpAsDead || ps[to].hp < ps[self].knifeDamage
  {
    SlashCredit(c, ps, self, to);
  }

  // The other case, in a room that a match of two comes to: zero HP is not death, the two have
  // met in FIRST's city, SECOND has one blow's worth of HP left. The knife style takes the slash; it
  // costs FIRST its life and leaves SECOND alive at zero.
  const LAST_LEGS := Config(4, 4, 1, 1, 8, 8, 1, PlusOne, false, true, false)

  function Encounter(): Players {
    map[1 := Stats(true, false, 8, 1, 1, 4, 1, 8, 0), 2 := Stats(false, false, 4, 1, 2, 4, 1, 8, 0)]
  }

  function TheWayThere(): seq<Event> {
    TwoPlayers.Gathering() + TwoPlayers.Turn(1, Slash, 2, 0) + TwoPlayers.Turn(1, Move, 0, 1) + TwoPlayers.Turn(2, Move, 0, 1)
    + [RpsReply(1, Rock)] + [RpsReply(2, Scissors)]
  }

  lemma RecklessSlashSpares(rated: Option<Name>)
    requires rated.Some? ==> rated.value == 2
    ensures LegalRun(Start(LAST_LEGS), TheWayThere())
    ensures var s := Run(Start(LAST_LEGS), TheWayThere()).state;
            s.players == Encounter() && s.phase == InAction && Waiting(s) == {1} && SlashIsWorthItsPunish(LAST_LEGS, Encounter(), 1, 2)
    ensures Sighted(LAST_LEGS, Encounter(), 1, Some(2), rated, [2]) && KnifeAction(LAST_LEGS, Encounter(), 1, Some(2), rated, [2]) == Choice(Slash, 2, 0)
    ensures var qs := Perform(LAST_LEGS, Encounter(), 1, Slash, 2, 0);
            qs[2].hp == 0 && Alive(LAST_LEGS, qs[2]) && !Alive(LAST_LEGS, qs[1])
  {
    EncounterIs();
    TheyMeet();
    SlashCredit(LAST_LEGS, Encounter(), 1, 2);
  }

  lemma EncounterIs()
    ensures Encounter().Keys == {1, 2} == AliveNames(LAST_LEGS, Encounter())
    ensures SlashIsWorthItsPunish(LAST_LEGS, Encounter(), 1, 2) && SoundRoom(LAST_LEGS, Encounter())
    ensures Feasible(LAST_LEGS, Encounter(), 1, Slash, 2, 0)
    ensures SlashPunishHp(LAST_LEGS, Encounter()[1]) == 9
  {
    assert AliveNames(LAST_LEGS, Encounter()) == {1, 2};
    assert |{1, 2}| == 2;
  }

  lemma TheyMeet()
    ensures LegalRun(Start(LAST_LEGS), TheWayThere())
    ensures var s := Run(Start(LAST_LEGS), TheWayThere()).state; s.players == Encounter() && s.phase == InAction && Waiting(s) == {1}
  {
    var c := LAST_LEGS;
    var p0 := TwoPlayers.InVillage(c);
    var p1 := p0[2 := p0[2].(hp := 4)];
    var p2 := p1[1 := p1[1].(place := 1)];
    FourMovesAhead(p0, p1, p2);
    var es := TwoPlayers.Gathering();
    var slash, home, after := TwoPlayers.Turn(1, Slash, 2, 0), TwoPlayers.Turn(1, Move, 0, 1), TwoPlayers.Turn(2, Move, 0, 1);
    assert TheWayThere() == es + slash + home + after + [RpsReply(1, Rock)] + [RpsReply(2, Scissors)];
    assert c.Playable();
    hide *;
    TwoPlayers.TheyGather(c);
    TwoPlayers.OneMore(c, es, p0, 1, Slash, 2, 0, p1);
    TwoPlayers.OneMore(c, es + slash, p1, 1, Move, 0, 1, p2);
    TwoPlayers.OneMore(c, es + slash + home, p2, 2, Move, 0, 1, Encounter());
    TwoPlayers.FirstIsAsked(c, es + slash + home + after, Encounter());
    SoleWaits(Run(Start(c), TheWayThere()), c);
  }

  lemma SoleWaits(w: World, c: Config)
    requires TwoPlayers.Sole(w, c, Encounter(), 1)
    ensures w.state.players == Encounter() && w.state.phase == InAction && Waiting(w.state) == {1}
  {
    assert |{1, 2}| == 2;
  }

  lemma FourMovesAhead(p0: Players, p1: Players, p2: Players)
    requires p0 == TwoPlayers.InVillage(LAST_LEGS) && p1 == p0[2 := p0[2].(hp := 4)] && p2 == p1[1 := p1[1].(place := 1)]
    ensures Perform(LAST_LEGS, p0, 1, Slash, 2, 0) == p1
    ensures Perform(LAST_LEGS, p1, 1, Move, 0, 1) == p2
    ensures Perform(LAST_LEGS, p2, 2, Move, 0, 1) == Encounter()
    ensures AliveNames(LAST_LEGS, p1) == p0.Keys && AliveNames(LAST_LEGS, p2) == p0.Keys && AliveNames(LAST_LEGS, Encounter()) == p0.Keys
    ensures p0.Keys == p1.Keys == p2.Keys == Encounter().Keys == {1, 2}
  {
  }

  // ----- everybody stays on the map -----

  lemma SeatOnMap(names: set<Name>, n: Name)
    requires n in names
    ensures 1 <= Seat(names, n) <= |names|
  {
    SubsetSize(Before(names, n) + {n}, names);
  }

  lemma PreparedOnMap(ps: Players)
    ensures OnMap(PreparedRoom(ps))
  {
    forall n <- ps ensures 0 <= PreparedRoom(ps)[n].place <= |PreparedRoom(ps)| && 0 <= PreparedRoom(ps)[n].initialPlace <= |PreparedRoom(ps)| {
      SeatOnMap(ps.Keys, n);
      assert |PreparedRoom(ps)| == |PreparedRoom(ps).Keys| == |ps.Keys|;
    }
  }

  // An action puts nobody anywhere but in the Village or at the place it names.
  lemma PerformPlaces(c: Config, ps: Players, n: Name, a: Action, to: Name, place: int, m: Name)
    requires n in ps && m in ps
    ensures var q := Perform(c, ps, n, a, to, place)[m];
            && q.initialPlace == ps[m].initialPlace
            && (q.place == ps[m].place || q.place == VILLAGE || (Feasible(c, ps, n, a, to, place) && NeedsPlace(a) && q.place == place))
  {
    hide SlashPunishHp, Kills, CanSlash, CanKick, CanMove, CanLetMove;
  }

  lemma ActionOnMap(s: State, e: Event)
    requires OnMap(s.players) && e.ActionReply? && Enabled(s, e) && BoundedTarget(s, e)
    ensures OnMap(Perform(s.config, s.players, e.name, e.action, e.toPlayer, e.toPlace))
  {
    var ps := Perform(s.config, s.players, e.name, e.action, e.toPlayer, e.toPlace);
    assert |ps| == |ps.Keys| && |s.players| == |s.players.Keys|;
    hide Perform, Feasible;
    forall m <- ps ensures 0 <= ps[m].place <= |ps| && 0 <= ps[m].initialPlace <= |ps| {
      PerformPlaces(s.config, s.players, e.name, e.action, e.toPlayer, e.toPlace, m);
    }
  }

  predicate RoomOnMap(s: State) {
    s.phase != BeforeRoundStart ==> OnMap(s.players)
  }

  lemma StepOnMap(s: State, e: Event)
    requires RoomOnMap(s) && BoundedTarget(s, e)
    ensures RoomOnMap(Step(s, e).state)
  {
    hide Step, Perform, PreparedRoom, Enabled, OnMap, BoundedTarget;
    StepRoom(s, e);
    if !Enabled(s, e) {
      DisabledStep(s, e);
    } else if e.RoundStart? {
      PreparedOnMap(s.players);
    } else if s.phase == BeforeRoundStart {
      LobbyStays(s, e);
    } else {
      EnabledKinds(s, e);
      if e.ActionReply? {
        ActionOnMap(s, e);
      } else if e.UpgradeReply? && Step(s, e).state.phase != BeforeRoundStart {
        UpgradeUnfinished(s, e);
      }
    }
  }

  // As long as nobody names a place off the map, nobody is off the map.
  lemma {:induction false} OnMapRun(w: World, es: seq<Event>)
    requires RoomOnMap(w.state) && Bounded(w, es)
    ensures RoomOnMap(Run(w, es).state)
    decreases |es|
  {
    hide Step, RoomOnMap, BoundedTarget, NextKills;
    if es != [] {
      StepOnMap(w.state, es[0]);
      OnMapRun(Next(w, es[0]), es[1..]);
    }
  }

  // ----- answers the engine accepts -----

  // The bot's mirror is equal to the room, and the bot is asked to act: both styles' answers are
  // accepted as sent, and every client accepts the action in turn.
  lemma BotActionsAccepted(s: State, kills: multiset<Name>, n: Name, struck: Option<Name>, rated: Option<Name>, others: seq<Name>)
    requires Inv(s, kills) && s.phase == InAction && n in Waiting(s) && OnMap(s.players)
    requires Sighted(s.config, s.players, n, struck, rated, others)
    ensures var h := HorseAction(s.config, s.players, n, struck, rated, others);
            var e := ActionReply(n, h.action, h.toPlayer, h.toPlace);
            Accepted(s, e) && BoundedTarget(s, e)
    ensures var k := KnifeAction(s.config, s.players, n, struck, rated, others);
            var e := ActionReply(n, k.action, k.toPlayer, k.toPlace);
            Accepted(s, e) && BoundedTarget(s, e)
  {
    hide Inv, Waiting, Feasible, HorseAction, KnifeAction, OnMap;
    HorseActionIsLegal(s.config, s.players, n, struck, rated, others);
    KnifeActionIsLegal(s.config, s.players, n, struck, rated, others);
  }

  // So in every state a run can reach, whoever has replied, as long as nobody has named a place off
  // the map: whatever scores a bot gives its peers, the action either style works out when asked is
  // accepted as sent, and stays on the map.
  lemma BotsActByTheRules(c: Config, es: seq<Event>, n: Name, score: Name -> real, struck: Option<Name>, rated: Option<Name>)
    requires c.Playable() && Bounded(Start(c), es)
    requires var s := Run(Start(c), es).state; var alive := Sorted(AliveNames(c, s.players));
             && s.phase == InAction && n in Waiting(s) && n in s.players
             && Rated(alive, n, score, rated) && Struck(s.players, Others(alive, n), n, score, struck)
    ensures var s := Run(Start(c), es).state; var others := Others(Sorted(AliveNames(c, s.players)), n);
            && Sighted(c, s.players, n, struck, rated, others)
            && var h := HorseAction(c, s.players, n, struck, rated, others); var k := KnifeAction(c, s.players, n, struck, rated, others);
               var eh := ActionReply(n, h.action, h.toPlayer, h.toPlace); var ek := ActionReply(n, k.action, k.toPlayer, k.toPlace);
               Accepted(s, eh) && BoundedTarget(s, eh) && Accepted(s, ek) && BoundedTarget(s, ek)
  {
    var s := Run(Start(c), es).state;
    StartIsSeated(c);
    hide *;
    InvRun(Start(c), es);
    ConfigFixedRun(Start(c), es);
    EmptyRoomOnMap(c);
    OnMapRun(Start(c), es);
    ActorOnMap(s, Run(Start(c), es).kills, n);
    SelectionsAreSighted(c, s.players, n, score, struck, rated);
    BotActionsAccepted(s, Run(Start(c), es).kills, n, struck, rated, Others(Sorted(AliveNames(c, s.players)), n));
  }

  lemma EmptyRoomOnMap(c: Config)
    ensures RoomOnMap(Start(c).state) && Start(c).state.config == c
  {
  }

  lemma ActorOnMap(s: State, kills: multiset<Name>, n: Name)
    requires Inv(s, kills) && s.phase == InAction && n in Waiting(s) && RoomOnMap(s)
    ensures n in s.players && Alive(s.config, s.players[n]) && OnMap(s.players)
  {
    hide Round, OnMap;
  }

  // The two styles' orders of preference.
  function HorseList(c: Config, p: Stats): seq<UpgradeItem> {
    SpendInOrder(p.upgradePoint, UpgradeHorse, HorseRoom(c, p), UpgradeKnife, KnifeRoom(c, p), UpgradeMaxHp, MaxHpRoom(c, p))
  }

  function KnifeList(c: Config, p: Stats): seq<UpgradeItem> {
    SpendInOrder(p.upgradePoint, UpgradeKnife, KnifeRoom(c, p), UpgradeMaxHp, MaxHpRoom(c, p), UpgradeHorse, HorseRoom(c, p))
  }

  lemma ListsAreFeasible(c: Config, p: Stats)
    requires Sound(c, p) && 0 <= p.upgradePoint <= UpgradeRoom(c, p)
    ensures UpgradeFeasible(c, p, HorseList(c, p)) && UpgradeFeasible(c, p, KnifeList(c, p))
  {
    hide SpendInOrder;
    SpendInOrderFits(p.upgradePoint, UpgradeHorse, HorseRoom(c, p), UpgradeKnife, KnifeRoom(c, p), UpgradeMaxHp, MaxHpRoom(c, p));
    SpendInOrderFits(p.upgradePoint, UpgradeKnife, KnifeRoom(c, p), UpgradeMaxHp, MaxHpRoom(c, p), UpgradeHorse, HorseRoom(c, p));
  }

  // The horse style spends on the horse first, then the knife; the knife style on the knife first,
  // then max HP; what is left over goes to the third.
  lemma ListsByPreference(c: Config, p: Stats)
    requires Sound(c, p) && 0 <= p.upgradePoint <= UpgradeRoom(c, p)
    ensures var l := HorseList(c, p);
            && |l| == p.upgradePoint && Count(l, UpgradeHorse) == Min(p.upgradePoint, c.maximumHorseDamage - p.horseDamage)
            && Count(l, UpgradeKnife) == Min(p.upgradePoint - Count(l, UpgradeHorse), c.maximumKnifeDamage - p.knifeDamage)
    ensures var l := KnifeList(c, p);
            && |l| == p.upgradePoint && Count(l, UpgradeKnife) == Min(p.upgradePoint, c.maximumKnifeDamage - p.knifeDamage)
            && Count(l, UpgradeMaxHp) == Min(p.upgradePoint - Count(l, UpgradeKnife), c.maximumMaxHp - p.maxHp)
  {
    hide SpendInOrder, Count;
    SpentInOrder(p.upgradePoint, UpgradeHorse, HorseRoom(c, p), UpgradeKnife, KnifeRoom(c, p), UpgradeMaxHp, MaxHpRoom(c, p));
    SpentInOrder(p.upgradePoint, UpgradeKnife, KnifeRoom(c, p), UpgradeMaxHp, MaxHpRoom(c, p), UpgradeHorse, HorseRoom(c, p));
  }

  // The room left in a player's three statistics covers its points, so a bot never gives up, and
  // the list it builds is accepted as sent.
  lemma BotUpgradesAccepted(s: State, kills: multiset<Name>, n: Name)
    requires Inv(s, kills) && s.phase == InUpgrade && n in Waiting(s)
    ensures n in s.players
    ensures var p := s.players[n]; var c := s.config;
            && p.upgradePoint <= HorseRoom(c, p) + KnifeRoom(c, p) + MaxHpRoom(c, p)
            && Accepted(s, UpgradeReply(n, HorseList(c, p))) && Accepted(s, UpgradeReply(n, KnifeList(c, p)))
  {
    hide Inv, UpgradeFeasible, HorseList, KnifeList, Sound;
    PointsFit(s, kills, n);
    ListsAreFeasible(s.config, s.players[n]);
  }

  lemma PointsFit(s: State, kills: multiset<Name>, n: Name)
    requires Inv(s, kills) && s.phase == InUpgrade && n in Waiting(s)
    ensures n in s.players && Sound(s.config, s.players[n]) && 0 <= s.players[n].upgradePoint <= UpgradeRoom(s.config, s.players[n])
  {
    assert s.players[n].upgradePoint == Earned(s.config, s.players[n], kills[n]);
  }

  // ----- picks -----

  // The first or the last of the offered orders, as many as are asked for. Sorting is a library
  // call; `offers` is its result.
  function DesiredActionOrders(offers: seq<int>, selections: int, holdBack: bool): seq<int> {
    var count := Min(selections, |offers|);
    if count <= 0 then [] else if holdBack then offers[|offers| - count..] else offers[..count]
  }

  // Held back, the orders asked for come after all others on offer; else they come before them.
  lemma DesiredAtOneEnd(offers: seq<int>, selections: int, holdBack: bool, o: int, u: int)
    requires Ascending(offers) && selections >= 0
    ensures var picks := DesiredActionOrders(offers, selections, holdBack);
            && |picks| == Min(selections, |offers|) && (forall x <- picks :: x in offers)
            && (o in picks && u in offers && u !in picks ==> if holdBack then u < o else o < u)
  {
    var k := Min(selections, |offers|);
    var m := |offers| - k;
    AscendingSplit(offers, k);
    AscendingSplit(offers, m);
    HeadBeforeTail(offers, k);
    HeadBeforeTail(offers, m);
    hide Ascending;
  }

  ghost predicate SortedFrom(offers: seq<int>, remained: seq<int>) {
    multiset(offers) == multiset(remained) && forall i, j | 0 <= i < j < |offers| :: offers[i] <= offers[j]
  }

  lemma LastIsGreatest(a: seq<int>, b: seq<int>)
    requires multiset(a) == multiset(b) && a != []
    requires forall i, j | 0 <= i < j < |a| :: a[i] <= a[j]
    requires forall i, j | 0 <= i < j < |b| :: b[i] <= b[j]
    ensures |a| == |b| && a[|a| - 1] == b[|b| - 1]
  {
    assert |multiset(a)| == |multiset(b)|;
    assert a[|a| - 1] in multiset(b) && b[|b| - 1] in multiset(a);
  }

  lemma DropLast(a: seq<int>)
    requires a != []
    ensures a == a[..|a| - 1] + [a[|a| - 1]] && multiset(a[..|a| - 1]) == multiset(a) - multiset{a[|a| - 1]}
  {
    var front := a[..|a| - 1];
    assert a == front + [a[|a| - 1]];
    assert multiset(a) == multiset(front) + multiset{a[|a| - 1]};
  }

  lemma {:induction false} SortedIsSame(offers: seq<int>, remained: seq<int>)
    requires SortedFrom(offers, remained) && Ascending(remained)
    ensures offers == remained
    decreases |offers|
  {
    if offers == [] {
      assert |multiset(remained)| == 0;
    } else {
      LastIsGreatest(offers, remained);
      DropLast(offers);
      DropLast(remained);
      SortedIsSame(offers[..|offers| - 1], remained[..|remained| - 1]);
    }
  }

  lemma FreeSuffix(s: State, k: int)
    requires 0 <= k <= |Free(s)|
    ensures GoodPicks(s, k, Free(s)[|Free(s)| - k..])
  {
    FreeOrdersAre(s.orders, s.confirmed.Keys);
    var picks := Free(s)[|Free(s)| - k..];
    forall o <- picks ensures GoodOrder(s, o) {
      assert o in Free(s);
    }
  }

  lemma EitherEndIsGood(s: State, n: Name, holdBack: bool)
    requires Picking(s) && n in s.remaining
    ensures GoodPicks(s, s.remaining[n], DesiredActionOrders(Free(s), s.remaining[n], holdBack))
  {
    OfferSuffices(s, n);
    hide Picking, Free, GoodPicks;
    FreePrefix(s, s.remaining[n]);
    FreeSuffix(s, s.remaining[n]);
  }

  lemma OffersAreFree(s: State, offers: seq<int>)
    requires SortedFrom(offers, Free(s))
    ensures offers == Free(s)
  {
    FreeOrdersAre(s.orders, s.confirmed.Keys);
    SortedIsSame(offers, Free(s));
  }

  // Early or late, the orders a bot asks for are accepted as sent.
  lemma BotPicksAccepted(s: State, kills: multiset<Name>, n: Name, offers: seq<int>, holdBack: bool)
    requires Inv(s, kills) && s.phase == ActionOrder && n in s.remaining
    requires SortedFrom(offers, Free(s))
    ensures Accepted(s, ActionOrderReply(n, DesiredActionOrders(offers, s.remaining[n], holdBack)))
  {
    hide *;
    NowPicking(s, kills);
    OffersAreFree(s, offers);
    EitherEndIsGood(s, n, holdBack);
    GoodPicksAccepted(s, n, DesiredActionOrders(offers, s.remaining[n], holdBack));
  }

  // Asked for picks or upgrades at any point of any run, whoever has replied before.
  lemma BotsPickByTheRules(c: Config, es: seq<Event>, n: Name, offers: seq<int>, holdBack: bool)
    requires c.Playable()
    ensures var s := Run(Start(c), es).state;
            s.phase == ActionOrder && n in s.remaining && SortedFrom(offers, Free(s))
            ==> Accepted(s, ActionOrderReply(n, DesiredActionOrders(offers, s.remaining[n], holdBack)))
    ensures var s := Run(Start(c), es).state;
            s.phase == InUpgrade && n in Waiting(s)
            ==> n in s.players && Accepted(s, UpgradeReply(n, HorseList(c, s.players[n]))) && Accepted(s, UpgradeReply(n, KnifeList(c, s.players[n])))
  {
    var s := Run(Start(c), es).state;
    StartIsSeated(c);
    hide *;
    EmptyRoomOnMap(c);
    InvRun(Start(c), es);
    ConfigFixedRun(Start(c), es);
    if s.phase == ActionOrder && n in s.remaining && SortedFrom(offers, Free(s)) {
      BotPicksAccepted(s, Run(Start(c), es).kills, n, offers, holdBack);
    }
    if s.phase == InUpgrade && n in Waiting(s) { BotUpgradesAccepted(s, Run(Start(c), es).kills, n); }
  }

  lemma GoodPicksAccepted(s: State, n: Name, orders: seq<int>)
    requires s.phase == ActionOrder && n in s.remaining && n in s.players && GoodPicks(s, s.remaining[n], orders)
    ensures Accepted(s, ActionOrderReply(n, orders))
  {
    hide GoodPicks;
  }
}
