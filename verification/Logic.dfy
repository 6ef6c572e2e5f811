/**
  The class Logic: the fields of LogicP, updated in place by its phase functions and reply slots.
  Every method is proved to do what the transition system of Machine.dfy says, message by message.
 */
module LogicClass {
  import opened Basics
  import opened Rules
  import opened RuleFacts
  import opened Rps
  import opened Machine
  import opened Accounting
  import opened Invariants
  import opened Steps
  import opened RoomClasses
  import opened LogicLoops
  import M = Machine

  // How often each winner is listed.
  function ChancesOf(winners: seq<Name>): nat {
    if winners == [] then 0 else multiset(winners)[winners[0]]
  }

  lemma UniformIs(l: seq<Name>, s: set<Name>, k: nat)
    requires Uniform(l, s, k) && l != []
    ensures Members(l) == s && ChancesOf(l) == k && |l| == |s| * k
  {
    forall n ensures n in l <==> n in s {
      assert n in l <==> multiset(l)[n] > 0;
      assert multiset(l)[l[0]] > 0;
    }
  }

  lemma UniformNone()
    ensures Uniform([], Members([]), ChancesOf([]))
  {
  }

  // What startActionOrder counts is what the negotiation is about.
  lemma OwedIs(s: State, winners: seq<Name>, counts: map<Name, int>, owed: map<Name, int>)
    requires Negotiable(s) && s.winners == Members(winners) && Uniform(winners, s.winners, s.chances)
    requires forall n :: n in counts <==> n in winners
    requires forall n <- counts :: counts[n] == multiset(winners)[n] - |OrdersOf(s.confirmed, n)|
    requires owed == map p | p in counts && counts[p] != 0 :: counts[p]
    ensures owed == Unsettled(s)
    ensures Striving(s) == map p | p in owed && owed[p] - CountOf(s.yielded, p) > 0 :: owed[p] - CountOf(s.yielded, p)
    ensures (forall p <- owed :: owed[p] >= 0) && Sum(owed.Keys, owed) == |Free(s)|
  {
    hide *;
    forall p ensures p in counts <==> p in s.winners { ListedIsMember(winners, p); }
    forall p | p in s.winners ensures counts[p] == Owed(s, p) >= CountOf(s.yielded, p) >= 0 {
      UniformCount(winners, s.winners, s.chances, p);
      OwedCovers(s, p);
    }
    CountsAreOwed(s, counts, owed);
    OwedAddsUp(s);
  }

  lemma ListedIsMember(l: seq<Name>, p: Name)
    ensures p in l <==> p in Members(l)
  {
  }

  lemma OwedCovers(s: State, p: Name)
    requires Negotiable(s) && p in s.winners
    ensures s.chances - |OrdersOf(s.confirmed, p)| == Owed(s, p) >= CountOf(s.yielded, p) >= 0
  {
    assert |OrdersOf(s.confirmed, p)| + CountOf(s.yielded, p) <= s.chances;
  }

  lemma CountsAreOwed(s: State, counts: map<Name, int>, owed: map<Name, int>)
    requires forall p :: p in counts <==> p in s.winners
    requires forall p | p in s.winners :: counts[p] == Owed(s, p) >= CountOf(s.yielded, p) >= 0
    requires owed == map p | p in counts && counts[p] != 0 :: counts[p]
    ensures owed == Unsettled(s)
    ensures Striving(s) == map p | p in owed && owed[p] - CountOf(s.yielded, p) > 0 :: owed[p] - CountOf(s.yielded, p)
    ensures forall p <- owed :: owed[p] >= 0
  {
    hide Owed, CountOf;
  }

  lemma UniformCount(winners: seq<Name>, s: set<Name>, k: nat, p: Name)
    requires Uniform(winners, s, k) && p in s
    ensures multiset(winners)[p] == k
  {
  }

  lemma {:induction false} PickRequestsMore(names: seq<Name>, n: Name, offered: seq<int>, maximum: int, picks: map<Name, int>)
    requires n in picks && forall m <- names :: m in picks
    ensures PickRequests(names + [n], offered, maximum, picks) ==
            PickRequests(names, offered, maximum, picks) + [RequestActionOrder(n, offered, maximum, picks[n])]
    decreases |names|
  {
    if names == [] {
      assert names + [n] == [n] && [n][1..] == [];
    } else {
      assert (names + [n])[1..] == names[1..] + [n];
      PickRequestsMore(names[1..], n, offered, maximum, picks);
    }
  }

  lemma {:induction false} UpgradeRequestsMore(names: seq<Name>, n: Name, ps: Players)
    requires n in ps && forall m <- names :: m in ps
    ensures UpgradeRequests(names + [n], ps) == UpgradeRequests(names, ps) + [RequestUpgrade(n, ps[n].upgradePoint)]
    decreases |names|
  {
    if names == [] {
      assert names + [n] == [n] && [n][1..] == [];
    } else {
      assert (names + [n])[1..] == names[1..] + [n];
      UpgradeRequestsMore(names[1..], n, ps);
    }
  }

  method RequestPicks(names: seq<Name>, offered: seq<int>, maximum: int, picks: map<Name, int>) returns (asked: seq<Message>)
    requires forall n <- names :: n in picks
    ensures asked == PickRequests(names, offered, maximum, picks)
  {
    asked := [];
    for i := 0 to |names|
      invariant asked == PickRequests(names[..i], offered, maximum, picks)
    {
      PickRequestsMore(names[..i], names[i], offered, maximum, picks);
      assert names[..i + 1] == names[..i] + [names[i]];
      asked := asked + [RequestActionOrder(names[i], offered, maximum, picks[names[i]])];
    }
    assert names[..|names|] == names;
  }

  method CountOwed(ghost s: State, winners: seq<Name>, confirmed: map<int, Name>, yielded: map<Name, int>)
    returns (owed: map<Name, int>, striving: map<Name, int>, offers: seq<int>)
    requires Negotiable(s) && s.winners == Members(winners) && Uniform(winners, s.winners, s.chances)
    requires s.orders == |winners| && s.confirmed == confirmed && s.yielded == yielded
    ensures owed == Unsettled(s) && striving == M.Striving(s) && offers == Free(s)
    ensures (forall p <- owed :: owed[p] >= 0) && Sum(owed.Keys, owed) == |offers|
  {
    hide *;
    var counts;
    counts, offers := CountWinners(winners);
    forall o <- confirmed ensures confirmed[o] in counts { OwnersWin(s, o); ListedIsMember(winners, confirmed[o]); }
    counts, offers := DropConfirmed(counts, offers, |winners|, confirmed);
    owed := EraseZeros(counts);
    OwedIs(s, winners, counts, owed);
    striving := StillStriving(owed, yielded);
    FreeIs(s);
  }

  lemma OwnersWin(s: State, o: int)
    requires Negotiable(s) && o in s.confirmed
    ensures s.confirmed[o] in s.winners
  {
  }

  lemma FreeIs(s: State)
    ensures Free(s) == FreeOrders(s.orders, s.confirmed.Keys)
  {
  }

  lemma DealtIs(s: State, m: map<int, Name>)
    requires Negotiable(s)
    requires m == s.confirmed + Deal(Sorted(Unsettled(s).Keys), Unsettled(s), Free(s))
    ensures m == Dealt(s)
    ensures forall k | 1 <= k <= s.orders :: k in m && m[k] in s.players
  {
    DealtIsAllotment(s);
    forall k | 1 <= k <= s.orders ensures k in m && m[k] in s.players { assert k in Upto(s.orders); }
  }

  lemma Emitted(before: seq<Message>, m: Message, rest: seq<Message>)
    ensures before + [m] + rest == before + ([m] + rest)
  {
  }

  lemma NothingKept()
    ensures WellKept(map[]) && Claims(map[]) == map[]
  {
  }

  // The state a negotiation begins in.
  ghost function Opened(s: State): State {
    OpenedWith(s, Winners(s.rpsReplies), |Losers(s.rpsReplies)|)
  }

  ghost function OpenedWith(s: State, winners: set<Name>, chances: nat): State {
    s.(winners := winners, chances := chances, orders := |winners| * chances, confirmed := map[], yielded := map[])
  }

  lemma JudgedWinners(j: Throws, winners: seq<Name>)
    requires Uniform(winners, Winners(j), |Losers(j)|) && (winners == [] <==> |ThrowsUsed(j)| != 2)
    ensures winners == [] <==> Winners(j) == {}
  {
    WinnersCharacterised(j);
  }

  lemma ClaimsEmpty(d: MultiHash)
    ensures d == map[] <==> Claims(d) == map[]
  {
    assert Claims(d).Keys == d.Keys;
  }

  lemma NowNegotiable(s: State)
    requires Negotiating(s)
    ensures Negotiable(s)
  {
  }

  lemma ClaimantsCount(d: MultiHash, k: int)
    requires WellKept(d)
    ensures |ClaimantsOf(Claims(d), k)| == if k in d then |d[k]| else 0
  {
    if k in d { MembersCount(d[k]); }
  }

  method PointedCount(room: Room) returns (n: nat)
    requires room.Valid()
    ensures n == |Pointed(room.View())|
  {
    n := 0;
    ghost var seen: set<Name> := {};
    hide Ascending;
    for i := 0 to |room.names|
      invariant forall m :: m in seen <==> m in room.names[..i] && m in Pointed(room.View())
      invariant n == |seen|
    {
      AscendingPrefix(room.names, i);
      if room.players[room.names[i]].upgradePoint > 0 {
        n := n + 1;
        seen := seen + {room.names[i]};
      }
    }
    assert room.names[..|room.names|] == room.names;
    assert seen == Pointed(room.View());
  }

  lemma ListsApply(s: State)
    requires SoundRoom(s.config, s.players) && UpgradesFit(s)
    ensures s.upgrades.Keys <= s.players.Keys
    ensures forall n <- s.upgrades :: ApplyUpgrades(s.config, s.players[n], s.upgrades[n]).Some?
  {
    forall n <- s.upgrades ensures n in s.players && ApplyUpgrades(s.config, s.players[n], s.upgrades[n]).Some? {
      assert Sound(s.config, s.players[n]);
      UpgradesSucceed(s.config, s.players[n], s.upgrades[n]);
    }
  }

  // The loop of startAction: on to the next order with a living owner.
  method FindTurn(ghost s: State, room: Room, confirmed: map<int, Name>, current: int, orders: nat) returns (next: Option<int>)
    requires room.Valid() && s.players == room.View() && s.config == room.c && s.confirmed == confirmed && s.orders == orders
    requires 0 <= current
    requires forall k | 1 <= k <= orders :: k in confirmed && confirmed[k] in room.View()
    ensures next == NextTurn(s, current + 1)
    ensures next.Some? ==> next.value in confirmed
  {
    var k := current + 1;
    while k <= orders
      invariant 1 <= k && NextTurn(s, k) == NextTurn(s, current + 1)
      decreases orders - k
    {
      if Alive(room.c, room.players[confirmed[k]].View()) { return Some(k); }
      k := k + 1;
    }
    return None;
  }

  method AskUpgrades(room: Room) returns (asked: seq<Message>)
    requires room.Valid()
    ensures asked == UpgradeRequests(Sorted(Pointed(room.View())), room.View())
    ensures asked == [] <==> Pointed(room.View()) == {}
  {
    hide UpgradeRequests, Ascending;
    asked := [];
    ghost var names: seq<Name> := [];
    EmptyRises();
    NobodyAsked(room.View());
    for i := 0 to |room.names|
      invariant forall n :: n in names <==> n in room.names[..i] && n in Pointed(room.View())
      invariant Ascending(names)
      invariant asked == UpgradeRequests(names, room.View()) && |asked| == |names|
    {
      var p := room.players[room.names[i]];
      AscendingPrefix(room.names, i);
      if p.upgradePoint > 0 {
        UpgradeRequestsMore(names, room.names[i], room.View());
        AscendingAppend(names, room.names[i]);
        asked := asked + [RequestUpgrade(room.names[i], p.upgradePoint)];
        names := names + [room.names[i]];
      }
    }
    assert room.names[..|room.names|] == room.names;
    SortedRises(Pointed(room.View()), names);
    assert names != [] ==> names[0] in Pointed(room.View());
  }

  lemma NobodyAsked(ps: Players)
    ensures UpgradeRequests([], ps) == []
  {
  }

  // ----- what Step does, slot by slot -----

  lemma LobbyStep(s: State, e: Event)
    requires e.AddPlayer? || e.RemovePlayer?
    ensures Accepted(s, e) == Enabled(s, e) == (s.phase == BeforeRoundStart && (e.AddPlayer? <==> e.name !in s.players))
    ensures Step(s, e) == Silent(if !Enabled(s, e) then s
                                 else s.(players := ResetRoom(s.config, if e.AddPlayer? then s.players[e.name := Fresh(s.config)] else s.players - {e.name})))
  {
  }

  lemma RoundStartStep(s: State)
    ensures Accepted(s, RoundStart) == Enabled(s, RoundStart) == (s.phase == BeforeRoundStart && |s.players| >= 2)
    ensures Step(s, RoundStart) == if Enabled(s, RoundStart) then M.StartRpsForAction(s.(players := PreparedRoom(s.players))) else Silent(s)
  {
    hide PreparedRoom, M.StartRpsForAction;
  }

  lemma RoomSize(room: Room)
    requires room.Valid()
    ensures |room.names| == |room.View()|
  {
    DistinctSize(room.names, room.View().Keys);
    assert |room.View().Keys| == |room.View()|;
  }

  lemma RpsStep(s: State, kills: multiset<Name>, n: Name, t: Throw)
    requires Inv(s, kills)
    ensures var e := RpsReply(n, t);
            var first := n in s.players && s.phase == RpsForAction && n !in s.rpsReplies;
            var second := n in s.players && s.phase == RpsForActionOrder && n !in s.orderReplies;
            && Accepted(s, e) == (first || second)
            && (first ==> Step(s, e) == JudgeRpsForAction(s.(rpsReplies := s.rpsReplies[n := t])) && s.rpsReplies.Keys <= s.players.Keys)
            && (second ==> Step(s, e) == JudgeRpsForActionOrder(s.(orderReplies := s.orderReplies[n := t]))
                           && Negotiating(s.(orderReplies := s.orderReplies[n := t])) && s.remaining == map[])
            && (!first && !second ==> Step(s, e) == Silent(s))
  {
    hide JudgeRpsForAction, JudgeRpsForActionOrder, Negotiating, Round, RoundOver, Picking;
    if s.phase == RpsForActionOrder { RepliesAside(s, s.orderReplies[n := t]); }
  }

  lemma PicksStep(s: State, kills: multiset<Name>, n: Name, orders: seq<int>)
    requires Inv(s, kills)
    ensures var e := ActionOrderReply(n, orders);
            var asked := n in s.players && s.phase == ActionOrder && n in s.remaining;
            && Accepted(s, e) == (asked && GoodPicks(s, s.remaining[n], orders))
            && Step(s, e) == (if asked then AdvanceActionOrder(TakePicks(s, n, orders)) else Silent(s))
            && (asked ==> Picking(s) && Negotiating(TakePicks(s, n, orders)))
  {
    hide AdvanceActionOrder, TakePicks, Negotiating, Round, RoundOver, GoodPicks, Throwing;
    if n in s.players && s.phase == ActionOrder && n in s.remaining {
      NowPicking(s, kills);
      TakePicksPicks(s, n, orders);
    }
  }

  ghost function AfterAction(s: State, n: Name, a: Action, to: Name, place: int): State
    requires n in s.players
  {
    s.(players := Perform(s.config, s.players, n, if Feasible(s.config, s.players, n, a, to, place) then a else DoNothing, to, place))
  }

  // What startAction needs of the table, if the round goes on.
  lemma ActionStep(s: State, kills: multiset<Name>, n: Name, a: Action, to: Name, place: int)
    requires Inv(s, kills)
    ensures var e := ActionReply(n, a, to, place);
            var taken := n in s.players && s.phase == InAction;
            && Accepted(s, e) == (taken && Feasible(s.config, s.players, n, a, to, place))
            && Step(s, e) == (if taken
                              then After(ActionResult(n, if Feasible(s.config, s.players, n, a, to, place) then a else DoNothing, to, place),
                                         M.StartAction(AfterAction(s, n, a, to, place)))
                              else Silent(s))
            && (taken && !RoundOver(s.config, AfterAction(s, n, a, to, place).players) ==>
                  0 <= s.current <= s.orders && forall k | 1 <= k <= s.orders :: k in s.confirmed && s.confirmed[k] in s.players)
  {
    hide M.StartAction, Perform, Feasible, Round, Picking, Throwing, Upgrading;
    if n in s.players && s.phase == InAction && !RoundOver(s.config, AfterAction(s, n, a, to, place).players) {
      StillRunning(s, kills, n, a, to, place);
      TableIsFull(s);
    }
  }

  lemma StillRunning(s: State, kills: multiset<Name>, n: Name, a: Action, to: Name, place: int)
    requires Inv(s, kills) && n in s.players && s.phase == InAction && !RoundOver(s.config, AfterAction(s, n, a, to, place).players)
    ensures Acting(s)
  {
    var act := if Feasible(s.config, s.players, n, a, to, place) then a else DoNothing;
    InRound(s, kills);
    ActionKeepsRound(s, kills, n, act, to, place);
    hide Perform, Killers, Round, Feasible, Allotted;
    SubsetSize(AliveNames(s.config, AfterAction(s, n, a, to, place).players), s.Alive());
  }

  lemma InRound(s: State, kills: multiset<Name>)
    requires Inv(s, kills) && s.phase != BeforeRoundStart
    ensures Round(s.config, s.players, kills)
  {
  }

  lemma TableIsFull(s: State)
    requires Acting(s)
    ensures 0 <= s.current <= s.orders && forall k | 1 <= k <= s.orders :: k in s.confirmed && s.confirmed[k] in s.players
  {
    forall k | 1 <= k <= s.orders ensures k in s.confirmed && s.confirmed[k] in s.players { assert k in Upto(s.orders); }
  }

  lemma UpgradeStep(s: State, kills: multiset<Name>, n: Name, items: seq<UpgradeItem>)
    requires Inv(s, kills)
    ensures var e := UpgradeReply(n, items);
            var asked := n in s.players && s.phase == InUpgrade && n !in s.upgrades;
            && Accepted(s, e) == (asked && UpgradeFeasible(s.config, s.players[n], items))
            && (!asked ==> Step(s, e) == Silent(s))
            && (asked ==>
                  var t := s.(upgrades := s.upgrades[n := if UpgradeFeasible(s.config, s.players[n], items) then items
                                                                 else DefaultUpgrades(s.config, s.players[n])]);
                  && Step(s, e) == FinishUpgrade(t) && UpgradesFit(t) && SoundRoom(s.config, s.players)
                  && Sound(s.config, s.players[n]) && s.players[n].upgradePoint >= 0)
  {
    hide FinishUpgrade, UpgradeFeasible, DefaultUpgrades, Round, RoundOver, Pointed, SoundRoom;
    if n in s.players && s.phase == InUpgrade && n !in s.upgrades {
      InRound(s, kills);
      StoredListFits(s, kills, n, items);
      PointsKnown(s, kills, n);
    }
  }

  lemma PointsKnown(s: State, kills: multiset<Name>, n: Name)
    requires Round(s.config, s.players, kills) && n in s.players
    ensures SoundRoom(s.config, s.players) && Sound(s.config, s.players[n]) && s.players[n].upgradePoint >= 0
  {
    assert s.players[n].upgradePoint == Earned(s.config, s.players[n], kills[n]);
  }

  lemma GoodListIs(s: State, selections: int, orders: seq<int>)
    ensures GoodPicks(s, selections, orders) <==> |orders| == selections && GoodList(orders, s.orders, s.confirmed)
  {
  }

  lemma PicksAre(s: State, n: Name, orders: seq<int>, chosen: set<int>, passed: int)
    requires n in s.remaining
    requires chosen == (if GoodPicks(s, s.remaining[n], orders) then Machine.Chosen(orders) else {})
    requires passed == (if GoodPicks(s, s.remaining[n], orders) then Zeros(orders) else s.remaining[n])
    ensures TakePicks(s, n, orders) ==
            s.(desired := Claim(s.desired, chosen, n),
               yielded := if passed > 0 then s.yielded[n := CountOf(s.yielded, n) + passed] else s.yielded,
               remaining := s.remaining - {n})
  {
  }

  lemma UnclaimedBy(s: State, d: MultiHash, n: Name)
    requires Picking(s) && n in s.remaining && s.desired == Claims(d)
    ensures forall o <- d :: n !in d[o]
  {
    forall o <- d ensures n !in d[o] {
      assert o in s.desired && n !in s.desired[o];
    }
  }

  method IsFeasible(room: Room, n: Name, a: Action, to: Name, place: int) returns (ok: bool)
    requires room.Valid() && n in room.View()
    ensures ok == Feasible(room.c, room.View(), n, a, to, place)
  {
    hide Ascending, Alive, CanBuyKnife, CanBuyHorse, CanSlash, CanKick, CanMove, CanLetMove;
    var p := room.players[n];
    match a
    case DoNothing => ok := Alive(room.c, p.View());
    case BuyKnife => ok := CanBuyKnife(room.c, p.View());
    case BuyHorse => ok := CanBuyHorse(room.c, p.View());
    case Slash => ok := to in room.players && CanSlash(room.c, p.View(), room.players[to].View(), n == to);
    case Kick => ok := to in room.players && CanKick(room.c, p.View(), room.players[to].View(), n == to);
    case Move => ok := CanMove(room.c, p.View(), place);
    case LetMove => ok := to in room.players && CanLetMove(room.c, p.View(), room.players[to].View(), n == to, place);
  }

  method CountsFit(c: Config, p: Stats, items: seq<UpgradeItem>) returns (ok: bool)
    ensures ok == UpgradeFeasible(c, p, items)
  {
    var knife, horse, maxHp := 0, 0, 0;
    for i := 0 to |items|
      invariant knife == Count(items[..i], UpgradeKnife) && horse == Count(items[..i], UpgradeHorse) && maxHp == Count(items[..i], UpgradeMaxHp)
    {
      assert items[..i + 1] == items[..i] + [items[i]];
      match items[i]
      case UpgradeKnife => knife := knife + 1;
      case UpgradeHorse => horse := horse + 1;
      case UpgradeMaxHp => maxHp := maxHp + 1;
    }
    assert items[..|items|] == items;
    ok := knife <= KnifeRoom(c, p) && horse <= HorseRoom(c, p) && maxHp <= MaxHpRoom(c, p) && |items| == p.upgradePoint;
  }

  class Logic {
    const config: Config
    const room: Room
    var state: Phase
    var rpsForActionReplies: Throws
    var rpsForActionWinners: seq<Name>
    var desiredActionOrders: MultiHash
    var confirmedActionOrders: map<int, Name>
    var actionOrderRemainingSelections: map<Name, int>
    var actionOrderYields: map<Name, int>
    var currentStrivingActionOrder: int
    var rpsForActionOrderReplies: Throws
    var currentActionOrder: int
    var upgrades: map<Name, seq<UpgradeItem>>
    ghost var sent: seq<Message>
    ghost var kills: multiset<Name>

    ghost predicate Tidy()
      reads this, room
    {
      && room.Valid() && room.c == config
      && WellKept(desiredActionOrders)
      && Uniform(rpsForActionWinners, Members(rpsForActionWinners), ChancesOf(rpsForActionWinners))
    }

    ghost function View(): State
      reads this, room, room.Objects()
    {
      State(config, room.View(), state, rpsForActionReplies,
            Members(rpsForActionWinners), ChancesOf(rpsForActionWinners), |rpsForActionWinners|,
            Claims(desiredActionOrders), confirmedActionOrders, actionOrderRemainingSelections, actionOrderYields,
            currentStrivingActionOrder, rpsForActionOrderReplies, currentActionOrder, upgrades)
    }

    // The fields stand for the outcome's state, and its messages have been emitted.
    ghost predicate Did(o: Outcome, before: seq<Message>)
      reads this, room, room.Objects()
    {
      Tidy() && View() == o.state && sent == before + o.sent
    }

    constructor (c: Config)
      ensures Did(Silent(Initial(c)), []) && config == c && fresh(room)
    {
      config := c;
      room := new Room(c);
      state := BeforeRoundStart;
      rpsForActionReplies := map[];
      rpsForActionWinners := [];
      desiredActionOrders := map[];
      confirmedActionOrders := map[];
      actionOrderRemainingSelections := map[];
      actionOrderYields := map[];
      currentStrivingActionOrder := 0;
      rpsForActionOrderReplies := map[];
      currentActionOrder := 0;
      upgrades := map[];
      sent := [];
      kills := multiset{};
      new;
      UniformNone();
    }

    method StartRpsForAction()
      requires Tidy()
      modifies this
      ensures Did(M.StartRpsForAction(old(View())), old(sent))
    {
      hide Uniform, AliveNames, Sorted, WellKept, Claims, Members, Room.Valid, Room.View;
      NoMembers();
      rpsForActionReplies := map[];
      rpsForActionWinners := [];
      UniformNone();
      state := Phase.RpsForAction;
      var alive := room.AlivePlayerNames();
      sent := sent + [RequestRpsForAction(alive)];
      SameRoom(room);
    }

    method StartUpgrade()
      requires Tidy() && RoundOver(config, room.View())
      modifies this
      ensures Did(M.StartUpgrade(old(View())), old(sent))
    {
      hide Uniform, UpgradeRequests, RoundOver, Sorted, WellKept, Claims, Members, Room.Valid, Room.View;
      upgrades := map[];
      var asked := AskUpgrades(room);
      if asked != [] { state := InUpgrade; }
      sent := sent + asked;
      SameRoom(room);
    }

    method StartAction()
      requires Tidy()
      requires !RoundOver(config, room.View()) ==>
                 0 <= currentActionOrder <= |rpsForActionWinners| &&
                 forall k | 1 <= k <= |rpsForActionWinners| :: k in confirmedActionOrders && confirmedActionOrders[k] in room.View()
      modifies this
      ensures Did(M.StartAction(old(View())), old(sent))
    {
      hide Uniform, Sorted, WellKept, Claims, Members, AliveNames, Room.Valid, Room.View, NextTurn, M.StartUpgrade, M.StartRpsForAction;
      ghost var was := View();
      var alive := room.AlivePlayerNames();
      SameRoom(room);
      if |alive| > 1 {
        var next := FindTurn(was, room, confirmedActionOrders, currentActionOrder, |rpsForActionWinners|);
        SameRoom(room);
        match next
        case Some(k) =>
          currentActionOrder := k;
          state := InAction;
          sent := sent + [RequestAction(confirmedActionOrders[k], k)];
          SameRoom(room);
          assert View() == was.(current := k, phase := InAction);
        case None =>
          currentActionOrder := |rpsForActionWinners| + 1;
          SameRoom(room);
          assert View() == was.(current := was.orders + 1);
          StartRpsForAction();
      } else {
        EndOfRound();
      }
    }

    method EndOfRound()
      requires Tidy() && RoundOver(config, room.View())
      modifies this
      ensures Did(After(RoundIsOver, M.StartUpgrade(old(View()))), old(sent))
    {
      hide Uniform, WellKept, Claims, Members, RoundOver, Room.Valid, Room.View, M.StartUpgrade;
      ghost var was, before := View(), sent;
      sent := sent + [RoundIsOver];
      SameRoom(room);
      assert View() == was;
      StartUpgrade();
      Emitted(before, RoundIsOver, M.StartUpgrade(was).sent);
    }

    // The two ways out of startActionOrder.
    method GiveLeftovers(owed: map<Name, int>, offers: seq<int>)
      requires Tidy() && Negotiable(View())
      requires owed == Unsettled(View()) && offers == Free(View())
      requires (forall p <- owed :: owed[p] >= 0) && Sum(owed.Keys, owed) == |offers|
      modifies this
      ensures Did(After(ActionOrderResult(Dealt(old(View()))), M.StartAction(old(View()).(confirmed := Dealt(old(View())), current := 0))), old(sent))
    {
      hide Uniform, Sorted, WellKept, Claims, Members, Negotiable, Free, Unsettled, Dealt, Deal, RoundOver, Room.Valid, Room.View, M.StartAction;
      ghost var was, before := View(), sent;
      var dealt := HandOut(owed, offers, confirmedActionOrders);
      DealtIs(was, dealt);
      confirmedActionOrders := dealt;
      sent := sent + [ActionOrderResult(dealt)];
      currentActionOrder := 0;
      SameRoom(room);
      assert View() == was.(confirmed := Dealt(was), current := 0);
      StartAction();
      Emitted(before, ActionOrderResult(Dealt(was)), M.StartAction(was.(confirmed := Dealt(was), current := 0)).sent);
    }

    method AskForSelections(striving: map<Name, int>, offers: seq<int>)
      requires Tidy() && striving == M.Striving(View()) && offers == Free(View())
      modifies this
      ensures Did(AskForPicks(old(View())), old(sent))
    {
      hide Uniform, Sorted, WellKept, Claims, Members, Free, M.Striving, Room.Valid, Room.View, PickRequests;
      ghost var was := View();
      desiredActionOrders := map[];
      NothingKept();
      var names := SortNames(striving.Keys);
      actionOrderRemainingSelections := striving;
      state := Phase.ActionOrder;
      var asked := RequestPicks(names, offers, |rpsForActionWinners|, striving);
      sent := sent + asked;
      SameRoom(room);
      assert View() == was.(desired := map[], remaining := M.Striving(was), phase := Phase.ActionOrder);
    }

    method StartActionOrder()
      requires Tidy() && Negotiable(View())
      modifies this
      ensures Did(M.StartActionOrder(old(View())), old(sent))
    {
      hide Uniform, Sorted, WellKept, Claims, Negotiable, Free, Unsettled, M.Striving, Dealt, Room.Valid, Room.View, M.StartAction, PickRequests;
      var owed, striving, offers := CountOwed(View(), rpsForActionWinners, confirmedActionOrders, actionOrderYields);
      SameRoom(room);
      if |Members(rpsForActionWinners)| == 1 || striving == map[] {
        GiveLeftovers(owed, offers);
      } else {
        AskForSelections(striving, offers);
      }
    }

    // Orders with one claimant are that claimant's.
    method SettleUncontested()
      requires Tidy() && Negotiating(View()) && actionOrderRemainingSelections == map[]
      modifies `desiredActionOrders, `confirmedActionOrders
      ensures Tidy() && View() == Settle(old(View())) && Negotiating(View())
    {
      hide Uniform, WellKept, Claims, Members, Negotiating, SettledOrders, Contested, Room.Valid, Room.View;
      ghost var was := View();
      SettleNegotiates(was);
      desiredActionOrders, confirmedActionOrders := SettleSole(desiredActionOrders, confirmedActionOrders);
      SameRoom(room);
      assert View() == Settle(was);
    }

    method StartRpsForActionOrder()
      requires Tidy() && Negotiating(View()) && actionOrderRemainingSelections == map[]
      modifies this
      ensures Did(M.StartRpsForActionOrder(old(View())), old(sent))
    {
      hide Uniform, WellKept, Claims, Members, Negotiating, Negotiable, SettledOrders, Contested, Room.Valid, Room.View, M.StartActionOrder, LowestFrom;
      ghost var was := View();
      SettleUncontested();
      ClaimsEmpty(desiredActionOrders);
      if desiredActionOrders == map[] {
        NowNegotiable(View());
        StartActionOrder();
      } else {
        AskStrivers();
      }
    }

    // The lowest contested order is thrown for next.
    method AskStrivers()
      requires Tidy()
      modifies this
      ensures Did(AskToThrow(old(View()), LowestFrom(old(View()).desired, 1, old(View()).orders)), old(sent))
    {
      hide Uniform, WellKept, Claims, Members, Room.Valid, Room.View, LowestFrom;
      ghost var was := View();
      currentStrivingActionOrder := LowestContested(desiredActionOrders, |rpsForActionWinners|);
      rpsForActionOrderReplies := map[];
      state := Phase.RpsForActionOrder;
      sent := sent + [RequestRpsForActionOrder(ClaimantsOf(Claims(desiredActionOrders), currentStrivingActionOrder), currentStrivingActionOrder)];
      SameRoom(room);
    }

    method ActionOrder()
      requires Tidy() && Negotiating(View())
      modifies this
      ensures Did(AdvanceActionOrder(old(View())), old(sent))
    {
      hide Uniform, WellKept, Claims, Members, Negotiating, Room.Valid, Room.View, M.StartRpsForActionOrder;
      if actionOrderRemainingSelections == map[] { StartRpsForActionOrder(); }
    }

    method RpsForAction()
      requires Tidy() && rpsForActionReplies.Keys <= room.View().Keys
      modifies this
      ensures Did(JudgeRpsForAction(old(View())), old(sent))
    {
      hide Uniform, WellKept, Claims, Members, Sorted, AliveNames, Negotiable, Winners, Losers, Room.Valid, Room.View, M.StartActionOrder, M.StartRpsForAction;
      ghost var was, before := View(), sent;
      var alive := room.AlivePlayerNames();
      SameRoom(room);
      if |rpsForActionReplies| == |alive| {
        sent := sent + [RpsResult(rpsForActionReplies)];
        var winners := RockPaperScissorsWinners(rpsForActionReplies);
        SameRoom(room);
        JudgedWinners(rpsForActionReplies, winners);
        if winners == [] {
          assert View() == was;
          StartRpsForAction();
          Emitted(before, RpsResult(was.rpsReplies), M.StartRpsForAction(was).sent);
        } else {
          BeginNegotiation(winners);
          Emitted(before, RpsResult(was.rpsReplies), sent[|before| + 1..]);
        }
      }
    }

    // The round has its winners: forget the last negotiation and begin one.
    method BeginNegotiation(winners: seq<Name>)
      requires Tidy() && rpsForActionReplies.Keys <= room.View().Keys && winners != [] && Winners(rpsForActionReplies) != {}
      requires Uniform(winners, Winners(rpsForActionReplies), |Losers(rpsForActionReplies)|)
      modifies this
      ensures Did(M.StartActionOrder(Opened(old(View()))), old(sent))
    {
      hide WellKept, Claims, Negotiable, Winners, Losers, Uniform, Members, Room.Valid, Room.View, M.StartActionOrder;
      ghost var was := View();
      UniformIs(winners, Winners(rpsForActionReplies), |Losers(rpsForActionReplies)|);
      rpsForActionWinners := winners;
      confirmedActionOrders := map[];
      actionOrderYields := map[];
      SameRoom(room);
      assert View() == Opened(was);
      NegotiationOpens(was);
      StartActionOrder();
    }

    // Whoever lost the throw no longer strives for the order.
    ghost function Judged(s: State): State {
      if Winners(s.orderReplies) == {} then s else s.(desired := Narrowed(s.desired, s.striving, Winners(s.orderReplies)))
    }

    method LosersLeave()
      requires Tidy() && Negotiating(View()) && actionOrderRemainingSelections == map[]
      modifies `desiredActionOrders
      ensures Tidy() && View() == Judged(old(View())) && Negotiating(View())
    {
      hide Uniform, WellKept, Claims, Members, Negotiating, Winners, Losers, Narrowed, Room.Valid, Room.View;
      ghost var was := View();
      var winners := RockPaperScissorsWinners(rpsForActionOrderReplies);
      JudgedWinners(rpsForActionOrderReplies, winners);
      if winners != [] {
        UniformIs(winners, Winners(rpsForActionOrderReplies), |Losers(rpsForActionOrderReplies)|);
        NarrowNegotiates(was, Winners(rpsForActionOrderReplies));
        desiredActionOrders := DropLosers(desiredActionOrders, currentStrivingActionOrder, winners);
      }
      SameRoom(room);
      assert View() == Judged(was);
    }

    method RpsForActionOrder()
      requires Tidy() && Negotiating(View()) && actionOrderRemainingSelections == map[]
      modifies this
      ensures Did(JudgeRpsForActionOrder(old(View())), old(sent))
    {
      hide Uniform, WellKept, Claims, Members, Negotiating, Winners, Narrowed, Room.Valid, Room.View, M.StartRpsForActionOrder;
      ghost var was, before := View(), sent;
      var k := currentStrivingActionOrder;
      ClaimantsCount(desiredActionOrders, k);
      if |rpsForActionOrderReplies| == (if k in desiredActionOrders then |desiredActionOrders[k]| else 0) {
        sent := sent + [RpsResult(rpsForActionOrderReplies)];
        SameRoom(room);
        assert View() == was;
        LosersLeave();
        StartRpsForActionOrder();
        Emitted(before, RpsResult(was.orderReplies), M.StartRpsForActionOrder(Judged(was)).sent);
      }
    }

    method Upgrade()
      requires Tidy() && SoundRoom(config, room.View()) && UpgradesFit(View())
      modifies this, room.Objects()
      ensures Did(FinishUpgrade(old(View())), old(sent)) && room.Objects() == old(room.Objects())
    {
      hide Uniform, WellKept, Claims, Members, Sorted, AliveNames, Pointed, UpgradedRoom, ResetRoom, MaxedNames, SoundRoom, UpgradesFit, Room.Valid, Room.View;
      ghost var was := View();
      var alive := room.AlivePlayerNames();
      var n := PointedCount(room);
      SameRoom(room);
      if |alive| <= 1 && |upgrades| == n {
        ListsApply(was);
        var success := room.ApplyLists(upgrades);
        assert success;
        state := BeforeRoundStart;
        ghost var upgraded := room.View();
        EndRound();
        assert upgraded == UpgradedRoom(was.players, was.upgrades);
      }
    }

    // The last part of an upgrade phase: does somebody's win end the game?
    method EndRound()
      requires Tidy()
      modifies `sent, room.Objects()
      ensures Tidy() && room.Objects() == old(room.Objects())
      ensures View() == old(View()).(players := if MaxedNames(config, old(room.View())) != {} then ResetRoom(config, old(room.View())) else old(room.View()))
      ensures sent == old(sent) + [if MaxedNames(config, old(room.View())) != {} then GameOver(Sorted(MaxedNames(config, old(room.View()))))
                                   else UpgradeResult(upgrades)]
    {
      hide Uniform, WellKept, Claims, Members, Sorted, ResetRoom, MaxedNames;
      var over, champions := room.IsGameOver();
      if over {
        room.ResetUpgrades();
        sent := sent + [GameOver(champions)];
      } else {
        sent := sent + [UpgradeResult(upgrades)];
      }
    }

    // ----- the slots -----

    // Everything the engine relies on; the ghost field holds the kills credited in this round.
    ghost predicate Valid()
      reads this, room, room.Objects()
    {
      Tidy() && Inv(View(), kills)
    }

    // The slot has done what the transition system does on e, and said whether it took e as sent.
    twostate predicate Took(e: Event, accepted: bool)
      reads this, room, room.Objects()
    {
      && Valid()
      && View() == Step(old(View()), e).state
      && sent == old(sent) + Step(old(View()), e).sent
      && accepted == Accepted(old(View()), e)
    }

    // Closes a slot: the invariant holds again.
    ghost method Close(was: State, credited: multiset<Name>, e: Event)
      requires Tidy() && Inv(was, credited) && View() == Step(was, e).state
      modifies `kills
      ensures Valid() && View() == old(View())
    {
      hide Inv, Step, NextKills, Uniform, WellKept, Claims, Members;
      StepKeeps(was, credited, e);
      kills := NextKills(was, credited, e);
      assert View() == Step(was, e).state;
    }

    method ChangePlayers(n: Name, add: bool) returns (accepted: bool)
      requires Tidy()
      modifies room, room.Objects()
      ensures Tidy() && sent == old(sent) && fresh(room.Objects() - old(room.Objects()))
      ensures accepted == (add <==> n !in old(room.View()))
      ensures View() == old(View()).(players := if !accepted then old(room.View())
                                               else ResetRoom(config, if add then old(room.View())[n := Fresh(config)] else old(room.View()) - {n}))
    {
      hide Uniform, WellKept, Claims, Members, ResetRoom;
      if add { accepted := room.AddPlayer(n); } else { accepted := room.RemovePlayer(n); }
      if accepted { room.ResetUpgrades(); }
    }

    method AddPlayer(n: Name) returns (accepted: bool)
      requires Valid()
      modifies this, room, room.Objects()
      ensures Took(Event.AddPlayer(n), accepted) && fresh(room.Objects() - old(room.Objects()))
    {
      hide Inv, Tidy, View, ResetRoom, Step, Accepted, Enabled;
      ghost var was, credited := View(), kills;
      LobbyStep(was, Event.AddPlayer(n));
      accepted := false;
      StateIs();
      if state == BeforeRoundStart { accepted := ChangePlayers(n, true); }
      Close(was, credited, Event.AddPlayer(n));
    }

    lemma StateIs()
      ensures View().phase == state && View().players == room.View() && View().config == config
    {
    }

    method RemovePlayer(n: Name) returns (accepted: bool)
      requires Valid()
      modifies this, room, room.Objects()
      ensures Took(Event.RemovePlayer(n), accepted) && fresh(room.Objects() - old(room.Objects()))
    {
      hide Inv, Tidy, View, ResetRoom, Step, Accepted, Enabled;
      ghost var was, credited := View(), kills;
      LobbyStep(was, Event.RemovePlayer(n));
      accepted := false;
      StateIs();
      if state == BeforeRoundStart { accepted := ChangePlayers(n, false); }
      Close(was, credited, Event.RemovePlayer(n));
    }

    method RoundStart() returns (accepted: bool)
      requires Valid()
      modifies this, room.Objects()
      ensures Took(Event.RoundStart, accepted) && room.Objects() == old(room.Objects())
    {
      hide Inv, View, PreparedRoom, Step, Accepted, Enabled, Uniform, WellKept, M.StartRpsForAction;
      ghost var was, credited := View(), kills;
      RoundStartStep(was);
      accepted := false;
      StateIs();
      RoomSize(room);
      if state == BeforeRoundStart {
        if |room.names| >= 2 {
          SeatEverybody();
          StartRpsForAction();
          accepted := true;
        }
      }
      Close(was, credited, Event.RoundStart);
    }

    method SeatEverybody()
      requires Tidy()
      modifies room.Objects()
      ensures Tidy() && room.Objects() == old(room.Objects()) && View() == old(View()).(players := PreparedRoom(old(View()).players))
    {
      hide Uniform, WellKept, Claims, Members, PreparedRoom;
      room.PrepareForRoundStart();
    }

    method RpsReply(n: Name, rps: Throw) returns (accepted: bool)
      requires Valid()
      modifies this
      ensures Took(Event.RpsReply(n, rps), accepted)
    {
      hide Inv, View, Step, Accepted, Enabled, Tidy, JudgeRpsForAction, JudgeRpsForActionOrder, Negotiating;
      ghost var was, credited := View(), kills;
      RpsStep(was, kills, n, rps);
      accepted := false;
      Fields();
      if n in room.players && state == Phase.RpsForAction && n !in rpsForActionReplies {
        TakeThrow(n, rps);
        accepted := true;
      } else if n in room.players && state == Phase.RpsForActionOrder && n !in rpsForActionOrderReplies {
        TakeOrderThrow(n, rps);
        accepted := true;
      }
      Close(was, credited, Event.RpsReply(n, rps));
    }

    method TakeThrow(n: Name, rps: Throw)
      requires Tidy() && n in room.View() && rpsForActionReplies.Keys <= room.View().Keys
      modifies this
      ensures Did(JudgeRpsForAction(old(View()).(rpsReplies := old(View()).rpsReplies[n := rps])), old(sent))
    {
      hide Uniform, Tidy, View, JudgeRpsForAction;
      Fields();
      RecordThrow(n, rps);
      Fields();
      RpsForAction();
    }

    method TakeOrderThrow(n: Name, rps: Throw)
      requires Tidy() && Negotiating(View().(orderReplies := View().orderReplies[n := rps])) && actionOrderRemainingSelections == map[]
      modifies this
      ensures Did(JudgeRpsForActionOrder(old(View()).(orderReplies := old(View()).orderReplies[n := rps])), old(sent))
    {
      hide Uniform, Tidy, View, JudgeRpsForActionOrder, Negotiating;
      Fields();
      RecordOrderThrow(n, rps);
      Fields();
      RpsForActionOrder();
    }

    // The fields, as the view shows them.
    lemma Fields()
      ensures View().phase == state && View().players == room.View() && View().config == config
      ensures room.View().Keys == room.players.Keys
      ensures View().rpsReplies == rpsForActionReplies && View().orderReplies == rpsForActionOrderReplies
      ensures View().remaining == actionOrderRemainingSelections && View().confirmed == confirmedActionOrders
      ensures View().yielded == actionOrderYields && View().upgrades == upgrades && View().orders == |rpsForActionWinners|
      ensures View().current == currentActionOrder && View().desired == Claims(desiredActionOrders)
    {
    }

    method RecordThrow(n: Name, rps: Throw)
      requires Tidy()
      modifies `rpsForActionReplies
      ensures Tidy() && View() == old(View()).(rpsReplies := old(View()).rpsReplies[n := rps])
      ensures rpsForActionReplies == View().rpsReplies && room.View() == View().players
    {
      hide Uniform, WellKept, Claims, Members;
      rpsForActionReplies := rpsForActionReplies[n := rps];
    }

    method RecordOrderThrow(n: Name, rps: Throw)
      requires Tidy()
      modifies `rpsForActionOrderReplies
      ensures Tidy() && View() == old(View()).(orderReplies := old(View()).orderReplies[n := rps])
    {
      hide Uniform, WellKept, Claims, Members;
      rpsForActionOrderReplies := rpsForActionOrderReplies[n := rps];
    }

    method ActionOrderReply(n: Name, desiredOrder: seq<int>) returns (accepted: bool)
      requires Valid()
      modifies this
      ensures Took(Event.ActionOrderReply(n, desiredOrder), accepted)
    {
      hide Inv, View, Step, Accepted, Enabled, Tidy, AdvanceActionOrder, Negotiating, TakePicks, GoodPicks;
      ghost var was, credited := View(), kills;
      PicksStep(was, kills, n, desiredOrder);
      accepted := false;
      Fields();
      if n in room.players && state == Phase.ActionOrder && n in actionOrderRemainingSelections {
        accepted := RecordPicks(n, desiredOrder);
        ActionOrder();
      }
      Close(was, credited, Event.ActionOrderReply(n, desiredOrder));
    }

    method RecordPicks(n: Name, desiredOrder: seq<int>) returns (accepted: bool)
      requires Tidy() && Picking(View()) && n in actionOrderRemainingSelections
      modifies `desiredActionOrders, `actionOrderYields, `actionOrderRemainingSelections
      ensures Tidy() && View() == TakePicks(old(View()), n, desiredOrder)
      ensures accepted == GoodPicks(old(View()), old(actionOrderRemainingSelections)[n], desiredOrder)
    {
      hide Uniform, WellKept, Claims, Members, Picking, GoodPicks, GoodList, Machine.Chosen, Zeros, Room.View, Room.Valid, Claim, View, TakePicks;
      ghost var was := View();
      Fields();
      var chosen, passed;
      accepted, chosen, passed := ReadPicks(desiredOrder, actionOrderRemainingSelections[n], |rpsForActionWinners|, confirmedActionOrders);
      SameRoom(room);
      SameView(was);
      GoodListIs(was, actionOrderRemainingSelections[n], desiredOrder);
      PicksAre(was, n, desiredOrder, (set o | o in chosen), passed);
      StorePicks(n, chosen, passed);
    }

    method StorePicks(n: Name, chosen: seq<int>, passed: int)
      requires Tidy() && Picking(View()) && n in actionOrderRemainingSelections && Distinct(chosen)
      modifies `desiredActionOrders, `actionOrderYields, `actionOrderRemainingSelections
      ensures Tidy()
      ensures View() == old(View()).(desired := Claim(old(View()).desired, (set o | o in chosen), n),
                                     yielded := if passed > 0 then old(View()).yielded[n := CountOf(old(View()).yielded, n) + passed] else old(View()).yielded,
                                     remaining := old(View()).remaining - {n})
    {
      hide Uniform, WellKept, Claims, Members, Picking, Room.View, Room.Valid, Claim, Distinct;
      ghost var was := View();
      UnclaimedBy(was, desiredActionOrders, n);
      desiredActionOrders := InsertClaims(desiredActionOrders, chosen, n);
      if passed > 0 {
        actionOrderYields := actionOrderYields[n := CountOf(actionOrderYields, n) + passed];
      }
      actionOrderRemainingSelections := actionOrderRemainingSelections - {n};
      SameRoom(room);
    }

    // Nothing has changed but the heap has grown.
    twostate lemma SameView(was: State)
      requires was == old(View()) && unchanged(this) && room.View() == old(room.View())
      ensures View() == was
    {
    }

    method ActionReply(n: Name, action: Action, toPlayer: Name, toPlace: int) returns (accepted: bool)
      requires Valid()
      modifies this, room.Objects()
      ensures Took(Event.ActionReply(n, action, toPlayer, toPlace), accepted) && room.Objects() == old(room.Objects())
    {
      hide Inv, View, Step, Accepted, Enabled, Tidy, M.StartAction, Perform, Feasible, RoundOver;
      ghost var was, before, credited := View(), sent, kills;
      ActionStep(was, kills, n, action, toPlayer, toPlace);
      accepted := false;
      Fields();
      if n in room.players && state == InAction {
        accepted := TakeAction(n, action, toPlayer, toPlace);
        Fields();
        StartAction();
        Emitted(before, ActionResult(n, if accepted then action else DoNothing, toPlayer, toPlace),
                M.StartAction(AfterAction(was, n, action, toPlayer, toPlace)).sent);
      }
      Close(was, credited, Event.ActionReply(n, action, toPlayer, toPlace));
    }

    // An infeasible action is replaced by doing nothing.
    method TakeAction(n: Name, action: Action, toPlayer: Name, toPlace: int) returns (accepted: bool)
      requires Tidy() && n in room.View()
      modifies `sent, room.Objects()
      ensures Tidy() && room.Objects() == old(room.Objects())
      ensures View() == AfterAction(old(View()), n, action, toPlayer, toPlace)
      ensures accepted == Feasible(config, old(room.View()), n, action, toPlayer, toPlace)
      ensures sent == old(sent) + [ActionResult(n, if accepted then action else DoNothing, toPlayer, toPlace)]
    {
      hide Uniform, WellKept, Claims, Members, Feasible, Perform, Room.View, Room.Valid;
      accepted := IsFeasible(room, n, action, toPlayer, toPlace);
      SameRoom(room);
      StateIs();
      ApplyAction(n, if accepted then action else DoNothing, toPlayer, toPlace);
    }

    method ApplyAction(n: Name, action: Action, toPlayer: Name, toPlace: int)
      requires Tidy() && n in room.View()
      requires action == DoNothing || Feasible(config, room.View(), n, action, toPlayer, toPlace)
      modifies `sent, room.Objects()
      ensures Tidy() && room.Objects() == old(room.Objects())
      ensures View() == old(View()).(players := Perform(config, old(room.View()), n, action, toPlayer, toPlace))
      ensures sent == old(sent) + [ActionResult(n, action, toPlayer, toPlace)]
    {
      hide Uniform, WellKept, Claims, Members, Feasible, Perform;
      var _ := room.Act(n, action, toPlayer, toPlace);
      sent := sent + [ActionResult(n, action, toPlayer, toPlace)];
    }

    method UpgradeReply(n: Name, items: seq<UpgradeItem>) returns (accepted: bool)
      requires Valid()
      modifies this, room.Objects()
      ensures Took(Event.UpgradeReply(n, items), accepted) && room.Objects() == old(room.Objects())
    {
      hide Inv, View, Step, Accepted, Enabled, Tidy, FinishUpgrade, UpgradeFeasible, DefaultUpgrades, UpgradesFit, SoundRoom;
      ghost var was, credited := View(), kills;
      UpgradeStep(was, kills, n, items);
      accepted := false;
      Fields();
      if n in room.players && state == InUpgrade && n !in upgrades {
        accepted := StoreList(n, items);
        Upgrade();
      }
      Close(was, credited, Event.UpgradeReply(n, items));
    }

    method StoreList(n: Name, items: seq<UpgradeItem>) returns (accepted: bool)
      requires Tidy() && n in room.View()
      requires Sound(config, room.View()[n]) && room.View()[n].upgradePoint >= 0
      modifies `upgrades
      ensures Tidy() && room.View() == old(room.View())
      ensures accepted == UpgradeFeasible(config, old(room.View())[n], items)
      ensures View() == old(View()).(upgrades := old(upgrades)[n := if accepted then items else DefaultUpgrades(config, old(room.View())[n])])
    {
      hide Uniform, WellKept, Claims, Members, SpendInOrder, UpgradeFeasible;
      var p := room.players[n].View();
      accepted := CountsFit(config, p, items);
      if accepted {
        upgrades := upgrades[n := items];
      } else {
        var feasibleItems := SpendPoints(p.upgradePoint, UpgradeItem.UpgradeKnife, KnifeRoom(config, p),
                                         UpgradeItem.UpgradeHorse, HorseRoom(config, p), UpgradeItem.UpgradeMaxHp, MaxHpRoom(config, p));
        upgrades := upgrades[n := feasibleItems];
      }
    }
  }
}
