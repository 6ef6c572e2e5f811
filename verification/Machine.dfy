/**
  The round engine as a transition system: what every slot of Logic does to the state
  and which messages it emits. The order in which hashes are walked is abstracted away:
  a multi-hash entry holds a set of names, and the winners list is the set of winners
  together with how often each of them is listed. Logic.dfy proves that the program's
  loops compute exactly these functions.
 */
module Machine {
  import opened Basics
  import opened Rules
  import opened Rps

  datatype Phase = BeforeRoundStart | RpsForAction | ActionOrder | RpsForActionOrder | InAction | InUpgrade

  datatype State = State(
    config: Config,
    players: Players,
    phase: Phase,
    rpsReplies: Throws,
    winners: set<Name>,             // rpsForActionWinners lists each of these players ...
    chances: nat,                   // ... this many times,
    orders: nat,                    // and this is the length of the list
    desired: map<int, set<Name>>,   // order -> players striving for it
    confirmed: map<int, Name>,      // order -> its owner
    remaining: map<Name, int>,      // asked for picks, not yet answered -> picks asked
    yielded: map<Name, int>,
    striving: int,                  // the order now being thrown for
    orderReplies: Throws,
    current: int,                   // the order whose owner is acting
    upgrades: map<Name, seq<UpgradeItem>>)
  {
    function Alive(): set<Name> { AliveNames(config, players) }
  }

  datatype Message =
    | RequestRpsForAction(names: seq<Name>)
    | RpsResult(throws: Throws)
    | RequestActionOrder(name: Name, offered: seq<int>, maximum: int, selections: int)
    | ActionOrderResult(allotment: map<int, Name>)
    | RequestRpsForActionOrder(strivers: set<Name>, order: int)
    | RequestAction(name: Name, order: int)
    | ActionResult(name: Name, action: Action, toPlayer: Name, toPlace: int)
    | RoundIsOver
    | RequestUpgrade(name: Name, points: int)
    | UpgradeResult(lists: map<Name, seq<UpgradeItem>>)
    | GameOver(champions: seq<Name>)

  datatype Event =
    | AddPlayer(name: Name)
    | RemovePlayer(name: Name)
    | RoundStart
    | RpsReply(name: Name, throw: Throw)
    | ActionOrderReply(name: Name, orders: seq<int>)
    | ActionReply(name: Name, action: Action, toPlayer: Name, toPlace: int)
    | UpgradeReply(name: Name, items: seq<UpgradeItem>)

  datatype Outcome = Outcome(state: State, sent: seq<Message>)

  function Silent(s: State): Outcome { Outcome(s, []) }

  function After(m: Message, o: Outcome): Outcome { Outcome(o.state, [m] + o.sent) }

  function Initial(c: Config): State {
    State(c, map[], BeforeRoundStart, map[], {}, 0, 0, map[], map[], map[], map[], 0, map[], 0, map[])
  }

  // ----- throwing for the right to act -----

  ghost function StartRpsForAction(s: State): Outcome {
    Outcome(s.(rpsReplies := map[], winners := {}, chances := 0, orders := 0, phase := RpsForAction),
            [RequestRpsForAction(Sorted(s.Alive()))])
  }

  ghost function JudgeRpsForAction(s: State): Outcome {
    if |s.rpsReplies| != |s.Alive()| then Silent(s)
    else
      After(RpsResult(s.rpsReplies),
            if Winners(s.rpsReplies) == {} then StartRpsForAction(s)
            else StartActionOrder(s.(winners := Winners(s.rpsReplies), chances := |Losers(s.rpsReplies)|,
                                     orders := |Winners(s.rpsReplies)| * |Losers(s.rpsReplies)|,
                                     confirmed := map[], yielded := map[])))
  }

  // ----- negotiating the action orders -----

  function OrdersOf(confirmed: map<int, Name>, p: Name): set<int> {
    set o | o in confirmed && confirmed[o] == p
  }

  function ClaimsOf(desired: map<int, set<Name>>, p: Name): set<int> {
    set o | o in desired && p in desired[o]
  }

  function CountOf(m: map<Name, int>, p: Name): int {
    if p in m then m[p] else 0
  }

  // Orders a winner is still owed.
  function Owed(s: State, p: Name): int {
    s.chances - |OrdersOf(s.confirmed, p)|
  }

  function Unsettled(s: State): map<Name, int> {
    map p | p in s.winners && Owed(s, p) != 0 :: Owed(s, p)
  }

  // Owed orders a winner has not yielded: what it is still to be asked for.
  function Striving(s: State): map<Name, int> {
    map p | p in s.winners && Owed(s, p) - CountOf(s.yielded, p) > 0 :: Owed(s, p) - CountOf(s.yielded, p)
  }

  // The orders 1..n not yet taken, ascending.
  function FreeOrders(n: nat, taken: set<int>): seq<int> {
    if n == 0 then [] else FreeOrders(n - 1, taken) + (if n in taken then [] else [n as int])
  }

  function Free(s: State): seq<int> {
    FreeOrders(s.orders, s.confirmed.Keys)
  }

  // Hand the orders out in blocks: to each name, in turn, as many as it is owed.
  function Deal(names: seq<Name>, owed: map<Name, int>, orders: seq<int>): map<int, Name>
    requires forall n <- names :: n in owed
  {
    if names == [] then map[]
    else
      var k := if 0 <= owed[names[0]] <= |orders| then owed[names[0]] else |orders|;
      (map o | o in orders[..k] :: names[0]) + Deal(names[1..], owed, orders[k..])
  }

  function PickRequests(names: seq<Name>, offered: seq<int>, maximum: int, picks: map<Name, int>): seq<Message>
    requires forall n <- names :: n in picks
  {
    if names == [] then []
    else [RequestActionOrder(names[0], offered, maximum, picks[names[0]])] + PickRequests(names[1..], offered, maximum, picks)
  }

  ghost function Dealt(s: State): map<int, Name> {
    s.confirmed + Deal(Sorted(Unsettled(s).Keys), Unsettled(s), Free(s))
  }

  ghost function StartActionOrder(s: State): Outcome {
    if |s.winners| == 1 || Striving(s) == map[] then
      After(ActionOrderResult(Dealt(s)), StartAction(s.(confirmed := Dealt(s), current := 0)))
    else
      Outcome(s.(desired := map[], remaining := Striving(s), phase := ActionOrder),
              PickRequests(Sorted(Striving(s).Keys), Free(s), s.orders, Striving(s)))
  }

  ghost function Sole(claimants: set<Name>): Name
    requires |claimants| == 1
  {
    assert claimants != {};
    SoleUnique(claimants);
    var p :| p in claimants;
    p
  }

  lemma SoleUnique(claimants: set<Name>)
    requires |claimants| == 1
    ensures forall p, q | p in claimants && q in claimants :: p == q
  {
    forall p, q | p in claimants && q in claimants ensures p == q {
      SubsetSize({p}, claimants);
    }
  }

  // Orders only one player strives for go to that player.
  ghost function SettledOrders(desired: map<int, set<Name>>): map<int, Name> {
    map o | o in desired && |desired[o]| == 1 :: Sole(desired[o])
  }

  function Contested(desired: map<int, set<Name>>): map<int, set<Name>> {
    map o | o in desired && |desired[o]| != 1 :: desired[o]
  }

  // The lowest contested order in 1..n, 0 if there is none.
  function LowestFrom(desired: map<int, set<Name>>, k: int, n: int): int
    decreases n - k
  {
    if k > n then 0 else if k in desired then k else LowestFrom(desired, k + 1, n)
  }

  ghost function StartRpsForActionOrder(s: State): Outcome {
    var t := s.(confirmed := s.confirmed + SettledOrders(s.desired), desired := Contested(s.desired));
    if t.desired == map[] then StartActionOrder(t)
    else
      var k := LowestFrom(t.desired, 1, t.orders);
      Outcome(t.(striving := k, orderReplies := map[], phase := RpsForActionOrder),
              [RequestRpsForActionOrder(ClaimantsOf(t.desired, k), k)])
  }

  function ClaimantsOf(desired: map<int, set<Name>>, o: int): set<Name> {
    if o in desired then desired[o] else {}
  }

  // Keep only the winners among those striving for one order.
  function Narrowed(desired: map<int, set<Name>>, o: int, winners: set<Name>): map<int, set<Name>> {
    var left := ClaimantsOf(desired, o) * winners;
    if left == {} then desired - {o} else desired[o := left]
  }

  ghost function JudgeRpsForActionOrder(s: State): Outcome {
    if |s.orderReplies| != |ClaimantsOf(s.desired, s.striving)| then Silent(s)
    else
      After(RpsResult(s.orderReplies),
            StartRpsForActionOrder(
              if Winners(s.orderReplies) == {} then s
              else s.(desired := Narrowed(s.desired, s.striving, Winners(s.orderReplies)))))
  }

  // ----- the picks of one player -----

  predicate GoodOrder(s: State, o: int) {
    o == 0 || (1 <= o <= s.orders && o !in s.confirmed)
  }

  predicate GoodPicks(s: State, picks: int, orders: seq<int>) {
    && |orders| == picks
    && (forall o <- orders :: GoodOrder(s, o))
    && (forall i, j | 0 <= i < j < |orders| :: orders[i] == 0 || orders[i] != orders[j])
  }

  function Chosen(orders: seq<int>): set<int> {
    set o | o in orders && o != 0
  }

  function Zeros(orders: seq<int>): nat {
    multiset(orders)[0]
  }

  function Claim(desired: map<int, set<Name>>, orders: set<int>, p: Name): map<int, set<Name>> {
    map o | o in desired.Keys + orders :: ClaimantsOf(desired, o) + (if o in orders then {p} else {})
  }

  // The orders a reply claims and the number of selections it yields; a bad list
  // is replaced by yielding every selection.
  function PicksClaimed(s: State, p: Name, orders: seq<int>): set<int>
    requires p in s.remaining
  {
    if GoodPicks(s, s.remaining[p], orders) then Chosen(orders) else {}
  }

  function PicksYielded(s: State, p: Name, orders: seq<int>): int
    requires p in s.remaining
  {
    if GoodPicks(s, s.remaining[p], orders) then Zeros(orders) else s.remaining[p]
  }

  function TakePicks(s: State, p: Name, orders: seq<int>): State
    requires p in s.remaining
  {
    var passed := PicksYielded(s, p, orders);
    s.(desired := Claim(s.desired, PicksClaimed(s, p, orders), p),
       yielded := if passed > 0 then s.yielded[p := CountOf(s.yielded, p) + passed] else s.yielded,
       remaining := s.remaining - {p})
  }

  ghost function AdvanceActionOrder(s: State): Outcome {
    if s.remaining == map[] then StartRpsForActionOrder(s) else Silent(s)
  }

  // ----- acting -----

  predicate TurnOwnerAlive(s: State, k: int) {
    k in s.confirmed && s.confirmed[k] in s.Alive()
  }

  // The next order from k on whose owner is alive.
  function NextTurn(s: State, k: int): Option<int>
    decreases s.orders - k
  {
    if k > s.orders then None else if TurnOwnerAlive(s, k) then Some(k) else NextTurn(s, k + 1)
  }

  ghost function StartAction(s: State): Outcome {
    if RoundOver(s.config, s.players) then After(RoundIsOver, StartUpgrade(s))
    else
      match NextTurn(s, s.current + 1)
      case Some(k) =>
        Outcome(s.(current := k, phase := InAction), [RequestAction(if k in s.confirmed then s.confirmed[k] else 0, k)])
      case None => StartRpsForAction(s.(current := s.orders + 1))
  }

  // ----- upgrading -----

  function UpgradeRequests(names: seq<Name>, ps: Players): seq<Message>
    requires forall n <- names :: n in ps
  {
    if names == [] then []
    else [RequestUpgrade(names[0], ps[names[0]].upgradePoint)] + UpgradeRequests(names[1..], ps)
  }

  ghost function StartUpgrade(s: State): Outcome {
    Outcome(s.(upgrades := map[], phase := if Pointed(s.players) == {} then s.phase else InUpgrade),
            UpgradeRequests(Sorted(Pointed(s.players)), s.players))
  }

  ghost function FinishUpgrade(s: State): Outcome {
    if !RoundOver(s.config, s.players) || |s.upgrades| != |Pointed(s.players)| then Silent(s)
    else
      var ps := UpgradedRoom(s.players, s.upgrades);
      if MaxedNames(s.config, ps) != {} then
        Outcome(s.(phase := BeforeRoundStart, players := ResetRoom(s.config, ps)), [GameOver(Sorted(MaxedNames(s.config, ps)))])
      else
        Outcome(s.(phase := BeforeRoundStart, players := ps), [UpgradeResult(s.upgrades)])
  }

  // ----- the slots -----

  predicate Enabled(s: State, e: Event) {
    match e
    case AddPlayer(n) => s.phase == BeforeRoundStart && n !in s.players
    case RemovePlayer(n) => s.phase == BeforeRoundStart && n in s.players
    case RoundStart => s.phase == BeforeRoundStart && |s.players| >= 2
    case RpsReply(n, _) => n in s.players && ((s.phase == RpsForAction && n !in s.rpsReplies) || (s.phase == RpsForActionOrder && n !in s.orderReplies))
    case ActionOrderReply(n, _) => n in s.players && s.phase == ActionOrder && n in s.remaining
    case ActionReply(n, _, _, _) => n in s.players && s.phase == InAction
    case UpgradeReply(n, _) => n in s.players && s.phase == InUpgrade && n !in s.upgrades
  }

  // What the slot returns: the reply was taken, and taken as sent.
  predicate Accepted(s: State, e: Event) {
    && Enabled(s, e)
    && match e
       case ActionOrderReply(n, orders) => GoodPicks(s, s.remaining[n], orders)
       case ActionReply(n, a, to, place) => Feasible(s.config, s.players, n, a, to, place)
       case UpgradeReply(n, items) => UpgradeFeasible(s.config, s.players[n], items)
       case _ => true
  }

  ghost function Step(s: State, e: Event): Outcome {
    if !Enabled(s, e) then Silent(s)
    else
      match e
      case AddPlayer(n) => Silent(s.(players := ResetRoom(s.config, s.players[n := Fresh(s.config)])))
      case RemovePlayer(n) => Silent(s.(players := ResetRoom(s.config, s.players - {n})))
      case RoundStart => StartRpsForAction(s.(players := PreparedRoom(s.players)))
      case RpsReply(n, t) =>
        if s.phase == RpsForAction then JudgeRpsForAction(s.(rpsReplies := s.rpsReplies[n := t]))
        else JudgeRpsForActionOrder(s.(orderReplies := s.orderReplies[n := t]))
      case ActionOrderReply(n, orders) =>
        AdvanceActionOrder(TakePicks(s, n, orders))
      case ActionReply(n, a, to, place) =>
        var act := if Feasible(s.config, s.players, n, a, to, place) then a else DoNothing;
        After(ActionResult(n, act, to, place), StartAction(s.(players := Perform(s.config, s.players, n, act, to, place))))
      case UpgradeReply(n, items) =>
        var list := if UpgradeFeasible(s.config, s.players[n], items) then items else DefaultUpgrades(s.config, s.players[n]);
        FinishUpgrade(s.(upgrades := s.upgrades[n := list]))
  }
}
