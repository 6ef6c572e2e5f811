/**
  The rules of one match: configuration, player statistics, what an action does to
  them, and the upgrade arithmetic. Everything here is a value; the classes of
  Room.dfy hold the same data in updatable objects and are proved against it.
 */
module Rules {
  import opened Basics

  datatype Throw = Rock | Scissors | Paper

  predicate Beats(a: Throw, b: Throw) {
    (a == Rock && b == Scissors) || (a == Scissors && b == Paper) || (a == Paper && b == Rock)
  }

  datatype Rounding = RoundDown | RoundToNearest45 | RoundUp | PlusOne

  datatype Config = Config(
    initialKnifeDamage: int, maximumKnifeDamage: int,
    initialHorseDamage: int, maximumHorseDamage: int,
    initialMaxHp: int, maximumMaxHp: int,
    punishHpModifier: int, punishHpRoundStrategy: Rounding,
    zeroHpAsDead: bool, enableLetMove: bool, canBuyOnlyInInitialCity: bool)
  {
    predicate DeadAt(hp: int) {
      if zeroHpAsDead then hp <= 0 else hp < 0
    }

    // What LogicConfiguration::deserialize guarantees.
    predicate Ordered() {
      && 0 <= initialKnifeDamage <= maximumKnifeDamage
      && 0 <= initialHorseDamage <= maximumHorseDamage
      && 0 <= initialMaxHp <= maximumMaxHp
    }

    // Players begin a round alive. deserialize does not check this.
    predicate Playable() {
      Ordered() && !DeadAt(initialMaxHp)
    }

    // How many upgrades a fresh player can still take.
    function Capacity(): int {
      (maximumKnifeDamage - initialKnifeDamage) + (maximumHorseDamage - initialHorseDamage) + (maximumMaxHp - initialMaxHp)
    }
  }

  const VILLAGE := 0

  datatype Stats = Stats(
    hasKnife: bool, hasHorse: bool, hp: int, place: int, initialPlace: int,
    knifeDamage: int, horseDamage: int, maxHp: int, upgradePoint: int)

  type Players = map<Name, Stats>

  datatype Action = DoNothing | BuyKnife | BuyHorse | Slash | Kick | Move | LetMove

  predicate NeedsTarget(a: Action) { a == Slash || a == Kick || a == LetMove }

  predicate NeedsPlace(a: Action) { a == Move || a == LetMove }

  datatype UpgradeItem = UpgradeKnife | UpgradeHorse | UpgradeMaxHp

  // ----- queries -----

  function Fresh(c: Config): Stats {
    Stats(false, false, c.initialMaxHp, VILLAGE, VILLAGE, c.initialKnifeDamage, c.initialHorseDamage, c.initialMaxHp, 0)
  }

  predicate Alive(c: Config, p: Stats) {
    !c.DeadAt(p.hp)
  }

  predicate Adjacent(p1: int, p2: int) {
    (p1 == VILLAGE) != (p2 == VILLAGE)
  }

  predicate CanBuy(c: Config, p: Stats) {
    if c.canBuyOnlyInInitialCity then p.place == p.initialPlace else p.place != VILLAGE
  }

  predicate CanBuyKnife(c: Config, p: Stats) {
    Alive(c, p) && !p.hasKnife && CanBuy(c, p)
  }

  predicate CanBuyHorse(c: Config, p: Stats) {
    Alive(c, p) && !p.hasHorse && CanBuy(c, p)
  }

  // The three predicates below compare two players; self says whether they are the same one.
  predicate CanSlash(c: Config, p: Stats, to: Stats, self: bool) {
    Alive(c, p) && Alive(c, to) && p.hasKnife && !self && p.place == to.place
  }

  predicate CanKick(c: Config, p: Stats, to: Stats, self: bool) {
    Alive(c, p) && Alive(c, to) && p.hasHorse && !self && p.place == to.place && p.place != VILLAGE
  }

  predicate CanMove(c: Config, p: Stats, toPlace: int) {
    Alive(c, p) && Adjacent(p.place, toPlace)
  }

  predicate CanLetMove(c: Config, p: Stats, to: Stats, self: bool, toPlace: int) {
    if self then CanMove(c, p, toPlace)
    else
      && c.enableLetMove
      && Alive(c, p) && Alive(c, to)
      && Adjacent(to.place, toPlace)
      && ((Adjacent(p.place, to.place) && toPlace == p.place) || p.place == to.place)
  }

  // C++ integer division. Its operands are never negative here (see PunishMeaning).
  function TruncatedQuotient(a: int, b: int): int
    requires b > 0
  {
    if a >= 0 then a / b else -((-a) / b)
  }

  function PunishHp(r: Rounding, maxHp: int, modifier: int): int
    requires modifier > 0
  {
    match r
    case RoundDown => TruncatedQuotient(maxHp, modifier)
    case RoundToNearest45 => TruncatedQuotient(TruncatedQuotient(maxHp * 2, modifier) + 1, 2)
    case RoundUp => TruncatedQuotient(maxHp + modifier - 1, modifier)
    case PlusOne => TruncatedQuotient(maxHp, modifier) + 1
  }

  function SlashPunishHp(c: Config, p: Stats): int {
    if p.place == VILLAGE || c.punishHpModifier <= 0 then 0
    else PunishHp(c.punishHpRoundStrategy, p.maxHp, c.punishHpModifier)
  }

  function KnifeRoom(c: Config, p: Stats): int { c.maximumKnifeDamage - p.knifeDamage }
  function HorseRoom(c: Config, p: Stats): int { c.maximumHorseDamage - p.horseDamage }
  function MaxHpRoom(c: Config, p: Stats): int { c.maximumMaxHp - p.maxHp }

  function UpgradeRoom(c: Config, p: Stats): int {
    KnifeRoom(c, p) + HorseRoom(c, p) + MaxHpRoom(c, p)
  }

  predicate Maxed(c: Config, p: Stats) {
    HorseRoom(c, p) <= 0 && KnifeRoom(c, p) <= 0 && MaxHpRoom(c, p) <= 0
  }

  // ----- updates -----

  // A kill is credited to the striker, up to what the striker can still spend.
  function Credit(c: Config, p: Stats): Stats {
    p.(upgradePoint := Min(p.upgradePoint + 1, UpgradeRoom(c, p)))
  }

  predicate Kills(c: Config, to: Stats, damage: int) {
    Alive(c, to) && c.DeadAt(to.hp - damage)
  }

  function ApplyDamage(c: Config, ps: Players, from: Name, to: Name, damage: int): (r: Players)
    requires from in ps && to in ps
    ensures r.Keys == ps.Keys
  {
    var hurt := ps[to := ps[to].(hp := ps[to].hp - damage)];
    if Kills(c, ps[to], damage) then hurt[from := Credit(c, hurt[from])] else hurt
  }

  predicate Feasible(c: Config, ps: Players, from: Name, a: Action, to: Name, toPlace: int)
    requires from in ps
  {
    match a
    case DoNothing => Alive(c, ps[from])
    case BuyKnife => CanBuyKnife(c, ps[from])
    case BuyHorse => CanBuyHorse(c, ps[from])
    case Slash => to in ps && CanSlash(c, ps[from], ps[to], from == to)
    case Kick => to in ps && CanKick(c, ps[from], ps[to], from == to)
    case Move => CanMove(c, ps[from], toPlace)
    case LetMove => to in ps && CanLetMove(c, ps[from], ps[to], from == to, toPlace)
  }

  function SlashEffect(c: Config, ps: Players, from: Name, to: Name): (r: Players)
    requires from in ps && to in ps
    ensures r.Keys == ps.Keys
  {
    var struck := ApplyDamage(c, ps, from, to, ps[from].knifeDamage);
    var punish := SlashPunishHp(c, struck[from]);
    if punish > 0 then ApplyDamage(c, struck, to, from, punish) else struck
  }

  function KickEffect(c: Config, ps: Players, from: Name, to: Name): (r: Players)
    requires from in ps && to in ps
    ensures r.Keys == ps.Keys
  {
    var struck := ApplyDamage(c, ps, from, to, ps[from].horseDamage);
    if Alive(c, struck[to]) then struck[to := struck[to].(place := VILLAGE)] else struck
  }

  // The room after the action; an infeasible action changes nothing.
  function Perform(c: Config, ps: Players, from: Name, a: Action, to: Name, toPlace: int): (r: Players)
    requires from in ps
    ensures r.Keys == ps.Keys
  {
    if !Feasible(c, ps, from, a, to, toPlace) then ps
    else
      match a
      case DoNothing => ps
      case BuyKnife => ps[from := ps[from].(hasKnife := true)]
      case BuyHorse => ps[from := ps[from].(hasHorse := true)]
      case Slash => SlashEffect(c, ps, from, to)
      case Kick => KickEffect(c, ps, from, to)
      case Move => ps[from := ps[from].(place := toPlace)]
      case LetMove => ps[to := ps[to].(place := toPlace)]
  }

  // The strikers credited by an action, in order: one entry per death it causes.
  function Killers(c: Config, ps: Players, from: Name, a: Action, to: Name, toPlace: int): seq<Name>
    requires from in ps
  {
    if !Feasible(c, ps, from, a, to, toPlace) then []
    else
      match a
      case Slash =>
        var struck := ApplyDamage(c, ps, from, to, ps[from].knifeDamage);
        (if Kills(c, ps[to], ps[from].knifeDamage) then [from] else [])
        + (if Kills(c, struck[from], SlashPunishHp(c, struck[from])) then [to] else [])
      case Kick => if Kills(c, ps[to], ps[from].horseDamage) then [from] else []
      case _ => []
  }

  function UpgradeOne(c: Config, p: Stats, item: UpgradeItem): Option<Stats> {
    match item
    case UpgradeKnife => if KnifeRoom(c, p) > 0 then Some(p.(knifeDamage := p.knifeDamage + 1)) else None
    case UpgradeHorse => if HorseRoom(c, p) > 0 then Some(p.(horseDamage := p.horseDamage + 1)) else None
    case UpgradeMaxHp => if MaxHpRoom(c, p) > 0 then Some(p.(maxHp := p.maxHp + 1)) else None
  }

  function Count(items: seq<UpgradeItem>, item: UpgradeItem): nat {
    multiset(items)[item]
  }

  predicate UpgradeFeasible(c: Config, p: Stats, items: seq<UpgradeItem>) {
    && Count(items, UpgradeKnife) <= KnifeRoom(c, p)
    && Count(items, UpgradeHorse) <= HorseRoom(c, p)
    && Count(items, UpgradeMaxHp) <= MaxHpRoom(c, p)
    && |items| == p.upgradePoint
  }

  // What a whole list of upgrades does to a player.
  function Upgraded(p: Stats, items: seq<UpgradeItem>): Stats {
    p.(knifeDamage := p.knifeDamage + Count(items, UpgradeKnife),
       horseDamage := p.horseDamage + Count(items, UpgradeHorse),
       maxHp := p.maxHp + Count(items, UpgradeMaxHp))
  }

  function Repeat(item: UpgradeItem, n: int): seq<UpgradeItem> {
    if n <= 0 then [] else [item] + Repeat(item, n - 1)
  }

  // Spend the points on the three stats in the given order of preference.
  function SpendInOrder(points: int, x: UpgradeItem, xRoom: int, y: UpgradeItem, yRoom: int, z: UpgradeItem, zRoom: int): seq<UpgradeItem> {
    var a := Min(points, xRoom);
    var b := Min(points - a, yRoom);
    var d := Min(points - a - b, zRoom);
    Repeat(x, a) + Repeat(y, b) + Repeat(z, d)
  }

  // The list the server substitutes for an infeasible one: knife damage first.
  function DefaultUpgrades(c: Config, p: Stats): seq<UpgradeItem> {
    SpendInOrder(p.upgradePoint, UpgradeKnife, KnifeRoom(c, p), UpgradeHorse, HorseRoom(c, p), UpgradeMaxHp, MaxHpRoom(c, p))
  }

  function Prepared(p: Stats, seat: int): Stats {
    p.(hasKnife := false, hasHorse := false, hp := p.maxHp, initialPlace := seat, place := seat, upgradePoint := 0)
  }

  function Reset(c: Config, p: Stats): Stats {
    p.(maxHp := c.initialMaxHp, knifeDamage := c.initialKnifeDamage, horseDamage := c.initialHorseDamage, upgradePoint := 0)
  }

  // ----- the room -----

  function AliveNames(c: Config, ps: Players): set<Name> {
    set n | n in ps && Alive(c, ps[n])
  }

  function DeadNames(c: Config, ps: Players): set<Name> {
    set n | n in ps && !Alive(c, ps[n])
  }

  // Seats are numbered from 1 in name order.
  function Seat(names: set<Name>, n: Name): int {
    1 + |Before(names, n)|
  }

  function Before(names: set<Name>, n: Name): set<Name> {
    set m | m in names && m < n
  }

  function PreparedRoom(ps: Players): (r: Players)
    ensures r.Keys == ps.Keys
  {
    map n | n in ps :: Prepared(ps[n], Seat(ps.Keys, n))
  }

  function ResetRoom(c: Config, ps: Players): (r: Players)
    ensures r.Keys == ps.Keys
  {
    map n | n in ps :: Reset(c, ps[n])
  }

  function UpgradedRoom(ps: Players, upgrades: map<Name, seq<UpgradeItem>>): (r: Players)
    ensures r.Keys == ps.Keys
  {
    map n | n in ps :: if n in upgrades then Upgraded(ps[n], upgrades[n]) else ps[n]
  }

  predicate RoundOver(c: Config, ps: Players) {
    |AliveNames(c, ps)| <= 1
  }

  function MaxedNames(c: Config, ps: Players): set<Name> {
    set n | n in ps && Maxed(c, ps[n])
  }

  // Players holding points to spend.
  function Pointed(ps: Players): set<Name> {
    set n | n in ps && ps[n].upgradePoint > 0
  }
}
