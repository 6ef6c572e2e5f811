/**
  What the rules promise about one action: the punish arithmetic, the crediting of
  kills, what a round can never change, and that feasible upgrades always succeed.
 */
module RuleFacts {
  import opened Basics
  import opened Rules

  // ----- punish arithmetic -----

  lemma QuotientBounds(a: int, b: int)
    requires a >= 0 && b > 0
    ensures a / b * b <= a < (a / b + 1) * b
  {
    assert a == a / b * b + a % b;
  }

  // RoundDown is the floor of maxHp / m, RoundUp the ceiling, RoundToNearest45 rounds
  // half up and PlusOne is the floor plus one.
  lemma PunishMeaning(maxHp: int, m: int)
    requires maxHp >= 0 && m >= 1
    ensures PunishHp(RoundDown, maxHp, m) * m <= maxHp < (PunishHp(RoundDown, maxHp, m) + 1) * m
    ensures (PunishHp(RoundUp, maxHp, m) - 1) * m < maxHp <= PunishHp(RoundUp, maxHp, m) * m
    ensures (2 * PunishHp(RoundToNearest45, maxHp, m) - 1) * m <= 2 * maxHp < (2 * PunishHp(RoundToNearest45, maxHp, m) + 1) * m
    ensures (PunishHp(PlusOne, maxHp, m) - 1) * m <= maxHp < PunishHp(PlusOne, maxHp, m) * m
  {
    QuotientBounds(maxHp, m);
    QuotientBounds(maxHp + m - 1, m);
    var u := (maxHp + m - 1) / m;
    assert (u - 1) * m == u * m - m && (u + 1) * m == u * m + m;
    var q := maxHp * 2 / m;
    QuotientBounds(maxHp * 2, m);
    var r := (q + 1) / 2;
    assert 2 * r - 1 <= q <= 2 * r;
    MulMonotone(2 * r - 1, q, m);
    MulMonotone(q + 1, 2 * r + 1, m);
  }

  lemma MulMonotone(a: int, b: int, m: int)
    requires a <= b && m >= 0
    ensures a * m <= b * m
  {
    assert (b - a) * m >= 0;
  }

  lemma MulCancel(a: int, b: int, m: int)
    requires m > 0
    ensures a * m < b * m ==> a < b
    ensures a * m <= b * m ==> a <= b
  {
    if b <= a { MulMonotone(b, a, m); }
    if b < a { MulMonotone(b + 1, a, m); assert (b + 1) * m == b * m + m; }
  }

  // The formulas are ordered, and the nearest one is off by at most half a modifier.
  lemma PunishOrder(maxHp: int, m: int)
    requires maxHp >= 0 && m >= 1
    ensures 0 <= PunishHp(RoundDown, maxHp, m) <= PunishHp(RoundToNearest45, maxHp, m)
    ensures PunishHp(RoundToNearest45, maxHp, m) <= PunishHp(RoundUp, maxHp, m)
    ensures PunishHp(RoundUp, maxHp, m) <= PunishHp(PlusOne, maxHp, m) == PunishHp(RoundDown, maxHp, m) + 1
    ensures -m <= 2 * (PunishHp(RoundToNearest45, maxHp, m) * m - maxHp) <= m
  {
    PunishMeaning(maxHp, m);
    var d := PunishHp(RoundDown, maxHp, m);
    var n := PunishHp(RoundToNearest45, maxHp, m);
    var u := PunishHp(RoundUp, maxHp, m);
    BetweenHalves(maxHp, m, d, n, u);
    MulCancel(u - 1, d + 1, m);
  }

  lemma BetweenHalves(h: int, m: int, d: int, n: int, u: int)
    requires m > 0 && d * m <= h <= u * m
    requires (2 * n - 1) * m <= 2 * h < (2 * n + 1) * m
    ensures d <= n <= u
    ensures -m <= 2 * (n * m - h) <= m
  {
    assert (2 * n - 1) * m == 2 * (n * m) - m;
    assert (2 * n + 1) * m == 2 * (n * m) + m;
    assert (2 * d) * m == 2 * (d * m);
    assert (2 * u) * m == 2 * (u * m);
    MulCancel(2 * d, 2 * n + 1, m);
    MulCancel(2 * n - 1, 2 * u, m);
  }

  // ----- what stays within bounds -----

  // A player's three statistics lie between the configured initial and maximum values.
  predicate Sound(c: Config, p: Stats) {
    && c.initialKnifeDamage <= p.knifeDamage <= c.maximumKnifeDamage
    && c.initialHorseDamage <= p.horseDamage <= c.maximumHorseDamage
    && c.initialMaxHp <= p.maxHp <= c.maximumMaxHp
  }

  predicate SoundRoom(c: Config, ps: Players) {
    forall n <- ps :: Sound(c, ps[n])
  }

  // What no action of a round changes.
  predicate SameBuild(p: Stats, q: Stats) {
    p.knifeDamage == q.knifeDamage && p.horseDamage == q.horseDamage && p.maxHp == q.maxHp && p.initialPlace == q.initialPlace
  }

  lemma SlashPunishNonNegative(c: Config, p: Stats)
    requires p.maxHp >= 0
    ensures SlashPunishHp(c, p) >= 0
  {
    if c.punishHpModifier > 0 { PunishOrder(p.maxHp, c.punishHpModifier); }
  }

  // ----- kill credit -----

  // The points a player holds after k credited kills.
  function Earned(c: Config, p: Stats, k: int): int {
    Min(k, UpgradeRoom(c, p))
  }

  // Every player holds exactly the points its kills of this round have earned it.
  ghost predicate Credited(c: Config, ps: Players, kills: multiset<Name>) {
    forall n <- ps :: ps[n].upgradePoint == Earned(c, ps[n], kills[n])
  }

  // ps became qs by actions that credited the given kills.
  ghost predicate Evolved(c: Config, ps: Players, qs: Players, killers: seq<Name>) {
    && qs.Keys == ps.Keys
    && (forall n <- ps :: SameBuild(ps[n], qs[n]) && qs[n].hp <= ps[n].hp)
    && |DeadNames(c, qs)| == |DeadNames(c, ps)| + |killers|
    && (forall kills: multiset<Name> :: Credited(c, ps, kills) ==> Credited(c, qs, kills + multiset(killers)))
  }

  lemma CreditOne(c: Config, ps: Players, qs: Players, from: Name, kills: multiset<Name>)
    requires Credited(c, ps, kills) && from in ps && qs.Keys == ps.Keys
    requires forall n <- ps :: SameBuild(ps[n], qs[n])
    requires forall n <- ps :: qs[n].upgradePoint == if n == from then Credit(c, ps[n]).upgradePoint else ps[n].upgradePoint
    ensures Credited(c, qs, kills + multiset([from]))
  {
    forall n <- qs ensures qs[n].upgradePoint == Earned(c, qs[n], (kills + multiset([from]))[n]) {
      assert ps[n].upgradePoint == Earned(c, ps[n], kills[n]);
    }
  }

  lemma DamageBasics(c: Config, ps: Players, from: Name, to: Name, damage: int)
    requires from in ps && to in ps && damage >= 0
    ensures var qs := ApplyDamage(c, ps, from, to, damage);
            && (forall n <- ps :: SameBuild(ps[n], qs[n]) && qs[n].hp <= ps[n].hp)
            && DeadNames(c, qs) == DeadNames(c, ps) + (if Kills(c, ps[to], damage) then {to} else {})
            && (forall n <- ps :: qs[n].upgradePoint == if Kills(c, ps[to], damage) && n == from then Credit(c, ps[n]).upgradePoint else ps[n].upgradePoint)
  {
  }

  lemma DamageEvolves(c: Config, ps: Players, from: Name, to: Name, damage: int)
    requires from in ps && to in ps && damage >= 0 && SoundRoom(c, ps)
    ensures Evolved(c, ps, ApplyDamage(c, ps, from, to, damage), if Kills(c, ps[to], damage) then [from] else [])
    ensures SoundRoom(c, ApplyDamage(c, ps, from, to, damage))
  {
    var qs := ApplyDamage(c, ps, from, to, damage);
    DamageBasics(c, ps, from, to, damage);
    if Kills(c, ps[to], damage) {
      DamageCredits(c, ps, from, to, damage);
    } else {
      RelabelCredits(c, ps, qs);
    }
    forall n <- qs ensures Sound(c, qs[n]) {
      assert SameBuild(ps[n], qs[n]);
    }
  }

  lemma DamageCredits(c: Config, ps: Players, from: Name, to: Name, damage: int)
    requires from in ps && to in ps && damage >= 0
    requires Kills(c, ps[to], damage)
    ensures forall kills: multiset<Name> | Credited(c, ps, kills) ::
              Credited(c, ApplyDamage(c, ps, from, to, damage), kills + multiset([from]))
  {
    DamageBasics(c, ps, from, to, damage);
    forall kills: multiset<Name> | Credited(c, ps, kills)
      ensures Credited(c, ApplyDamage(c, ps, from, to, damage), kills + multiset([from]))
    {
      CreditOne(c, ps, ApplyDamage(c, ps, from, to, damage), from, kills);
    }
  }

  lemma RelabelCredits(c: Config, ps: Players, qs: Players)
    requires qs.Keys == ps.Keys
    requires forall n <- ps :: SameBuild(ps[n], qs[n]) && qs[n].upgradePoint == ps[n].upgradePoint
    ensures forall kills: multiset<Name> | Credited(c, ps, kills) :: Credited(c, qs, kills + multiset([]))
  {
    forall kills: multiset<Name> | Credited(c, ps, kills)
      ensures Credited(c, qs, kills + multiset([]))
    {
      assert kills + multiset([]) == kills;
      forall n <- qs ensures qs[n].upgradePoint == Earned(c, qs[n], kills[n]) {
        assert ps[n].upgradePoint == Earned(c, ps[n], kills[n]);
      }
    }
  }

  lemma EvolvesOn(c: Config, ps: Players, qs: Players, rs: Players, a: seq<Name>, b: seq<Name>)
    requires Evolved(c, ps, qs, a) && Evolved(c, qs, rs, b)
    ensures Evolved(c, ps, rs, a + b)
  {
    forall kills: multiset<Name> | Credited(c, ps, kills)
      ensures Credited(c, rs, kills + multiset(a + b))
    {
      assert Credited(c, rs, kills + multiset(a) + multiset(b));
      assert kills + multiset(a) + multiset(b) == kills + multiset(a + b);
    }
  }

  lemma RelabelEvolves(c: Config, ps: Players, qs: Players)
    requires qs.Keys == ps.Keys
    requires forall n <- ps :: SameBuild(ps[n], qs[n]) && qs[n].hp == ps[n].hp && qs[n].upgradePoint == ps[n].upgradePoint
    ensures Evolved(c, ps, qs, [])
  {
    assert DeadNames(c, qs) == DeadNames(c, ps);
    RelabelCredits(c, ps, qs);
  }

  // Any action, feasible or not: nobody's build changes, HP never rises, every death is
  // credited exactly once, and points are kills capped by what can still be upgraded.
  lemma PerformEvolves(c: Config, ps: Players, from: Name, a: Action, to: Name, toPlace: int)
    requires from in ps && SoundRoom(c, ps) && c.Ordered()
    ensures Evolved(c, ps, Perform(c, ps, from, a, to, toPlace), Killers(c, ps, from, a, to, toPlace))
    ensures SoundRoom(c, Perform(c, ps, from, a, to, toPlace))
  {
    var qs := Perform(c, ps, from, a, to, toPlace);
    if Feasible(c, ps, from, a, to, toPlace) && a.Slash? {
      var struck := ApplyDamage(c, ps, from, to, ps[from].knifeDamage);
      DamageEvolves(c, ps, from, to, ps[from].knifeDamage);
      var punish := SlashPunishHp(c, struck[from]);
      SlashPunishNonNegative(c, struck[from]);
      DamageEvolves(c, struck, to, from, punish);
      if punish == 0 {
        RelabelEvolves(c, struck, struck);
      }
      EvolvesOn(c, ps, struck, qs,
                if Kills(c, ps[to], ps[from].knifeDamage) then [from] else [],
                if Kills(c, struck[from], punish) then [to] else []);
    } else if Feasible(c, ps, from, a, to, toPlace) && a.Kick? {
      var struck := ApplyDamage(c, ps, from, to, ps[from].horseDamage);
      DamageEvolves(c, ps, from, to, ps[from].horseDamage);
      RelabelEvolves(c, struck, qs);
      var killers := if Kills(c, ps[to], ps[from].horseDamage) then [from] else [];
      EvolvesOn(c, ps, struck, qs, killers, []);
      assert killers + [] == killers;
    } else {
      RelabelEvolves(c, ps, qs);
    }
  }

  // A strike that takes a life is credited to the striker; a slasher who dies of the punish
  // is credited to the player it slashed, even one that just died.
  lemma SlashCredit(c: Config, ps: Players, from: Name, to: Name)
    requires from in ps && SoundRoom(c, ps) && c.Ordered()
    requires Feasible(c, ps, from, Slash, to, 0)
    ensures var qs := Perform(c, ps, from, Slash, to, 0);
            var killers := Killers(c, ps, from, Slash, to, 0);
            && (from in killers <==> !Alive(c, qs[to]))
            && (to in killers <==> !Alive(c, qs[from]))
            && qs[to].hp == ps[to].hp - ps[from].knifeDamage
            && qs[from].hp == ps[from].hp - SlashPunishHp(c, ps[from])
            && qs[from].place == ps[from].place == ps[to].place == qs[to].place
    ensures from != to && ps[from].hasKnife && Alive(c, ps[from]) && Alive(c, ps[to])
  {
    SlashPunishNonNegative(c, ps[from]);
  }

  // What a slash takes from the slasher itself: nothing in the Village or when slashes are not
  // punished, and else its max HP over the modifier, rounded the way the match has it.
  lemma SlashCost(c: Config, ps: Players, from: Name, to: Name)
    requires from in ps && SoundRoom(c, ps) && c.Ordered()
    requires Feasible(c, ps, from, Slash, to, 0)
    ensures var x := ps[from].hp - Perform(c, ps, from, Slash, to, 0)[from].hp;
            var h, m := ps[from].maxHp, c.punishHpModifier;
            if ps[from].place == VILLAGE || m <= 0 then x == 0
            else
              match c.punishHpRoundStrategy
              case RoundDown => m * x <= h < m * (x + 1)
              case RoundToNearest45 => -m <= 2 * (h - m * x) < m
              case RoundUp => m * (x - 1) < h <= m * x
              case PlusOne => m * (x - 1) <= h < m * x
  {
    SlashCredit(c, ps, from, to);
    var x, h, m := ps[from].hp - Perform(c, ps, from, Slash, to, 0)[from].hp, ps[from].maxHp, c.punishHpModifier;
    hide Perform, Feasible, PunishHp;
    if ps[from].place != VILLAGE && m > 0 {
      assert x == PunishHp(c.punishHpRoundStrategy, h, m);
      PunishMeaning(h, m);
      SpreadOut(x, m);
    }
  }

  lemma SpreadOut(x: int, m: int)
    ensures x * m == m * x && (x + 1) * m == m * (x + 1) && (x - 1) * m == m * (x - 1)
    ensures (2 * x - 1) * m == 2 * (m * x) - m && (2 * x + 1) * m == 2 * (m * x) + m
  {
  }

  // ----- when an action is allowed -----

  // Zero HP is death or not, as the match has it; above zero everybody lives and below nobody.
  lemma AliveMeaning(c: Config, p: Stats)
    ensures Alive(c, p) <==> p.hp > 0 || (p.hp == 0 && !c.zeroHpAsDead)
  {
  }

  // One step leads from the Village to a place that is not, or the other way; to let oneself move is
  // to move.
  lemma MoveMeaning(c: Config, ps: Players, from: Name, to: Name, toPlace: int)
    requires from in ps
    ensures Feasible(c, ps, from, Move, to, toPlace) <==>
              Alive(c, ps[from]) && ((ps[from].place == VILLAGE && toPlace != VILLAGE) || (ps[from].place != VILLAGE && toPlace == VILLAGE))
    ensures Feasible(c, ps, from, LetMove, from, toPlace) <==>
              Alive(c, ps[from]) && ((ps[from].place == VILLAGE && toPlace != VILLAGE) || (ps[from].place != VILLAGE && toPlace == VILLAGE))
  {
  }

  // A blow needs its weapon, another living player and one place; a kick needs a city for it too.
  lemma StrikeMeaning(c: Config, ps: Players, from: Name, to: Name, toPlace: int)
    requires from in ps
    ensures Feasible(c, ps, from, Slash, to, toPlace) <==>
              && to in ps && to != from && Alive(c, ps[from]) && Alive(c, ps[to])
              && ps[from].hasKnife && ps[to].place == ps[from].place
    ensures Feasible(c, ps, from, Kick, to, toPlace) <==>
              && to in ps && to != from && Alive(c, ps[from]) && Alive(c, ps[to])
              && ps[from].hasHorse && ps[to].place == ps[from].place && ps[from].place != VILLAGE
  {
  }

  // One knife and one horse each; shops are in the player's starting place, or in every city.
  lemma ShopMeaning(c: Config, ps: Players, from: Name, to: Name, toPlace: int)
    requires from in ps
    ensures var p := ps[from];
            var shop := (c.canBuyOnlyInInitialCity && p.place == p.initialPlace) || (!c.canBuyOnlyInInitialCity && p.place != VILLAGE);
            && (Feasible(c, ps, from, BuyKnife, to, toPlace) <==> Alive(c, p) && !p.hasKnife && shop)
            && (Feasible(c, ps, from, BuyHorse, to, toPlace) <==> Alive(c, p) && !p.hasHorse && shop)
            && (Feasible(c, ps, from, DoNothing, to, toPlace) <==> Alive(c, p))
  {
  }

  // ----- the star map and what actions leave alone -----

  // Cities touch the Village and nothing else: any two places are at most two steps apart, the
  // Village lies between any two cities, and nobody stays put by moving.
  lemma StarMap(p: int, q: int)
    ensures !Adjacent(p, p) && (Adjacent(p, q) <==> Adjacent(q, p))
    ensures p != q ==> (Adjacent(p, q) <==> p == VILLAGE || q == VILLAGE)
    ensures p != q && !Adjacent(p, q) ==> forall r :: Adjacent(p, r) && Adjacent(r, q) <==> r == VILLAGE
  {
  }

  // To let somebody else move is to pull or to push: the other takes one step, and the mover stands
  // where that step begins or where it ends.
  lemma LetMoveMeaning(c: Config, p: Stats, to: Stats, toPlace: int)
    ensures CanLetMove(c, p, to, false, toPlace) <==>
              c.enableLetMove && Alive(c, p) && Alive(c, to) && Adjacent(to.place, toPlace) && p.place in {to.place, toPlace}
    ensures CanLetMove(c, p, p, true, toPlace) <==>
              Alive(c, p) && ((p.place == VILLAGE && toPlace != VILLAGE) || (p.place != VILLAGE && toPlace == VILLAGE))
  {
  }

  // A kick happens in a city and needs a horse; it leaves its victim in the Village or dead.
  lemma KickMeaning(c: Config, ps: Players, from: Name, to: Name)
    requires from in ps && Feasible(c, ps, from, Kick, to, 0)
    ensures from != to && ps[from].hasHorse && ps[from].place == ps[to].place != VILLAGE
    ensures var q := Perform(c, ps, from, Kick, to, 0)[to];
            && q.hp == ps[to].hp - ps[from].horseDamage
            && (Alive(c, q) ==> q.place == VILLAGE) && (!Alive(c, q) ==> q.place == ps[to].place)
    ensures Perform(c, ps, from, Kick, to, 0)[from].hp == ps[from].hp && Perform(c, ps, from, Kick, to, 0)[from].place == ps[from].place
  {
  }

  // An action touches the actor and its target at most; knives and horses are only ever gained, and
  // only by buying them.
  lemma ActionFrame(c: Config, ps: Players, from: Name, a: Action, to: Name, toPlace: int, n: Name)
    requires from in ps && n in ps
    ensures var q := Perform(c, ps, from, a, to, toPlace)[n]; var done := Feasible(c, ps, from, a, to, toPlace);
            && (n != from && n != to ==> q == ps[n])
            && (n != from && !NeedsTarget(a) ==> q == ps[n])
            && (q.hasKnife <==> ps[n].hasKnife || (done && a == BuyKnife && n == from))
            && (q.hasHorse <==> ps[n].hasHorse || (done && a == BuyHorse && n == from))
            && (!done || a in {DoNothing, BuyKnife, BuyHorse, Move, LetMove} ==> q.hp == ps[n].hp && q.upgradePoint == ps[n].upgradePoint)
            && (done && a == Move ==> (n == from ==> q.place == toPlace))
            && (done && a == LetMove ==> (n == to ==> q.place == toPlace) && (n != to ==> q == ps[n]))
  {
    hide Alive, CanBuyKnife, CanBuyHorse, CanSlash, CanKick, CanMove, CanLetMove, Kills, SlashPunishHp;
  }

  // ----- upgrades -----

  // The list, applied item by item; None when some item fails.
  ghost function ApplyUpgrades(c: Config, p: Stats, items: seq<UpgradeItem>): Option<Stats>
    decreases |items|
  {
    if items == [] then Some(p)
    else
      match UpgradeOne(c, p, items[0])
      case None => None
      case Some(q) => ApplyUpgrades(c, q, items[1..])
  }

  lemma CountSplit(items: seq<UpgradeItem>, item: UpgradeItem)
    requires items != []
    ensures Count(items, item) == (if items[0] == item then 1 else 0) + Count(items[1..], item)
  {
    assert items == [items[0]] + items[1..];
  }

  lemma {:induction false} CountTotal(items: seq<UpgradeItem>)
    ensures Count(items, UpgradeKnife) + Count(items, UpgradeHorse) + Count(items, UpgradeMaxHp) == |items|
  {
    if items != [] {
      CountSplit(items, UpgradeKnife);
      CountSplit(items, UpgradeHorse);
      CountSplit(items, UpgradeMaxHp);
      CountTotal(items[1..]);
    }
  }

  // The same loop without a look at what fails: an item that cannot be had is passed over.
  ghost function Attempted(c: Config, p: Stats, items: seq<UpgradeItem>): Stats
    decreases |items|
  {
    if items == [] then p
    else
      match UpgradeOne(c, p, items[0])
      case None => Attempted(c, p, items[1..])
      case Some(q) => Attempted(c, q, items[1..])
  }

  ghost function AttemptedRoom(c: Config, ps: Players, lists: map<Name, seq<UpgradeItem>>): Players {
    map n | n in ps :: if n in lists then Attempted(c, ps[n], lists[n]) else ps[n]
  }

  // How many of `count` single upgrades a statistic with this much room takes.
  function Taken(count: int, room: int): int {
    if room <= 0 then 0 else Min(count, room)
  }

  // Whatever is on the list, every statistic takes of it what it has room for.
  lemma {:induction false} AttemptTakes(c: Config, p: Stats, items: seq<UpgradeItem>)
    ensures Attempted(c, p, items) == p.(knifeDamage := p.knifeDamage + Taken(Count(items, UpgradeKnife), c.maximumKnifeDamage - p.knifeDamage),
                                         horseDamage := p.horseDamage + Taken(Count(items, UpgradeHorse), c.maximumHorseDamage - p.horseDamage),
                                         maxHp := p.maxHp + Taken(Count(items, UpgradeMaxHp), c.maximumMaxHp - p.maxHp))
    decreases |items|
  {
    if items != [] {
      CountSplit(items, UpgradeKnife);
      CountSplit(items, UpgradeHorse);
      CountSplit(items, UpgradeMaxHp);
      match UpgradeOne(c, p, items[0])
      case None => AttemptTakes(c, p, items[1..]);
      case Some(q) => AttemptTakes(c, q, items[1..]);
    }
  }

  // A list goes through item by item exactly when no statistic is asked for more than it takes, and
  // then its counts are added.
  lemma {:induction false} UpgradesSucceed(c: Config, p: Stats, items: seq<UpgradeItem>)
    ensures ApplyUpgrades(c, p, items).Some? <==>
            Count(items, UpgradeKnife) == Taken(Count(items, UpgradeKnife), c.maximumKnifeDamage - p.knifeDamage)
            && Count(items, UpgradeHorse) == Taken(Count(items, UpgradeHorse), c.maximumHorseDamage - p.horseDamage)
            && Count(items, UpgradeMaxHp) == Taken(Count(items, UpgradeMaxHp), c.maximumMaxHp - p.maxHp)
    ensures ApplyUpgrades(c, p, items).Some? ==> ApplyUpgrades(c, p, items).value == Upgraded(p, items) == Attempted(c, p, items)
    decreases |items|
  {
    if items != [] {
      CountSplit(items, UpgradeKnife);
      CountSplit(items, UpgradeHorse);
      CountSplit(items, UpgradeMaxHp);
      hide Attempted;
      match UpgradeOne(c, p, items[0])
      case None =>
      case Some(q) => UpgradesSucceed(c, q, items[1..]);
    }
    AttemptTakes(c, p, items);
  }

  lemma {:induction false} RepeatCount(item: UpgradeItem, n: int, other: UpgradeItem)
    requires n >= 0
    ensures |Repeat(item, n)| == n
    ensures Count(Repeat(item, n), other) == if item == other then n else 0
  {
    if n > 0 {
      RepeatCount(item, n - 1, other);
      CountSplit(Repeat(item, n), other);
      assert Repeat(item, n)[1..] == Repeat(item, n - 1);
    }
  }

  lemma CountConcat(a: seq<UpgradeItem>, b: seq<UpgradeItem>, item: UpgradeItem)
    ensures Count(a + b, item) == Count(a, item) + Count(b, item)
  {
    assert multiset(a + b) == multiset(a) + multiset(b);
  }

  lemma RepeatThree(items: seq<UpgradeItem>, x: UpgradeItem, a: nat, y: UpgradeItem, b: nat, z: UpgradeItem, d: nat)
    requires items == Repeat(x, a) + Repeat(y, b) + Repeat(z, d)
    requires x != y && y != z && x != z
    ensures |items| == a + b + d
    ensures Count(items, x) == a && Count(items, y) == b && Count(items, z) == d
  {
    forall item: UpgradeItem
      ensures |items| == a + b + d
      ensures Count(items, item) == Count(Repeat(x, a), item) + Count(Repeat(y, b), item) + Count(Repeat(z, d), item)
    {
      RepeatCount(x, a, item);
      RepeatCount(y, b, item);
      RepeatCount(z, d, item);
      CountConcat(Repeat(x, a), Repeat(y, b), item);
      CountConcat(Repeat(x, a) + Repeat(y, b), Repeat(z, d), item);
    }
    RepeatCount(x, a, x); RepeatCount(y, b, x); RepeatCount(z, d, x);
    RepeatCount(x, a, y); RepeatCount(y, b, y); RepeatCount(z, d, y);
    RepeatCount(x, a, z); RepeatCount(y, b, z); RepeatCount(z, d, z);
  }

  // Spending greedily in any order of the three statistics uses every point and respects every
  // limit, as long as the points do not exceed the total room.
  lemma SpendInOrderFits(points: int, x: UpgradeItem, xRoom: int, y: UpgradeItem, yRoom: int, z: UpgradeItem, zRoom: int)
    requires 0 <= points <= xRoom + yRoom + zRoom
    requires xRoom >= 0 && yRoom >= 0 && zRoom >= 0
    requires x != y && y != z && x != z
    ensures var items := SpendInOrder(points, x, xRoom, y, yRoom, z, zRoom);
            |items| == points && Count(items, x) <= xRoom && Count(items, y) <= yRoom && Count(items, z) <= zRoom
  {
    hide SpendInOrder, Count;
    SpentInOrder(points, x, xRoom, y, yRoom, z, zRoom);
  }

  // The three calls of the lambda `take`, as the server's fallback and both bots make them.
  method SpendPoints(points: nat, x: UpgradeItem, xRoom: nat, y: UpgradeItem, yRoom: nat, z: UpgradeItem, zRoom: nat)
    returns (items: seq<UpgradeItem>)
    ensures items == SpendInOrder(points, x, xRoom, y, yRoom, z, zRoom)
  {
    var left := points;
    var first, second, third;
    first, left := TakeItems(left, x, xRoom);
    second, left := TakeItems(left, y, yRoom);
    third, left := TakeItems(left, z, zRoom);
    items := first + second + third;
  }

  method TakeItems(left: nat, item: UpgradeItem, room: nat) returns (items: seq<UpgradeItem>, rest: nat)
    ensures items == Repeat(item, Min(left, room)) && rest == left - Min(left, room)
  {
    items := [];
    var n := if left < room then left else room;
    for i := 0 to n
      invariant items == Repeat(item, i)
    {
      RepeatSnoc(item, i);
      items := items + [item];
    }
    rest := left - n;
  }

  lemma {:induction false} RepeatSnoc(item: UpgradeItem, n: nat)
    ensures Repeat(item, n + 1) == Repeat(item, n) + [item]
  {
    if n > 0 { RepeatSnoc(item, n - 1); }
  }

  lemma DefaultUpgradesFeasible(c: Config, p: Stats)
    requires Sound(c, p) && 0 <= p.upgradePoint <= UpgradeRoom(c, p)
    ensures UpgradeFeasible(c, p, DefaultUpgrades(c, p))
  {
    SpendInOrderFits(p.upgradePoint, UpgradeKnife, KnifeRoom(c, p), UpgradeHorse, HorseRoom(c, p), UpgradeMaxHp, MaxHpRoom(c, p));
  }

  // Points go to the knife as far as it has room, then to the horse, and what is left to max HP.
  lemma DefaultUpgradesSpend(c: Config, p: Stats)
    requires Sound(c, p) && 0 <= p.upgradePoint <= UpgradeRoom(c, p)
    ensures var items := DefaultUpgrades(c, p);
            var knives := Min(p.upgradePoint, c.maximumKnifeDamage - p.knifeDamage);
            var horses := Min(p.upgradePoint - knives, c.maximumHorseDamage - p.horseDamage);
            && |items| == p.upgradePoint
            && Count(items, UpgradeKnife) == knives && Count(items, UpgradeHorse) == horses
            && Count(items, UpgradeMaxHp) == p.upgradePoint - knives - horses
  {
    SpentInOrder(p.upgradePoint, UpgradeKnife, KnifeRoom(c, p), UpgradeHorse, HorseRoom(c, p), UpgradeMaxHp, MaxHpRoom(c, p));
  }

  // The first statistic takes all it has room for, the second what is left over, the third the rest.
  lemma SpentInOrder(points: int, x: UpgradeItem, xRoom: int, y: UpgradeItem, yRoom: int, z: UpgradeItem, zRoom: int)
    requires 0 <= points <= xRoom + yRoom + zRoom
    requires xRoom >= 0 && yRoom >= 0 && zRoom >= 0
    requires x != y && y != z && x != z
    ensures var items := SpendInOrder(points, x, xRoom, y, yRoom, z, zRoom);
            && |items| == points && Count(items, x) == Min(points, xRoom)
            && Count(items, y) == Min(points - Count(items, x), yRoom)
            && Count(items, z) == points - Count(items, x) - Count(items, y)
  {
    hide Repeat, Count;
    var a := Min(points, xRoom);
    var b := Min(points - a, yRoom);
    var d := Min(points - a - b, zRoom);
    RepeatThree(SpendInOrder(points, x, xRoom, y, yRoom, z, zRoom), x, a, y, b, z, d);
  }

  // An upgrade spends exactly the points: the room left shrinks by their number.
  lemma UpgradeSpends(c: Config, p: Stats, items: seq<UpgradeItem>)
    requires Sound(c, p) && UpgradeFeasible(c, p, items)
    ensures Sound(c, Upgraded(p, items))
    ensures UpgradeRoom(c, Upgraded(p, items)) == UpgradeRoom(c, p) - p.upgradePoint
  {
    CountTotal(items);
  }
}
