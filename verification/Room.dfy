/**
  The classes Player and Room: fields updated in place, and methods proved against the rules. The
  room keeps its players as std::map does, in name order.
 */
module RoomClasses {
  import opened Basics
  import opened Rules
  import opened RuleFacts

  // ----- what two-player actions do to the two -----

  function Hurt(p: Stats, damage: int): Stats { p.(hp := p.hp - damage) }

  function Striker(c: Config, p: Stats, to: Stats, damage: int): Stats {
    if Kills(c, to, damage) then Credit(c, p) else p
  }

  function SlashedOne(c: Config, p: Stats, to: Stats): Stats {
    var struck := Hurt(to, p.knifeDamage);
    var credited := Striker(c, p, to, p.knifeDamage);
    var punish := SlashPunishHp(c, credited);
    if punish > 0 then Striker(c, struck, credited, punish) else struck
  }

  function Slasher(c: Config, p: Stats, to: Stats): Stats {
    var credited := Striker(c, p, to, p.knifeDamage);
    var punish := SlashPunishHp(c, credited);
    if punish > 0 then Hurt(credited, punish) else credited
  }

  function KickedOne(c: Config, p: Stats, to: Stats): Stats {
    var struck := Hurt(to, p.horseDamage);
    if Alive(c, struck) then struck.(place := VILLAGE) else struck
  }

  lemma SlashTouchesTwo(c: Config, ps: Players, from: Name, to: Name)
    requires from in ps && to in ps && from != to
    ensures SlashEffect(c, ps, from, to) == ps[to := SlashedOne(c, ps[from], ps[to])][from := Slasher(c, ps[from], ps[to])]
  {
  }

  lemma KickTouchesTwo(c: Config, ps: Players, from: Name, to: Name)
    requires from in ps && to in ps && from != to
    ensures KickEffect(c, ps, from, to) == ps[to := KickedOne(c, ps[from], ps[to])][from := Striker(c, ps[from], ps[to], ps[from].horseDamage)]
  {
  }

  // ----- Player -----

  class Player {
    const name: Name
    const c: Config            // the room's configuration
    var hasKnife: bool
    var hasHorse: bool
    var hp: int
    var place: int
    var initialPlace: int
    var knifeDamage: int
    var horseDamage: int
    var maxHp: int
    var upgradePoint: int

    constructor (name: Name, c: Config)
      ensures this.name == name && this.c == c && View() == Fresh(c)
    {
      this.name, this.c := name, c;
      hasKnife, hasHorse := false, false;
      hp, place, initialPlace := c.initialMaxHp, VILLAGE, VILLAGE;
      knifeDamage, horseDamage, maxHp, upgradePoint := c.initialKnifeDamage, c.initialHorseDamage, c.initialMaxHp, 0;
    }

    function View(): Stats
      reads this
    {
      Stats(hasKnife, hasHorse, hp, place, initialPlace, knifeDamage, horseDamage, maxHp, upgradePoint)
    }

    // Tells whether this very change of HP took the player's life.
    method SetHp(h: int) returns (kills: bool)
      modifies this
      ensures View() == old(View()).(hp := h)
      ensures kills == (Alive(c, old(View())) && c.DeadAt(h))
    {
      kills := false;
      if hp != h {
        var wasDead := c.DeadAt(hp);
        hp := h;
        if !wasDead && c.DeadAt(hp) { kills := true; }
      }
    }

    static method ApplyDamage(from: Player, to: Player, damage: int)
      requires from != to && from.c == to.c
      modifies from, to
      ensures to.View() == Hurt(old(to.View()), damage)
      ensures from.View() == Striker(from.c, old(from.View()), old(to.View()), damage)
    {
      var kills := to.SetHp(to.hp - damage);
      if kills {
        var remaining := KnifeRoom(from.c, from.View()) + HorseRoom(from.c, from.View()) + MaxHpRoom(from.c, from.View());
        from.upgradePoint := Min(from.upgradePoint + 1, remaining);
      }
    }

    method Slash(to: Player) returns (ok: bool)
      requires c == to.c
      modifies this, to
      ensures ok == CanSlash(c, old(View()), old(to.View()), this == to)
      ensures if ok then View() == Slasher(c, old(View()), old(to.View())) && to.View() == SlashedOne(c, old(View()), old(to.View()))
              else View() == old(View()) && to.View() == old(to.View())
    {
      if !CanSlash(c, View(), to.View(), this == to) { return false; }
      ApplyDamage(this, to, knifeDamage);
      var punishedHp := SlashPunishHp(c, View());
      if punishedHp > 0 { ApplyDamage(to, this, punishedHp); }
      return true;
    }

    method Kick(to: Player) returns (ok: bool)
      requires c == to.c
      modifies this, to
      ensures ok == CanKick(c, old(View()), old(to.View()), this == to)
      ensures if ok then View() == Striker(c, old(View()), old(to.View()), old(horseDamage)) && to.View() == KickedOne(c, old(View()), old(to.View()))
              else View() == old(View()) && to.View() == old(to.View())
    {
      if !CanKick(c, View(), to.View(), this == to) { return false; }
      ApplyDamage(this, to, horseDamage);
      if !c.DeadAt(to.hp) { to.place := VILLAGE; }
      return true;
    }

    method MoveTo(toPlace: int) returns (ok: bool)
      modifies `place
      ensures ok == CanMove(c, old(View()), toPlace)
      ensures View() == if ok then old(View()).(place := toPlace) else old(View())
    {
      ok := CanMove(c, View(), toPlace);
      if ok { place := toPlace; }
    }

    method LetMoveTo(to: Player, toPlace: int) returns (ok: bool)
      modifies to`place
      ensures ok == CanLetMove(c, old(View()), old(to.View()), this == to, toPlace)
      ensures to.View() == if ok then old(to.View()).(place := toPlace) else old(to.View())
    {
      ok := CanLetMove(c, View(), to.View(), this == to, toPlace);
      if ok { to.place := toPlace; }
    }

    method Buy(knife: bool) returns (ok: bool)
      modifies `hasKnife, `hasHorse
      ensures ok == if knife then CanBuyKnife(c, old(View())) else CanBuyHorse(c, old(View()))
      ensures View() == if !ok then old(View()) else if knife then old(View()).(hasKnife := true) else old(View()).(hasHorse := true)
    {
      ok := if knife then CanBuyKnife(c, View()) else CanBuyHorse(c, View());
      if ok {
        if knife { hasKnife := true; } else { hasHorse := true; }
      }
    }

    method Upgrade(item: UpgradeItem) returns (ok: bool)
      modifies this
      ensures ok == UpgradeOne(c, old(View()), item).Some?
      ensures View() == if ok then UpgradeOne(c, old(View()), item).value else old(View())
    {
      match item
      case UpgradeKnife =>
        ok := KnifeRoom(c, View()) > 0;
        if ok { knifeDamage := knifeDamage + 1; }
      case UpgradeHorse =>
        ok := HorseRoom(c, View()) > 0;
        if ok { horseDamage := horseDamage + 1; }
      case UpgradeMaxHp =>
        ok := MaxHpRoom(c, View()) > 0;
        if ok { maxHp := maxHp + 1; }
    }

    // A whole list, item by item; it goes through if every item does.
    method UpgradeAll(items: seq<UpgradeItem>) returns (ok: bool)
      modifies this
      ensures ok <==> ApplyUpgrades(c, old(View()), items).Some?
      ensures View() == Attempted(c, old(View()), items)
    {
      ok := true;
      ghost var start := View();
      for i := 0 to |items|
        invariant ok <==> ApplyUpgrades(c, start, items[..i]).Some?
        invariant ok ==> View() == ApplyUpgrades(c, start, items[..i]).value
        invariant View() == Attempted(c, start, items[..i])
      {
        ApplySnoc(c, start, items[..i], items[i]);
        assert items[..i + 1] == items[..i] + [items[i]];
        var success := Upgrade(items[i]);
        ok := ok && success;
      }
      assert items[..|items|] == items;
    }

    method PrepareForRoundStart(seat: int)
      modifies this
      ensures View() == Prepared(old(View()), seat)
    {
      hasKnife, hasHorse := false, false;
      var _ := SetHp(maxHp);
      initialPlace := seat;
      place := seat;
      upgradePoint := 0;
    }

    method ResetUpgrades()
      modifies this
      ensures View() == Reset(c, old(View()))
    {
      maxHp := c.initialMaxHp;
      knifeDamage := c.initialKnifeDamage;
      horseDamage := c.initialHorseDamage;
      upgradePoint := 0;
    }
  }

  lemma {:induction false} ApplySnoc(c: Config, p: Stats, items: seq<UpgradeItem>, item: UpgradeItem)
    ensures ApplyUpgrades(c, p, items + [item]) ==
            if ApplyUpgrades(c, p, items).None? then None else UpgradeOne(c, ApplyUpgrades(c, p, items).value, item)
    ensures Attempted(c, p, items + [item]) ==
            match UpgradeOne(c, Attempted(c, p, items), item) case None => Attempted(c, p, items) case Some(q) => q
    decreases |items|
  {
    if items == [] {
      assert items + [item] == [item] && [item][1..] == [];
    } else {
      assert (items + [item])[1..] == items[1..] + [item];
      match UpgradeOne(c, p, items[0])
      case None => ApplySnoc(c, p, items[1..], item);
      case Some(q) => ApplySnoc(c, q, items[1..], item);
    }
  }

  // ----- ascending lists of names, the keys of a std::map -----

  lemma AscendingAppend(l: seq<Name>, n: Name)
    requires Ascending(l) && forall m <- l :: m < n
    ensures Ascending(l + [n]) && n !in l && forall m :: m in l + [n] <==> m in l || m == n
  {
    forall i, j | 0 <= i < j < |l + [n]| ensures (l + [n])[i] < (l + [n])[j] {
      if j == |l| { assert l[i] in l; }
    }
  }

  lemma AscendingInsert(l: seq<Name>, at: nat, n: Name)
    requires Ascending(l) && at <= |l| && n !in l
    requires forall i | 0 <= i < at :: l[i] < n
    requires at < |l| ==> n < l[at]
    ensures Ascending(l[..at] + [n] + l[at..]) && forall m :: m in l[..at] + [n] + l[at..] <==> m in l || m == n
  {
    var r := l[..at] + [n] + l[at..];
    forall i, j | 0 <= i < j < |r| ensures r[i] < r[j] {
      assert r[i] == if i < at then l[i] else if i == at then n else l[i - 1];
      assert r[j] == if j < at then l[j] else if j == at then n else l[j - 1];
    }
    assert l == l[..at] + l[at..];
  }

  lemma AscendingDrop(l: seq<Name>, at: nat)
    requires Ascending(l) && at < |l|
    ensures Ascending(l[..at] + l[at + 1..]) && forall m :: m in l[..at] + l[at + 1..] <==> m in l && m != l[at]
  {
    assert l == l[..at] + [l[at]] + l[at + 1..];
    AscendingAround(l, at);
    assert Ascending(l[..at] + l[at + 1..]);
  }

  lemma AscendingAround(l: seq<Name>, at: nat)
    requires Ascending(l) && at < |l|
    ensures l[at] !in l[..at] && l[at] !in l[at + 1..]
  {
  }

  lemma AscendingPrefix(l: seq<Name>, i: nat)
    requires Ascending(l) && i < |l|
    ensures forall m <- l[..i] :: m < l[i]
    ensures forall m :: m in l[..i + 1] <==> m in l[..i] || m == l[i]
    ensures l[i] !in l[..i]
  {
    assert l[..i + 1] == l[..i] + [l[i]];
  }

  lemma {:induction false} DistinctSize(l: seq<Name>, s: set<Name>)
    requires Ascending(l) && forall n :: n in s <==> n in l
    ensures |s| == |l|
  {
    if l == [] {
      assert s == {};
    } else {
      var last := |l| - 1;
      AscendingPrefix(l, last);
      assert l[..last + 1] == l;
      DistinctSize(l[..last], s - {l[last]});
    }
  }

  // The i-th name, counting from 0, sits on seat i + 1.
  lemma SeatInOrder(l: seq<Name>, names: set<Name>, i: nat)
    requires Ascending(l) && i < |l| && forall n :: n in names <==> n in l
    ensures Seat(names, l[i]) == i + 1
  {
    AscendingPrefix(l, i);
    var before := Before(names, l[i]);
    forall m ensures m in before <==> m in l[..i] {
      if m in before {
        var k :| 0 <= k < |l| && l[k] == m;
        assert k < i;
        assert l[..i][k] == m;
      }
    }
    DistinctSize(l[..i], before);
  }

  // Where a name that is not on the list belongs.
  method LowerBound(l: seq<Name>, n: Name) returns (at: nat)
    requires n !in l
    ensures at <= |l| && (forall i | 0 <= i < at :: l[i] < n) && (at < |l| ==> n < l[at])
  {
    at := 0;
    while at < |l| && l[at] < n
      invariant at <= |l|
      invariant forall i | 0 <= i < at :: l[i] < n
    {
      at := at + 1;
    }
    assert at < |l| ==> l[at] in l;
  }

  // ----- Room -----

  class Room {
    const c: Config
    var names: seq<Name>                 // ascending: the keys of the std::map
    var players: map<Name, Player>

    ghost predicate Valid()
      reads this
    {
      && Ascending(names)
      && (forall n :: n in names <==> n in players)
      && (forall n <- players :: players[n].name == n && players[n].c == c)
    }

    ghost function Objects(): set<Player>
      reads this
    {
      set n | n in players :: players[n]
    }

    ghost function View(): Players
      reads this, Objects()
    {
      map n | n in players :: players[n].View()
    }

    constructor (c: Config)
      ensures Valid() && View() == map[] && this.c == c && Objects() == {}
    {
      this.c := c;
      names := [];
      players := map[];
    }

    method Insert(p: Player, listed: seq<Name>)
      requires Valid() && p.c == c && p.name !in players
      requires Ascending(listed) && forall m :: m in listed <==> m in names || m == p.name
      modifies this
      ensures Valid() && View() == old(View())[p.name := p.View()] && Objects() == old(Objects()) + {p}
    {
      hide Ascending, Player.View;
      names := listed;
      players := players[p.name := p];
    }

    // Room::addPlayer: a player is created where there is none of that name.
    method AddPlayer(n: Name) returns (added: bool)
      requires Valid()
      modifies this
      ensures Valid() && added == (n !in old(View()))
      ensures View() == if added then old(View())[n := Fresh(c)] else old(View())
      ensures fresh(Objects() - old(Objects()))
    {
      hide Ascending;
      if n in players { return false; }
      var at := LowerBound(names, n);
      AscendingInsert(names, at, n);
      var p := new Player(n, c);
      Insert(p, names[..at] + [n] + names[at..]);
      return true;
    }

    method Erase(n: Name, listed: seq<Name>)
      requires Valid() && Ascending(listed) && forall m :: m in listed <==> m in names && m != n
      modifies this
      ensures Valid() && View() == old(View()) - {n} && Objects() <= old(Objects())
    {
      hide Ascending, Player.View;
      names := listed;
      players := players - {n};
    }

    method RemovePlayer(n: Name) returns (removed: bool)
      requires Valid()
      modifies this
      ensures Valid() && removed == (n in old(View()))
      ensures View() == if removed then old(View()) - {n} else old(View())
      ensures Objects() <= old(Objects())
    {
      hide Ascending;
      if n !in players { return false; }
      var at :| 0 <= at < |names| && names[at] == n;
      AscendingDrop(names, at);
      Erase(n, names[..at] + names[at + 1..]);
      return true;
    }

    method AlivePlayerNames() returns (alive: seq<Name>)
      requires Valid()
      ensures alive == Sorted(AliveNames(c, View()))
    {
      hide Ascending;
      alive := [];
      assert Ascending(alive) by { EmptyRises(); }
      for i := 0 to |names|
        invariant forall n :: n in alive <==> n in names[..i] && Alive(c, players[n].View())
        invariant Ascending(alive)
      {
        AscendingPrefix(names, i);
        if Alive(c, players[names[i]].View()) {
          AscendingAppend(alive, names[i]);
          alive := alive + [names[i]];
        }
      }
      assert names[..|names|] == names;
      SortedRises(AliveNames(c, View()), alive);
    }

    method IsGameOver() returns (over: bool, champions: seq<Name>)
      requires Valid()
      ensures champions == Sorted(MaxedNames(c, View()))
      ensures over <==> MaxedNames(c, View()) != {}
    {
      hide Ascending, Maxed;
      over := false;
      champions := [];
      assert Ascending(champions) by { EmptyRises(); }
      for i := 0 to |names|
        invariant forall n :: n in champions <==> n in names[..i] && Maxed(c, players[n].View())
        invariant Ascending(champions)
        invariant over <==> champions != []
      {
        AscendingPrefix(names, i);
        if Maxed(c, players[names[i]].View()) {
          AscendingAppend(champions, names[i]);
          over := true;
          champions := champions + [names[i]];
        }
      }
      assert names[..|names|] == names;
      SortedRises(MaxedNames(c, View()), champions);
      assert over ==> champions[0] in MaxedNames(c, View());
    }

    // Seats are dealt in name order, from 1.
    method PrepareForRoundStart()
      requires Valid()
      modifies Objects()
      ensures Valid() && View() == PreparedRoom(old(View()))
    {
      ghost var was := View();
      hide Ascending, Prepared, Seat, Player.View;
      for i := 0 to |names|
        invariant Valid()
        invariant forall n <- players :: players[n].View() == if n in names[..i] then Prepared(was[n], Seat(was.Keys, n)) else was[n]
      {
        SeatInOrder(names, was.Keys, i);
        AscendingPrefix(names, i);
        var p := players[names[i]];
        assert forall n <- players :: n != names[i] ==> players[n] != p;
        p.PrepareForRoundStart(i + 1);
      }
      assert names[..|names|] == names;
    }

    // An action that is feasible, carried out by the players themselves.
    method Act(from: Name, action: Action, to: Name, toPlace: int) returns (ok: bool)
      requires Valid() && from in View()
      requires action == DoNothing || Feasible(c, View(), from, action, to, toPlace)
      modifies Objects()
      ensures Valid() && View() == Perform(c, old(View()), from, action, to, toPlace)
      ensures ok == Feasible(c, old(View()), from, action, to, toPlace)
    {
      hide Ascending, Alive, CanBuyKnife, CanBuyHorse, CanMove, CanLetMove, Slasher, SlashedOne, KickedOne, Striker, SlashEffect, KickEffect;
      var p := players[from];
      match action
      case DoNothing => ok := Alive(c, p.View());
      case BuyKnife => ok := p.Buy(true);
      case BuyHorse => ok := p.Buy(false);
      case Move => ok := p.MoveTo(toPlace);
      case LetMove => ok := p.LetMoveTo(players[to], toPlace);
      case Slash => ok := ActSlash(from, to);
      case Kick => ok := ActKick(from, to);
    }

    method ActSlash(from: Name, to: Name) returns (ok: bool)
      requires Valid() && from in View() && to in View() && from != to
      modifies Objects()
      ensures Valid() && ok == CanSlash(c, old(View())[from], old(View())[to], false)
      ensures View() == if ok then SlashEffect(c, old(View()), from, to) else old(View())
    {
      SlashTouchesTwo(c, View(), from, to);
      hide Ascending, Slasher, SlashedOne, SlashEffect, CanSlash, Player.View;
      var p, q := players[from], players[to];
      assert forall n <- players :: n != from && n != to ==> players[n] != p && players[n] != q;
      ok := p.Slash(q);
    }

    method ActKick(from: Name, to: Name) returns (ok: bool)
      requires Valid() && from in View() && to in View() && from != to
      modifies Objects()
      ensures Valid() && ok == CanKick(c, old(View())[from], old(View())[to], false)
      ensures View() == if ok then KickEffect(c, old(View()), from, to) else old(View())
    {
      KickTouchesTwo(c, View(), from, to);
      hide Ascending, KickedOne, Striker, KickEffect, CanKick, Player.View;
      var p, q := players[from], players[to];
      assert forall n <- players :: n != from && n != to ==> players[n] != p && players[n] != q;
      ok := p.Kick(q);
    }

    // Every player named carries out its list; the room's players are walked in any order.
    method ApplyLists(lists: map<Name, seq<UpgradeItem>>) returns (ok: bool)
      requires Valid() && lists.Keys <= View().Keys
      modifies Objects()
      ensures Valid()
      ensures ok <==> forall n <- lists :: ApplyUpgrades(c, old(View())[n], lists[n]).Some?
      ensures View() == AttemptedRoom(c, old(View()), lists)
      ensures ok ==> View() == UpgradedRoom(old(View()), lists)
    {
      ghost var was := View();
      hide Ascending, Player.View;
      ok := true;
      var left := lists.Keys;
      while left != {}
        invariant left <= lists.Keys && Valid() && players == old(players)
        invariant ok <==> forall n | n in lists && n !in left :: ApplyUpgrades(c, was[n], lists[n]).Some?
        invariant forall n <- players :: n !in lists || n in left ==> players[n].View() == was[n]
        invariant forall n | n in lists && n !in left :: players[n].View() == Attempted(c, was[n], lists[n])
        decreases left
      {
        var n :| n in left;
        var p := players[n];
        assert forall m <- players :: m != n ==> players[m] != p;
        var success := p.UpgradeAll(lists[n]);
        ok := ok && success;
        left := left - {n};
      }
      if ok { SumsToRoom(c, was, lists, View()); }
      assert View() == AttemptedRoom(c, was, lists);
    }

    method ResetUpgrades()
      requires Valid()
      modifies Objects()
      ensures Valid() && View() == ResetRoom(c, old(View()))
    {
      ghost var was := View();
      hide Ascending, Reset, Player.View;
      for i := 0 to |names|
        invariant Valid()
        invariant forall n <- players :: players[n].View() == if n in names[..i] then Reset(c, was[n]) else was[n]
      {
        AscendingPrefix(names, i);
        var p := players[names[i]];
        assert forall n <- players :: n != names[i] ==> players[n] != p;
        p.ResetUpgrades();
      }
      assert names[..|names|] == names;
    }
  }

  lemma SumsToRoom(c: Config, ps: Players, lists: map<Name, seq<UpgradeItem>>, qs: Players)
    requires qs == AttemptedRoom(c, ps, lists)
    requires forall n <- lists :: n in ps && ApplyUpgrades(c, ps[n], lists[n]).Some?
    ensures qs == UpgradedRoom(ps, lists)
  {
    forall n <- ps ensures qs[n] == UpgradedRoom(ps, lists)[n] {
      if n in lists { UpgradesSucceed(c, ps[n], lists[n]); }
    }
  }

  lemma KeysOf(room: Room)
    ensures room.View().Keys == room.players.Keys
  {
  }

  twostate lemma SameRoom(room: Room)
    requires unchanged(room) && unchanged(old(room.Objects()))
    ensures room.View() == old(room.View()) && room.Valid() == old(room.Valid()) && room.Objects() == old(room.Objects())
  {
  }

  lemma EmptyRises()
    ensures Ascending([])
  {
  }

  lemma SortedRises(s: set<Name>, l: seq<Name>)
    requires Ascending(l) && forall n :: n in l <==> n in s
    ensures l == Sorted(s)
  {
    SortedUnique(s, l);
  }
}
