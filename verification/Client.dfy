/**
  The class ClientP as far as its mirror goes: the handlers update a Room of their own and are
  proved to do what Mirror.dfy folds.
 */
module ClientClass {
  import opened Basics
  import opened Rules
  import opened RuleFacts
  import opened RoomClasses
  import opened Mirror

  lemma Unperformed(c: Config, ps: Players, n: Name, a: Action, to: Name, place: int)
    requires n in ps
    ensures !Feasible(c, ps, n, a, to, place) ==> Perform(c, ps, n, a, to, place) == ps
  {
  }

  lemma StrangersRefused(c: Config, ps: Players, lists: map<Name, seq<UpgradeItem>>)
    ensures !(lists.Keys <= ps.Keys) ==> Handle(c, ps, UpgradesMade(lists)).None?
  {
    hide ApplyUpgrades, UpgradedRoom;
  }

  lemma ListsTaken(c: Config, ps: Players, lists: map<Name, seq<UpgradeItem>>, ok: bool, qs: Players)
    requires lists.Keys <= ps.Keys
    requires ok <==> forall n <- lists :: ApplyUpgrades(c, ps[n], lists[n]).Some?
    requires ok ==> qs == UpgradedRoom(ps, lists)
    ensures Handle(c, ps, UpgradesMade(lists)).Some? <==> ok
    ensures ok ==> Handle(c, ps, UpgradesMade(lists)) == Some(qs)
  {
    hide ApplyUpgrades, UpgradedRoom;
  }

  class Client {
    const self: Name
    const room: Room
    var agents: set<Name>            // the client's own agent is there from the start ...
    ghost var ownAgent: bool         // ... and this says whether it has not been taken out since
    var lastRoundEventSeq: nat

    ghost predicate Valid()
      reads this, room
    {
      room.Valid() && agents == room.players.Keys + (if ownAgent then {self} else {})
    }

    constructor (self: Name, c: Config)
      ensures Valid() && room.c == c && room.View() == map[] && lastRoundEventSeq == 0 && fresh(room) && this.self == self
    {
      this.self := self;
      room := new Room(c);
      agents := {self};
      ownAgent := true;
      lastRoundEventSeq := 0;
    }

    // A handler takes a notice: what it does to the room, and whether the connection survives it.
    method NotifyPlayerAdded(n: Name)
      requires Valid()
      modifies this, room
      ensures Valid() && Some(room.View()) == Handle(room.c, old(room.View()), PlayerAdded(n))
      ensures lastRoundEventSeq == old(lastRoundEventSeq) && fresh(room.Objects() - old(room.Objects()))
    {
      hide Ascending, Room.View;
      KeysOf(room);
      if n in agents {
        if n == self { var _ := room.AddPlayer(n); }
      } else {
        var _ := room.AddPlayer(n);
        agents := agents + {n};
      }
      KeysOf(room);
    }

    method NotifyPlayerRemoved(n: Name) returns (ok: bool)
      requires Valid()
      modifies this, room
      ensures Valid() && ok == Handle(room.c, old(room.View()), PlayerRemoved(n)).Some?
      ensures room.View() == if ok then Handle(room.c, old(room.View()), PlayerRemoved(n)).value else old(room.View())
      ensures lastRoundEventSeq == old(lastRoundEventSeq)
    {
      hide Ascending, Room.View;
      KeysOf(room);
      if n !in agents { return false; }
      ok := room.RemovePlayer(n);
      if ok {
        agents := agents - {n};
        ownAgent := ownAgent && n != self;
      }
      KeysOf(room);
    }

    method NotifyRoundStart()
      requires Valid()
      modifies this, room.Objects()
      ensures Valid() && Some(room.View()) == Handle(room.c, old(room.View()), RoundStarted)
      ensures lastRoundEventSeq == 0
    {
      hide Ascending, PreparedRoom;
      room.PrepareForRoundStart();
      lastRoundEventSeq := 0;
    }

    // The server has judged the action, so it should succeed here too; ok says whether it did.
    method NotifyAction(n: Name, action: Action, toPlayer: Name, toPlace: int) returns (ok: bool)
      requires Valid() && self in room.View()
      modifies this, room.Objects()
      ensures Valid() && ok == Handle(room.c, old(room.View()), Mirror.Acted(n, action, toPlayer, toPlace)).Some?
      ensures room.View() == if ok then Handle(room.c, old(room.View()), Mirror.Acted(n, action, toPlayer, toPlace)).value else old(room.View())
      ensures var was := old(room.View());
              var known := n in was && (NeedsTarget(action) ==> toPlayer in was) && (NeedsPlace(action) ==> 0 <= toPlace <= |was|);
              lastRoundEventSeq == old(lastRoundEventSeq) + if known then 1 else 0
    {
      hide Ascending, Perform, Feasible, Room.View;
      AgentsPlay();
      if n !in agents { return false; }
      if NeedsTarget(action) && toPlayer !in agents { return false; }
      if NeedsPlace(action) && (toPlace < 0 || toPlace > |agents|) { return false; }
      lastRoundEventSeq := lastRoundEventSeq + 1;
      SameRoom(room);
      Unperformed(room.c, room.View(), n, action, toPlayer, toPlace);
      ok := ApplyAction(n, action, toPlayer, toPlace);
    }

    lemma AgentsPlay()
      requires Valid() && self in room.View()
      ensures agents == room.View().Keys && |agents| == |room.View()|
    {
      assert agents == room.View().Keys;
    }

    method ApplyAction(n: Name, action: Action, toPlayer: Name, toPlace: int) returns (ok: bool)
      requires Valid() && n in room.View() && (NeedsTarget(action) ==> toPlayer in room.View())
      modifies room.Objects()
      ensures Valid() && ok == Feasible(room.c, old(room.View()), n, action, toPlayer, toPlace)
      ensures room.View() == Perform(room.c, old(room.View()), n, action, toPlayer, toPlace)
    {
      hide Ascending, Slasher, SlashedOne, KickedOne, Striker, SlashEffect, KickEffect, Alive, CanBuyKnife, CanBuyHorse, CanMove, CanLetMove;
      var from := room.players[n];
      match action
      case DoNothing => ok := Alive(room.c, from.View());
      case BuyKnife => ok := Purchase(n, true);
      case BuyHorse => ok := Purchase(n, false);
      case Slash => ok := Strike(n, toPlayer, true);
      case Kick => ok := Strike(n, toPlayer, false);
      case Move => ok := from.MoveTo(toPlace);
      case LetMove => ok := from.LetMoveTo(room.players[toPlayer], toPlace);
    }

    method Purchase(n: Name, knife: bool) returns (ok: bool)
      requires Valid() && n in room.View()
      modifies room.Objects()
      ensures Valid() && ok == Feasible(room.c, old(room.View()), n, if knife then BuyKnife else BuyHorse, 0, 0)
      ensures room.View() == Perform(room.c, old(room.View()), n, if knife then BuyKnife else BuyHorse, 0, 0)
    {
      hide Ascending, CanBuyKnife, CanBuyHorse;
      ok := room.players[n].Buy(knife);
    }

    method Strike(n: Name, to: Name, slash: bool) returns (ok: bool)
      requires Valid() && n in room.View() && to in room.View()
      modifies room.Objects()
      ensures Valid() && ok == Feasible(room.c, old(room.View()), n, if slash then Slash else Kick, to, 0)
      ensures room.View() == Perform(room.c, old(room.View()), n, if slash then Slash else Kick, to, 0)
    {
      hide Ascending, SlashEffect, KickEffect, Alive, Room.View;
      if n == to { return false; }
      if slash { ok := room.ActSlash(n, to); } else { ok := room.ActKick(n, to); }
    }

    method ApplyUpgrade(lists: map<Name, seq<UpgradeItem>>) returns (ok: bool)
      requires Valid() && lists.Keys <= room.View().Keys
      modifies room.Objects()
      ensures Valid() && ok == Handle(room.c, old(room.View()), UpgradesMade(lists)).Some?
      ensures ok ==> Some(room.View()) == Handle(room.c, old(room.View()), UpgradesMade(lists))
      ensures room.View() == AttemptedRoom(room.c, old(room.View()), lists)
    {
      hide Ascending, UpgradedRoom, AttemptedRoom, ApplyUpgrades, Handle, Room.View;
      ghost var was := room.View();
      ok := room.ApplyLists(lists);
      ListsTaken(room.c, was, lists, ok, room.View());
    }

    // Counting an event touches nothing else.
    twostate lemma SameClient()
      requires old(Valid()) && unchanged(room) && unchanged(old(room.Objects())) && agents == old(agents) && ownAgent == old(ownAgent)
      ensures Valid()
    {
      SameRoom(room);
    }

    // A refused announcement leaves the room as far upgraded as it can be; one that names a stranger
    // is refused before anything is done.
    method NotifyUpgrade(lists: map<Name, seq<UpgradeItem>>) returns (ok: bool)
      requires Valid() && self in room.View()
      modifies this, room.Objects()
      ensures Valid()
      ensures var was := old(room.View()); var known := lists.Keys <= was.Keys;
              && Handle(room.c, was, UpgradesMade(lists)) == (if ok then Some(room.View()) else None)
              && room.View() == (if known then AttemptedRoom(room.c, was, lists) else was)
              && lastRoundEventSeq == old(lastRoundEventSeq) + if known then 1 else 0
    {
      ghost var was := room.View();
      StrangersRefused(room.c, was, lists);
      AgentsPlay();
      hide *;
      assert agents == was.Keys;
      if !(lists.Keys <= agents) { return false; }
      lastRoundEventSeq := lastRoundEventSeq + 1;
      SameRoom(room);
      SameClient();
      ok := ApplyUpgrade(lists);
    }
  }
}
