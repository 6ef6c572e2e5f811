/**
  The room's side of the announcements (LogicRunnerP): a negotiation result becomes a dense list,
  round events go to every connection and its log, and a round that has closed either starts the
  next one or, with somebody still away, ends the game.
 */
module LogicRunnerClass {
  import opened Basics
  import opened Rules
  import opened Machine
  import opened Accounting
  import opened CatchUp
  import opened ServerConnectionClass
  import Connection

  // ----- from the map of orders to the list that is sent -----

  // Entry i holds the player who takes order i + 1.
  method DenseOrder(result: map<int, Name>) returns (order: seq<Name>)
    ensures |order| == |result|
    ensures forall i | 0 <= i < |order| :: order[i] == if i + 1 in result then result[i + 1] else Connection.NOBODY
  {
    order := [];
    for i := 1 to |result| + 1
      invariant |order| == i - 1
      invariant forall k | 0 <= k < |order| :: order[k] == if k + 1 in result then result[k + 1] else Connection.NOBODY
    {
      order := order + [if i in result then result[i] else Connection.NOBODY];
    }
  }

  lemma {:induction false} DenseCount(m: map<int, Name>, order: seq<Name>, p: Name)
    requires m.Keys == Upto(|order|) && forall i | 0 <= i < |order| :: order[i] == m[i + 1]
    ensures multiset(order)[p] == |OrdersOf(m, p)|
    decreases |order|
  {
    if order != [] {
      var n := |order|;
      var rest, front := m - {n}, order[..n - 1];
      assert order == front + [order[n - 1]];
      assert multiset(order) == multiset(front) + multiset{order[n - 1]};
      OneFewer(m, n);
      DenseCount(rest, front, p);
      LastOwner(m, n, p);
    } else {
      assert OrdersOf(m, p) == {};
    }
  }

  lemma OneFewer(m: map<int, Name>, n: nat)
    requires n >= 1 && m.Keys == Upto(n)
    ensures (m - {n}).Keys == Upto(n - 1) && n in m && forall o | o in m && o != n :: (m - {n})[o] == m[o]
    ensures forall o | 1 <= o < n :: o in m - {n}
  {
    forall o: int ensures o in (m - {n}).Keys <==> o in Upto(n - 1) { assert o in m <==> o in Upto(n); }
    assert n in Upto(n);
  }

  lemma LastOwner(m: map<int, Name>, n: int, p: Name)
    requires n in m
    ensures |OrdersOf(m, p)| == |OrdersOf(m - {n}, p)| + (if m[n] == p then 1 else 0)
  {
    assert OrdersOf(m, p) == OrdersOf(m - {n}, p) + (if m[n] == p then {n} else {});
  }

  // The list of a complete allotment names every winner exactly as often as there are losers, and
  // nobody else; no entry is made up.
  lemma AllotmentList(m: map<int, Name>, winners: set<Name>, chances: nat, orders: nat, order: seq<Name>)
    requires IsAllotment(m, winners, chances, orders) && |order| == |m|
    requires forall i | 0 <= i < |order| :: order[i] == if i + 1 in m then m[i + 1] else Connection.NOBODY
    ensures |order| == orders && forall o <- m :: 1 <= o <= |order| && order[o - 1] == m[o]
    ensures forall p :: multiset(order)[p] == if p in winners then chances else 0
  {
    assert |m.Keys| == |m|;
    forall i | 0 <= i < |order| ensures order[i] == m[i + 1] { assert i + 1 in Upto(orders); }
    forall p ensures multiset(order)[p] == if p in winners then chances else 0 {
      DenseCount(m, order, p);
      if p !in winners { assert OrdersOf(m, p) == {}; }
    }
  }

  // ----- the class -----

  class LogicRunner {
    var agents: map<Name, Agent>
    var connections: map<Name, ServerConnection>   // of the agents that play over the network
    var rounds: nat
    var over: bool

    ghost predicate Valid()
      reads this
    {
      && connections.Keys <= agents.Keys
      && (forall n <- connections :: connections[n].agent == agents[n])
      && forall m, n | m in connections && n in connections && m != n :: connections[m] != connections[n]
    }

    ghost function Conns(): set<ServerConnection>
      reads this
    {
      set n | n in connections :: connections[n]
    }

    // Everybody who plays over the network has a socket or is marked offline.
    ghost predicate Wired()
      reads this, Conns(), agents.Values
      requires Valid()
    {
      forall n <- connections :: agents[n].online ==> connections[n].hasSocket
    }

    constructor ()
      ensures Valid() && connections == map[] && rounds == 0 && !over
    {
      agents, connections, rounds, over := map[], map[], 0, false;
    }

    // Connection k has sent ms, its log is now what is given, and it is otherwise as it was.
    twostate predicate Has(k: ServerConnection, ms: seq<Outgoing>, log: seq<RoundEvent>)
      reads k
    {
      && k.wire == old(k.wire) + (if old(k.hasSocket) then ms else [])
      && k.roundEventLog == log
      && k.View() == old(k.View())
    }

    method Broadcast(x: RoundEvent)
      requires Valid()
      modifies Conns()
      ensures forall n <- connections :: Has(connections[n], [Event(x)], old(connections[n].roundEventLog) + [x])
    {
      var left := connections.Keys;
      while left != {}
        invariant left <= connections.Keys
        invariant forall n <- left :: unchanged(connections[n])
        invariant forall n <- connections :: n !in left ==> Has(connections[n], [Event(x)], old(connections[n].roundEventLog) + [x])
        decreases left
      {
        var n :| n in left;
        var k := connections[n];
        assert forall m <- connections :: m != n ==> connections[m] != k;
        k.SendRoundEvent(x);
        left := left - {n};
      }
    }

    method Announce(m: Outgoing)
      requires Valid() && (m.RoundStarts? || m.RoundEnds? || m.GameEnds?)
      modifies Conns()
      ensures forall n <- connections :: Has(connections[n], [m], old(connections[n].roundEventLog))
    {
      var left := connections.Keys;
      while left != {}
        invariant left <= connections.Keys
        invariant forall n <- left :: unchanged(connections[n])
        invariant forall n <- connections :: n !in left ==> Has(connections[n], [m], old(connections[n].roundEventLog))
        decreases left
      {
        var n :| n in left;
        var k := connections[n];
        assert forall o <- connections :: o != n ==> connections[o] != k;
        k.SendNotice(m);
        left := left - {n};
      }
    }

    method ClearLogs()
      requires Valid()
      modifies Conns()
      ensures forall n <- connections :: Has(connections[n], [], [])
    {
      var left := connections.Keys;
      while left != {}
        invariant left <= connections.Keys
        invariant forall n <- connections :: Has(connections[n], [], if n in left then old(connections[n].roundEventLog) else [])
        decreases left
      {
        var n :| n in left;
        connections[n].ClearRoundEventLog();
        left := left - {n};
      }
    }

    method ActionOrderResult(result: map<int, Name>) returns (order: seq<Name>)
      requires Valid()
      modifies Conns()
      ensures |order| == |result| && forall i | 0 <= i < |order| :: order[i] == if i + 1 in result then result[i + 1] else Connection.NOBODY
      ensures forall n <- connections :: Has(connections[n], [Event(OrdersSeen(order))], old(connections[n].roundEventLog) + [OrdersSeen(order)])
    {
      order := DenseOrder(result);
      Broadcast(OrdersSeen(order));
    }

    // The action phase is over: nothing of it will be replayed any more.
    method RoundOver()
      requires Valid()
      modifies Conns()
      ensures forall n <- connections :: Has(connections[n], [RoundEnds], [])
    {
      ClearLogs();
      Announce(RoundEnds);
    }

    method GameOver(winners: seq<Name>)
      requires Valid()
      modifies `over, Conns()
      ensures Valid() && over
      ensures forall n <- connections :: Has(connections[n], [GameEnds(winners)], old(connections[n].roundEventLog))
    {
      Announce(GameEnds(winners));
      over := true;
    }

    // The loop over a hash: everybody online, once each, in whatever order.
    method OnlineAgents() returns (winners: seq<Name>)
      ensures forall n :: n in winners <==> n in agents && agents[n].online
      ensures forall i, j | 0 <= i < j < |winners| :: winners[i] != winners[j]
    {
      winners := [];
      var left := agents.Keys;
      while left != {}
        invariant left <= agents.Keys
        invariant forall n :: n in winners <==> n in agents.Keys - left && agents[n].online
        invariant forall i, j | 0 <= i < j < |winners| :: winners[i] != winners[j]
        decreases left
      {
        var n :| n in left;
        if agents[n].online { winners := winners + [n]; }
        left := left - {n};
      }
    }

    method SomebodyAway() returns (away: bool)
      ensures away <==> exists n <- agents :: !agents[n].online
    {
      var left := agents.Keys;
      while left != {}
        invariant left <= agents.Keys
        invariant forall n <- agents.Keys - left :: agents[n].online
        decreases left
      {
        var n :| n in left;
        if !agents[n].online { return true; }
        left := left - {n};
      }
      return false;
    }

    // The upgrades and the next round are announced, and the log starts over.
    method BeginNextRound(lists: map<Name, seq<UpgradeItem>>)
      requires Valid()
      modifies `rounds, Conns()
      ensures Valid() && rounds == old(rounds) + 1
      ensures forall n <- connections :: Has(connections[n], [Event(UpgradesSeen(lists)), RoundStarts], [])
    {
      Broadcast(UpgradesSeen(lists));
      label A:
      Announce(RoundStarts);
      label B:
      ClearLogs();
      forall n <- connections ensures Has(connections[n], [Event(UpgradesSeen(lists)), RoundStarts], []) {
        var k := connections[n];
        assert Has@B(k, [], []);
        assert old@B(k.wire) == old(k.wire) + (if old(k.hasSocket) then [Event(UpgradesSeen(lists)), RoundStarts] else []);
      }
      rounds := rounds + 1;
    }

    // The next round begins unless somebody is still away: then the game is over and those who are
    // online have won it. So a round begins with every socket in place.
    method UpgradeResult(lists: map<Name, seq<UpgradeItem>>) returns (winners: Option<seq<Name>>)
      requires Valid()
      modifies `over, `rounds, Conns()
      ensures Valid()
      ensures winners.None? <==> forall n <- agents :: agents[n].online
      ensures winners.Some? ==>
                && over && rounds == old(rounds)
                && (forall n :: n in winners.value <==> n in agents && agents[n].online)
                && (forall i, j | 0 <= i < j < |winners.value| :: winners.value[i] != winners.value[j])
                && forall n <- connections :: Has(connections[n], [GameEnds(winners.value)], old(connections[n].roundEventLog))
      ensures winners.None? ==>
                && over == old(over) && rounds == old(rounds) + 1
                && forall n <- connections :: Has(connections[n], [Event(UpgradesSeen(lists)), RoundStarts], [])
      ensures winners.None? && old(Wired()) ==> forall n <- connections :: old(connections[n].hasSocket)
    {
      var away := SomebodyAway();
      if away {
        var online := OnlineAgents();
        GameOver(online);
        return Some(online);
      }
      BeginNextRound(lists);
      return None;
    }
  }
}
