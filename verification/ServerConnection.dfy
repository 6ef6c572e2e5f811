/**
  The class ServerConnectionP, in place: every slot is proved to take the step of Connection.dfy
  that its event stands for, and the round-event log is kept as CatchUp.dfy has it. What randomness
  picks and when a transport signals its disconnection are parameters.
 */
module ServerConnectionClass {
  import opened Basics
  import opened JsonValues
  import opened Rules
  import opened Machine
  import opened Invariants
  import opened Connection
  import CatchUp

  // ----- decoding arrays, element by element -----

  lemma {:induction false} DecodeNumbersSplit(items: seq<Json>, i: nat)
    requires i < |items|
    ensures DecodeNumbers(items[..i]).None? || !items[i].JNumber? ==> DecodeNumbers(items[..i + 1]).None?
    ensures DecodeNumbers(items[..i]).Some? && items[i].JNumber? ==>
              DecodeNumbers(items[..i + 1]) == Some(DecodeNumbers(items[..i]).value + [ToInt(items[i], 0)])
    ensures DecodeNumbers(items[..i + 1]).None? ==> DecodeNumbers(items).None?
    decreases i
  {
    var tail := items[1..];
    assert items[..i + 1][1..] == tail[..i];
    if i == 0 {
      assert items[..0] == [] && tail[..0] == [];
      assert [ToInt(items[0], 0)] + [] == [] + [ToInt(items[0], 0)];
    } else {
      assert items[..i][1..] == tail[..i - 1] && tail[i - 1] == items[i];
      DecodeNumbersSplit(tail, i - 1);
      if DecodeNumbers(items[..i]).Some? && items[i].JNumber? {
        var rest := DecodeNumbers(tail[..i - 1]).value;
        assert [ToInt(items[0], 0)] + (rest + [ToInt(items[i], 0)]) == [ToInt(items[0], 0)] + rest + [ToInt(items[i], 0)];
      }
    }
  }

  method ReadNumbers(items: seq<Json>) returns (numbers: Option<seq<int>>)
    ensures numbers == DecodeNumbers(items)
    ensures numbers.None? <==> exists i :: 0 <= i < |items| && !items[i].JNumber?
    ensures numbers.Some? ==> |numbers.value| == |items| && forall i | 0 <= i < |items| :: numbers.value[i] == ToInt(items[i], 0)
  {
    NumbersRefused(items);
    var ao: seq<int> := [];
    for i := 0 to |items|
      invariant DecodeNumbers(items[..i]) == Some(ao)
    {
      DecodeNumbersSplit(items, i);
      if !items[i].JNumber? { return None; }
      ao := ao + [ToInt(items[i], 0)];
    }
    assert items[..|items|] == items;
    return Some(ao);
  }

  lemma {:induction false} DecodeItemsSplit(items: seq<Json>, i: nat)
    requires i < |items|
    ensures DecodeItems(items[..i]).None? || !items[i].JNumber? || ItemFrom(ToByte(items[i])).None? ==> DecodeItems(items[..i + 1]).None?
    ensures DecodeItems(items[..i]).Some? && items[i].JNumber? && ItemFrom(ToByte(items[i])).Some? ==>
              DecodeItems(items[..i + 1]) == Some(DecodeItems(items[..i]).value + [ItemFrom(ToByte(items[i])).value])
    ensures DecodeItems(items[..i + 1]).None? ==> DecodeItems(items).None?
    decreases i
  {
    hide ItemFrom, ToByte;
    var tail := items[1..];
    assert items[..i + 1][1..] == tail[..i];
    if i == 0 {
      assert items[..0] == [] && tail[..0] == [];
      if ItemFrom(ToByte(items[0])).Some? {
        assert [ItemFrom(ToByte(items[0])).value] + [] == [] + [ItemFrom(ToByte(items[0])).value];
      }
    } else {
      assert items[..i][1..] == tail[..i - 1] && tail[i - 1] == items[i];
      DecodeItemsSplit(tail, i - 1);
      if DecodeItems(items[..i]).Some? && items[i].JNumber? && ItemFrom(ToByte(items[i])).Some? {
        var first, rest, last := ItemFrom(ToByte(items[0])).value, DecodeItems(tail[..i - 1]).value, ItemFrom(ToByte(items[i])).value;
        assert [first] + (rest + [last]) == [first] + rest + [last];
      }
    }
  }

  method ReadItems(items: seq<Json>) returns (list: Option<seq<UpgradeItem>>)
    ensures list == DecodeItems(items)
    ensures list.None? <==> exists i :: 0 <= i < |items| && (!items[i].JNumber? || ToInt(items[i], 0) % 256 > 2)
    ensures list.Some? ==> |list.value| == |items| && forall i | 0 <= i < |items| :: ItemFrom(ToInt(items[i], 0) % 256) == Some(list.value[i])
  {
    OutOfRangeItems(items);
    hide ItemFrom, ToByte;
    var ups: seq<UpgradeItem> := [];
    for i := 0 to |items|
      invariant DecodeItems(items[..i]) == Some(ups)
    {
      DecodeItemsSplit(items, i);
      if !items[i].JNumber? || ItemFrom(ToByte(items[i])).None? { return None; }
      ups := ups + [ItemFrom(ToByte(items[i])).value];
    }
    assert items[..|items|] == items;
    return Some(ups);
  }

  method TakeFirst(offered: seq<int>, num: nat) returns (ao: seq<int>)
    requires num <= |offered|
    ensures ao == offered[..num]
  {
    ao := [];
    var arr := offered;
    var left: nat := num;
    while left != 0
      invariant left <= num && ao == offered[..num - left] && arr == offered[num - left..]
    {
      ao := ao + [arr[0]];
      arr := arr[1..];
      left := left - 1;
    }
  }

  lemma DefaultOneEach(c: Conn, coin: Throw)
    requires Sane(c)
    ensures OneEach(c) ==> OneEach(ExecuteDefault(c, coin))
  {
    DefaultCloses(c, c, coin);
    hide OneEach, ExecuteDefault, ClosesAtMost;
    if OneEach(c) { ClosesOneEach(c, ExecuteDefault(c, coin)); }
  }

  lemma MatchedOneEach(c: Conn, v: Json, coin: Throw, atOnce: bool)
    requires OneEach(c)
    ensures OneEach(ReplyMatched(c, v, coin, atOnce))
  {
    SaneNow(c);
    MatchedCloses(c, v, coin, atOnce);
    hide *;
    ClosesOneEach(c, ReplyMatched(c, v, coin, atOnce));
  }

  lemma UntimedOneEach(c: Conn)
    ensures OneEach(c.(armed := false)) == OneEach(c)
  {
  }

  // ----- what goes to the peer -----

  datatype Outgoing =
    | Event(event: CatchUp.RoundEvent)
    | Asks(data: RequestData)
    | RoundStarts
    | RoundEnds
    | GameEnds(winners: seq<Name>)

  function Replay(events: seq<CatchUp.RoundEvent>): (r: seq<Outgoing>)
    ensures |r| == |events|
  {
    seq(|events|, i requires 0 <= i < |events| => Event(events[i]))
  }

  // ----- the class -----

  // The player as the room knows it: the two state flags a lost connection clears.
  class Agent {
    var online: bool
    var trust: bool

    constructor (online: bool, trust: bool)
      ensures this.online == online && this.trust == trust
    {
      this.online, this.trust := online, trust;
    }
  }

  class ServerConnection {
    const agent: Agent
    const requestTimeoutEnabled: bool
    var hasSocket: bool
    var currentRequest: Option<Kind>
    var currentRequestValue: RequestData
    var requestTimerRunning: bool
    var deferredReplies: nat
    var roundEventLog: seq<CatchUp.RoundEvent>
    ghost var onWire: bool
    ghost var asked: seq<RequestData>
    ghost var answers: seq<Answer>
    ghost var wire: seq<Outgoing>               // what was sent to the peer
    ghost var disconnections: nat               // how often the room was told that the peer is gone

    ghost function View(): Conn
      reads this
    {
      Conn(if currentRequest.Some? then Some(currentRequestValue) else None, hasSocket, requestTimeoutEnabled,
           requestTimerRunning, deferredReplies, onWire, asked, answers)
    }

    ghost predicate Coherent()
      reads this
    {
      && (currentRequest.Some? ==> KindOfData(currentRequestValue) == currentRequest.value)
      && Answerable(currentRequestValue)
    }

    ghost predicate Valid()
      reads this
    {
      Coherent() && OneEach(View())
    }

    // The room takes nobody for online who has no socket.
    ghost predicate Wired()
      reads this, agent
    {
      agent.online ==> hasSocket
    }

    // The peer is gone iff its player has just been marked offline and unmanaged and the room told.
    twostate predicate DropShown()
      reads this, agent
    {
      if old(hasSocket) && !hasSocket then !agent.online && !agent.trust && disconnections == old(disconnections) + 1
      else hasSocket == old(hasSocket) && agent.online == old(agent.online) && agent.trust == old(agent.trust)
           && disconnections == old(disconnections)
    }

    constructor (agent: Agent, timed: bool)
      ensures Valid() && View() == Unbound(timed) && roundEventLog == [] && this.agent == agent
    {
      this.agent := agent;
      requestTimeoutEnabled := timed;
      hasSocket, requestTimerRunning, onWire := false, false, false;
      currentRequest, currentRequestValue := None, ActionData(0);
      deferredReplies := 0;
      roundEventLog, wire, asked, answers, disconnections := [], [], [], [], 0;
    }

    // agent->rockPaperScissors() and its like: the answer goes to the room.
    ghost method HandOver(a: Answer)
      modifies `answers
      ensures answers == old(answers) + [a]
    {
      answers := answers + [a];
    }

    method DefaultReply(kind: Kind, coin: Throw)
      requires Answerable(currentRequestValue) && KindOfData(currentRequestValue) == kind
      modifies `answers
      ensures answers == old(answers) + [DefaultAnswer(currentRequestValue, coin)]
    {
      match kind
      case AskThrow => HandOver(Thrown(coin));
      case AskPicks =>
        var ao := TakeFirst(currentRequestValue.offered, currentRequestValue.selections);
        HandOver(Picked(ao));
      case AskAction => HandOver(Done(DoNothing, NOBODY, 0));
      case AskUpgrade => HandOver(Connection.Chosen([]));
    }

    method ExecuteDefaultReply(coin: Throw)
      requires Coherent()
      modifies `currentRequest, `answers
      ensures Coherent() && View() == ExecuteDefault(old(View()), coin)
      ensures old(Valid()) ==> Valid()
    {
      DefaultOneEach(View(), coin);
      hide OneEach, DefaultAnswer, Answerable;
      if currentRequest.Some? {
        var kind := currentRequest.value;
        currentRequest := None;
        DefaultReply(kind, coin);
      }
    }

    // The socket goes, the player is marked offline, an open request is answered, the room is told.
    method OnSocketDisconnected(coin: Throw)
      requires Coherent()
      modifies `hasSocket, `onWire, `currentRequest, `answers, `disconnections, agent
      ensures Coherent() && View() == Drop(old(View()), coin)
      ensures old(Valid()) ==> Valid()
      ensures !agent.online && !agent.trust && disconnections == old(disconnections) + 1
    {
      hasSocket := false;
      onWire := false;
      agent.online, agent.trust := false, false;
      ExecuteDefaultReply(coin);
      disconnections := disconnections + 1;
    }

    method SetSocketError(coin: Throw, atOnce: bool)
      requires Coherent() && hasSocket
      modifies `hasSocket, `onWire, `currentRequest, `answers, `disconnections, agent
      ensures DropShown()
      ensures Coherent() && View() == SetError(old(View()), coin, atOnce)
      ensures old(Valid()) ==> Valid()
    {
      if atOnce { OnSocketDisconnected(coin); }
    }

    // Without a socket a packet goes nowhere.
    ghost method SendPacket(m: Outgoing)
      modifies `wire
      ensures wire == old(wire) + (if hasSocket then [m] else [])
    {
      if hasSocket { wire := wire + [m]; }
    }

    method AddRequest(data: RequestData)
      requires Valid() && Possible(View(), Ask(data))
      modifies `currentRequest, `currentRequestValue, `requestTimerRunning, `deferredReplies, `onWire, `asked, `wire
      ensures Valid() && View() == Connection.AddRequest(old(View()), data)
      ensures wire == old(wire) + (if hasSocket then [Asks(data)] else [])
    {
      TakeOneEach(View(), Ask(data), Rock, false);
      hide OneEach;
      currentRequest := Some(KindOfData(data));
      currentRequestValue := data;
      asked := asked + [data];
      onWire := hasSocket;
      SendPacket(Asks(data));
      if hasSocket {
        if requestTimeoutEnabled { requestTimerRunning := true; }
      } else {
        deferredReplies := deferredReplies + 1;
      }
    }

    // The zero timer of addRequest.
    method DeferredReply(coin: Throw)
      requires Valid() && deferredReplies > 0
      modifies `deferredReplies, `currentRequest, `answers
      ensures Valid() && View() == Take(old(View()), Deferred, coin, false)
    {
      deferredReplies := deferredReplies - 1;
      ExecuteDefaultReply(coin);
    }

    method RequestTimeout(coin: Throw, atOnce: bool)
      requires Valid() && requestTimerRunning
      modifies `requestTimerRunning, `hasSocket, `onWire, `currentRequest, `answers, `disconnections, agent
      ensures DropShown()
      ensures Valid() && View() == Take(old(View()), TimesOut, coin, atOnce)
    {
      UntimedOneEach(View());
      hide OneEach, DefaultAnswer, Receive;
      requestTimerRunning := false;
      if hasSocket { SetSocketError(coin, atOnce); }
      ExecuteDefaultReply(coin);
    }

    method PeerWentSilent(coin: Throw, atOnce: bool)
      requires Valid()
      modifies `hasSocket, `onWire, `currentRequest, `answers, `disconnections, agent
      ensures DropShown()
      ensures Valid() && View() == Take(old(View()), FallsSilent, coin, atOnce)
    {
      if hasSocket { SetSocketError(coin, atOnce); }
      ExecuteDefaultReply(coin);
    }

    method DecodeReply(kind: Kind, v: Json) returns (a: Option<Answer>)
      requires KindOfData(currentRequestValue) == kind
      ensures a == Decode(currentRequestValue, v)
    {
      match kind
      case AskThrow =>
        var t := DecodeThrow(v);
        a := if t.Some? then Some(Thrown(t.value)) else None;
      case AskPicks =>
        var selections := currentRequestValue.selections;
        if !v.JArray? || |v.items| > selections { return None; }
        var ao := ReadNumbers(v.items);
        a := if ao.Some? then Some(Picked(ao.value)) else None;
      case AskAction => a := DecodeAction(v);
      case AskUpgrade =>
        var remainingTimes := currentRequestValue.points;
        if !v.JArray? || |v.items| > remainingTimes { return None; }
        var ups := ReadItems(v.items);
        a := if ups.Some? then Some(Connection.Chosen(ups.value)) else None;
    }

    // A reply with the id of the open request; the request is cleared before it is decoded.
    method MatchingReply(v: Json, coin: Throw, atOnce: bool)
      requires Valid() && hasSocket
      modifies `requestTimerRunning, `hasSocket, `onWire, `currentRequest, `answers, `disconnections, agent
      ensures DropShown()
      ensures Valid() && View() == ReplyMatched(old(View()), v, coin, atOnce)
    {
      MatchedOneEach(View(), v, coin, atOnce);
      hide OneEach, Decode, DefaultAnswer, Answerable, SetError, ExecuteDefault;
      requestTimerRunning := false;
      if v.JNull? { ExecuteDefaultReply(coin); } else { ReplyCallback(v, coin, atOnce); }
    }

    method ReplyCallback(v: Json, coin: Throw, atOnce: bool)
      requires Coherent() && hasSocket && !requestTimerRunning && !v.JNull?
      modifies `hasSocket, `onWire, `currentRequest, `answers, `disconnections, agent
      ensures DropShown()
      ensures Coherent() && View() == ReplyMatched(old(View()), v, coin, atOnce)
    {
      hide OneEach, Decode, DefaultAnswer, Answerable, SetError, ExecuteDefault;
      if currentRequest.None? {
        SetSocketError(coin, atOnce);
      } else {
        var kind := currentRequest.value;
        currentRequest := None;
        DecodedReply(kind, v, coin, atOnce);
      }
    }

    // A value that cannot be decoded costs the peer its connection and is answered by default; the
    // disconnection itself finds no open request to answer.
    method DecodedReply(kind: Kind, v: Json, coin: Throw, atOnce: bool)
      requires Coherent() && hasSocket && currentRequest.None? && KindOfData(currentRequestValue) == kind
      modifies `hasSocket, `onWire, `currentRequest, `answers, `disconnections, agent
      ensures DropShown()
      ensures Coherent()
      ensures var d := old(currentRequestValue);
              View() == match Decode(d, v)
                        case Some(a) => Answered(old(View()), a)
                        case None => Answered(SetError(old(View()), coin, atOnce), DefaultAnswer(d, coin))
    {
      hide OneEach, Decode, DefaultAnswer, Answerable;
      var a := DecodeReply(kind, v);
      if a.Some? {
        HandOver(a.value);
      } else {
        SetSocketError(coin, atOnce);
        DefaultReply(kind, coin);
      }
    }

    method PacketReceived(packet: Packet, coin: Throw, atOnce: bool)
      requires Valid()
      modifies `requestTimerRunning, `hasSocket, `onWire, `currentRequest, `answers, `disconnections, agent
      ensures DropShown()
      ensures Valid() && View() == Receive(old(View()), packet, coin, atOnce)
    {
      hide OneEach, Answerable, ReplyMatched, ExecuteDefault;
      if !hasSocket { return; }
      match packet
      case NotifyAgent(known) => if !known { SetSocketError(coin, atOnce); }
      case NotifyServer =>
      case NotifyOther =>
        SetSocketError(coin, atOnce);
        ExecuteDefaultReply(coin);
      case Reply(id, v) =>
        if id == (if currentRequest.Some? then Of(currentRequest.value) else NoId) {
          MatchingReply(v, coin, atOnce);
        } else {
          SetSocketError(coin, atOnce);
          ExecuteDefaultReply(coin);
        }
      case OtherPacket =>
        SetSocketError(coin, atOnce);
        ExecuteDefaultReply(coin);
    }

    // ----- announcements and the round-event log -----

    method SendRoundEvent(x: CatchUp.RoundEvent)
      modifies `roundEventLog, `wire
      ensures roundEventLog == old(roundEventLog) + [x]
      ensures wire == old(wire) + (if hasSocket then [Event(x)] else [])
    {
      roundEventLog := roundEventLog + [x];
      SendPacket(Event(x));
    }

    // The notices of a round's start, its end and the game's end: sent, and not logged.
    method SendNotice(m: Outgoing)
      requires m.RoundStarts? || m.RoundEnds? || m.GameEnds?
      modifies `wire
      ensures wire == old(wire) + (if hasSocket then [m] else [])
    {
      SendPacket(m);
    }

    method ClearRoundEventLog()
      modifies `roundEventLog
      ensures roundEventLog == []
    {
      roundEventLog := [];
    }

    method ReplayMissedRoundEvents(lastRoundEventSeq: nat)
      requires hasSocket
      modifies `wire
      ensures wire == old(wire) + Replay(CatchUp.Missed(roundEventLog, lastRoundEventSeq))
    {
      var i := lastRoundEventSeq;
      while i < |roundEventLog|
        invariant lastRoundEventSeq <= |roundEventLog| ==> i <= |roundEventLog| && wire == old(wire) + Replay(roundEventLog[lastRoundEventSeq..i])
        invariant lastRoundEventSeq > |roundEventLog| ==> wire == old(wire)
        invariant lastRoundEventSeq <= i
      {
        assert Replay(roundEventLog[lastRoundEventSeq..i + 1]) == Replay(roundEventLog[lastRoundEventSeq..i]) + [Event(roundEventLog[i])];
        SendPacket(Event(roundEventLog[i]));
        i := i + 1;
      }
    }

    // A signed-in peer is back: bind its socket and send what it has missed.
    method Reconnect(lastRoundEventSeq: nat)
      requires Valid() && !hasSocket
      modifies `hasSocket, `wire
      ensures Valid() && Wired() && View() == Take(old(View()), Bind, Rock, false)
      ensures wire == old(wire) + Replay(CatchUp.Missed(roundEventLog, lastRoundEventSeq))
    {
      hasSocket := true;
      ReplayMissedRoundEvents(lastRoundEventSeq);
    }
  }
}
