/**
  One player's connection on the server, as a transition system: a request comes in from the room
  and goes to the peer, and whatever the peer, the network and the timers do, exactly one answer
  goes back. ServerConnection.dfy holds the class that is proved to take these steps.
 */
module Connection {
  import opened Basics
  import opened Rules
  import opened Machine
  import opened Invariants
  import opened JsonValues

  // ----- what travels -----

  // The empty string, the least of all names.
  const NOBODY: Name := 0

  // The wire enumerations have an 8-bit underlying type, and the cast to one keeps the low byte.
  function ToByte(v: Json): int {
    ToInt(v, 0) % 256
  }

  datatype RequestData =
    | ThrowData(strivers: set<Name>, order: int)
    | PicksData(offered: seq<int>, maximum: int, selections: int)
    | ActionData(order: int)
    | UpgradeData(points: int)

  function KindOfData(d: RequestData): Kind {
    match d
    case ThrowData(_, _) => AskThrow
    case PicksData(_, _, _) => AskPicks
    case ActionData(_) => AskAction
    case UpgradeData(_) => AskUpgrade
  }

  datatype Answer =
    | Thrown(throw: Throw)
    | Picked(orders: seq<int>)
    | Done(action: Action, toPlayer: Name, toPlace: int)
    | Chosen(list: seq<UpgradeItem>)

  function KindOfAnswer(a: Answer): Kind {
    match a
    case Thrown(_) => AskThrow
    case Picked(_) => AskPicks
    case Done(_, _, _) => AskAction
    case Chosen(_) => AskUpgrade
  }

  // The request id of a packet: RequestInvalid, one of the four kinds, or a number that is neither.
  datatype ReplyId = NoId | Of(kind: Kind) | UnknownId

  datatype Packet =
    | NotifyAgent(known: bool)
    | NotifyServer
    | NotifyOther
    | Reply(id: ReplyId, value: Json)
    | OtherPacket

  // ----- decoding a reply -----

  function DecodeThrow(v: Json): Option<Throw> {
    if !v.JNumber? then None
    else
      match ToByte(v)
      case 0 => Some(Rock)
      case 1 => Some(Scissors)
      case 2 => Some(Paper)
      case _ => None
  }

  function DecodeNumbers(items: seq<Json>): Option<seq<int>> {
    if items == [] then Some([])
    else if !items[0].JNumber? then None
    else
      match DecodeNumbers(items[1..])
      case None => None
      case Some(rest) => Some([ToInt(items[0], 0)] + rest)
  }

  function DecodePicks(v: Json, selections: int): Option<seq<int>> {
    if v.JArray? && |v.items| <= selections then DecodeNumbers(v.items) else None
  }

  function ActionFrom(i: int): Option<Action> {
    match i
    case 0 => Some(DoNothing)
    case 1 => Some(BuyKnife)
    case 2 => Some(BuyHorse)
    case 3 => Some(Slash)
    case 4 => Some(Kick)
    case 5 => Some(Move)
    case 6 => Some(LetMove)
    case _ => None
  }

  function DecodeAction(v: Json): Option<Answer> {
    if !v.JObject? || "action" !in v.fields || !v.fields["action"].JNumber? then None
    else
      match ActionFrom(ToByte(v.fields["action"]))
      case None => None
      case Some(a) =>
        if NeedsTarget(a) && ("toPlayer" !in v.fields || !v.fields["toPlayer"].JText?) then None
        else if NeedsPlace(a) && ("toPlace" !in v.fields || !v.fields["toPlace"].JNumber?) then None
        else Some(Done(a, if NeedsTarget(a) then v.fields["toPlayer"].text else NOBODY,
                       if NeedsPlace(a) then ToInt(v.fields["toPlace"], 0) else 0))
  }

  function ItemFrom(i: int): Option<UpgradeItem> {
    match i
    case 0 => Some(UpgradeKnife)
    case 1 => Some(UpgradeHorse)
    case 2 => Some(UpgradeMaxHp)
    case _ => None
  }

  function DecodeItems(items: seq<Json>): Option<seq<UpgradeItem>> {
    if items == [] then Some([])
    else if !items[0].JNumber? || ItemFrom(ToByte(items[0])).None? then None
    else
      match DecodeItems(items[1..])
      case None => None
      case Some(rest) => Some([ItemFrom(ToByte(items[0])).value] + rest)
  }

  function DecodeUpgrade(v: Json, points: int): Option<seq<UpgradeItem>> {
    if v.JArray? && |v.items| <= points then DecodeItems(v.items) else None
  }

  function Decode(d: RequestData, v: Json): (a: Option<Answer>)
    ensures a.Some? ==> KindOfAnswer(a.value) == KindOfData(d)
  {
    match d
    case ThrowData(_, _) => (match DecodeThrow(v) case None => None case Some(t) => Some(Thrown(t)))
    case PicksData(_, _, selections) => (match DecodePicks(v, selections) case None => None case Some(orders) => Some(Picked(orders)))
    case ActionData(_) => DecodeAction(v)
    case UpgradeData(points) => (match DecodeUpgrade(v, points) case None => None case Some(list) => Some(Chosen(list)))
  }

  // A value that is no member of an enumeration is meant to be refused. What decides is the low byte
  // of the number's int value, and a fraction or a number beyond int has the int value zero: exactly
  // these replies are refused, each with numbers that are taken although they name nothing.

  lemma OutOfRangeThrow(v: Json)
    ensures DecodeThrow(v).None? <==> !v.JNumber? || ToInt(v, 0) % 256 > 2
  {
  }

  lemma WrappedThrow()
    ensures DecodeThrow(JNumber(256.0)) == DecodeThrow(JNumber(0.5)) == DecodeThrow(JNumber(3000000000.0)) == Some(Rock)
    ensures DecodeThrow(JNumber(3.0)) == None
  {
    assert 256.0 == 256 as real && 3.0 == 3 as real && 3000000000.0 == 3000000000 as real;
  }

  predicate HasText(v: Json, key: string)
    requires v.JObject?
  {
    key in v.fields && v.fields[key].JText?
  }

  predicate HasNumber(v: Json, key: string)
    requires v.JObject?
  {
    key in v.fields && v.fields[key].JNumber?
  }

  lemma OutOfRangeAction(v: Json)
    ensures DecodeAction(v).None? <==>
              || !v.JObject? || !HasNumber(v, "action")
              || (var i := ToInt(v.fields["action"], 0) % 256;
                  || i > 6
                  || (i in {3, 4, 6} && !HasText(v, "toPlayer"))
                  || (i in {5, 6} && !HasNumber(v, "toPlace")))
  {
    hide ToInt;
  }

  lemma WrappedAction()
    ensures DecodeAction(JObject(map["action" := JNumber(258.0)])) == Some(Done(BuyHorse, NOBODY, 0))
    ensures DecodeAction(JObject(map["action" := JNumber(0.5)])) == Some(Done(DoNothing, NOBODY, 0))
    ensures DecodeAction(JObject(map["action" := JNumber(7.0)])) == None
  {
    assert 258.0 == 258 as real && 7.0 == 7 as real;
    assert ToByte(JNumber(258.0)) == 2 && ToByte(JNumber(0.5)) == 0 && ToByte(JNumber(7.0)) == 7;
  }

  lemma {:induction false} OutOfRangeItems(items: seq<Json>)
    ensures DecodeItems(items).None? <==> exists i :: 0 <= i < |items| && (!items[i].JNumber? || ToInt(items[i], 0) % 256 > 2)
    ensures DecodeItems(items).Some? ==>
              && |DecodeItems(items).value| == |items|
              && forall i | 0 <= i < |items| :: ItemFrom(ToInt(items[i], 0) % 256) == Some(DecodeItems(items).value[i])
  {
    hide ToInt;
    if items != [] {
      OutOfRangeItems(items[1..]);
      if i :| 0 <= i < |items| && (!items[i].JNumber? || ToInt(items[i], 0) % 256 > 2) {
        assert i > 0 ==> items[1..][i - 1] == items[i];
      }
      forall i | 0 < i < |items| ensures items[i] == items[1..][i - 1] {
      }
    }
  }

  lemma WrappedItem()
    ensures DecodeItems([JNumber(257.0), JNumber(0.5)]) == Some([UpgradeHorse, UpgradeKnife])
    ensures DecodeItems([JNumber(3.0)]) == None
  {
    assert 257.0 == 257 as real && 3.0 == 3 as real;
    assert ToByte(JNumber(257.0)) == 1 && ToByte(JNumber(0.5)) == 0 && ToByte(JNumber(3.0)) == 3;
    var l := [JNumber(257.0), JNumber(0.5)];
    OutOfRangeItems(l);
    assert forall i | 0 <= i < |l| :: l[i] == l[0] || l[i] == l[1];
    assert DecodeItems(l).Some? && ItemFrom(ToInt(l[0], 0) % 256) == Some(DecodeItems(l).value[0]);
    assert ItemFrom(ToInt(l[1], 0) % 256) == Some(DecodeItems(l).value[1]);
    assert DecodeItems(l).value == [UpgradeHorse, UpgradeKnife];
  }

  // The orders of a reply have no enumeration to be outside of: any numbers will do.
  lemma {:induction false} NumbersRefused(items: seq<Json>)
    ensures DecodeNumbers(items).None? <==> exists i :: 0 <= i < |items| && !items[i].JNumber?
    ensures DecodeNumbers(items).Some? ==>
              && |DecodeNumbers(items).value| == |items|
              && forall i | 0 <= i < |items| :: DecodeNumbers(items).value[i] == ToInt(items[i], 0)
  {
    hide ToInt;
    if items != [] {
      NumbersRefused(items[1..]);
      if i :| 0 <= i < |items| && !items[i].JNumber? {
        assert i > 0 ==> items[1..][i - 1] == items[i];
      }
      forall i | 0 < i < |items| ensures items[i] == items[1..][i - 1] {
      }
    }
  }

  // ----- what a client sends for an answer, and what becomes of it -----

  function ThrowNumber(t: Throw): int {
    match t case Rock => 0 case Scissors => 1 case Paper => 2
  }

  function ActionNumber(a: Action): int {
    match a
    case DoNothing => 0
    case BuyKnife => 1
    case BuyHorse => 2
    case Slash => 3
    case Kick => 4
    case Move => 5
    case LetMove => 6
  }

  function ItemNumber(i: UpgradeItem): int {
    match i case UpgradeKnife => 0 case UpgradeHorse => 1 case UpgradeMaxHp => 2
  }

  function FromInts(numbers: seq<int>): (r: seq<Json>)
    ensures |r| == |numbers| && forall i | 0 <= i < |r| :: r[i] == FromInt(numbers[i])
  {
    if numbers == [] then [] else [FromInt(numbers[0])] + FromInts(numbers[1..])
  }

  function ItemNumbers(list: seq<UpgradeItem>): (r: seq<int>)
    ensures |r| == |list| && forall i | 0 <= i < |r| :: r[i] == ItemNumber(list[i])
  {
    if list == [] then [] else [ItemNumber(list[0])] + ItemNumbers(list[1..])
  }

  // The sendXxxReply functions of the client: an action always carries a target and a place.
  function Encode(a: Answer): Json {
    match a
    case Thrown(t) => FromInt(ThrowNumber(t))
    case Picked(orders) => JArray(FromInts(orders))
    case Done(x, n, q) => ActionObject(ActionNumber(x) as real, n, q)
    case Chosen(list) => JArray(FromInts(ItemNumbers(list)))
  }

  // What the room is told of an answer: a target and a place only if the action takes one.
  function Heard(a: Answer): Answer {
    match a
    case Done(x, n, q) => Done(x, if NeedsTarget(x) then n else NOBODY, if NeedsPlace(x) then q else 0)
    case _ => a
  }

  // The numbers on the wire, once in full.
  lemma WireNumbers()
    ensures DecodeThrow(JNumber(0.0)) == Some(Rock) && DecodeThrow(JNumber(1.0)) == Some(Scissors) && DecodeThrow(JNumber(2.0)) == Some(Paper)
    ensures DecodeItems([JNumber(0.0)]) == Some([UpgradeKnife]) && DecodeItems([JNumber(1.0)]) == Some([UpgradeHorse])
    ensures DecodeItems([JNumber(2.0)]) == Some([UpgradeMaxHp])
  {
    IntReads(0, 0);
    IntReads(1, 0);
    IntReads(2, 0);
    OneItem(JNumber(0.0));
    OneItem(JNumber(1.0));
    OneItem(JNumber(2.0));
    hide ToInt, DecodeItems;
  }

  function ActionObject(number: real, n: Name, q: int): Json {
    JObject(map["action" := JNumber(number), "toPlayer" := JText(n), "toPlace" := FromInt(q)])
  }

  lemma WireActions(n: Name, q: int)
    requires FitsInt(q)
    ensures DecodeAction(ActionObject(0.0, n, q)) == Some(Done(DoNothing, NOBODY, 0))
    ensures DecodeAction(ActionObject(1.0, n, q)) == Some(Done(BuyKnife, NOBODY, 0))
    ensures DecodeAction(ActionObject(2.0, n, q)) == Some(Done(BuyHorse, NOBODY, 0))
    ensures DecodeAction(ActionObject(3.0, n, q)) == Some(Done(Slash, n, 0))
    ensures DecodeAction(ActionObject(4.0, n, q)) == Some(Done(Kick, n, 0))
    ensures DecodeAction(ActionObject(5.0, n, q)) == Some(Done(Move, NOBODY, q))
    ensures DecodeAction(ActionObject(6.0, n, q)) == Some(Done(LetMove, n, q))
  {
    hide DecodeAction, ActionObject;
    ActionReads(0, n, q);
    ActionReads(1, n, q);
    ActionReads(2, n, q);
    ActionReads(3, n, q);
    ActionReads(4, n, q);
    ActionReads(5, n, q);
    ActionReads(6, n, q);
  }

  lemma ActionReads(i: int, n: Name, q: int)
    requires 0 <= i <= 6 && FitsInt(q)
    ensures ActionFrom(i).Some?
    ensures DecodeAction(ActionObject(i as real, n, q)) == Some(Heard(Done(ActionFrom(i).value, n, q)))
  {
    hide ToInt;
    IntReads(i, 0);
    IntReads(q, 0);
  }

  lemma OneItem(v: Json)
    ensures DecodeItems([v]) == if v.JNumber? && ItemFrom(ToByte(v)).Some? then Some([ItemFrom(ToByte(v)).value]) else None
  {
    hide ToByte, ItemFrom;
    assert [v][1..] == [];
    if v.JNumber? && ItemFrom(ToByte(v)).Some? { assert [ItemFrom(ToByte(v)).value] + [] == [ItemFrom(ToByte(v)).value]; }
  }

  predicate Wireable(a: Answer) {
    match a
    case Picked(orders) => forall o <- orders :: FitsInt(o)
    case Done(_, _, q) => FitsInt(q)
    case _ => true
  }

  // The list a request allows at most.
  predicate FitsRequest(d: RequestData, a: Answer) {
    match (d, a)
    case (PicksData(_, _, selections), Picked(orders)) => |orders| <= selections
    case (UpgradeData(points), Chosen(list)) => |list| <= points
    case _ => true
  }

  // Whatever a client answers, the server makes of it what the client meant - unless the list is
  // longer than was asked for, which is refused.
  lemma ReplyRoundTrip(d: RequestData, a: Answer)
    requires KindOfAnswer(a) == KindOfData(d) && Wireable(a)
    ensures Decode(d, Encode(a)) == if FitsRequest(d, a) then Some(Heard(a)) else None
  {
    match a
    case Thrown(t) => IntReads(ThrowNumber(t), 0);
    case Picked(orders) => PicksRoundTrip(orders);
    case Done(x, n, q) => ActionRoundTrip(x, n, q);
    case Chosen(list) => ItemsRoundTrip(list);
  }

  lemma PicksRoundTrip(orders: seq<int>)
    requires forall o <- orders :: FitsInt(o)
    ensures DecodeNumbers(FromInts(orders)) == Some(orders)
  {
    hide ToInt, FitsInt;
    var items := FromInts(orders);
    forall i | 0 <= i < |orders| ensures items[i].JNumber? && ToInt(items[i], 0) == orders[i] {
      assert orders[i] in orders;
      IntReads(orders[i], 0);
    }
    hide FromInts;
    NumbersRefused(items);
    assert DecodeNumbers(items).value == orders;
  }

  lemma ActionRoundTrip(x: Action, n: Name, q: int)
    requires FitsInt(q)
    ensures DecodeAction(Encode(Done(x, n, q))) == Some(Heard(Done(x, n, q)))
  {
    hide ToInt;
    IntReads(ActionNumber(x), 0);
    IntReads(q, 0);
  }

  lemma ItemReads(item: UpgradeItem)
    ensures ItemFrom(ToByte(FromInt(ItemNumber(item)))) == Some(item)
  {
    IntReads(ItemNumber(item), 0);
  }

  lemma {:induction false} ItemsRoundTrip(list: seq<UpgradeItem>)
    ensures DecodeItems(FromInts(ItemNumbers(list))) == Some(list)
    decreases |list|
  {
    hide ItemFrom, ToByte, ItemNumber;
    if list != [] {
      var first, numbers := FromInt(ItemNumber(list[0])), ItemNumbers(list[1..]);
      assert ItemNumbers(list) == [ItemNumber(list[0])] + numbers && ItemNumbers(list)[1..] == numbers;
      assert FromInts(ItemNumbers(list)) == [first] + FromInts(numbers) && ([first] + FromInts(numbers))[1..] == FromInts(numbers);
      ItemReads(list[0]);
      ItemsRoundTrip(list[1..]);
      assert [list[0]] + list[1..] == list;
    }
  }

  // What is asked can be answered by default: a request for picks offers enough orders.
  predicate Answerable(d: RequestData) {
    d.PicksData? ==> 0 <= d.selections <= |d.offered|
  }

  function DefaultAnswer(d: RequestData, coin: Throw): (a: Answer)
    requires Answerable(d)
    ensures KindOfAnswer(a) == KindOfData(d)
  {
    match d
    case ThrowData(_, _) => Thrown(coin)
    case PicksData(offered, _, selections) => Picked(offered[..selections])
    case ActionData(_) => Done(DoNothing, NOBODY, 0)
    case UpgradeData(_) => Chosen([])
  }

  // The default is a throw by chance, the first orders on offer, no action, and a list that leaves
  // the upgrades to the engine.
  lemma DefaultMeaning(d: RequestData, coin: Throw)
    requires Answerable(d)
    ensures var a := DefaultAnswer(d, coin);
            && (d.ThrowData? ==> a == Thrown(coin))
            && (d.PicksData? ==> a.Picked? && |a.orders| == d.selections && forall i | 0 <= i < d.selections :: a.orders[i] == d.offered[i])
            && (d.ActionData? ==> a == Done(DoNothing, NOBODY, 0))
            && (d.UpgradeData? ==> a == Chosen([]))
  {
  }

  // ----- the connection -----

  datatype Conn = Conn(
    request: Option<RequestData>,   // currentRequest and its value
    bound: bool,                    // there is a socket
    timed: bool,                    // a request timeout is configured
    armed: bool,                    // the request timer is running
    deferred: nat,                  // zero timers that will run executeDefaultReply
    onWire: bool,                   // the open request was sent through the socket bound now
    asked: seq<RequestData>,        // every request so far
    answers: seq<Answer>)           // every answer handed to the agent so far

  datatype Wire =
    | Ask(data: RequestData)
    | Deferred
    | Received(packet: Packet)
    | Dropped
    | Bind
    | TimesOut
    | FallsSilent

  function Unbound(timed: bool): Conn {
    Conn(None, false, timed, false, 0, false, [], [])
  }

  predicate Sane(c: Conn) {
    c.request.Some? ==> Answerable(c.request.value)
  }

  function Answered(c: Conn, a: Answer): Conn {
    c.(request := None, answers := c.answers + [a])
  }

  function ExecuteDefault(c: Conn, coin: Throw): (r: Conn)
    requires Sane(c)
  {
    if c.request.None? then c else Answered(c, DefaultAnswer(c.request.value, coin))
  }

  function Drop(c: Conn, coin: Throw): Conn
    requires Sane(c)
  {
    ExecuteDefault(c.(bound := false, onWire := false), coin)
  }

  // setError disconnects; the disconnection may be signalled at once or later.
  function SetError(c: Conn, coin: Throw, atOnce: bool): Conn
    requires Sane(c)
  {
    if atOnce then Drop(c, coin) else c
  }

  function Offend(c: Conn, coin: Throw, atOnce: bool): (r: Conn)
    requires Sane(c)
  {
    ExecuteDefault(SetError(c, coin, atOnce), coin)
  }

  function Matches(c: Conn, id: ReplyId): bool {
    match id
    case NoId => c.request.None?
    case Of(k) => c.request.Some? && KindOfData(c.request.value) == k
    case UnknownId => false
  }

  function ReplyMatched(c: Conn, v: Json, coin: Throw, atOnce: bool): Conn
    requires Sane(c)
  {
    var quiet := c.(armed := false);
    if v.JNull? then ExecuteDefault(quiet, coin)
    else if c.request.None? then SetError(quiet, coin, atOnce)
    else
      match Decode(c.request.value, v)
      case Some(a) => Answered(quiet, a)
      case None => Answered(SetError(quiet.(request := None), coin, atOnce), DefaultAnswer(c.request.value, coin))
  }

  function Receive(c: Conn, p: Packet, coin: Throw, atOnce: bool): Conn
    requires Sane(c)
  {
    if !c.bound then c
    else
      match p
      case NotifyAgent(known) => if known then c else SetError(c, coin, atOnce)
      case NotifyServer => c
      case NotifyOther => Offend(c, coin, atOnce)
      case Reply(id, v) => if Matches(c, id) then ReplyMatched(c, v, coin, atOnce) else Offend(c, coin, atOnce)
      case OtherPacket => Offend(c, coin, atOnce)
  }

  function AddRequest(c: Conn, d: RequestData): Conn {
    var asking := c.(request := Some(d), asked := c.asked + [d], onWire := c.bound);
    if c.bound then asking.(armed := c.armed || c.timed) else asking.(deferred := c.deferred + 1)
  }

  // What can happen when: the room asks only while no request is open, timers fire only when they
  // run, and a socket is bound only where none is.
  predicate Possible(c: Conn, e: Wire) {
    match e
    case Ask(d) => c.request.None? && Answerable(d)
    case Deferred => c.deferred > 0
    case Bind => !c.bound
    case TimesOut => c.armed
    case Dropped => c.bound
    case FallsSilent => c.bound
    case Received(_) => true
  }

  function Take(c: Conn, e: Wire, coin: Throw, atOnce: bool): Conn
    requires Sane(c)
  {
    match e
    case Ask(d) => AddRequest(c, d)
    case Deferred => ExecuteDefault(if c.deferred > 0 then c.(deferred := c.deferred - 1) else c, coin)
    case Received(p) => Receive(c, p, coin, atOnce)
    case Dropped => Drop(c, coin)
    case Bind => c.(bound := true)
    case TimesOut => Offend(c.(armed := false), coin, atOnce && c.bound)
    case FallsSilent => Offend(c, coin, atOnce && c.bound)
  }

  // ----- exactly one answer to each request -----

  // The first requests have their answers, in order and of their kind; the last one may be open.
  predicate OneEach(c: Conn) {
    && |c.asked| == |c.answers| + (if c.request.Some? then 1 else 0)
    && (forall i | 0 <= i < |c.answers| :: KindOfAnswer(c.answers[i]) == KindOfData(c.asked[i]))
    && (c.request.Some? ==> c.asked[|c.asked| - 1] == c.request.value && Answerable(c.request.value))
  }

  // An open request can still be answered by the peer it was sent to, or a default is on its way.
  predicate NotOrphaned(c: Conn) {
    c.request.Some? ==> (c.bound && c.onWire) || c.deferred > 0
  }

  // What any event but a request does to the record of requests and answers: nothing, or it closes
  // the open request with one answer of its kind.
  predicate ClosesAtMost(c: Conn, t: Conn) {
    && t.asked == c.asked
    && ((t.request == c.request && t.answers == c.answers)
        || (c.request.Some? && t.request.None? && |t.answers| == |c.answers| + 1 && t.answers[..|c.answers|] == c.answers
           && KindOfAnswer(t.answers[|c.answers|]) == KindOfData(c.request.value)))
  }

  lemma DefaultCloses(c: Conn, t: Conn, coin: Throw)
    requires Sane(c) && t.request == c.request && t.answers == c.answers && t.asked == c.asked
    ensures ClosesAtMost(c, ExecuteDefault(t, coin))
  {
    hide DefaultAnswer;
  }

  lemma OffendCloses(c: Conn, coin: Throw, atOnce: bool)
    requires Sane(c)
    ensures ClosesAtMost(c, SetError(c, coin, atOnce)) && ClosesAtMost(c, Offend(c, coin, atOnce))
  {
    hide DefaultAnswer;
  }

  lemma MatchedCloses(c: Conn, v: Json, coin: Throw, atOnce: bool)
    requires Sane(c)
    ensures ClosesAtMost(c, ReplyMatched(c, v, coin, atOnce))
  {
    hide DefaultAnswer, Decode, ClosesAtMost, SetError, ExecuteDefault;
    var quiet := c.(armed := false);
    if v.JNull? {
      DefaultCloses(c, quiet, coin);
    } else if c.request.None? {
      OffendCloses(quiet, coin, atOnce);
      SameRecord(c, quiet, SetError(quiet, coin, atOnce));
    } else {
      ClosedError(quiet, coin, atOnce);
      match Decode(c.request.value, v)
      case Some(a) => AnswerCloses(c, quiet, a);
      case None => AnswerCloses(c, SetError(quiet.(request := None), coin, atOnce), DefaultAnswer(c.request.value, coin));
    }
  }

  lemma SameRecord(c: Conn, b: Conn, t: Conn)
    requires ClosesAtMost(b, t) && b.request == c.request && b.answers == c.answers && b.asked == c.asked
    ensures ClosesAtMost(c, t)
  {
  }

  lemma AnswerCloses(c: Conn, t: Conn, a: Answer)
    requires c.request.Some? && KindOfAnswer(a) == KindOfData(c.request.value)
    requires t.answers == c.answers && t.asked == c.asked
    ensures ClosesAtMost(c, Answered(t, a))
  {
  }

  // With no request open, an error answers nothing.
  lemma ClosedError(c: Conn, coin: Throw, atOnce: bool)
    ensures var t := SetError(c.(request := None), coin, atOnce);
            t.request.None? && t.answers == c.answers && t.asked == c.asked
  {
  }

  lemma ReceiveCloses(c: Conn, p: Packet, coin: Throw, atOnce: bool)
    requires Sane(c)
    ensures ClosesAtMost(c, Receive(c, p, coin, atOnce))
  {
    hide Offend, SetError, ReplyMatched;
    OffendCloses(c, coin, atOnce);
    match p
    case Reply(_, v) => MatchedCloses(c, v, coin, atOnce);
    case _ =>
  }

  lemma TakeCloses(c: Conn, e: Wire, coin: Throw, atOnce: bool)
    requires Sane(c) && !e.Ask?
    ensures ClosesAtMost(c, Take(c, e, coin, atOnce))
  {
    hide DefaultAnswer, Receive, ExecuteDefault, Offend;
    match e
    case Received(p) => ReceiveCloses(c, p, coin, atOnce);
    case Deferred => DefaultCloses(c, if c.deferred > 0 then c.(deferred := c.deferred - 1) else c, coin);
    case Dropped => DefaultCloses(c, c.(bound := false, onWire := false), coin);
    case TimesOut => OffendCloses(c.(armed := false), coin, atOnce && c.bound);
    case FallsSilent => OffendCloses(c, coin, atOnce && c.bound);
    case Bind =>
  }

  lemma ClosesOneEach(c: Conn, t: Conn)
    requires OneEach(c) && ClosesAtMost(c, t)
    ensures OneEach(t)
  {
    hide Answerable;
    forall i | 0 <= i < |t.answers| ensures KindOfAnswer(t.answers[i]) == KindOfData(t.asked[i]) {
      if i < |c.answers| { assert t.answers[i] == t.answers[..|c.answers|][i]; }
    }
  }

  lemma TakeOneEach(c: Conn, e: Wire, coin: Throw, atOnce: bool)
    requires OneEach(c) && Possible(c, e)
    ensures OneEach(Take(c, e, coin, atOnce))
  {
    hide Receive, ClosesAtMost, Answerable;
    if !e.Ask? {
      TakeCloses(c, e, coin, atOnce);
      ClosesOneEach(c, Take(c, e, coin, atOnce));
    }
  }

  lemma TakeNotOrphaned(c: Conn, e: Wire, coin: Throw, atOnce: bool)
    requires OneEach(c) && NotOrphaned(c) && Possible(c, e)
    ensures NotOrphaned(Take(c, e, coin, atOnce))
  {
    hide Decode, DefaultAnswer, Answerable;
  }

  datatype Happening = Happening(event: Wire, coin: Throw, atOnce: bool)

  ghost predicate PossibleRun(c: Conn, hs: seq<Happening>)
    decreases |hs|
  {
    hs == [] || (Sane(c) && Possible(c, hs[0].event) && PossibleRun(Take(c, hs[0].event, hs[0].coin, hs[0].atOnce), hs[1..]))
  }

  ghost function RunConn(c: Conn, hs: seq<Happening>): Conn
    requires PossibleRun(c, hs)
    decreases |hs|
  {
    if hs == [] then c else RunConn(Take(c, hs[0].event, hs[0].coin, hs[0].atOnce), hs[1..])
  }

  lemma {:induction false} OneEachRun(c: Conn, hs: seq<Happening>)
    requires OneEach(c) && NotOrphaned(c) && PossibleRun(c, hs)
    ensures OneEach(RunConn(c, hs)) && NotOrphaned(RunConn(c, hs))
    decreases |hs|
  {
    hide OneEach, NotOrphaned, Possible, Take;
    if hs != [] {
      TakeOneEach(c, hs[0].event, hs[0].coin, hs[0].atOnce);
      TakeNotOrphaned(c, hs[0].event, hs[0].coin, hs[0].atOnce);
      OneEachRun(Take(c, hs[0].event, hs[0].coin, hs[0].atOnce), hs[1..]);
    }
  }

  // Over any mix of replies, give-ups, bad packets, timeouts, silences, drops and reconnects: the
  // answers are as many as the requests, less the one that is open; each is of its request's kind;
  // and an open request is never left with nobody to answer it.
  lemma ExactlyOneAnswer(timed: bool, hs: seq<Happening>)
    requires PossibleRun(Unbound(timed), hs)
    ensures var c := RunConn(Unbound(timed), hs);
            && |c.asked| == |c.answers| + (if c.request.Some? then 1 else 0)
            && (forall i | 0 <= i < |c.answers| :: KindOfAnswer(c.answers[i]) == KindOfData(c.asked[i]))
            && (c.request.Some? ==> (c.bound && c.onWire) || c.deferred > 0)
  {
    OneEachRun(Unbound(timed), hs);
    hide RunConn, PossibleRun;
  }

  // The answer is the peer's own exactly when the packet is a decodable reply to the open request;
  // in every other case in which a request is closed it is the default.
  lemma WhoseAnswer(c: Conn, e: Wire, coin: Throw, atOnce: bool)
    requires OneEach(c) && c.request.Some? && !e.Ask?
    ensures var t := Take(c, e, coin, atOnce); var d := c.request.value;
            var own := e.Received? && c.bound && e.packet.Reply? && e.packet.id == Of(KindOfData(d))
                       && !e.packet.value.JNull? && Decode(d, e.packet.value).Some?;
            if own then t.answers == c.answers + [Decode(d, e.packet.value).value] && t.bound
            else t.answers == c.answers || t.answers == c.answers + [DefaultAnswer(d, coin)]
  {
    hide Decode, DefaultAnswer, Answerable, Receive, ExecuteDefault, SetError, Offend, Drop;
    match e
    case Received(p) => WhoseReply(c, p, coin, atOnce);
    case Deferred => DefaultAnswers(c.(deferred := if c.deferred > 0 then c.deferred - 1 else 0), coin, false);
    case TimesOut => DefaultAnswers(c.(armed := false), coin, atOnce && c.bound);
    case _ => DefaultAnswers(c, coin, atOnce && c.bound);
  }

  // So an answer sent through the socket reaches the room as the client meant it.
  lemma AnswerArrives(c: Conn, a: Answer, coin: Throw, atOnce: bool)
    requires OneEach(c) && c.request.Some? && c.bound
    requires KindOfAnswer(a) == KindOfData(c.request.value) && Wireable(a) && FitsRequest(c.request.value, a)
    ensures var t := Take(c, Received(Reply(Of(KindOfAnswer(a)), Encode(a))), coin, atOnce);
            t.answers == c.answers + [Heard(a)] && t.request.None? && t.bound && !t.armed
  {
    SaneNow(c);
    hide Decode, Answerable, OneEach, DefaultAnswer;
    ReplyRoundTrip(c.request.value, a);
  }

  lemma DefaultAnswers(c: Conn, coin: Throw, atOnce: bool)
    requires Sane(c) && c.request.Some?
    ensures var answers := c.answers + [DefaultAnswer(c.request.value, coin)];
            && ExecuteDefault(c, coin).answers == Drop(c, coin).answers == Offend(c, coin, atOnce).answers == answers
            && SetError(c, coin, atOnce).answers == if atOnce then answers else c.answers
  {
    hide DefaultAnswer;
  }

  lemma WhoseReply(c: Conn, p: Packet, coin: Throw, atOnce: bool)
    requires OneEach(c) && c.request.Some?
    ensures var t := Receive(c, p, coin, atOnce); var d := c.request.value;
            var own := c.bound && p.Reply? && p.id == Of(KindOfData(d)) && !p.value.JNull? && Decode(d, p.value).Some?;
            if own then t.answers == c.answers + [Decode(d, p.value).value] && t.bound
            else t.answers == c.answers || t.answers == c.answers + [DefaultAnswer(d, coin)]
  {
    hide Decode, DefaultAnswer, Answerable, ExecuteDefault, SetError, Offend, OneEach;
    SaneNow(c);
    DefaultAnswers(c, coin, atOnce);
    DefaultAnswers(c.(armed := false), coin, atOnce);
    ClosedError(c.(armed := false), coin, atOnce);
  }

  lemma SaneNow(c: Conn)
    requires OneEach(c)
    ensures Sane(c)
  {
  }

  // ----- the request timer -----

  // What closes an open request without the matching reply that would stop its timer: the deferred
  // default, the loss or silence of the peer, a packet out of order, and an unknown notice whose
  // disconnection is signalled at once.
  predicate Abandons(c: Conn, e: Wire, atOnce: bool) {
    match e
    case Ask(_) => false
    case Bind => false
    case TimesOut => false
    case Deferred => true
    case Dropped => true
    case FallsSilent => true
    case Received(p) =>
      c.bound && match p
                 case NotifyAgent(known) => !known && atOnce
                 case NotifyServer => false
                 case NotifyOther => true
                 case Reply(id, _) => !Matches(c, id)
                 case OtherPacket => true
  }

  predicate TimerWaits(c: Conn) {
    c.armed ==> c.request.Some?
  }

  // The timer is meant to run only while a request waits. It runs on with none open exactly when a
  // request whose timer runs is abandoned.
  lemma TimerOutlivesRequest(c: Conn, e: Wire, coin: Throw, atOnce: bool)
    requires OneEach(c) && Possible(c, e) && TimerWaits(c)
    ensures var t := Take(c, e, coin, atOnce);
            t.armed && t.request.None? <==> c.armed && Abandons(c, e, atOnce)
  {
    hide DefaultAnswer, Receive, ExecuteDefault, Offend, Drop, Answerable, Matches;
    SaneNow(c);
    match e
    case Received(p) =>
      ReceiveTimer(c, p, coin, atOnce);
      if c.armed { ReceiveAbandons(c, p, coin, atOnce); }
    case Deferred => TimerKept(c.(deferred := c.deferred - 1), coin, true);
    case TimesOut => TimerKept(c.(armed := false), coin, atOnce && c.bound);
    case _ => TimerKept(c, coin, atOnce && c.bound);
  }

  // An open request that is not matched is closed exactly by what abandons it.
  lemma ReceiveAbandons(c: Conn, p: Packet, coin: Throw, atOnce: bool)
    requires Sane(c) && c.request.Some?
    ensures (c.bound && p.Reply? && Matches(c, p.id)) || (Receive(c, p, coin, atOnce).request.None? <==> Abandons(c, Received(p), atOnce))
  {
    hide DefaultAnswer, Matches, ReplyMatched;
  }

  // A request opens for a peer that has a socket, with the timer running if one is configured; for
  // one that has none a default is scheduled. Scheduled defaults come due one by one.
  lemma RequestOpens(c: Conn, e: Wire, coin: Throw, atOnce: bool)
    requires Sane(c) && Possible(c, e)
    ensures var t := Take(c, e, coin, atOnce);
            && (e.Ask? ==> t.request == Some(e.data) && t.asked == c.asked + [e.data] && t.onWire == c.bound && t.bound == c.bound
                           && (t.armed <==> c.armed || (c.bound && c.timed)))
            && t.deferred == c.deferred + (if e.Ask? && !c.bound then 1 else if e.Deferred? then -1 else 0)
  {
    hide DefaultAnswer, Decode;
  }

  // When an open request is closed: by its matching reply, its timeout, or by being abandoned.
  lemma WhenClosed(c: Conn, e: Wire, coin: Throw, atOnce: bool)
    requires Sane(c) && c.request.Some? && !e.Ask?
    ensures Take(c, e, coin, atOnce).request.None? <==>
              Abandons(c, e, atOnce) || e.TimesOut? || (e.Received? && c.bound && e.packet.Reply? && e.packet.id == Of(KindOfData(c.request.value)))
  {
    hide DefaultAnswer, Decode, Receive, KindOfData, ReplyMatched;
    if e.Received? {
      ReceiveAbandons(c, e.packet, coin, atOnce);
      if c.bound && e.packet.Reply? && Matches(c, e.packet.id) { MatchedIsClosed(c, e.packet, coin, atOnce); }
    }
  }

  lemma MatchedIsClosed(c: Conn, p: Packet, coin: Throw, atOnce: bool)
    requires Sane(c) && c.request.Some? && c.bound && p.Reply? && Matches(c, p.id)
    ensures Receive(c, p, coin, atOnce).request.None?
  {
    hide DefaultAnswer, Decode, KindOfData;
  }

  // What costs a peer its connection at once, if a disconnection is signalled at once: a notice that
  // is unknown or not for a client to send, a packet out of order, a reply that matches nothing open
  // or cannot be decoded, the request timer, and silence.
  predicate Offensive(c: Conn, e: Wire) {
    match e
    case TimesOut => true
    case FallsSilent => true
    case Received(NotifyAgent(known)) => !known
    case Received(NotifyOther) => true
    case Received(OtherPacket) => true
    case Received(Reply(id, v)) =>
      || id != (if c.request.Some? then Of(KindOfData(c.request.value)) else NoId)
      || (!v.JNull? && (c.request.None? || Decode(c.request.value, v).None?))
    case _ => false
  }

  lemma WhoIsDropped(c: Conn, e: Wire, coin: Throw, atOnce: bool)
    requires Sane(c) && c.bound
    ensures !Take(c, e, coin, atOnce).bound <==> e.Dropped? || (atOnce && Offensive(c, e))
  {
    hide DefaultAnswer, Decode, Receive, KindOfData;
    if e.Received? { WhoseSocketGoes(c, e.packet, coin, atOnce); }
  }

  lemma WhoseSocketGoes(c: Conn, p: Packet, coin: Throw, atOnce: bool)
    requires Sane(c) && c.bound
    ensures !Receive(c, p, coin, atOnce).bound <==> atOnce && Offensive(c, Received(p))
  {
    hide DefaultAnswer, Decode, KindOfData, ReplyMatched;
    if p.Reply? && Matches(c, p.id) { MatchedSocket(c, p.value, coin, atOnce); }
  }

  lemma MatchedSocket(c: Conn, v: Json, coin: Throw, atOnce: bool)
    requires Sane(c) && c.bound
    ensures !ReplyMatched(c, v, coin, atOnce).bound <==> atOnce && !v.JNull? && (c.request.None? || Decode(c.request.value, v).None?)
  {
    hide DefaultAnswer, Decode;
  }

  // Over a run the timer keeps to its purpose exactly if no request is abandoned while it is timed.
  ghost predicate TimerAlwaysWaits(c: Conn, hs: seq<Happening>)
    requires PossibleRun(c, hs)
    decreases |hs|
  {
    TimerWaits(c) && (hs == [] || TimerAlwaysWaits(Take(c, hs[0].event, hs[0].coin, hs[0].atOnce), hs[1..]))
  }

  ghost predicate NoneAbandoned(c: Conn, hs: seq<Happening>)
    requires PossibleRun(c, hs)
    decreases |hs|
  {
    hs == [] || (!(c.armed && Abandons(c, hs[0].event, hs[0].atOnce))
                 && NoneAbandoned(Take(c, hs[0].event, hs[0].coin, hs[0].atOnce), hs[1..]))
  }

  lemma {:induction false} TimerWaitsRun(c: Conn, hs: seq<Happening>)
    requires OneEach(c) && TimerWaits(c) && PossibleRun(c, hs)
    ensures TimerAlwaysWaits(c, hs) <==> NoneAbandoned(c, hs)
    decreases |hs|
  {
    hide OneEach, Possible, Take, Abandons, Sane;
    if hs != [] {
      var t := Take(c, hs[0].event, hs[0].coin, hs[0].atOnce);
      TakeOneEach(c, hs[0].event, hs[0].coin, hs[0].atOnce);
      TimerOutlivesRequest(c, hs[0].event, hs[0].coin, hs[0].atOnce);
      if TimerWaits(t) { TimerWaitsRun(t, hs[1..]); } else { assert !TimerAlwaysWaits(t, hs[1..]); }
    }
  }

  lemma TimerWaitsUnlessAbandoned(timed: bool, hs: seq<Happening>)
    requires PossibleRun(Unbound(timed), hs)
    ensures TimerAlwaysWaits(Unbound(timed), hs) <==> NoneAbandoned(Unbound(timed), hs)
  {
    hide TimerAlwaysWaits, NoneAbandoned, PossibleRun;
    TimerWaitsRun(Unbound(timed), hs);
  }

  lemma TimerKept(c: Conn, coin: Throw, atOnce: bool)
    requires Sane(c)
    ensures ExecuteDefault(c, coin).armed == Drop(c, coin).armed == Offend(c, coin, atOnce).armed == c.armed
    ensures ExecuteDefault(c, coin).request.None? && Drop(c, coin).request.None? && Offend(c, coin, atOnce).request.None?
  {
    hide DefaultAnswer;
  }

  lemma ReceiveTimer(c: Conn, p: Packet, coin: Throw, atOnce: bool)
    requires Sane(c)
    ensures Receive(c, p, coin, atOnce).armed == (c.armed && !(c.bound && p.Reply? && Matches(c, p.id)))
  {
    hide Decode, DefaultAnswer, Matches;
  }

  // A run in which one is: the peer drops with a request open and comes back, and the old
  // timer then throws out the new socket although nothing is asked of it.
  lemma StaleTimerDropsPeer(d: RequestData, coin: Throw)
    requires Answerable(d)
    ensures var c1 := Take(Unbound(true), Bind, coin, true);
            var c2 := Take(c1, Ask(d), coin, true);
            var c3 := Take(c2, Dropped, coin, true);
            var c4 := Take(c3, Bind, coin, true);
            && Possible(c4, TimesOut) && c4.request.None? && c4.bound
            && !Take(c4, TimesOut, coin, true).bound
  {
  }
}
