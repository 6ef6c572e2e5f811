/**
  Engine and connections together. The engine's requests are queued to the players' connections,
  and what a connection hands to its agent is queued back to the engine. This is where two
  assumptions are paid for: that only players who were asked reply, and that a connection is
  never asked while a request is open.
 */
module System {
  import opened Basics
  import opened Rules
  import opened Machine
  import opened Accounting
  import opened Invariants
  import opened Steps
  import opened Runs
  import opened Contests
  import opened Connection
  import opened Defaults

  datatype Demand = Demand(name: Name, data: RequestData)

  datatype System = System(world: World, conns: map<Name, Conn>, toAsk: seq<Demand>, toLogic: seq<Event>)

  datatype Act =
    | Command(event: Event)            // the room adds or removes a player or starts a round
    | LogicRuns                        // the engine's next queued slot call
    | Deliver                          // the next request reaches its player's connection
    | AtConnection(name: Name, h: Happening)

  function ConnOf(y: System, n: Name): Conn {
    if n in y.conns then y.conns[n] else Unbound(false)
  }

  // ----- what a message asks of whom -----

  ghost function DemandsFor(s: set<Name>, d: RequestData): seq<Demand> {
    if s == {} then [] else [Demand(Least(s), d)] + DemandsFor(s - {Least(s)}, d)
  }

  ghost function DemandsOf(m: Message): seq<Demand> {
    match m
    case RequestRpsForAction(names) => DemandsFor((set n | n in names), ThrowData((set n | n in names), 0))
    case RequestActionOrder(n, offered, maximum, selections) => [Demand(n, PicksData(offered, maximum, selections))]
    case RequestRpsForActionOrder(strivers, order) => DemandsFor(strivers, ThrowData(strivers, order))
    case RequestAction(n, order) => [Demand(n, ActionData(order))]
    case RequestUpgrade(n, points) => [Demand(n, UpgradeData(points))]
    case _ => []
  }

  ghost function Expand(sent: seq<Message>): seq<Demand>
    decreases |sent|
  {
    if sent == [] then [] else DemandsOf(sent[0]) + Expand(sent[1..])
  }

  function EventOf(n: Name, a: Answer): Event {
    match a
    case Thrown(t) => RpsReply(n, t)
    case Picked(orders) => ActionOrderReply(n, orders)
    case Done(act, to, place) => ActionReply(n, act, to, place)
    case Chosen(list) => UpgradeReply(n, list)
  }

  function Given(n: Name, c: Conn, t: Conn): seq<Event> {
    if |t.answers| > |c.answers| then [EventOf(n, t.answers[|t.answers| - 1])] else []
  }

  // ----- counting what is under way -----

  function Demands(q: seq<Demand>, k: Kind, n: Name): nat
    decreases |q|
  {
    if q == [] then 0 else (if q[0].name == n && KindOfData(q[0].data) == k then 1 else 0) + Demands(q[1..], k, n)
  }

  function Queued(q: seq<Event>, k: Kind, n: Name): nat
    decreases |q|
  {
    if q == [] then 0 else (if Answers(q[0], k, n) then 1 else 0) + Queued(q[1..], k, n)
  }

  function OpenAt(c: Conn, k: Kind): nat {
    if c.request.Some? && KindOfData(c.request.value) == k then 1 else 0
  }

  lemma {:induction false} DemandsConcat(a: seq<Demand>, b: seq<Demand>, k: Kind, n: Name)
    ensures Demands(a + b, k, n) == Demands(a, k, n) + Demands(b, k, n)
    decreases |a|
  {
    if a == [] {
      assert a + b == b;
    } else {
      DemandsConcat(a[1..], b, k, n);
      assert (a + b)[1..] == a[1..] + b;
    }
  }

  lemma {:induction false} QueuedConcat(a: seq<Event>, b: seq<Event>, k: Kind, n: Name)
    ensures Queued(a + b, k, n) == Queued(a, k, n) + Queued(b, k, n)
    decreases |a|
  {
    if a == [] {
      assert a + b == b;
    } else {
      QueuedConcat(a[1..], b, k, n);
      assert (a + b)[1..] == a[1..] + b;
    }
  }

  lemma {:induction false} DemandsForCount(s: set<Name>, d: RequestData, k: Kind, n: Name)
    ensures Demands(DemandsFor(s, d), k, n) == if n in s && KindOfData(d) == k then 1 else 0
    ensures forall x <- DemandsFor(s, d) :: x.data == d
  {
    if s != {} {
      DemandsForCount(s - {Least(s)}, d, k, n);
      assert DemandsFor(s, d)[1..] == DemandsFor(s - {Least(s)}, d);
    }
  }

  lemma DemandsOfCount(m: Message, k: Kind, n: Name)
    ensures Demands(DemandsOf(m), k, n) == if Asks(m, k, n) then 1 else 0
    ensures (m.RequestActionOrder? ==> 0 <= m.selections <= |m.offered|) ==> forall x <- DemandsOf(m) :: Answerable(x.data)
  {
    match m
    case RequestRpsForAction(names) => DemandsForCount((set x | x in names), ThrowData((set x | x in names), 0), k, n);
    case RequestRpsForActionOrder(strivers, order) => DemandsForCount(strivers, ThrowData(strivers, order), k, n);
    case RequestActionOrder(p, offered, maximum, selections) => OneDemand(Demand(p, PicksData(offered, maximum, selections)), k, n);
    case RequestAction(p, order) => OneDemand(Demand(p, ActionData(order)), k, n);
    case RequestUpgrade(p, points) => OneDemand(Demand(p, UpgradeData(points)), k, n);
    case _ =>
  }

  lemma OneDemand(d: Demand, k: Kind, n: Name)
    ensures Demands([d], k, n) == if d.name == n && KindOfData(d.data) == k then 1 else 0
  {
    assert [d][1..] == [];
  }

  lemma {:induction false} ExpandCount(sent: seq<Message>, k: Kind, n: Name)
    requires forall m <- sent :: m.RequestActionOrder? ==> 0 <= m.selections <= |m.offered|
    ensures Demands(Expand(sent), k, n) == Requests(sent, k, n)
    ensures forall x <- Expand(sent) :: Answerable(x.data)
    decreases |sent|
  {
    hide Answerable, DemandsOf;
    if sent != [] {
      DemandsOfCount(sent[0], k, n);
      ExpandCount(sent[1..], k, n);
      DemandsConcat(DemandsOf(sent[0]), Expand(sent[1..]), k, n);
    }
  }

  // ----- steps -----

  ghost predicate Ready(y: System, a: Act) {
    match a
    case Command(e) => !IsReply(e)
    case LogicRuns => y.toLogic != []
    case Deliver => y.toAsk != []
    case AtConnection(n, h) => !h.event.Ask? && Sane(ConnOf(y, n)) && Possible(ConnOf(y, n), h.event)
  }

  ghost function Do(y: System, a: Act): System
    requires Ready(y, a)
  {
    match a
    case Command(e) => y.(toLogic := y.toLogic + [e])
    case LogicRuns =>
      y.(world := Next(y.world, y.toLogic[0]), toLogic := y.toLogic[1..],
         toAsk := y.toAsk + Expand(Step(y.world.state, y.toLogic[0]).sent))
    case Deliver =>
      y.(conns := y.conns[y.toAsk[0].name := AddRequest(ConnOf(y, y.toAsk[0].name), y.toAsk[0].data)], toAsk := y.toAsk[1..])
    case AtConnection(n, h) =>
      var t := Take(ConnOf(y, n), h.event, h.coin, h.atOnce);
      y.(conns := y.conns[n := t], toLogic := y.toLogic + Given(n, ConnOf(y, n), t))
  }

  ghost predicate CanRun(y: System, acts: seq<Act>)
    decreases |acts|
  {
    acts == [] || (Ready(y, acts[0]) && CanRun(Do(y, acts[0]), acts[1..]))
  }

  ghost function DoAll(y: System, acts: seq<Act>): System
    requires CanRun(y, acts)
    decreases |acts|
  {
    if acts == [] then y else DoAll(Do(y, acts[0]), acts[1..])
  }

  function Begin(c: Config): System {
    System(Start(c), map[], [], [])
  }

  // ----- the discipline -----

  // Every open request of the engine is in exactly one place: on its way to the player's
  // connection, open there, or answered and on its way back.
  ghost predicate Placed(y: System) {
    forall k, n :: Open(y.world, k, n) == Demands(y.toAsk, k, n) + OpenAt(ConnOf(y, n), k) + Queued(y.toLogic, k, n)
  }

  ghost predicate Disciplined(y: System) {
    && Healthy(y.world)
    && (forall n :: OneEach(ConnOf(y, n)) && NotOrphaned(ConnOf(y, n)))
    && (forall x <- y.toAsk :: Answerable(x.data))
    && Placed(y)
  }

  // The reply at the head of the queue comes from a player with an open request of that kind.
  lemma HeadIsLegal(y: System)
    requires Disciplined(y) && y.toLogic != []
    ensures Legal(y.world, y.toLogic[0])
  {
    hide Healthy, OneEach, NotOrphaned, Open;
    var e := y.toLogic[0];
    if IsReply(e) {
      assert Queued(y.toLogic, ReplyKind(e), e.name) >= 1;
    }
  }

  // The connection a request is for has none open.
  lemma HeadFindsNoneOpen(y: System)
    requires Disciplined(y) && y.toAsk != []
    ensures Possible(ConnOf(y, y.toAsk[0].name), Ask(y.toAsk[0].data))
  {
    hide Inv, OnlyAsked, Open, OneEach, NotOrphaned, Waiting;
    var n, k := y.toAsk[0].name, KindOfData(y.toAsk[0].data);
    assert Demands(y.toAsk, k, n) >= 1;
    assert Open(y.world, k, n) == Awaited(y.world.state, k, n);
    var c := ConnOf(y, n);
    forall j ensures OpenAt(c, j) == 0 {
      assert Open(y.world, j, n) == Awaited(y.world.state, j, n);
    }
    OpensItsKind(c);
  }

  lemma OpensItsKind(c: Conn)
    ensures c.request.Some? ==> OpenAt(c, KindOfData(c.request.value)) == 1
  {
  }

  lemma StepAnswerable(s: State, kills: multiset<Name>, e: Event)
    requires Inv(s, kills)
    ensures forall m <- Step(s, e).sent :: m.RequestActionOrder? ==> 0 <= m.selections <= |m.offered|
  {
    hide Inv, Step, Accepted;
    forall m | m in Step(s, e).sent && m.RequestActionOrder? ensures 0 <= m.selections <= |m.offered| {
      DefaultPicksAccepted(s, kills, e, m);
    }
  }

  lemma EngineDisciplined(y: System)
    requires Disciplined(y) && y.toLogic != []
    ensures Disciplined(Do(y, LogicRuns))
  {
    hide Inv, OnlyAsked, OneEach, NotOrphaned, Open, Waiting, Step, Expand, Answerable, Awaited, NextKills, Requests;
    var e, sent := y.toLogic[0], Step(y.world.state, y.toLogic[0]).sent;
    HeadIsLegal(y);
    HealthyNext(y.world, e);
    StepAnswerable(y.world.state, y.world.kills, e);
    var z := Do(y, LogicRuns);
    ExpandAll(sent);
    forall n ensures ConnOf(z, n) == ConnOf(y, n) {}
    forall k, n ensures Open(z.world, k, n) == Demands(z.toAsk, k, n) + OpenAt(ConnOf(z, n), k) + Queued(z.toLogic, k, n) {
      OpenNext(y.world, e, k, n);
      ExpandCount(sent, k, n);
      DemandsConcat(y.toAsk, Expand(sent), k, n);
    }
  }

  lemma ExpandAll(sent: seq<Message>)
    requires forall m <- sent :: m.RequestActionOrder? ==> 0 <= m.selections <= |m.offered|
    ensures forall x <- Expand(sent) :: Answerable(x.data)
  {
    ExpandCount(sent, AskThrow, 0);
  }

  lemma DeliverDisciplined(y: System)
    requires Disciplined(y) && y.toAsk != []
    ensures Disciplined(Do(y, Deliver))
  {
    hide Healthy, OneEach, NotOrphaned, Open, AddRequest, Answerable, OpenAt;
    HeadFindsNoneOpen(y);
    var n, d, z := y.toAsk[0].name, y.toAsk[0].data, Do(y, Deliver);
    AskTaken(ConnOf(y, n), d);
    AskOpens(ConnOf(y, n), d);
    forall m ensures ConnOf(z, m) == if m == n then AddRequest(ConnOf(y, n), d) else ConnOf(y, m) {}
    forall k, m ensures Open(z.world, k, m) == Demands(z.toAsk, k, m) + OpenAt(ConnOf(z, m), k) + Queued(z.toLogic, k, m) {
      assert Demands(y.toAsk, k, m) == (if m == n && KindOfData(d) == k then 1 else 0) + Demands(z.toAsk, k, m);
    }
  }

  lemma AskTaken(c: Conn, d: RequestData)
    requires OneEach(c) && NotOrphaned(c) && Possible(c, Ask(d))
    ensures OneEach(AddRequest(c, d)) && NotOrphaned(AddRequest(c, d))
  {
    hide OneEach, NotOrphaned, AddRequest;
    TakeOneEach(c, Ask(d), Rock, false);
    TakeNotOrphaned(c, Ask(d), Rock, false);
  }

  lemma AskOpens(c: Conn, d: RequestData)
    requires c.request.None?
    ensures forall k :: OpenAt(AddRequest(c, d), k) == (if KindOfData(d) == k then 1 else 0) && OpenAt(c, k) == 0
  {
  }

  // Whatever happens at a connection, the request it closes is the answer it gives.
  lemma GivenAnswers(n: Name, c: Conn, t: Conn, k: Kind, m: Name)
    requires ClosesAtMost(c, t)
    ensures (if m == n then OpenAt(c, k) else 0) == (if m == n then OpenAt(t, k) else 0) + Queued(Given(n, c, t), k, m)
  {
    if Given(n, c, t) != [] { assert Given(n, c, t)[1..] == []; }
  }

  lemma ConnectionDisciplined(y: System, n: Name, h: Happening)
    requires Disciplined(y) && Ready(y, AtConnection(n, h))
    ensures Disciplined(Do(y, AtConnection(n, h)))
  {
    hide Healthy, OneEach, NotOrphaned, Open, Take, Answerable, Possible, ClosesAtMost, Given, OpenAt, Sane;
    var c := ConnOf(y, n);
    var t, z := Take(c, h.event, h.coin, h.atOnce), Do(y, AtConnection(n, h));
    assert OneEach(c) && NotOrphaned(c);
    TakeOneEach(c, h.event, h.coin, h.atOnce);
    TakeNotOrphaned(c, h.event, h.coin, h.atOnce);
    TakeCloses(c, h.event, h.coin, h.atOnce);
    forall m ensures ConnOf(z, m) == if m == n then t else ConnOf(y, m) {}
    forall k, m ensures Open(z.world, k, m) == Demands(z.toAsk, k, m) + OpenAt(ConnOf(z, m), k) + Queued(z.toLogic, k, m) {
      GivenAnswers(n, c, t, k, m);
      QueuedConcat(y.toLogic, Given(n, c, t), k, m);
    }
  }

  lemma CommandDisciplined(y: System, e: Event)
    requires Disciplined(y) && !IsReply(e)
    ensures Disciplined(Do(y, Command(e)))
  {
    hide Healthy, OneEach, NotOrphaned, Open, Answerable;
    var z := Do(y, Command(e));
    forall m ensures ConnOf(z, m) == ConnOf(y, m) {}
    forall k, m ensures Open(z.world, k, m) == Demands(z.toAsk, k, m) + OpenAt(ConnOf(z, m), k) + Queued(z.toLogic, k, m) {
      QueuedConcat(y.toLogic, [e], k, m);
      assert [e][1..] == [];
    }
  }

  lemma DoDisciplined(y: System, a: Act)
    requires Disciplined(y) && Ready(y, a)
    ensures Disciplined(Do(y, a))
  {
    hide Disciplined, Do;
    match a
    case Command(e) => CommandDisciplined(y, e);
    case LogicRuns => EngineDisciplined(y);
    case Deliver => DeliverDisciplined(y);
    case AtConnection(n, h) => ConnectionDisciplined(y, n, h);
  }

  // ----- whole runs of the system -----

  // The engine has seen a legal run, namely the slot calls it has taken.
  ghost predicate Traced(c: Config, w: World) {
    LegalRun(Start(c), w.taken) && Run(Start(c), w.taken) == w
  }

  lemma {:induction false} RunMore(w: World, es: seq<Event>, e: Event)
    requires LegalRun(w, es) && Legal(Run(w, es), e)
    ensures LegalRun(w, es + [e]) && Run(w, es + [e]) == Next(Run(w, es), e)
    decreases |es|
  {
    hide Next, Legal;
    if es == [] {
      assert es + [e] == [e] && [e][1..] == [];
    } else {
      RunMore(Next(w, es[0]), es[1..], e);
      assert (es + [e])[1..] == es[1..] + [e];
    }
  }

  lemma DoTraced(c: Config, y: System, a: Act)
    requires Disciplined(y) && Ready(y, a) && Traced(c, y.world)
    ensures Traced(c, Do(y, a).world)
  {
    hide Disciplined, LegalRun, Run, Step, Legal, NextKills;
    if a.LogicRuns? {
      HeadIsLegal(y);
      RunMore(Start(c), y.world.taken, y.toLogic[0]);
    }
  }

  lemma {:induction false} DoAllDisciplined(c: Config, y: System, acts: seq<Act>)
    requires Disciplined(y) && Traced(c, y.world) && CanRun(y, acts)
    ensures Disciplined(DoAll(y, acts)) && Traced(c, DoAll(y, acts).world)
    decreases |acts|
  {
    hide Disciplined, Traced, Do, Ready;
    if acts != [] {
      DoTraced(c, y, acts[0]);
      DoDisciplined(y, acts[0]);
      DoAllDisciplined(c, Do(y, acts[0]), acts[1..]);
    }
  }

  lemma BeginDisciplined(c: Config)
    requires c.Playable()
    ensures Disciplined(Begin(c)) && Traced(c, Begin(c).world)
  {
    HealthyStart(c);
    hide Healthy;
  }

  // However the players' connections behave, the engine only ever sees legal runs, and a
  // connection is only ever asked while it has no request open.
  lemma OnlyAskedPlayersReply(c: Config, acts: seq<Act>)
    requires c.Playable() && CanRun(Begin(c), acts)
    ensures var y := DoAll(Begin(c), acts);
            && LegalRun(Start(c), y.world.taken) && Run(Start(c), y.world.taken) == y.world
            && (y.toLogic != [] ==> Legal(y.world, y.toLogic[0]))
            && (y.toAsk != [] ==> Possible(ConnOf(y, y.toAsk[0].name), Ask(y.toAsk[0].data)))
  {
    hide Disciplined, DoAll, CanRun, Legal, LegalRun, Run, Possible;
    BeginDisciplined(c);
    DoAllDisciplined(c, Begin(c), acts);
    var y := DoAll(Begin(c), acts);
    if y.toLogic != [] { HeadIsLegal(y); }
    if y.toAsk != [] { HeadFindsNoneOpen(y); }
  }

  // No deadlock of the whole: while a round is on there is a message under way, or a connection
  // has a request open that its peer can still answer or a default reply is about to.
  lemma SystemNeverStuck(c: Config, acts: seq<Act>)
    requires c.Playable() && c.Capacity() > 0 && CanRun(Begin(c), acts)
    ensures var y := DoAll(Begin(c), acts);
            y.world.state.phase != BeforeRoundStart ==>
              || y.toAsk != [] || y.toLogic != []
              || exists n :: var k := ConnOf(y, n); k.request.Some? && ((k.bound && k.onWire) || k.deferred > 0)
  {
    hide DoAll, CanRun, Legal, LegalRun, Run, Possible, Healthy, OneEach, Open;
    BeginDisciplined(c);
    DoAllDisciplined(c, Begin(c), acts);
    var y := DoAll(Begin(c), acts);
    NoDeadlock(c, y.world.taken);
    if y.world.state.phase != BeforeRoundStart {
      var k := KindOf(y.world.state.phase);
      var n :| Open(y.world, k, n) == 1;
      assert 1 == Demands(y.toAsk, k, n) + OpenAt(ConnOf(y, n), k) + Queued(y.toLogic, k, n);
      assert OneEach(ConnOf(y, n)) && NotOrphaned(ConnOf(y, n));
    }
  }
}
