/**
  Catching up after a drop. The server keeps the round's events in a log per connection; a client
  counts the round events it has received and reports the count when it signs in again, and the
  server sends the rest of the log. The link is first-in first-out and loses what is under way
  when it drops.
 */
module CatchUp {
  import opened Basics
  import opened Rules
  import opened Rps

  // What is logged, in the form it is broadcast.
  datatype RoundEvent =
    | ThrowsSeen(throws: Throws)
    | OrdersSeen(owners: seq<Name>)
    | ActionSeen(name: Name, action: Action, toPlayer: Name, toPlace: int)
    | UpgradesSeen(lists: map<Name, seq<UpgradeItem>>)

  datatype Item = Happened(event: RoundEvent) | Begun(number: nat)

  datatype Link = Link(
    round: nat,                   // rounds begun so far
    history: seq<RoundEvent>,     // everything broadcast in this round (not kept by the program)
    cleared: nat,                 // how much of it has been dropped from the log
    log: seq<RoundEvent>,         // roundEventLog
    connected: bool,
    flight: seq<Item>,            // sent and not yet received
    clientRound: nat,             // the round the client believes in
    received: seq<RoundEvent>,    // what the client has applied in that round
    counter: nat)                 // lastRoundEventSeq

  datatype Act =
    | Broadcast(event: RoundEvent)
    | ClearLog                    // the round is over
    | BeginRound                  // a round start is announced and the log dropped; never while somebody is away
    | Arrive
    | Drop
    | Reconnect

  function Events(items: seq<Item>): seq<RoundEvent>
    decreases |items|
  {
    if items == [] then []
    else (if items[0].Happened? then [items[0].event] else []) + Events(items[1..])
  }

  function Wrap(events: seq<RoundEvent>): seq<Item>
    decreases |events|
  {
    if events == [] then [] else [Happened(events[0])] + Wrap(events[1..])
  }

  // What replayMissedRoundEvents sends.
  function Missed(log: seq<RoundEvent>, seen: nat): seq<RoundEvent> {
    if seen <= |log| then log[seen..] else []
  }

  function Send(l: Link, item: Item): Link {
    if l.connected then l.(flight := l.flight + [item]) else l
  }

  predicate Possible(l: Link, a: Act) {
    match a
    case Arrive => l.connected && l.flight != []
    case Drop => l.connected
    case Reconnect => !l.connected
    case BeginRound => l.connected
    case _ => true
  }

  function Do(l: Link, a: Act): Link
    requires Possible(l, a)
  {
    match a
    case Broadcast(x) => Send(l.(log := l.log + [x], history := l.history + [x]), Happened(x))
    case ClearLog => l.(log := [], cleared := |l.history|)
    case BeginRound => Send(l, Begun(l.round + 1)).(log := [], history := [], cleared := 0, round := l.round + 1)
    case Arrive =>
      (match l.flight[0]
       case Happened(x) => l.(flight := l.flight[1..], received := l.received + [x], counter := l.counter + 1)
       case Begun(r) => l.(flight := l.flight[1..], received := [], counter := 0, clientRound := r))
    case Drop => l.(connected := false, flight := [])
    case Reconnect => l.(connected := true, flight := Wrap(Missed(l.log, l.counter)))
  }

  // ----- the invariant -----

  // Round starts under way are for rounds after `low`, in order, up to `top`.
  predicate Rising(low: nat, items: seq<Item>, top: nat)
    decreases |items|
  {
    if items == [] then low <= top
    else if items[0].Begun? then low < items[0].number && Rising(items[0].number, items[1..], top)
    else Rising(low, items[1..], top)
  }

  // The round the client will be in, and the events it will have applied in it, once everything
  // under way has arrived.
  function FinalRound(r: nat, items: seq<Item>): nat
    decreases |items|
  {
    if items == [] then r else FinalRound(if items[0].Begun? then items[0].number else r, items[1..])
  }

  function FinalEvents(got: seq<RoundEvent>, items: seq<Item>): seq<RoundEvent>
    decreases |items|
  {
    if items == [] then got
    else FinalEvents(if items[0].Happened? then got + [items[0].event] else [], items[1..])
  }

  predicate Booked(l: Link) {
    && l.counter == |l.received|
    && l.cleared <= |l.history|
    && l.log == l.history[l.cleared..]
    && Rising(l.clientRound, l.flight, l.round)
  }

  // Nothing is missing, doubled or out of order.
  predicate InStep(l: Link) {
    && Booked(l)
    && if l.connected then FinalRound(l.clientRound, l.flight) == l.round && FinalEvents(l.received, l.flight) == l.history
       else l.flight == [] && (l.clientRound == l.round ==> l.received <= l.history)
  }

  // ----- folding what is under way -----

  lemma {:induction false} FinalAppend(r: nat, got: seq<RoundEvent>, items: seq<Item>, item: Item)
    ensures FinalRound(r, items + [item]) == if item.Begun? then item.number else FinalRound(r, items)
    ensures FinalEvents(got, items + [item]) == if item.Begun? then [] else FinalEvents(got, items) + [item.event]
    decreases |items|
  {
    if items == [] {
      assert items + [item] == [item] && [item][1..] == [];
    } else {
      assert (items + [item])[1..] == items[1..] + [item];
      FinalAppend(if items[0].Begun? then items[0].number else r,
                  if items[0].Happened? then got + [items[0].event] else [], items[1..], item);
    }
  }

  lemma {:induction false} RisingAppend(low: nat, items: seq<Item>, top: nat, item: Item)
    requires Rising(low, items, top)
    ensures item.Happened? ==> Rising(low, items + [item], top)
    ensures item == Begun(top + 1) ==> Rising(low, items + [item], top + 1)
    decreases |items|
  {
    if items == [] {
      assert items + [item] == [item] && [item][1..] == [];
    } else {
      assert (items + [item])[1..] == items[1..] + [item];
      RisingAppend(if items[0].Begun? then items[0].number else low, items[1..], top, item);
    }
  }

  lemma {:induction false} RisingBounds(low: nat, items: seq<Item>, top: nat)
    requires Rising(low, items, top)
    ensures low <= top && FinalRound(low, items) <= top
    ensures low == top ==> Wrap(Events(items)) == items
    decreases |items|
  {
    if items != [] {
      RisingBounds(if items[0].Begun? then items[0].number else low, items[1..], top);
    }
  }

  lemma {:induction false} WrapFolds(low: nat, got: seq<RoundEvent>, events: seq<RoundEvent>)
    ensures FinalRound(low, Wrap(events)) == low
    ensures FinalEvents(got, Wrap(events)) == got + events
    ensures Rising(low, Wrap(events), low)
    decreases |events|
  {
    if events == [] {
      assert got + events == got;
    } else {
      WrapFolds(low, got + [events[0]], events[1..]);
      assert got + [events[0]] + events[1..] == got + events;
    }
  }

  lemma {:induction false} RisingLonger(low: nat, items: seq<Item>, top: nat, more: nat)
    requires Rising(low, items, top) && top <= more
    ensures Rising(low, items, more)
    decreases |items|
  {
    if items != [] {
      RisingLonger(if items[0].Begun? then items[0].number else low, items[1..], top, more);
    }
  }

  // ----- steps -----

  lemma BookedKept(l: Link, a: Act)
    requires Booked(l) && Possible(l, a)
    ensures Booked(Do(l, a))
  {
    match a
    case Broadcast(x) =>
      RisingAppend(l.clientRound, l.flight, l.round, Happened(x));
      assert (l.history + [x])[l.cleared..] == l.history[l.cleared..] + [x];
    case BeginRound =>
      RisingAppend(l.clientRound, l.flight, l.round, Begun(l.round + 1));
      RisingLonger(l.clientRound, l.flight, l.round, l.round + 1);
    case Drop => RisingBounds(l.clientRound, l.flight, l.round);
    case Reconnect =>
      RisingBounds(l.clientRound, l.flight, l.round);
      WrapFolds(l.clientRound, l.received, Missed(l.log, l.counter));
      RisingLonger(l.clientRound, Wrap(Missed(l.log, l.counter)), l.clientRound, l.round);
    case _ =>
  }

  lemma DropKeeps(l: Link)
    requires InStep(l) && l.connected
    ensures InStep(Do(l, Drop))
  {
    BookedKept(l, Drop);
    RisingBounds(l.clientRound, l.flight, l.round);
    if l.clientRound == l.round {
      WrapFolds(l.clientRound, l.received, Events(l.flight));
    }
  }

  // Everything but a reconnection keeps the client in step.
  lemma StaysInStep(l: Link, a: Act)
    requires InStep(l) && Possible(l, a) && !a.Reconnect?
    ensures InStep(Do(l, a))
  {
    hide Rising;
    BookedKept(l, a);
    match a
    case Broadcast(x) => FinalAppend(l.clientRound, l.received, l.flight, Happened(x));
    case BeginRound =>
      FinalAppend(l.clientRound, l.received, l.flight, Begun(l.round + 1));
      RisingBounds(l.clientRound, l.flight, l.round);
    case Drop => DropKeeps(l);
    case _ =>
  }

  // When a client that was in step signs in again it is in step exactly when it is still in the
  // server's round and nothing it lacks has been dropped from the log.
  lemma ReconnectIsPrecise(l: Link)
    requires InStep(l) && !l.connected
    ensures InStep(Do(l, Reconnect)) <==> l.clientRound == l.round && (l.cleared == 0 || l.counter == |l.history|)
  {
    BookedKept(l, Reconnect);
    WrapFolds(l.clientRound, l.received, Missed(l.log, l.counter));
    if l.clientRound == l.round {
      assert l.history == l.received + l.history[l.counter..];
      if l.counter < |l.history| {
        var missed := Missed(l.log, l.counter);
        if l.cleared == 0 {
          assert missed == l.history[l.counter..];
        } else {
          assert |l.received + missed| < |l.history|;
        }
      }
    }
  }

  // Whatever went wrong before, a client connected when a round begins is in step again.
  lemma RoundStartHeals(l: Link)
    requires Booked(l) && Possible(l, BeginRound)
    ensures InStep(Do(l, BeginRound))
  {
    hide Rising;
    BookedKept(l, BeginRound);
    FinalAppend(l.clientRound, l.received, l.flight, Begun(l.round + 1));
  }

  // ----- runs -----

  // Every reconnection finds the client in the server's round, with nothing it lacks dropped from
  // the log.
  ghost predicate Careful(l: Link, acts: seq<Act>)
    decreases |acts|
  {
    acts == [] ||
      (Possible(l, acts[0])
       && (acts[0].Reconnect? ==> l.clientRound == l.round && (l.cleared == 0 || l.counter == |l.history|))
       && Careful(Do(l, acts[0]), acts[1..]))
  }

  ghost function RunLink(l: Link, acts: seq<Act>): Link
    requires Careful(l, acts)
    decreases |acts|
  {
    if acts == [] then l else RunLink(Do(l, acts[0]), acts[1..])
  }

  lemma {:induction false} InStepRun(l: Link, acts: seq<Act>)
    requires InStep(l) && Careful(l, acts)
    ensures InStep(RunLink(l, acts))
    decreases |acts|
  {
    hide InStep, Do;
    if acts != [] {
      if acts[0].Reconnect? { ReconnectIsPrecise(l); } else { StaysInStep(l, acts[0]); }
      InStepRun(Do(l, acts[0]), acts[1..]);
    }
  }

  // Precise catch-up, over any number of drops and reconnections: what the client has applied is a
  // prefix of what the round has broadcast, its counter is the length of that prefix, and while it
  // is connected the prefix and what is under way together are all of it.
  lemma PreciseCatchUp(l: Link, acts: seq<Act>)
    requires InStep(l) && Careful(l, acts)
    ensures var m := RunLink(l, acts);
            && m.counter == |m.received|
            && (m.clientRound == m.round ==> m.received <= m.history)
            && (m.connected && m.clientRound == m.round ==> m.received + Events(m.flight) == m.history)
            && (m.connected ==> FinalRound(m.clientRound, m.flight) == m.round && FinalEvents(m.received, m.flight) == m.history)
  {
    InStepRun(l, acts);
    var m := RunLink(l, acts);
    RisingBounds(m.clientRound, m.flight, m.round);
    if m.clientRound == m.round { WrapFolds(m.clientRound, m.received, Events(m.flight)); }
  }

  // ----- one outage -----

  // What the server broadcasts while the peer is away.
  function Unheard(l: Link, xs: seq<RoundEvent>): Link
    requires !l.connected
  {
    l.(log := l.log + xs, history := l.history + xs)
  }

  lemma UnheardIsBroadcast(l: Link, xs: seq<RoundEvent>, x: RoundEvent)
    requires !l.connected
    ensures Unheard(l, []) == l && Unheard(l, xs + [x]) == Do(Unheard(l, xs), Broadcast(x))
  {
    assert l.log + [] == l.log && l.history + [] == l.history;
    assert l.log + (xs + [x]) == l.log + xs + [x] && l.history + (xs + [x]) == l.history + xs + [x];
  }

  lemma UnheardInStep(l: Link, xs: seq<RoundEvent>)
    requires InStep(l) && !l.connected
    ensures InStep(Unheard(l, xs))
  {
    assert (l.history + xs)[l.cleared..] == l.history[l.cleared..] + xs;
    if l.clientRound == l.round { assert l.received <= l.history + xs; }
  }

  // What a connected client in step has yet to receive, in the round it is in.
  lemma StillToCome(l: Link)
    requires InStep(l) && l.connected && l.clientRound == l.round
    ensures l.counter + |Events(l.flight)| == |l.history| && (l.flight == [] <==> l.counter == |l.history|)
  {
    RisingBounds(l.clientRound, l.flight, l.round);
    WrapFolds(l.clientRound, l.received, Events(l.flight));
  }

  // A client in step drops out, misses xs, and comes back. It is in step again exactly when the
  // round start had reached it and either nothing has been cleared this round or nothing was lost.
  lemma OutageIsPrecise(l: Link, xs: seq<RoundEvent>)
    requires InStep(l) && l.connected
    ensures InStep(Do(Unheard(Do(l, Drop), xs), Reconnect)) <==>
              l.clientRound == l.round && (l.cleared == 0 || (l.flight == [] && xs == []))
  {
    DropKeeps(l);
    UnheardInStep(Do(l, Drop), xs);
    ReconnectIsPrecise(Unheard(Do(l, Drop), xs));
    if l.clientRound == l.round { StillToCome(l); }
  }

  // The same with the round's action phase ending while the client is away: it must have had
  // everything, or there must have been nothing to have.
  lemma OutageAcrossClearing(l: Link, xs: seq<RoundEvent>, ys: seq<RoundEvent>)
    requires InStep(l) && l.connected
    ensures InStep(Do(Unheard(Do(Unheard(Do(l, Drop), xs), ClearLog), ys), Reconnect)) <==>
              l.clientRound == l.round && xs == [] && (l.history == [] || (l.flight == [] && ys == []))
  {
    var d := Unheard(Do(l, Drop), xs);
    DropKeeps(l);
    UnheardInStep(Do(l, Drop), xs);
    StaysInStep(d, ClearLog);
    UnheardInStep(Do(d, ClearLog), ys);
    ReconnectIsPrecise(Unheard(Do(d, ClearLog), ys));
    if l.clientRound == l.round { StillToCome(l); }
  }

  // No clearing between the drop and the reconnection is not enough: an event can still be under
  // way when the log is cleared, and the drop then loses the last copy of it.
  lemma ClearedUnderWay(x: RoundEvent)
    ensures var l0 := Link(1, [], 0, [], true, [], 1, [], 0);
            var l1 := Do(Do(l0, Broadcast(x)), ClearLog);
            InStep(l0) && InStep(l1) && l1.flight == [Happened(x)] && !InStep(Do(Do(l1, Drop), Reconnect))
  {
    var l0 := Link(1, [], 0, [], true, [], 1, [], 0);
    var l1 := Do(Do(l0, Broadcast(x)), ClearLog);
    assert l1.flight == [Happened(x)] && l1.history == [x];
    StaysInStep(l0, Broadcast(x));
    StaysInStep(Do(l0, Broadcast(x)), ClearLog);
    OutageIsPrecise(l1, []);
    UnheardIsBroadcast(Do(l1, Drop), [], x);
  }

  // Sequence numbers carry no round: a client whose round-start notice was lost with its connection
  // is sent the new round's events from the wrong place.
  lemma StaleCounterSkipsEvents(x: RoundEvent, y: RoundEvent)
    ensures var l0 := Link(1, [], 0, [], true, [], 1, [], 0);
            var l1 := Do(Do(l0, Broadcast(x)), Arrive);
            var l2 := Do(Do(Do(l1, BeginRound), Drop), Broadcast(y));
            var l3 := Do(l2, Reconnect);
            InStep(l0) && l2.history == [y] && l3.flight == [] && !InStep(l3)
  {
    var l0 := Link(1, [], 0, [], true, [], 1, [], 0);
    var l1 := Do(l0, Broadcast(x));
    assert l1.flight[1..] == [];
    var l2 := Do(Do(Do(Do(l1, Arrive), BeginRound), Drop), Broadcast(y));
    assert l2.log == [y] && l2.counter == 1;
    assert Missed(l2.log, 1) == [];
  }

  // ----- a round without clearing -----

  predicate Clears(a: Act) {
    a.ClearLog? || a.BeginRound?
  }

  ghost predicate PossibleActs(l: Link, acts: seq<Act>)
    decreases |acts|
  {
    acts == [] || (Possible(l, acts[0]) && PossibleActs(Do(l, acts[0]), acts[1..]))
  }

  lemma UnclearedStep(l: Link, a: Act)
    requires InStep(l) && l.cleared == 0 && l.clientRound == l.round && Possible(l, a) && !Clears(a)
    ensures var t := Do(l, a); InStep(t) && t.cleared == 0 && t.clientRound == t.round
  {
    if a.Reconnect? { ReconnectIsPrecise(l); } else { StaysInStep(l, a); }
    if a.Arrive? { RisingBounds(l.clientRound, l.flight, l.round); }
  }

  // From the arrival of the round start until the log is first cleared, whatever is lost and however
  // often the client drops out and comes back, every reconnection is precise.
  lemma {:induction false} UnclearedIsCareful(l: Link, acts: seq<Act>)
    requires InStep(l) && l.cleared == 0 && l.clientRound == l.round
    requires PossibleActs(l, acts) && forall a <- acts :: !Clears(a)
    ensures Careful(l, acts) && InStep(RunLink(l, acts))
    decreases |acts|
  {
    hide InStep, Do;
    if acts != [] {
      UnclearedStep(l, acts[0]);
      forall a <- acts[1..] ensures !Clears(a) { assert a in acts; }
      UnclearedIsCareful(Do(l, acts[0]), acts[1..]);
    }
  }

  // Until the log is cleared, what a client that is away will be sent is all it has missed.
  lemma UnclearedLogIsEnough(l: Link)
    requires InStep(l) && !l.connected && l.cleared == 0 && l.clientRound == l.round
    ensures InStep(Do(l, Reconnect))
    ensures l.received + Missed(l.log, l.counter) == l.history
  {
    ReconnectIsPrecise(l);
    assert l.history == l.received + l.history[l.counter..];
  }
}
