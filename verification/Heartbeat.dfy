/**
  The client's side of the heartbeat: what its fields mean in terms of everything that happened,
  and that a server is only declared silent over a ping it left unanswered. Timers may fire
  arbitrarily late and pongs may arrive in any order.
 */
module Heartbeat {
  import opened Basics

  // Milliseconds, of the client's own clock.
  const INTERVAL: nat := 30000

  datatype Moment =
    | Connected(at: nat)
    | PingSent(at: nat)
    | PongReceived(stamp: int, at: nat)
    | DeadlineExtended(at: nat)
    | Gone(at: nat)

  type History = seq<Moment>

  // ----- what the fields stand for -----

  // The stamp of the first ping of the present deadline window, or -1.
  function Window(h: History): int
    decreases |h|
  {
    if h == [] then -1
    else
      var before := h[..|h| - 1];
      match h[|h| - 1]
      case PingSent(t) => if Window(before) < 0 then t as int else Window(before)
      case Gone(_) => Window(before)
      case _ => -1
  }

  lemma Later(h: History, m: Moment)
    ensures Window(h + [m]) == (match m case PingSent(t) => if Window(h) < 0 then t as int else Window(h) case Gone(_) => Window(h) case _ => -1)
    ensures Read(h + [m]) == (match m
                              case PongReceived(stamp, t) => if Read(h).newest < 0 || stamp >= Read(h).newest then Reading(stamp, t - stamp) else Read(h)
                              case Gone(_) => Reading(-1, -1)
                              case _ => Read(h))
  {
    assert (h + [m])[..|h|] == h;
  }

  datatype Reading = Reading(newest: int, roundTrip: int)

  function Read(h: History): Reading
    decreases |h|
  {
    if h == [] then Reading(-1, -1)
    else
      var before := Read(h[..|h| - 1]);
      match h[|h| - 1]
      case PongReceived(stamp, t) => if before.newest < 0 || stamp >= before.newest then Reading(stamp, t - stamp) else before
      case Gone(_) => Reading(-1, -1)
      case _ => before
  }

  predicate Judged(h: History, now: nat) {
    Window(h) >= 0 && now - Window(h) >= INTERVAL
  }

  // ----- what that comes to -----

  // Neither an answer nor a new connection has come since moment i.
  predicate Unanswered(h: History, i: nat) {
    forall j | i < j < |h| :: !h[j].PongReceived? && !h[j].Connected?
  }

  lemma {:induction false} WindowIsUnanswered(h: History)
    ensures Window(h) >= 0 ==> exists i :: 0 <= i < |h| && h[i] == PingSent(Window(h)) && Unanswered(h, i)
    decreases |h|
  {
    if h != [] && Window(h) >= 0 {
      var last := |h| - 1;
      var before := h[..last];
      WindowIsUnanswered(before);
      if h[last].PingSent? && Window(before) < 0 {
        assert h[last] == PingSent(Window(h)) && Unanswered(h, last);
      } else {
        var i :| 0 <= i < |before| && before[i] == PingSent(Window(before)) && Unanswered(before, i);
        assert h[i] == PingSent(Window(h));
        assert Unanswered(h, i) by {
          forall j | i < j < |h| ensures !h[j].PongReceived? && !h[j].Connected? {
            if j < last { assert h[j] == before[j]; }
          }
        }
      }
    }
  }

  // The server is given up only over a ping that has stood unanswered, on this connection, for at
  // least a heartbeat interval - however late the timers are.
  lemma SilenceIsReal(h: History, now: nat)
    requires Judged(h, now)
    ensures exists i :: 0 <= i < |h| && h[i].PingSent? && now - h[i].at >= INTERVAL && Unanswered(h, i)
  {
    WindowIsUnanswered(h);
    var i :| 0 <= i < |h| && h[i] == PingSent(Window(h)) && Unanswered(h, i);
    assert h[i].PingSent? && now - h[i].at >= INTERVAL;
  }

  // A server that answers every ping within the interval is never given up.
  lemma AnsweringServerIsKept(h: History, now: nat)
    requires forall i | 0 <= i < |h| && h[i].PingSent? && now - h[i].at >= INTERVAL :: !Unanswered(h, i)
    ensures !Judged(h, now)
  {
    if Window(h) >= 0 { WindowIsUnanswered(h); }
  }

  // What starts the deadline over.
  predicate StartsOver(m: Moment) {
    m.Connected? || m.PongReceived? || m.DeadlineExtended?
  }

  // Ping i has been waiting since, and was the first to wait.
  predicate Waits(h: History, i: int) {
    0 <= i < |h| && h[i].PingSent? && forall j | i < j < |h| :: !StartsOver(h[j])
  }

  ghost predicate WaitsFirst(h: History, i: int) {
    Waits(h, i) && forall j :: !Waits(h[..i], j)
  }

  lemma WaitsBefore(h: History, i: int)
    requires h != []
    ensures var last := |h| - 1;
            Waits(h, i) <==> (i == last && h[last].PingSent?) || (Waits(h[..last], i) && !StartsOver(h[last]))
  {
    var last := |h| - 1;
    if Waits(h[..last], i) && !StartsOver(h[last]) {
      forall j | i < j < |h| ensures !StartsOver(h[j]) { if j < last { assert h[j] == h[..last][j]; } }
    }
    if Waits(h, i) && i < last {
      forall j | i < j < last ensures !StartsOver(h[..last][j]) { assert h[..last][j] == h[j]; }
    }
  }

  lemma {:induction false} WindowWaits(h: History)
    ensures Window(h) < 0 <==> forall i :: !Waits(h, i)
    ensures forall i :: WaitsFirst(h, i) ==> h[i].at == Window(h)
    ensures Window(h) >= 0 ==> exists i :: WaitsFirst(h, i)
    decreases |h|
  {
    if h != [] {
      var last := |h| - 1;
      var before := h[..last];
      WindowWaits(before);
      forall i ensures Waits(h, i) <==> (i == last && h[last].PingSent?) || (Waits(before, i) && !StartsOver(h[last])) {
        WaitsBefore(h, i);
      }
      forall i | 0 <= i < last ensures before[..i] == h[..i] {}
      forall i ensures WaitsFirst(h, i) <==> (i == last && h[last].PingSent? && Window(before) < 0) || (WaitsFirst(before, i) && !StartsOver(h[last])) {
        if Waits(h, i) && i < last { assert before[..i] == h[..i]; }
      }
      if Window(before) >= 0 { var i :| WaitsFirst(before, i); assert !StartsOver(h[last]) ==> WaitsFirst(h, i); }
      if Window(before) < 0 && h[last].PingSent? { assert WaitsFirst(h, last); }
    }
  }

  // The verdict, exactly: the first ping of those still waiting has waited for an interval.
  lemma JudgedExactly(h: History, now: nat)
    ensures Judged(h, now) <==> exists i :: WaitsFirst(h, i) && now - h[i].at >= INTERVAL
  {
    WindowWaits(h);
    if Judged(h, now) {
      var i :| WaitsFirst(h, i);
      assert h[i].at == Window(h);
    }
  }

  // Pong j belongs to the connection that is up at the end of the history.
  predicate Current(h: History, j: int) {
    0 <= j < |h| && h[j].PongReceived? && forall k | j < k < |h| :: !h[k].Gone?
  }

  // Pong j is the reading's: no current pong answers a later ping, and among those that answer the
  // same ping it came last.
  ghost predicate Freshest(h: History, j: int) {
    && Current(h, j)
    && (forall k | Current(h, k) :: h[k].stamp <= h[j].stamp)
    && (forall k | Current(h, k) && k > j :: h[k].stamp < h[j].stamp)
  }

  lemma CurrentBefore(h: History, j: int)
    requires h != []
    ensures var last := |h| - 1;
            Current(h, j) <==> (j == last && h[last].PongReceived?) || (Current(h[..last], j) && !h[last].Gone?)
  {
    var last := |h| - 1;
    if Current(h[..last], j) && !h[last].Gone? {
      forall k | j < k < |h| ensures !h[k].Gone? { if k < last { assert h[k] == h[..last][k]; } }
    }
    if Current(h, j) && j < last {
      forall k | j < k < last ensures !h[..last][k].Gone? { assert h[k] == h[..last][k]; }
    }
  }

  // Pong j came last on this connection.
  ghost predicate Latest(h: History, j: int) {
    Current(h, j) && forall k | Current(h, k) :: k <= j
  }

  function ReadingOf(h: History, j: int): Reading
    requires 0 <= j < |h| && h[j].PongReceived?
  {
    Reading(h[j].stamp, h[j].at - h[j].stamp)
  }

  // The stored round trip is that of the newest ping answered on this connection, whatever order
  // the pongs came in, and there is none while nothing has been answered. Only if every stamp is
  // negative - the client's own never are - is it that of the last answer.
  lemma {:induction false} ReadingIsFreshest(h: History)
    ensures Read(h).newest >= 0 ==> exists j :: Freshest(h, j) && Read(h) == ReadingOf(h, j)
    ensures Read(h).newest < 0 ==>
              && (forall j | Current(h, j) :: h[j].stamp < 0)
              && ((Read(h) == Reading(-1, -1) && forall j :: !Current(h, j)) || exists j :: Latest(h, j) && Read(h) == ReadingOf(h, j))
    decreases |h|
  {
    if h != [] {
      var last := |h| - 1;
      var before := h[..last];
      ReadingIsFreshest(before);
      forall j ensures Current(h, j) <==> (j == last && h[last].PongReceived?) || (Current(before, j) && !h[last].Gone?) {
        CurrentBefore(h, j);
      }
      if h[last].PongReceived? && (Read(before).newest < 0 || h[last].stamp >= Read(before).newest) {
        assert Latest(h, last);
        assert h[last].stamp >= 0 ==> Freshest(h, last);
      } else if !h[last].Gone? && Read(before).newest >= 0 {
        var j :| Freshest(before, j) && Read(before) == ReadingOf(before, j);
        assert Freshest(h, j);
      } else if j :| !h[last].Gone? && Latest(before, j) && Read(before) == ReadingOf(before, j) {
        assert Latest(h, j);
      }
    }
  }

  // ----- the client's fields and handlers -----

  class ClientHeartbeat {
    var hasSocket: bool
    var connected: bool
    var roundTripTime: int
    var newestAnsweredPing: int
    var firstPingInDeadlineWindow: int
    ghost var history: History

    ghost predicate Valid()
      reads this
    {
      && firstPingInDeadlineWindow == Window(history)
      && Reading(newestAnsweredPing, roundTripTime) == Read(history)
      && connected == hasSocket
    }

    constructor ()
      ensures Valid() && history == [] && !hasSocket
    {
      hasSocket := false;
      connected := false;
      roundTripTime := -1;
      newestAnsweredPing := -1;
      firstPingInDeadlineWindow := -1;
      history := [];
    }

    method ArmPongDeadline()
      modifies `firstPingInDeadlineWindow
      ensures firstPingInDeadlineWindow == -1
    {
      firstPingInDeadlineWindow := -1;
    }

    method ConnectSocket(now: nat, known: bool)
      requires Valid() && !hasSocket
      modifies this
      ensures Valid() && hasSocket == known
      ensures history == if known then old(history) + [Connected(now)] else old(history)
    {
      hide Window, Read;
      hasSocket := known;
      connected := known;
      if known {
        Later(history, Connected(now));
        history := history + [Connected(now)];
        ArmPongDeadline();
      }
    }

    method HeartbeatTimeout(now: nat) returns (ping: Option<nat>)
      requires Valid()
      modifies this
      ensures Valid() && hasSocket == old(hasSocket)
      ensures ping == if hasSocket then Some(now) else None
      ensures history == if hasSocket then old(history) + [PingSent(now)] else old(history)
    {
      hide Window, Read;
      if !hasSocket { return None; }
      if firstPingInDeadlineWindow < 0 {
        firstPingInDeadlineWindow := now;
      }
      Later(history, PingSent(now));
      history := history + [PingSent(now)];
      ping := Some(now);
    }

    method NotifyPongServer(pongTime: int, now: nat)
      requires Valid() && hasSocket
      modifies this
      ensures Valid() && hasSocket
      ensures history == old(history) + [PongReceived(pongTime, now)]
    {
      hide Window, Read;
      var elapsed := now - pongTime;
      if newestAnsweredPing < 0 || pongTime >= newestAnsweredPing {
        roundTripTime := elapsed;
        newestAnsweredPing := pongTime;
      }
      Later(history, PongReceived(pongTime, now));
      history := history + [PongReceived(pongTime, now)];
      ArmPongDeadline();
    }

    method HandleSocketGone(now: nat)
      requires Valid()
      modifies this
      ensures Valid() && !hasSocket
      ensures history == if old(hasSocket) then old(history) + [Gone(now)] else old(history)
    {
      hide Window, Read;
      if !hasSocket { return; }
      connected := false;
      roundTripTime := -1;
      newestAnsweredPing := -1;
      hasSocket := false;
      Later(history, Gone(now));
      history := history + [Gone(now)];
    }

    // The verdict: the connection is given up iff the history says so, and otherwise the server
    // gets another window.
    method PongDeadlinePassed(now: nat)
      requires Valid() && hasSocket
      modifies this
      ensures Valid()
      ensures hasSocket <==> !Judged(old(history), now)
      ensures history == old(history) + [if Judged(old(history), now) then Gone(now) else DeadlineExtended(now)]
    {
      hide Window, Read;
      if firstPingInDeadlineWindow >= 0 && now - firstPingInDeadlineWindow >= INTERVAL {
        HandleSocketGone(now);
        return;
      }
      Later(history, DeadlineExtended(now));
      history := history + [DeadlineExtended(now)];
      ArmPongDeadline();
    }
  }
}
