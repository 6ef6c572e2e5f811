/**
  Throwing for a contested order: who stays in the race for it, told from the throws alone.
 */
module OrderThrows {
  import opened Basics
  import opened Rules
  import opened Rps
  import opened Machine
  import opened Accounting
  import opened Invariants
  import opened Steps
  import opened Runs
  import opened Contests
  import opened ActionPhase

  // ----- what a throw decides -----

  // Exactly two different throws were made.
  predicate Decided(throws: Throws) {
    |set n | n in throws :: throws[n]| == 2
  }

  // Those whose throw beats somebody else's.
  function Best(throws: Throws): set<Name> {
    set n | n in throws && exists m <- throws :: Beats(throws[n], throws[m])
  }

  lemma WinnersAreBest(throws: Throws)
    ensures Winners(throws) == if Decided(throws) then Best(throws) else {}
    ensures Decided(throws) ==> Best(throws) != {} && Best(throws) <= throws.Keys
  {
    assert Decided(throws) <==> |ThrowsUsed(throws)| == 2;
    WinnersCharacterised(throws);
    hide Winners, Losers, ThrowsUsed, Decided, Beats;
  }

  // The throw with which everybody striving for the order has thrown.
  ghost predicate LastThrow(s: State, e: Event) {
    && s.phase == RpsForActionOrder && e.RpsReply? && Enabled(s, e)
    && (s.orderReplies[e.name := e.throw]).Keys == ClaimantsOf(s.desired, s.striving)
  }

  function ThrowsWith(s: State, e: Event): Throws
    requires e.RpsReply?
  {
    s.orderReplies[e.name := e.throw]
  }

  // After a tie all claimants throw again; after a throw that several of them have won those throw
  // again; and after one that a single claimant has won the order is settled, to that claimant. No
  // other order is touched by it.
  ghost predicate Judged(s: State, throws: Throws, o: Outcome) {
    var k, t := s.striving, o.state;
    var left := if Decided(throws) then Best(throws) else ClaimantsOf(s.desired, k);
    if |left| == 1 then
      && t.desired == s.desired - {k}
      && k in t.confirmed && left == {t.confirmed[k]}
      && Keeps(s.confirmed, t)
      && (s.desired.Keys != {k} ==> t.confirmed.Keys == s.confirmed.Keys + {k} && t.phase == RpsForActionOrder)
    else
      && t.desired == s.desired[k := left] && t.confirmed == s.confirmed
      && t.phase == RpsForActionOrder && t.striving == k && t.orderReplies == map[]
      && o.sent == [RpsResult(throws), RequestRpsForActionOrder(left, k)]
  }

  // ----- settling after the throw -----

  // The table v, with `left` still striving for order k, has been settled to o.
  ghost predicate SettledWith(v: State, k: int, left: set<Name>, o: Outcome) {
    if |left| == 1 then
      && o.state.desired == v.desired - {k} && k in o.state.confirmed && left == {o.state.confirmed[k]}
      && Keeps(v.confirmed, o.state)
      && (v.desired.Keys != {k} ==> o.state.confirmed.Keys == v.confirmed.Keys + {k} && o.state.phase == RpsForActionOrder)
    else
      && o.state == v.(striving := k, orderReplies := map[], phase := RpsForActionOrder)
      && o.sent == [RequestRpsForActionOrder(left, k)]
  }

  // The order k with its remaining claimants; all other orders are contested.
  lemma SettleOne(s: State, k: int, left: set<Name>)
    requires k in s.desired && s.desired[k] == left && left != {}
    requires forall o <- s.desired :: o != k ==> |s.desired[o]| >= 2
    ensures |left| == 1 ==> Contested(s.desired) == s.desired - {k} && SettledOrders(s.desired).Keys == {k} && left == {SettledOrders(s.desired)[k]}
    ensures |left| != 1 ==> Contested(s.desired) == s.desired && SettledOrders(s.desired) == map[]
  {
    forall o ensures o in SettledOrders(s.desired) <==> o == k && |left| == 1 {
      if o in s.desired && o != k { assert |s.desired[o]| >= 2; }
    }
    forall o ensures o in Contested(s.desired) <==> o in s.desired && (o != k || |left| != 1) {
      if o in s.desired && o != k { assert |s.desired[o]| >= 2; }
    }
    if |left| == 1 {
      SoleUnique(left);
      assert left == {SettledOrders(s.desired)[k]};
    }
  }

  lemma LowestStays(desired: map<int, set<Name>>, k: int, n: int)
    requires k in desired && (forall o <- desired :: 1 <= o <= n && k <= o)
    ensures LowestFrom(desired, 1, n) == k
  {
    LowestFromIs(desired, 1, n);
  }

  // Settling once nobody else's order can be settled but k.
  lemma SettleAfterThrow(v: State, k: int, left: set<Name>)
    requires Negotiating(v) && v.remaining == map[]
    requires k in v.desired && v.desired[k] == left && left != {}
    requires forall o <- v.desired :: k <= o && (o != k ==> |v.desired[o]| >= 2)
    ensures SettledWith(v, k, left, StartRpsForActionOrder(v))
  {
    SettleOne(v, k, left);
    SettleNegotiates(v);
    SettleHonours(v);
    InRange(v);
    hide *;
    if |left| == 1 {
      OneSettled(v, k, left);
    } else {
      LowestStays(v.desired, k, v.orders);
      NothingSettled(v, k, left);
    }
  }

  lemma NothingSettled(v: State, k: int, left: set<Name>)
    requires Contested(v.desired) == v.desired && SettledOrders(v.desired) == map[] && LowestFrom(v.desired, 1, v.orders) == k
    requires k in v.desired && v.desired[k] == left && |left| != 1
    ensures SettledWith(v, k, left, StartRpsForActionOrder(v))
  {
    assert v.confirmed + map[] == v.confirmed && v.desired != map[];
    hide StartActionOrder, SettledOrders, Contested, LowestFrom;
  }

  lemma InRange(v: State)
    requires Negotiating(v)
    ensures forall o <- v.desired :: 1 <= o <= v.orders && o !in v.confirmed
  {
  }

  lemma OneSettled(v: State, k: int, left: set<Name>)
    requires Contested(v.desired) == v.desired - {k} && SettledOrders(v.desired).Keys == {k} && left == {SettledOrders(v.desired)[k]}
    requires Negotiating(Settle(v)) && Keeps(v.confirmed, Settle(v)) && k in v.desired && |left| == 1
    ensures SettledWith(v, k, left, StartRpsForActionOrder(v))
  {
    var t := Settle(v);
    assert t.desired == v.desired - {k} && t.confirmed.Keys == v.confirmed.Keys + {k} && left == {t.confirmed[k]};
    assert t.desired == map[] ==> v.desired.Keys == {k} by {
      if t.desired == map[] { forall o <- v.desired ensures o == k { assert o != k ==> o in v.desired - {k}; } }
    }
    assert Negotiable(t);
    hide *;
    SettlingGoesOn(v);
    if t.desired == map[] { StartActionOrderKeeps(t); } else { KeepsSame(t, StartRpsForActionOrder(v).state); }
    KeepsOn(v.confirmed, t, StartRpsForActionOrder(v).state);
    OneIsSettled(v, k, left, t, StartRpsForActionOrder(v));
  }

  lemma SettlingGoesOn(v: State)
    ensures var t, o := Settle(v), StartRpsForActionOrder(v);
            if t.desired == map[] then o == StartActionOrder(t)
            else o.state.desired == t.desired && o.state.confirmed == t.confirmed && o.state.phase == RpsForActionOrder
  {
    hide StartActionOrder, SettledOrders, Contested, LowestFrom;
  }

  lemma OneIsSettled(v: State, k: int, left: set<Name>, t: State, o: Outcome)
    requires t.desired == v.desired - {k} && t.confirmed.Keys == v.confirmed.Keys + {k} && left == {t.confirmed[k]} && |left| == 1
    requires Keeps(t.confirmed, o.state) && Keeps(v.confirmed, o.state)
    requires if t.desired == map[] then v.desired.Keys == {k} && o.state.desired in {map[], t.desired}
             else o.state.desired == t.desired && o.state.confirmed == t.confirmed && o.state.phase == RpsForActionOrder
    ensures SettledWith(v, k, left, o)
  {
  }

  // ----- the step -----

  lemma OrderThrowStepIs(s: State, e: Event)
    requires e.RpsReply? && Enabled(s, e) && s.phase == RpsForActionOrder
    ensures Step(s, e) == JudgeRpsForActionOrder(s.(orderReplies := ThrowsWith(s, e)))
  {
    hide JudgeRpsForActionOrder;
  }

  lemma ThrowingNow(s: State, kills: multiset<Name>)
    requires Inv(s, kills) && s.phase == RpsForActionOrder
    ensures Throwing(s) && Negotiating(s)
  {
  }

  lemma LastThrowDecides(s: State, kills: multiset<Name>, e: Event)
    requires Inv(s, kills) && LastThrow(s, e)
    ensures Judged(s, ThrowsWith(s, e), Step(s, e))
  {
    ThrowingNow(s, kills);
    hide Inv, Enabled, Step, JudgeRpsForActionOrder, Negotiating, Judged;
    OrderThrowStepIs(s, e);
    RepliesAside(s, ThrowsWith(s, e));
    LastThrowJudged(s.(orderReplies := ThrowsWith(s, e)));
    SameJudgement(s, ThrowsWith(s, e), Step(s, e));
  }

  lemma SameJudgement(s: State, throws: Throws, o: Outcome)
    requires Judged(s.(orderReplies := throws), throws, o)
    ensures Judged(s, throws, o)
  {
    hide Decided, Best;
  }

  lemma LastThrowJudged(u: State)
    requires Negotiating(u) && u.remaining == map[] && u.striving in u.desired
    requires forall o <- u.desired :: |u.desired[o]| >= 2 && u.striving <= o
    requires u.orderReplies.Keys == u.desired[u.striving] && u.phase == RpsForActionOrder
    ensures Judged(u, u.orderReplies, JudgeRpsForActionOrder(u))
  {
    hide *;
    var k, throws := u.striving, u.orderReplies;
    var left := if Decided(throws) then Best(throws) else u.desired[k];
    WinnersAreBest(throws);
    LeftOver(u, left);
    var v := if Winners(throws) == {} then u else u.(desired := Narrowed(u.desired, k, Winners(throws)));
    NarrowNegotiates(u, Winners(throws));
    SettleAfterThrow(v, k, left);
    JudgedAs(u, v, left);
  }

  lemma LeftOver(u: State, left: set<Name>)
    requires u.remaining == map[] && u.striving in u.desired
    requires forall o <- u.desired :: |u.desired[o]| >= 2 && u.striving <= o
    requires u.orderReplies.Keys == u.desired[u.striving]
    requires left == if Decided(u.orderReplies) then Best(u.orderReplies) else u.desired[u.striving]
    ensures var k := u.striving;
            var v := if Winners(u.orderReplies) == {} then u else u.(desired := Narrowed(u.desired, k, Winners(u.orderReplies)));
            && left != {} && v.desired == u.desired[k := left] && v.remaining == map[]
            && forall o <- v.desired :: k <= o && (o != k ==> |v.desired[o]| >= 2)
  {
    WinnersAreBest(u.orderReplies);
    hide Winners, Decided, Best;
    var k := u.striving;
    assert |u.desired[k]| >= 2;
    assert u.desired[k] * left == left && u.desired[k := u.desired[k]] == u.desired;
  }

  lemma JudgedAs(u: State, v: State, left: set<Name>)
    requires u.striving in u.desired && u.orderReplies.Keys == u.desired[u.striving] && u.phase == RpsForActionOrder
    requires left == if Decided(u.orderReplies) then Best(u.orderReplies) else u.desired[u.striving]
    requires v == if Winners(u.orderReplies) == {} then u else u.(desired := Narrowed(u.desired, u.striving, Winners(u.orderReplies)))
    requires v.desired == u.desired[u.striving := left]
    requires SettledWith(v, u.striving, left, StartRpsForActionOrder(v))
    ensures Judged(u, u.orderReplies, JudgeRpsForActionOrder(u))
  {
    hide Winners, StartRpsForActionOrder, Decided, Best, Keeps, Narrowed, SettledWith, Judged, JudgeRpsForActionOrder;
    JudgedStep(u);
    Conclude(u, v, left, StartRpsForActionOrder(v));
  }

  lemma Conclude(u: State, v: State, left: set<Name>, o: Outcome)
    requires u.striving in u.desired && u.phase == RpsForActionOrder
    requires left == if Decided(u.orderReplies) then Best(u.orderReplies) else u.desired[u.striving]
    requires v.desired == u.desired[u.striving := left] && v.confirmed == u.confirmed && SettledWith(v, u.striving, left, o)
    ensures Judged(u, u.orderReplies, After(RpsResult(u.orderReplies), o))
  {
    hide Decided, Best, Keeps;
    assert v.desired - {u.striving} == u.desired - {u.striving} && v.desired.Keys == u.desired.Keys;
  }

  lemma JudgedStep(u: State)
    requires u.orderReplies.Keys == ClaimantsOf(u.desired, u.striving)
    ensures JudgeRpsForActionOrder(u) ==
              After(RpsResult(u.orderReplies),
                    StartRpsForActionOrder(if Winners(u.orderReplies) == {} then u
                                           else u.(desired := Narrowed(u.desired, u.striving, Winners(u.orderReplies)))))
  {
    assert |u.orderReplies| == |u.orderReplies.Keys|;
    hide Winners, StartRpsForActionOrder, Narrowed;
  }

  // ----- over a whole negotiation -----

  // Player p strives for order k, or owns it.
  predicate InRace(s: State, k: int, p: Name) {
    if k in s.confirmed then s.confirmed[k] == p else p in ClaimantsOf(s.desired, k)
  }

  // Who may get order k has been settled by picks: it is thrown for or has an owner.
  predicate Closed(s: State, k: int) {
    k in s.confirmed || (s.phase == RpsForActionOrder && k in s.desired)
  }

  // The event is the last throw for order k, it decides, and p's throw beats nobody's.
  ghost predicate Beaten(s: State, e: Event, k: int, p: Name) {
    LastThrow(s, e) && s.striving == k && Decided(ThrowsWith(s, e)) && p !in Best(ThrowsWith(s, e))
  }

  ghost predicate NeverBeaten(w: World, es: seq<Event>, k: int, p: Name)
    decreases |es|
  {
    es == [] || (!Beaten(w.state, es[0], k, p) && NeverBeaten(Next(w, es[0]), es[1..], k, p))
  }

  // Whoever is left after the last throw for an order is in the race for it, and nobody else.
  lemma RaceForIt(s: State, throws: Throws, o: Outcome, p: Name)
    requires s.striving in s.desired && s.striving !in s.confirmed && throws.Keys == s.desired[s.striving] && Judged(s, throws, o)
    ensures Closed(o.state, s.striving)
    ensures InRace(o.state, s.striving, p) <==> InRace(s, s.striving, p) && (Decided(throws) ==> p in Best(throws))
  {
    WinnersAreBest(throws);
    hide Decided, Best, Winners, Keeps;
  }

  lemma RaceElsewhere(s: State, throws: Throws, o: Outcome, k: int, p: Name)
    requires s.striving in s.desired && Judged(s, throws, o) && k != s.striving && s.phase == RpsForActionOrder
    requires k in s.confirmed || k in s.desired
    ensures Closed(o.state, k) && (InRace(o.state, k, p) <==> InRace(s, k, p))
  {
    hide Decided, Best, Keeps;
    assert Keeps(s.confirmed, o.state) by { KeepsSelf(s, o.state); }
    if k in s.confirmed { KeepsOwner(s.confirmed, o.state, k); }
  }

  lemma KeepsSelf(s: State, t: State)
    requires s.confirmed == t.confirmed || Keeps(s.confirmed, t)
    ensures Keeps(s.confirmed, t)
  {
  }

  lemma KeepsOwner(m: map<int, Name>, t: State, k: int)
    requires Keeps(m, t) && k in m
    ensures k in t.confirmed && t.confirmed[k] == m[k]
  {
  }

  lemma RaceOn(s: State, e: Event, k: int, p: Name, o: Outcome)
    requires Throwing(s) && LastThrow(s, e) && Judged(s, ThrowsWith(s, e), o) && Closed(s, k)
    ensures Closed(o.state, k) && (InRace(o.state, k, p) <==> InRace(s, k, p) && !Beaten(s, e, k, p))
  {
    hide Decided, Best, Enabled, Judged, InRace;
    assert s.striving !in s.confirmed;
    if k == s.striving { RaceForIt(s, ThrowsWith(s, e), o, p); } else { RaceElsewhere(s, ThrowsWith(s, e), o, k, p); }
  }

  lemma RaceNext(w: World, e: Event, k: int, p: Name)
    requires Healthy(w) && Legal(w, e) && InNegotiation(w.state) && Closed(w.state, k)
    ensures Closed(Next(w, e).state, k)
    ensures InRace(Next(w, e).state, k, p) <==> InRace(w.state, k, p) && !Beaten(w.state, e, k, p)
  {
    var s := w.state;
    LegalIsAwaited(w, e);
    StepKeepsConfirmed(s, w.kills, e);
    NextState(w, e);
    hide Inv, Step, OnlyAsked, Waiting, NextKills, Judged, Open;
    if s.phase == RpsForActionOrder {
      ThrowingNow(s, w.kills);
      if LastThrow(s, e) {
        LastThrowDecides(s, w.kills, e);
        RaceOn(s, e, k, p, Step(s, e));
      } else {
        NotLast(s, w.kills, e);
      }
    }
  }

  // Any other event leaves the table as it is.
  lemma NotLast(s: State, kills: multiset<Name>, e: Event)
    requires Inv(s, kills) && OnlyAsked(s) && s.phase == RpsForActionOrder && !LastThrow(s, e)
    requires IsReply(e) ==> e.name in Waiting(s)
    ensures var t := Step(s, e).state; t.desired == s.desired && t.confirmed == s.confirmed && t.phase == s.phase
  {
    if Enabled(s, e) {
      OrderThrowStepIs(s, e);
      ThrowMissing(s, e);
    }
    hide Step, JudgeRpsForActionOrder;
  }

  lemma ThrowMissing(s: State, e: Event)
    requires OnlyAsked(s) && s.phase == RpsForActionOrder && e.RpsReply? && Enabled(s, e) && e.name in Waiting(s) && !LastThrow(s, e)
    ensures var u := s.(orderReplies := ThrowsWith(s, e)); JudgeRpsForActionOrder(u) == Silent(u)
  {
    var throws, asked := ThrowsWith(s, e), ClaimantsOf(s.desired, s.striving);
    assert |throws| == |throws.Keys|;
    SubsetSize(throws.Keys, asked);
    hide StartRpsForActionOrder, Winners;
  }

  lemma {:induction false} RaceRun(w: World, es: seq<Event>, k: int, p: Name)
    requires Healthy(w) && LegalRun(w, es) && StaysNegotiating(w, es) && Closed(w.state, k)
    ensures InRace(Run(w, es).state, k, p) <==> InRace(w.state, k, p) && NeverBeaten(w, es, k, p)
    decreases |es|
  {
    hide Healthy, Next, Legal, InRace, Closed, Beaten, InNegotiation;
    if es != [] {
      RaceNext(w, es[0], k, p);
      HealthyNext(w, es[0]);
      RaceRun(Next(w, es[0]), es[1..], k, p);
    }
  }

  // In any legal run, and whatever is thrown: who strives for a contested order later on, or has got
  // it, is exactly who strove for it and has since beaten somebody with every throw that decided.
  lemma ThrowsDecideTheRace(c: Config, before: seq<Event>, es: seq<Event>, k: int, p: Name)
    requires c.Playable() && LegalRun(Start(c), before)
    requires var w := Run(Start(c), before); w.state.phase == RpsForActionOrder && k in w.state.desired && LegalRun(w, es) && StaysNegotiating(w, es)
    ensures var w := Run(Start(c), before);
            InRace(Run(w, es).state, k, p) <==> p in w.state.desired[k] && NeverBeaten(w, es, k, p)
  {
    var w := Run(Start(c), before);
    HealthyStart(c);
    HealthyRun(Start(c), before);
    NotYetOwned(w, k);
    hide Healthy, Run, LegalRun, StaysNegotiating, NeverBeaten, Start;
    RaceRun(w, es, k, p);
  }

  lemma NotYetOwned(w: World, k: int)
    requires Healthy(w) && w.state.phase == RpsForActionOrder && k in w.state.desired
    ensures k !in w.state.confirmed
  {
    ThrowingNow(w.state, w.kills);
  }
}
