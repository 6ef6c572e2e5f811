/**
  A negotiation is over after a bounded number of replies: the rank of Measure.dfy, read as one
  number, pays for every reply, and each tied throw costs at most one more throw per player.
 */
module Termination {
  import opened Basics
  import opened Rules
  import opened Rps
  import opened Machine
  import opened Accounting
  import opened Invariants
  import opened Steps
  import opened Runs
  import opened Contests
  import opened Measure

  // A rank as a number, for n orders and p players.
  function Weight(r: Rank, n: nat, p: nat): int {
    ((r.left * 2 + r.stage) * (n + 1) + r.claims) * (p + 1) + r.pending
  }

  predicate Fits(r: Rank, n: nat, p: nat) {
    0 <= r.left <= n && 0 <= r.stage <= 1 && 0 <= r.claims <= n && 1 <= r.pending <= p
  }

  lemma Lexicographic(x: int, u: int, y: int, v: int, n: nat)
    requires 0 <= u <= n && 0 <= v <= n
    ensures x < y ==> x * (n + 1) + u < y * (n + 1) + v
    ensures x == y && u < v ==> x * (n + 1) + u < y * (n + 1) + v
  {
    if x < y {
      assert (y - x - 1) * (n + 1) >= 0;
      assert y * (n + 1) - x * (n + 1) == (y - x - 1) * (n + 1) + (n + 1);
    }
  }

  lemma BelowWeight(a: Rank, b: Rank, n: nat, p: nat)
    requires Fits(a, n, p) && Fits(b, n, p) && Below(a, b)
    ensures Weight(a, n, p) < Weight(b, n, p)
  {
    Lexicographic(a.left * 2 + a.stage, a.claims, b.left * 2 + b.stage, b.claims, n);
    Lexicographic((a.left * 2 + a.stage) * (n + 1) + a.claims, a.pending, (b.left * 2 + b.stage) * (n + 1) + b.claims, b.pending, p);
  }

  lemma WeightBound(r: Rank, n: nat, p: nat)
    requires Fits(r, n, p)
    ensures 1 <= Weight(r, n, p) <= (2 * n + 2) * (n + 1) * (p + 1)
  {
    var x := (r.left * 2 + r.stage) * (n + 1) + r.claims;
    assert (r.left * 2 + r.stage) * (n + 1) >= 0;
    assert x * (p + 1) >= 0;
    Lexicographic(r.left * 2 + r.stage, r.claims, 2 * n + 2, 0, n);
    Lexicographic(x, r.pending, (2 * n + 2) * (n + 1), 0, p);
  }

  lemma SumWithin(names: set<Name>, f: map<Name, int>, k: nat)
    requires names <= f.Keys && forall n <- names :: 0 <= f[n] <= k
    ensures 0 <= Sum(names, f) <= |names| * k
  {
    SumNonNegative(names, f);
    var top := map n | n in names :: k;
    SumAtMost(names, f, top);
    SumConstant(names, top, k);
  }

  lemma SharesWithin(s: State, p: Name)
    requires Negotiating(s) && p in s.winners
    requires forall q <- s.remaining :: s.remaining[q] >= 1
    ensures 0 <= OpenSelections(s)[p] <= s.chances
    ensures 0 <= ClaimCountOf(s)[p] <= s.chances
  {
    assert Selections(s, p) <= s.chances;
    assert CountOf(s.yielded, p) >= 0;
  }

  lemma SumsWithin(s: State)
    requires Negotiating(s)
    requires forall q <- s.remaining :: s.remaining[q] >= 1
    ensures 0 <= Sum(s.winners, OpenSelections(s)) <= s.orders
    ensures 0 <= Sum(s.winners, ClaimCountOf(s)) <= s.orders
  {
    forall p <- s.winners
      ensures 0 <= OpenSelections(s)[p] <= s.chances && 0 <= ClaimCountOf(s)[p] <= s.chances
    {
      SharesWithin(s, p);
    }
    SumWithin(s.winners, OpenSelections(s), s.chances);
    SumWithin(s.winners, ClaimCountOf(s), s.chances);
  }

  lemma PickersWithin(s: State)
    requires Picking(s)
    ensures 1 <= |s.remaining| <= |s.players|
  {
    forall p <- s.remaining ensures p in s.players { assert p in s.winners; }
    SubsetSize(s.remaining.Keys, s.players.Keys);
    assert |s.remaining.Keys| == |s.remaining| && |s.players.Keys| == |s.players|;
  }

  lemma StriversWithin(s: State)
    requires Throwing(s)
    ensures |s.orderReplies| < |ClaimantsOf(s.desired, s.striving)| <= |s.players|
  {
    SubsetSize(s.desired[s.striving], s.players.Keys);
    assert |s.players.Keys| == |s.players|;
  }

  lemma RankFits(s: State, kills: multiset<Name>)
    requires Inv(s, kills) && InNegotiation(s)
    ensures Fits(RankOf(s), s.orders, |s.players|)
    ensures |ClaimantsOf(s.desired, s.striving)| <= |s.players| || s.phase == ActionOrder
  {
    hide Round, RoundOver, OpenSelections, ClaimCountOf, Negotiating;
    SumsWithin(s);
    if s.phase == ActionOrder { PickersWithin(s); } else { StriversWithin(s); }
  }

  // ----- what a negotiation leaves alone -----

  lemma StakesFixed(w: World, e: Event)
    requires Healthy(w) && Legal(w, e) && IsReply(e)
    requires InNegotiation(w.state) && InNegotiation(Next(w, e).state)
    ensures Next(w, e).state.orders == w.state.orders && Next(w, e).state.players == w.state.players
  {
    hide Inv, OnlyAsked, Waiting, NextKills, KindMatches, Step;
    LegalIsAwaited(w, e);
    StepRoom(w.state, e);
    if w.state.phase == ActionOrder {
      PicksStep(w.state, w.kills, e);
      PicksOrders(w.state, w.kills, e);
    } else {
      ThrowStep(w.state, w.kills, e);
      NowThrowing(w.state, w.kills);
      ThrowOrders(w.state, e);
    }
  }

  lemma PicksOrders(s: State, kills: multiset<Name>, e: Event)
    requires Inv(s, kills) && s.phase == ActionOrder && e.ActionOrderReply? && e.name in s.remaining
    requires InNegotiation(AdvanceActionOrder(TakePicks(s, e.name, e.orders)).state)
    ensures AdvanceActionOrder(TakePicks(s, e.name, e.orders)).state.orders == s.orders
  {
    hide Round, RoundOver, Picking, PicksClaimed, PicksYielded, StartRpsForActionOrder;
    var t := TakePicks(s, e.name, e.orders);
    SameRoomRuns(s, t);
    if t.remaining == map[] { SettlingOrders(t); }
  }

  lemma SameRoomRuns(s: State, t: State)
    requires Running(s) && t.players == s.players && t.config == s.config
    ensures Running(t)
  {
  }

  lemma SettlingOrders(t: State)
    requires Running(t) && InNegotiation(StartRpsForActionOrder(t).state)
    ensures StartRpsForActionOrder(t).state.orders == t.orders
  {
    hide StartActionOrder, SettledOrders, Contested, RoundOver, Striving, PickRequests, Free;
    if Settle(t).desired == map[] { OnlyPicksContinue(Settle(t)); }
  }

  lemma ThrowOrders(s: State, e: Event)
    requires Running(s) && e.RpsReply?
    requires InNegotiation(JudgeRpsForActionOrder(s.(orderReplies := s.orderReplies[e.name := e.throw])).state)
    ensures JudgeRpsForActionOrder(s.(orderReplies := s.orderReplies[e.name := e.throw])).state.orders == s.orders
  {
    hide RoundOver, StartRpsForActionOrder, Winners, Narrowed, ClaimantsOf;
    var u := s.(orderReplies := s.orderReplies[e.name := e.throw]);
    SameRoomRuns(s, u);
    if |u.orderReplies| == |ClaimantsOf(u.desired, u.striving)| {
      SettlingOrders(if Winners(u.orderReplies) == {} then u else u.(desired := Narrowed(u.desired, u.striving, Winners(u.orderReplies))));
    }
  }

  // ----- the bound -----

  function CountReplies(es: seq<Event>): nat
    decreases |es|
  {
    if es == [] then 0 else (if IsReply(es[0]) then 1 else 0) + CountReplies(es[1..])
  }

  // How many throws for an order ended in a tie.
  ghost function Ties(w: World, es: seq<Event>): nat
    decreases |es|
  {
    if es == [] then 0 else (if TieCompleted(w.state, es[0]) then 1 else 0) + Ties(Next(w, es[0]), es[1..])
  }

  ghost function Cost(s: State): int {
    Weight(RankOf(s), s.orders, |s.players|)
  }

  lemma ReplyPays(w: World, e: Event)
    requires Healthy(w) && Legal(w, e) && IsReply(e)
    requires InNegotiation(w.state) && InNegotiation(Next(w, e).state)
    ensures Cost(Next(w, e).state) + 1 <= Cost(w.state) + (if TieCompleted(w.state, e) then |w.state.players| else 0)
  {
    hide RankOf, Inv, OnlyAsked, Waiting, Next, Legal, InNegotiation, TieCompleted;
    HealthyNext(w, e);
    ReplyLowers(w, e);
    StakesFixed(w, e);
    RankFits(w.state, w.kills);
    RankFits(Next(w, e).state, Next(w, e).kills);
    if TieCompleted(w.state, e) {
      TieThrows(w.state, e);
    } else {
      BelowWeight(RankOf(Next(w, e).state), RankOf(w.state), w.state.orders, |w.state.players|);
    }
  }

  lemma TieThrows(s: State, e: Event)
    requires TieCompleted(s, e)
    ensures s.phase != ActionOrder
  {
  }

  lemma CommandIsIgnored(w: World, e: Event)
    requires InNegotiation(w.state) && !IsReply(e)
    ensures Next(w, e).state == w.state
    ensures !TieCompleted(w.state, e)
  {
  }

  // A negotiation with n orders among p players takes at most (2n+2)(n+1)(p+1) replies, and p more
  // for every throw that ends in a tie.
  lemma NegotiationEnds(w: World, es: seq<Event>)
    requires Healthy(w) && InNegotiation(w.state) && LegalRun(w, es) && StaysNegotiating(w, es)
    ensures var n, p := w.state.orders, |w.state.players|;
            CountReplies(es) <= (2 * n + 2) * (n + 1) * (p + 1) + p * Ties(w, es)
  {
    hide Healthy, Ties, CountReplies, RankOf;
    RepliesPaid(w, es);
    RankFitsNow(w);
    WeightBound(RankOf(w.state), w.state.orders, |w.state.players|);
  }

  lemma RankFitsNow(w: World)
    requires Healthy(w) && InNegotiation(w.state)
    ensures Fits(RankOf(w.state), w.state.orders, |w.state.players|)
  {
    hide Inv, OnlyAsked, Waiting, RankOf;
    RankFits(w.state, w.kills);
  }

  lemma {:induction false} RepliesPaid(w: World, es: seq<Event>)
    requires Healthy(w) && InNegotiation(w.state) && LegalRun(w, es) && StaysNegotiating(w, es)
    ensures CountReplies(es) <= Cost(w.state) + |w.state.players| * Ties(w, es)
    decreases |es|
  {
    hide Healthy, Next, Legal, RankOf, Weight, Fits, TieCompleted, InNegotiation, IsReply, Cost;
    CostPositive(w);
    if es != [] {
      var e, v := es[0], Next(w, es[0]);
      HealthyNext(w, e);
      if !InNegotiation(v.state) {
        assert es[1..] == [];
        assert |w.state.players| * Ties(w, es) >= 0;
      } else {
        RepliesPaid(v, es[1..]);
        OneMore(w, e, Ties(v, es[1..]));
      }
    }
  }

  lemma CostPositive(w: World)
    requires Healthy(w) && InNegotiation(w.state)
    ensures Cost(w.state) >= 1
  {
    hide Healthy, InNegotiation, RankOf;
    RankFitsNow(w);
    WeightBound(RankOf(w.state), w.state.orders, |w.state.players|);
  }

  lemma OneMore(w: World, e: Event, ties: nat)
    requires Healthy(w) && Legal(w, e) && InNegotiation(w.state) && InNegotiation(Next(w, e).state)
    ensures var v := Next(w, e); var p := |w.state.players|;
            (if IsReply(e) then 1 else 0) + Cost(v.state) + |v.state.players| * ties
              <= Cost(w.state) + p * ((if TieCompleted(w.state, e) then 1 else 0) + ties)
  {
    hide Healthy, Cost, InNegotiation, TieCompleted, Next, Legal;
    if IsReply(e) { ReplyPays(w, e); StakesFixed(w, e); } else { CommandIsIgnored(w, e); }
  }
}
