/**
  Judging a Rock-Paper-Scissors throw (Data::rockPaperScissorsWinners).
 */
module Rps {
  import opened Basics
  import opened Rules

  type Throws = map<Name, Throw>

  function ThrownBy(j: Throws, t: Throw): set<Name> {
    set n | n in j && j[n] == t
  }

  function ThrowsUsed(j: Throws): set<Throw> {
    set n | n in j :: j[n]
  }

  // The throw that wins: there is one exactly when two distinct throws were made.
  function WinningThrow(j: Throws): Option<Throw> {
    var used := ThrowsUsed(j);
    if used == {Rock, Scissors} then Some(Rock)
    else if used == {Scissors, Paper} then Some(Scissors)
    else if used == {Paper, Rock} then Some(Paper)
    else None
  }

  function Winners(j: Throws): set<Name> {
    match WinningThrow(j)
    case None => {}
    case Some(t) => ThrownBy(j, t)
  }

  function Losers(j: Throws): set<Name> {
    if Winners(j) == {} then {} else j.Keys - Winners(j)
  }

  lemma TwoThrows(used: set<Throw>)
    ensures |used| == 2 <==> used in {{Rock, Scissors}, {Scissors, Paper}, {Paper, Rock}}
  {
    forall t <- used ensures t in {Rock, Scissors, Paper} {
      match t case Rock => case Scissors => case Paper =>
    }
    assert |{Rock, Scissors}| == |{Scissors, Paper}| == |{Paper, Rock}| == 2;
    assert |{Rock, Scissors, Paper}| == 3;
    if |used| == 2 {
      if Rock !in used { assert used <= {Scissors, Paper}; SubsetSize(used, {Scissors, Paper}); }
      if Scissors !in used { assert used <= {Paper, Rock}; SubsetSize(used, {Paper, Rock}); }
      if Paper !in used { assert used <= {Rock, Scissors}; SubsetSize(used, {Rock, Scissors}); }
      if Rock in used && Scissors in used && Paper in used {
        SubsetSize({Rock, Scissors, Paper}, used);
      }
    }
  }

  // A throw is decided iff exactly two distinct throws were made; then a player wins iff its
  // throw beats the throw of some other player, and winners and losers are both there.
  lemma WinnersCharacterised(j: Throws)
    ensures Winners(j) != {} <==> |ThrowsUsed(j)| == 2
    ensures forall n :: n in Winners(j) <==> |ThrowsUsed(j)| == 2 && n in j && exists m <- j :: Beats(j[n], j[m])
    ensures Winners(j) != {} ==> Losers(j) != {} && Winners(j) < j.Keys
    ensures Winners(j) != {} ==> |Losers(j)| == |j| - |Winners(j)|
    ensures forall w <- Winners(j), l <- Losers(j) :: Beats(j[w], j[l])
  {
    var used := ThrowsUsed(j);
    TwoThrows(used);
    if WinningThrow(j).Some? {
      var t := WinningThrow(j).value;
      var other :| other in used && other != t;
      assert used == {t, other} && Beats(t, other);
      WinnersOfTwo(j, t, other);
    }
  }

  lemma WinningThrowOfTwo(j: Throws, t: Throw, other: Throw)
    requires ThrowsUsed(j) == {t, other} && Beats(t, other)
    ensures WinningThrow(j) == Some(t)
  {
    assert t in ThrowsUsed(j) && other in ThrowsUsed(j);
  }

  lemma WinnersOfTwo(j: Throws, t: Throw, other: Throw)
    requires ThrowsUsed(j) == {t, other} && Beats(t, other)
    ensures Winners(j) == ThrownBy(j, t) != {} && Losers(j) == ThrownBy(j, other) != {}
    ensures |Losers(j)| == |j| - |Winners(j)|
    ensures forall n <- j :: n in Winners(j) <==> exists m <- j :: Beats(j[n], j[m])
  {
    WinningThrowOfTwo(j, t, other);
    assert t in ThrowsUsed(j) && other in ThrowsUsed(j);
    var w :| w in j && j[w] == t;
    var l :| l in j && j[l] == other;
    assert w in ThrownBy(j, t) && l in ThrownBy(j, other);
    forall n <- j ensures j[n] == t || j[n] == other {
      assert j[n] in ThrowsUsed(j);
    }
    assert ThrownBy(j, other) == j.Keys - ThrownBy(j, t);
    assert |j.Keys| == |ThrownBy(j, t)| + |ThrownBy(j, other)| by {
      assert j.Keys == ThrownBy(j, t) + ThrownBy(j, other);
    }
    forall n <- j ensures n in Winners(j) <==> exists m <- j :: Beats(j[n], j[m]) {
      if j[n] == t { assert Beats(j[n], j[l]); }
    }
  }

  // ----- the program's way of computing it -----

  // A list holds every element of s exactly k times and nothing else.
  ghost predicate Uniform(d: seq<Name>, s: set<Name>, k: nat) {
    && (forall n :: multiset(d)[n] == if n in s then k else 0)
    && |d| == |s| * k
  }

  // The members of s, in whatever order the hash yields them.
  ghost predicate Lists(l: seq<Name>, s: set<Name>) {
    && (forall n :: n in l <==> n in s)
    && (forall i, k | 0 <= i < k < |l| :: l[i] != l[k])
  }

  lemma {:induction false} ListsOnce(l: seq<Name>, s: set<Name>)
    requires Lists(l, s)
    ensures Uniform(l, s, 1)
  {
    if l != [] {
      var last := |l| - 1;
      var t := l[..last];
      assert l == t + [l[last]];
      assert l[last] !in t;
      ListsOnce(t, s - {l[last]});
    } else {
      assert s == {};
    }
  }

  lemma UniformAppend(d: seq<Name>, l: seq<Name>, s: set<Name>, k: nat)
    requires Uniform(d, s, k) && Lists(l, s)
    ensures Uniform(d + l, s, k + 1)
  {
    ListsOnce(l, s);
    assert multiset(d + l) == multiset(d) + multiset(l);
    assert |s| * (k + 1) == |s| * k + |s|;
  }

  function GroupOf(groups: map<Throw, seq<Name>>, t: Throw): seq<Name> {
    if t in groups then groups[t] else []
  }

  // The groups hold exactly the given players, each under its throw.
  ghost predicate Grouped(groups: map<Throw, seq<Name>>, judgers: Throws, done: set<Name>)
    requires done <= judgers.Keys
  {
    && (forall t :: t in groups <==> exists n :: n in done && judgers[n] == t)
    && (forall t :: Lists(GroupOf(groups, t), set n | n in done && judgers[n] == t))
  }

  lemma GroupOneMore(groups: map<Throw, seq<Name>>, judgers: Throws, done: set<Name>, n: Name)
    requires done <= judgers.Keys && n in judgers && n !in done
    requires Grouped(groups, judgers, done)
    ensures Grouped(groups[judgers[n] := GroupOf(groups, judgers[n]) + [n]], judgers, done + {n})
  {
    var t := judgers[n];
    var next := groups[t := GroupOf(groups, t) + [n]];
    forall u
      ensures u in next <==> exists m :: m in done + {n} && judgers[m] == u
      ensures Lists(GroupOf(next, u), set m | m in done + {n} && judgers[m] == u)
    {
      var before := set m | m in done && judgers[m] == u;
      var after := set m | m in done + {n} && judgers[m] == u;
      assert Lists(GroupOf(groups, u), before);
      if u == t {
        assert after == before + {n};
        assert n in after;
      } else {
        assert after == before;
        if u in groups {
          var m :| m in done && judgers[m] == u;
          assert m in done + {n};
        }
      }
    }
  }

  method GroupByThrow(judgers: Throws) returns (groups: map<Throw, seq<Name>>)
    ensures groups.Keys == ThrowsUsed(judgers)
    ensures forall t :: Lists(GroupOf(groups, t), ThrownBy(judgers, t))
  {
    groups := map[];
    var left := judgers.Keys;
    while left != {}
      invariant left <= judgers.Keys
      invariant Grouped(groups, judgers, judgers.Keys - left)
      decreases left
    {
      var n :| n in left;
      GroupOneMore(groups, judgers, judgers.Keys - left, n);
      assert judgers.Keys - left + {n} == judgers.Keys - (left - {n});
      groups := groups[judgers[n] := GroupOf(groups, judgers[n]) + [n]];
      left := left - {n};
    }
    assert judgers.Keys - left == judgers.Keys;
    forall t ensures Lists(GroupOf(groups, t), ThrownBy(judgers, t)) {
      assert ThrownBy(judgers, t) == set n | n in judgers.Keys && judgers[n] == t;
    }
  }

  // Whatever order the hash is walked in, the list holds every winner once per loser.
  method RockPaperScissorsWinners(judgers: Throws) returns (d: seq<Name>)
    ensures Uniform(d, Winners(judgers), |Losers(judgers)|)
    ensures d == [] <==> |ThrowsUsed(judgers)| != 2
  {
    var groups := GroupByThrow(judgers);
    assert |groups.Keys| == |groups|;
    d := [];
    if |groups| == 2 {
      TwoThrows(groups.Keys);
      // the two entries of the std::map, in the order of the throws' values
      var type1 := if Rock in groups then Rock else Scissors;
      var type2 := if Paper in groups then Paper else Scissors;
      if !Beats(type1, type2) {
        type1, type2 := type2, type1;
      }
      assert groups.Keys == {type1, type2} && Beats(type1, type2);
      WinnersOfTwo(judgers, type1, type2);
      ghost var winners, losers := Winners(judgers), Losers(judgers);
      assert Lists(GroupOf(groups, type1), winners) && Lists(GroupOf(groups, type2), losers);
      ListsOnce(groups[type2], losers);
      for i := 0 to |groups[type2]|
        invariant Uniform(d, winners, i)
      {
        UniformAppend(d, groups[type1], winners, i);
        d := d + groups[type1];
      }
      ghost var w :| w in winners;
      assert multiset(d)[w] == |losers|;
    } else {
      WinnersCharacterised(judgers);
    }
  }
}
