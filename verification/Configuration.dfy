/**
  Reading a match configuration, and what goes wrong in a match when the configuration leaves out
  what deserialize does not check: that players start alive, and that there is anything to upgrade.
 */
module Configuration {
  import opened Basics
  import opened JsonValues
  import opened Rules
  import opened RuleFacts
  import opened Machine
  import opened Accounting
  import opened Invariants
  import opened Steps
  import opened Runs
  import opened Contests
  import opened ActionPhase
  import opened Mirror

  // The keys of the JSON object that are read; the others are dropped.
  datatype Fields = Fields(
    initialKnifeDamage: Option<Json>, maximumKnifeDamage: Option<Json>,
    initialHorseDamage: Option<Json>, maximumHorseDamage: Option<Json>,
    initialMaxHp: Option<Json>, maximumMaxHp: Option<Json>,
    punishHpModifier: Option<Json>, punishHpRoundStrategy: Option<Json>,
    zeroHpAsDead: Option<Json>, enableLetMove: Option<Json>, canBuyOnlyInInitialCity: Option<Json>)

  const DEFAULTS := Config(1, 10, 2, 10, 10, 20, 2, RoundToNearest45, true, true, false)

  function NumberOf(r: Rounding): int {
    match r
    case RoundDown => 0
    case RoundToNearest45 => 1
    case RoundUp => 2
    case PlusOne => 3
  }

  function RoundingOf(i: int): Rounding {
    if i == 0 then RoundDown else if i == 1 then RoundToNearest45 else if i == 2 then RoundUp else PlusOne
  }

  // A stored value, or the default: what the getters answer.
  function GetInt(v: Option<Json>, default: int): int {
    if v.Some? then ToInt(v.value, 0) else default
  }

  function GetBool(v: Option<Json>, default: bool): bool {
    if v.Some? then v.value.JBool? && v.value.flag else default
  }

  function ConfigOf(f: Fields): Config {
    Config(GetInt(f.initialKnifeDamage, DEFAULTS.initialKnifeDamage), GetInt(f.maximumKnifeDamage, DEFAULTS.maximumKnifeDamage),
           GetInt(f.initialHorseDamage, DEFAULTS.initialHorseDamage), GetInt(f.maximumHorseDamage, DEFAULTS.maximumHorseDamage),
           GetInt(f.initialMaxHp, DEFAULTS.initialMaxHp), GetInt(f.maximumMaxHp, DEFAULTS.maximumMaxHp),
           GetInt(f.punishHpModifier, DEFAULTS.punishHpModifier),
           RoundingOf(GetInt(f.punishHpRoundStrategy, NumberOf(DEFAULTS.punishHpRoundStrategy))),
           GetBool(f.zeroHpAsDead, DEFAULTS.zeroHpAsDead), GetBool(f.enableLetMove, DEFAULTS.enableLetMove),
           GetBool(f.canBuyOnlyInInitialCity, DEFAULTS.canBuyOnlyInInitialCity))
  }

  // A non-negative whole number that fits an int.
  predicate WholeNumber(v: Json) {
    v.JNumber? && v.number.Floor as real == v.number && 0 <= v.number.Floor < 0x8000_0000
  }

  predicate WholeOrAbsent(v: Option<Json>) { v.Some? ==> WholeNumber(v.value) }

  predicate FlagOrAbsent(v: Option<Json>) { v.Some? ==> v.value.JBool? }

  // One numeric key: a bad value refuses the whole object, an absent one leaves the default.
  method ReadInt(v: Option<Json>, default: int) returns (ok: bool, out: int)
    ensures ok == WholeOrAbsent(v)
    ensures ok ==> out == GetInt(v, default) && (v.Some? ==> 0 <= out < 0x8000_0000)
  {
    ok, out := true, default;
    if v.Some? {
      if !v.value.JNumber? { return false, out; }
      var d := v.value.number;
      if d != d.Floor as real || d < 0.0 || d > 2147483647.0 { return false, out; }
      out := d.Floor;
    }
  }

  // The configuration an object describes, if it is accepted. None of the checks asks that players
  // start alive or that anything can be upgraded.
  method Deserialize(f: Fields) returns (result: Option<Config>)
    ensures result.Some? <==>
      && WholeOrAbsent(f.initialKnifeDamage) && WholeOrAbsent(f.maximumKnifeDamage) && WholeOrAbsent(f.initialHorseDamage)
      && WholeOrAbsent(f.maximumHorseDamage) && WholeOrAbsent(f.initialMaxHp) && WholeOrAbsent(f.maximumMaxHp)
      && WholeOrAbsent(f.punishHpModifier) && WholeOrAbsent(f.punishHpRoundStrategy)
      && FlagOrAbsent(f.zeroHpAsDead) && FlagOrAbsent(f.enableLetMove) && FlagOrAbsent(f.canBuyOnlyInInitialCity)
      && GetInt(f.punishHpRoundStrategy, NumberOf(DEFAULTS.punishHpRoundStrategy)) <= 3
      && ConfigOf(f).initialKnifeDamage <= ConfigOf(f).maximumKnifeDamage
      && ConfigOf(f).initialHorseDamage <= ConfigOf(f).maximumHorseDamage
      && ConfigOf(f).initialMaxHp <= ConfigOf(f).maximumMaxHp
    ensures result.Some? ==> result.value == ConfigOf(f) && result.value.Ordered() && result.value.punishHpModifier >= 0
  {
    result := None;
    var ok, ik, mk, ih, mh, ip, mp, modifier, strategy;
    ok, ik := ReadInt(f.initialKnifeDamage, DEFAULTS.initialKnifeDamage);
    if !ok { return; }
    ok, mk := ReadInt(f.maximumKnifeDamage, DEFAULTS.maximumKnifeDamage);
    if !ok { return; }
    ok, ih := ReadInt(f.initialHorseDamage, DEFAULTS.initialHorseDamage);
    if !ok { return; }
    ok, mh := ReadInt(f.maximumHorseDamage, DEFAULTS.maximumHorseDamage);
    if !ok { return; }
    ok, ip := ReadInt(f.initialMaxHp, DEFAULTS.initialMaxHp);
    if !ok { return; }
    ok, mp := ReadInt(f.maximumMaxHp, DEFAULTS.maximumMaxHp);
    if !ok { return; }
    ok, modifier := ReadInt(f.punishHpModifier, DEFAULTS.punishHpModifier);
    if !ok { return; }
    ok, strategy := ReadInt(f.punishHpRoundStrategy, NumberOf(DEFAULTS.punishHpRoundStrategy));
    if !ok { return; }
    if !FlagOrAbsent(f.zeroHpAsDead) || !FlagOrAbsent(f.enableLetMove) || !FlagOrAbsent(f.canBuyOnlyInInitialCity) { return; }
    if strategy > 3 { return; }
    if ik > mk { return; }
    if ih > mh { return; }
    if ip > mp { return; }
    result := Some(Config(ik, mk, ih, mh, ip, mp, modifier, RoundingOf(strategy),
                          GetBool(f.zeroHpAsDead, DEFAULTS.zeroHpAsDead), GetBool(f.enableLetMove, DEFAULTS.enableLetMove),
                          GetBool(f.canBuyOnlyInInitialCity, DEFAULTS.canBuyOnlyInInitialCity)));
  }

  function Number(i: int): Option<Json> { Some(FromInt(i)) }

  function FieldsOf(c: Config): Fields {
    Fields(Number(c.initialKnifeDamage), Number(c.maximumKnifeDamage), Number(c.initialHorseDamage), Number(c.maximumHorseDamage),
           Number(c.initialMaxHp), Number(c.maximumMaxHp), Number(c.punishHpModifier), Number(NumberOf(c.punishHpRoundStrategy)),
           Some(JBool(c.zeroHpAsDead)), Some(JBool(c.enableLetMove)), Some(JBool(c.canBuyOnlyInInitialCity)))
  }

  lemma NumberReads(i: int, default: int)
    requires FitsInt(i)
    ensures GetInt(Number(i), default) == i
    ensures WholeOrAbsent(Number(i)) <==> i >= 0
  {
    IntReads(i, 0);
  }

  // Any configuration of ints survives being written out and read back.
  lemma ConfigRoundTrip(c: Config)
    requires FitsInt(c.initialKnifeDamage) && FitsInt(c.maximumKnifeDamage) && FitsInt(c.initialHorseDamage) && FitsInt(c.maximumHorseDamage)
    requires FitsInt(c.initialMaxHp) && FitsInt(c.maximumMaxHp) && FitsInt(c.punishHpModifier)
    ensures ConfigOf(FieldsOf(c)) == c
  {
    hide GetInt, WholeOrAbsent;
    NumberReads(c.initialKnifeDamage, DEFAULTS.initialKnifeDamage);
    NumberReads(c.maximumKnifeDamage, DEFAULTS.maximumKnifeDamage);
    NumberReads(c.initialHorseDamage, DEFAULTS.initialHorseDamage);
    NumberReads(c.maximumHorseDamage, DEFAULTS.maximumHorseDamage);
    NumberReads(c.initialMaxHp, DEFAULTS.initialMaxHp);
    NumberReads(c.maximumMaxHp, DEFAULTS.maximumMaxHp);
    NumberReads(c.punishHpModifier, DEFAULTS.punishHpModifier);
    NumberReads(NumberOf(c.punishHpRoundStrategy), NumberOf(DEFAULTS.punishHpRoundStrategy));
  }

  // Every key is read into its own field, and the numbers of the rounding strategies are these.
  lemma KeysAreKept(f: Fields, i: int, b: bool)
    requires FitsInt(i)
    ensures f.initialKnifeDamage == Some(FromInt(i)) ==> ConfigOf(f).initialKnifeDamage == i
    ensures f.maximumKnifeDamage == Some(FromInt(i)) ==> ConfigOf(f).maximumKnifeDamage == i
    ensures f.initialHorseDamage == Some(FromInt(i)) ==> ConfigOf(f).initialHorseDamage == i
    ensures f.maximumHorseDamage == Some(FromInt(i)) ==> ConfigOf(f).maximumHorseDamage == i
    ensures f.initialMaxHp == Some(FromInt(i)) ==> ConfigOf(f).initialMaxHp == i
    ensures f.maximumMaxHp == Some(FromInt(i)) ==> ConfigOf(f).maximumMaxHp == i
    ensures f.punishHpModifier == Some(FromInt(i)) ==> ConfigOf(f).punishHpModifier == i
    ensures f.zeroHpAsDead == Some(JBool(b)) ==> ConfigOf(f).zeroHpAsDead == b
    ensures f.enableLetMove == Some(JBool(b)) ==> ConfigOf(f).enableLetMove == b
    ensures f.canBuyOnlyInInitialCity == Some(JBool(b)) ==> ConfigOf(f).canBuyOnlyInInitialCity == b
    ensures f.punishHpRoundStrategy == Some(FromInt(i)) ==>
              && (ConfigOf(f).punishHpRoundStrategy == RoundDown <==> i == 0)
              && (ConfigOf(f).punishHpRoundStrategy == RoundToNearest45 <==> i == 1)
              && (ConfigOf(f).punishHpRoundStrategy == RoundUp <==> i == 2)
  {
    IntReads(i, 0);
  }

  // ----- what an accepted configuration may still lack -----

  // Every accepted configuration starts its players alive, except zero max HP with zero HP as death.
  lemma StartsAliveUnlessZero(c: Config)
    requires c.Ordered()
    ensures c.Playable() <==> !(c.zeroHpAsDead && c.initialMaxHp == 0)
  {
  }

  lemma PreparedLobbyAlive(c: Config, ps: Players)
    requires Lobby(c, ps)
    ensures AliveNames(c, PreparedRoom(ps)) == if c.DeadAt(c.initialMaxHp) then {} else ps.Keys
  {
  }

  // The first round start asks everybody to throw, or nobody at all, in which case nobody is ever
  // waited for: exactly when players start dead.
  lemma FirstRoundAsks(s: State)
    requires Lobby(s.config, s.players) && Enabled(s, RoundStart)
    ensures Step(s, RoundStart).sent == [RequestRpsForAction(Sorted(Waiting(Step(s, RoundStart).state)))]
    ensures Waiting(Step(s, RoundStart).state) == {} <==> s.config.DeadAt(s.config.initialMaxHp)
  {
    hide Sorted, PreparedRoom;
    PreparedLobbyAlive(s.config, s.players);
    var t := Step(s, RoundStart).state;
    assert |s.players| == |s.players.Keys|;
    assert s.players.Keys != {};
    assert Waiting(t) == t.Alive();
  }

  // Ending a round leads to the upgrades exactly when the configuration leaves something to upgrade;
  // otherwise the engine stalls with nobody asked.
  lemma RoundEndsInUpgrade(s: State, kills: multiset<Name>, e: Event)
    requires Inv(s, kills) && s.phase == InAction && !Stalled(s) && e.ActionReply? && Enabled(s, e)
    requires e.name in s.players && !Running(Step(s, e).state)
    ensures Step(s, e).state.phase == InUpgrade <==> s.config.Capacity() > 0
    ensures Stalled(Step(s, e).state) <==> s.config.Capacity() == 0
  {
    hide *;
    ActionEnters(s, kills, e);
    ActionRoom(s, e);
    RoundOverPhase(s, kills, e);
    EnteredInv(Step(s, e), NextKills(s, kills, e));
    OverMeans(Step(s, e).state, NextKills(s, kills, e));
  }

  lemma RoundOverPhase(s: State, kills: multiset<Name>, e: Event)
    requires Inv(s, kills) && s.phase == InAction && !Stalled(s) && e.ActionReply? && Enabled(s, e)
    requires !Running(Step(s, e).state)
    ensures Step(s, e).state.phase == InAction || Step(s, e).state.phase == InUpgrade
  {
    hide Inv, Perform, Feasible, Stalled, Step, Enabled, StartAction, RoundOver;
    ActionStepIs(s, e);
    var u := s.(players := Perform(s.config, s.players, e.name, e.action, e.toPlayer, e.toPlace));
    StartActionRoom(u);
    SameRoomSameEnd(u, Step(s, e).state);
    OverPhase(u);
  }

  lemma SameRoomSameEnd(u: State, t: State)
    requires SameRoom(u, t) && !Running(t)
    ensures !Running(u)
  {
  }

  lemma OverPhase(u: State)
    requires !Running(u) && u.phase == InAction
    ensures StartAction(u).state.phase == InAction || StartAction(u).state.phase == InUpgrade
  {
    hide RoundOver, Pointed, UpgradeRequests, Sorted;
  }

  lemma OverMeans(t: State, kills: multiset<Name>)
    requires Inv(t, kills) && !Running(t) && (t.phase == InAction || t.phase == InUpgrade)
    ensures t.phase == InUpgrade <==> t.config.Capacity() > 0
    ensures Stalled(t) <==> t.config.Capacity() == 0
  {
    RoundEndsWithPoints(t.config, t.players, kills);
    hide Round, RoundOver;
    if t.phase == InUpgrade { assert |Pointed(t.players)| > 0; }
  }

  // A stalled engine stays where it is, whatever is sent by players who were asked.
  lemma {:induction false} StalledForGood(w: World, es: seq<Event>)
    requires Healthy(w) && Stalled(w.state) && LegalRun(w, es)
    ensures Run(w, es).state == w.state
    decreases |es|
  {
    hide Healthy, Next, Legal, Stalled;
    if es != [] {
      HealthyNext(w, es[0]);
      StalledStep(w, es[0]);
      StalledForGood(Next(w, es[0]), es[1..]);
    }
  }

  lemma StalledStep(w: World, e: Event)
    requires Healthy(w) && Stalled(w.state) && Legal(w, e)
    ensures Next(w, e).state == w.state
  {
    hide Inv, OnlyAsked, Step, NextKills, KindMatches;
    LegalIsAwaited(w, e);
    StalledWaits(w.state);
    if !IsReply(e) { CommandRefused(w.state, e); }
  }

  lemma StalledWaits(s: State)
    requires Stalled(s)
    ensures Waiting(s) == {}
  {
    hide RoundOver;
  }

  lemma CommandRefused(s: State, e: Event)
    requires !IsReply(e) && s.phase != BeforeRoundStart
    ensures Step(s, e).state == s
  {
  }
}
