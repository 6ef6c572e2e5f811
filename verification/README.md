# QMdmm, verified

A Dafny model of the QMdmm game server: the rules of a match, the round engine (`Logic`), the
server's side of one player's connection, the client's mirror of the room, reconnect catch-up, the
heartbeat and the two style bots.

The round engine is there twice. `Machine.dfy` says what every slot call does to the engine's state
and which messages it emits, as a transition system over values; the whole-run theorems are about
it. `Logic.dfy` is the class with its hashes, lists and loops, and each of its methods is proved to
do exactly what `Machine.dfy` says, message by message, in whatever order a hash is walked. The same
holds for players and room (`Rules.dfy` and `Room.dfy`), the connection (`Connection.dfy` and
`ServerConnection.dfy`) and the mirror (`Mirror.dfy` and `Client.dfy`).

| files | subject |
|---|---|
| `Basics`, `JsonValues` | names, ascending lists, finite sums; JSON values |
| `Rules`, `RuleFacts`, `Rps`, `Configuration` | statistics, actions, upgrades, throws, the match configuration |
| `Machine`, `Accounting`, `Invariants`, `Steps` | the engine, the bookkeeping of a negotiation, the invariant, one step |
| `Slots` | what each slot call comes to, told from replies and rules alone |
| `Runs`, `Negotiation`, `Contests`, `OrderThrows`, `Measure`, `Termination`, `GameLength`, `ActionPhase` | theorems about whole runs |
| `TwoPlayers` | matches played out event by event |
| `Mirror`, `CatchUp`, `Heartbeat`, `Connection`, `Defaults`, `System`, `Bots` | the protocol around the engine |
| `Room`, `LogicLoops`, `Logic`, `ServerConnection`, `LogicRunner`, `Client` | the classes, proved against the above |

Assumptions appear as preconditions and nowhere else:

- **Configuration.** `Ordered` is what `LogicConfiguration::deserialize` checks. `Playable` adds that
  players start a round alive, and `Capacity() > 0` that something can be upgraded. Neither is
  checked by the program; `Configuration.StartsAliveUnlessZero`, `FirstRoundAsks`, `RoundEndsInUpgrade`
  and `StalledForGood` say exactly what happens without them, and `TwoPlayers.StallIsReached` plays a
  match that gets there.
- **Only players who were asked reply** (`Runs.Legal`). The invariant, the accounting of a negotiation
  and the crediting of kills hold without it; freedom from deadlock, termination and the mirror need
  it. `System.OnlyAskedPlayersReply` proves it of engine and connections together.
- **Targets on the map** (`Mirror.BoundedTarget`). The server does not bound a move's target place and
  the client does. `Mirror.ActionMirrored` shows the mirror needs exactly this, `Mirror.OffTheMap` that
  the server accepts more, and `Bots.BotsActByTheRules` that the bots stay within it.
- **The log is not cleared under a client that still lacks something** (`CatchUp.Careful`).
  `CatchUp.ReconnectIsPrecise` shows that this is the exact condition, `OutageIsPrecise` and
  `OutageAcrossClearing` say when an outage meets it, and `UnclearedIsCareful` that every outage between
  the arrival of a round start and the end of the action phase does.

Where the code and its documentation part, the model follows the code:

- The wire enumerations are cast to 8-bit types after a conversion to int that turns fractions and
  numbers beyond int into zero. So a throw, action or upgrade number is refused exactly when the low byte
  of its int value names nothing (`Connection.OutOfRangeThrow`, `OutOfRangeAction`, `OutOfRangeItems`), and
  256, 0.5 or 3e9 pass for members (`WrappedThrow`, `WrappedAction`, `WrappedItem`). The comment at
  `QMdmmNetworking/src/qmdmmserverconnection_p.cpp:197` has every value outside the enumeration refused.
- `QMdmmNetworking/src/qmdmmserverconnection_p.h:57` has the request timer run only while a request
  waits for its reply. It runs on exactly when a request is abandoned while it is timed
  (`Connection.TimerOutlivesRequest`, over runs `TimerWaitsUnlessAbandoned`), and can then drop a peer
  that owes nothing (`StaleTimerDropsPeer`).
- The knife bot's reckless slash is meant to finish the peer off; where zero HP is not death it may
  leave the peer at zero, alive (`Bots.RecklessSlashKills`); in a match that comes to it, the slash costs
  the bot its own life instead (`Bots.RecklessSlashSpares`).
- A bare log index is said to identify a round event. After the log has been cleared it no longer does:
  an event under way when the log is cleared can be lost for good (`CatchUp.ClearedUnderWay`), and a
  client that lost a round-start notice is sent the new round from the wrong place
  (`CatchUp.StaleCounterSkipsEvents`).

Emits are queued, as the runner connects them, so a slot call runs to completion.

## Model

| member | source | states |
|---|---|---|
| RuleFacts.PunishMeaning | QMdmmCore/src/qmdmmplayer.cpp:437-467 | the four integer formulas are floor, round half up, ceiling and floor plus one of maxHp over the modifier |
| RuleFacts.PunishOrder | QMdmmCore/src/qmdmmplayer.cpp:437-467 | RoundDown ≤ Nearest ≤ RoundUp ≤ PlusOne = RoundDown + 1, and Nearest is off by at most half a modifier |
| RuleFacts.DamageEvolves | QMdmmCore/src/qmdmmplayer_p.cpp:27-42 | a blow lowers HP, changes no build, and each death it causes is one kill credited to the striker, capped by what it can still upgrade |
| RuleFacts.PerformEvolves | QMdmmCore/src/qmdmmlogic_p.cpp:71-106 | any action, feasible or not: builds stay, HP never rises, deaths equal kills credited, points stay kills capped by room |
| RuleFacts.SlashCredit | QMdmmCore/src/qmdmmplayer.cpp:633-647 | a slash takes a knife, two living players and one place; it costs the target the knife damage and the slasher the punish, and a death is credited to the other of the two |
| RuleFacts.SlashCost | QMdmmCore/src/qmdmmplayer.cpp:437-467 | a slash takes nothing from the slasher in the Village or unpunished, and else exactly max HP over the modifier in the configured rounding, each rounding told by its inequality |
| RuleFacts.StarMap | QMdmmCore/src/qmdmmcore.cpp:255-262 | any two places are at most two steps apart, and between two cities lies the Village only |
| RuleFacts.LetMoveMeaning | QMdmmCore/src/qmdmmplayer.cpp:515-541 | to let another move is possible iff it is one step that begins or ends where the mover stands: a push or a pull; to let oneself move iff it is a step between the Village and a city |
| RuleFacts.AliveMeaning | QMdmmCore/src/qmdmmplayer.cpp:358-373 | alive iff HP is positive, or zero where zero HP is not death |
| RuleFacts.MoveMeaning | QMdmmCore/src/qmdmmplayer.cpp:500-503 | a move, or letting oneself move, is allowed iff the player lives and exactly one of its place and the target is the Village |
| RuleFacts.StrikeMeaning | QMdmmCore/src/qmdmmplayer.cpp:410-493 | a slash or kick is allowed iff the weapon is there, both live, are two and stand in one place, for a kick not the Village |
| RuleFacts.ShopMeaning | QMdmmCore/src/qmdmmplayer.cpp:387-401 | a purchase is allowed iff the player lives, has none yet and stands in its starting place or, if the rules do not keep shops to it, in any city |
| RuleFacts.KickMeaning | QMdmmCore/src/qmdmmplayer.cpp:656-672 | a kick happens in a city; its victim ends in the Village or dead, the kicker unmoved and unhurt |
| RuleFacts.ActionFrame | QMdmmCore/src/qmdmmlogic_p.cpp:71-106 | an action touches actor and target at most; items are only gained, by buying; only blows change HP and points |
| RuleFacts.UpgradesSucceed | QMdmmCore/src/qmdmmplayer.cpp:729-762 | a list goes through item by item iff no statistic is asked for more than its room, and then adds its counts |
| RuleFacts.AttemptTakes | QMdmmNetworking/src/qmdmmclient_p.cpp:854-881 | the loop that passes over failing items gives each statistic as much of the list as it has room for |
| RuleFacts.SpendInOrderFits | QMdmmCore/src/qmdmmlogic.cpp:393-403 | spending greedily in any order uses every point and respects every limit |
| RuleFacts.SpendPoints | QMdmmCore/src/qmdmmlogic.cpp:393-403 | the three calls of `take` build exactly the greedy list |
| RuleFacts.DefaultUpgradesFeasible | QMdmmCore/src/qmdmmlogic.cpp:389-404 | the server's substitute list is feasible |
| RuleFacts.DefaultUpgradesSpend | QMdmmCore/src/qmdmmlogic.cpp:390-402 | the substitute list spends on the knife as far as it has room, then on the horse, and the rest on max HP |
| RuleFacts.UpgradeSpends | QMdmmCore/src/qmdmmlogic_p.cpp:347-369 | a feasible list shrinks a player's remaining upgrades by exactly its points and keeps the ranges |
| Rps.WinnersCharacterised | QMdmmCore/src/qmdmmcore.cpp:264-307 | somebody wins iff exactly two throws were made, and then exactly those win whose throw beats another's; losers are the rest |
| Rps.GroupByThrow | QMdmmCore/src/qmdmmcore.cpp:281-284 | grouping in any hash order lists under each throw its throwers once each |
| Rps.RockPaperScissorsWinners | QMdmmCore/src/qmdmmcore.cpp:279-307 | the list holds every winner once per loser, and is empty iff not exactly two throws were made |
| Configuration.Deserialize | QMdmmCore/src/qmdmmroom.cpp:380-459 | an object is accepted iff every number is a whole non-negative int, every flag a bool and initial ≤ maximum; the result is its configuration |
| Configuration.ConfigRoundTrip | QMdmmCore/src/qmdmmroom.cpp:335-368 | any configuration of ints survives being written out and read back |
| Configuration.KeysAreKept | QMdmmCore/src/qmdmmroom.cpp:335-459 | each key is read into its own field, and 0, 1, 2 are the first three rounding strategies |
| Configuration.StartsAliveUnlessZero | QMdmmCore/src/qmdmmplayer.cpp:358-362 | an accepted configuration starts players alive iff not (zero HP is death and initial max HP is zero) |
| Configuration.FirstRoundAsks | QMdmmCore/src/qmdmmlogic.cpp:215-228 | the first round start asks everybody, or nobody: exactly when players start dead |
| Configuration.RoundEndsInUpgrade | QMdmmCore/src/qmdmmlogic_p.cpp:302-335 | a round that ends leads to the upgrades iff anything can be upgraded, and stalls otherwise |
| TwoPlayers.StallIsReached | QMdmmCore/src/qmdmmlogic_p.cpp:322-335 | for every configuration with nothing to upgrade and a knife that hurts: a match of two from the empty room, by legal replies only, ends in a round with nobody waited for |
| TwoPlayers.FixedStatsStall | QMdmmCore/src/qmdmmlogic_p.cpp:322-335 | an accepted configuration for which four turns are enough |
| Configuration.StalledForGood | QMdmmCore/src/qmdmmlogic_p.cpp:322-335 | a stalled engine never moves again in any legal run |
| Accounting.DealtIsAllotment | QMdmmCore/src/qmdmmlogic_p.cpp:213-232 | the hand-out of leftovers, from any negotiable state, gives orders 1..N one owner each and every winner exactly its share, and changes no settled order |
| Accounting.LeftoversInNameOrder | QMdmmCore/src/qmdmmlogic_p.cpp:217-232 | of two leftover orders the lower goes to the lesser name or the same |
| Accounting.OwedAddsUp | QMdmmCore/src/qmdmmlogic_p.cpp:184-205 | what the winners are still owed is together exactly the number of free orders, so the leftover index stays in range |
| Accounting.SettleKeeps | QMdmmCore/src/qmdmmlogic_p.cpp:259-267 | giving uncontested orders away moves claims to holdings one for one |
| Accounting.PicksSplit | QMdmmCore/src/qmdmmlogic.cpp:294-304 | in a valid list, distinct orders and yields add up to its length |
| Accounting.TakePicksKeeps | QMdmmCore/src/qmdmmlogic.cpp:282-327 | a reply, good or replaced, moves pending selections to claims and yields one for one, for every player |
| Invariants.RoundEndsWithPoints | QMdmmCore/src/qmdmmplayer_p.cpp:36-41 | when a round ends somebody holds a point iff anything can be upgraded |
| Invariants.StartActionEnters | QMdmmCore/src/qmdmmlogic_p.cpp:302-320 | from the action phase the engine enters a phase whose invariant holds, having asked once each exactly the players it then waits for |
| Invariants.StartActionOrderEnters | QMdmmCore/src/qmdmmlogic_p.cpp:184-251 | both ways out of startActionOrder - leftovers dealt, or picks asked for - enter a phase whose invariant holds, having asked once each exactly those it waits for |
| Invariants.StartRpsForActionOrderEnters | QMdmmCore/src/qmdmmlogic_p.cpp:259-286 | after settling, the throw for the lowest contested order, or the way on to picks or the result, asks once each exactly those then waited for |
| Steps.StepKeeps | QMdmmCore/src/qmdmmlogic.cpp:176-413 | every slot call, by anybody and with any argument, keeps the invariant: ranges, credited kills, accounting of selections, feasible stored lists |
| Steps.TakePicksPicks | QMdmmCore/src/qmdmmlogic.cpp:282-327 | no order is claimed twice by one player or after it has an owner, and every selection stays accounted for |
| Steps.ActionKeepsRound | QMdmmCore/src/qmdmmlogic_p.cpp:71-106 | an action keeps the crediting of kills and revives nobody |
| Steps.StoredListFits | QMdmmCore/src/qmdmmlogic.cpp:375-413 | the list stored for a reply, as sent or in its stead, is feasible |
| Slots.StoredList | QMdmmCore/src/qmdmmlogic.cpp:375-413 | stored as sent iff one item per point and within the maxima; else every point is spent knife first, then horse, then max HP; nobody else's list changes |
| Slots.StoredInEveryRun | QMdmmCore/src/qmdmmlogic.cpp:375-413 | the same in every state of any run |
| Slots.FirstThrowsDecide | QMdmmCore/src/qmdmmlogic_p.cpp:150-166 | in a legal step the last throw is announced; if it decides, the winners are exactly those who beat somebody and each is owed one order per loser, else everybody throws again |
| Slots.PicksBecomeClaims | QMdmmCore/src/qmdmmlogic.cpp:282-327 | picks are taken iff right in number, free and distinct; they become the player's claims and yields and nobody else's, a bad list yields all |
| Slots.LastPicksGoOn | QMdmmCore/src/qmdmmlogic_p.cpp:253-286 | after the last picks sole claims are settled, and those who want the lowest contested order, and only they, are asked to throw for it |
| Slots.FirstReplyStands | QMdmmCore/src/qmdmmlogic.cpp:238-413 | a reply that completes nothing only adds to what is recorded; a recorded reply is never replaced |
| Slots.RoundCloses | QMdmmCore/src/qmdmmlogic_p.cpp:338-381 | the last list carries out everybody's; with somebody at all three maxima exactly those are announced as champions and all statistics are initial again, else the lists are announced |
| Slots.AskedForItsPoints | QMdmmCore/src/qmdmmlogic_p.cpp:322-335 | whoever is asked to upgrade is told its own points |
| Slots.JoinsFresh | QMdmmCore/src/qmdmmlogic.cpp:176-187 | who joins starts with the configured statistics and nothing else, in the Village, and sets the others back to the start |
| Slots.LeavesAlone | QMdmmCore/src/qmdmmlogic.cpp:196-207 | who leaves takes only itself and sets the others back to the start |
| Slots.PlacesChangeByOneStep | QMdmmCore/src/qmdmmplayer.cpp:500-541 | whoever sends what, between round starts a place changes only between the Village and another place |
| Runs.ReplyProgress | QMdmmCore/src/qmdmmlogic.cpp:238-413 | a reply by a player waited for is taken; it is the last and the engine enters a new phase, or it is only recorded |
| Runs.NoDeadlock | QMdmmCore/src/qmdmmlogic_p.cpp:135-381 | in every legal run the open requests are exactly one for each player the phase waits for, and somebody is waited for unless the configuration leaves nothing to upgrade |
| Runs.StepRoom | QMdmmCore/src/qmdmmlogic.cpp:176-413 | throws and picks leave the room alone; a round start prepares it and an action performs on it, and nothing else |
| Negotiation.ResultIsComplete | QMdmmCore/src/qmdmmlogic_p.cpp:217-232 | every announced result is a total map on 1..N giving each winner as many orders as there are losers, whoever replied |
| Negotiation.EveryResultIsComplete | QMdmmCore/src/qmdmmlogic_p.cpp:217-232 | the same after any run from the empty room, whoever replied |
| Negotiation.LeftoversInEveryRun | QMdmmCore/src/qmdmmlogic_p.cpp:184-232 | in any run leftovers go to a lone winner or to those who yielded that many |
| Negotiation.DealtAtOnce | QMdmmCore/src/qmdmmlogic_p.cpp:150-232 | straight after the throws a result is announced only if there is a single winner |
| Contests.ContestedGoesToClaimant | QMdmmCore/src/qmdmmlogic_p.cpp:259-300 | over any continuation: a contested order stays among its claimants, and belongs to one of them before picks are asked for again or the result is out; settled orders stay settled |
| OrderThrows.LastThrowDecides | QMdmmCore/src/qmdmmlogic_p.cpp:288-300 | when the last throw for an order is in and exactly two throws were made, exactly those whose throw beats another's are left: one owns the order, several strive for it again and are asked; after a tie all are; no other order is touched |
| OrderThrows.ThrowsDecideTheRace | QMdmmCore/src/qmdmmlogic_p.cpp:259-300 | in any legal run, who strives for or owns a once contested order is exactly who strove for it and has beaten somebody in every decided throw for it since |
| Contests.PicksAreHonoured | QMdmmCore/src/qmdmmlogic_p.cpp:253-286 | when the last picks arrive an order with one claimant is that player's at once, and a contested one stays among its claimants |
| Contests.LeftoversOnlyToYielders | QMdmmCore/src/qmdmmlogic_p.cpp:184-232 | a result gives nobody but a lone winner more orders it neither owned nor claimed than it has yielded |
| Measure.ReplyLowers | QMdmmCore/src/qmdmmlogic_p.cpp:206-300 | every reply strictly lowers (open selections, stage, claims, missing replies), except one completing a tie, which only asks again |
| Termination.NegotiationEnds | QMdmmCore/src/qmdmmlogic_p.cpp:206-300 | a negotiation over n orders among p players takes at most (2n+2)(n+1)(p+1) replies and p more per tie |
| GameLength.UpgradesSpendPoints | QMdmmCore/src/qmdmmlogic_p.cpp:338-381 | conservation: closing a round removes from the total room exactly the points held |
| GameLength.RoomShrinks | QMdmmCore/src/qmdmmlogic_p.cpp:322-381 | in a game with fixed players no event adds room and a closing round takes at least one upgrade away |
| GameLength.GameEnds | QMdmmCore/src/qmdmmlogic_p.cpp:322-381 | with n players and R upgrades each at most n(R-1) rounds close without ending the game |
| ActionPhase.TurnFollows | QMdmmCore/src/qmdmmlogic_p.cpp:302-335 | after an action: round over and upgrades asked, or the next order with a living owner, all between being dead players', or throws again |
| ActionPhase.TurnsAscend | QMdmmCore/src/qmdmmlogic_p.cpp:302-320 | over a whole action phase orders are asked strictly ascending, and a skipped order's owner is dead for the rest of it |
| ActionPhase.RoundStartsEven | QMdmmCore/src/qmdmmplayer.cpp:771-779 | everybody starts a round at full HP, bare, without points, in a city of its own, dealt in name order |
| ActionPhase.NobodyBuysInTheVillage | QMdmmCore/src/qmdmmplayer.cpp:387-401 | in any run whoever can buy stands in a city, wherever the shops are |
| ActionPhase.DeathIsPermanent | QMdmmCore/src/qmdmmplayer.cpp:197-215 | HP never rises while a round lasts and the dead stay dead, whoever sends what |
| ActionPhase.KillsAreCredited | QMdmmCore/src/qmdmmplayer_p.cpp:27-42 | in any run a player's points are its kills capped by its room, kills number the dead, and at the round's end somebody has a point iff anything can be upgraded |
| ActionPhase.SurvivorsByPhase | QMdmmCore/src/qmdmmlogic_p.cpp:322-341 | at least two players live in the playing phases and at most one in the upgrades |
| ActionPhase.StoredListsSucceed | QMdmmCore/src/qmdmmlogic_p.cpp:347-369 | every list stored in any run spends all points and goes through item by item, so the assertion never fails |
| ActionPhase.StatisticsStayInRange | QMdmmCore/src/qmdmmplayer.cpp:549-574 | no statistic leaves its configured range in any run |
| Mirror.ActionMirrored | QMdmmNetworking/src/qmdmmclient_p.cpp:599-683 | a client with an equal room accepts an action the server took iff the actor lives and the place is on the map, and then has the server's room |
| Mirror.OffTheMap | QMdmmNetworking/src/qmdmmclient_p.cpp:661-668 | a move the server accepts and every client refuses |
| Mirror.UpgradeMirrored | QMdmmNetworking/src/qmdmmclient_p.cpp:692-735 | the lists announced when a round closes all succeed on the mirror and give the server's room |
| Mirror.SnapshotBuildsLobby | QMdmmNetworking/src/qmdmmlogicrunner.cpp:106-119 | players announced in any order, with repeats, build the same room of fresh players |
| Mirror.GameMirrored | QMdmmNetworking/src/qmdmmclient_p.cpp:528-735 | through any legal game the folded broadcasts give the server's room, none refused |
| Mirror.MirrorEqualsRoom | QMdmmNetworking/src/qmdmmclient_p.cpp:427-735 | from an empty room, through players joining and leaving and then any legal game, the folded broadcasts give the server's room, none refused |
| Mirror.LateJoinerMirrors | QMdmmNetworking/src/qmdmmlogicrunner.cpp:106-119 | for a client that joins a room with players in it: after its snapshot in any order, further joins and leaves and any legal game, its room is the server's, none refused |
| Mirror.Resynchronises | QMdmmCore/src/qmdmmplayer.cpp:771-779 | however much of a round a client has missed, the round's upgrades apply to its stale room and after the next round start it equals the server's |
| Defaults.OfferSuffices | QMdmmCore/src/qmdmmlogic_p.cpp:237-250 | a player is never asked for more selections than there are free orders |
| Defaults.DefaultPicksAccepted | QMdmmNetworking/src/qmdmmserverconnection_p.cpp:402-413 | every request for picks offers enough orders, and taking the first of them is accepted as sent |
| Defaults.DefaultStaysAccepted | QMdmmNetworking/src/qmdmmserverconnection_p.cpp:402-413 | in any run, from the request until its player answers, the default picks are accepted as sent, whatever the others reply meanwhile |
| Defaults.OfferStands | QMdmmCore/src/qmdmmlogic.cpp:282-327 | another player's picks leave an offer and its selections as they were |
| Connection.ExactlyOneAnswer | QMdmmNetworking/src/qmdmmserverconnection_p.cpp:142-193 | over any interleaving of requests, replies, bad packets, timers, drops and reconnects: answers are requests less the open one, each of its request's kind, and an open request is never orphaned |
| Connection.WhoseAnswer | QMdmmNetworking/src/qmdmmserverconnection_p.cpp:437-503 | the answer is the peer's own iff the packet is a decodable reply to the open request; otherwise it is the default or none |
| Connection.ReplyRoundTrip | QMdmmNetworking/src/qmdmmclient_p.cpp:884-930 | whatever answer a client sends is decoded as it was meant, unless its list is longer than was asked for, which is refused |
| Connection.AnswerArrives | QMdmmNetworking/src/qmdmmserverconnection_p.cpp:472-491 | sent through the socket, it is the one answer that closes the request |
| Connection.WireActions | QMdmmCore/src/qmdmmcoreglobal.h:93-102 | the seven action numbers, each decoded with its target and place where it takes them |
| Connection.WireNumbers | QMdmmCore/src/qmdmmcoreglobal.h:81-110 | the three throw numbers and the three upgrade numbers |
| Connection.DefaultMeaning | QMdmmNetworking/src/qmdmmserverconnection_p.cpp:396-435 | the default is a throw by chance, the first orders offered, no action, or an empty list |
| Connection.RequestOpens | QMdmmNetworking/src/qmdmmserverconnection_p.cpp:170-193 | a request is sent and timed with a socket and given a deferred default without one; deferred defaults come due one by one |
| Connection.WhenClosed | QMdmmNetworking/src/qmdmmserverconnection_p.cpp:437-503 | an open request is closed iff its matching reply came, its timer ran out, or it is abandoned |
| Connection.WhoIsDropped | QMdmmNetworking/src/qmdmmserverconnection_p.cpp:437-503 | a bound socket goes iff the transport drops it or, signalled at once, the packet or silence offends |
| Connection.OutOfRangeThrow | QMdmmNetworking/src/qmdmmserverconnection_p.cpp:216-227 | a throw is refused iff it is no number or the low byte of its int value names no throw |
| Connection.OutOfRangeAction | QMdmmNetworking/src/qmdmmserverconnection_p.cpp:291-344 | an action is refused iff its number is missing, its low byte names no action, or the target or place it needs is missing or of the wrong type |
| Connection.OutOfRangeItems | QMdmmNetworking/src/qmdmmserverconnection_p.cpp:371-389 | a list is refused iff some element is no number or its low byte names no upgrade; else every element is decoded |
| Connection.NumbersRefused | QMdmmNetworking/src/qmdmmserverconnection_p.cpp:261-266 | picks are refused iff some element is no number; else they are the int values |
| Connection.WrappedThrow | QMdmmNetworking/src/qmdmmserverconnection_p.cpp:219-227 | 256, 0.5 and 3e9 are taken for a throw, 3 is not |
| Connection.WrappedAction | QMdmmNetworking/src/qmdmmserverconnection_p.cpp:296-309 | 258 and 0.5 are taken for actions, 7 is not |
| Connection.WrappedItem | QMdmmNetworking/src/qmdmmserverconnection_p.cpp:375-385 | 257 and 0.5 are taken for upgrades, 3 is not |
| Connection.TimerOutlivesRequest | QMdmmNetworking/src/qmdmmserverconnection_p.cpp:716-724 | a step leaves the request timer running with no request open iff the timer was running and the event abandons its request, which is told from event and state before |
| Connection.TimerWaitsUnlessAbandoned | QMdmmNetworking/src/qmdmmserverconnection_p.cpp:437-503 | over any run the timer runs only while a request waits iff no request is abandoned while timed |
| Connection.StaleTimerDropsPeer | QMdmmNetworking/src/qmdmmserverconnection_p.cpp:691-700 | a run in which the stale timer drops a peer that owes nothing |
| System.HeadFindsNoneOpen | QMdmmNetworking/src/qmdmmserverconnection_p.cpp:170-193 | a request reaches a connection only while none is open there |
| System.OnlyAskedPlayersReply | QMdmmNetworking/src/qmdmmserverconnection_p.cpp:472-491 | whatever the connections do, the engine only sees legal runs |
| System.SystemNeverStuck | QMdmmNetworking/src/qmdmmserverconnection_p.cpp:170-193 | while a round is on, a message is under way or a connection has a request its peer can answer or a default is due |
| CatchUp.ReconnectIsPrecise | QMdmmNetworking/src/qmdmmserverconnection_p.cpp:648-669 | a returning client is in step iff it is still in the server's round and nothing it lacks was cleared |
| CatchUp.StaysInStep | QMdmmNetworking/src/qmdmmserverconnection_p.cpp:574-646 | broadcasts, clearings, round starts, arrivals and drops keep a client in step |
| CatchUp.PreciseCatchUp | QMdmmNetworking/src/qmdmmclient_p.cpp:340-349 | over any drops and reconnections: the received events are a prefix of the round's, the counter is its length, and prefix and flight are all of it while connected |
| CatchUp.RoundStartHeals | QMdmmNetworking/src/qmdmmlogicrunner_p.cpp:277-293 | whatever went wrong, a client connected when a round begins is in step again |
| CatchUp.UnclearedLogIsEnough | QMdmmNetworking/src/qmdmmserverconnection_p.cpp:648-656 | with no clearing since the round began, the replay is exactly what was missed |
| CatchUp.StaleCounterSkipsEvents | QMdmmNetworking/src/qmdmmserverconnection_p.cpp:648-656 | a client whose round-start notice was lost with its connection is not sent the new round's first event |
| CatchUp.OutageIsPrecise | QMdmmNetworking/src/qmdmmserverconnection_p.cpp:648-669 | a client drops out, misses any events and returns: in step iff the round start had reached it and either nothing was cleared this round or nothing was lost |
| CatchUp.OutageAcrossClearing | QMdmmNetworking/src/qmdmmlogicrunner_p.cpp:296-306 | the same with the round's log cleared while it was away: in step iff it had everything, or there was nothing to have |
| CatchUp.ClearedUnderWay | QMdmmNetworking/src/qmdmmlogicrunner_p.cpp:296-306 | an event under way when the log is cleared and lost in a drop is not replayed, though nothing was cleared during the outage |
| CatchUp.UnclearedIsCareful | QMdmmNetworking/src/qmdmmserverconnection_p.cpp:648-669 | from the arrival of a round start until the log is first cleared, every reconnection of every run is precise |
| Heartbeat.SilenceIsReal | QMdmmNetworking/src/qmdmmclient_p.cpp:1153-1178 | the server is given up only over a ping unanswered for an interval since the last pong or connect |
| Heartbeat.AnsweringServerIsKept | QMdmmNetworking/src/qmdmmclient_p.cpp:1153-1178 | a server that answers each ping within the interval is kept, however late the timers |
| Heartbeat.JudgedExactly | QMdmmNetworking/src/qmdmmclient_p.cpp:1153-1178 | the server is given up iff the first ping still waiting has waited for an interval |
| Heartbeat.ReadingIsFreshest | QMdmmNetworking/src/qmdmmclient_p.cpp:261-296 | the stored round trip is that of the largest stamp answered on this connection, whatever the order of pongs; of the latest pong if all stamps are negative; none if nothing was answered |
| Heartbeat.ClientHeartbeat.NotifyPongServer | QMdmmNetworking/src/qmdmmclient_p.cpp:261-296 | the fields stay the window and the reading of everything that happened |
| Heartbeat.ClientHeartbeat.HeartbeatTimeout | QMdmmNetworking/src/qmdmmclient_p.cpp:1141-1150 | a ping goes out iff there is a socket, and opens the window if it is the first |
| Heartbeat.ClientHeartbeat.ConnectSocket | QMdmmNetworking/src/qmdmmclient_p.cpp:1072-1102 | a connection starts a window, and only if the host is known |
| Heartbeat.ClientHeartbeat.HandleSocketGone | QMdmmNetworking/src/qmdmmclient_p.cpp:1040-1069 | the reading goes with the connection, once |
| Heartbeat.ClientHeartbeat.PongDeadlinePassed | QMdmmNetworking/src/qmdmmclient_p.cpp:1153-1178 | the connection is given up iff the history judges it so, else it gets another window |
| Bots.SelectTarget | QMdmmBot/src/bot.cpp:212-235 | a living peer with the best positive score, if any scores |
| Bots.AttackTarget | QMdmmBot/src/bot.cpp:237-263 | a peer standing here, the best scored if any scores, iff one stands here |
| Bots.Opponents | QMdmmBot/src/bot.cpp:149-159 | the loop lists the living but oneself, in room order |
| Bots.SelectionsAreSighted | QMdmmBot/src/bot.cpp:212-263 | whatever the scores, both selections come up with living peers other than oneself, the struck one standing here |
| Bots.CityToShopIn | QMdmmBot/src/knifepreferredbot.cpp:65-71 | the loop finds a city iff one is a step away |
| Bots.HorseActionIsLegal | QMdmmBot/src/horsepreferredbot.cpp:67-133 | the horse style's action is feasible and on the map for any scores |
| Bots.KnifeActionIsLegal | QMdmmBot/src/knifepreferredbot.cpp:43-118 | the knife style's action is feasible and on the map for any scores |
| Bots.HorsePrefers | QMdmmBot/src/horsepreferredbot.cpp:67-133 | a kick before a safe slash before the horse before a pull before the knife before a walk |
| Bots.KnifePrefers | QMdmmBot/src/knifepreferredbot.cpp:43-118 | the knife or a step to it before a safe or worthwhile slash before a kick before a horse, bought only while somebody survives two slashes, before a walk |
| Bots.WalksLeadSomewhere | QMdmmBot/src/horsepreferredbot.cpp:212-250 | a walk into a city leads to a living peer or to a shop |
| Bots.HorseAnswer | QMdmmBot/src/horsepreferredbot.cpp:67-133 | the handler, selections and all, gives an action that is feasible and on the map |
| Bots.KnifeAnswer | QMdmmBot/src/knifepreferredbot.cpp:43-118 | the handler, selections and all, gives an action that is feasible and on the map |
| Bots.HorseBotSurvivesItsSlash | QMdmmBot/src/bot.cpp:274-291 | a horse bot never dies of its own slash |
| Bots.RecklessSlashKills | QMdmmBot/src/knifepreferredbot.cpp:174-206 | the reckless slash kills iff zero HP is death or the blow goes below zero |
| Bots.RecklessSlashSpares | QMdmmBot/src/knifepreferredbot.cpp:174-206 | a legal match in which the knife style takes the reckless slash, dies of it and leaves its peer alive at zero |
| Bots.PreparedOnMap | QMdmmCore/src/qmdmmroom.cpp:708-717 | seats are cities 1..n |
| Bots.ActionOnMap | QMdmmCore/src/qmdmmplayer.cpp:656-714 | bounded actions keep everybody on the map |
| Bots.OnMapRun | QMdmmCore/src/qmdmmroom.cpp:708-717 | over any run in which nobody names a place off the map, everybody stays on it |
| Bots.BotActionsAccepted | QMdmmBot/src/horsepreferredbot.cpp:67-133 | on an equal mirror both styles' actions are accepted as sent, by the engine and by every client |
| Bots.BotsActByTheRules | QMdmmBot/src/bot.cpp:212-263 | in every state such a run reaches, with any scores, both styles' actions are accepted as sent and stay on the map |
| Bots.BotUpgradesAccepted | QMdmmBot/src/horsepreferredbot.cpp:135-170 | both styles' upgrade lists are accepted as sent and no bot gives up |
| Bots.ListsByPreference | QMdmmBot/src/horsepreferredbot.cpp:135-170 | horse, knife, max HP for one style and knife, max HP, horse for the other, each as far as it has room |
| Bots.BotPicksAccepted | QMdmmBot/src/bot.cpp:308-337 | early or late, the orders asked for are accepted as sent |
| Bots.DesiredAtOneEnd | QMdmmBot/src/bot.cpp:308-337 | held back, the orders asked for are the last on offer, else the first, as many as asked |
| Bots.BotsPickByTheRules | QMdmmBot/src/bot.cpp:308-337 | in every state of any run, picks and upgrade lists of both styles are accepted as sent |
| RoomClasses.Player.SetHp | QMdmmCore/src/qmdmmplayer.cpp:197-215 | sets HP and tells whether this change took the life |
| RoomClasses.Player.ApplyDamage | QMdmmCore/src/qmdmmplayer_p.cpp:27-42 | hurts the target and credits the striker, in place |
| RoomClasses.Player.Slash | QMdmmCore/src/qmdmmplayer.cpp:633-647 | succeeds iff canSlash; both players' new state, the punish after the strike |
| RoomClasses.Player.Kick | QMdmmCore/src/qmdmmplayer.cpp:656-672 | succeeds iff canKick; a survivor is in the Village |
| RoomClasses.Player.LetMoveTo | QMdmmCore/src/qmdmmplayer.cpp:701-714 | succeeds iff canLetMove and moves the target only |
| RoomClasses.Player.UpgradeAll | QMdmmCore/src/qmdmmlogic_p.cpp:347-369 | the item loop succeeds iff every item does, and then gives the list's effect |
| RoomClasses.Player.PrepareForRoundStart | QMdmmCore/src/qmdmmplayer.cpp:771-779 | full HP, bare, seated, no points; statistics untouched |
| RoomClasses.SlashTouchesTwo | QMdmmCore/src/qmdmmplayer.cpp:633-647 | what the two players do to each other is the room-wide effect of a slash |
| RoomClasses.KickTouchesTwo | QMdmmCore/src/qmdmmplayer.cpp:656-672 | what the two players do to each other is the room-wide effect of a kick |
| RoomClasses.Room.AddPlayer | QMdmmCore/src/qmdmmroom.cpp:509-520 | a fresh player iff the name is new, kept in name order |
| RoomClasses.Room.RemovePlayer | QMdmmCore/src/qmdmmroom.cpp:527-538 | that player goes, iff it was there |
| RoomClasses.Room.AlivePlayerNames | QMdmmCore/src/qmdmmroom.cpp:650-660 | the living, in name order |
| RoomClasses.Room.IsGameOver | QMdmmCore/src/qmdmmroom.cpp:683-700 | over iff somebody can upgrade nothing; the champions in name order |
| RoomClasses.SeatInOrder | QMdmmCore/src/qmdmmroom.cpp:708-717 | the i-th name sits on seat i |
| RoomClasses.Room.PrepareForRoundStart | QMdmmCore/src/qmdmmroom.cpp:708-717 | every player is prepared, seated by the rank of its name |
| RoomClasses.Room.ResetUpgrades | QMdmmCore/src/qmdmmroom.cpp:725-732 | every player's statistics are the initial ones |
| RoomClasses.Room.Act | QMdmmCore/src/qmdmmlogic_p.cpp:71-106 | a feasible action in place is the action on the room's values |
| RoomClasses.Room.ApplyLists | QMdmmNetworking/src/qmdmmclient_p.cpp:854-881 | in any hash order: succeeds iff every list does, and then every named player has its list's effect |
| LogicLoops.DropConfirmed | QMdmmCore/src/qmdmmlogic_p.cpp:195-198 | counts and free orders after the settled ones are taken off, in any hash order |
| LogicLoops.HandOut | QMdmmCore/src/qmdmmlogic_p.cpp:222-229 | the nested loop deals the free orders in blocks, in name order, never past the end |
| LogicLoops.SettleSole | QMdmmCore/src/qmdmmlogic_p.cpp:261-267 | exactly the orders with one claimant go to it and leave the multi-hash |
| LogicLoops.DropLosers | QMdmmCore/src/qmdmmlogic_p.cpp:292-297 | only the winners still strive for the order |
| LogicLoops.ReadPicks | QMdmmCore/src/qmdmmlogic.cpp:287-313 | accepted iff the list is valid; then the distinct orders and the number of yields, else all yielded |
| LogicLoops.InsertClaims | QMdmmCore/src/qmdmmlogic.cpp:315-316 | each chosen order gains the player once |
| LogicClass.CountOwed | QMdmmCore/src/qmdmmlogic_p.cpp:184-215 | the counting loops give what each winner is owed, what it still strives for and the free orders |
| LogicClass.FindTurn | QMdmmCore/src/qmdmmlogic_p.cpp:304-313 | the loop finds the next order with a living owner, if any |
| LogicClass.Logic.StartRpsForAction | QMdmmCore/src/qmdmmlogic_p.cpp:135-148 | clears the throws and asks the living, in name order: new state and messages exactly those of the transition system |
| LogicClass.Logic.RpsForAction | QMdmmCore/src/qmdmmlogic_p.cpp:150-166 | with the last throw in: announces it and begins a negotiation or, after a tie, asks again - exactly as the transition system |
| LogicClass.Logic.StartActionOrder | QMdmmCore/src/qmdmmlogic_p.cpp:184-251 | through the counting and dealing loops: hands out the leftovers and acts, or asks every striver for its picks - exactly as the transition system |
| LogicClass.Logic.StartRpsForActionOrder | QMdmmCore/src/qmdmmlogic_p.cpp:259-286 | settles what one player wants, then throws for the lowest contested order or goes on - exactly as the transition system |
| LogicClass.Logic.RpsForActionOrder | QMdmmCore/src/qmdmmlogic_p.cpp:288-300 | with the last throw in: the losers leave the order and settling resumes - exactly as the transition system |
| LogicClass.Logic.StartAction | QMdmmCore/src/qmdmmlogic_p.cpp:302-320 | asks the next living owner, throws again, or ends the round - exactly as the transition system |
| LogicClass.Logic.StartUpgrade | QMdmmCore/src/qmdmmlogic_p.cpp:322-335 | asks every player with points, in name order, and waits only if there is one - exactly as the transition system |
| LogicClass.Logic.Upgrade | QMdmmCore/src/qmdmmlogic_p.cpp:338-381 | with the last list in: every upgrade succeeds in any hash order, then game over or the result - exactly as the transition system |
| LogicClass.Logic.AddPlayer | QMdmmCore/src/qmdmmlogic.cpp:176-187 | the slot keeps the invariant, adds and resets as the transition system does, and returns whether the call was taken |
| LogicClass.Logic.RemovePlayer | QMdmmCore/src/qmdmmlogic.cpp:196-207 | the slot keeps the invariant, removes and resets as the transition system does, and returns whether the call was taken |
| LogicClass.Logic.RoundStart | QMdmmCore/src/qmdmmlogic.cpp:215-228 | the slot keeps the invariant, seats everybody and asks for throws as the transition system does, iff two are there before a round |
| LogicClass.Logic.RpsReply | QMdmmCore/src/qmdmmlogic.cpp:238-261 | the slot keeps the invariant, records the first throw of a player in either throwing phase as the transition system does, and returns whether it did |
| LogicClass.Logic.ActionOrderReply | QMdmmCore/src/qmdmmlogic.cpp:282-327 | the slot keeps the invariant, records the picks or a full yield as the transition system does, and returns whether the list was taken as sent |
| LogicClass.Logic.ActionReply | QMdmmCore/src/qmdmmlogic.cpp:341-362 | the slot keeps the invariant, acts or does nothing as the transition system does, and returns whether the action was taken as sent |
| LogicClass.Logic.UpgradeReply | QMdmmCore/src/qmdmmlogic.cpp:375-413 | the slot keeps the invariant, stores the list or a feasible one as the transition system does, and returns whether the list was taken as sent |
| ServerConnectionClass.ReadNumbers | QMdmmNetworking/src/qmdmmserverconnection_p.cpp:261-266 | the loop refuses the array iff some element is no number, and else gives every int value |
| ServerConnectionClass.ReadItems | QMdmmNetworking/src/qmdmmserverconnection_p.cpp:372-388 | the loop refuses the array iff some element is no number or no upgrade by its low byte, and else gives every upgrade |
| ServerConnectionClass.TakeFirst | QMdmmNetworking/src/qmdmmserverconnection_p.cpp:402-413 | the default picks are the first offered orders, never past the array |
| ServerConnectionClass.ServerConnection.AddRequest | QMdmmNetworking/src/qmdmmserverconnection_p.cpp:170-193 | opens the request, sends it iff there is a socket and else schedules its default, and keeps one answer per request |
| ServerConnectionClass.ServerConnection.PacketReceived | QMdmmNetworking/src/qmdmmserverconnection_p.cpp:437-503 | for every packet, the step of the connection: answer, default, error or nothing; one answer per request is kept |
| ServerConnectionClass.ServerConnection.MatchingReply | QMdmmNetworking/src/qmdmmserverconnection_p.cpp:472-491 | a reply to the open request answers it once: its value, or the default for a null or a bad value, even if the drop is signalled meanwhile |
| ServerConnectionClass.ServerConnection.OnSocketDisconnected | QMdmmNetworking/src/qmdmmserverconnection_p.cpp:142-168 | the socket goes, the agent is marked offline and unmanaged, an open request gets its default, and the room is told once |
| ServerConnectionClass.ServerConnection.RequestTimeout | QMdmmNetworking/src/qmdmmserverconnection_p.cpp:691-700 | the peer is dropped and an open request gets its default, once |
| ServerConnectionClass.ServerConnection.PeerWentSilent | QMdmmNetworking/src/qmdmmserverconnection_p.cpp:702-714 | the peer is dropped and an open request gets its default, once |
| ServerConnectionClass.ServerConnection.ExecuteDefaultReply | QMdmmNetworking/src/qmdmmserverconnection_p.cpp:716-724 | closes the open request with its default, and does nothing if none is open |
| ServerConnectionClass.ServerConnection.ReplayMissedRoundEvents | QMdmmNetworking/src/qmdmmserverconnection_p.cpp:648-656 | sends exactly the log from the reported count on |
| ServerConnectionClass.ServerConnection.Reconnect | QMdmmNetworking/src/qmdmmserverconnection_p.cpp:658-669 | binds the socket and replays |
| LogicRunnerClass.DenseOrder | QMdmmNetworking/src/qmdmmlogicrunner_p.cpp:215-222 | entry i of the list is the owner of order i + 1 |
| LogicRunnerClass.AllotmentList | QMdmmNetworking/src/qmdmmlogicrunner_p.cpp:215-222 | the list of a complete result names every winner once per loser and nobody else |
| LogicRunnerClass.LogicRunner.ActionOrderResult | QMdmmNetworking/src/qmdmmlogicrunner_p.cpp:215-226 | the dense list is sent over every socket and logged at every connection |
| LogicRunnerClass.LogicRunner.RoundOver | QMdmmNetworking/src/qmdmmlogicrunner_p.cpp:296-306 | every log is emptied and the end of the round sent over every socket |
| LogicRunnerClass.LogicRunner.GameOver | QMdmmNetworking/src/qmdmmlogicrunner_p.cpp:308-318 | the winners are sent over every socket and the game is over |
| LogicRunnerClass.LogicRunner.UpgradeResult | QMdmmNetworking/src/qmdmmlogicrunner_p.cpp:259-294 | nobody away: the upgrades and then the next round's start are sent, logs emptied, every socket in place; else those online, each once, are announced as winners |
| ClientClass.Client.NotifyPlayerAdded | QMdmmNetworking/src/qmdmmclient_p.cpp:427-491 | the handler does what the mirror folds; repeats are harmless |
| ClientClass.Client.NotifyPlayerRemoved | QMdmmNetworking/src/qmdmmclient_p.cpp:493-519 | the player, the client itself included, leaves the mirror as the fold has it; refused iff it is not in the room |
| ClientClass.Client.NotifyRoundStart | QMdmmNetworking/src/qmdmmclient_p.cpp:528-538 | the mirror is prepared as the fold has it, and the event counter is zero |
| ClientClass.Client.NotifyAction | QMdmmNetworking/src/qmdmmclient_p.cpp:599-683 | the action is carried out as the fold has it and counted; refused iff the fold refuses, and the room is then as before |
| ClientClass.Client.NotifyUpgrade | QMdmmNetworking/src/qmdmmclient_p.cpp:692-735 | the lists are carried out as the fold has it, in any hash order, and counted; refused iff the fold refuses, the room then being as far upgraded as it can be, or untouched if a stranger is named |

## Left out

- Player names are ranks: a natural number stands for a name's place in string order, the empty string being the least; how strings compare is not modelled.
- 32-bit overflow of HP, damage and of `maxHp * 2` or `maxHp + modifier - 1` in the punish formulas; all game integers are unbounded.
- The counter and log line of a streak of ties, and all other logging.
- The remark on re-entering slots from directly connected signals; emits are queued, as the runner connects them.
- Sockets, transports, wall-clock timers and JSON text: only the events and values they deliver appear, JSON numbers as reals.
- Whether a transport signals its disconnection within `setError` or later, and which default throw is drawn, are parameters of a step.
- ClientClass.Client.NotifyAction: for a client that has been told of itself, which is the first player it is told of.
- ClientClass.Client.NotifyUpgrade: for a client that has been told of itself, likewise.
- ClientClass.Client.NotifyPlayerRemoved: what later handlers do through the client's pointer to its own agent, which is deleted if the client itself is removed; a server does not tell a client of its own removal.
- ServerConnectionClass.ServerConnection.Reconnect: for a connection without a socket; a peer that declares itself offline over a live socket is not considered.
- A changed configuration during a match; the client has the server's configuration from the start.
- Bots: the revenge and threat scores are arbitrary numbers, whether an early order is wanted is an arbitrary flag, and sorting the offer is a library call.
- Liveness of a single round: players may tie or do nothing for ever, so rounds are bounded and not the steps of a round.
- What happens after a game over: the room is torn down.
- Agent state flags beyond online and managed and a client's own declaration of them, speech, observing, sign-in, room allocation and the HTTP control plane: bookkeeping with easy properties only.
