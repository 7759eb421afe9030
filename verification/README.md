# Verified model of the guandan game server

This Dafny project models the rules and the concurrency core of a C++ server for the card game guandan (four or six
players) and proves what its rounds, tribute phase, analyser, bot, task queues and codecs promise.

- **Round engine.** `Cards`, `Decks`, `Hands`, `State`, `Seats`, `Turns`, `FinishRanks`, `Settlements`, `Progress` and
  `Round` model the deal, plays and passes, finish ranks, settlement and levels. `RoundProofs`, `Runs`, `Conservation`,
  `Termination` and `Liveness` prove statements about every run of a round: the trick invariant, conservation of cards,
  a bound on the number of moves, and that play never gets stuck.
- **Tribute.** `Pickers`, `Tributes` and `Exchange` model the one-shot tribute round, `TributePhase` the submissions in
  any order. `Confluence`, `AnyOrder`, `OneShot` and `TributeEnds` prove that order does not matter, that the phase
  refines the one-shot round, and exactly when it can be completed; `TributeTurns` says which submissions are accepted,
  `TributeStuck` when the phase gets stuck.
- **Match.** `Match` puts everything together as a function on values, `MatchProofs` proves an invariant of every
  reachable state across rounds. `MatchStarts` says how rounds begin, `MatchEnds` from which states they can be brought
  to their end, `Campaigns` and `MatchCampaign` what the levels are. `Engine` is the engine object: each of its methods
  is proved to have exactly the effect of the match function and to keep the invariant.
- **Patterns.** `Shapes` says what a list of cards with wild cards can be read as, `Patterns` what the analyser returns,
  `Analyzer` is the analyser with its loops, `Readings` the theorems connecting the two; `Rules` and `Bot` are the order
  of patterns and the exhaustive search.
- **Task queues.** `TaskQueues` is a state machine of atomic steps for any number of rooms, posters and workers;
  `TaskOrder` and `TaskProgress` prove order, mutual exclusion, no lost wake-ups and a clean stop.
- **Codecs and indexes.** `Base64`, `CardsJson`, `VoiceRooms`.
- `Lists`, `Options` and `Arithmetic` are small helpers.

Objects of the server whose methods change fields are classes here, and each method is proved against a function of
the old state; the theorems are about those functions.

## Conditions and deviations

- A play that names a card twice is admitted by the code, although the error code for invalid cards is meant to cover
  repeated cards (`server/include/game/types.h:83`). Cards are conserved exactly if no accepted play does so
  (`Conservation.ConservedIffNoRepeats`). Each such play takes no cards and can prolong a round by one turn of answers
  (`Termination.AcceptedMoves`): a round can be kept going for ever that way (`Liveness.RepeatsNeverEnd`), and it can be
  brought to its end from every point (`Liveness.CanComplete`).
- Card ids start at 0, but the tribute code uses 0 for "none", so card 0, a two of spades, can be neither paid nor
  returned. The tribute phase can be completed exactly if the first of the highest cards of every payer that are not wild
  exists and is not card 0, and every recipient then has a card other than card 0 that counts ten or less or is its
  smallest (`TributeEnds.CompletedIffCanSettle`). Two-card rooms can be dealt hands for which it never completes
  (`TributeStuck.TributeCanGetStuck`); where the whole deck is dealt a payer always has a card
  (`TributeStuck.FullHandCanPay`). The bot finds nothing to return exactly if its first smallest card is card 0, although
  another card may be admitted (`Pickers.BotReturnAdmitted`, `Pickers.ZeroHidesTheReturn`).
- In pairs, triples, houses and bombs a wild card extends a group of jokers, unlike `docs/game_rules.md:32` says; the
  model follows the code. Where several windows fit, the lowest is reported.
- The upgrade table in `docs/game_rules.md:73-77` is older than the code, which climbs 6 or 10 minus the rank sum of the
  two best of the winning team; the model follows the code. A test of the four-player double tribute
  (`server/tests/test_tribute.cpp:95-119`) gives ranks 1 and 2 to seats of different teams, for which the code plans a
  single tribute; the model follows the code.
- Ending the tribute phase is a step that may be taken only once the last return is in, as the dispatcher does.
- Ready marks change before and between rounds only, as the room does.

## Model

| member | source | states |
|---|---|---|
| `Decks.CreateFullDeck` | server/src/game/card.cpp:12-28 | The nested loops number the cards 0, 1, 2, … so that card k is the (k mod 54)-th card of one deck: thirteen ranks in each of four suits, then the two jokers |
| `Decks.Deck.Deal` | server/src/game/deck.cpp:27-60 | The block and the round-robin deal give exactly the hands of the specification, with the three error cases in the code's order |
| `Decks.DealConserves` | server/src/game/deck.cpp:27-60 | Every deal that succeeds gives hands of equal size that together are the multiset of cards taken from the top, the whole deck when dealt evenly |
| `Decks.RoundRobinSizes` | server/src/game/deck.cpp:50-58 | After q full turns and r more cards the first r seats are exactly one card ahead |
| `Decks.RoundRobinCards` | server/src/game/deck.cpp:50-58 | Dealt one by one, the j-th card of seat p is card j*n+p of the deck |
| `Decks.BlockHands` | server/src/game/deck.cpp:38-48 | Dealt in blocks, seat p holds the cards p*k up to p*k+k of the deck |
| `Decks.ShuffledIdsDistinct` | server/src/game/deck.cpp:15-18 | No id occurs twice in any permutation of a full deck |
| `Hands.Hand.Remove` | server/src/game/hand.cpp:20-29 | All or nothing: the hand without the ids, one occurrence each, or unchanged and false |
| `Hands.Hand.Contains` | server/src/game/hand.cpp:32-39 | True exactly if every id of the list is a member; multiplicities are not looked at |
| `Hands.RemoveEachBag` | server/src/game/hand.cpp:20-29 | Removal succeeds exactly if the hand holds the ids with their multiplicities, and then takes out exactly that multiset |
| `Hands.RemovalKeepsOrder` | server/src/game/hand.cpp:20-29 | Of a hand without duplicates the cards that are not removed stay in their order |
| `Hands.AdmittedIsRemovedIffDistinct` | server/src/game/hand.cpp:20-39 | Of the lists `contains` admits against a duplicate-free hand, `remove` takes out exactly the duplicate-free ones; only for those are cards conserved |
| `Hands.DuplicateLeavesHand` | server/include/game/types.h:83 | Concrete input: a list naming a card twice is admitted and leaves the hand as it was, although the error code is meant to cover it |
| `Analyzer.GroupByRank` | server/src/game/card_analyzer.cpp:34-74 | The two loops produce the natural ranks once each, ascending, with their counts, preceded by the wild group if there is one |
| `Analyzer.Analyze` | server/src/game/card_analyzer.cpp:451-492 | The whole dispatch over the loops returns the pattern that depends on the tally of the cards only |
| `Analyzer.AnalyzeJokerBomb` | server/src/game/card_analyzer.cpp:86-102 | The early-exit loop finds at least two of each joker and nothing else |
| `Analyzer.AnalyzeBomb` | server/src/game/card_analyzer.cpp:105-142 | Four or more cards of one natural rank, wild cards joining any rank; pure level bombs rank as level cards |
| `Analyzer.AnalyzeSame` | server/src/game/card_analyzer.cpp:158-220 | Pair and triple: one natural rank, or all wild |
| `Analyzer.AnalyzeTripleWithPair` | server/src/game/card_analyzer.cpp:223-290 | The nested loop over missing cards finds the house with the lower rank tripled if it can be; for five cards of one rank, which the dispatch never passes on, the first fallback answers |
| `Analyzer.FallbacksUnreachable` | server/src/game/card_analyzer.cpp:258-289 | Neither of the two fallback branches can be taken for five cards that are no bomb |
| `Analyzer.AnalyzeWindow` | server/src/game/card_analyzer.cpp:293-418 | The scan that looks only inside a window and counts wild cards finds the first window that holds all natural cards |
| `Analyzer.WindowByCounting` | server/src/game/card_analyzer.cpp:310-331 | The counting argument: the wild cards used inside a window equal the wild cards there are exactly if no natural card lies outside it |
| `Analyzer.AnalyzeStraightFlush` | server/src/game/card_analyzer.cpp:421-448 | A straight whose natural cards share a suit, and at least one of them is natural |
| `Shapes.CompletesIffFits` | server/src/game/card_analyzer.cpp:223-418 | For every shape: its wild cards can be given ranks so that the cards form the shape exactly if the natural counts fit inside it |
| `Shapes.CountPermutation` | server/src/game/card_analyzer.cpp:34-74 | Counts by natural rank do not depend on the order of the cards |
| `Patterns.AnalyzePermutation` | server/src/game/card_analyzer.cpp:451-492 | Any permutation of the same cards gives the same pattern |
| `Readings.SameIffOneRank` | server/src/game/card_analyzer.cpp:105-220 | Cards can be read as n of one rank exactly if at most one natural rank occurs, jokers included |
| `Readings.HouseIffPattern` | server/src/game/card_analyzer.cpp:223-290 | Five cards of several ranks can be read as three and two under some choice for the wild cards exactly if the branch accepts them |
| `Readings.WindowIffPattern` | server/src/game/card_analyzer.cpp:293-418 | Cards can be read as consecutive ranks exactly if the window branch accepts them, and the top it returns is the least possible |
| `Readings.AnalyzeIffReadable` | server/src/game/card_analyzer.cpp:451-492 | A list is a valid pattern exactly if some choice of ranks for its wild cards makes it one of the shapes, or it is a joker bomb |
| `Readings.JokerBombIff` | server/src/game/card_analyzer.cpp:86-102 | A list is reported as joker bomb exactly if all its cards are jokers and two places hold small ones and two hold big ones; its length is the number of cards and its rank that of the big joker |
| `Readings.KindMeaning` | server/src/game/card_analyzer.cpp:451-492 | The kind reported for any list, by what it can be read as: joker bomb, bomb, single, pair, triple, house before straight, three pairs before two triples, otherwise none |
| `Readings.StraightMeaning` | server/src/game/card_analyzer.cpp:421-492 | A straight is reported with the least top of all its readings, as a straight flush exactly if the natural cards share a suit |
| `Readings.SixCardMeaning` | server/src/game/card_analyzer.cpp:466-486 | Six cards with both readings are three pairs, and the top is the least of its readings |
| `Readings.GroupMeaning` | server/src/game/card_analyzer.cpp:105-220 | A pair, triple or bomb reads as cards of the one rank of its natural cards, the level if all are wild, and is reported at the comparison rank of a pair or triple, the natural rank of a bomb, or above all for a bomb of level cards |
| `Readings.HouseMeaning` | server/src/game/card_analyzer.cpp:223-290 | A reported house reads as three of its rank and two of its pair rank, both with natural cards, and the higher rank is tripled only if the lower one cannot be |
| `Readings.SingleAlwaysValid` | server/src/game/card_analyzer.cpp:145-155 | One card is always a valid single at its own comparison rank |
| `Rules.AnalyzePlayable` | server/src/game/card_analyzer.cpp:451-492 | Every valid pattern the analyser returns has the length and ranks its kind allows |
| `Rules.CanBeatIffStronger` | server/src/game/rule_engine.cpp:14-92 | On the analyser's patterns the case analysis is one order: by rung, then bomb size with straight flushes between five and six cards, then rank |
| `Rules.CanBeatStrictOrder` | server/src/game/rule_engine.cpp:47-92 | canBeat is irreflexive and transitive on valid patterns |
| `Rules.BombsTotallyOrdered` | server/src/game/rule_engine.cpp:47-92 | Of two bombs, straight flushes or joker bombs one beats the other unless they are of equal strength |
| `Bot.Search` | server/src/game/bot_player.cpp:39-85 | The mask loop returns a legal subset of least score among all non-empty masks, or none if no mask is legal |
| `Bot.EveryPlayHasAMask` | server/src/game/bot_player.cpp:53-62 | Every duplicate-free choice of cards in any order has a mask with the same cards, legality and score |
| `Bot.SearchOptimal` | server/src/game/bot_player.cpp:53-84 | The search finds a play exactly if a legal one exists, and then one of fewest cards over all choices from the hand, of lowest rank among those |
| `Bot.ScoreMeaning` | server/src/game/bot_player.cpp:27-36 | The score compares legal plays by number of cards, then by rank, then by kind |
| `Turns.TurnManager.NextActivePlayer` | server/src/game/turn_manager.cpp:12-18 | The modular scan returns the first active seat clockwise, the starting seat only if no other is active |
| `Turns.TurnManager.WindPartnerSeat` | server/src/game/turn_manager.cpp:27-40 | First active seat clockwise of the leader's team, otherwise the next active seat |
| `Turns.TurnManager.Reset` | server/src/game/turn_manager.cpp:54-61 | The new state after a trick: cleared table, lead to its owner or a teammate, one turn later |
| `Turns.TurnManager.EveryOtherPassed` | server/src/game/turn_manager.cpp:64-72 | Compares the passes with the number of active seats other than the owner of the trick |
| `Turns.TurnManager.SkipFinishedPlayers` | server/src/game/game_engine.cpp:441-444 | The skip loop ends after at most one turn, on an active seat |
| `Seats.NextActiveIsActive` | server/src/game/turn_manager.cpp:12-18 | The next active seat is active, and differs from the starting one if another seat is active |
| `RoundProofs.NextActiveGap` | server/src/game/turn_manager.cpp:12-18 | No active seat lies between a seat and the next active one |
| `RoundProofs.WindFinds` | server/src/game/turn_manager.cpp:27-40 | If the leader's team has an active member, the wind-partner scan finds one |
| `RoundProofs.LeadAfterTrick` | server/src/game/turn_manager.cpp:43-51 | After a trick its owner leads if still in, else the next active teammate clockwise, with no active teammate in between |
| `RoundProofs.WindIsFirst` | server/src/game/turn_manager.cpp:27-40 | The wind-partner scan passes over no active teammate of the leader |
| `RoundProofs.TrickOverIff` | server/src/game/game_engine.cpp:476-486 | The two reset conditions together hold exactly if no active seat is left between the passing seat and the owner of the trick |
| `FinishRanks.AssignRemainingFinishRanks` | server/src/game/finish_rank.cpp:8-33 | The two loops rank the remaining seats clockwise from the last finisher |
| `FinishRanks.AssignRemainingOrder` | server/src/game/finish_rank.cpp:8-33 | Finishers keep 1..k in the order they went out, the others take k+1..n in clockwise order, and the ranks are a permutation of 1..n |
| `Settlements.CalculateSettlement` | server/src/game/settlement.cpp:37-59 | The loops compute the settlement of the table |
| `Settlements.CalculateMeaning` | server/src/game/settlement.cpp:19-59 | From a full ranking the head's team wins and climbs 5 or 9 minus the rank of the best teammate: 1..3 levels at four seats, 4..7 at six; the record lists ranks and players seat by seat |
| `Settlements.CalculateNone` | server/src/game/settlement.cpp:37-59 | Without a first place there is no winner and nothing to climb |
| `Progress.TeamProgress.PrepareRound` | server/src/game/team_progress.cpp:10-15 | The last winners attack; without one the attackers stay |
| `Progress.TeamProgress.ApplySettlement` | server/src/game/team_progress.cpp:18-69 | The standing after a round, pass-A rounds included, and the whole result record, read off the standing before and after |
| `Progress.ReportMeaning` | server/src/game/team_progress.cpp:18-69 | The record reports a match win, an entry into the pass-A phase or a third failure exactly when it happened, and the level that was reached |
| `Progress.AfterRoundInv` | server/src/game/team_progress.cpp:18-69 | Levels stay in 2..14, level 14 is exactly the pass-A phase, failures stay in 0..2 and occur only in that phase |
| `Progress.MatchInv` | server/src/game/team_progress.cpp:10-69 | The same after any sequence of rounds, and the last winner is recorded |
| `Progress.MatchWonAfterWinning` | server/src/game/team_progress.cpp:31-40 | The round that wins the match is won from level A by the team that also won the round before, and moves no level |
| `Progress.ThirdFailureResets` | server/src/game/team_progress.cpp:41-49 | Exactly the third failure sends the attackers back to level 2 and out of the phase; the other team's level never moves |
| `Progress.FailureCounts` | server/src/game/team_progress.cpp:26-49 | A pass-A round that is not won raises the failures of its attackers by one, or ends them with the third; no other round changes any failures |
| `Campaigns.StandingIsCampaigns` | server/src/game/team_progress.cpp:10-69 | Over every sequence of rounds the standing kept round by round is the one told from the rounds alone: who attacks, how far each team has climbed, how often it has failed at level A |
| `Campaigns.FailuresAreLosses` | server/src/game/team_progress.cpp:26-49 | A team's failures are the attacks from level A it has lost since it last got there, at most two; outside level A it has none |
| `MatchCampaign.MatchIsTold` | server/src/game/game_engine.cpp:94-493 | In every reachable state of a match the standing is the one its finished rounds amount to: of the rounds dealt, all but the one under way |
| `Progress.OrdinaryRound` | server/src/game/team_progress.cpp:50-61 | Outside a pass-A round only the winners' level moves, by what they won up to level A, and reaching A is what enters the phase |
| `RoundProofs.PlayKeepsRound` | server/src/game/game_engine.cpp:419-446 | A play that does not end the round keeps the round invariant, starts a trick without passers and takes one turn |
| `RoundProofs.PlayEndsRound` | server/src/game/game_engine.cpp:426-438 | The play that brings the last member of a team out, and no earlier one, ends the round and leaves a permutation of the ranks: finishers, the seats without cards, in order, then clockwise after the last finisher |
| `RoundProofs.NotWonActive` | server/src/game/game_engine.cpp:368-377 | As long as no team has won, both teams keep an active member |
| `RoundProofs.NextTurnTrick` | server/src/game/game_engine.cpp:439-444 | After a play the skip loop has nothing to skip, and the turn is with the next active seat |
| `RoundProofs.GoesOut` | server/src/game/game_engine.cpp:358-365 | The rank counted over all seats is the next place in the order of going out |
| `RoundProofs.PassContinues` | server/src/game/game_engine.cpp:473-490 | While active seats are left to answer, a pass adds the seat to the passers and moves on by one turn |
| `RoundProofs.PassResets` | server/src/game/game_engine.cpp:476-490 | Otherwise the pass ends the trick, and its owner leads, or, if out, the nearest active teammate clockwise |
| `RoundProofs.PassKeepsRound` | server/src/game/game_engine.cpp:473-490 | Trick invariant: the passers are exactly the active seats strictly clockwise between the owner and the current seat, and the trick is over exactly when they are all active seats but the owner |
| `Runs.EveryRun` | server/src/game/game_engine.cpp:380-493 | Over every sequence of plays and passes, accepted or not: the round invariant, one turn per accepted move, and each pattern of a trick beats every earlier one; or the round is over with its ranks |
| `Runs.RoundEndsIff` | server/src/game/game_engine.cpp:368-438 | After every run the round is over exactly if all seats of one team have gone out by a play of their last cards, that is, hold no cards; and no team was complete before the last of them |
| `Runs.TableAfterRun` | server/src/game/game_engine.cpp:419-493 | After every sequence of moves the cards shown are those of the pattern to beat, the state version has grown by one per accepted move, and level, attackers, deck and first player are as dealt |
| `Runs.RisingSnoc` | server/src/game/game_engine.cpp:412-423 | A play that beats the last pattern of a trick beats all patterns of the trick |
| `Conservation.PlayPool` | server/src/game/game_engine.cpp:398-419 | An accepted play moves its cards from the hands to the table if it names no card twice, and otherwise takes none |
| `Conservation.ConservedIffNoRepeats` | server/src/game/game_engine.cpp:380-493 | Over every run: hands and played cards together are the cards dealt exactly if no accepted play named a card twice |
| `Termination.MoveDescends` | server/src/game/game_engine.cpp:380-493 | Each accepted move without repeated cards lowers the pair (cards in hands, seats still to answer) lexicographically |
| `Termination.AcceptedMoves` | server/src/game/game_engine.cpp:380-493 | Of every run: the accepted moves are at most players times the cards dealt, and once more the players for each accepted play that names a card twice |
| `Termination.RoundsEnd` | server/src/game/game_engine.cpp:380-493 | The corollary for runs without such plays: at most players times the cards dealt |
| `Liveness.SomeMoveAccepted` | server/src/game/game_engine.cpp:380-470 | A leader's single card and a follower's pass are always accepted |
| `Liveness.PlayAnswers` | server/src/game/game_engine.cpp:380-417 | Which answer every play gets: accepted are exactly the plays of the current player from its hand that can be read as a pattern and, with a pattern on the table, are stronger; and which refusal the others get |
| `Liveness.PassAnswers` | server/src/game/game_engine.cpp:457-472 | A pass is accepted exactly from the current player with a pattern on the table; and which refusal others get |
| `Liveness.CanComplete` | server/src/game/game_engine.cpp:380-493 | However a round has gone so far, plays that name a card twice included, it can be played to its end without another such play |
| `Liveness.RepeatsNeverEnd` | server/src/game/game_engine.cpp:398-419 | If plays may name a card twice, there are runs of every length whose moves are all accepted |
| `Liveness.BotAnswers` | server/src/game/bot_player.cpp:39-85 | For the current player the bot's play is accepted, takes the fewest cards and is of the lowest rank among those; if it has none, no play is accepted and a pass is |
| `Pickers.PickBestTributeCard` | server/src/game/tribute.cpp:62-79 | The loop returns the card a tributer has to pay |
| `Pickers.RequiredTributeMeaning` | server/src/game/tribute.cpp:62-79 | It is the first of the highest cards that are not wild; "none" if all cards are wild, or if that card has id 0 |
| `Pickers.CanPayIff` | server/src/game/tribute.cpp:62-79 | A hand has a card to pay exactly if the first of its highest cards that are not wild is not card 0 |
| `Pickers.PickReturnCard` | server/src/game/tribute.cpp:97-143 | The two-stage choice of the bot's return card |
| `Pickers.PickReturnIsSmallest` | server/src/game/tribute.cpp:97-143 | The two stages come to one rule: the first of the cards that are smallest as singles |
| `Pickers.ValidReturnCardIds` | server/src/game/tribute.cpp:146-169 | The two filter loops list the cards that may be returned |
| `Pickers.ValidReturnMeaning` | server/src/game/tribute.cpp:146-169 | A card of the hand may be returned exactly if it is low or none is smaller as a single |
| `Pickers.BotReturnAdmitted` | server/src/game/tribute.cpp:135-197 | The bot's return passes the check exactly if the first of the smallest cards of the hand is not card 0 |
| `Pickers.CanGiveBackIff` | server/src/game/tribute.cpp:145-197 | Some card passes the check exactly if the hand holds a card other than card 0 that is low, or smallest as a single |
| `Pickers.NothingToReturn` | server/src/game/tribute.cpp:145-197 | No card does exactly if the hand is empty, or holds card 0 and next to it only cards that count for more than ten and more than card 0 |
| `Pickers.ZeroBeforeTwo` | server/src/game/tribute.cpp:62-79 | Concrete hands: card 0 in front of another two leaves nothing to pay at any level |
| `Pickers.TwoBeforeZero` | server/src/game/tribute.cpp:62-79 | The same two cards in the other order do have a card to pay |
| `Pickers.ZeroHidesTheReturn` | server/src/game/tribute.cpp:120-142 | Concrete input: with id 0 as smallest card the bot finds nothing to return although another card would be admitted |
| `Tributes.CheckAntiTribute4` | server/src/game/tribute.cpp:232-253 | Both branches come to at least two big jokers among the tributers |
| `Tributes.CheckAntiTribute6` | server/src/game/tribute.cpp:256-276 | True exactly if one seat holds three big jokers, or the seats of a triple down hold three together |
| `Tributes.AntiTributeOfSix` | server/src/game/tribute.cpp:256-276 | For the payers a plan names both come to at least three big jokers among them |
| `Tributes.CounteredIff` | server/src/game/tribute.cpp:232-276 | The tribute is countered exactly if big jokers lie in as many places of the payers' hands as a team has members |
| `Tributes.PlanTribute` | server/src/game/tribute.cpp:298-376 | The plan of a round with its skip, anti-tribute and down cases |
| `Tributes.PlanMeaning` | server/src/game/tribute.cpp:298-376 | From a full ranking the last k seats pay the first k, k being the whole team if all seats up to that rank are of one team and 1 otherwise; the summary names k and whether it is countered |
| `Tributes.PlanSkips` | server/src/game/tribute.cpp:303-311 | Without tribute or an earlier round nobody pays, and the head is the first of that round, or seat 0 |
| `Tributes.PlanDisjoint` | server/src/game/tribute.cpp:298-376 | Payers and recipients are distinct and disjoint, and the last seat pays |
| `Tributes.PreviousRanks` | server/src/game/tribute.cpp:23-31 | A finished round leaves a permutation of the ranks for the next tribute |
| `Tributes.TributeOrder` | server/src/game/tribute.cpp:209-229 | The comparison is a strict total order on payers of distinct seats |
| `Tributes.TributeOrderMeaning` | server/src/game/tribute.cpp:209-229 | The higher card comes first; of equal cards, that of the seat reached first clockwise from the head |
| `Exchange.TransferCard` | server/src/game/tribute.cpp:279-285 | Moves one card, or nothing if it is not there |
| `Exchange.AssignTributes` | server/src/game/tribute.cpp:379-421 | The sorted tributes go to the recipients in order |
| `Exchange.SortUnique` | server/src/game/tribute.cpp:406-409 | Two arrangements of the same tributes in the order of the comparison are equal, so the sort has one outcome |
| `Exchange.ComputeFirstPlayerSeat` | server/src/game/tribute.cpp:424-454 | The loop over the highest tributes, with the tie rule |
| `Exchange.FirstPlayerMeaning` | server/src/game/tribute.cpp:424-454 | The payer of the one highest tribute begins; if the highest tie, the last seat of the previous round |
| `Exchange.ResolveRound` | server/src/game/tribute.cpp:457-509 | The one-shot tribute round: hands and outcome |
| `Confluence.MovesCommute` | server/src/game/tribute.cpp:279-295 | Transfers between disjoint pairs of seats commute |
| `Confluence.TributesDeal` | server/src/game/tribute.cpp:379-421 | Every recipient gets the card of a distinct payer, in non-increasing rank, equal cards in the order of their payers clockwise from the head |
| `Confluence.SettleAdd` | server/src/game/game_engine.cpp:285-294 | A return made at any time has the effect it has in its own place |
| `Confluence.ReturnsAreChoices` | server/src/game/tribute.cpp:492-497 | The one-shot returns are the choices made from the hands as they are right after the tributes |
| `AnyOrder.EveryOrder` | server/src/game/game_engine.cpp:202-302 | Whatever is submitted, in whatever order, submitted tributes are the required cards and the hands are those of the one-shot tribute with the returns made so far |
| `TributeTurns.WaitsForTheRest` | server/src/game/game_engine.cpp:202-302 | At every point of the phase the payers and then the recipients still due are exactly those from whom nothing has been accepted yet |
| `TributeTurns.PayAcceptedIff` | server/src/game/game_engine.cpp:202-232 | In every state of the phase a tribute is accepted exactly if it comes from a payer from whom none has been accepted and is the card it has to pay, whoever else is due |
| `TributeTurns.ReturnAcceptedIff` | server/src/game/game_engine.cpp:261-290 | In every state a return is accepted exactly if all tributes are paid and it comes from a recipient that has not answered, with a card it may give back |
| `TributeTurns.AnyPayOrder` | server/src/game/game_engine.cpp:202-258 | Every arrangement of payers that can pay is a run of accepted tributes |
| `TributeTurns.AnyReturnOrder` | server/src/game/game_engine.cpp:261-302 | After any accepted tributes, every arrangement of recipients, each with any card it may give back, is a run of accepted returns |
| `TributeTurns.AnsweredIsComplete` | server/src/game/game_engine.cpp:296-302 | The phase is complete exactly if every payer and every recipient has been accepted |
| `TributeTurns.VersionsGrow` | server/src/game/game_engine.cpp:202-302 | The state version grows by one with each accepted submission, and once more when the cards change hands |
| `OneShot.OrderDoesNotMatter` | server/src/game/game_engine.cpp:202-302 | Two completed phases with the same returned cards end with the same hands, tributes and first player, and the same returns up to order |
| `OneShot.BotIsOneShot` | server/src/game/game_engine.cpp:172-302 | With the bot's returns a completed phase ends as resolveRound does: same hands, tributes, first player, head tributer and summary, returns up to order |
| `OneShot.PayerBegins` | server/src/game/tribute.cpp:424-454 | The first player after a tribute is always one of the payers |
| `OneShot.FirstAfterTribute` | server/src/game/game_engine.cpp:172-192 | Play begins with the hands the returns left, at the payer of the one highest tribute, or at the last seat of the last round if the highest tie |
| `OneShot.HeadGetsHighest` | server/src/game/game_engine.cpp:172-192 | The first place of the last round receives the highest tribute, and its payer is recorded as head tributer |
| `TributeEnds.MovePoolKept` | server/src/game/tribute.cpp:279-285 | A transfer loses and makes no card |
| `TributeEnds.PhaseKeeps` | server/src/game/game_engine.cpp:202-302 | At every point of the phase the hands together are what was dealt, and nothing but hands has changed of the players |
| `TributeEnds.SizesRestored` | server/src/game/game_engine.cpp:202-302 | After tribute and return every seat holds as many cards as it was dealt |
| `TributeEnds.CompletedIffCanSettle` | server/src/game/tribute.cpp:178-191 | The phase can be completed exactly if the hands allow it: every payer's first highest card that is not wild is not card 0, and every recipient has, in its hand and the card it receives, a card other than 0 that is low or smallest |
| `TributeEnds.CanBeCompleted` | server/src/game/game_engine.cpp:202-302 | In that case it can be completed from every point it can get to |
| `TributeStuck.TributeCanGetStuck` | server/src/game/game_engine.cpp:124-302 | Input: after every finished round of a two-card room with tribute there is an order of the deck that deals the last player the cards 0 and 13, and then no submissions ever complete the tribute |
| `TributeStuck.FullHandCanPay` | server/src/game/tribute.cpp:62-79 | Where the whole deck is dealt every player has a card to pay, whatever the order of the deck |
| `TributeStuck.OnlyReturnsGetStuck` | server/src/game/tribute.cpp:178-197 | So there the phase can be completed exactly if every recipient can return a card |
| `Match.CanAlwaysDeal` | server/src/game/game_engine.cpp:94-102 | With a configuration of two teams whose deck deals evenly, dealing never fails |
| `Match.RoomConfigsAreGood` | server/include/game/room_config.h:36-54 | The three room types have such configurations |
| `MatchProofs.DealIsFresh` | server/src/game/game_engine.cpp:94-122 | A deal gives non-empty equal hands without a repeated card, the whole deck outside solo tests, on the same seats |
| `MatchProofs.ActionInv` | server/src/game/game_engine.cpp:94-493 | Each request, accepted or not, keeps the invariant of the match |
| `MatchProofs.EveryMatch` | server/src/game/game_engine.cpp:94-493 | In every reachable state the current round is a run from a fresh deal, or its tribute phase, with the standing and the kept ranks sound |
| `MatchProofs.MatchPromises` | server/src/game/game_engine.cpp:94-493 | In play the current seat holds cards, both teams are in, finished means out of cards, the level is the attackers' and the cards shown have the pattern to beat; at the end one team is out of cards, the ranks are a permutation and are kept for the next tribute |
| `MatchProofs.RoundIsScored` | server/src/game/game_engine.cpp:426-438 | The team of the player who went out first climbs 9 levels (six seats) or 5 (four seats) less the rank of its best other player, and leads the next round |
| `MatchProofs.HandsAreKnown` | server/src/game/game_state.cpp:11-16 | No id in a hand of a reachable round is unknown to the deck, so the lookup never throws for it |
| `MatchProofs.FinalizeInv` | server/src/game/game_engine.cpp:172-192 | After the last return the hands are again as freshly dealt and play begins |
| `MatchStarts.MarksFollowRequests` | server/src/game/game_engine.cpp:40-43 | In every reachable state each player is marked as it last asked to be, whatever else has happened |
| `MatchStarts.StartAcceptedIff` | server/src/game/game_engine.cpp:47-52 | A start is accepted exactly before the first round and with the last request of every player being to be ready |
| `MatchStarts.FirstRoundBegins` | server/src/game/game_engine.cpp:328-343 | The first round is led by seat 0, with nothing on the table, at the attackers' level |
| `MatchStarts.NextRoundBegins` | server/src/game/game_engine.cpp:124-150 | A later round is led by the first of the last one if there is no tribute or it is countered, and otherwise waits for the payers |
| `MatchEnds.PlayCanEnd` | server/src/game/game_engine.cpp:380-493 | From every state of play some requests lead to the end of the round |
| `MatchEnds.RoundCanEndIff` | server/src/game/game_engine.cpp:124-493 | In every reachable state with a round under way some requests lead to its end exactly if play has begun or the cards dealt allow the tribute to be completed; otherwise the match stays in the tribute for good |
| `MatchEnds.PlaysAreAnswered` | server/src/game/game_engine.cpp:380-493 | In every reachable state of play every play and pass gets the answer said of rounds |
| `MatchEnds.BotPlaysOn` | server/src/game/game_engine.cpp:450-493 | In every reachable state of play with at most thirty cards dealt to each player, the answer of the bot's search is accepted: its play, the cheapest of all, or a pass if there is none |
| `MatchEnds.RoomDecksAreSmall` | server/include/game/room_config.h:36-54 | The three room types deal at most thirty cards to each player |
| `Engine.GameEngine.Init` | server/src/game/game_engine.cpp:16-32 | A freshly seated game satisfies the invariant of the match |
| `Engine.GameEngine.SetPlayerReady` | server/src/game/game_engine.cpp:40-43 | The first player with the id, of all six seats, is marked |
| `Engine.GameEngine.DealRound` | server/src/game/game_engine.cpp:94-122 | Deck, hands, standing and cleared trick are those of the match function |
| `Engine.GameEngine.Start` | server/src/game/game_engine.cpp:328-343 | The answer and the whole new state are those of the match function, and the invariant holds |
| `Engine.GameEngine.StartNext` | server/src/game/game_engine.cpp:346-355 | The answer and the whole new state are those of the match function, and the invariant holds |
| `Engine.GameEngine.OpenTribute` | server/src/game/game_engine.cpp:124-150 | Skipped, countered or opened as the plan says |
| `Engine.GameEngine.Play` | server/src/game/game_engine.cpp:380-447 | The answer and the whole new state are those of the match function, game over exactly at the end of a round, with its settlement record |
| `Engine.GameEngine.CheckPlay` | server/src/game/game_engine.cpp:380-417 | The seven checks in the order of the code |
| `Engine.GameEngine.FinishRound` | server/src/game/game_engine.cpp:428-437 | Ranks filled in, settlement applied to the standing and recorded in full, ranks kept |
| `Engine.AssignFinishRank` | server/src/game/game_engine.cpp:358-365 | One more than the number of finished seats |
| `Engine.CheckTeamWin` | server/src/game/game_engine.cpp:368-377 | True exactly if all players of some team have finished |
| `Engine.GameEngine.Pass` | server/src/game/game_engine.cpp:457-493 | The answer and the whole new state are those of the match function, and the invariant holds |
| `Engine.GameEngine.SubmitTributeCard` | server/src/game/game_engine.cpp:202-258 | The answer and the whole new state are those of the match function, and the invariant holds |
| `Engine.GameEngine.SubmitReturnCard` | server/src/game/game_engine.cpp:261-302 | The answer and the whole new state are those of the match function; completion is reported exactly with the last return |
| `Engine.GameEngine.Finalize` | server/src/game/game_engine.cpp:305-307 | Called once the last return is in, begins play |
| `Engine.GameEngine.ChooseBotPlay` | server/src/game/game_engine.cpp:450-454 | The bot's search on the player's hand |
| `Engine.GameEngine.ChooseBotTributeCard` | server/src/game/game_engine.cpp:310-316 | The required tribute card, none for id 0 |
| `Engine.GameEngine.ChooseBotReturnCard` | server/src/game/game_engine.cpp:319-325 | The bot's return card, none for id 0 |
| `TaskQueues.RoomTaskQueue.PostLocked` | server/src/room/room_task_queue.cpp:16-23 | The locked part of a post appends the task and asks for a drain exactly if none is scheduled |
| `TaskQueues.RoomTaskQueue.DrainLocked` | server/src/room/room_task_queue.cpp:34-42 | The locked part of a drain turn takes the first task or clears the flag |
| `TaskQueues.RoomTaskQueue.Drain` | server/src/room/room_task_queue.cpp:31-51 | A drain, whatever is posted before each of its turns, runs what was waiting and what arrived until it found the queue empty, each once and in order, and stands down |
| `TaskQueues.RoomTaskQueue.PostWhileDraining` | server/src/room/room_task_queue.cpp:14-28 | Posts to a queue with a drain on its way only append; none asks for another drain |
| `TaskQueues.RoomExecutor.WorkerLocked` | server/src/room/room_executor.cpp:42-48 | The locked part of a worker's turn waits, leaves after the stop, or takes the first job |
| `TaskOrder.StepOrder` | server/src/room/room_task_queue.cpp:14-51 | Every atomic step keeps: one drain on its way exactly if the flag is set, waiting tasks imply it, posted is started plus waiting |
| `TaskOrder.OneAtATimeInOrder` | server/src/room/room_task_queue.cpp:14-51 | In every reachable state of any number of queues and threads no two threads are in tasks of one room, and each room's started tasks are a prefix of its posted ones |
| `TaskOrder.LogsGrow` | server/src/room/room_task_queue.cpp:14-51 | Each step adds at most one started and one posted task, so every task is started at most once |
| `TaskOrder.FlagMeansOneDrain` | server/src/room/room_task_queue.cpp:17-39 | The flag is set exactly when one drain is owed by a poster, queued in the pool or being carried out |
| `TaskProgress.StepWakes` | server/src/room/room_executor.cpp:30-48 | Every step keeps: while a worker sleeps, every queued job has a worker awake or a notification on its way |
| `TaskProgress.NoLostWakeUp` | server/src/room/room_executor.cpp:30-48 | With a job queued and no notification owed, some worker is awake or none sleeps |
| `TaskProgress.WorkGoesOn` | server/src/room/room_executor.cpp:39-51 | Before the stop, waiting tasks or queued jobs always leave some thread a step to take |
| `TaskProgress.WorkIsBounded` | server/src/room/room_task_queue.cpp:14-51 | Each post is answered by at most seven steps of work |
| `TaskProgress.AtRestAllIsDone` | server/src/room/room_task_queue.cpp:31-51 | When no step of work is left before the stop, every posted task has been started |
| `TaskProgress.NothingLeftBehind` | server/src/room/room_executor.cpp:18-51 | Once every worker has left, only drains handed over by outside threads after the stop are undone; every other room is run to the end |
| `TaskProgress.NobodyWaitsAfterStop` | server/src/room/room_executor.cpp:18-27 | After the stop has been announced no worker waits, so each can go on until it leaves |
| `TaskOrder.PoolIsFair` | server/src/room/room_executor.cpp:30-48 | Over every run the drains taken by workers are, in order, the first of those handed to the pool, and the others wait in it |
| `Base64.Encode` | server/src/utils/sha1.cpp:59-77 | The shifting accumulator, wrapped at 32 bits, produces the three-byte blocks of section 4 of RFC 4648 |
| `Base64.EncodedLength` | server/src/utils/sha1.cpp:59-77 | The encoding has a multiple of four characters, four for each three bytes begun |
| `Base64.SextetsAreBlocks` | server/src/utils/sha1.cpp:64-76 | The groups found byte by byte, with padding, are those of the blocks |
| `Base64.ByteIn` | server/src/utils/sha1.cpp:65-70 | What the shifts read does not depend on the bits lost at the top |
| `Base64.Decode` | server/src/utils/sha1.cpp:79-116 | The decoder returns the bytes of the characters that have a value, whatever else the text holds |
| `Base64.RoundTrip` | server/src/utils/sha1.cpp:59-116 | Decoding the encoding of any byte string gives it back |
| `Base64.StandardAlphabet` | server/src/utils/sha1.cpp:59-62 | The letters are those of table 1 of RFC 4648 |
| `CardsJson.CardIdsToJsonArray` | server/src/protocol/game_view_builder.cpp:49-58 | The printed list |
| `CardsJson.ParseCardsArray` | server/src/protocol/message.cpp:53-71 | The scan loop, with the exception for numbers that are too large and the endless case as outcomes |
| `CardsJson.RoundTrip` | server/src/protocol/message.cpp:53-71 | Parsing the key followed by a printed list returns the list, for every list of 16-bit ids and whatever stands around it |
| `CardsJson.DecimalPlaces` | server/src/protocol/game_view_builder.cpp:49-58 | Numbers are printed and read in decimal, digit by digit |
| `CardsJson.PrintedPair` | server/src/protocol/game_view_builder.cpp:49-58 | Concrete output: two cards in brackets with a comma between |
| `CardsJson.OutOfRangeIff` | server/src/protocol/message.cpp:53-71 | Parsing throws exactly if the list of the message has a number that is too large |
| `CardsJson.EndlessIff` | server/src/protocol/message.cpp:53-71 | Parsing never ends exactly if a character other than digits, commas and spaces stands in the list of the message before it is closed and no number before it is too large |
| `CardsJson.QuotedNumberIsEndless` | server/src/protocol/message.cpp:60-69 | Concrete input: a quoted number is never got past |
| `VoiceRooms.VoiceRoomManager.Join` | server/src/voice/voice_room_manager.cpp:33-52 | The record is replaced and the user is on the new room's list only; both maps agree afterwards |
| `VoiceRooms.VoiceRoomManager.Leave` | server/src/voice/voice_room_manager.cpp:55-61 | Record and list entry go together |
| `VoiceRooms.VoiceRoomManager.Touch` | server/src/voice/voice_room_manager.cpp:64-70 | Only address and time of a known user change |
| `VoiceRooms.VoiceRoomManager.PeersExcept` | server/src/voice/voice_room_manager.cpp:73-88 | The address of each other member, once |
| `VoiceRooms.VoiceRoomManager.RoomIdForUser` | server/src/voice/voice_room_manager.cpp:91-97 | The room on whose list the user is, found exactly if there is a record |
| `VoiceRooms.VoiceRoomManager.PruneIdle` | server/src/voice/voice_room_manager.cpp:100-111 | Exactly the idle users go, the lists keep the order of the others, and no list is left empty |
| `VoiceRooms.LeaveAgrees` | server/src/voice/voice_room_manager.cpp:18-61 | Removing a user from both maps keeps every user on exactly one list once and no list empty |
| `VoiceRooms.JoinAgrees` | server/src/voice/voice_room_manager.cpp:33-52 | So does joining, moving from another room included |
| `VoiceRooms.LeftLists` | server/src/voice/voice_room_manager.cpp:18-28 | Whoever leaves is off its list; all others keep their places in every room |
| `VoiceRooms.JoinedLists` | server/src/voice/voice_room_manager.cpp:33-52 | Whoever joins stands last on the new list, or in its old place if it was there, and on no other; all others keep their places |

## Left out

- Bot.Search: hands of more than 30 cards, for which the mask would not fit the integer type.
- Decks.CreateFullDeck: decks of more than 65536 cards, whose ids would wrap.
- Turns.TurnManager.Advance: turn id and state version are unbounded here; the 64-bit wrap-around is not modelled.
- Engine.GameEngine.DealRound: the shuffle is a parameter, any permutation of the deck; a deck that cannot be dealt makes the server throw and is excluded by the precondition.
- Engine.GameEngine.Finalize: the server lets the call through at any time; the model has it after the last return only.
- Engine.GameEngine.Init: asked for as many distinct players as the room is configured for, as the room ensures.
- Cards.CardById: the exception for an unknown id is a placeholder card; reachable rounds never look one up.
- Exchange.AssignTributes: the library's unstable sort is represented by the sorted list, which is unique.
- Engine.GameEngine.SetPlayerReady: the engine accepts the call at any time; the model has it before and between rounds, where the room lets it through.
- Engine.GameEngine.ChooseBotPlay: hands of more than 30 cards, as for the search.
- CardsJson.ParseCardsArray: characters outside ASCII, for which the digit test of the library is undefined.
- VoiceRooms.VoiceRoomManager.PruneIdle: the clock is a parameter, and one reading serves the whole loop as in the code.
- Hands are values of the players; that the server keeps them as objects inside an array is modelled by loading and storing them.
- What a task does inside the queue is open, except that it may post and may throw; throwing before the end of a post is not modelled.
- HTTP, WebSocket and UDP servers, sessions, message dispatch and timers: I/O.
- Snapshot and view building other than the card array: field copying.
- User store, tokens, password hashing, SHA-1 and SHA-256: storage and standards that would only be restated.
- Room membership, emotions, dismiss votes and spectating: easy members.
- Clients, deployment scripts and configuration files.
