# Recess: verified model of the game, queue, matchmaking and rating core

This project models five parts of the Recess backend in Dafny and proves what they promise.

* **Root Access**, the card game (`RootAccess*.dfy`): cards, engine, invariant, rounds, effects,
  single steps, whole runs, fairness, safety, showdowns, witnesses of the harmful moves, the
  in-place table, and the bot that samples worlds, lists moves and searches. The rules as a
  player knows them are `RootAccessAdmission`, `RootAccessCardLaws` and `RootAccessRoundLaws`.
  `Shuffle.dfy` is the shuffle it deals from.
* **Matchmaker** (`SnakeDraft`, `GreedyScan`, `Matchmaker`, `MatchmakerLaws`, `MatchmakerPool`):
  the sorted queue, the sliding window, the snake draft and the in-place compaction.
* **Ranked queue** (`QueuePenalty`, `RankedQueue*`, `QueueTick`, `QueueRace`): the confirmation
  protocol with each service call as one step, one matchmaking tick end to end, penalties and
  bans, and Accept/Decline once more with one step per Redis command.
* **Rating engine** (`RatingEngine`, `RatingDeltas`, `RatingPlayers`, `RatingFactors`,
  `RatingConservation`, `RatingRoster`): pairwise Elo with dynamic K.
* **Ledger and stream worker** (`RatingLedger*`, `RatingOutcomes`, `RatingService`, `RatingRace`,
  `Stream*`):
  at-least-once delivery turned into exactly-once ratings.

Each part has functions that say what the code computes, classes and methods with the loops and
in-place updates of the code that are proved against those functions, and lemmas about the
functions. `dafny verify dfyconfig.toml` checks everything.

## Reading the model

* Floating-point numbers are reals. The expected-score curve of the rating engine is any
  function with values in (0,1), `f(d) + f(-d) = 1` and strictly increasing.
* Random results are parameters: the shuffle of a round is any permutation of the deck, a
  proposal's id any unused one. Clocks are fields that only move forward, in milliseconds in the
  queue and in seconds in the matchmaker. The declines' two readings of the clock are one.
* Ids are numbers; a missing player id in a Redis hash is 0, which no player has. Where an id may
  fail to parse, the model has the failing case.
* A **legal run** of Root Access starts at `Init` with distinct players and a full deck. Every move
  is accepted and benign in the sense of `RootAccessStep.StepKeepsIffBenign`.

## Where the code and its promises differ

* A timeout penalty is accepted in every phase and for every player, and a Debugger resolve is
  checked for membership only. Both can break the game; the exact condition is the
  if-and-only-if of `RootAccessStep.StepKeepsIffBenign`.
* A Debugger played with fewer than two cards in the deck cannot be resolved
  (`RootAccessSafety.PendingResolvableIff`, `RootAccessWitness.ShortDebuggerGame`), so bounded
  length is proved, not progress.
* A determinized world holds 22 cards (`RootAccessBot.SampledWorldHasOneTooMany`).
* The engine's comment that total Elo is conserved holds of the deltas before K, not of the
  ratings: `RatingConservation.MatchMoves` gives the amount and the exact condition for matches
  of distinct players in any teams.
* Bans longer than five minutes are never reached (`QueuePenalty.OffenseIsAlwaysFirst`).
* A decline drops a player who accepts after it has read the record, whether the acceptance is
  written before or after the record is deleted (`QueueRace.RequeuedIffSeen`,
  `QueueRace.AcceptorCanBeDropped`, `QueueRace.LateAcceptorIsDropped`), and an expiry handled
  after the shadow's life forgets its acceptor (`RankedQueueLaws.ExpiryEffectiveIff`,
  `RankedQueueLaws.LateExpiryForgets`).
* A finished-session event that lists a player twice trips the unique key by itself and is
  acknowledged as already processed without any rating (`StreamDelivery.RepeatedPlayerNeverCommits`,
  `StreamDelivery.TwiceListedIsDropped`; the exact condition is `StreamDelivery.CommitsIff`).
* A penalty against a bystander on an empty deck leads to a showdown in which the player on turn
  holds two cards and is judged by the first (`RootAccessShowdown.ShowdownIsFairIff`,
  `RootAccessWitness.BystanderShowdownIsUnfair`), and a penalty that ends the round can put out a
  protected player (`RootAccessSafety.ProtectedIsSafe`; the same game shows both).
* A Backdoor that a Reboot forces onto the pile does not count for the bonus, although the bonus
  is described as going to whoever played or discarded one
  (`RootAccessCardLaws.RebootedBackdoorIsNotBooked`).
* A penalty is even accepted after the end and can pay the round again
  (`RootAccessSafety.PenaltyAfterEndPaysAgain`).
* "Every player eventually finds a game" holds exactly under conditions on the configuration
  (`MatchmakerLaws.WindowBecomesGood`, `NeverGood`, `WaitingNeverHelps`).
* Finishing first need not be worth most (`RatingDeltas.StrongWinnerGainsLess`).
* Ratings are read and committed in separate database calls. Two sessions in flight that share a
  player can break that player's chain of history rows (`RatingRace.ChainsIffFresh`,
  `RatingRace.OverlapCanBreak`).

## Model

| member | source | states |
|---|---|---|
| `RootAccessRuns.RunIsBounded` | services/game-server/games/rootaccess/rootaccess.go:262-319 | no legal game of 2 to 5 players takes more than 546 moves or reaches a fourteenth round |
| `RootAccessRuns.StepBurnsFuel` | services/game-server/games/rootaccess/rootaccess.go:509-610 | every legal move lowers the measure (tokens still payable, moves left in the round), across deals, showdowns and Debuggers |
| `RootAccessRuns.RunKeeps` | services/game-server/games/rootaccess/rootaccess.go:40-76 | every state of every legal run, from the first deal on, satisfies the invariant of the game |
| `RootAccessRuns.RunConservesCards` | services/game-server/games/rootaccess/rootaccess.go:726-855 | in every state of a legal run deck, hands, piles, set-asides and shown choices together are exactly the 21-card deck |
| `RootAccessStep.StepKeepsIffBenign` | services/game-server/games/rootaccess/rootaccess.go:82-109 | for every accepted move of a running game: the invariant is kept if and only if a penalty hits the player on turn outside a pending Debugger (or ends the round) and a resolve gives back exactly the shown cards |
| `RootAccessStep.StepKeeps` | services/game-server/games/rootaccess/rootaccess.go:243-260 | a benign move leads from a good position to a good position, whatever card is played and however the next round is shuffled |
| `RootAccessStep.PendingPenaltyBreaks` | services/game-server/games/rootaccess/rootaccess.go:497-503 | a timeout penalty accepted while a Debugger is pending leaves the shown cards in the game and breaks the invariant |
| `RootAccessStep.BystanderPenaltyBreaks` | services/game-server/games/rootaccess/rootaccess.go:497-503 | a penalty against a player who is not on turn, when the round goes on, leaves somebody with two cards off turn |
| `RootAccessStep.ForgedChoiceBreaks` | services/game-server/games/rootaccess/rootaccess.go:175-201 | a resolve that does not return exactly the shown cards changes the multiset of cards in the game |
| `RootAccessStep.TripledChoiceIsAccepted` | services/game-server/games/rootaccess/rootaccess.go:193-197 | naming one shown card three times passes the membership-only check and breaks the game unless all three are equal |
| `RootAccessInvariant.CardsConserved` | services/game-server/games/rootaccess/rootaccess.go:726-781 | a state whose counts agree card by card holds a permutation of the full deck |
| `RootAccessInvariant.NextIsNearestSeat` | services/game-server/games/rootaccess/rootaccess.go:876-899 | the next player is active, not the one who passes the turn, and no active player sits in between |
| `RootAccessRounds.DealKeeps` | services/game-server/games/rootaccess/rootaccess.go:726-796 | dealing any shuffle of the full deck yields a good position with the given player on turn and two cards in hand |
| `RootAccessRounds.BestOfWins` | services/game-server/games/rootaccess/rootaccess.go:614-639 | the showdown scan returns a contender whom nobody outshines, by a higher card in the ranking or the same card and a richer pile, and the first such seat |
| `RootAccessRounds.RoundPays` | services/game-server/games/rootaccess/rootaccess.go:550-585 | a finished round pays one token to its winner and at most one Backdoor bonus, and nothing else |
| `RootAccessRounds.ResolveKeeps` | services/game-server/games/rootaccess/rootaccess.go:550-610 | scoring a round leads to a finished game or to a correctly dealt next round |
| `RootAccessRounds.AdvanceKeeps` | services/game-server/games/rootaccess/rootaccess.go:509-546 | passing the turn from a settled position leads to a good position, whether the round goes on or ends |
| `RootAccessEffects.CardEffectSettles` | services/game-server/games/rootaccess/rootaccess.go:325-495 | every card effect with a legal or missing target leaves every active player with one card and loses no card (whom it hits is RootAccessCardLaws.MoveObeysRules) |
| `RootAccessEffects.RebootSettles` | services/game-server/games/rootaccess/rootaccess.go:391-430 | after Reboot every active player holds one card, nobody else holds any, and no card or discard record is lost |
| `RootAccessEffects.SwapSettles` | services/game-server/games/rootaccess/rootaccess.go:479-490 | after Swap every active player holds one card and no card is lost |
| `RootAccessEffects.EliminateSettles` | services/game-server/games/rootaccess/rootaccess.go:833-855 | after an elimination the others hold one card each and the card and discard accounts still balance |
| `RootAccessEffects.DebuggerKeeps` | services/game-server/games/rootaccess/rootaccess.go:432-456 | playing a Debugger leads to a good pending position, with three cards shown exactly if the deck had two |
| `RootAccessEffects.ChoiceSettles` | services/game-server/games/rootaccess/rootaccess.go:458-477 | after a resolve that returns the shown cards every active player holds one card and no card is lost |
| `RootAccessFairness.SameRoundStep` | services/game-server/games/rootaccess/rootaccess.go:509-546 | inside a round a move keeps the turn, for a Debugger, or hands it to the nearest active player; who is out stays out |
| `RootAccessFairness.TurnsAreFair` | services/game-server/games/rootaccess/rootaccess.go:857-899 | in every legal game, between two consecutive turns of a player in a round every player still in takes exactly one turn |
| `RootAccessFairness.FairLap` | services/game-server/games/rootaccess/rootaccess.go:876-899 | the same for any trace of turn passes over distinct seats |
| `RootAccessSafety.ProtectedIsSafe` | services/game-server/games/rootaccess/rootaccess.go:203-237 | for every legal move, also the last of a round: a protected player keeps hand and place if and only if the move is not a timeout penalty against that player, which is legal only if it ends the round |
| `RootAccessSafety.ProtectedInGame` | services/game-server/games/rootaccess/rootaccess.go:203-237 | the same at every move of every legal game |
| `RootAccessSafety.ProtectedWithinRound` | services/game-server/games/rootaccess/rootaccess.go:509-546 | while the round goes on the protected player's hand stays or grows by the card drawn on their turn |
| `RootAccessSafety.FaceDownStays` | services/game-server/games/rootaccess/rootaccess.go:391-430 | the face-down card is used only by the last move of a round |
| `RootAccessShowdown.ShowdownIsFairIff` | services/game-server/games/rootaccess/rootaccess.go:509-546 | for every legal move that ends in a showdown: the first seat that nobody outshines wins, and every survivor holds exactly one card if and only if the move is not a penalty against a bystander |
| `RootAccessShowdown.ShowdownInGame` | services/game-server/games/rootaccess/rootaccess.go:614-639 | the same at every showdown of every legal game |
| `RootAccessWitness.BystanderShowdownIsUnfair` | services/game-server/games/rootaccess/rootaccess.go:614-639 | a legal game of 17 moves in which such a penalty puts out a protected player and makes the player on turn lose the showdown by the first of two cards although the second is the Root |
| `RootAccessWitness.ShortDebuggerGame` | services/game-server/games/rootaccess/rootaccess.go:190-192 | a legal game in which a Debugger is played on a deck of one card and no legal move is left |
| `RootAccessCards.ValueIsPlace` | services/game-server/games/rootaccess/rootaccess_cards.go:24-37 | a card's value is its place in the ranking of the ten cards, and no card has two places |
| `RootAccessCardLaws.MoveObeysRules` | services/game-server/games/rootaccess/rootaccess.go:262-503 | for every accepted move of a running game, whatever is played: hands, piles, places, log, deck, face-down card, marks and reveals become what the rule for that move says, and nothing else changes |
| `RootAccessCardLaws.GameObeysRules` | services/game-server/games/rootaccess/rootaccess.go:243-260 | the same at every move of every legal game |
| `RootAccessCardLaws.OverflowPutsOutTheLower` | services/game-server/games/rootaccess/rootaccess.go:364-383 | a BufferOverflow puts out exactly the one who holds the strictly lower card in the ranking, and nobody on equal cards |
| `RootAccessCardLaws.PingPutsOutIff` | services/game-server/games/rootaccess/rootaccess.go:331-341 | a Ping puts out its target if and only if the guess names the target's card, and nobody else |
| `RootAccessCardLaws.OverflowObeys` | services/game-server/games/rootaccess/rootaccess.go:364-383 | the loser's card goes to the loser's pile, a lost Backdoor is recorded, everybody else keeps hand and pile |
| `RootAccessCardLaws.PingObeys` | services/game-server/games/rootaccess/rootaccess.go:331-341 | on a hit the target's card goes to the target's pile, on a miss nothing but the Ping moves |
| `RootAccessCardLaws.SnifferObeys` | services/game-server/games/rootaccess/rootaccess.go:343-362 | the player on turn, and nobody else, is told the target's card, and nothing moves |
| `RootAccessCardLaws.SwapObeys` | services/game-server/games/rootaccess/rootaccess.go:479-490 | player and target hold each other's card afterwards |
| `RootAccessCardLaws.RebootObeys` | services/game-server/games/rootaccess/rootaccess.go:391-430 | the target sheds the card and draws the top of the deck, or the face-down card when the deck is empty; whoever sheds the Root is out and draws nothing |
| `RootAccessCardLaws.RebootedBackdoorIsNotBooked` | services/game-server/games/rootaccess/rootaccess.go:391-405 | a Backdoor shed by a Reboot is not recorded for the bonus, against the comment in resolveRound |
| `RootAccessCardLaws.MarkObeys` | services/game-server/games/rootaccess/rootaccess.go:325-329 | Backdoor and Firewall list their player once, the Encrypted Key and a card without target do nothing but lie on the pile |
| `RootAccessCardLaws.RootObeys` | services/game-server/games/rootaccess/rootaccess.go:492-495 | whoever plays the Root is out with the other card |
| `RootAccessCardLaws.DebuggerObeys` | services/game-server/games/rootaccess/rootaccess.go:432-456 | the kept card and the next two of the deck, or what it has, are shown in order and the hand is empty |
| `RootAccessCardLaws.ResolveObeys` | services/game-server/games/rootaccess/rootaccess.go:458-477 | the kept card is the new hand and the two others go under the deck in the order given |
| `RootAccessCardLaws.PenaltyObeys` | services/game-server/games/rootaccess/rootaccess.go:833-855 | the player is out, the hand goes to that player's pile and log in order, and a Backdoor in it is recorded |
| `RootAccessRoundLaws.WinnerTakes` | services/game-server/games/rootaccess/rootaccess.go:614-639 | the round's winner is the one survivor to whom all others lose: by a lower card in the ranking, by the same card and a poorer pile, or by both the same and a later seat |
| `RootAccessRoundLaws.RoundEndsFairly` | services/game-server/games/rootaccess/rootaccess.go:550-610 | for every legal move that leaves nothing to draw or nobody to play against: exactly that survivor wins the round, it pays that player and the only Backdoor, the game ends exactly if somebody has 7, 5, 4 or 3 tokens, by seat, and otherwise the winner starts the next deal |
| `RootAccessRoundLaws.TurnPassesFairly` | services/game-server/games/rootaccess/rootaccess.go:509-546 | for every other legal move that passes the turn: the nearest active player draws the top card and loses protection, everybody else keeps hand and protection, and nothing else changes |
| `RootAccessRoundLaws.DealIsFresh` | services/game-server/games/rootaccess/rootaccess.go:726-781 | one card face down, three face up for two players only, one to each seat in order, one more for the starter, the rest in the deck in order, all lists empty |
| `RootAccessRoundLaws.GameOpensFresh` | services/game-server/games/rootaccess/rootaccess.go:40-76 | a game opens with such a deal, no tokens out and the first seat to start |
| `RootAccessRoundLaws.GameGoesOn` | services/game-server/games/rootaccess/rootaccess.go:509-610 | at every move of every legal game the position after the effect is left alone, passed on or scored as above |
| `RootAccessAdmission.AcceptedIff` | services/game-server/games/rootaccess/rootaccess.go:82-237 | in every position of a game a move is accepted if and only if it is a penalty, or the player on turn plays a card in hand that the Key rule, the target rule and the guess rule allow, or resolves a pending Debugger with shown cards |
| `RootAccessAdmission.AcceptedInGameIff` | services/game-server/games/rootaccess/rootaccess.go:82-237 | the same at every point of every legal game |
| `RootAccessSafety.PenaltyAfterEndPaysAgain` | services/game-server/games/rootaccess/rootaccess.go:86-88 | a penalty in a finished game is accepted, and if it leaves one player that player is paid for the round once more |
| `RootAccessWitness.DebuggerGame` | services/game-server/games/rootaccess/rootaccess.go:432-456 | a legal game that reaches a pending Debugger with three different cards shown |
| `RootAccessWitness.PendingBreaksAreReachable` | services/game-server/games/rootaccess/rootaccess.go:175-201 | in that game any penalty and a tripled choice are both accepted and lead to a state that breaks the invariant |
| `RootAccessWitness.BystanderBreaksAreReachable` | services/game-server/games/rootaccess/rootaccess.go:497-503 | in the first position of every legal game of three or more players a penalty against another player is accepted and leads to a state that breaks the invariant |
| `RootAccessSafety.PendingResolvableIff` | services/game-server/games/rootaccess/rootaccess.go:175-201 | a pending Debugger has a legal resolve if and only if three cards are shown |
| `RootAccessSafety.ShortDebuggerSticks` | services/game-server/games/rootaccess/rootaccess.go:190-192 | a Debugger played on fewer than two deck cards leaves a position with no legal move |
| `RootAccessSafety.RunScores` | services/game-server/games/rootaccess/rootaccess_cards.go:95-106 | before the end all tokens are below the target and r finished rounds paid between r and 2r tokens; the winner ends with the target or one more |
| `RootAccessCards.FullDeckIsComposition` | services/game-server/games/rootaccess/rootaccess_cards.go:48-67 | a sequence with the deck's card counts is a permutation of the 21-card composition |
| `RootAccessTable.Table.ActivePlayers` | services/game-server/games/rootaccess/rootaccess.go:857-872 | the scan collects exactly the players who are not eliminated, in seat order |
| `RootAccessTable.Table.NextActivePlayer` | services/game-server/games/rootaccess/rootaccess.go:876-899 | the circular scan computes the specified next player |
| `RootAccessTable.Table.HighestHandWinner` | services/game-server/games/rootaccess/rootaccess.go:614-639 | the loop over candidates computes the showdown winner that RootAccessRoundLaws.WinnerTakes describes |
| `RootAccessTable.Table.RemoveFromHand` | services/game-server/games/rootaccess/rootaccess.go:798-813 | removes the first occurrence of a card from one hand and nothing else |
| `RootAccessTable.Table.EliminatePlayer` | services/game-server/games/rootaccess/rootaccess.go:833-855 | in-place elimination equals the specified elimination |
| `RootAccessTable.Table.Deal` | services/game-server/games/rootaccess/rootaccess.go:726-781 | in-place dealing equals the specified deal |
| `RootAccessTable.Table.Score` | services/game-server/games/rootaccess/rootaccess.go:550-585 | in-place scoring pays exactly the specified tokens |
| `RootAccessTable.Table.Resolve` | services/game-server/games/rootaccess/rootaccess.go:550-610 | in-place round resolution equals the specified one |
| `RootAccessTable.Table.Advance` | services/game-server/games/rootaccess/rootaccess.go:509-546 | in-place turn passing equals the specified one |
| `RootAccessTable.Table.Reboot` | services/game-server/games/rootaccess/rootaccess.go:391-430 | in-place Reboot equals the specified one |
| `RootAccessTable.Table.ShowChoices` | services/game-server/games/rootaccess/rootaccess.go:432-456 | in-place Debugger equals the specified one |
| `RootAccessTable.Table.Effect` | services/game-server/games/rootaccess/rootaccess.go:262-319 | in-place card effects equal the specified ones, which obey the rules of RootAccessCardLaws |
| `RootAccessTable.Table.Apply` | services/game-server/games/rootaccess/rootaccess.go:243-319 | the whole in-place move equals the specified step, so every theorem on steps holds of it |
| `RootAccessBot.CollectVisible` | services/game-server/games/rootaccess/adapter.go:113-138 | the collected cards are, card by card, what the observer sees |
| `RootAccessBot.BuildUnknownPool` | services/game-server/games/rootaccess/adapter.go:140-159 | the pool is the multiset difference of the full deck and the visible cards |
| `RootAccessBot.Determinize` | services/game-server/games/rootaccess/adapter.go:84-111 | the loop over seats builds the specified sampled world for any order of the pool |
| `RootAccessBot.SampleWorld` | services/game-server/games/rootaccess/adapter.go:72-111 | collecting, subtracting, shuffling and sampling together: for any random draws the bot on turn gets a world that keeps what it sees, gives each active opponent one card and uses the 21 cards exactly |
| `RootAccessBot.SampledHands` | services/game-server/games/rootaccess/adapter.go:72-111 | on turn, a sampled world keeps what the bot sees and gives every active opponent exactly one card |
| `RootAccessBot.SampledWorldFits` | services/game-server/games/rootaccess/adapter.go:72-159 | seen cards, sampled hands and sampled deck are exactly the 21-card composition |
| `RootAccessBot.SampledWorldHasOneTooMany` | services/game-server/games/rootaccess/adapter.go:84-111 | the face-down card is sampled and also stays set aside: the sampled world holds 22 cards and is no position of a legal game |
| `RootAccessBotMoves.StandardMoves` | services/game-server/games/rootaccess/adapter.go:196-264 | the generator lists exactly the specified moves, is never empty in a good position, and its last-resort branch is dead |
| `RootAccessBotMoves.ListedIsAccepted` | services/game-server/games/rootaccess/adapter.go:196-264 | in every playing position whose player on turn is in the round, legal or sampled, each listed move is accepted by the validator and benign |
| `RootAccessBotMoves.AcceptedIsListed` | services/game-server/games/rootaccess/rootaccess.go:111-171 | every accepted card play is listed in canonical form unless it omits a target although a legal one exists |
| `RootAccessBotMoves.CanonicalIsEquivalent` | services/game-server/games/rootaccess/rootaccess.go:262-319 | the canonical form of an accepted play has the same effect, for every shuffle |
| `RootAccessBotMoves.DebuggerResolveMoves` | services/game-server/games/rootaccess/adapter.go:266-289 | one accepted, benign resolve per shown card, returning the other two in order |
| `RootAccessBotMoves.Result` | services/game-server/games/rootaccess/adapter.go:352-390 | in every position whose score sheet is in order, legal or sampled: a finished game scores 0 or 1; before, the score is 0.7 times the share of tokens, plus, while in the round, 0.1 and 0.2 times a ninth of the highest card held; it lies in [0,1), below a win |
| `RootAccessSearch.SampledIsSearchable` | services/game-server/games/rootaccess/adapter.go:72-111 | every world sampled for the player on turn, although no legal position, is a position the search can play and score |
| `RootAccessSearch.SearchStep` | services/game-server/games/rootaccess/adapter.go:318-333 | every accepted card play or resolve leads from such a position to such a position, through effects, showdowns and new deals |
| `RootAccessSearch.ListedInSearch` | services/game-server/games/rootaccess/adapter.go:196-264 | the moves the bot lists in such a position are accepted there |
| `RootAccessSearch.PlayoutIsGradable` | services/game-server/games/rootaccess/adapter.go:352-390 | hence every position of every playout from a sampled world meets what Result needs |
| `Shuffle.ShuffleWith` | shared/platform/randutil/randutil.go:43-53 | the in-place downward swaps on a copy compute the specified shuffle and leave the input alone |
| `Shuffle.ShuffledPermutes` | shared/platform/randutil/randutil.go:43-53 | for any draws in range nothing is lost or duplicated |
| `Shuffle.EveryPermutationReachable` | shared/platform/randutil/randutil.go:26-38 | every permutation is the result of some draws in range |
| `SnakeDraft.SnakeTeams` | shared/domain/matchmaking/matchmaker.go:208-235 | the zigzag loop assigns every team exactly the picks of the draft, for any team size and count |
| `SnakeDraft.Zigzag` | shared/domain/matchmaking/matchmaker.go:222-234 | one step of the zigzag: the next team in the direction, or a turn at either end |
| `SnakeDraft.AvgMMR` | shared/domain/matchmaking/matchmaker.go:294-303 | the accumulator computes the mean, and zero for nobody |
| `SnakeDraft.DraftUsesEveryone` | shared/domain/matchmaking/matchmaker.go:208-235 | the teams have equal size and together hold exactly the window's players |
| `SnakeDraft.DraftIsBalanced` | shared/domain/matchmaking/matchmaker.go:205-235 | any two teams' averages differ by at most the window's rating range divided by the team size |
| `GreedyScan.ScanIsSound` | shared/domain/matchmaking/matchmaker.go:180-247 | the windows taken are in order, disjoint and good |
| `GreedyScan.MarksAreCovered` | shared/domain/matchmaking/matchmaker.go:242-245 | a player is marked used if and only if a taken window covers it |
| `GreedyScan.ScanConserves` | shared/domain/matchmaking/matchmaker.go:180-256 | every queue entry either stays or is in exactly one taken window |
| `Matchmaker.FindMaxSpread` | shared/domain/matchmaking/matchmaker.go:195-203 | the loop computes the greatest tolerance in the window, or zero |
| `Matchmaker.LongestWaitDecides` | shared/domain/matchmaking/matchmaker.go:195-203 | with a non-negative rate that is the tolerance of the longest waiter |
| `Matchmaker.MatchQuality` | shared/domain/matchmaking/matchmaker.go:268-291 | one pass over the teams computes one minus the range of averages over the spread, clamped to [0,1] |
| `Matchmaker.LowIsLow` | shared/domain/matchmaking/matchmaker.go:272-282 | the running minimum is attained and below every team average |
| `Matchmaker.HighIsHigh` | shared/domain/matchmaking/matchmaker.go:272-282 | the running maximum is attained and above every team average |
| `MatchmakerLaws.MatchesAreGood` | shared/domain/matchmaking/matchmaker.go:237-246 | matches use disjoint windows and their quality lies between MinQuality and 1 |
| `MatchmakerLaws.MatchesAreBalanced` | shared/domain/matchmaking/matchmaker.go:205-246 | every match has the configured teams of the configured size, with averages within range over team size |
| `MatchmakerLaws.NobodyIsLost` | shared/domain/matchmaking/matchmaker.go:162-259 | the queue is, entry by entry, the disjoint union of the leftover queue and all teams |
| `MatchmakerLaws.ScanIsMaximal` | shared/domain/matchmaking/matchmaker.go:180-247 | no window of neighbours that are all unmatched reaches MinQuality |
| `MatchmakerLaws.ScanIsMaximum` | shared/domain/matchmaking/matchmaker.go:159-161 | no other choice of disjoint good windows of the sorted queue gives more matches |
| `MatchmakerLaws.OnlyRemainderStays` | shared/domain/matchmaking/matchmaker.go:68-70 | with MinQuality at most 0 exactly the queue length modulo the window size stays |
| `MatchmakerLaws.WindowGoodIff` | shared/domain/matchmaking/matchmaker.go:237-240 | a window of any teams is good if and only if no quality is required, or some spread is tolerated and the range of team averages is at most (1 - MinQuality) times it |
| `MatchmakerLaws.WindowBecomesGood` | shared/domain/matchmaking/matchmaker.go:20-26 | with MinQuality below 1 and a positive rate every window becomes good and stays so once a waiting player's tolerance covers range / (1 - MinQuality) |
| `MatchmakerLaws.NeverGood` | shared/domain/matchmaking/matchmaker.go:20-26 | with MinQuality above 1, or 1 for an uneven window, no wait ever makes it good |
| `MatchmakerLaws.WaitingNeverHelps` | shared/domain/matchmaking/matchmaker.go:20-26 | unless the rate is positive a refused window stays refused |
| `MatchmakerLaws.DuelRefusedIff` | shared/domain/matchmaking/matchmaker.go:237-240 | a pair of neighbours is refused if and only if a quality is required and the gap exceeds (1 - MinQuality) times the spread, or no spread is tolerated |
| `MatchmakerLaws.DuelLeftoversAreApart` | shared/domain/matchmaking/matchmaker.go:176-247 | two sorted neighbours who both stay differ by more than (1 - MinQuality) times the longest waiter's spread |
| `MatchmakerLaws.PairIsMatchedIff` | shared/domain/matchmaking/matchmaker.go:193-246 | two players alone in the queue are matched if and only if no quality is required, or the base spread plus rate times the longer wait is positive and (1 - MinQuality) times it covers their gap |
| `MatchmakerPool.Compact` | shared/domain/matchmaking/matchmaker.go:250-256 | the in-place compaction keeps exactly the unmarked entries, in order |
| `MatchmakerPool.Scan` | shared/domain/matchmaking/matchmaker.go:176-247 | the sliding window with its used flags computes exactly the specified matches and marks |
| `MatchmakerPool.TryWindow` | shared/domain/matchmaking/matchmaker.go:193-246 | one free window is refused, or taken and marked, as specified |
| `MatchmakerPool.WindowIsFree` | shared/domain/matchmaking/matchmaker.go:182-191 | the inner loop detects an already matched player |
| `MatchmakerPool.Pool.FindMatches` | shared/domain/matchmaking/matchmaker.go:162-259 | the object's queue becomes the leftover of a sorted arrangement, the matches are those of the scan, and every player is accounted for |
| `QueueTick.FindAndPropose` | services/match-service/internal/queue/queue.go:385-493 | every match formed from the snapshot becomes one fresh proposal, no player is proposed twice, exactly the players of the windows taken leave the queue, exactly the given ids are new, and the whole tick is a sequence of proposal steps |
| `QueueTick.StepsContinueRun` | services/match-service/internal/queue/queue.go:385-493 | steps taken from a reachable store form a run, so the laws of runs hold after a tick |
| `RankedQueueLaws.RunKeeps` | services/match-service/internal/queue/queue.go:262-374 | every run of service calls and clock ticks keeps the invariant of every match |
| `RankedQueueLaws.PendingHasShadow` | services/match-service/internal/queue/queue.go:449-467 | in every reachable state a live pending record has a live shadow with equal players and flags, never both flags set |
| `RankedQueueLaws.ResolvedAtMostOnce` | services/match-service/internal/queue/queue.go:262-374 | a match ends in at most one of started, declined, expired, and is started only if both said yes |
| `RankedQueueLaws.ResolutionIsFinal` | services/match-service/internal/queue/queue.go:305-315 | once resolved, no later run touches the match again |
| `RankedQueueLaws.SecondYesStarts` | services/match-service/internal/queue/queue.go:283-315 | the second acceptance starts the match, removes both records, cancels the expiry and charges nobody |
| `RankedQueueLaws.DeclineCharges` | services/match-service/internal/queue/queue.go:320-374 | a decline charges the decliner alone and queues the other again exactly if that player had accepted |
| `RankedQueueLaws.ExpiryChargesTheOther` | services/match-service/internal/queue/queue.go:545-609 | an expiry with one acceptor leaves that player queued or banned and charges only the other |
| `RankedQueueLaws.ExpiryEffectiveIff` | services/match-service/internal/queue/queue.go:545-551 | a due expiry task takes effect if and only if it runs within the shadow's life |
| `RankedQueueLaws.LateExpiryForgets` | services/match-service/internal/queue/queue.go:545-551 | a run in which a late expiry leaves the acceptor neither queued nor banned |
| `RankedQueueLaws.ExpiryWithoutAcceptor` | services/match-service/internal/queue/queue.go:573-584 | an expiry without an acceptor charges and queues nobody |
| `RankedQueueLaws.RunPenalties` | services/match-service/internal/queue/queue.go:643-687 | in every run a player is banned exactly during the five minutes after a ban of the plain rule over that player's charges |
| `RankedQueueCalls.AcceptIsRecorded` | services/match-service/internal/queue/queue.go:283-299 | an acceptance by either player of a live match is recorded; before the other's, both hashes show exactly that flag added, the match stays open, and queue and penalties are unchanged |
| `RankedQueueCalls.AcceptIsRecordedInRun` | services/match-service/internal/queue/queue.go:262-299 | the same at any point of any run |
| `RankedQueueCalls.BothYesStart` | services/match-service/internal/queue/queue.go:262-315 | two acceptances start the match in either order, and both records and the expiry task are gone |
| `RankedQueueCalls.RefusedChangesNothing` | services/match-service/internal/queue/queue.go:265-281 | a call by a stranger, or on an unknown, resolved or timed out match, changes nothing |
| `RankedQueueCalls.JoinAndLeave` | services/match-service/internal/queue/queue.go:187-252 | joining queues exactly the players who are not banned and leaving removes exactly the caller |
| `RankedQueueCalls.ProposalOpens` | services/match-service/internal/queue/queue.go:445-474 | a proposal takes exactly its two players out of the queue; nobody has accepted, the confirmation is open for exactly 30 seconds, the shadow lives exactly 60, and the expiry is due when the confirmation closes |
| `RankedQueueService.Service.Enqueue` | services/match-service/internal/queue/queue.go:187-239 | the call queues a player who is neither banned nor queued |
| `RankedQueueService.Service.Dequeue` | services/match-service/internal/queue/queue.go:243-252 | the call removes the player and reports whether it was queued |
| `RankedQueueService.Service.RecordDecline` | services/match-service/internal/queue/queue.go:643-687 | push, count and ban equal the specified penalty |
| `RankedQueueService.Service.ProposeMatch` | services/match-service/internal/queue/queue.go:445-474 | the pipeline creates both records and the task and takes both players out of the queue |
| `RankedQueueService.Service.Accept` | services/match-service/internal/queue/queue.go:262-315 | the command sequence equals the protocol's accept step, which RankedQueueCalls.AcceptIsRecorded describes, with its three error answers |
| `RankedQueueService.Service.Decline` | services/match-service/internal/queue/queue.go:320-374 | the command sequence equals the protocol's decline step, with its error answers |
| `RankedQueueService.Service.HandleMatchExpiry` | services/match-service/internal/queue/queue.go:545-609 | the handler equals the protocol's expiry step |
| `QueuePenalty.CountRecent` | services/match-service/internal/queue/queue.go:659-669 | the loop counts the stamps of the last hour |
| `QueuePenalty.ListAgreesWithPlainCount` | services/match-service/internal/queue/queue.go:643-687 | the expiring list of whole-second stamps agrees with a plain count of declines since the last ban, and each ban lasts five minutes |
| `QueuePenalty.BanExactlyAtThird` | services/match-service/internal/queue/queue.go:671-683 | a decline bans exactly if it is the third of the last hour since the last ban |
| `QueuePenalty.OffenseIsAlwaysFirst` | services/match-service/internal/queue/queue.go:675-676 | the offense number is 1 at every ban, so longer bans are never reached |
| `QueuePenalty.BanLadder` | services/match-service/internal/queue/queue.go:691-700 | the ban grows five-fold per offense from 5 minutes up to a day |
| `QueueRace.RunKeepsInv` | services/match-service/internal/queue/queue.go:262-343 | the invariant of one match holds after every interleaving of Redis commands |
| `QueueRace.ResolvedAtMostOnce` | services/match-service/internal/queue/queue.go:262-343 | whatever late writes recreate, a match is resolved at most once |
| `QueueRace.OutcomeIsFinal` | services/match-service/internal/queue/queue.go:305-311 | nothing that follows withdraws or changes the outcome |
| `QueueRace.StartedMeansBothAccepted` | services/match-service/internal/queue/queue.go:290-314 | a start is preceded by an acceptance write of each player |
| `QueueRace.NoStartIsLost` | services/match-service/internal/queue/queue.go:283-299 | once nothing is in flight, a match that both accepted is resolved |
| `QueueRace.RequeuedIffSeen` | services/match-service/internal/queue/queue.go:320-361 | for every run that a decline ends: its Decline read the record exactly once, and the other player is queued again if and only if that player wrote an acceptance before that read; an acceptor is dropped if and only if every write comes after it, before or after the delete |
| `QueueRace.AcceptorCanBeDropped` | services/match-service/internal/queue/queue.go:323-361 | an interleaving in which an acceptance written between read and delete is dropped |
| `QueueRace.LateAcceptorIsDropped` | services/match-service/internal/queue/queue.go:265-299 | an interleaving in which an acceptance written after the delete recreates the records and is dropped |
| `QueueRace.ShadowIsCurrent` | services/match-service/internal/queue/queue.go:283-288 | in every interleaving of an unresolved match the shadow lags behind the pending record only while the writing call is in flight; both show exactly the acceptances written |
| `RatingEngine.TeamDeltas` | shared/domain/rating/engine.go:90-107 | the nested loops over ordered pairs compute every team's normalised delta |
| `RatingDeltas.DeltasSumToZero` | shared/domain/rating/engine.go:90-107 | for any number of teams the deltas before K sum to zero |
| `RatingDeltas.BetterPlaceGainsMore` | shared/domain/rating/engine.go:146-154 | a better placed team with no higher rating gets a strictly larger delta |
| `RatingDeltas.StrongWinnerGainsLess` | shared/domain/rating/engine.go:62 | with a winner rated d above equals, the player i places behind gains more than the winner if and only if 2 n f(-d) < n - 2 i |
| `RatingDeltas.DeltaIsSmall` | shared/domain/rating/engine.go:40-50 | every delta lies strictly between -1 and 1 |
| `RatingPlayers.KBounds` | shared/domain/rating/kfactor.go:57-80 | under the default configuration K lies between 10 and 144 (its value at every point is RatingFactors.KIsProduct) |
| `RatingPlayers.MatchEffect` | shared/domain/rating/engine.go:109-135 | in any match of distinct players, whatever the teams, each player gets the update of the team's delta once, from the ratings before the match |
| `RatingPlayers.MatchMovesLittle` | shared/domain/rating/engine.go:109-118 | in any match of distinct players under the default configuration every rating moves by less than 144 |
| `RatingPlayers.ChangeIsSmall` | shared/domain/rating/engine.go:109-118 | one update moves a rating by less than 144 |
| `RatingPlayers.SoloEffect` | shared/domain/rating/engine.go:109-135 | among distinct single players each gets the update of its own delta, and the reported change is the difference of its ratings |
| `RatingPlayers.UpdatedOnce` | shared/domain/rating/engine.go:109-135 | with distinct players each is updated exactly once, from the ratings before the match |
| `RatingPlayers.SeasonIsSound` | shared/domain/rating/config.go:21-56 | over any sequence of matches from new players the display rating lags by at most 816 and nobody is on both streaks |
| `RatingConservation.DuelConservesIff` | shared/domain/rating/engine.go:60-61 | a one-against-one match conserves the total rating if and only if the score was as expected or both players have the same base K times streak factor |
| `RatingConservation.MatchMoves` | shared/domain/rating/engine.go:60 | for any match of distinct players in any teams: the total rating moves by exactly the sum over the teams of team weight times d(1+|d|), and is conserved if and only if that sum is zero |
| `RatingConservation.TwoTeamsConserveIff` | shared/domain/rating/engine.go:60-61 | two teams of any sizes conserve the total if and only if the score was as expected or the teams weigh the same |
| `RatingConservation.OneWinnerInjects` | shared/domain/rating/engine.go:60 | with one winner among n equally rated single players of equal weight the total rating rises by weight times (n-2)/(4(n-1)): conserved if and only if n is 2 |
| `RatingConservation.ThreeNewPlayersGainSix` | shared/domain/rating/engine.go:60 | three new players with one winner gain six points together, against the documented conservation |
| `RatingFactors.BaseIsOnCurve` | shared/domain/rating/kfactor.go:57-65 | base K is kMax up to the calibration games, kMin from the veteran games on, and on the straight line from kDefault to kMin in between |
| `RatingFactors.DefaultCurve` | shared/domain/rating/config.go:16-36 | by default that is 48 up to 30 games, 10 from 200 games on, and 24 less 14 for every 170 games in between |
| `RatingFactors.DefaultStreaks` | shared/domain/rating/config.go:42-50 | by default the streak factor grows by a tenth per game from the fourth game of a streak on and is 1.5 from the eighth |
| `RatingFactors.NewcomerMovesMost` | shared/domain/rating/types.go:36-42 | a new player has 1500 hidden and shown, no games and no streak, and K is 48 times one plus the surprise |
| `RatingFactors.KIsProduct` | shared/domain/rating/kfactor.go:57-80 | every K is the product of a point on that line, a streak factor of one plus a tenth per game of the longer streak beyond the threshold up to the cap, and a surprise factor between one and two |
| `RatingFactors.CurveFalls` | shared/domain/rating/kfactor.go:57-65 | base K never rises with games played |
| `RatingFactors.ExperienceSteadies` | shared/domain/rating/kfactor.go:10-16 | a player with no fewer games and no longer streak never has the greater K |
| `RatingFactors.ExperienceSteadiesChange` | shared/domain/rating/engine.go:109-118 | nor the greater rating change, up or down |
| `RatingFactors.StreaksCountAlike` | shared/domain/rating/kfactor.go:67-75 | a losing streak counts like a winning one |
| `RatingFactors.MatchChange` | shared/domain/rating/engine.go:109-135 | in any match of distinct players every rating moves by these three factors times the team's delta, the display rating closes its gap to the new rating by the convergence rate, one game is counted and the streaks follow the sign of the change |
| `RatingFactors.TeamIsBetween` | shared/domain/rating/types.go:62-71 | a team's rating lies between its lowest and its highest player's |
| `RatingRoster.Validate` | shared/domain/rating/types.go:115-128 | the checks accept exactly the well-formed results |
| `RatingRoster.TeamMMR` | shared/domain/rating/types.go:62-71 | the accumulator computes the mean rating of the team |
| `RatingRoster.Roster.UpdatePlayer` | shared/domain/rating/engine.go:114-134 | the in-place update of one player equals the specified one, which RatingFactors.MatchChange describes |
| `RatingRoster.Roster.ProcessMatch` | shared/domain/rating/engine.go:82-138 | an invalid result changes nothing; otherwise the in-place updates equal the specified result |
| `RatingLedgerLaws.AfterKeepsChain` | services/rating-service/internal/service/service.go:101-134 | a processed event keeps, for every player and game, a chain of history rows that ends at the stored rating |
| `RatingLedgerLaws.RowIsExact` | services/rating-service/internal/service/service.go:125-133 | a history row runs from the rating before to the rating after and its delta is the difference |
| `RatingLedgerLaws.CommitSparesOthers` | services/rating-service/internal/store/store.go:250-269 | a commit leaves other players and other games alone |
| `RatingLedgerLaws.CommitRecords` | services/rating-service/internal/store/store.go:231-248 | a commit records exactly the event's session for exactly its players |
| `RatingLedgerLaws.ProcessingIsIdempotent` | services/rating-service/internal/service/service.go:136-143 | processing an event again changes nothing |
| `RatingOutcomes.CommitWrites` | services/rating-service/internal/service/service.go:114-134 | a commit appends one row per player in the order of the event, with the event's ids, the stored ratings before and after and their difference, and keeps all older rows |
| `RatingOutcomes.OutcomeDecides` | services/rating-service/internal/service/service.go:155-162 | in every committed session of two, for all pairs of results: a winner gains against a loser, forfeiter or unknown result and the other loses, whatever the ratings; on equal results, a draw for one, the lower rated gains and between equals neither moves |
| `RatingService.ParsePlayers` | services/rating-service/internal/service/service.go:47-55 | parsing succeeds exactly if every player id parses |
| `RatingService.Ledger.FetchRatings` | services/rating-service/internal/store/store.go:125-165 | every requested player is present, with the stored row or the defaults |
| `RatingService.Ledger.UpsertRatings` | services/rating-service/internal/store/store.go:224-272 | the transaction commits if and only if no row violates the unique key, and otherwise leaves the store untouched |
| `RatingService.Ledger.ProcessGameFinished` | services/rating-service/internal/service/service.go:37-153 | the answer and the new store are the specified ones for every event, valid or not |
| `StreamWorkerLaws.StoreIsReplay` | shared/streams/worker.go:222-308 | after any schedule of deliveries, reclaims, crashes and failures the store is the fold of the engine over the committed events in order of first commit |
| `StreamWorkerLaws.CommitsOnce` | services/rating-service/internal/store/store.go:231-248 | an entry commits at most once, and two committed entries of one session share no player |
| `StreamWorkerLaws.RecordedIffCommitted` | services/rating-service/internal/store/store.go:231-248 | the history records a session and player if and only if a committed event involves them |
| `StreamWorkerLaws.RatingsAddUp` | services/rating-service/internal/service/service.go:114-134 | after any schedule every rating is 1500 plus the player's history deltas, the rows chaining after to before |
| `StreamDelivery.RunDelivers` | shared/streams/worker.go:158-220 | every schedule keeps the account of where each entry is |
| `StreamDelivery.NothingIsLost` | shared/streams/worker.go:222-308 | an entry is undelivered, pending, malformed, in the dead-letter stream after at least five deliveries, or handled with nothing left to do |
| `StreamDelivery.HandledIsRated` | shared/streams/worker.go:233-240 | a ranked event of distinct players that left the pending list without the dead-letter stream is in the ledger: a committed entry rates one of its players for its session |
| `StreamDelivery.HandledIsRatedOnce` | services/rating-service/internal/store/store.go:231-248 | if a session is always published with the same players, each player of such an event has exactly one history row for it |
| `StreamDelivery.CommitsIff` | services/rating-service/internal/service/service.go:136-143 | after any schedule a fault-free processing of a well-formed event commits if and only if its players are distinct and no committed event of its session involves any of them |
| `StreamDelivery.RepeatedPlayerNeverCommits` | services/rating-service/internal/store/store.go:238-248 | an event that lists a player twice never commits, in any schedule |
| `StreamDelivery.RepeatedPlayerIsAcknowledged` | services/rating-service/internal/service/service.go:136-143 | and yet a fault-free processing acknowledges it and leaves the store alone |
| `StreamDelivery.TwiceListedIsDropped` | services/rating-service/internal/service/service.go:136-143 | a schedule in which such an event is delivered once and dropped |
| `StreamDeadLetter.FailedEntryMovesIff` | shared/streams/worker.go:242-263 | a fault-free processing of a pending entry that does not decode or whose ids do not parse moves it to the dead-letter stream, off the pending list, if and only if it was delivered at least five times, and otherwise changes nothing |
| `StreamDeadLetter.FailedEntryInRun` | shared/streams/worker.go:242-280 | the same in any schedule; an entry no longer pending stays as it is |
| `StreamDeadLetter.OtherEntriesAreAcknowledged` | shared/streams/worker.go:222-240 | every other entry is acknowledged by one fault-free processing without the dead-letter stream: a malformed one unseen, any other with its event in the store |
| `StreamDeadLetter.FaultLeavesPending` | shared/streams/worker.go:222-246 | a good event stays pending after an early or late crash, a skipped or a failed ack; its rating is in the store exactly in the two late cases |
| `StreamDeadLetter.DeliveriesCount` | shared/streams/worker.go:265-280 | a read delivers the next entry for the first time and a claim delivers a pending one once more |
| `StreamDeadLetter.RetriesEndInDeadLetter` | shared/streams/worker.go:192-262 | from any reachable world, claimed and processed again and again, such an entry stays pending before its fifth delivery and ends in the dead-letter stream at it, once |
| `StreamDeadLetter.PoisonEndsInDeadLetter` | shared/streams/worker.go:249-308 | a schedule in which an entry that does not decode is still pending after three retries and dead-lettered after four |
| `RatingRace.ChainsIffFresh` | services/rating-service/internal/service/service.go:57-61 | with read and commit as two steps: after every interleaving a player's history chains to the stored rating if and only if every commit for that player had read the rating that was still current |
| `RatingRace.UndisturbedChains` | services/rating-service/internal/service/service.go:57-61 | it chains if no other event of that player was committed between an event's read and its commit |
| `RatingRace.OverlapBreaksIff` | services/rating-service/internal/service/service.go:136-145 | two sessions that share a player, both read before either is committed, both commit, and the chain holds if and only if the first left the rating unchanged |
| `RatingRace.OverlapCanBreak` | services/rating-service/internal/service/service.go:136-145 | two overlapping wins of a new player break that player's chain, for every curve |
| `StreamConsumer.Worker.Process` | shared/streams/worker.go:222-263 | the message handler with its faults equals the protocol step, which StreamDeadLetter.FailedEntryMovesIff and OtherEntriesAreAcknowledged describe when nothing fails |
| `StreamConsumer.Worker.DeadLetter` | shared/streams/worker.go:282-308 | copy first, acknowledge only if the copy succeeded |
| `StreamConsumer.Worker.Consume` | shared/streams/worker.go:158-190 | a round of the consume loop delivers as many entries as there are, at most a batch, and then processes exactly these in order, each a protocol step |
| `StreamConsumer.Worker.ClaimIdle` | shared/streams/worker.go:192-220 | a round of the claim loop claims exactly the idle entries found and then processes them in order, each a protocol step |
| `StreamConsumer.StepsContinueRun` | shared/streams/worker.go:127-138 | steps taken from a reachable world are themselves a schedule, so the loops inherit every law |

## Left out

- The JSON accessors of Root Access (coercions between stored and typed state): the model works on the typed state.
- `FilterState`, the Monte Carlo search, rollout scoring, lobby and runtime services: views and heuristics.
- Tic-tac-toe, achievements, backfill, the frontend, HTTP and gRPC handlers, authentication, chat and notifications: easy or plumbing.
- The derivation of shuffles from cryptographic randomness and its error path; every result of the random source is covered instead.
- RootAccessEffects.CardEffectSettles: states the accounts after an effect, as do `RebootSettles`, `SwapSettles`, `EliminateSettles`, `DebuggerKeeps` and `ChoiceSettles`; which cards move and who is out is in `RootAccessCardLaws`.
- RootAccessAdmission.AcceptedIff: says which moves are refused, not with which of the error messages.
- StreamDeadLetter.FailedEntryMovesIff: when dead-lettering itself fails, only that the entry is not lost is stated (`StreamDelivery.NothingIsLost`).
- RootAccessStep.StepKeepsIffBenign: is about running games; of penalties after the end only the repeated payment is stated.
- RootAccessBot.SampleWorld: the random draws are a parameter; the random source and its error path are left out.
- RootAccessSearch.SearchStep: moves that the search tree replays in another sampled world, where the validator might refuse them, are not modelled.
- The observer of a determinized world who is not on turn: the sampling theorems are about the player on turn.
- MatchmakerPool.SortByMMR: the library sort is replaced by an insertion sort; everything downstream uses only that the result is sorted and a permutation.
- Matchmaker configurations with no teams or no players per team: the code would index an empty list or emit empty matches.
- Locking in the matchmaker and the distributed lock of the tick: each call is one step.
- QueueTick.FindAndPropose: reads the queue as one snapshot, in the one-against-one configuration that the service uses; players who leave between snapshot and proposal are not modelled.
- Queue metadata, positions, estimated waits, notifications and ratings fetched on enqueueing: no effect on the protocol.
- RankedQueueLaws.RunPenalties: a ban is read to the millisecond; the service reads its remaining time in whole seconds, which rounds, so a ban can lift up to half a second early.
- Failed Redis, gRPC or task-queue calls in the queue, and the race between expiry and accept at command grain.
- QueueRace.ResolvedAtMostOnce: no key expires during the interleaving, and each player has at most one call in flight.
- Any claim that a player is never both queued and in a pending match: enqueueing checks only the ban and the queue.
- StreamDelivery.HandledIsRated: speaks of one player of the session; `StreamDelivery.HandledIsRatedOnce` of every player when rosters are stable.
- RatingRoster.Roster.ProcessMatch: players are kept in a table by id instead of behind pointers; a player named twice is updated twice, as in the code.
- Floating-point rounding and the logistic formula itself.
- StreamWorkerLaws.StoreIsReplay: processing is serialised; `RatingRace` treats events in flight at once, without the stream around them and without the lock waits of the database.
- Stream trimming, the idle-time rule of reclaiming (any pending entry may be reclaimed), and the claim that a skipped ack is free of retry charge.
- RatingService.Ledger.ProcessGameFinished: session and result ids are checked before the engine runs, not after; nothing is written in between.
