# Blackjack trainer: a verified model of the game engine

This project models the core of a blackjack training program: cards and hands, the
table rules, hand results, the shoe, the three card-counting systems with their
counter and registry, the hand state machine (plain and with counting), the basic
and count-deviation strategies, the input validators, the session statistics and
the session records that are saved as dictionaries. Each source file becomes one
module. The program's names appear in the model and its doc comments.

How the source's forms are carried over:

- Objects whose fields the program updates in place are classes:
  - `Hands.Hand`, `Shoes.Shoe` and `Counters.CardCounter`;
  - `SystemManager.CountingSystemManager` and `Deviations.DeviationStrategy`;
  - `Games.BlackjackGame` and `CountingGames.CountingBlackjackGame`;
  - `Stats.SessionStats` and its two accuracy records, and `SessionRecords.SessionData`.

  Each class has a `Valid()` invariant. Each of its methods is proved against a pure
  function of the object's state, and that function's properties are proved as lemmas.
- A hand of blackjack is the value `Round.Table`. Each transition of the source's game
  object is a function on it that returns the new table with the method's result or
  error. Every method of `Games.BlackjackGame` is proved to move the object exactly as
  its transition does. The transitions are not atomic: a deal that fails part-way
  leaves the cards dealt so far, and the model returns that partial table with the error.
- Loops that compute a value from local accumulators are methods with loop invariants,
  proved equal to a specification function. These are a hand's value and softness,
  the situation totals and the construction of the decks.
- Dictionaries read and written by the session records are a `Json` datatype. Each
  `from_dict` returns a `Result` carrying the error the source would raise. Round trips
  are proved for each record and for the whole session.
- Exceptions are values of `Errors.ErrorKind`. Each one names the exception class the
  source raises and the condition that failed.
- The clock, the random shuffle and the session duration are parameters:
  - `now` and `later` stand for `datetime.now()`;
  - `draws` is the sequence of random draws a Fisher–Yates shuffle consumes;
  - `durationMinutes` is the statistics' session duration;
  - `penetrationText` is the formatted penetration percentage.

Behaviours of the code a reader may not expect, each modelled as the code has it:

- The shoe raises the same `GameLogicError` for an exhausted shoe and for a shoe past
  its threshold (src/models/shoe.py:66-70). The model keeps the two causes apart only
  as the error's detail.
- `GameRules` accepts a penetration from 0.1 to 0.9 (src/models/game_rules.py:30),
  although the shoe's docstring (src/models/shoe.py:18) and `validate_penetration`
  (src/utils/validation.py:214) accept up to 0.95.
- A blackjack result keeps any payout above 1.0 that the caller gives; a payout of
  1.0 or less becomes 1.5 (src/models/game_result.py:55-56). The rules' payout reaches
  the result only through `_determine_winner` (src/game/blackjack_game.py:313).
- After a double, the payout is twice the ordinary result's, 2 for a win and -2 for a
  loss (src/game/blackjack_game.py:131-135).
- A game's `reset` shuffles only the cards left in the shoe
  (src/game/blackjack_game.py:236-237 calling src/models/shoe.py:52). It does not
  rebuild the shoe. The counting game restarts its count whenever the shoe's dealt
  count is zero after a reset.
- Basic strategy never advises surrender: no chart holds that action
  (src/strategy/basic_strategy.py:107-306). It stands on 2,2 against an 8, because
  the pair chart says hit there (src/strategy/basic_strategy.py:247) and the hard
  chart has no entry for a total of 4, whose default is stand
  (src/strategy/basic_strategy.py:69).

## Model

| member | source | states |
|---|---|---|
| Cards.PipsIsSymbolNumeral | src/models/card.py:59 | a number card's value is `int(rank.value)`: reading its rank symbol as an integer gives exactly that numeral |
| Cards.Value | src/models/card.py:45-59 | an ace is worth 11 or 1 as the flag says; a ten or a face card is worth 10 and only those are; every other card is worth 2 to 10 |
| Cards.Pips | src/models/card.py:59 | a number card's numeral lies between 2 and 10 |
| Cards.ValueDependsOnlyOnRank | src/models/card.py:54-59 | two cards of the same rank have the same value whatever their suits; the ace flag changes only an ace's value |
| Cards.CardEquality | src/models/card.py:69-73 | two cards are equal exactly when their suits and ranks are both equal |
| Cards.SuitFromSymbol | src/models/card.py:7-12 | a suit found from a text carries exactly that text as its value |
| Cards.SuitSymbolRoundTrip | src/models/card.py:7-12 | looking a suit up by its own value gives back that suit |
| Cards.RankFromSymbol | src/models/card.py:15-29 | a rank found from a text carries exactly that text as its value |
| Cards.RankSymbolRoundTrip | src/models/card.py:15-29 | looking a rank up by its own value gives back that rank |
| Cards.AceSymbol | src/models/card.py:17 | the text "A" belongs to the ace and to no other rank |
| Actions.ActionFromText | src/models/action.py:6-12 | an action found from a text carries exactly that text as its value |
| Actions.ActionTextRoundTrip | src/models/action.py:6-12 | looking an action up by its own value gives back that action |
| Hands.AceCount | src/models/hand.py:36-39 | the number of aces never exceeds the number of cards |
| Hands.ElevenIsHardPlusTens | src/models/hand.py:36-41 | the all-aces-as-11 total is the all-aces-as-1 total plus 10 per ace, and that total is at least the number of aces |
| Hands.DemoteResult | src/models/hand.py:44-46 | the demotion loop ends on an ace assignment: aces still high only if the total is at most 21, and one more high ace would bust |
| Hands.BestTotalIsBestAssignment | src/models/hand.py:26-48 | the value is the highest ace assignment that does not bust, or the all-aces-as-1 total when every assignment busts |
| Hands.SoftIffAceFits | src/models/hand.py:50-77 | a hand is soft exactly when it holds an ace and counting one ace as 11 keeps it at 21 or less |
| Hands.HardAtMostBest | src/models/hand.py:26-48 | the value is never below the all-aces-as-1 total, and a soft hand's value is at least 10 above it |
| Hands.HardSeventeenNotSoft | src/models/hand.py:50-77 | a hand whose all-aces-as-1 total is 17 or more is never soft |
| Hands.HardTotalGrows | src/models/hand.py:18-24 | adding a card raises the all-aces-as-1 total by that card's low value, so by at least 1 |
| Hands.EmptyHand | src/models/hand.py:10-16 | an empty hand is worth 0 and is neither soft, blackjack, bust, splittable nor doublable |
| Hands.Hand.constructor | src/models/hand.py:10-16 | a new hand holds exactly the cards it was given |
| Hands.Hand.AddCard | src/models/hand.py:18-24 | the card goes at the end; earlier cards keep their order |
| Hands.Hand.Clear | src/models/hand.py:117-119 | the hand is left empty |
| Hands.Hand.Value | src/models/hand.py:26-48 | the two loops compute the best assignment total of the hand's cards |
| Hands.Hand.IsSoft | src/models/hand.py:50-77 | the loops decide softness as the soft-hand definition does |
| Hands.Hand.IsBlackjack | src/models/hand.py:79-85 | exactly two cards whose value is 21 |
| Hands.Hand.IsBust | src/models/hand.py:87-93 | the value is over 21 |
| Hands.Hand.CanSplit | src/models/hand.py:95-107 | exactly two cards of equal low value (equal rank implies it) |
| Hands.Hand.CanDouble | src/models/hand.py:109-115 | exactly two cards |
| Hands.Hand.CardCount | src/models/hand.py:121-127 | the number of cards held |
| Situations.Situation | src/models/game_situation.py:8-25 | a situation built from cards and an up card has the dataclass defaults: no double, split or surrender, first decision, hand 1 |
| Situations.PlayerTotal | src/models/game_situation.py:27-44 | the loops give the same value as a hand holding those cards |
| Situations.IsSoftHand | src/models/game_situation.py:46-59 | soft exactly when there is an ace and counting every ace as 11 stays at 21 or less |
| Situations.SoftHandImpliesSoft | src/models/game_situation.py:46-59 | a soft situation is always a soft hand |
| Situations.TwoAcesDisagree | src/models/game_situation.py:46-59 | two aces make a soft hand but not a soft situation, so the two soft tests differ |
| Situations.PairIsSplittable | src/models/game_situation.py:61-69 | the situation's pair test is the hand's split test on the same cards |
| Situations.SituationBlackjackIsHandBlackjack | src/models/game_situation.py:71-75 | a situation blackjack is a hand blackjack on the first decision |
| Results.OutcomeFromText | src/models/game_result.py:8-14 | an outcome found from a text carries exactly that text as its value |
| Results.OutcomeTextRoundTrip | src/models/game_result.py:8-14 | looking an outcome up by its own value gives back that outcome |
| Results.MakeResult | src/models/game_result.py:37-60 | the constructed result is normalised: bust flags follow totals over 21, a blackjack outcome sets the player flag, a payout that agrees with the outcome is kept and any other is replaced by the outcome's default; no other field changes |
| Results.NormalizeIdempotent | src/models/game_result.py:37-60 | constructing again from a normalised result's own fields gives the same result |
| Results.MakeResultIdempotent | src/models/game_result.py:37-60 | applying the constructor twice equals applying it once |
| Results.SmallBlackjackPayoutOverridden | src/models/game_result.py:55-56 | a blackjack asked to pay 1.0 or less pays 1.5 |
| Results.WinningIffPositivePayout | src/models/game_result.py:62-68 | on a normalised result, winning iff the payout is positive, losing iff negative, never both, and a push is neither |
| Results.NetResultSign | src/models/game_result.py:70-72 | on a positive bet the net result is a gain iff winning, a loss iff losing, zero iff a push |
| Rules.NewGameRules | src/models/game_rules.py:25-34 | built exactly when the deck count is 1, 2, 4, 6 or 8, the penetration is within 0.1 to 0.9 and the payout is positive; otherwise the first failing check's `ValueError`, in source order |
| Rules.TotalCards | src/models/game_rules.py:36-38 | for valid rules, a whole number of 52-card decks between 52 and 416 cards |
| Rules.PenetrationCards | src/models/game_rules.py:40-42 | the floor of total cards times penetration, and for valid rules fewer than the total |
| Rules.DefaultsAreValid | src/models/game_rules.py:12-23 | the defaults (H17, double after split, no surrender, 6 decks, 0.75, 3:2) pass validation; 312 cards, reshuffle point 234 |
| Rules.NinetyFivePercentRejected | src/models/game_rules.py:30-31 | a penetration of 0.95 is rejected as a penetration error |
| Shoes.Deal | src/models/shoe.py:57-74 | a shoe at its threshold fails with the penetration error, an empty one with the empty-shoe error, both unchanged; otherwise the front card is dealt, the rest stays in order and the dealt count grows by one |
| Shoes.DealKeepsCardsPlusDealt | src/models/shoe.py:57-74 | cards left plus cards dealt is the same before and after any deal |
| Shoes.EmptyShoeBelowThresholdIsStuck | src/models/shoe.py:57-74 | an empty shoe below its threshold stays unchanged through any number of deals, each failing as empty, and never asks for a shuffle |
| Shoes.RepeatTakesFront | src/models/shoe.py:57-74 | successive deals before the threshold take the cards from the front in order |
| Shoes.ShortShoeRunsDry | src/models/shoe.py:57-74 | a shoe holding fewer cards than it may still deal is emptied below its threshold and then every deal fails as empty |
| Shoes.ThresholdBounds | src/models/shoe.py:24-33 | the threshold is the floor of total cards times penetration, and for an accepted configuration at least 5 and below the total |
| Shoes.RankIndex | src/models/card.py:15-29 | each rank sits at its own place in the enumeration order |
| Shoes.SuitIndex | src/models/card.py:7-12 | each suit sits at its own place in the enumeration order |
| Shoes.OneDeck | src/models/shoe.py:48-50 | a deck is 52 cards, suits outer and ranks inner |
| Shoes.FreshShoe | src/models/shoe.py:44-50 | n decks are 52 n cards |
| Shoes.DeckPrefixStep | src/models/shoe.py:48-50 | the inner loop appends the next card of the deck order |
| Shoes.OneDeckDistinct | src/models/shoe.py:48-50 | no card occurs twice in a deck |
| Shoes.OneDeckCount | src/models/shoe.py:48-50 | a deck holds every suit and rank exactly once |
| Shoes.FreshShoeCount | src/models/shoe.py:44-50 | a fresh shoe of n decks holds every suit and rank exactly n times |
| Shoes.Shoe.constructor | src/models/shoe.py:30-42 | the shoe holds the fresh decks (in order unless shuffled), nothing dealt, threshold as computed |
| Shoes.Shoe.CreateDecks | src/models/shoe.py:44-50 | the three loops build exactly the fresh shoe |
| Shoes.Shoe.Shuffle | src/models/shoe.py:52-55 | the cards are rearranged, never added or lost, and the dealt count is 0 |
| Shoes.Shoe.CardsRemaining | src/models/shoe.py:76-82 | the number of cards left, which is the total less those dealt while the shoe is complete |
| Shoes.Shoe.CardsDealtCount | src/models/shoe.py:84-90 | the dealt count, which is the total less the cards left while the shoe is complete |
| Shoes.Shoe.NeedsShuffle | src/models/shoe.py:92-98 | due exactly when the dealt count reaches the threshold, that is when at most total minus threshold cards are left |
| Shoes.Shoe.DealCard | src/models/shoe.py:57-74 | behaves as the deal on the shoe's state and keeps a complete shoe complete |
| Shoes.Shoe.Reset | src/models/shoe.py:108-111 | the shoe again holds every card of its decks, shuffled, nothing dealt |
| Shoes.NewShoe | src/models/shoe.py:13-42 | a bad deck count or penetration is an `InvalidConfigurationError` naming the first failed check; otherwise a fresh full shoe |
| Shoes.DefaultShoe | src/models/shoe.py:13 | six decks at 0.75 reshuffle after 234 cards |
| CountingSystems.Weight | src/counting/counting_system.py:13-23 | every built-in system weighs a card -1, 0 or +1 |
| CountingSystems.CountValue | src/models/card.py:79-92 | with a system the card's weight in it, with none 0 |
| CountingSystems.HiLoByPointValue | src/counting/hi_lo.py:18-41 | Hi-Lo gives +1 exactly to cards worth 2 to 6, 0 exactly to 7 to 9, -1 exactly to ten-valued cards and aces |
| CountingSystems.HiOptIByPointValue | src/counting/hi_opt_i.py:21-44 | Hi-Opt I gives +1 exactly to 3 to 6, 0 exactly to aces, 2 and 7 to 9, -1 exactly to ten-valued cards |
| CountingSystems.KODiffersFromHiLoOnSevens | src/counting/ko.py:22-45 | KO and Hi-Lo weigh every rank alike except the seven, which KO counts one higher |
| CountingSystems.BuiltInIgnoresSuit | src/counting/hi_lo.py:18-41 | a built-in system's weight depends on the rank alone |
| CountingSystems.WeightSumAppend | src/counting/card_counter.py:25-32 | the weight of two runs of cards is the sum of their weights |
| CountingSystems.WeightSumSnoc | src/counting/card_counter.py:25-32 | one more card adds its weight to the sum |
| CountingSystems.DeckPrefixSum | src/models/shoe.py:44-50 | the weight of a deck prefix is the weight of its full suits plus the ranks begun |
| CountingSystems.RankWeightsWrittenOut | src/counting/hi_lo.py:18-41 | the per-suit weight is the sum of the thirteen ranks' weights |
| CountingSystems.DeckSum | src/models/shoe.py:44-50 | a full deck weighs four times one suit under a built-in system |
| CountingSystems.Balance | src/counting/ko.py:10-20 | Hi-Lo and Hi-Opt I sum to 0 over a deck (balanced); KO sums to +4 (unbalanced) |
| Counters.CardCounter.constructor | src/counting/card_counter.py:13-23 | the running count and cards seen start at 0 |
| Counters.CardCounter.UpdateCount | src/counting/card_counter.py:25-32 | the running count grows by the card's weight and cards seen by one, so the count stays the weight sum of the cards seen |
| Counters.CardCounter.Reset | src/counting/card_counter.py:60-63 | both accumulators return to 0 |
| Counters.CardCounter.RemainingDecks | src/counting/card_counter.py:73-82 | remaining decks times 52 is the unseen cards, negative once more cards were seen than the shoe holds |
| Counters.CardCounter.TrueCount | src/counting/card_counter.py:42-58 | exactly 0 when no deck remains |
| Counters.TrueCountPerDeck | src/counting/card_counter.py:42-58 | while decks remain, the true count times the remaining decks is the running count, with the same sign |
| Counters.TrueCountPerCard | src/counting/card_counter.py:42-58 | while cards remain unseen, the true count times the unseen cards is 52 times the running count |
| Counters.HiLoScenario | src/counting/card_counter.py:25-40 | counting 5, K, 6, 7 with Hi-Lo gives a running count of +1 after four cards |
| Counters.OneDeckTrueCount | src/counting/card_counter.py:42-58 | with one deck and nothing seen the true count equals the running count |
| SystemManager.CountingSystemManager.constructor | src/counting/system_manager.py:13-22 | a new manager holds Hi-Lo, KO and Hi-Opt I under their names, listed in that order |
| SystemManager.CountingSystemManager.RegisterSystem | src/counting/system_manager.py:24-30 | the system is filed under its name, replacing any system of that name; a new name is listed last, a replaced one keeps its place |
| SystemManager.CountingSystemManager.GetSystem | src/counting/system_manager.py:32-41 | a system exactly for a registered name, and it carries that name; otherwise none |
| SystemManager.CountingSystemManager.ListSystems | src/counting/system_manager.py:43-49 | every registered name and nothing else, each once |
| SystemManager.CountingSystemManager.GetDefaultSystem | src/counting/system_manager.py:51-57 | the system registered as "Hi-Lo" |
| SystemManager.CountingSystemManager.IsSystemAvailable | src/counting/system_manager.py:59-68 | available exactly when the lookup finds the name |
| SystemManager.CountingSystemManager.Length | src/counting/system_manager.py:70-72 | the number of registered systems equals the length of the name list |
| SystemManager.BuiltInRegistry | src/counting/system_manager.py:18-22 | the three default systems form a valid registry |
| SystemManager.RegistryStep | src/counting/system_manager.py:24-30 | registering keeps every name listed once and every system filed under its own name |
| SystemManager.DistinctKeys | src/counting/system_manager.py:70-72 | a dictionary whose keys are a list without repeats has as many entries as the list |
| BasicStrategies.DealerKey | src/strategy/basic_strategy.py:32-33 | the up card's key lies in 2 to 11; it is 11 exactly for an ace and otherwise the card's value |
| BasicStrategies.HardChart | src/strategy/basic_strategy.py:107-187 | the hard chart has an entry exactly for totals 5 to 21 against keys 2 to 11, and only hits, stands and doubles |
| BasicStrategies.SoftChart | src/strategy/basic_strategy.py:189-234 | the soft chart has an entry exactly for soft totals 13 to 20 against keys 2 to 11, and only hits, stands and doubles |
| BasicStrategies.PairChart | src/strategy/basic_strategy.py:236-306 | the pair chart answers only hit, stand, double or split |
| BasicStrategies.PairChartCoversEveryRank | src/strategy/basic_strategy.py:236-306 | every rank's text has a pair-chart entry against every dealer key |
| BasicStrategies.ChartAction | src/strategy/basic_strategy.py:66-88 | a missing key stands; a double becomes a hit when doubling is not allowed; any other entry is kept |
| BasicStrategies.PairAction | src/strategy/basic_strategy.py:90-99 | a split exactly when the pair chart's entry is a split |
| BasicStrategies.GetAction | src/strategy/basic_strategy.py:17-50 | a blackjack stands; the answer is never surrender; a double only with two cards; a split exactly for a non-blackjack pair the chart splits |
| BasicStrategies.BustHandStands | src/strategy/basic_strategy.py:17-50 | a bust hand is advised to stand, since no chart has its total |
| BasicStrategies.TwoCardsNeverBust | src/models/hand.py:26-48 | two cards are never bust |
| BasicStrategies.TwoTwosAgainstEightStand | src/strategy/basic_strategy.py:245-248 | 2,2 against an 8 is not split and, total 4 having no hard-chart entry, stands |
| BasicStrategies.SoftTwentyOneStands | src/strategy/basic_strategy.py:78-88 | a three-card soft 21 has no soft-chart entry and stands |
| BasicStrategies.DoubleBecomesHit | src/strategy/basic_strategy.py:71-74 | hard 11 against a 10 doubles with two cards and hits with three |
| Deviations.DefaultThresholds | src/strategy/deviation_strategy.py:172-199 | every loaded entry is a stand, hit, double or split against a dealer key 2 to 11 |
| Deviations.CheckDeviations | src/strategy/deviation_strategy.py:87-170 | only stand, hit, double or split; a double only on a hand that may double; a split only for a ten-valued pair against 5 or 6; 16 against 10 always decides |
| Deviations.DeviationAction | src/strategy/deviation_strategy.py:21-47 | a blackjack stands; never surrender; a double only with two cards; when no deviation applies, the basic-strategy action |
| Deviations.TenPairIsTwenty | src/strategy/deviation_strategy.py:156-168 | a splittable pair whose first card is worth 10 is worth 20, its second card too |
| Deviations.CheckedDeviationFires | src/strategy/deviation_strategy.py:65-170 | each deviation taken, except the hit of 16 against 10 below threshold, is backed by a table entry for that total, key and action that fires as the deviation test reads it |
| Deviations.TwelveAgainstFourIsNeverConsulted | src/strategy/deviation_strategy.py:185 | 12 against 4 at count 0 fires in the table, yet the decision procedure never consults that entry |
| Deviations.SixteenAgainstTen | src/strategy/deviation_strategy.py:106-112 | with the default table 16 against 10 stands exactly from count 0 and hits below |
| Deviations.FifteenAgainstTen | src/strategy/deviation_strategy.py:114-118 | with the default table a hard 15 against 10 stands from +4 and otherwise hits by basic strategy |
| Deviations.ElevenAgainstAce | src/strategy/deviation_strategy.py:144-148 | with the default table a two-card 11 against an ace doubles from +1 |
| Deviations.TensSplit | src/strategy/deviation_strategy.py:156-168 | with the default table tens split against a 6 from +4 and against a 5 from +5 |
| Deviations.DeviationStrategy.constructor | src/strategy/deviation_strategy.py:11-19 | the common deviations are loaded |
| Deviations.DeviationStrategy.AddCustomDeviation | src/strategy/deviation_strategy.py:215-225 | sets or replaces exactly one entry |
| Deviations.DeviationStrategy.GetAllDeviations | src/strategy/deviation_strategy.py:227-233 | the loaded table itself, a map value being already a copy: a key is in it exactly when `get_deviation_threshold` finds it, with the same threshold |
| Deviations.DeviationStrategy.GetDeviationThreshold | src/strategy/deviation_strategy.py:201-213 | the entry's threshold exactly when the table has it, otherwise none |
| Deviations.DeviationStrategy.GetAction | src/strategy/deviation_strategy.py:21-47 | asking the hand object gives the deviation decision on its cards |
| Deviations.DeviationStrategy.GetActionFromSituation | src/strategy/deviation_strategy.py:49-63 | the deviation decision on the situation's cards and up card |
| Deviations.DeviationStrategy.ShouldDeviate | src/strategy/deviation_strategy.py:65-85 | true exactly when some table entry for this total and key fires at this count |
| Round.NewTable | src/game/blackjack_game.py:11-22 | a fresh game: both hands empty, not over, no result, the given shoe |
| Round.DealPlayer | src/game/blackjack_game.py:40-43 | the player receives the shoe's next card, and nothing changes when the deal fails |
| Round.DealDealer | src/game/blackjack_game.py:40-43 | the dealer receives the shoe's next card, and nothing changes when the deal fails |
| Round.DetermineWinnerPrecedence | src/game/blackjack_game.py:262-347 | each outcome holds exactly under the source's precedence: player bust, dealer bust, blackjacks, then totals; the payout and every flag follow from the hands |
| Round.DealerHitsBelowHardSeventeen | src/game/blackjack_game.py:239-260 | whenever the dealer must draw, the total counting every ace as 1 is at most 16, which makes the drawing loop terminate |
| Round.DealerDrawFrame | src/game/blackjack_game.py:239-260 | dealer play only appends cards taken from the front of the shoe to the dealer's hand; the player's hand and the result stay as they were |
| Round.DealerDrawStops | src/game/blackjack_game.py:239-260 | the dealer ends on 17 or more and stands by the soft-17 rule, or else fails with the shoe's error while still having to draw |
| Round.AvailableActionsInProgress | src/game/blackjack_game.py:190-210 | no action is offered unless the hand is in progress; otherwise hit and stand come first |
| Round.AvailableActionsGuards | src/game/blackjack_game.py:159-210 | double, split and surrender are offered exactly when the hand is in progress and their guard holds |
| Round.AvailableActionsOrdered | src/game/blackjack_game.py:190-210 | the actions come in the fixed order hit, stand, double, split, surrender, so none is listed twice |
| Round.GetResult | src/game/blackjack_game.py:220-226 | there is no result before the game is over, and for a well-formed table there is one exactly when it is over |
| Round.DoubledPayoutTwice | src/game/blackjack_game.py:132-135 | doubling keeps every field and makes the payout twice the original, whatever its sign |
| Round.DealInitialEffect | src/game/blackjack_game.py:24-50 | fails with no change unless both hands are empty and no shuffle is due; otherwise deals player, dealer, player, dealer from the front of the shoe and ends the hand exactly when either side has a blackjack |
| Round.HitEffect | src/game/blackjack_game.py:52-80 | a hit deals the shoe's next card to the player only, and ends the hand exactly on a bust, as a loss paying -1 |
| Round.StandEffect | src/game/blackjack_game.py:82-95 | standing on a finished game fails with "Game is over" and before the deal with "Game not started", changing nothing; in progress it leaves the player's hand alone, lets the dealer play to a stand, and records the winner of the final hands |
| Round.DoubleEffect | src/game/blackjack_game.py:97-137 | a double takes exactly one card and ends the hand; a bust pays -2, otherwise the payout is twice the ordinary result's |
| Round.SurrenderEffect | src/game/blackjack_game.py:139-157 | succeeds exactly when surrender is allowed; ends the hand as a surrender paying -0.5 with no dealer total, leaving the hands and the shoe alone |
| Round.TransitionsKeepWellFormed | src/game/blackjack_game.py:24-157 | every transition keeps `game_over` set exactly when a result is recorded |
| Round.OverIsFinal | src/game/blackjack_game.py:52-210 | once the game is over, hit, stand, double and surrender change nothing, an initial deal leaves it over, and no action is offered |
| Games.BlackjackGame.constructor | src/game/blackjack_game.py:11-22 | a shoe of the rules' decks, shuffled, with nothing dealt; empty hands and no result |
| Games.BlackjackGame.DealTo | src/game/blackjack_game.py:40-43 | moves the game exactly as `Round.DealPlayer` or `Round.DealDealer` |
| Games.BlackjackGame.DealInitialCards | src/game/blackjack_game.py:24-50 | moves the game and reports errors exactly as `Round.DealInitial` |
| Games.BlackjackGame.DealBoth | src/game/blackjack_game.py:40-43 | moves the game exactly as `Round.DealBoth` |
| Games.BlackjackGame.PlayerHit | src/game/blackjack_game.py:52-80 | moves the game and returns exactly as `Round.PlayerHit` |
| Games.BlackjackGame.PlayerStand | src/game/blackjack_game.py:82-95 | moves the game and reports errors exactly as `Round.PlayerStand` |
| Games.BlackjackGame.PlayerDouble | src/game/blackjack_game.py:97-137 | moves the game and returns exactly as `Round.PlayerDouble`; a successful double ends the game |
| Games.BlackjackGame.SettleDouble | src/game/blackjack_game.py:115-137 | moves the game exactly as `Round.SettleDouble`, the in-place doubling of the payout included |
| Games.BlackjackGame.PlayerSurrender | src/game/blackjack_game.py:139-157 | moves the game and reports errors exactly as `Round.PlayerSurrender` |
| Games.BlackjackGame.CanDouble | src/game/blackjack_game.py:159-167 | agrees with `Round.CanDouble` on the game's state |
| Games.BlackjackGame.CanSplit | src/game/blackjack_game.py:169-177 | agrees with `Round.CanSplit` on the game's state |
| Games.BlackjackGame.CanSurrender | src/game/blackjack_game.py:179-188 | agrees with `Round.CanSurrender` on the game's state |
| Games.BlackjackGame.GetAvailableActions | src/game/blackjack_game.py:190-210 | equals `Round.AvailableActions` of the game's state |
| Games.BlackjackGame.GetResult | src/game/blackjack_game.py:220-226 | equals `Round.GetResult` of the game's state |
| Games.BlackjackGame.Reset | src/game/blackjack_game.py:228-237 | empty hands and no result; the shoe is reshuffled (same cards, dealt count zero) only when a shuffle is due, and otherwise left exactly as it was |
| Games.BlackjackGame.DealerPlay | src/game/blackjack_game.py:239-260 | the drawing loop ends in the state `Round.DealerPlay` gives, its error included |
| Games.BlackjackGame.DetermineWinnerNow | src/game/blackjack_game.py:262-347 | equals `Round.DetermineWinner` of the two hands |
| Games.ReshuffledShoeRunsDry | src/game/blackjack_game.py:228-237 | when more than half the shoe lies before the reshuffle threshold, the shoe after a reset runs dry before the threshold: it is empty, needs no shuffle, and the next initial deal fails with `ShoeEmpty` |
| CountingGames.DealerReveals | src/game/counting_game.py:135-146 | with two or more dealer cards, the reveals are the hand after its up card, so the up card followed by them is the whole hand; otherwise nothing is revealed |
| CountingGames.RevealNoticesAppend | src/game/counting_game.py:50-61 | notices of consecutive reveals are the notices of each part, in order |
| CountingGames.RevealNoticesAt | src/game/counting_game.py:50-61 | each revealed card's notice sits at the card's position in the log |
| CountingGames.CountingBlackjackGame.constructor | src/game/counting_game.py:13-32 | a new game under the rules; the given counting system or Hi-Lo by default; nothing counted, no callbacks, no notices |
| CountingGames.CountingBlackjackGame.AddCardRevealCallback | src/game/counting_game.py:34-40 | one more reveal callback is registered |
| CountingGames.CountingBlackjackGame.AddShuffleCallback | src/game/counting_game.py:42-48 | one more shuffle callback is registered |
| CountingGames.CountingBlackjackGame.NotifyCardRevealed | src/game/counting_game.py:50-61 | the counter has seen the card last, and the card's notice is appended |
| CountingGames.CountingBlackjackGame.NotifyShuffle | src/game/counting_game.py:63-70 | the counter starts over, and a shuffle notice is appended |
| CountingGames.CountingBlackjackGame.DealInitialCards | src/game/counting_game.py:72-95 | shuffles first when due (the count restarts); the game then moves as `Round.DealInitial`, and on success exactly the player's cards and the dealer's up card are counted, in that order |
| CountingGames.CountingBlackjackGame.DealAndReveal | src/game/counting_game.py:84-95 | the game moves as `Round.DealInitial`; the player's cards and the dealer's up card are counted only when the deal succeeds |
| CountingGames.CountingBlackjackGame.ShuffleIfNeeded | src/game/counting_game.py:78-81 | a due shoe is reshuffled (same cards, none dealt) with the count restarted; otherwise nothing changes |
| CountingGames.CountingBlackjackGame.RevealInitialCards | src/game/counting_game.py:86-93 | counts the player's cards, then the dealer's first card |
| CountingGames.CountingBlackjackGame.RevealEach | src/game/counting_game.py:88-89 | every card is counted once, in order, with one notice each |
| CountingGames.CountingBlackjackGame.PlayerHit | src/game/counting_game.py:97-105 | the game moves as `Round.PlayerHit`, and the card dealt, and only it, is counted |
| CountingGames.CountingBlackjackGame.PlayerDouble | src/game/counting_game.py:107-120 | the game moves as `Round.PlayerDouble`; the card dealt is counted, then the dealer's hole and drawn cards unless the player busted; nothing is counted on failure |
| CountingGames.CountingBlackjackGame.RevealAfterDouble | src/game/counting_game.py:113-118 | counts the doubled card, then the dealer's reveals unless the player is bust |
| CountingGames.CountingBlackjackGame.PlayerStand | src/game/counting_game.py:122-128 | the game moves as `Round.PlayerStand`; on success the dealer's hole and drawn cards are counted |
| CountingGames.CountingBlackjackGame.PlayerSurrender | src/game/counting_game.py:130-133 | the game moves as `Round.PlayerSurrender`, and nothing is counted |
| CountingGames.CountingBlackjackGame.RevealDealerCards | src/game/counting_game.py:135-146 | counts the dealer's hole card, then every card the dealer drew, in order |
| CountingGames.CountingBlackjackGame.Reset | src/game/counting_game.py:148-154 | the game resets; the count restarts with a shuffle notice exactly when the shoe's dealt count is then zero |
| CountingGames.CountingBlackjackGame.GetRunningCount | src/game/counting_game.py:156-162 | the weight sum of the cards counted since the count last restarted |
| CountingGames.CountingBlackjackGame.GetTrueCount | src/game/counting_game.py:164-170 | the running count per 52 cards left in the shoe, as the counter estimates it |
| CountingGames.CountingBlackjackGame.GetCardsSeen | src/game/counting_game.py:172-178 | the number of cards counted since the count last restarted |
| CountingGames.CountingBlackjackGame.GetRemainingDecks | src/game/counting_game.py:180-186 | the cards not yet counted, in decks of 52 |
| CountingGames.CountingBlackjackGame.GetCountingSystemName | src/game/counting_game.py:188-194 | the current system's name |
| CountingGames.CountingBlackjackGame.SwitchCountingSystem | src/game/counting_game.py:196-209 | the new system with a fresh counter that has seen nothing |
| CountingGames.CountingBlackjackGame.GetCountInfo | src/game/counting_game.py:211-224 | the system's name, the counter's figures, and the dealt fraction of the shoe |
| CountingGames.StandCountsEveryCard | src/game/counting_game.py:72-146 | after a deal without blackjack and a stand, the cards counted are exactly the player's cards followed by the dealer's, each once |
| CountingGames.BlackjackLeavesHoleCardUncounted | src/game/counting_game.py:72-95 | when the initial deal ends on a blackjack, the dealer's hole card is the one card of the hands never counted |
| Stats.Rate | src/analytics/session_stats.py:139-161 | a percentage that is 0 for an empty denominator and lies in 0..100 for a part of the whole |
| Stats.RateMonotone | src/analytics/session_stats.py:139-161 | a larger part of the same whole never has a smaller rate |
| Stats.Gain | src/analytics/session_stats.py:110 | `max(0, x)`: never negative, at least `x`, and either `x` or 0 |
| Stats.CountingAccuracy.constructor | src/analytics/session_stats.py:10-15 | every counter at zero |
| Stats.CountingAccuracy.RecordEstimate | src/analytics/session_stats.py:113-122 | one more estimate; the absolute error is added to the total and raises the maximum if larger; the estimate is correct exactly when the error is within the tolerance, so correct estimates never exceed all estimates |
| Stats.CountingAccuracy.AccuracyPercentage | src/analytics/session_stats.py:17-21 | 0 with no estimates; otherwise a percentage in 0..100 |
| Stats.CountingAccuracy.AverageError | src/analytics/session_stats.py:23-27 | 0 with no estimates; otherwise never negative |
| Stats.StrategyAccuracy.constructor | src/analytics/session_stats.py:31-37 | every counter at zero |
| Stats.StrategyAccuracy.RecordDecision | src/analytics/session_stats.py:124-137 | one more decision, counted as either basic or deviation; correct decisions, and correct deviations for a deviation, grow exactly when the user's action is the optimal one |
| Stats.StrategyAccuracy.AdherencePercentage | src/analytics/session_stats.py:39-43 | 0 with no decisions; otherwise a percentage in 0..100 |
| Stats.StrategyAccuracy.DeviationAccuracy | src/analytics/session_stats.py:45-49 | 0 with no deviation decisions; otherwise a percentage in 0..100 |
| Stats.OutcomesPartition | src/analytics/session_stats.py:92-99 | every result in the history is exactly one of winning, losing or push |
| Stats.CountOutcomesSubset | src/analytics/session_stats.py:101-105 | counting a subset of the outcomes never counts more |
| Stats.TalliesStep | src/analytics/session_stats.py:88-105 | one hand's counter updates keep every hand counter equal to its count over the extended history |
| Stats.MoneyTalliesStep | src/analytics/session_stats.py:107-111 | one hand's money updates keep the totals equal to the sums over the extended bets and net results |
| Stats.GainSumBoundsSum | src/analytics/session_stats.py:107-111 | the summed winnings are never negative and never below the net result |
| Stats.SessionStats.constructor | src/analytics/session_stats.py:53-86 | every counter at zero, empty history, fresh sub-records, the given session id |
| Stats.SessionStats.UpdateHandResult | src/analytics/session_stats.py:88-111 | the result and bet join the history, and every counter and money total stays the function of the history |
| Stats.SessionStats.RecordOutcome | src/analytics/session_stats.py:90-105 | one more hand, counted in exactly one of won, lost or pushed, and in blackjacks or surrenders by its outcome |
| Stats.SessionStats.RecordMoney | src/analytics/session_stats.py:107-111 | the bet is added to the total bet, the net result to the net, and its positive part to the winnings |
| Stats.SessionStats.UpdateCountingAccuracy | src/analytics/session_stats.py:113-122 | one more estimate: total estimates up by one, the absolute error added to the total error and taken into the largest error, the correct count up by one exactly when the error is within the tolerance |
| Stats.SessionStats.UpdateStrategyAdherence | src/analytics/session_stats.py:124-137 | one more decision: the total up by one, the correct count up by one exactly when the action was optimal, the deviation or basic count up by one by the flag, and correct deviations up by one exactly for a correct deviation |
| Stats.SessionStats.WinRate | src/analytics/session_stats.py:139-143 | 0 with no hands; otherwise a percentage in 0..100 |
| Stats.SessionStats.LossRate | src/analytics/session_stats.py:145-149 | 0 with no hands; otherwise a percentage in 0..100 |
| Stats.SessionStats.PushRate | src/analytics/session_stats.py:151-155 | 0 with no hands; otherwise a percentage in 0..100 |
| Stats.SessionStats.BlackjackRate | src/analytics/session_stats.py:157-161 | 0 with no hands; otherwise a percentage in 0..100 |
| Stats.SessionStats.AverageBet | src/analytics/session_stats.py:163-167 | 0 with no hands; otherwise the bet per hand, times the hands, is the total bet |
| Stats.SessionStats.ReturnOnInvestment | src/analytics/session_stats.py:169-173 | 0 when nothing was bet; otherwise the percentage of the total bet that the net result makes |
| Stats.RatesSumToHundred | src/analytics/session_stats.py:139-155 | with at least one hand played, the win, loss and push rates add up to 100 |
| Stats.SessionCountersBounded | src/analytics/session_stats.py:88-111 | blackjacks are among the wins and surrenders among the losses; won, lost and pushed add up to the hands played; the winnings are never negative and never below the net result |
| Validation.StripLeft | src/utils/validation.py:34-38 | drops exactly the leading whitespace: what is left is a suffix starting with a non-space, and everything dropped is whitespace |
| Validation.StripRight | src/utils/validation.py:34-38 | drops exactly the trailing whitespace: what is left is a prefix ending with a non-space, and everything dropped is whitespace |
| Validation.Strip | src/utils/validation.py:34-38 | `str.strip()`: a slice of the text with only whitespace around it and no whitespace at either end |
| Validation.StripEmptyIffBlank | src/utils/validation.py:34-35 | the stripped text is empty exactly when every character is whitespace |
| Validation.LowerChar | src/utils/validation.py:276 | an upper-case ASCII letter becomes its lower-case letter; every other character is kept |
| Validation.Lower | src/utils/validation.py:276 | lower-cases every character in place, keeping the length |
| Validation.ParseInt | src/utils/validation.py:37-40 | `int()` of stripped text: a result only for non-empty text, and the decimal value for plain digits |
| Validation.NatToStringValue | src/utils/validation.py:37-40 | the digits written for a natural number read back as that number |
| Validation.IntToStringRoundTrip | src/utils/validation.py:37-40 | every integer written in decimal parses back to itself |
| Validation.ValidateIntegerInput | src/utils/validation.py:13-48 | accepts exactly non-blank text that parses, once stripped, to an integer within the inclusive bounds, and returns that integer; blank text and non-integers fail with their own errors |
| Validation.IntegerInputAcceptsInRange | src/utils/validation.py:13-48 | every integer within the bounds, written in decimal, is accepted as itself |
| Validation.ValidateMenuSelection | src/utils/validation.py:127-148 | the integer validator with the menu's bounds, so any accepted option lies within them |
| Validation.ValidateCountEstimate | src/utils/validation.py:243-256 | an accepted estimate is the parsed integer and lies in -100..100 |
| Validation.CountEstimateAcceptsRange | src/utils/validation.py:243-256 | every integer in -100..100, written in decimal, is accepted as itself |
| Validation.FirstMatch | src/utils/validation.py:115-121 | the index of the first choice that matches, or none exactly when no choice matches |
| Validation.ValidateChoiceInput | src/utils/validation.py:89-124 | succeeds exactly when the stripped text matches some choice, case-insensitively unless asked otherwise, and returns the first matching choice in its own spelling; blank text fails as empty |
| Validation.ValidateSessionName | src/utils/validation.py:151-176 | accepts exactly a stripped name that is non-empty, at most 100 characters and free of the forbidden characters, and returns it stripped |
| Validation.ValidateDeckCount | src/utils/validation.py:179-198 | accepts exactly 1, 2, 4, 6 or 8 decks and returns the count unchanged |
| Validation.ValidatePenetration | src/utils/validation.py:201-219 | accepts exactly 0.1 to 0.95 inclusive and returns the value unchanged |
| Validation.ValidateBlackjackPayout | src/utils/validation.py:222-240 | accepts exactly a positive payout and returns it unchanged |
| Validation.ValidateYesNo | src/utils/validation.py:259-283 | true exactly for a yes word and false exactly for a no word, after stripping and lower-casing; blank text and anything else fail |
| SessionRecords.Field | src/session/session_data.py:60-91 | `data[key]` succeeds exactly on a dictionary holding the key, and gives its value |
| SessionRecords.FieldOr | src/session/session_data.py:130-135 | `data.get(key, default)` gives the stored value when the key is present and the default otherwise |
| SessionRecords.DecodeItems | src/session/session_data.py:60-65 | a decoded list has one element per item, each the decoding of its item |
| SessionRecords.ItemsRoundTrip | src/session/session_data.py:34-65 | decoding an encoded list gives the list back whenever each element survives its own round trip |
| SessionRecords.ListField | src/session/session_data.py:60-65 | a list entry decodes only when present and a list, into one element per item, in order |
| SessionRecords.ListFieldRoundTrip | src/session/session_data.py:34-65 | a list entry written by the encoder reads back as the same list |
| SessionRecords.CardFromJson | src/session/session_data.py:60-61 | a card is rebuilt only from a dictionary whose suit and rank texts are exactly that card's enum values |
| SessionRecords.CardRoundTrip | src/session/session_data.py:34-60 | every card survives the trip through its suit and rank texts |
| SessionRecords.CardListRoundTrip | src/session/session_data.py:34-61 | a stored list of cards reads back as the same cards in the same order |
| SessionRecords.ActionFromJson | src/session/session_data.py:64-65 | an action is rebuilt only from exactly its own enum text |
| SessionRecords.ActionListRoundTrip | src/session/session_data.py:36-65 | a stored list of actions reads back as the same actions in the same order |
| SessionRecords.ResultFromJson | src/session/session_data.py:68-78 | a rebuilt result is normalised and has the outcome whose text was stored |
| SessionRecords.ResultRoundTrip | src/session/session_data.py:40-78 | a result the normalising constructor built survives the trip unchanged |
| SessionRecords.ResultTotalsRoundTrip | src/session/session_data.py:40-73 | the outcome, totals and payout entries read back as written |
| SessionRecords.ResultFlagsRoundTrip | src/session/session_data.py:45-77 | the four flag entries read back as written |
| SessionRecords.ResultFromFields | src/session/session_data.py:68-78 | entries that read back as a normalised result's fields rebuild exactly that result |
| SessionRecords.UnnormalizedResultChanges | src/session/session_data.py:68-78 | a stored payout that disagrees with its outcome comes back as the outcome's normalised payout instead |
| SessionRecords.ResultListRoundTrip | src/session/session_data.py:222-292 | a stored list of normalised results reads back unchanged |
| SessionRecords.HandRecordFromJson | src/session/session_data.py:25-91 | a rebuilt record has a normalised result; a stored empty timestamp becomes now and a stored timestamp is kept |
| SessionRecords.HandListsRoundTrip | src/session/session_data.py:34-65 | the four card and action lists of a record read back as written |
| SessionRecords.HandRecordRoundTrip | src/session/session_data.py:30-91 | `HandRecord.from_dict(to_dict(h))` gives back every field of a record with a normalised result, whatever the current time |
| SessionRecords.HandScalarsRoundTrip | src/session/session_data.py:33-51 | the number, counts, bet, result and time entries read back as written |
| SessionRecords.HandRecordFromFields | src/session/session_data.py:55-91 | entries that read back as a record's fields rebuild exactly that record |
| SessionRecords.HandRecordListRoundTrip | src/session/session_data.py:190-314 | a stored list of records reads back unchanged |
| SessionRecords.NewMetadata | src/session/session_data.py:94-111 | a missing creation time becomes now, a missing modification time becomes the creation time, and every other field is as given |
| SessionRecords.MetadataFromJson | src/session/session_data.py:125-136 | succeeds only with a stored session id, which the metadata carries |
| SessionRecords.MetadataRoundTrip | src/session/session_data.py:113-136 | `SessionMetadata.from_dict(to_dict(m))` gives back every field, whatever the current time |
| SessionRecords.MetadataDefaults | src/session/session_data.py:106-136 | a dictionary with only a session id gives metadata created and modified now, no hands, no duration and an empty summary |
| SessionRecords.MetadataModifiedDefaultsToCreated | src/session/session_data.py:108-132 | a stored creation time without a modification time serves as both |
| SessionRecords.RulesFromJson | src/session/session_data.py:247-255 | stored rules pass the rules constructor's validation again and keep the stored deck count |
| SessionRecords.RulesRoundTrip | src/session/session_data.py:181-255 | valid rules survive the trip unchanged |
| SessionRecords.StoredBadDeckCountRejected | src/session/session_data.py:247-255 | stored rules with a deck count the constructor rejects make reading fail with its error |
| SessionRecords.StatsRecordOf | src/session/session_data.py:194-235 | the stored counters of live statistics keep their conservation laws: won, lost and pushed add up to the hands, which match the history |
| SessionRecords.CountingFromJson | src/session/session_data.py:261-267 | the counting record keeps the stored estimate count |
| SessionRecords.CountingRoundTrip | src/session/session_data.py:209-267 | the counting record survives the trip unchanged |
| SessionRecords.StrategyFromJson | src/session/session_data.py:270-277 | the strategy record keeps the stored decision count |
| SessionRecords.StrategyRoundTrip | src/session/session_data.py:215-277 | the strategy record survives the trip unchanged |
| SessionRecords.StatsPartsFromJson | src/session/session_data.py:258-292 | one result per stored history entry, each normalised |
| SessionRecords.StatsCountersFromJson | src/session/session_data.py:299-304 | the counters keep the stored hand count |
| SessionRecords.StatsFromJson | src/session/session_data.py:257-311 | a missing start time becomes now, and every rebuilt result is normalised |
| SessionRecords.StatsPartsRoundTrip | src/session/session_data.py:209-292 | the nested records and the results history read back as written |
| SessionRecords.StatsCountersRoundTrip | src/session/session_data.py:200-304 | the six hand counters read back as written |
| SessionRecords.StatsScalarsRoundTrip | src/session/session_data.py:197-307 | the id, times and money entries read back as written |
| SessionRecords.StatsFromParts | src/session/session_data.py:257-311 | parts that read back as a record's fields rebuild exactly that record |
| SessionRecords.StatsRoundTrip | src/session/session_data.py:194-311 | statistics whose results are normalised survive the trip unchanged |
| SessionRecords.NewSession | src/session/session_data.py:139-152 | the metadata takes the session's id, so a session built from normalised results is well formed |
| SessionRecords.RulesFlagsTextDetermines | src/session/session_data.py:170-171 | the 'H17'/'S17' and 'DAS'/'No DAS' text tells both rules apart |
| SessionRecords.RulesSummaryNamesRules | src/session/session_data.py:167-172 | the summary begins with the deck count, which parses back, and ends with the text of the two dealer rules |
| SessionRecords.UpdateMetadata | src/session/session_data.py:160-172 | the metadata counts the history, takes the duration, the modification time and the rules summary; nothing else changes and the session stays well formed |
| SessionRecords.AddHandRecord | src/session/session_data.py:154-158 | the record goes at the end of the history, the metadata counts the history and takes the time; nothing else changes |
| SessionRecords.HistoryFromJson | src/session/session_data.py:314 | every record read from the stored history carries a normalised result |
| SessionRecords.SessionPartsFromJson | src/session/session_data.py:243-311 | succeeds only when the stored rules entry is present |
| SessionRecords.SessionFromJson | src/session/session_data.py:237-323 | the session takes the stored id, which the metadata then carries; no stored counting system means "Hi-Lo"; the result is well formed |
| SessionRecords.SessionPartsRoundTrip | src/session/session_data.py:174-311 | metadata, rules and statistics read back as written |
| SessionRecords.SessionPartsFields | src/session/session_data.py:178-189 | the nested metadata, rules and statistics dictionaries are where the reader looks for them |
| SessionRecords.SessionPartsFromFields | src/session/session_data.py:243-311 | nested dictionaries that read back rebuild exactly those parts |
| SessionRecords.SessionEntriesRoundTrip | src/session/session_data.py:179-323 | the history, the id and the counting system read back as written |
| SessionRecords.SessionHistoryEntry | src/session/session_data.py:190 | the stored history is the list of the records' dictionaries |
| SessionRecords.SessionIdEntries | src/session/session_data.py:179-322 | the id and the counting system read back as written |
| SessionRecords.SessionFromParts | src/session/session_data.py:237-323 | parts that read back rebuild exactly the session |
| SessionRecords.SessionRoundTrip | src/session/session_data.py:174-323 | `SessionData.from_dict(to_dict(s))` gives back the whole well-formed session |
| SessionRecords.ToDictRoundTrip | src/session/session_data.py:174-323 | a session read back after `to_dict` keeps its id, rules, counters and history and carries the refreshed metadata |
| SessionRecords.SessionData.constructor | src/session/session_data.py:139-152 | equals `NewSession`: the metadata takes the session's id |
| SessionRecords.SessionData.AddHandRecordAt | src/session/session_data.py:154-158 | moves the object exactly as `AddHandRecord` |
| SessionRecords.SessionData.UpdateMetadataAt | src/session/session_data.py:160-172 | moves the object exactly as `UpdateMetadata` |
| SessionRecords.SessionData.ToDict | src/session/session_data.py:174-192 | refreshes the metadata, then returns a dictionary that reads back as the refreshed session at any time |
| SessionRecords.SessionDataFromDict | src/session/session_data.py:237-323 | a fresh session object exactly when the dictionary reads back, equal to what it reads back as; otherwise its error |

## Left out

- The command-line programs (src/cli/, src/main.py) are interactive input and output loops. Split has no executing transition there, so the model has none either; `Round.CanSplit` and the offered actions still model the guard.
- The session manager (src/session/session_manager.py) works with files, JSON on disk, uuids and directory listings.
- The performance tracker (src/analytics/performance_tracker.py) filters by wall-clock time and fits floating-point regression slopes.
- The retry and logging helpers in src/utils/error_recovery.py are left out. The exception classes in src/utils/exceptions.py appear only as the error kinds of `Errors.ErrorKind`.
- `validate_float_input` is not modelled, because it depends on Python's float parsing.
- The time-based parts of the session statistics are not modelled: `session_duration`, `hands_per_hour`, `end_session` and the default start time. `generate_summary` and every `__str__`/`__repr__` are left out too, because they are reporting and text formatting.
- Legacy files outside the package are not part of this model: src/card.py, src/deck.py, src/player.py and src/dealer.py. Nothing imports them.
- Default arguments are not modelled, because Dafny functions and methods take every argument; callers pass the default themselves. The dropped defaults are `ace_as_eleven=True` (src/models/card.py:45), `min_option=1` (src/utils/validation.py:130), `bet_amount=1.0` of `update_hand_result` (src/analytics/session_stats.py:88), `tolerance=0` (src/analytics/session_stats.py:113), `is_deviation=False` (src/analytics/session_stats.py:125) and `bet_amount=1.0` of `net_result` (src/models/game_result.py:70).
- Floating point is modelled as exact `real` arithmetic. This covers payouts, penetration, the true count, rates and averages; `int(total * penetration)` is an exact floor. Float rounding is not modelled.
- Shoes.Shoe.Shuffle: its contract states only that the cards are a permutation of those before, with the dealt count zero. It does not promise uniform randomness, because randomness is supplied as a parameter.
- Counters.CardCounter.TrueCount: exact division, so it does not model the float result of `running_count / remaining_decks`.
- CountingGames.CountingBlackjackGame: the registered callbacks are opaque code. The model keeps how many of each kind are registered, plus the ordered log of notices they receive (a card revealed, the shoe shuffled). It does not model what the callbacks do.
- Stats.CountingAccuracy: the summed and largest counting errors are kept as integers. The source stores them as floats, but every error it adds is the absolute difference of two integers.
- Stats.SessionStats: the per-hand bets and net results are ghost history, kept so the money totals can be stated. The source keeps only the totals.
- SessionRecords.SessionData: the statistics are held as the record `StatsRecord`, the fields `_serialize_stats` writes, rather than as a live `SessionStats` object. `SessionRecords.StatsRecordOf` links the two.
- SessionRecords.HandRecordFromJson: `datetime.fromisoformat` is modelled as accepting any non-empty text. Times are the text `isoformat` writes.
- SessionRecords.SessionFromJson: Python stores a stored value of the wrong type unchecked and fails later, if ever. The reader here fails at once with `WrongType`. The round trips are unaffected, because written values always have the right type.
- SessionRecords.UpdateMetadata: the penetration percentage in the rules summary comes from Python's `:.0%` float formatting, so it is a text parameter. The deck count and the H17/S17 and DAS/No DAS parts are modelled.
- Validation.Strip: `str.strip`, `str.lower` and `int()` are modelled on ASCII whitespace, ASCII letters and ASCII digits, with optional sign and single underscores between digits. Unicode whitespace, Unicode digits and full Unicode case mapping are not modelled.
- BasicStrategies.GetAction: `get_action_from_situation` is not a separate member. It is `GetAction` applied to the situation's cards and up card. The unused `rules` argument of both strategies is not modelled.
- `Shoe.decks_remaining` and the string forms of every class are not modelled.
