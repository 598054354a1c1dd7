# Texas Hold'em hand ranking, modelled in Dafny

This project models the hand-ranking core of a Texas Hold'em simulator written in Python:

- **DeckOfCards.py**: cards, their one-bit values, the starting deck, card masks and the deck that is shuffled and drawn from.
- **Poker.py**: hand categories, the hexadecimal packing of a hand's value, and the game result.
- **PokerEvaluator.py**:
  - the classification of two hole cards;
  - `_eval_hand` with its flush, straight and rank-group helpers;
  - the dictionary `precompute` fills with every five-card hand;
  - `get_value`;
  - `evaluate`, which picks each player's best five-card subset and then the winners.
- **PokerSimulator.py**:
  - the simulator's own evaluator: per-card hashes, shift-packed values and nested-loop precomputation;
  - an `evaluate` that scans three windows of seven cards;
  - the `PokerSimulation` that deals the hands and the board and then evaluates.

The source's routines and the Dafny members that model them:

| source routine | Dafny |
|---|---|
| DeckOfCards.py `PlayingCard.value` | `Cards.CardValue` (its exponent `Cards.CardBit`) |
| DeckOfCards.py `hash_cards` | `Cards.HashCards`, on the mask `Cards.MaskOf` |
| DeckOfCards.py `unhash_cards`, `get_card` | `Cards.UnhashCards`, `Cards.GetCard` |
| DeckOfCards.py `shuffle`, `draw` | `Cards.DeckOfCards.Shuffle`, `Cards.DeckOfCards.Draw` |
| Poker.py `value_from` | `Poker.ValueFrom` |
| PokerEvaluator.py `_eval_hand` | `Evaluator.EvalHand` |
| PokerEvaluator.py `_eval_straight` | `Evaluator.StraightOf` |
| PokerEvaluator.py `_get_flush_candidates` | `Evaluator.FlushCandidates` |
| PokerEvaluator.py `_get_rank_groups`, `_flatten_groups`, `_find_rank` | `Groups.RankGroups`, `Groups.FlattenGroups`, `Evaluator.FindRank` |
| PokerEvaluator.py `precompute` | `Resolver.PokerEvaluator.Precompute`, whose dictionary is `Resolver.CacheOf` of `Resolver.DeckEntries` |
| PokerEvaluator.py `get_value` | `Resolver.GetValue` |
| PokerEvaluator.py `evaluate` | `Resolver.Resolve` |
| PokerSimulator.py `get_card_hash`, `hash_hand` | `Simulator.GetCardHash`, `Simulator.HashHand` |
| PokerSimulator.py `_eval_hand` | `Simulator.SimEvalHand`, packing with `Simulator.ShiftPacked` |
| PokerSimulator.py `precompute`, `get_value` | `Simulator.PokerEvaluator.Precompute`, `Simulator.SimGetValue` |
| PokerSimulator.py `evaluate` | `Simulator.SimResolve` and the method `Simulator.PokerEvaluator.Evaluate` |
| PokerSimulator.py `PokerSimulation` | `Simulation.PokerSimulation` |

## Modelling choices

- **Values and failures.** Python integers are unbounded `nat`s. Raised exceptions become `Err` values of `Outcomes.Result`:
  - `ValueError` from `draw` and from `get_card`;
  - `IndexError` and a `max()` of nothing;
  - failing `assert`s;
  - a missing dictionary key.
- **`_eval_hand` is total.** It is a function of the cards. Every list of fewer than five cards fails where the source indexes, takes a `max` or asserts (`HandFacts.EvalHandSucceeds`).
- **Functions versus classes.** Pure computations are functions. Objects whose fields change in place are classes with `modifies` clauses:
  - the deck (`Cards.DeckOfCards`);
  - the two evaluators' dictionaries (`Resolver.PokerEvaluator`, `Simulator.PokerEvaluator`);
  - the simulation (`Simulation.PokerSimulation`).
- **Loops are methods.** Each loop of the source is a method with loop invariants, proved against a specification function:
  - `unhash_cards`;
  - `random.shuffle`;
  - `draw`-based dealing;
  - the five nested precompute loops;
  - the `max` over dictionary keys;
  - the window loop.
- **Evaluators compared.** The simulator's evaluator is proved to agree with PokerEvaluator.py where the source means them to agree:
  - masks: `Simulator.HashHandAgrees`;
  - packing: `Simulator.ShiftPackedIsValueFrom`;
  - `_eval_hand`: `Simulator.SimEvalHandAgrees`;
  - the precomputed dictionary: `Simulator.PokerEvaluator.Precompute`;
  - the uncached result: `Simulator.SimResolveUncached`.

  Where the two evaluators differ, the model shows how (`WindowMiss`).
- **The code as written.** The model follows the code as written, including its defects. Each defect is exhibited on a concrete input and paired with a corrected definition whose intended property is proved (see "## Findings"). The operations keep the source's formulas, because the rest of the program — the dictionary keys, the evaluation chain, the simulation — is defined by them. The corrected definitions stand beside them as the reference the defects are measured against.

## Model

| member | source | states |
|---|---|---|
| Bits.BitSetOr | DeckOfCards.py:105 | Python's `\|` on non-negative integers: the set bits of `a \| b` are the union of those of `a` and `b` |
| Bits.LowBitRemoved | DeckOfCards.py:111-113 | `value & -value` is the lowest set bit of `value`: it is set, no lower bit is set, and it is at most `value` |
| Bits.OrDisjoint | Poker.py:41-42 | OR-ing a value below `2^p` into a multiple of `2^p` is addition, so the shifts of `value_from` do not interfere |
| Bits.BitSetInjective | DeckOfCards.py:103-115 | a number is determined by its set bits (the basis of the mask round trip) |
| Cards.SuitOf | DeckOfCards.py:15-19 | the suit with ordinal `n` for every `n` below 4 |
| Cards.SuitOrdinalInjective | DeckOfCards.py:15-19 | two suits have equal ordinals exactly when they are the same suit |
| Cards.CardBit | DeckOfCards.py:67-69 | the exponent of a card's value is at most 48 |
| Cards.CardAtBit | DeckOfCards.py:67-69 | every bit from 0 to 48 is the value of some card |
| Cards.CardValueCollisions | DeckOfCards.py:67-69 | two cards have the same `value` exactly when they are equal or are an Ace and the Two of the next suit |
| Cards.CardBitCollisions | DeckOfCards.py:69 | the same statement on bit positions, in both directions |
| Cards.AceOfSpadesIsTwoOfHearts | DeckOfCards.py:69 | the Ace of spades and the Two of hearts are different cards with the same value |
| Cards.CorrectedCardBitInjective | DeckOfCards.py:69 | with thirteen positions per suit, equal bits mean equal cards, in both directions |
| Cards.Generated | DeckOfCards.py:73 | the generator `for rank in Rank for suit in Suit` yields 52 cards, card `i` having rank `i / 4 + 2` and suit ordinal `i % 4` |
| Cards.StartingDeckComplete | DeckOfCards.py:73-74 | the starting deck holds 52 pairwise different cards and contains every card |
| Cards.DistinctCount | DeckOfCards.py:73-74 | a list with no card twice holds each card at most once |
| Cards.DistinctCounts | DeckOfCards.py:73-74 | a list has no card twice exactly when no card has more than one copy in it |
| Cards.DistinctSub | DeckOfCards.py:73-74 | a sub-multiset of cards with no card twice has no card twice |
| Cards.SubMultisetEqual | DeckOfCards.py:73-74 | a sub-multiset of cards as large as the whole is the whole |
| Cards.StartingDeckFull | DeckOfCards.py:73-74 | the starting deck holds every card, none twice |
| Cards.FullDeckOrders | DeckOfCards.py:73-74 | a list holds every card once exactly when it is the starting deck's cards in some order, which is what `list(STARTING_DECK)` yields whatever the `frozenset`'s order |
| Cards.CardsByValueOfSpec | DeckOfCards.py:75 | the dictionary's keys are the values of the deck's cards, and each key maps to a card of the deck with that value |
| Cards.CardsByValueKeys | DeckOfCards.py:75 | `CARDS_BY_VALUE` has exactly the 49 keys `2^0 .. 2^48`, each mapping to a card of that value |
| Cards.GetCard | DeckOfCards.py:95-101 | a found card has the requested value; otherwise `CardNotFound(value)` |
| Cards.GetCardSucceeds | DeckOfCards.py:95-101 | `get_card` succeeds exactly for the powers of two up to `2^48` |
| Cards.GetCardOfPow2 | DeckOfCards.py:95-101 | `get_card(2^k)` succeeds exactly when `k <= 48` |
| Cards.ReduceOrIsMask | DeckOfCards.py:103-105 | `reduce(or, values)` of a non-empty list is the mask of its cards |
| Cards.HashCardsIsMask | DeckOfCards.py:103-105 | `hash_cards` fails exactly on the empty list (reduce of nothing); otherwise it is the mask |
| Cards.MaskBits | DeckOfCards.py:103-105 | the set bits of a hand's mask are exactly the bits of its cards |
| Cards.MaskOfPermutation | DeckOfCards.py:103-105 | the mask does not depend on the order of the cards |
| Cards.CollidingHands | DeckOfCards.py:69 | a royal flush in spades and the same hand with the Two of hearts for the Ace share one mask |
| Cards.CorrectedMaskBits | DeckOfCards.py:103-105 | with the corrected bits, the set bits of a mask are the corrected bits of its cards |
| Cards.CorrectedMaskDeterminesCards | DeckOfCards.py:103-105 | with the corrected bits, equal masks mean the same set of cards |
| Cards.UnhashCards | DeckOfCards.py:107-115 | `unhash_cards` returns `[]` for a non-positive value. Below `2^49` it returns cards in ascending bit order whose `hash_cards` is the value. From `2^49` up it fails |
| Cards.UnhashTooHigh | DeckOfCards.py:111-114 | when the lowest remaining bit is above 48, `get_card` fails and the value was at least `2^49` |
| Cards.SwapPermutes | DeckOfCards.py:86 | one exchange of `random.shuffle` permutes the list |
| Cards.FisherYatesPermutes | DeckOfCards.py:85-87 | the shuffle keeps the length and the multiset of the cards |
| Cards.DeckOfCards.constructor | DeckOfCards.py:82-83 | a new deck holds the starting deck |
| Cards.DeckOfCards.Shuffle | DeckOfCards.py:85-87 | `shuffle` runs Fisher-Yates with the given random draws, leaves a permutation of the cards and returns the deck itself |
| Cards.DeckOfCards.Draw | DeckOfCards.py:89-93 | `draw` on an empty deck fails with `EmptyDeck` and changes nothing; otherwise it returns the last card and removes it |
| Poker.HandRankOf | Poker.py:24-34 | `HandRank(n)` exists exactly for `0 <= n < 10`, with ordinal `n`; otherwise it fails with `NoSuchHandRank(n)` |
| Poker.HandRankOrdinals | Poker.py:24-34 | each category maps back from its ordinal, and the ordinals are distinct |
| Poker.PackPrefixDigits | Poker.py:39-44 | after `n` steps of the `value_from` loop, the packed value is the first `n` hex digits, shifted into the top positions |
| Poker.ValueFromIsHorner | Poker.py:39-44 | `value_from` of digits below 16 is the base-16 number of the digits padded to six, and it is below `2^24` |
| Poker.ValueFromIsSum | Poker.py:39-44 | `value_from` is the sum of each digit times 16 to the power of its hex position |
| Poker.HornerOrder | Poker.py:39-44 | on equal-length hex digit strings, the numeric order is the lexicographic order, and equal numbers mean equal strings |
| Poker.ValueFromOrder | Poker.py:39-44 | two packed values compare as their padded digit lists compare lexicographically; they are equal exactly when the lists are |
| Poker.LexTrichotomy | Poker.py:39-44 | the lexicographic order on the digit lists is a strict total order |
| Poker.GetHandRankOfValue | Poker.py:55-57 | `get_hand_rank` of a packed value returns the category it was packed with |
| Poker.LeadingDigit | Poker.py:56 | shifting a packed value right by 20 bits recovers its leading digit |
| Classification.SortTwo | PokerEvaluator.py:17 | sorting two cards by rank, descending and stable, puts the higher rank first and keeps the order of a tie |
| Classification.ClassifySpec | PokerEvaluator.py:13-21 | the classification fails exactly when there are not two cards. Otherwise it holds the two ranks, highest first; it is suited iff the suits are equal and a pair iff the ranks are equal |
| Classification.ClassifyOrderFree | PokerEvaluator.py:15-21 | the classification does not depend on the order of the two cards |
| Classification.SuffixDecodes | PokerEvaluator.py:23-27 | for two different cards the suffix is "" exactly for a pair, "s" exactly for suited and "o" exactly for offsuit non-pairs; a pair is never suited |
| Subsets.TuplesCount | PokerEvaluator.py:58 | `combinations(range(lo, hi), k)` has `C(hi - lo, k)` members |
| Subsets.PositionTuples | PokerEvaluator.py:58 | a position list is among the combinations exactly when it has `k` increasing positions in range |
| Subsets.TuplesSound | PokerEvaluator.py:58 | every combination has `k` increasing positions in range |
| Subsets.TuplesComplete | PokerEvaluator.py:58 | every list of `k` increasing positions in range is a combination |
| Subsets.TuplesOnce | PokerEvaluator.py:58 | no combination is produced twice |
| Subsets.CombinationsSpec | PokerEvaluator.py:58 | `combinations(cards, k)` has `C(n, k)` members, each of size `k` and a sub-multiset of the cards |
| Subsets.PickSubMultiset | PokerEvaluator.py:93 | the cards at increasing positions are a sub-multiset of the cards |
| Subsets.FiveCardHands | PokerEvaluator.py:57-58 | a 52-card deck has 2,598,960 five-card hands |
| Subsets.FiveOfSeven | PokerEvaluator.py:93 | `combinations(cards, 5)` of any seven cards yields exactly 21 five-card hands |
| RankOrder.OfRank | PokerEvaluator.py:299 | the cards of one rank are a sub-multiset of the cards, all of that rank |
| RankOrder.OfRankMember | PokerEvaluator.py:299 | a card is among those of rank `k` exactly when it is in the list with rank `k` |
| RankOrder.SortDesc | PokerEvaluator.py:237 | sorting keeps the length and the multiset of the cards |
| RankOrder.SortDescSorted | PokerEvaluator.py:237 | the sort puts ranks in descending order |
| RankOrder.SortDescStable | PokerEvaluator.py:237 | the sort is stable: the cards of each rank keep their order |
| RankOrder.SortDescOfSorted | PokerEvaluator.py:273-274 | sorting an already sorted list leaves it unchanged |
| RankOrder.TopOfSorted | PokerEvaluator.py:237-238 | in a sorted list, the first `n` cards rank at least as high as the rest |
| RankOrder.StrictFromSingles | PokerEvaluator.py:194 | a sorted list with at most one card of each rank is strictly descending |
| Groups.FlattenAppend | PokerEvaluator.py:253-255 | flattening distributes over concatenation |
| Groups.FlattenMember | PokerEvaluator.py:253-255 | a card is in the flattened groups exactly when it is in one of the groups |
| Groups.GroupsFromFlatten | PokerEvaluator.py:298-299 | `groupby` of the cards sorted by rank, from rank `k` up, holds exactly the cards of rank `k` or more |
| Groups.GroupsFromDistinct | PokerEvaluator.py:298-299 | the groups have pairwise different ranks |
| Groups.SortGroups | PokerEvaluator.py:300 | sorting the groups permutes them |
| Groups.SortGroupsDescending | PokerEvaluator.py:300 | sorted groups have descending (size, rank) keys |
| Groups.FlattenSort | PokerEvaluator.py:300 | sorting the groups keeps the multiset of the cards |
| Groups.RankGroups | PokerEvaluator.py:296-302 | no rank group is empty |
| Groups.RankGroupsSpec | PokerEvaluator.py:296-302 | each group holds the cards of one rank, the groups are ordered by (size, rank) descending, and together they hold exactly the cards |
| Groups.RankGroupsIsGrouping | PokerEvaluator.py:296-302 | the rank groups form a grouping of the cards |
| Groups.GroupingComplete | PokerEvaluator.py:296-302 | every rank the cards hold appears as a whole group |
| Groups.GroupingRanksDiffer | PokerEvaluator.py:296-302 | two different groups have different ranks |
| Groups.GroupOneRank | PokerEvaluator.py:296-302 | every group is non-empty and of a single rank |
| Groups.SinglesAfterFirst | PokerEvaluator.py:300 | when the second group is a single card, every later rank occurs at most once after the first group |
| Evaluator.FindRank | PokerEvaluator.py:304-310 | `_find_rank` finds nothing exactly when no card has the rank; otherwise it returns a card of that rank from the list |
| Evaluator.FindRankFirst | PokerEvaluator.py:306-308 | the card found is at some position of the list |
| Evaluator.MaxByRank | PokerEvaluator.py:141 | `max(..., key=rank)` returns a card of the list of highest rank, the first such |
| Evaluator.FlushSuitFrom | PokerEvaluator.py:258-264 | the first suit, in ordinal order from `o`, that has five or more cards; none exactly when no such suit exists |
| Evaluator.FlushCandidatesSpec | PokerEvaluator.py:257-266 | empty exactly when no suit has five cards. Otherwise it holds all the cards of the lowest such suit, sorted by rank and at least five, and is a sub-multiset of the cards |
| Evaluator.RunStartDescending | PokerEvaluator.py:276-282 | the run kept by the scan falls one rank per card |
| Evaluator.StraightOfShape | PokerEvaluator.py:268-294 | `_eval_straight` returns `[]` or five of the cards, falling one rank at a time or making the wheel |
| Evaluator.StraightNeedsFive | PokerEvaluator.py:291-294 | a straight is found only among five or more cards |
| Evaluator.ScanShape | PokerEvaluator.py:276-294 | the same for the scan of a non-empty list |
| Evaluator.RunShape | PokerEvaluator.py:291-292 | without the wheel rule, the first five of a run are cards of the list, falling one rank per card |
| Evaluator.WheelShape | PokerEvaluator.py:284-289 | with a run ending in a Two and an Ace in the list, the result is the Ace followed by Five to Two |
| Evaluator.EvalStraight | PokerEvaluator.py:268-294 | the method computes `_eval_straight`, sorting first when asked to |
| Evaluator.ScanForStraight | PokerEvaluator.py:276-294 | the scan, the wheel rule and the cut to five, as loops |
| Evaluator.FinalRun | PokerEvaluator.py:276-282 | the scan loop leaves the run starting at `RunStart`, the last run of the list |
| Evaluator.EvalQuads | PokerEvaluator.py:139-149 | a four-of-a-kind result has category four of a kind |
| Evaluator.EvalFlush | PokerEvaluator.py:164-176 | the flush branch succeeds exactly with five or more candidates, with category flush |
| Evaluator.EvalHighCard | PokerEvaluator.py:237-251 | the high-card branch succeeds exactly with five or more cards, with category high card |
| Evaluator.EvalTrips | PokerEvaluator.py:192-205 | a three-of-a-kind result has category three of a kind |
| Evaluator.EvalPairs | PokerEvaluator.py:208-235 | the pair branches give two pair or one pair, and two pair whenever the second group is a pair |
| Evaluator.EvalTwoPair | PokerEvaluator.py:208-219 | a two-pair result has category two pair |
| Evaluator.EvalOnePair | PokerEvaluator.py:221-235 | a one-pair result has category one pair |
| HandFacts.TripsSucceed | PokerEvaluator.py:192-205 | with a group of three and no pair, the branch succeeds exactly with five or more cards |
| HandFacts.PairsSucceed | PokerEvaluator.py:208-235 | with a leading pair, the pair branches succeed exactly with five or more cards |
| HandFacts.KickersSucceed | PokerEvaluator.py:191-251 | below a full house, the kicker branches succeed exactly with five or more cards |
| HandFacts.BelowFlushSucceeds | PokerEvaluator.py:178-251 | below a full house, the straight and kicker branches succeed exactly with five or more cards |
| HandFacts.GroupsSucceed | PokerEvaluator.py:136-251 | the chain from four of a kind down succeeds exactly with five or more cards |
| HandFacts.EvalHandSucceeds | PokerEvaluator.py:111-251 | `_eval_hand` returns exactly when it is given five or more cards |
| HandPriority.AtMostFour | PokerEvaluator.py:139 | cards without repeats hold at most four of a rank |
| HandPriority.LargestGroup | PokerEvaluator.py:300 | the first group is at least as large as the cards of any rank |
| HandPriority.SecondGroup | PokerEvaluator.py:300 | with two ranks of at least `n` cards each, the second group has at least `n` cards |
| HandPriority.GroupsFloor | PokerEvaluator.py:136-176 | the chain from four of a kind down reaches at least the category the group sizes and a flush call for |
| HandPriority.KickersFloor | PokerEvaluator.py:178-235 | the chain below the flush reaches at least three of a kind, two pair or one pair as the groups call for |
| HandPriority.HandStages | PokerEvaluator.py:113-136 | a straight flush among the flush candidates gives category 8 or 9; otherwise the rank-group chain decides |
| HandPriority.FourOfAKindFound | PokerEvaluator.py:138-149 | four cards of a rank among five or more distinct cards score at least four of a kind |
| HandPriority.FullHouseFound | PokerEvaluator.py:151-161 | three of one rank and two of another score at least a full house |
| HandPriority.FlushFound | PokerEvaluator.py:163-176 | five cards of a suit score at least a flush |
| HandPriority.ThreeOfAKindFound | PokerEvaluator.py:191-205 | three cards of a rank score at least three of a kind |
| HandPriority.TwoPairFound | PokerEvaluator.py:207-219 | two pairs score at least two pair |
| HandPriority.OnePairFound | PokerEvaluator.py:221-235 | a pair scores at least one pair |
| HandShape.FlushCandidatesShape | PokerEvaluator.py:257-266 | the flush candidates are cards of the input, of one suit, in descending rank |
| HandShape.EvalHandSound | PokerEvaluator.py:111-251 | every returned evaluation is five cards of the input that show its category, with the tie-break ranks `_eval_hand` packs |
| HandShape.StraightFlushBranchSound | PokerEvaluator.py:113-134 | the same for the straight-flush branches |
| HandShape.GroupsBranchSound | PokerEvaluator.py:136-251 | the same for the rank-group chain |
| HandShape.StraightFlushSound | PokerEvaluator.py:116-134 | a straight among the flush candidates is a royal or straight flush of the input's cards |
| HandShape.GroupsSound | PokerEvaluator.py:136-176 | the four-of-a-kind to flush branches return what they claim |
| HandShape.QuadsSound | PokerEvaluator.py:138-149 | four of a kind is the group and the highest other card |
| HandShape.FullHouseSound | PokerEvaluator.py:151-161 | a full house is the three and the first two of the next group |
| HandShape.FlushSound | PokerEvaluator.py:163-176 | a flush is the five highest candidates of one suit |
| HandShape.BelowFlushSound | PokerEvaluator.py:178-251 | the straight to high-card branches return what they claim |
| HandShape.KickersSound | PokerEvaluator.py:191-251 | the three of a kind to high-card branches return what they claim |
| HandShape.HighCardSound | PokerEvaluator.py:237-251 | a high-card hand is the five highest cards |
| HandShape.TripsSound | PokerEvaluator.py:192-205 | three of a kind is the group and the two highest other cards, of different ranks |
| HandShape.PairsSound | PokerEvaluator.py:207-235 | the pair branches return what they claim |
| HandShape.TwoPairSound | PokerEvaluator.py:208-219 | two pair is both pairs and the highest other card |
| HandShape.OnePairSound | PokerEvaluator.py:221-235 | one pair is the pair and the three highest other cards |
| HandShape.SortedSingles | PokerEvaluator.py:222 | below two pair the other cards, sorted, fall strictly in rank |
| HandShape.RealisedDigits | PokerEvaluator.py:119-249 | the tie-breaks of a realised evaluation are at most five hex digits, so `value_from` packs them losslessly |
| HandShape.EvalHandCategory | PokerEvaluator.py:108 | `get_hand_rank` of an evaluated hand's value is its category |
| HandShape.FiveCardsPermuted | PokerEvaluator.py:60-63 | `_eval_hand` of five cards returns those five cards reordered, so the dictionary key is the mask of the input hand |
| Resolver.GetValue | PokerEvaluator.py:79-81 | `get_value` succeeds exactly on a non-empty hand whose mask is a key, returning its value; the empty hand fails in `reduce`, a missing mask with `CacheMiss` |
| Resolver.CacheEntry | PokerEvaluator.py:60-63 | a five-card hand is stored under its mask with its `_eval_hand` value |
| Resolver.DeckHands | PokerEvaluator.py:57-63 | every five-card combination of a deck can be evaluated, and the loop's entries are `CacheEntry` of each combination in order |
| Resolver.DeckEntries | PokerEvaluator.py:57-63 | the loop's entries are those of `combinations(deck, 5)`, in order |
| Resolver.CacheKeys | PokerEvaluator.py:60-63 | after `n` stores, a key is present exactly when it was there before or one of the first `n` entries has it |
| Resolver.CacheLast | PokerEvaluator.py:63 | the last store under a key wins |
| Resolver.CacheAgreed | PokerEvaluator.py:60-63 | when every store under a key carries the same value and there is at least one, the dictionary holds that value under the key, whichever store came last |
| Resolver.CacheHasHands | PokerEvaluator.py:57-63 | the dictionary's keys are the old keys and the masks of the stored hands |
| Resolver.CacheExact | PokerEvaluator.py:57-81 | when the hands' masks are pairwise different, `get_value` of every stored hand is its own `_eval_hand` value |
| Resolver.Bucket | PokerEvaluator.py:84-99 | a `defaultdict(list)` bucket holds exactly the entries filed under that value |
| Resolver.FiledAppend | PokerEvaluator.py:88 | filing one more entry appends it to its value's bucket |
| Resolver.FiledSpec | PokerEvaluator.py:84-99 | the filled dictionary's keys are the values reached, each bucket lists that value's entries in order, and it is empty exactly for no entries |
| Resolver.FiledKeys | PokerEvaluator.py:84-99 | a value is a key of the filled dictionary exactly when some entry reaches it |
| Resolver.FiledBuckets | PokerEvaluator.py:84-99 | each key's list is that value's entries in order, and a missing key has no entries |
| Resolver.MaxValue | PokerEvaluator.py:98 | the largest value is reached by some entry and bounds every entry |
| Resolver.MaxBucket | PokerEvaluator.py:99 | the bucket of the largest value is not empty |
| Resolver.MaxKey | PokerEvaluator.py:98 | `max` of a non-empty key set is a key and bounds every key |
| Resolver.MaxKeyIsMax | PokerEvaluator.py:98 | the largest key of the filled dictionary is the largest value |
| Resolver.MaxFiled | PokerEvaluator.py:98-99 | the method finds the largest value and its bucket |
| Resolver.PickBest | PokerEvaluator.py:98-99 | `ranks[max(ranks.keys())][0]`, failing as `max` of nothing does |
| Resolver.CollectSpec | PokerEvaluator.py:85-96 | the loop succeeds exactly when every step does, and then yields every step's entry in order; otherwise it fails with the first failure |
| Resolver.CollectErrPersists | PokerEvaluator.py:85-96 | after a failing step the rest of the loop does not change the outcome |
| Resolver.CollectStep | PokerEvaluator.py:85-96 | one step of the loop appends an entry or ends it with the step's failure |
| Resolver.LookupsSpec | PokerEvaluator.py:93-96 | the lookup loop over non-empty hands succeeds exactly when every mask is cached, and then scores each hand with its cached value |
| Resolver.BucketFirst | PokerEvaluator.py:99 | the first entry of a bucket is the first entry of the list with that value |
| Resolver.BestOfSpec | PokerEvaluator.py:98-99 | the best entry is the first one reaching the largest value |
| Resolver.CachedEntrySpec | PokerEvaluator.py:90-99 | under a dictionary, a player succeeds exactly when every five-card subset is cached; the entry is then the first subset with the largest cached value |
| Resolver.CachedBestSpec | PokerEvaluator.py:93-99 | the same for any list of non-empty hands |
| Resolver.BestScored | PokerEvaluator.py:98-99 | the best scored hand has the largest cached value and is the first to reach it |
| Resolver.PlayerEntryIndex | PokerEvaluator.py:85-99 | a player's entry carries that player's index |
| Resolver.PlayerEntriesIndexed | PokerEvaluator.py:85 | `enumerate(players)` numbers each entry with its player's position |
| Resolver.WinnersIndexed | PokerEvaluator.py:102-104 | every winning index names a player, so `players[index]` does not fail |
| Resolver.ReachingSpec | PokerEvaluator.py:101-103 | the positions reaching a value are listed exactly once each, in ascending order |
| Resolver.BucketIndexes | PokerEvaluator.py:101-103 | the winners' bucket follows the positions reaching the value |
| Resolver.OutcomeOk | PokerEvaluator.py:83-108 | `evaluate` succeeds exactly when there are players and every player's evaluation succeeds; no players fails in `max` |
| Resolver.MaxReached | PokerEvaluator.py:101 | the largest value and the positions reaching it |
| Resolver.OutcomeWinners | PokerEvaluator.py:101-108 | the result has the largest value; its winning hands and hole cards are those of exactly the players reaching it, in order; `is_draw` holds exactly when more than one does |
| Resolver.BestReported | PokerEvaluator.py:101-108 | the same, stated on the scored entries |
| Resolver.WinnersListed | PokerEvaluator.py:102-104 | the winning hands and hole cards are those of the positions reaching the value |
| Resolver.PokerEvaluator.constructor | PokerEvaluator.py:38-39 | the dictionary starts empty |
| Resolver.PokerEvaluator.Precompute | PokerEvaluator.py:41-63 | with precomputation switched off nothing changes; otherwise every five-card hand of the deck is stored, in `combinations` order |
| Resolver.PokerEvaluator.StoreHands | PokerEvaluator.py:57-63 | the loop stores every five-card hand of the given deck |
| Resolver.PokerEvaluator.StoreEntries | PokerEvaluator.py:60-63 | the loop stores each entry in turn |
| Resolver.PokerEvaluator.PlayerPick | PokerEvaluator.py:85-99 | one player's entry: `_eval_hand` of all the cards without a dictionary, else the best cached subset |
| Resolver.PokerEvaluator.CachedPick | PokerEvaluator.py:90-99 | the loop over the subsets and the pick of the best |
| Resolver.PokerEvaluator.Evaluate | PokerEvaluator.py:83-108 | `evaluate` computes `Resolve`, whose meaning `OutcomeOk` and `OutcomeWinners` state |
| Simulator.GetCardHash | PokerSimulator.py:38-40 | `get_card_hash` is the card's `value` |
| Simulator.HashHand | PokerSimulator.py:46-51 | the OR loop computes the mask of the cards, 0 for none |
| Simulator.HashHandAgrees | PokerSimulator.py:46-51 | `hash_hand` agrees with `hash_cards` on non-empty lists; on the empty list it is 0 where `hash_cards` fails |
| Simulator.ShiftPackedPrefix | PokerSimulator.py:134-244 | each `\|=` of a shifted rank adds the next hex digit of `value_from` |
| Simulator.ShiftPackedIsValueFrom | PokerSimulator.py:134-244 | the simulator's shift packing equals Poker.py's `value_from` |
| Simulator.SimEvalHandAgrees | PokerSimulator.py:126-305 | the simulator's `_eval_hand` fails exactly when PokerEvaluator.py's does, with the same error; otherwise it returns the same value and cards |
| Simulator.BeforeAll | PokerSimulator.py:73-77 | a loop over every first position visits the tuples in `combinations` order |
| Simulator.BeforeSplit | PokerSimulator.py:73-77 | the tuples whose first position is below `x`, followed by those from `x` on, are all the tuples in `combinations` order |
| Simulator.WalkIsBefore | PokerSimulator.py:73-77 | one loop level run up to position `x` visits exactly the tuples starting below `x` |
| Simulator.RunIsEntries | PokerSimulator.py:73-81 | a whole loop level visits exactly the tuples of `combinations(range(lo, hi), k)` |
| Simulator.WalkIsCombinations | PokerSimulator.py:73-81 | the five nested loops store the entries of `combinations(deck, 5)`, in order |
| Simulator.TableIsCache | PokerSimulator.py:78-81 | each visited tuple stores its hand's mask and `_eval_hand` value |
| Simulator.TableEntryIsCache | PokerSimulator.py:78-81 | the entry stored for a visited position tuple is the mask and `_eval_hand` value of the five cards at those positions |
| Simulator.RunStores | PokerSimulator.py:73-81 | the nested loops' dictionary is the old one with the loops' entries stored in turn |
| Simulator.WalkStores | PokerSimulator.py:73-81 | a loop level run up to position `x` leaves the old dictionary with the entries it visited stored in turn |
| Simulator.FullDeckHands | PokerSimulator.py:82 | the counter ends at 2,598,960 |
| Simulator.SimGetValueAgrees | PokerSimulator.py:99-101 | `get_value` agrees with PokerEvaluator.py's on non-empty hands; the empty hand looks up key 0 |
| Simulator.Window | PokerSimulator.py:114 | `cards[i:i+5]` is five consecutive cards, or fewer near the end |
| Simulator.Windows | PokerSimulator.py:113-114 | the loop looks at the three windows starting at 0, 1 and 2 |
| Simulator.WindowsCached | PokerSimulator.py:111-119 | the window loop is the cached pick over the three windows |
| Simulator.SimCachedEntrySpec | PokerSimulator.py:111-119 | the window loop succeeds exactly when all three windows are cached, and then picks the first window with the largest value |
| Simulator.SimDirectEntryAgrees | PokerSimulator.py:106-108 | without a dictionary a player's entry is the one PokerEvaluator.py computes |
| Simulator.SimPlayerEntriesAt | PokerSimulator.py:105 | each player's entry carries their position |
| Simulator.SimOutcomeAgrees | PokerSimulator.py:121-123 | for the same entries the two `evaluate`s fail alike, or name the same value and winning hands; "Draw" is reported exactly for a draw |
| Simulator.SimResolveUncached | PokerSimulator.py:103-123 | without a dictionary the simulator's `evaluate` finds the winners PokerEvaluator.py's finds |
| Simulator.PokerEvaluator.constructor | PokerSimulator.py:42-44 | the dictionary starts empty |
| Simulator.PokerEvaluator.Precompute | PokerSimulator.py:65-85 | the compute branch visits 2,598,960 hands and leaves the same dictionary PokerEvaluator.py's `precompute` builds |
| Simulator.PokerEvaluator.StoreDeck | PokerSimulator.py:70-85 | the nested loops over a deck visit `C(n, 5)` hands and store the entries of its five-card combinations |
| Simulator.PokerEvaluator.Enumerate | PokerSimulator.py:73-77 | one loop level counts `C(n - lo, k)` hands and stores the level's entries |
| Simulator.PokerEvaluator.Loop | PokerSimulator.py:73-77 | the loop over one position, with its count and stores |
| Simulator.PokerEvaluator.Visit | PokerSimulator.py:78-81 | the innermost body stores the visited hand's entry |
| Simulator.PokerEvaluator.StoreHand | PokerSimulator.py:79-81 | one hand is stored under its mask with its `_eval_hand` value |
| Simulator.PokerEvaluator.GetValue | PokerSimulator.py:99-101 | `get_value` looks up the hand's mask |
| Simulator.PokerEvaluator.WindowPick | PokerSimulator.py:111-119 | the window loop and the pick of the best window |
| Simulator.PokerEvaluator.PlayerPick | PokerSimulator.py:105-119 | one player's entry, direct or by windows |
| Simulator.PokerEvaluator.Evaluate | PokerSimulator.py:103-123 | the simulator's `evaluate` computes `SimResolve` |
| Simulation.PlayerCount | PokerSimulator.py:328 | `range(n)` makes `n` hands, none for a negative `n` |
| Simulation.Drawn | DeckOfCards.py:89-93 | `k` draws yield `k` cards |
| Simulation.DrawnOrder | DeckOfCards.py:93 | the `d`-th draw is the `d`-th card from the end of the deck |
| Simulation.DrawnFromTop | DeckOfCards.py:93 | `k` draws take exactly the last `k` cards |
| Simulation.DrawnAndLeft | DeckOfCards.py:93 | the drawn cards and the rest of the deck make up the old deck |
| Simulation.RoundRobin | PokerSimulator.py:328-332 | the dealt cards make one hand per player |
| Simulation.RoundRobinDeals | PokerSimulator.py:330-332 | player `p` gets, in round `r`, the card drawn at turn `r * n + p` |
| Simulation.RoundRobinFull | PokerSimulator.py:330-332 | after two full rounds every player holds two cards |
| Simulation.NoneDealt | PokerSimulator.py:328 | before dealing every hand is empty |
| Simulation.RoundRobinStep | PokerSimulator.py:332 | one draw appends the card to the hand whose turn it is and changes no other hand |
| Simulation.RoundRobinConserves | PokerSimulator.py:330-332 | the hands together hold exactly the dealt cards |
| Simulation.FullDeckDeals | PokerSimulator.py:318-334 | from a full deck the deal succeeds exactly for 0 to 26 players, and up to 22 players leave at least five cards for the board |
| Simulation.DealKeepsCards | PokerSimulator.py:327-334 | moving cards from the deck into the hands keeps every card of the game unique |
| Simulation.BoardKeepsCards | PokerSimulator.py:336-338 | moving cards from the deck onto the board keeps every card of the game unique |
| Simulation.DealRoundRobin | PokerSimulator.py:330-332 | the two rounds deal `min(2n, deck size)` cards round-robin from the end of the deck; the deck empties exactly when `2n` exceeds it |
| Simulation.DealRound | PokerSimulator.py:331-332 | one round over the players |
| Simulation.DrawCards | PokerSimulator.py:337-338 | `count` draws take `min(count, deck size)` cards from the end; the deck empties exactly when `count` exceeds it |
| Simulation.PokerSimulation.Make | PokerSimulator.py:309-316 | the fields as given, with no hands and no board |
| Simulation.PokerSimulation.Create | PokerSimulator.py:309-320 | more than 22 players fail with `TooManyPlayers`. Otherwise the simulation holds a fresh shuffled full deck, no hands and no board, and no card is duplicated |
| Simulation.PokerSimulation.DealHands | PokerSimulator.py:327-334 | the new hands and deck are the round-robin deal from the end of the old deck. It fails with `EmptyDeck` or, when the deck is not `52 - 2n` cards, the assertion. No card is duplicated |
| Simulation.PokerSimulation.DealCommunityCards | PokerSimulator.py:336-338 | up to five cards move from the end of the deck onto the board, failing with `EmptyDeck` when fewer are left; no card is duplicated |
| Simulation.PokerSimulation.Run | PokerSimulator.py:322-325 | a failing deal is returned. Otherwise each player has two cards and the board five more, all from the old deck, and the result is the simulator's evaluation of that deal. No card is duplicated |
| StraightFinding.StraightRanks | PokerEvaluator.py:268-294 | the five ranks of the straight topped by `top`, pairwise different, with the Ace low in the wheel |
| StraightFinding.HighestStraight | PokerEvaluator.py:268-294 | the highest top of a straight the cards hold, and none exactly when they hold none up to `top` |
| StraightFinding.HoldsFive | PokerEvaluator.py:268-294 | cards holding the five ranks of a straight hold that straight |
| StraightFinding.PickRanks | PokerEvaluator.py:304-310 | one card of each requested rank, from the cards |
| StraightFinding.CorrectedStraightSpec | PokerEvaluator.py:268-294 | the corrected finder returns `[]` exactly when the cards hold no straight; otherwise five of the cards making the highest straight they hold |
| StraightFinding.CorrectedFindsEveryStraight | PokerEvaluator.py:268-294 | any five cards making a straight are found by the corrected finder, at their height or above |
| StraightFinding.ScanOfSorted | PokerEvaluator.py:273-276 | on cards already sorted by rank, `_eval_straight` is the scan |
| StraightFinding.ScanMissesBrokenRun | PokerEvaluator.py:276-282 | as written, King to Nine followed by a Three and a Two yields no straight, while the cards hold the King-high straight and the corrected finder returns it |
| StraightFinding.ScanMissesRepeatedRank | PokerEvaluator.py:276-282 | as written, Nine, Eight, Eight, Seven, Six, Five yields no straight, while the cards hold the Nine-high straight |
| StraightFinding.WheelRuleDropsSixHigh | PokerEvaluator.py:284-289 | as written, Ace and Six down to Two yield the wheel instead of the Six-high straight the cards hold |
| StraightFinding.WheelOutscoresKingHigh | PokerEvaluator.py:126-134 | as written, a five-high straight flush packs a higher value than a King-high one |
| StraightFinding.Top | PokerEvaluator.py:284-289 | the height of a straight: five for the wheel, the first rank otherwise |
| StraightFinding.CorrectedStraightFlushOrder | PokerEvaluator.py:116-134 | with corrected tie-breaks, straight flushes compare exactly as their heights compare, both directions |
| StraightFinding.PaddedStraightFlush | PokerEvaluator.py:116-134 | the corrected digits: royal flush alone, else 8 and the two top ranks |
| WindowMiss.SpadesAreStraightFlush | PokerEvaluator.py:113-134 | King to Nine of spades evaluate as a straight flush |
| WindowMiss.AtBestStraight | PokerEvaluator.py:111-251 | five cards of distinct ranks and more than one suit score at most a straight |
| WindowMiss.CategoryDecides | Poker.py:39-44 | a lower category packs a lower value, whatever the tie-breaks |
| WindowMiss.ValueBelow | Poker.py:39-44 | a hand of lower category has a lower value |
| WindowMiss.SubsetsFindBest | PokerEvaluator.py:90-99 | with a dictionary holding every subset's value, the loop over all subsets returns a subset and no choice of five cards scores higher |
| WindowMiss.WindowsScore | PokerSimulator.py:111-119 | with the three windows cached, the simulator scores the player with one of the windows |
| WindowMiss.WindowsBelow | PokerSimulator.py:111-119 | when the straight flush lies across the windows, each window scores below it |
| WindowMiss.AtLeastStraightFlush | Poker.py:39-44 | a five-card hand scoring at least a straight flush's value is a straight flush |
| WindowMiss.WindowsScoreLow | PokerSimulator.py:111-119 | when every window scores below some five cards, the simulator scores the player below them |
| WindowMiss.WindowsMissStraightFlush | PokerSimulator.py:111-119 | as written, a straight flush across the windows is scored as at best a straight, strictly below what the loop over all subsets finds |
| WindowMiss.ExampleHides | PokerSimulator.py:113-114 | K♠ Q♠ with 3♣ J♠ T♠ 9♠ 7♦ hide a straight flush from every window |
| WindowMiss.ExampleWindows | PokerSimulator.py:113-115 | each of that player's three windows evaluates to at most a straight |
| WindowMiss.ExampleSubsetPlain | PokerEvaluator.py:91-95 | every five-card subset `combinations` takes from that player's seven cards has no pair, no Ace and no Two |
| WindowMiss.ExampleFaithful | PokerEvaluator.py:91-95 | a dictionary right on hands with no pair, no Ace and no Two holds every five-card subset of that player's cards under its mask, with its own value |
| WindowMiss.PlainMisses | PokerSimulator.py:111-119 | with any such dictionary, that player's simulator entry is at best a straight, while PokerEvaluator.py's is a straight flush with a higher value |
| WindowMiss.DeckMisses | PokerEvaluator.py:57-63 | with the dictionary `precompute` builds from a deck holding every card once, in any order, that player's simulator entry is at best a straight, while PokerEvaluator.py's is a straight flush with a higher value |
| WindowMiss.ExampleMisses | PokerSimulator.py:111-119 | with the dictionary both `precompute` methods build from the starting deck, in whatever order its `frozenset` lists the cards, that player's simulator entry is at best a straight, while PokerEvaluator.py's is a straight flush with a higher value |
| Reordering.OfRankCount | PokerEvaluator.py:297-303 | the cards of one rank are exactly those of the list with that rank, each as often |
| Reordering.OfSuitCount | PokerEvaluator.py:258-260 | the cards of one suit are exactly those of the list with that suit, each as often |
| Reordering.UnpairedSub | PokerEvaluator.py:297-303 | part of a hand with no pair has no pair |
| Reordering.RanksApartUnpaired | PokerEvaluator.py:297-303 | cards whose ranks all differ fall into rank groups of one card |
| Reordering.StrictUnique | PokerEvaluator.py:264 | two lists of the same cards, both strictly falling in rank, are the same list |
| Reordering.SortDescStrict | PokerEvaluator.py:264 | sorting cards with no pair by rank, high first, gives a strictly falling list |
| Reordering.SortDescReordered | PokerEvaluator.py:264 | with no pair, the same cards in any order sort to the same list |
| Reordering.OfSuitReordered | PokerEvaluator.py:258-260 | the same cards in any order have the same cards of each suit |
| Reordering.FlushSuitReordered | PokerEvaluator.py:258-266 | the first suit holding five cards does not depend on the order of the cards |
| Reordering.FlushCandidatesReordered | PokerEvaluator.py:258-267 | with no pair, `_get_flush_candidates` gives the same list for any order of the same cards |
| Reordering.UnpairedGroups | PokerEvaluator.py:297-303 | with no pair, the first rank group is a single card, so no pair, three or four of a kind is found |
| Reordering.UnpairedKickers | PokerEvaluator.py:119-251 | with no pair, the branches below the straight reach the high card |
| Reordering.UnpairedChain | PokerEvaluator.py:119-251 | with no pair, four of a kind and full house are skipped: a flush if there are flush candidates, otherwise the branches below the flush |
| Reordering.BelowFlushReordered | PokerEvaluator.py:119-251 | with no pair, the branches below the flush give the same result for two lists that sort alike |
| Reordering.GroupsReordered | PokerEvaluator.py:119-251 | with no pair, the branches from four of a kind down give the same result for two lists that sort alike |
| Reordering.EvalHandReordered | PokerEvaluator.py:112-251 | with no pair, `_eval_hand` gives the same value and the same five cards for any order of the same cards |
| DeckCache.MaskCardsOf | DeckOfCards.py:67-69 | a list with the mask of a hand with no Ace and no Two holds only cards of that hand |
| DeckCache.SameCards | PokerEvaluator.py:57-62 | a list without repeats whose cards all belong to a list of the same length holds exactly that list's cards, each as often |
| DeckCache.PickDistinct | PokerEvaluator.py:57-58 | the cards at increasing positions of a list with no card twice are different cards |
| DeckCache.DeckHandDistinct | PokerEvaluator.py:57-58 | every hand `combinations(deck, 5)` yields from a deck without repeats is five different cards |
| DeckCache.Hits | PokerEvaluator.py:57-58 | the positions of a deck holding cards of a hand, ascending: exactly those positions, each once |
| DeckCache.SameMembersCounts | PokerEvaluator.py:57-62 | two lists with no card twice and the same cards hold each card equally often |
| DeckCache.UnpairedDistinct | PokerEvaluator.py:297-303 | cards with no two of a rank have no card twice |
| DeckCache.DeckHandOf | PokerEvaluator.py:57-58 | five different cards are, up to order, one of the hands `combinations` yields from a deck holding every card once, in any order |
| DeckCache.SameMembersMask | DeckOfCards.py:103-105 | lists of the same cards have the same mask |
| DeckCache.PlainHandStored | PokerEvaluator.py:57-81 | after the loop over such a deck in any order, `get_value` of a five-card hand with no Ace, no Two and no pair is its own `_eval_hand` value, although other hands' entries overwrite one another where bits collide |
| DeckCache.PlainHandsStored | PokerEvaluator.py:57-81 | the same for every such hand at once |
| DeckCache.PrecomputedRight | PokerEvaluator.py:41-81 | after `precompute` from the starting deck in any order of its cards, `get_value` of every five-card hand with no Ace, no Two and no pair is its own `_eval_hand` value |

## Left out

- PokerRepository (`select_all`, `create_table`, `insert`, `commit`) is not part of this model. It is a database, so both `precompute` methods are modelled on their compute branch, and the database branch and the final writes are left out.
- `print` and `time.perf_counter` in `precompute` are output and a clock; they are left out.
- Display code is left out:
  - `__repr__`, `Suit.to_unicode`, `Rank.to_string`;
  - `HandRank.__str__`;
  - `winning_hands_serialized`, `winning_hole_cards_serialied`.
- `HandClassification.__repr__` is left out because it calls `serialize`, which DeckOfCards.py does not define. The suffix it appends (`get_suited_or_pair`) is modelled.
- Cards.DeckOfCards.Shuffle: `random.shuffle` is randomness. It is modelled as CPython's Fisher-Yates with the random numbers passed in as `draws`.
- Cards.STARTING_DECK: the iteration order of the `frozenset` is unspecified in Python. `PlayingCard`'s hash comes from the enum members' names, whose string hash can change from run to run. The model fixes the generator's order:
  - `Resolver.PokerEvaluator.Precompute` and `Simulator.PokerEvaluator.Precompute` state the exact dictionary built from the deck in that order.
  - Under a mask that several hands share (an Ace and a Two of the next suit), the last store wins (`Resolver.CacheLast`), so in Python the value left there can differ from run to run.
  - The facts proved about the precomputed dictionary hold for every order of the starting deck (`Cards.FullDeckOrders`): `DeckCache.PrecomputedRight` and `WindowMiss.ExampleMisses`.
  - The other facts claimed about the starting deck do not depend on its order: the keys of `CARDS_BY_VALUE`, which card `get_card` may return, and that the deck is shuffled before use.
- `lru_cache` and `cached_property` only cache, so they are left out.
- `_eval_straight(need_sort=True)` and the high-card branch sort the caller's list in place, and `HandClassification` sorts its argument in place. Every caller passes a fresh list, so the model works on values.
- Simulator.PokerEvaluator.constructor: the simulator's `PokerEvaluator` has no `values` attribute until `precompute` runs, so `evaluate` before it would raise `AttributeError`. The model starts from an empty dictionary and takes the `_eval_hand` branch.
- Simulation.PokerSimulation.Create: the default `evaluator` factory calls `PokerEvaluator()` without its `repository` argument. The evaluator is therefore a parameter, and the deck's random numbers are too.
- Simulator.PokerEvaluator.Evaluate: the source's `evaluate` builds its result and returns `None`. The model returns the result it builds (`SimResult`).
- Simulation.PokerSimulation.Run: on a failing deal it states the error and that no card is duplicated, not the partial hands. `DealHands` and `DealCommunityCards` state those.
- WindowMiss.WindowsMissStraightFlush: it takes as hypothesis a dictionary holding each subset's own `_eval_hand` value. Because card bits collide, the precomputed dictionary is not such a dictionary for every seven cards, so the general lemma keeps the hypothesis. For the exhibited player, `WindowMiss.ExampleMisses` discharges it for the precomputed dictionary itself.
- DeckCache.PrecomputedRight: it covers only five-card hands with no pair, no Ace and no Two. Where an Ace shares its bit with a Two, or where a pair makes `_eval_hand`'s tie-breaks depend on the order of the cards, hands with the same mask may leave different values. The model does not say which value is left there.
- `main.py`, `Simulator.py`, the simulator's timing driver, and result serialisation are not part of this model.

## Findings

The model keeps the source's formulas: the dictionary keys, the straight scan and the straight-flush tie-breaks are the code's own. Each defect below is exhibited on the model of the code as written. The corrected definition beside it carries the property the code evidently intends.

| source | as written | input that shows it | evidently intended | confidence | as-written member | corrected member |
|---|---|---|---|---|---|---|
| DeckOfCards.py:69 | `1 << (suit * 12 + rank - 2)` gives 12 bit positions per suit to 13 ranks | the Ace of spades and the Two of hearts both have bit 12, so a spade royal flush and the same hand with the Two of hearts share a mask (also PokerSimulator.py:40) | one bit per card (13 per suit), so a mask determines its cards | not executed | Cards.CollidingHands | Cards.CorrectedMaskDeterminesCards |
| PokerEvaluator.py:276-282 | the scan restarts at every card that does not continue the run and keeps only the last run | K Q J T 9 3 2 (mixed suits) yields no straight | the highest straight the cards hold | not executed | StraightFinding.ScanMissesBrokenRun | StraightFinding.CorrectedStraightSpec |
| PokerEvaluator.py:278-282 | a second card of a rank breaks the run | 9 8 8 7 6 5 yields no straight | the Nine-high straight | not executed | StraightFinding.ScanMissesRepeatedRank | StraightFinding.CorrectedFindsEveryStraight |
| PokerEvaluator.py:284-289 | a run ending in a Two with an Ace present is cut to four cards plus the Ace, however long the run | A 6 5 4 3 2 yields the wheel | the Six-high straight | not executed | StraightFinding.WheelRuleDropsSixHigh | StraightFinding.CorrectedStraightSpec |
| PokerEvaluator.py:126-134 | the wheel is returned Ace first, so its tie-breaks are (14, 5) | a five-high straight flush outscores a King-high one | straight flushes ordered by their height | not executed | StraightFinding.WheelOutscoresKingHigh | StraightFinding.CorrectedStraightFlushOrder |
| PokerSimulator.py:113-114 | three contiguous windows `cards[i:i+5]` instead of all 21 five-card subsets | hole K♠ Q♠, board 3♣ J♠ T♠ 9♠ 7♦: the straight flush is in no window | the best of all five-card subsets | not executed | WindowMiss.ExampleMisses | WindowMiss.SubsetsFindBest |
