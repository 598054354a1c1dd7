/** The simulator's `evaluate` looks a player's seven cards up as three
    contiguous windows, `cards[i:i+5]` for `i` in 0, 1, 2, where
    PokerEvaluator.py looks up all 21 five-card subsets. Two hole cards
    and a board that make a straight flush only across a gap are scored
    as a high card. */
module WindowMiss {
  import opened Outcomes
  import opened Bits
  import opened Cards
  import opened RankOrder
  import opened Poker
  import opened Evaluator
  import opened HandShape
  import opened HandPriority
  import opened Subsets
  import opened Resolver
  import opened Simulator
  import opened Reordering
  import opened DeckCache

  /** King and Queen of spades in the hole; the Three of clubs, the Jack,
      Ten and Nine of spades and the Seven of diamonds on the board. */
  const HOLE: seq<PlayingCard> := [PlayingCard(13, Spade), PlayingCard(12, Spade)]
  const BOARD: seq<PlayingCard> :=
    [PlayingCard(3, Club), PlayingCard(11, Spade), PlayingCard(10, Spade), PlayingCard(9, Spade), PlayingCard(7, Diamond)]

  /** The King-high straight flush among the seven cards. */
  const SPADES: seq<PlayingCard> :=
    [PlayingCard(13, Spade), PlayingCard(12, Spade), PlayingCard(11, Spade), PlayingCard(10, Spade), PlayingCard(9, Spade)]

  /** `_eval_hand` finds the straight flush in the five spades. */
  lemma {:induction false} SpadesAreStraightFlush()
    ensures Category(EvalHand(SPADES)) >= 8
  {
    HandStages(SPADES);
    SpadesAreFlushCandidates();
    SpadesScan();
  }

  lemma {:induction false} SpadesAreFlushCandidates()
    ensures FlushCandidates(SPADES) == SPADES
  {
    SpadesOfSpade();
    assert FlushSuitFrom(SPADES, 0) == Some(Spade);
    SpadesSorted();
  }

  lemma {:induction false} SpadesOfSpade()
    ensures OfSuit(SPADES, Spade) == SPADES
  {
    OfSuitUniform(SPADES, Spade);
  }

  /** A list of one suit keeps all of itself for that suit. */
  lemma {:induction false} OfSuitUniform(s: seq<PlayingCard>, t: Suit)
    requires forall i :: 0 <= i < |s| ==> s[i].suit == t
    ensures OfSuit(s, t) == s
  {
    if s != [] {
      OfSuitUniform(s[1..], t);
      assert s == [s[0]] + s[1..];
    }
  }

  lemma {:induction false} SpadesSorted()
    ensures SortDesc(SPADES) == SPADES
  {
    assert SortedDesc(SPADES);
    SortDescOfSorted(SPADES);
  }

  lemma {:induction false} SpadesScan()
    ensures StraightOf(SPADES, false) == SPADES
  {
    assert RunStart(SPADES, 5) == 0;
  }
  // ---------------------------------------------------------------------
  // The windows hold no group and no flush

  /** Five cards of five different ranks and more than one suit are at
      best a straight: `_eval_hand` cannot show a flush or a group of one
      rank with them. */
  lemma {:induction false} AtBestStraight(h: seq<PlayingCard>, i: nat)
    requires |h| == 5
    requires forall p, q :: 0 <= p < q < 5 ==> h[p].rank != h[q].rank
    requires i < 5 && h[i].suit != h[0].suit
    ensures EvalHand(h).Ok? && Category(EvalHand(h)) <= 4
  {
    FiveCardsPermuted(h);
    EvalHandSound(h);
    RealisedAtBestStraight(h, EvalHand(h).value, i);
  }

  /** The same for any realised evaluation that reorders the cards. */
  lemma {:induction false} RealisedAtBestStraight(h: seq<PlayingCard>, e: Evaluation, i: nat)
    requires |h| == 5 && Realises(e) && multiset(e.hand) == multiset(h)
    requires forall p, q :: 0 <= p < q < 5 ==> h[p].rank != h[q].rank
    requires i < 5 && h[i].suit != h[0].suit
    ensures e.category.Ordinal() <= 4
  {
    Ordinals(e.category);
    match e.category
    case RoyalFlush => NotOneSuit(h, e.hand, i);
    case StraightFlush => NotOneSuit(h, e.hand, i);
    case Flush => NotOneSuit(h, e.hand, i);
    case FourOfAKind =>
      assert e.hand[..4][1] == e.hand[1];
      NoPairIn(h, e.hand);
    case FullHouse =>
      assert e.hand[..3][1] == e.hand[1];
      NoPairIn(h, e.hand);
    case _ =>
  }

  /** A list with two suits is not a reordering of a list of one suit. */
  lemma {:induction false} NotOneSuit(h: seq<PlayingCard>, g: seq<PlayingCard>, i: nat)
    requires multiset(g) == multiset(h) && i < |h| && h[i].suit != h[0].suit
    ensures !OneSuit(g)
  {
    assert h[0] in multiset(g) && h[i] in multiset(g);
  }

  /** A reordering of cards of different ranks has no two cards of one
      rank at its front. */
  lemma {:induction false} NoPairIn(h: seq<PlayingCard>, g: seq<PlayingCard>)
    requires multiset(g) == multiset(h) && 2 <= |g|
    requires forall p, q :: 0 <= p < q < |h| ==> h[p].rank != h[q].rank
    ensures g[0].rank != g[1].rank
  {
    if g[0].rank == g[1].rank {
      var r := g[0].rank;
      TwoOfRank(g, 0, 1);
      OfRankPermutation(g, h, r);
      assert |multiset(OfRank(h, r))| == |multiset(OfRank(g, r))|;
      AtMostOneOfRank(h, r);
    }
  }

  /** Cards of different ranks hold at most one card of each rank. */
  lemma {:induction false} AtMostOneOfRank(h: seq<PlayingCard>, r: int)
    requires forall p, q :: 0 <= p < q < |h| ==> h[p].rank != h[q].rank
    ensures |OfRank(h, r)| <= 1
  {
    if h != [] {
      var t := h[1..];
      forall p, q | 0 <= p < q < |t|
        ensures t[p].rank != t[q].rank
      {
        assert t[p] == h[p + 1] && t[q] == h[q + 1];
      }
      AtMostOneOfRank(t, r);
      if h[0].rank == r {
        forall m | 0 <= m < |t|
          ensures t[m].rank != r
        {
          assert t[m] == h[m + 1];
        }
        OfRankAbsent(t, r);
      }
    }
  }

  // ---------------------------------------------------------------------
  // Value order follows category order

  /** A realised evaluation of a lower category packs a lower value. */
  lemma {:induction false} CategoryDecides(a: Evaluation, b: Evaluation)
    requires Realises(a) && Realises(b)
    requires a.category.Ordinal() < b.category.Ordinal()
    ensures a.Value() < b.Value()
  {
    RealisedDigits(a);
    RealisedDigits(b);
    LeadingDigit(a.category.Ordinal(), a.tieBreaks);
    LeadingDigit(b.category.Ordinal(), b.tieBreaks);
    if a.Value() >= b.Value() {
      DivMonotone(b.Value(), a.Value(), Pow2(20));
    }
  }

  lemma {:induction false} DivMonotone(x: nat, y: nat, p: nat)
    requires x <= y && 0 < p
    ensures x / p <= y / p
  {
    var a, b := x / p, y / p;
    assert x == a * p + x % p && y == b * p + y % p;
    if a > b {
      MulMonotone(b + 1, a, p);
    }
  }

  // ---------------------------------------------------------------------
  // Dictionaries that hold the subsets of a player's cards

  /** The value `_eval_hand` packs for a hand, and 0 where it raises. */
  function HandValue(h: seq<PlayingCard>): nat
  {
    match EvalHand(h)
    case Ok(e) => e.Value()
    case Err(_) => 0
  }

  /** Five increasing positions of a list of `n` cards. */
  predicate Choice(c: seq<nat>, n: nat)
  {
    |c| == 5 && Increasing(c) && Within(c, 0, n)
  }

  /** `values` holds `f` of the cards at every five increasing positions
      of `cards`, under their mask. */
  ghost predicate Stores(values: map<nat, nat>, cards: seq<PlayingCard>, f: seq<PlayingCard> -> nat)
  {
    forall c :: Choice(c, |cards|) ==>
      MaskOf(Pick(cards, c)) in values && values[MaskOf(Pick(cards, c))] == f(Pick(cards, c))
  }

  /** A dictionary that holds, under the mask of every five-card subset of
      `cards`, that subset's `_eval_hand` value, as the precomputed one
      does. */
  ghost predicate Faithful(values: map<nat, nat>, cards: seq<PlayingCard>)
  {
    Stores(values, cards, HandValue)
  }

  /** The subsets of `combinations(cards, 5)` are the cards at the five
      increasing positions of each choice. */
  lemma {:induction false} SubsetIsChoice(cards: seq<PlayingCard>, l: nat) returns (c: seq<nat>)
    requires l < |Combinations(cards, 5)|
    ensures Choice(c, |cards|) && Combinations(cards, 5)[l] == Pick(cards, c)
  {
    TuplesWithin(0, |cards|, 5);
    c := Tuples(0, |cards|, 5)[l];
    TuplesSound(0, |cards|, 5, c);
  }

  /** A full window is the cards at five consecutive positions. */
  lemma {:induction false} WindowIsPick(cards: seq<PlayingCard>, i: nat) returns (c: seq<nat>)
    requires i + 5 <= |cards|
    ensures Choice(c, |cards|) && Window(cards, i) == Pick(cards, c)
  {
    c := [i, i + 1, i + 2, i + 3, i + 4];
    var w, v := Window(cards, i), Pick(cards, c);
    assert |w| == |v| == 5;
    assert forall p :: 0 <= p < 5 ==> w[p] == cards[i + p] == v[p];
  }

  /** Position by position, every subset is stored with `f` of it. */
  lemma {:induction false} StoredAt(values: map<nat, nat>, cards: seq<PlayingCard>, f: seq<PlayingCard> -> nat)
    requires Stores(values, cards, f)
    ensures var hands := Combinations(cards, 5);
      forall l :: 0 <= l < |hands| ==> MaskOf(hands[l]) in values && values[MaskOf(hands[l])] == f(hands[l])
  {
    var hands := Combinations(cards, 5);
    forall l | 0 <= l < |hands|
      ensures MaskOf(hands[l]) in values && values[MaskOf(hands[l])] == f(hands[l])
    {
      var c := SubsetIsChoice(cards, l);
    }
  }

  /** The loop over all the five-card subsets, which PokerEvaluator.py
      runs, finds the best of them: its entry is one of the subsets,
      scored with `f` of it, and no choice of five cards scores higher. */
  lemma {:induction false} SubsetsFindBest(values: map<nat, nat>, index: nat, cards: seq<PlayingCard>, f: seq<PlayingCard> -> nat)
    requires 5 <= |cards| && Stores(values, cards, f)
    ensures CachedEntry(values, index, cards).Ok?
    ensures var r := CachedEntry(values, index, cards).value;
      r.hand in Combinations(cards, 5) && r.value == f(r.hand) &&
      forall c :: Choice(c, |cards|) ==> f(Pick(cards, c)) <= r.value
  {
    var hands := Combinations(cards, 5);
    SubsetsExist(cards);
    StoredAt(values, cards, f);
    CachedEntrySpec(values, index, cards);
    var r := CachedEntry(values, index, cards).value;
    forall c | Choice(c, |cards|)
      ensures f(Pick(cards, c)) <= r.value
    {
      ChoiceIsSubset(cards, c);
    }
  }

  /** Five increasing positions pick one of the subsets. */
  lemma {:induction false} ChoiceIsSubset(cards: seq<PlayingCard>, c: seq<nat>)
    requires Choice(c, |cards|)
    ensures exists l :: 0 <= l < |Combinations(cards, 5)| && Combinations(cards, 5)[l] == Pick(cards, c)
  {
    TuplesComplete(0, |cards|, 5, c);
    TuplesWithin(0, |cards|, 5);
    var ts := Tuples(0, |cards|, 5);
    var l :| 0 <= l < |ts| && ts[l] == c;
    assert Combinations(cards, 5)[l] == Pick(cards, c);
  }

  /** Five or more cards have a five-card subset. */
  lemma {:induction false} SubsetsExist(cards: seq<PlayingCard>)
    requires 5 <= |cards|
    ensures Combinations(cards, 5) != []
  {
    var c := WindowIsPick(cards, 0);
    ChoiceIsSubset(cards, c);
  }

  /** With its three windows stored with `f` of them, the window loop
      scores the cards with one of its windows and `f` of it. */
  lemma {:induction false} WindowsScore(values: map<nat, nat>, index: nat, cards: seq<PlayingCard>, f: seq<PlayingCard> -> nat) returns (i: nat)
    requires 3 <= |cards|
    requires forall i :: 0 <= i < 3 ==> MaskOf(Window(cards, i)) in values && values[MaskOf(Window(cards, i))] == f(Window(cards, i))
    ensures SimCachedEntry(values, index, cards).Ok?
    ensures var s := SimCachedEntry(values, index, cards).value;
      i < 3 && s.hand == Window(cards, i) && s.value == f(s.hand)
  {
    SimCachedEntrySpec(values, index, cards);
    var ws := Windows(cards);
    var s := SimCachedEntry(values, index, cards).value;
    i :| 0 <= i < 3 && s == Scored(values[MaskOf(ws[i])], index, ws[i]);
  }

  /** A full window is stored with `f` of it. */
  lemma {:induction false} WindowStored(values: map<nat, nat>, cards: seq<PlayingCard>, f: seq<PlayingCard> -> nat, i: nat)
    requires i + 5 <= |cards| && Stores(values, cards, f)
    ensures MaskOf(Window(cards, i)) in values && values[MaskOf(Window(cards, i))] == f(Window(cards, i))
  {
    var c := WindowIsPick(cards, i);
  }

  // ---------------------------------------------------------------------
  // The finding

  /** A hand of a lower category than another packs a lower value. */
  lemma {:induction false} ValueBelow(a: seq<PlayingCard>, b: seq<PlayingCard>)
    requires EvalHand(a).Ok? && Category(EvalHand(a)) < Category(EvalHand(b))
    ensures HandValue(a) < HandValue(b)
  {
    EvalHandSound(a);
    EvalHandSound(b);
    CategoryDecides(EvalHand(a).value, EvalHand(b).value);
  }

  /** Seven or more cards whose three windows show at best a straight,
      while five other positions hold a straight flush. */
  predicate HiddenStraightFlush(cards: seq<PlayingCard>, sf: seq<nat>)
  {
    && 7 <= |cards| && Choice(sf, |cards|) && Category(EvalHand(Pick(cards, sf))) >= 8
    && forall i :: 0 <= i < 3 ==> Category(EvalHand(Window(cards, i))) <= 4
  }

  /** Each window of such cards packs a lower value than the hidden
      straight flush. */
  lemma {:induction false} WindowsBelow(cards: seq<PlayingCard>, sf: seq<nat>)
    requires HiddenStraightFlush(cards, sf)
    ensures forall i :: 0 <= i < 3 ==> HandValue(Window(cards, i)) < HandValue(Pick(cards, sf))
  {
    forall i | 0 <= i < 3
      ensures HandValue(Window(cards, i)) < HandValue(Pick(cards, sf))
    {
      FiveCardsPermuted(Window(cards, i));
      ValueBelow(Window(cards, i), Pick(cards, sf));
    }
  }

  /** A five-card hand scoring at least a straight flush's value is a
      straight flush. */
  lemma {:induction false} AtLeastStraightFlush(h: seq<PlayingCard>, g: seq<PlayingCard>)
    requires |h| == 5 && Category(EvalHand(g)) >= 8 && HandValue(g) <= HandValue(h)
    ensures Category(EvalHand(h)) >= 8
  {
    FiveCardsPermuted(h);
    if Category(EvalHand(h)) < 8 {
      ValueBelow(h, g);
    }
  }

  /** When every window scores below the cards at `sf`, the window loop
      scores the cards with a window, below them. */
  lemma {:induction false} WindowsScoreLow(values: map<nat, nat>, index: nat, cards: seq<PlayingCard>, sf: seq<nat>, f: seq<PlayingCard> -> nat)
    returns (i: nat)
    requires 7 <= |cards| && Choice(sf, |cards|) && Stores(values, cards, f)
    requires forall i :: 0 <= i < 3 ==> f(Window(cards, i)) < f(Pick(cards, sf))
    ensures SimCachedEntry(values, index, cards).Ok?
    ensures var s := SimCachedEntry(values, index, cards).value;
      i < 3 && s.hand == Window(cards, i) && s.value < f(Pick(cards, sf))
  {
    forall j | 0 <= j < 3
      ensures MaskOf(Window(cards, j)) in values && values[MaskOf(Window(cards, j))] == f(Window(cards, j))
    {
      WindowStored(values, cards, f, j);
    }
    i := WindowsScore(values, index, cards, f);
    assert f(Window(cards, i)) < f(Pick(cards, sf));
  }

  /** As written, under a dictionary holding every five-card subset, the
      simulator's `evaluate` scores a player whose straight flush lies
      across the windows as at best a straight, while the loop over all
      the subsets finds a straight flush and scores the player strictly
      higher. */
  lemma {:induction false} WindowsMissStraightFlush(values: map<nat, nat>, index: nat, hole: seq<PlayingCard>, board: seq<PlayingCard>, sf: seq<nat>)
    requires HiddenStraightFlush(hole + board, sf) && Faithful(values, hole + board)
    ensures SimPlayerEntry(values, index, hole, board).Ok? && PlayerEntry(values, index, hole, board).Ok?
    ensures var s := SimPlayerEntry(values, index, hole, board).value;
      var r := PlayerEntry(values, index, hole, board).value;
      Category(EvalHand(s.hand)) <= 4 && Category(EvalHand(r.hand)) >= 8 && s.value < r.value
  {
    var cards := hole + board;
    assert MaskOf(Pick(cards, sf)) in values;
    WindowsBelow(cards, sf);
    var i := WindowsScoreLow(values, index, cards, sf, HandValue);
    SubsetsFindBest(values, index, cards, HandValue);
    var r := CachedEntry(values, index, cards).value;
    CombinationsSpec(cards, 5);
    AtLeastStraightFlush(r.hand, Pick(cards, sf));
  }

  // ---------------------------------------------------------------------
  // The counterexample

  /** The five spades are the cards at positions 0, 1, 3, 4 and 5. */
  lemma {:induction false} SpadesAreChoice(sf: seq<nat>, n: nat)
    requires sf == [0, 1, 3, 4, 5] && n == 7
    ensures Choice(sf, n)
  {
  }

  /** Picking positions 0, 1, 3, 4 and 5 of the seven cards gives the five
      spades. */
  lemma {:induction false} SpadesAreSubset(cards: seq<PlayingCard>, sf: seq<nat>)
    requires cards == HOLE + BOARD && sf == [0, 1, 3, 4, 5]
    ensures Pick(cards, sf) == SPADES
  {
    var p := Pick(cards, sf);
    assert p[0] == SPADES[0] && p[1] == SPADES[1] && p[2] == SPADES[2];
    assert p[3] == SPADES[3] && p[4] == SPADES[4];
  }

  /** The seven cards are of seven different ranks, and so is each
      window. */
  lemma {:induction false} WindowRanks(cards: seq<PlayingCard>, i: nat)
    requires cards == HOLE + BOARD && i < 3
    ensures var w := Window(cards, i);
      |w| == 5 && (forall p, q :: 0 <= p < q < 5 ==> w[p].rank != w[q].rank) &&
      forall p :: 0 <= p < 5 ==> w[p] == cards[i + p]
  {
    assert forall p, q :: 0 <= p < q < 7 ==> cards[p].rank != cards[q].rank;
  }

  /** Each window shows at best a straight. */
  lemma {:induction false} WindowCategory(cards: seq<PlayingCard>, i: nat, k: nat)
    requires cards == HOLE + BOARD
    requires i < 3 && k < 5 && cards[i + k].suit != cards[i].suit
    ensures Category(EvalHand(Window(cards, i))) <= 4
  {
    WindowRanks(cards, i);
    AtBestStraight(Window(cards, i), k);
  }

  /** King and Queen of spades on this board hide a straight flush from
      the windows. */
  lemma {:induction false} ExampleHides(hole: seq<PlayingCard>, board: seq<PlayingCard>, sf: seq<nat>)
    requires hole == HOLE && board == BOARD && sf == [0, 1, 3, 4, 5]
    ensures HiddenStraightFlush(hole + board, sf)
  {
    var cards := hole + board;
    SpadesAreChoice(sf, |cards|);
    SpadesAreSubset(cards, sf);
    SpadesAreStraightFlush();
    ExampleWindows(cards);
  }

  /** No window of the seven cards is better than a straight. */
  lemma {:induction false} ExampleWindows(cards: seq<PlayingCard>)
    requires cards == HOLE + BOARD
    ensures forall i :: 0 <= i < 3 ==> Category(EvalHand(Window(cards, i))) <= 4
  {
    forall i | 0 <= i < 3
      ensures Category(EvalHand(Window(cards, i))) <= 4
    {
      var k := if i == 0 then 2 else 1;
      WindowCategory(cards, i, k);
    }
  }

  /** The seven cards differ in rank, and none is an Ace or a Two. */
  lemma {:induction false} ExampleCardsPlain(cards: seq<PlayingCard>)
    requires cards == HOLE + BOARD
    ensures |cards| == 7
    ensures forall p, q :: 0 <= p < q < 7 ==> cards[p].rank != cards[q].rank
    ensures forall p :: 0 <= p < 7 ==> cards[p].rank != ACE && cards[p].rank != TWO
  {
    assert cards == [PlayingCard(13, Spade), PlayingCard(12, Spade), PlayingCard(3, Club), PlayingCard(11, Spade),
                     PlayingCard(10, Spade), PlayingCard(9, Spade), PlayingCard(7, Diamond)];
  }

  /** Every five-card subset of those cards has no pair, no Ace and no
      Two, so no other hand of the deck shares its mask. */
  lemma {:induction false} ExampleSubsetPlain(cards: seq<PlayingCard>, c: seq<nat>)
    requires cards == HOLE + BOARD && Choice(c, |cards|)
    ensures Unpaired(Pick(cards, c)) && NoAceOrTwo(Pick(cards, c))
  {
    ExampleCardsPlain(cards);
    var h := Pick(cards, c);
    forall i, j | 0 <= i < j < |h|
      ensures h[i].rank != h[j].rank
    {
      assert c[i] < c[j];
    }
    RanksApartUnpaired(h);
    forall x | x in h
      ensures x.rank != ACE && x.rank != TWO
    {
      var i :| 0 <= i < |h| && h[i] == x;
    }
  }

  /** A dictionary right on hands with no pair, no Ace and no Two holds,
      under the mask of each five-card subset of those cards, that
      subset's own value. */
  lemma {:induction false} ExampleFaithful(values: map<nat, nat>, cards: seq<PlayingCard>)
    requires cards == HOLE + BOARD && RightOnPlainHands(values)
    ensures Faithful(values, cards)
  {
    forall c | Choice(c, |cards|)
      ensures MaskOf(Pick(cards, c)) in values && values[MaskOf(Pick(cards, c))] == HandValue(Pick(cards, c))
    {
      ExampleSubsetPlain(cards, c);
      var h := Pick(cards, c);
      assert EvalHand(h).Ok? && GetValue(values, h) == Ok(EvalHand(h).value.Value());
    }
  }

  /** Holding `hole` on `board`, the player's entry from the simulator's
      three windows is at best a straight, while PokerEvaluator.py's entry
      from all five-card subsets is a straight flush and has a higher value. */
  ghost predicate MissedWith(values: map<nat, nat>, index: nat, hole: seq<PlayingCard>, board: seq<PlayingCard>)
  {
    SimPlayerEntry(values, index, hole, board).Ok? && PlayerEntry(values, index, hole, board).Ok? &&
    var s := SimPlayerEntry(values, index, hole, board).value;
    var r := PlayerEntry(values, index, hole, board).value;
    Category(EvalHand(s.hand)) <= 4 && Category(EvalHand(r.hand)) >= 8 && s.value < r.value
  }

  /** Holding King and Queen of spades on this board, a player with a
      straight flush is scored by the windows as at best a straight, with
      any dictionary right on hands with no pair, no Ace and no Two. */
  lemma {:induction false} PlainMisses(values: map<nat, nat>, index: nat, hole: seq<PlayingCard>, board: seq<PlayingCard>, sf: seq<nat>)
    requires hole == HOLE && board == BOARD && sf == [0, 1, 3, 4, 5]
    requires RightOnPlainHands(values)
    ensures MissedWith(values, index, hole, board)
  {
    ExampleFaithful(values, hole + board);
    ExampleHides(hole, board, sf);
    WindowsMissStraightFlush(values, index, hole, board, sf);
  }

  /** The same with the dictionary `precompute` builds from a full deck,
      in any order. */
  lemma {:induction false} DeckMisses(deck: seq<PlayingCard>, index: nat)
    requires FullDeck(deck)
    ensures MissedWith(CacheOf(map[], DeckEntries(deck)), index, HOLE, BOARD)
  {
    PlainHandsStored(map[], deck);
    PlainMisses(CacheOf(map[], DeckEntries(deck)), index, HOLE, BOARD, [0, 1, 3, 4, 5]);
  }

  /** The same with the dictionary both programs precompute from the
      starting deck, in whatever order the `frozenset` lists its cards. */
  lemma {:induction false} ExampleMisses(deck: seq<PlayingCard>, index: nat)
    requires multiset(deck) == multiset(STARTING_DECK)
    ensures MissedWith(CacheOf(map[], DeckEntries(deck)), index, HOLE, BOARD)
  {
    FullDeckOrders(deck);
    DeckMisses(deck, index);
  }
}
