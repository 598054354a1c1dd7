/** DeckOfCards.py: ranks, suits, playing cards, the one-bit-per-card value,
    the starting deck, the masks built from card values, and the deck that
    the simulation draws from. */
module Cards {
  import opened Bits
  import opened Outcomes

  /** `Rank` ordinals run from TWO = 2 to ACE = 14. */
  type Rank = r: int | 2 <= r <= 14 witness 2

  const TWO: Rank := 2
  const FIVE: Rank := 5
  const TEN: Rank := 10
  const KING: Rank := 13
  const ACE: Rank := 14

  datatype Suit = Spade | Heart | Diamond | Club
  {
    function Ordinal(): nat
    {
      match this
      case Spade => 0
      case Heart => 1
      case Diamond => 2
      case Club => 3
    }
  }

  function SuitOf(n: nat): (s: Suit)
    requires n < 4
    ensures s.Ordinal() == n
  {
    if n == 0 then Spade else if n == 1 then Heart else if n == 2 then Diamond else Club
  }

  lemma {:induction false} SuitOrdinalInjective(s: Suit, t: Suit)
    ensures s.Ordinal() == t.Ordinal() <==> s == t
    ensures s.Ordinal() < 4 && SuitOf(s.Ordinal()) == s
  {
  }

  datatype PlayingCard = PlayingCard(rank: Rank, suit: Suit)

  /** The exponent of `PlayingCard.value`: twelve positions per suit. */
  function CardBit(c: PlayingCard): (k: nat)
    ensures k <= 48
  {
    c.suit.Ordinal() * 12 + c.rank - 2
  }

  /** `PlayingCard.value`, a single bit. */
  function CardValue(c: PlayingCard): nat
  {
    Pow2(CardBit(c))
  }

  /** A card owning bit `k`: every bit from 0 to 48 is some card's value. */
  function CardAtBit(k: nat): (c: PlayingCard)
    requires k <= 48
    ensures CardBit(c) == k
  {
    if k == 48 then PlayingCard(ACE, Club) else PlayingCard(k % 12 + 2, SuitOf(k / 12))
  }

  /** The Ace of a suit and the Two of the next suit share a bit. */
  predicate AceTwoCollision(a: PlayingCard, b: PlayingCard)
  {
    a.rank == ACE && b.rank == TWO && b.suit.Ordinal() == a.suit.Ordinal() + 1
  }

  /** Two cards have the same value exactly when they are equal or an
      Ace/next-suit Two pair: the card-to-bit map is not injective. */
  lemma {:induction false} CardValueCollisions(a: PlayingCard, b: PlayingCard)
    ensures CardValue(a) == CardValue(b)
        <==> a == b || AceTwoCollision(a, b) || AceTwoCollision(b, a)
  {
    if CardValue(a) == CardValue(b) {
      Pow2Injective(CardBit(a), CardBit(b));
    }
    CardBitCollisions(a, b);
  }

  lemma {:induction false} CardBitCollisions(a: PlayingCard, b: PlayingCard)
    ensures CardBit(a) == CardBit(b) <==> a == b || AceTwoCollision(a, b) || AceTwoCollision(b, a)
  {
    var sa := a.suit.Ordinal();
    var sb := b.suit.Ordinal();
    SuitOrdinalInjective(a.suit, b.suit);
    if sa == sb {
      assert CardBit(a) == CardBit(b) <==> a.rank == b.rank;
    } else if sa == sb + 1 {
      assert CardBit(a) - CardBit(b) == 12 + a.rank - b.rank;
    } else if sb == sa + 1 {
      assert CardBit(b) - CardBit(a) == 12 + b.rank - a.rank;
    } else if sa > sb {
      assert CardBit(a) - CardBit(b) >= 24 + a.rank - b.rank;
    } else {
      assert CardBit(b) - CardBit(a) >= 24 + b.rank - a.rank;
    }
  }

  /** The collision that the bit formula allows, on two concrete cards. */
  lemma {:induction false} AceOfSpadesIsTwoOfHearts()
    ensures PlayingCard(ACE, Spade) != PlayingCard(TWO, Heart)
    ensures CardValue(PlayingCard(ACE, Spade)) == CardValue(PlayingCard(TWO, Heart))
  {
  }

  /** The bit position the card mask evidently intends: thirteen per suit. */
  function CorrectedCardBit(c: PlayingCard): (k: nat)
    ensures k < 52
  {
    c.suit.Ordinal() * 13 + c.rank - 2
  }

  lemma {:induction false} CorrectedCardBitInjective(a: PlayingCard, b: PlayingCard)
    ensures CorrectedCardBit(a) == CorrectedCardBit(b) <==> a == b
  {
    if CorrectedCardBit(a) == CorrectedCardBit(b) {
      SuitOrdinalInjective(a.suit, b.suit);
    }
  }

  /** The card at position `i` of the generator `for rank in Rank for suit in Suit`. */
  function GeneratedCard(i: nat): PlayingCard
    requires i < 52
  {
    PlayingCard(i / 4 + 2, SuitOf(i % 4))
  }

  /** STARTING_DECK, listed in the order of its generator (rank-major). */
  const STARTING_DECK: seq<PlayingCard> := Generated()

  function Generated(): (d: seq<PlayingCard>)
    ensures |d| == 52 && forall i :: 0 <= i < 52 ==> d[i] == GeneratedCard(i)
  {
    seq(52, i requires 0 <= i < 52 => GeneratedCard(i))
  }

  lemma {:induction false} DivModFour(q: nat, o: nat)
    requires o < 4
    ensures (q * 4 + o) / 4 == q && (q * 4 + o) % 4 == o
  {
  }

  /** The generator lists card `c` at position `(rank - 2) * 4 + suit`. */
  lemma {:induction false} GeneratedCardIndex(c: PlayingCard)
    ensures (c.rank - 2) * 4 + c.suit.Ordinal() < 52
    ensures GeneratedCard((c.rank - 2) * 4 + c.suit.Ordinal()) == c
  {
    DivModFour(c.rank - 2, c.suit.Ordinal());
    SuitOrdinalInjective(SuitOf(c.suit.Ordinal()), c.suit);
  }

  lemma {:induction false} GeneratedCardInjective(i: nat, j: nat)
    requires i < 52 && j < 52
    ensures GeneratedCard(i) == GeneratedCard(j) ==> i == j
  {
    if GeneratedCard(i) == GeneratedCard(j) {
    var ci, cj := GeneratedCard(i), GeneratedCard(j);
    assert i / 4 == j / 4;
    assert i % 4 == j % 4 by {
        assert SuitOf(i % 4).Ordinal() == SuitOf(j % 4).Ordinal();
      }
    }
  }

  /** One card per (rank, suit) pair, 52 in all. */
  lemma {:induction false} StartingDeckComplete()
    ensures |STARTING_DECK| == 52
    ensures forall c: PlayingCard :: c in STARTING_DECK
    ensures forall i, j :: 0 <= i < j < 52 ==> STARTING_DECK[i] != STARTING_DECK[j]
  {
    forall c: PlayingCard
      ensures c in STARTING_DECK
    {
      GeneratedCardIndex(c);
      var i := (c.rank - 2) * 4 + c.suit.Ordinal();
      assert STARTING_DECK[i] == GeneratedCard(i);
    }
    forall i, j | 0 <= i < j < 52
      ensures STARTING_DECK[i] != STARTING_DECK[j]
    {
      GeneratedCardInjective(i, j);
    }
  }

  /** No card occurs twice, as in any list dealt from one deck. */
  predicate Distinct(cards: seq<PlayingCard>)
  {
    forall i, j :: 0 <= i < j < |cards| ==> cards[i] != cards[j]
  }

  /** The 52 cards, each once, in some order. */
  ghost predicate FullDeck(deck: seq<PlayingCard>)
  {
    Distinct(deck) && forall c: PlayingCard :: c in deck
  }

  /** A list without repeats holds each card at most once. */
  lemma {:induction false} DistinctCount(s: seq<PlayingCard>, c: PlayingCard)
    requires Distinct(s)
    ensures multiset(s)[c] <= 1
  {
    if s != [] {
      var t := s[1..];
      assert s == [s[0]] + t;
      assert Distinct(t) by {
        forall i, j | 0 <= i < j < |t|
          ensures t[i] != t[j]
        {
          assert t[i] == s[i + 1] && t[j] == s[j + 1];
        }
      }
      DistinctCount(t, c);
    }
  }

  /** Counted: a list has no card twice exactly when no card has more
      than one copy in it. */
  lemma {:induction false} DistinctCounts(s: seq<PlayingCard>)
    ensures Distinct(s) <==> forall c :: multiset(s)[c] <= 1
  {
    if Distinct(s) {
      forall c
        ensures multiset(s)[c] <= 1
      {
        DistinctCount(s, c);
      }
    } else {
      var i, j :| 0 <= i < j < |s| && s[i] == s[j];
      var front, back := s[..j], s[j..];
      assert s == front + back;
      assert front[i] == s[i] && back[0] == s[j];
      assert multiset(s)[s[i]] == multiset(front)[s[i]] + multiset(back)[s[i]];
    }
  }

  /** Fewer cards keep no card twice. */
  lemma {:induction false} DistinctSub(s: seq<PlayingCard>, t: seq<PlayingCard>)
    requires Distinct(s) && multiset(t) <= multiset(s)
    ensures Distinct(t)
  {
    DistinctCounts(s);
    DistinctCounts(t);
    forall c
      ensures multiset(t)[c] <= 1
    {
      assert multiset(t)[c] <= multiset(s)[c];
    }
  }

  /** A sub-multiset as large as the whole is the whole. */
  lemma {:induction false} SubMultisetEqual(a: multiset<PlayingCard>, b: multiset<PlayingCard>)
    requires a <= b && |a| == |b|
    ensures a == b
    decreases |a|
  {
    if a != multiset{} {
      var x :| x in a;
      SubMultisetEqual(a - multiset{x}, b - multiset{x});
      assert a == (a - multiset{x}) + multiset{x};
      assert b == (b - multiset{x}) + multiset{x};
    } else {
      assert |b| == 0;
    }
  }

  /** The starting deck is a full deck. */
  lemma {:induction false} StartingDeckFull()
    ensures FullDeck(STARTING_DECK)
  {
    StartingDeckComplete();
  }

  /** Full decks are exactly the orders of the starting deck. */
  lemma {:induction false} FullDeckOrders(deck: seq<PlayingCard>)
    ensures FullDeck(deck) <==> multiset(deck) == multiset(STARTING_DECK)
  {
    StartingDeckFull();
    DistinctCounts(STARTING_DECK);
    DistinctCounts(deck);
    if FullDeck(deck) {
      forall c
        ensures multiset(deck)[c] == multiset(STARTING_DECK)[c]
      {
        assert c in deck && c in STARTING_DECK;
      }
    }
    if multiset(deck) == multiset(STARTING_DECK) {
      forall c: PlayingCard
        ensures c in deck
      {
        assert c in STARTING_DECK;
        assert c in multiset(deck);
      }
    }
  }

  /** `{card.value: card for card in deck}`: a later card overwrites an
      earlier one with the same value. */
  function CardsByValueOf(deck: seq<PlayingCard>): map<nat, PlayingCard>
  {
    if deck == [] then map[]
    else CardsByValueOf(deck[..|deck| - 1])[CardValue(deck[|deck| - 1]) := deck[|deck| - 1]]
  }

  const CARDS_BY_VALUE: map<nat, PlayingCard> := CardsByValueOf(STARTING_DECK)

  lemma {:induction false} CardsByValueOfSpec(deck: seq<PlayingCard>)
    ensures CardsByValueOf(deck).Keys == set c | c in deck :: CardValue(c)
    ensures forall v :: v in CardsByValueOf(deck) ==>
      CardValue(CardsByValueOf(deck)[v]) == v && CardsByValueOf(deck)[v] in deck
  {
    if deck != [] {
      var front := deck[..|deck| - 1];
      CardsByValueOfSpec(front);
      assert deck == front + [deck[|deck| - 1]];
    }
  }

  ghost function PowersBelow(n: nat): set<nat>
  {
    set k | 0 <= k < n :: Pow2(k)
  }

  lemma {:induction false} PowersBelowSize(n: nat)
    ensures |PowersBelow(n)| == n
  {
    if n > 0 {
      PowersBelowSize(n - 1);
      assert PowersBelow(n) == PowersBelow(n - 1) + {Pow2(n - 1)};
      if Pow2(n - 1) in PowersBelow(n - 1) {
        var k :| 0 <= k < n - 1 && Pow2(k) == Pow2(n - 1);
        Pow2Injective(k, n - 1);
      }
    }
  }

  /** CARDS_BY_VALUE has the 49 single bits 2^0 .. 2^48 as keys. */
  lemma {:induction false} CardsByValueKeys()
    ensures CARDS_BY_VALUE.Keys == PowersBelow(49)
    ensures |CARDS_BY_VALUE| == 49
    ensures forall v :: v in CARDS_BY_VALUE ==> CardValue(CARDS_BY_VALUE[v]) == v
  {
    CardsByValueOfSpec(STARTING_DECK);
    StartingDeckComplete();
    forall v | v in PowersBelow(49)
      ensures v in CARDS_BY_VALUE
    {
      var k :| 0 <= k < 49 && v == Pow2(k);
      assert CardAtBit(k) in STARTING_DECK;
    }
    PowersBelowSize(49);
  }

  /** `DeckOfCards.get_card`. */
  function GetCard(value: int): (r: Result<PlayingCard>)
    ensures r.Ok? ==> CardValue(r.value) == value
    ensures r.Err? ==> r.error == CardNotFound(value)
  {
    CardsByValueKeys();
    if value >= 0 && value as nat in CARDS_BY_VALUE then Ok(CARDS_BY_VALUE[value as nat])
    else Err(CardNotFound(value))
  }

  lemma {:induction false} PowersBelowMember(value: int, n: nat)
    ensures value >= 0 && value as nat in PowersBelow(n) <==> exists k :: 0 <= k < n && value == Pow2(k)
  {
    if exists k :: 0 <= k < n && value == Pow2(k) {
      var k :| 0 <= k < n && value == Pow2(k);
      assert Pow2(k) in PowersBelow(n);
    }
    if value >= 0 && value as nat in PowersBelow(n) {
      var k :| 0 <= k < n && value == Pow2(k);
    }
  }

  /** `get_card(v)` succeeds exactly for v = 2^k with 0 <= k <= 48. */
  lemma {:induction false} GetCardSucceeds(value: int)
    ensures GetCard(value).Ok? <==> exists k :: 0 <= k <= 48 && value == Pow2(k)
  {
    CardsByValueKeys();
    PowersBelowMember(value, 49);
  }

  lemma {:induction false} GetCardOfPow2(k: nat)
    ensures GetCard(Pow2(k)).Ok? <==> k <= 48
  {
    GetCardSucceeds(Pow2(k));
    if GetCard(Pow2(k)).Ok? {
      var j :| 0 <= j <= 48 && Pow2(k) == Pow2(j);
      Pow2Injective(j, k);
    }
  }

  /** The bit positions of a list of cards. */
  ghost function CardBits(cards: seq<PlayingCard>): set<nat>
  {
    set c | c in cards :: CardBit(c)
  }

  /** The OR of the card values, folded from 0. */
  function MaskOf(cards: seq<PlayingCard>): nat
  {
    if cards == [] then 0 else Or(MaskOf(cards[..|cards| - 1]), CardValue(cards[|cards| - 1]))
  }

  /** `functools.reduce(operator.or_, values)` with no initial value. */
  function ReduceOr(cards: seq<PlayingCard>): nat
    requires cards != []
  {
    if |cards| == 1 then CardValue(cards[0])
    else Or(ReduceOr(cards[..|cards| - 1]), CardValue(cards[|cards| - 1]))
  }

  /** `DeckOfCards.hash_cards`: the reduce fails on an empty list. */
  function HashCards(cards: seq<PlayingCard>): Result<nat>
  {
    if cards == [] then Err(EmptyReduce) else Ok(ReduceOr(cards))
  }

  lemma {:induction false} ReduceOrIsMask(cards: seq<PlayingCard>)
    requires cards != []
    ensures ReduceOr(cards) == MaskOf(cards)
  {
    if |cards| > 1 {
      ReduceOrIsMask(cards[..|cards| - 1]);
    } else {
      assert cards[..0] == [];
    }
  }

  /** `hash_cards` is the mask for every non-empty list and fails on []. */
  lemma {:induction false} HashCardsIsMask(cards: seq<PlayingCard>)
    ensures cards == [] <==> HashCards(cards).Err?
    ensures cards != [] ==> HashCards(cards) == Ok(MaskOf(cards))
  {
    if cards != [] {
      ReduceOrIsMask(cards);
    }
  }

  /** The set bits of a mask are the bits of its cards. */
  lemma {:induction false} MaskBits(cards: seq<PlayingCard>)
    ensures BitSet(MaskOf(cards)) == CardBits(cards)
  {
    if cards == [] {
      BitSetEmpty(0);
    } else {
      var front := cards[..|cards| - 1];
      var last := cards[|cards| - 1];
      MaskBits(front);
      BitSetOr(MaskOf(front), CardValue(last));
      BitSetPow2(CardBit(last));
      assert cards == front + [last];
      assert CardBits(cards) == CardBits(front) + {CardBit(last)};
    }
  }

  /** Lists with the same card bits have the same mask (order and
      repetition do not matter). */
  lemma {:induction false} MaskOfSameBits(a: seq<PlayingCard>, b: seq<PlayingCard>)
    requires CardBits(a) == CardBits(b)
    ensures MaskOf(a) == MaskOf(b)
  {
    MaskBits(a);
    MaskBits(b);
    BitSetInjective(MaskOf(a), MaskOf(b));
  }

  lemma {:induction false} MaskOfPermutation(a: seq<PlayingCard>, b: seq<PlayingCard>)
    requires multiset(a) == multiset(b)
    ensures MaskOf(a) == MaskOf(b)
  {
    assert forall c :: c in a <==> c in multiset(a);
    assert forall c :: c in b <==> c in multiset(b);
    assert CardBits(a) == CardBits(b);
    MaskOfSameBits(a, b);
  }

  lemma {:induction false} CardBitsOfFive(h: seq<PlayingCard>)
    requires |h| == 5
    ensures CardBits(h) == {CardBit(h[0]), CardBit(h[1]), CardBit(h[2]), CardBit(h[3]), CardBit(h[4])}
  {
    forall k
      ensures k in CardBits(h) <==> k in {CardBit(h[0]), CardBit(h[1]), CardBit(h[2]), CardBit(h[3]), CardBit(h[4])}
    {
      if k in CardBits(h) {
        var c :| c in h && CardBit(c) == k;
        var i :| 0 <= i < 5 && h[i] == c;
      }
    }
  }

  /** Two different five-card hands that share a mask: a royal flush in
      spades and the King-high hand that swaps its Ace for the Two of hearts. */
  lemma {:induction false} CollidingHands()
    ensures MaskOf([PlayingCard(ACE, Spade), PlayingCard(KING, Spade), PlayingCard(12, Spade),
                    PlayingCard(11, Spade), PlayingCard(TEN, Spade)])
         == MaskOf([PlayingCard(TWO, Heart), PlayingCard(KING, Spade), PlayingCard(12, Spade),
                    PlayingCard(11, Spade), PlayingCard(TEN, Spade)])
  {
    var a := [PlayingCard(ACE, Spade), PlayingCard(KING, Spade), PlayingCard(12, Spade),
              PlayingCard(11, Spade), PlayingCard(TEN, Spade)];
    var b := [PlayingCard(TWO, Heart), PlayingCard(KING, Spade), PlayingCard(12, Spade),
              PlayingCard(11, Spade), PlayingCard(TEN, Spade)];
    CardBitsOfFive(a);
    CardBitsOfFive(b);
    assert CardBit(a[0]) == CardBit(b[0]) == 12;
    MaskOfSameBits(a, b);
  }

  /** The mask with the corrected bit positions. */
  function CorrectedMaskOf(cards: seq<PlayingCard>): nat
  {
    if cards == [] then 0
    else Or(CorrectedMaskOf(cards[..|cards| - 1]), Pow2(CorrectedCardBit(cards[|cards| - 1])))
  }

  lemma {:induction false} CorrectedMaskBits(cards: seq<PlayingCard>)
    ensures BitSet(CorrectedMaskOf(cards)) == set c | c in cards :: CorrectedCardBit(c)
  {
    if cards == [] {
      BitSetEmpty(0);
    } else {
      var front := cards[..|cards| - 1];
      var last := cards[|cards| - 1];
      CorrectedMaskBits(front);
      BitSetOr(CorrectedMaskOf(front), Pow2(CorrectedCardBit(last)));
      BitSetPow2(CorrectedCardBit(last));
      assert cards == front + [last];
    }
  }

  /** With thirteen bits per suit a mask determines its set of cards. */
  lemma {:induction false} CorrectedMaskDeterminesCards(a: seq<PlayingCard>, b: seq<PlayingCard>)
    requires CorrectedMaskOf(a) == CorrectedMaskOf(b)
    ensures forall c :: c in a <==> c in b
  {
    CorrectedMaskBits(a);
    CorrectedMaskBits(b);
    var sa := set c | c in a :: CorrectedCardBit(c);
    var sb := set c | c in b :: CorrectedCardBit(c);
    assert sa == sb;
    forall c
      ensures c in a <==> c in b
    {
      if c in a {
        assert CorrectedCardBit(c) in sa;
        var d :| d in b && CorrectedCardBit(d) == CorrectedCardBit(c);
        CorrectedCardBitInjective(c, d);
      }
      if c in b {
        assert CorrectedCardBit(c) in sb;
        var d :| d in a && CorrectedCardBit(d) == CorrectedCardBit(c);
        CorrectedCardBitInjective(c, d);
      }
    }
  }

  predicate AscendingBits(cards: seq<PlayingCard>)
  {
    forall i, j :: 0 <= i < j < |cards| ==> CardBit(cards[i]) < CardBit(cards[j])
  }

  /** What `unhash_cards` keeps while peeling: the bits still in `v` and the
      bits of the cards found so far split the bits of `value`, and every
      card found sits below every bit still to peel. */
  ghost predicate UnhashInvariant(value: nat, v: nat, cards: seq<PlayingCard>)
  {
    && BitSet(value) == BitSet(v) + CardBits(cards)
    && BitSet(v) !! CardBits(cards)
    && (forall c, k :: c in cards && k in BitSet(v) ==> CardBit(c) < k)
    && AscendingBits(cards)
  }

  lemma {:induction false} UnhashStep(value: nat, v: nat, cards: seq<PlayingCard>, c: PlayingCard)
    requires v > 0 && UnhashInvariant(value, v, cards)
    requires CardBit(c) == TrailingZeros(v)
    ensures LowBit(v) <= v
    ensures UnhashInvariant(value, v - LowBit(v), cards + [c])
  {
    LowBitRemoved(v);
    var t := TrailingZeros(v);
    var w := v - LowBit(v);
    CardBitsAppend(cards, c);
    assert BitSet(value) == BitSet(w) + CardBits(cards + [c]);
    UnhashOrder(v, w, cards, c);
  }

  lemma {:induction false} CardBitsAppend(cards: seq<PlayingCard>, c: PlayingCard)
    ensures CardBits(cards + [c]) == CardBits(cards) + {CardBit(c)}
  {
  }

  /** The card peeled off sits above the cards found so far and below the
      bits still to peel. */
  lemma {:induction false} UnhashOrder(v: nat, w: nat, cards: seq<PlayingCard>, c: PlayingCard)
    requires v > 0 && CardBit(c) == TrailingZeros(v)
    requires BitSet(w) == BitSet(v) - {CardBit(c)}
    requires forall k :: k in BitSet(v) ==> TrailingZeros(v) <= k
    requires TrailingZeros(v) in BitSet(v)
    requires forall d, k :: d in cards && k in BitSet(v) ==> CardBit(d) < k
    requires AscendingBits(cards)
    ensures forall d, k :: d in cards + [c] && k in BitSet(w) ==> CardBit(d) < k
    ensures AscendingBits(cards + [c])
  {
    var next := cards + [c];
    forall i, j | 0 <= i < j < |next|
      ensures CardBit(next[i]) < CardBit(next[j])
    {
      if j == |cards| {
        assert next[i] in cards;
      }
    }
    forall d, k | d in next && k in BitSet(w)
      ensures CardBit(d) < k
    {
      if d !in cards {
        assert d == c;
      }
    }
  }

  lemma {:induction false} UnhashTooHigh(value: nat, v: nat, cards: seq<PlayingCard>)
    requires v > 0 && UnhashInvariant(value, v, cards)
    requires TrailingZeros(v) > 48
    ensures value >= Pow2(49)
  {
    var t := TrailingZeros(v);
    assert t in BitSet(value) by {
      LowBitRemoved(v);
    }
    BitSetAbove(value, t, 49);
  }

  lemma {:induction false} UnhashFinished(value: nat, cards: seq<PlayingCard>)
    requires value > 0 && UnhashInvariant(value, 0, cards)
    ensures HashCards(cards) == Ok(value)
    ensures value < Pow2(49)
  {
    BitSetEmpty(0);
    assert BitSet(value) == CardBits(cards);
    assert cards != [] by {
      BitSetEmpty(value);
    }
    MaskBits(cards);
    BitSetInjective(MaskOf(cards), value);
    HashCardsIsMask(cards);
    BitSetBound(value, 49);
  }

  /** `DeckOfCards.unhash_cards`: peels the lowest set bit until none is
      left; a bit above 48 is no card and fails. */
  method UnhashCards(value: int) returns (r: Result<seq<PlayingCard>>)
    ensures value <= 0 ==> r == Ok([])
    ensures 0 < value < Pow2(49) ==>
      r.Ok? && HashCards(r.value) == Ok(value) && AscendingBits(r.value)
    ensures value >= Pow2(49) ==> r.Err?
  {
    var cards: seq<PlayingCard> := [];
    if value <= 0 {
      return Ok(cards);
    }
    var v: nat := value;
    BitSetEmpty(0);
    while v > 0
      invariant UnhashInvariant(value, v, cards)
      decreases v
    {
      var card := LowBit(v);
      var found := GetCard(card);
      GetCardOfPow2(TrailingZeros(v));
      if found.Err? {
        UnhashTooHigh(value, v, cards);
        return Err(found.error);
      }
      var c := found.value;
      Pow2Injective(CardBit(c), TrailingZeros(v));
      UnhashStep(value, v, cards, c);
      cards := cards + [c];
      v := v - card;
    }
    UnhashFinished(value, cards);
    return Ok(cards);
  }

  /** Exchanges positions `i` and `j`. */
  function Swap<T>(s: seq<T>, i: nat, j: nat): (r: seq<T>)
    requires i < |s| && j < |s|
    ensures |r| == |s| && r[i] == s[j] && r[j] == s[i]
    ensures forall k :: 0 <= k < |s| && k != i && k != j ==> r[k] == s[k]
  {
    s[i := s[j]][j := s[i]]
  }

  /** Fisher-Yates as `random.shuffle` runs it: for `i` from the top
      position down to 1 swap position `i` with a position `j <= i`, here
      `draws[i] % (i + 1)` in place of the random draw. */
  function FisherYates<T>(s: seq<T>, draws: seq<nat>, i: int): seq<T>
    requires -1 <= i < |s| <= |draws|
    decreases i
  {
    if i <= 0 then s else FisherYates(Swap(s, i, draws[i] % (i + 1)), draws, i - 1)
  }

  lemma {:induction false} SwapPermutes<T>(s: seq<T>, i: nat, j: nat)
    requires i < |s| && j < |s|
    ensures multiset(Swap(s, i, j)) == multiset(s)
  {
    var t := s[i := s[j]];
    assert multiset(t) == multiset(s) - multiset{s[i]} + multiset{s[j]};
    assert multiset(t[j := s[i]]) == multiset(t) - multiset{t[j]} + multiset{s[i]};
  }

  /** Shuffling only reorders the cards. */
  lemma {:induction false} FisherYatesPermutes<T>(s: seq<T>, draws: seq<nat>, i: int)
    requires -1 <= i < |s| <= |draws|
    ensures |FisherYates(s, draws, i)| == |s|
    ensures multiset(FisherYates(s, draws, i)) == multiset(s)
    decreases i
  {
    if i > 0 {
      var t := Swap(s, i, draws[i] % (i + 1));
      SwapPermutes(s, i, draws[i] % (i + 1));
      FisherYatesPermutes(t, draws, i - 1);
    }
  }

  /** `DeckOfCards`: a list of cards that `shuffle` permutes and `draw` pops. */
  class DeckOfCards {
    var cards: seq<PlayingCard>

    constructor()
      ensures cards == STARTING_DECK
    {
      cards := STARTING_DECK;
    }

    /** `random.shuffle` (Fisher-Yates, last position first); `draws[i]`
        stands for the random number drawn at position `i`. */
    method Shuffle(draws: seq<nat>) returns (self: DeckOfCards)
      requires |draws| >= |cards|
      modifies this
      ensures self == this
      ensures cards == FisherYates(old(cards), draws, |old(cards)| - 1)
      ensures multiset(cards) == multiset(old(cards))
    {
      var i := |cards| - 1;
      while i > 0
        invariant -1 <= i < |cards| == |old(cards)|
        invariant FisherYates(cards, draws, i) == FisherYates(old(cards), draws, |old(cards)| - 1)
      {
        var j := draws[i] % (i + 1);
        assert FisherYates(cards, draws, i) == FisherYates(Swap(cards, i, j), draws, i - 1);
        cards := cards[i := cards[j]][j := cards[i]];
        i := i - 1;
      }
      FisherYatesPermutes(old(cards), draws, |old(cards)| - 1);
      self := this;
    }

    /** `draw`: pops the last card; an empty deck raises. */
    method Draw() returns (r: Result<PlayingCard>)
      modifies this
      ensures old(cards) == [] ==> r == Err(EmptyDeck) && cards == old(cards)
      ensures old(cards) != [] ==>
        r == Ok(old(cards)[|old(cards)| - 1]) && cards == old(cards)[..|old(cards)| - 1]
    {
      if |cards| == 0 {
        return Err(EmptyDeck);
      }
      r := Ok(cards[|cards| - 1]);
      cards := cards[..|cards| - 1];
    }
  }
}
