/** The precomputed cache of PokerEvaluator.py is right for every hand
    whose mask no other hand shares: a five-card hand with no Ace, no Two
    and no pair reads back its own `_eval_hand` value, although the
    deck's hands overwrite one another's entries where bits collide. */
module DeckCache {
  import opened Outcomes
  import opened Cards
  import opened RankOrder
  import opened Evaluator
  import opened Subsets
  import opened Resolver
  import opened Reordering

  /** No Ace and no Two: no card whose bit another card shares. */
  predicate NoAceOrTwo(h: seq<PlayingCard>)
  {
    forall c :: c in h ==> c.rank != ACE && c.rank != TWO
  }

  /** A list whose mask is that of a hand with no Ace and no Two holds
      only cards of that hand. */
  lemma {:induction false} MaskCardsOf(a: seq<PlayingCard>, h: seq<PlayingCard>)
    requires NoAceOrTwo(h) && MaskOf(a) == MaskOf(h)
    ensures forall c :: c in a ==> c in h
  {
    MaskBits(a);
    MaskBits(h);
    forall c | c in a
      ensures c in h
    {
      assert CardBit(c) in CardBits(a);
      var d :| d in h && CardBit(d) == CardBit(c);
      CardBitCollisions(c, d);
    }
  }

  /** A list without repeats whose cards all belong to a list of the same
      length holds the same cards. */
  lemma {:induction false} SameCards(a: seq<PlayingCard>, h: seq<PlayingCard>)
    requires Distinct(a) && |a| == |h|
    requires forall c :: c in a ==> c in h
    ensures multiset(a) == multiset(h)
  {
    forall c
      ensures multiset(a)[c] <= multiset(h)[c]
    {
      DistinctCount(a, c);
      if c in multiset(a) {
        assert c in h;
      }
    }
    SubMultisetEqual(multiset(a), multiset(h));
  }

  /** Cards at increasing positions of a list without repeats are
      different cards. */
  lemma {:induction false} PickDistinct(deck: seq<PlayingCard>, t: seq<nat>)
    requires Distinct(deck) && Increasing(t) && Within(t, 0, |deck|)
    ensures Distinct(Pick(deck, t))
  {
    var p := Pick(deck, t);
    forall i, k | 0 <= i < k < |p|
      ensures p[i] != p[k]
    {
      assert t[i] < t[k];
    }
  }

  /** Every five-card hand of a deck without repeats is five different
      cards. */
  lemma {:induction false} DeckHandDistinct(deck: seq<PlayingCard>, j: nat)
    requires Distinct(deck) && j < |Combinations(deck, 5)|
    ensures Distinct(Combinations(deck, 5)[j])
  {
    var ts := Tuples(0, |deck|, 5);
    TuplesWithin(0, |deck|, 5);
    var t := ts[j];
    TuplesSound(0, |deck|, 5, t);
    assert Combinations(deck, 5)[j] == Pick(deck, t);
    PickDistinct(deck, t);
  }

  /** The positions below `n` at which `deck` holds a card of `h`, in
      ascending order. */
  function Hits(deck: seq<PlayingCard>, h: seq<PlayingCard>, n: nat): (t: seq<nat>)
    requires n <= |deck|
    ensures Increasing(t) && Within(t, 0, n)
    ensures forall i: nat :: i in t <==> i < n && deck[i] in h
  {
    if n == 0 then []
    else
      var front := Hits(deck, h, n - 1);
      if deck[n - 1] in h then front + [n - 1] else front
  }

  /** Two lists without repeats holding the same cards hold them equally
      often. */
  lemma {:induction false} SameMembersCounts(a: seq<PlayingCard>, b: seq<PlayingCard>)
    requires Distinct(a) && Distinct(b)
    requires forall c :: c in a <==> c in b
    ensures multiset(a) == multiset(b)
  {
    DistinctCounts(a);
    DistinctCounts(b);
    forall c
      ensures multiset(a)[c] == multiset(b)[c]
    {
      assert c in a <==> c in multiset(a);
      assert c in b <==> c in multiset(b);
    }
  }

  /** A list with no two cards of a rank has no card twice. */
  lemma {:induction false} UnpairedDistinct(h: seq<PlayingCard>)
    requires Unpaired(h)
    ensures Distinct(h)
  {
    DistinctCounts(h);
    if !Distinct(h) {
      var c :| multiset(h)[c] > 1;
      OfRankCount(h, c.rank, c);
      SubMultisetSize(multiset{c, c}, multiset(OfRank(h, c.rank)));
      assert false;
    }
  }

  /** Five different cards are, in some order, one of the hands
      `combinations(deck, 5)` yields from a full deck, in whatever order
      the deck lists its cards: the hand at their positions, ascending. */
  lemma {:induction false} DeckHandOf(deck: seq<PlayingCard>, h: seq<PlayingCard>) returns (l: nat)
    requires FullDeck(deck) && |h| == 5 && Distinct(h)
    ensures l < |Combinations(deck, 5)|
    ensures forall c :: c in Combinations(deck, 5)[l] <==> c in h
  {
    var t := Hits(deck, h, |deck|);
    var p := Pick(deck, t);
    forall c
      ensures c in p <==> c in h
    {
      if c in p {
        var k :| 0 <= k < |p| && p[k] == c;
        assert t[k] in t;
      }
      if c in h {
        assert c in deck;
        var i :| 0 <= i < |deck| && deck[i] == c;
        assert i in t;
        var k :| 0 <= k < |t| && t[k] == i;
        assert p[k] == c;
      }
    }
    PickDistinct(deck, t);
    SameMembersCounts(p, h);
    assert |t| == |p| == |multiset(p)| == |multiset(h)| == 5;
    TuplesComplete(0, |deck|, 5, t);
    var ts := Tuples(0, |deck|, 5);
    TuplesWithin(0, |deck|, 5);
    l :| 0 <= l < |ts| && ts[l] == t;
    assert Combinations(deck, 5)[l] == p;
  }

  /** Lists of the same cards have the same mask. */
  lemma {:induction false} SameMembersMask(a: seq<PlayingCard>, b: seq<PlayingCard>)
    requires forall c :: c in a <==> c in b
    ensures MaskOf(a) == MaskOf(b)
  {
    assert CardBits(a) == CardBits(b);
    MaskOfSameBits(a, b);
  }

  /** A five-card hand with no Ace, no Two and no pair reads back its own
      `_eval_hand` value from the entries of a full deck: every hand of
      the deck with its mask is the same cards in another order, which
      `_eval_hand` scores alike. */
  lemma {:induction false} PlainHandStored(m: map<nat, nat>, deck: seq<PlayingCard>, h: seq<PlayingCard>)
    requires FullDeck(deck)
    requires |h| == 5 && Unpaired(h) && NoAceOrTwo(h)
    ensures EvalHand(h).Ok?
    ensures GetValue(CacheOf(m, DeckEntries(deck)), h) == Ok(EvalHand(h).value.Value())
  {
    var hands := Combinations(deck, 5);
    var kvs := DeckEntries(deck);
    var v := CacheEntry(h).1;
    UnpairedDistinct(h);
    var l := DeckHandOf(deck, h);
    CacheEntriesAt(hands, l);
    SameMembersMask(hands[l], h);
    forall j | 0 <= j < |kvs| && kvs[j].0 == MaskOf(h)
      ensures kvs[j].1 == v
    {
      CacheEntriesAt(hands, j);
      DeckHandDistinct(deck, j);
      MaskCardsOf(hands[j], h);
      SameCards(hands[j], h);
      EvalHandReordered(h, hands[j]);
    }
    CacheAgreed(m, kvs, |kvs|, MaskOf(h), v);
  }

  /** `get_value` of every five-card hand with no Ace, no Two and no pair
      is that hand's own `_eval_hand` value. */
  ghost predicate RightOnPlainHands(values: map<nat, nat>)
  {
    forall h :: |h| == 5 && Unpaired(h) && NoAceOrTwo(h) ==>
      EvalHand(h).Ok? && GetValue(values, h) == Ok(EvalHand(h).value.Value())
  }

  /** The entries of a full deck, in any order, make such a dictionary. */
  lemma {:induction false} PlainHandsStored(m: map<nat, nat>, deck: seq<PlayingCard>)
    requires FullDeck(deck)
    ensures RightOnPlainHands(CacheOf(m, DeckEntries(deck)))
  {
    forall h | |h| == 5 && Unpaired(h) && NoAceOrTwo(h)
      ensures EvalHand(h).Ok? && GetValue(CacheOf(m, DeckEntries(deck)), h) == Ok(EvalHand(h).value.Value())
    {
      PlainHandStored(m, deck, h);
    }
  }

  /** After `precompute` from the starting deck, in whatever order the
      `frozenset` lists its cards, every five-card hand with no Ace, no Two
      and no pair reads back its own `_eval_hand` value. */
  lemma {:induction false} PrecomputedRight(m: map<nat, nat>, deck: seq<PlayingCard>)
    requires multiset(deck) == multiset(STARTING_DECK)
    ensures RightOnPlainHands(CacheOf(m, DeckEntries(deck)))
  {
    FullDeckOrders(deck);
    PlainHandsStored(m, deck);
  }
}
