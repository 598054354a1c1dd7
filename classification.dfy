/** `HandClassification` in PokerEvaluator.py: the two hole cards of a
    player reduced to their ranks (high first), whether they are suited and
    whether they pair, and the "s" / "o" / "" suffix of the usual notation
    ("AKs", "T9o", "QQ"). */
module Classification {
  import opened Outcomes
  import opened Cards
  import opened RankOrder

  datatype HandClassification = HandClassification(ranks: seq<Rank>, suited: bool, pair: bool)
  {
    /** `get_suited_or_pair`: nothing for a pair, "s" for suited cards,
        "o" for offsuit ones. */
    function SuitedOrPair(): string
    {
      if pair then "" else if suited then "s" else "o"
    }
  }

  /** The stable descending sort of two cards keeps them in place unless
      the second outranks the first. */
  lemma {:induction false} SortTwo(a: PlayingCard, b: PlayingCard)
    ensures SortDesc([a, b]) == if a.rank >= b.rank then [a, b] else [b, a]
  {
    assert [a, b][1..] == [b];
    assert [b][1..] == [];
    assert SortDesc([b]) == InsertDesc(b, []);
  }

  /** `HandClassification(cards)`: the assertion fails unless there are
      exactly two cards; the cards are sorted by rank, high first, with a
      stable sort. */
  function Classify(cards: seq<PlayingCard>): Result<HandClassification>
  {
    if |cards| != 2 then Err(AssertionFailed)
    else
      var s := SortDesc(cards);
      Ok(HandClassification([s[0].rank, s[1].rank], s[0].suit == s[1].suit, s[0].rank == s[1].rank))
  }

  /** Two cards are classified, anything else fails the assertion; the
      ranks are the two cards' ranks, high first; the hand is suited iff
      the suits agree and a pair iff the ranks agree. */
  lemma {:induction false} ClassifySpec(cards: seq<PlayingCard>)
    ensures Classify(cards).Ok? <==> |cards| == 2
    ensures Classify(cards).Err? ==> Classify(cards).error == AssertionFailed
    ensures |cards| == 2 ==>
      var h := Classify(cards).value;
      var hi := if cards[0].rank >= cards[1].rank then cards[0].rank else cards[1].rank;
      var lo := if cards[0].rank >= cards[1].rank then cards[1].rank else cards[0].rank;
      h.ranks == [hi, lo] &&
      (h.suited <==> cards[0].suit == cards[1].suit) &&
      (h.pair <==> cards[0].rank == cards[1].rank)
  {
    if |cards| == 2 {
      assert cards == [cards[0], cards[1]];
      SortTwo(cards[0], cards[1]);
    }
  }

  /** The classification does not depend on the order of the hole
      cards. */
  lemma {:induction false} ClassifyOrderFree(a: PlayingCard, b: PlayingCard)
    ensures Classify([a, b]) == Classify([b, a])
  {
    ClassifySpec([a, b]);
    ClassifySpec([b, a]);
  }

  /** For two different cards the suffix decodes the classification: no
      suffix means a pair, "s" suited, "o" offsuit; a pair is never
      suited. */
  lemma {:induction false} SuffixDecodes(a: PlayingCard, b: PlayingCard)
    requires a != b
    ensures Classify([a, b]).Ok?
    ensures var h := Classify([a, b]).value;
      (h.pair ==> !h.suited) &&
      (h.SuitedOrPair() == "" <==> a.rank == b.rank) &&
      (h.SuitedOrPair() == "s" <==> a.suit == b.suit) &&
      (h.SuitedOrPair() == "o" <==> a.rank != b.rank && a.suit != b.suit)
  {
    ClassifySpec([a, b]);
  }
}
