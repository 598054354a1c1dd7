/** What `_eval_hand` returns when it returns: five of the input cards
    that show the category it names, with the tie-break ranks read off
    those five cards, so that the packed value carries the category in its
    top hex digit. */
module HandShape {
  import opened Outcomes
  import opened Cards
  import opened RankOrder
  import opened Poker
  import opened Groups
  import opened Evaluator
  import opened HandFacts

  /** The five cards show the category, and the tie-breaks are the ranks
      `_eval_hand` reads off them. */
  predicate Realises(e: Evaluation)
  {
    |e.hand| == 5 &&
    match e.category
    case RoyalFlush => RoyalFlushShape(e.hand, e.tieBreaks)
    case StraightFlush => StraightFlushShape(e.hand, e.tieBreaks)
    case FourOfAKind => FourOfAKindShape(e.hand, e.tieBreaks)
    case FullHouse => FullHouseShape(e.hand, e.tieBreaks)
    case Flush => FlushHandShape(e.hand, e.tieBreaks)
    case Straight => StraightShape(e.hand, e.tieBreaks)
    case ThreeOfAKind => ThreeOfAKindShape(e.hand, e.tieBreaks)
    case TwoPair => TwoPairShape(e.hand, e.tieBreaks)
    case OnePair => OnePairShape(e.hand, e.tieBreaks)
    case HighCard => HighCardShape(e.hand, e.tieBreaks)
  }

  /** Ace to Ten of one suit. */
  predicate RoyalFlushShape(h: seq<PlayingCard>, t: seq<nat>)
  {
    |h| == 5 && OneSuit(h) && Descending(h) && h[0].rank == ACE && t == []
  }

  /** Five of one suit falling one rank at a time below the Ace, or the
      wheel. */
  predicate StraightFlushShape(h: seq<PlayingCard>, t: seq<nat>)
  {
    && |h| == 5 && OneSuit(h) && ((Descending(h) && h[0].rank < ACE) || IsWheel(h))
    && t == [h[0].rank as nat, h[1].rank as nat]
  }

  /** Four of one rank, then a card of another. */
  predicate FourOfAKindShape(h: seq<PlayingCard>, t: seq<nat>)
  {
    && |h| == 5 && OneRank(h[..4]) && h[4].rank != h[0].rank
    && t == [h[0].rank as nat, h[4].rank as nat]
  }

  /** Three of one rank, then two of another. */
  predicate FullHouseShape(h: seq<PlayingCard>, t: seq<nat>)
  {
    && |h| == 5 && OneRank(h[..3]) && OneRank(h[3..]) && h[3].rank != h[0].rank
    && t == [h[0].rank as nat, h[3].rank as nat]
  }

  /** Five of one suit, highest rank first. */
  predicate FlushHandShape(h: seq<PlayingCard>, t: seq<nat>)
  {
    |h| == 5 && OneSuit(h) && SortedDesc(h) && t == Ranks(h)
  }

  /** Five falling one rank at a time, or the wheel. */
  predicate StraightShape(h: seq<PlayingCard>, t: seq<nat>)
  {
    |h| == 5 && (Descending(h) || IsWheel(h)) && t == [h[0].rank as nat, h[1].rank as nat]
  }

  /** Three of one rank, then two of two other ranks, the higher first. */
  predicate ThreeOfAKindShape(h: seq<PlayingCard>, t: seq<nat>)
  {
    && |h| == 5 && OneRank(h[..3]) && h[3].rank > h[4].rank
    && h[3].rank != h[0].rank && h[4].rank != h[0].rank
    && t == [h[0].rank as nat, h[3].rank as nat, h[4].rank as nat]
  }

  /** Two of one rank, two of a lower rank, then a card of a third. */
  predicate TwoPairShape(h: seq<PlayingCard>, t: seq<nat>)
  {
    && |h| == 5 && OneRank(h[..2]) && OneRank(h[2..4]) && h[0].rank > h[2].rank
    && h[4].rank != h[0].rank && h[4].rank != h[2].rank
    && t == [h[0].rank as nat, h[2].rank as nat, h[4].rank as nat]
  }

  /** Two of one rank, then three of three other ranks, highest first. */
  predicate OnePairShape(h: seq<PlayingCard>, t: seq<nat>)
  {
    && |h| == 5 && OneRank(h[..2]) && StrictlyDesc(h[2..])
    && h[2].rank != h[0].rank && h[3].rank != h[0].rank && h[4].rank != h[0].rank
    && t == [h[0].rank as nat] + Ranks(h[2..])
  }

  /** Five cards, highest rank first. */
  predicate HighCardShape(h: seq<PlayingCard>, t: seq<nat>)
  {
    |h| == 5 && SortedDesc(h) && t == Ranks(h)
  }

  /** A returned evaluation realises its category with cards of the input. */
  predicate Sound(cards: seq<PlayingCard>, r: Result<Evaluation>)
  {
    r.Ok? ==> Realises(r.value) && multiset(r.value.hand) <= multiset(cards)
  }

  /** What `_get_flush_candidates` hands on: cards of the input, of one
      suit, highest rank first. */
  predicate FlushShape(cards: seq<PlayingCard>, flush: seq<PlayingCard>)
  {
    SortedDesc(flush) && OneSuit(flush) && multiset(flush) <= multiset(cards)
  }

  lemma {:induction false} FlushCandidatesShape(cards: seq<PlayingCard>)
    ensures FlushShape(cards, FlushCandidates(cards))
  {
    var r := FlushSuitFrom(cards, 0);
    if r.Some? {
      var o := OfSuit(cards, r.value);
      var f := SortDesc(o);
      SortDescSorted(o);
      assert FlushCandidates(cards) == f;
      forall i | 0 <= i < |f|
        ensures f[i].suit == r.value
      {
        assert f[i] in multiset(o);
      }
    }
  }

  lemma {:induction false} SubsetMembers(a: seq<PlayingCard>, b: seq<PlayingCard>)
    requires multiset(a) <= multiset(b)
    ensures forall c :: c in a ==> c in b
  {
    forall c | c in a
      ensures c in b
    {
      assert c in multiset(a);
    }
  }

  /** `_eval_hand`, whenever it returns, returns five of its input cards
      showing the category it names. */
  lemma {:induction false} EvalHandSound(cards: seq<PlayingCard>)
    ensures Sound(cards, EvalHand(cards))
  {
    if StraightOf(FlushCandidates(cards), false) != [] {
      StraightFlushBranchSound(cards);
    } else {
      GroupsBranchSound(cards);
    }
  }

  lemma {:induction false} StraightFlushBranchSound(cards: seq<PlayingCard>)
    requires StraightOf(FlushCandidates(cards), false) != []
    ensures Sound(cards, EvalHand(cards))
  {
    var flush := FlushCandidates(cards);
    FlushCandidatesShape(cards);
    StraightOfShape(flush, false);
    StraightFlushSound(cards, flush, StraightOf(flush, false));
  }

  lemma {:induction false} GroupsBranchSound(cards: seq<PlayingCard>)
    requires StraightOf(FlushCandidates(cards), false) == []
    ensures Sound(cards, EvalHand(cards))
  {
    FlushCandidatesShape(cards);
    RankGroupsIsGrouping(cards);
    GroupsSound(cards, FlushCandidates(cards), RankGroups(cards));
  }

  lemma {:induction false} StraightFlushSound(cards: seq<PlayingCard>, flush: seq<PlayingCard>, sf: seq<PlayingCard>)
    requires FlushShape(cards, flush) && multiset(sf) <= multiset(flush)
    requires |sf| == 5 && (Descending(sf) || IsWheel(sf))
    ensures Realises(StraightFlushOf(sf)) && multiset(sf) <= multiset(cards)
  {
    SubsetMembers(sf, flush);
    assert sf[0] in flush;
    forall i | 0 <= i < 5
      ensures sf[i].suit == sf[0].suit
    {
      assert sf[i] in flush;
    }
    if Descending(sf) {
      assert sf[1].rank + 1 == sf[0].rank;
    }
  }

  /** The stages from four of a kind down. */
  lemma {:induction false} GroupsSound(cards: seq<PlayingCard>, flush: seq<PlayingCard>, groups: seq<seq<PlayingCard>>)
    requires IsRankGrouping(cards, groups) && FlushShape(cards, flush)
    ensures Sound(cards, EvalGroups(cards, flush, groups))
  {
    if groups != [] {
      var g0 := groups[0];
      GroupOneRank(cards, groups, 0);
      if |g0| == 4 {
        QuadsSound(cards, groups);
      } else if |g0| == 3 && |groups| >= 2 && |groups[1]| >= 2 {
        FullHouseSound(cards, groups);
      } else if |g0| == 3 && |groups| < 2 {
      } else if flush != [] {
        FlushSound(cards, flush);
      } else {
        BelowFlushSound(cards, groups);
      }
    }
  }

  lemma {:induction false} QuadsSound(cards: seq<PlayingCard>, groups: seq<seq<PlayingCard>>)
    requires IsRankGrouping(cards, groups) && groups != [] && |groups[0]| == 4
    ensures Sound(cards, EvalQuads(groups))
  {
    var g0 := groups[0];
    var others := FlattenGroups(groups[1..]);
    GroupOneRank(cards, groups, 0);
    assert FlattenGroups(groups) == g0 + others;
    if others != [] {
      var kicker := MaxByRank(others);
      var h := g0 + [kicker];
      RestRanks(cards, groups, 0, 1, kicker);
      assert h[..4] == g0;
      assert multiset{kicker} <= multiset(others);
    }
  }

  lemma {:induction false} FullHouseSound(cards: seq<PlayingCard>, groups: seq<seq<PlayingCard>>)
    requires IsRankGrouping(cards, groups) && |groups| >= 2 && |groups[0]| == 3 && |groups[1]| >= 2
    ensures Realises(FullHouseOf(groups)) && multiset(FullHouseOf(groups).hand) <= multiset(cards)
  {
    var g0 := groups[0];
    var g1 := groups[1];
    GroupOneRank(cards, groups, 0);
    GroupOneRank(cards, groups, 1);
    GroupingRanksDiffer(cards, groups, 0, 1);
    var h := g0 + g1[..2];
    assert h[..3] == g0 && h[3..] == g1[..2];
    assert groups[1..][1..] == groups[2..];
    assert FlattenGroups(groups) == g0 + (g1 + FlattenGroups(groups[2..]));
    PrefixIn(g1, 2);
  }

  lemma {:induction false} FlushSound(cards: seq<PlayingCard>, flush: seq<PlayingCard>)
    requires FlushShape(cards, flush)
    ensures Sound(cards, EvalFlush(flush))
  {
    if |flush| >= 5 {
      PrefixIn(flush, 5);
    }
  }

  lemma {:induction false} BelowFlushSound(cards: seq<PlayingCard>, groups: seq<seq<PlayingCard>>)
    requires IsRankGrouping(cards, groups)
    ensures Sound(cards, EvalBelowFlush(cards, groups))
  {
    StraightOfShape(cards, true);
    KickersSound(cards, groups);
  }

  lemma {:induction false} KickersSound(cards: seq<PlayingCard>, groups: seq<seq<PlayingCard>>)
    requires IsRankGrouping(cards, groups)
    ensures Sound(cards, EvalKickers(cards, groups))
  {
    if groups != [] {
      if |groups[0]| == 3 {
        TripsSound(cards, groups);
      } else if |groups[0]| == 2 {
        PairsSound(cards, groups);
      } else {
        HighCardSound(cards);
      }
    }
  }

  lemma {:induction false} HighCardSound(cards: seq<PlayingCard>)
    ensures Sound(cards, EvalHighCard(cards))
  {
    if |cards| >= 5 {
      SortDescSorted(cards);
      PrefixIn(SortDesc(cards), 5);
    }
  }

  lemma {:induction false} TripsSound(cards: seq<PlayingCard>, groups: seq<seq<PlayingCard>>)
    requires IsRankGrouping(cards, groups) && groups != [] && |groups[0]| == 3
    ensures Sound(cards, EvalTrips(groups))
  {
    var g0 := groups[0];
    var rest := FlattenGroups(groups[1..]);
    var sorted := SortDesc(rest);
    SortDescSorted(rest);
    var kickers := Take(sorted, 2);
    GroupOneRank(cards, groups, 0);
    assert FlattenGroups(groups) == g0 + rest;
    if |kickers| == 2 && kickers[0].rank != kickers[1].rank {
      var h := g0 + kickers;
      assert h[..3] == g0 && h[3] == sorted[0] && h[4] == sorted[1];
      assert sorted[0] in multiset(rest) && sorted[1] in multiset(rest);
      RestRanks(cards, groups, 0, 1, sorted[0]);
      RestRanks(cards, groups, 0, 1, sorted[1]);
      PrefixIn(sorted, 2);
    }
  }

  lemma {:induction false} PairsSound(cards: seq<PlayingCard>, groups: seq<seq<PlayingCard>>)
    requires IsRankGrouping(cards, groups) && groups != [] && |groups[0]| == 2
    ensures Sound(cards, EvalPairs(groups))
  {
    if |groups| >= 2 {
      assert groups[0] in groups && groups[1] in groups && KeyAbove(groups[0], groups[1]);
      if |groups[1]| == 2 {
        TwoPairSound(cards, groups);
      } else {
        OnePairSound(cards, groups);
      }
    }
  }

  lemma {:induction false} TwoPairSound(cards: seq<PlayingCard>, groups: seq<seq<PlayingCard>>)
    requires IsRankGrouping(cards, groups) && |groups| >= 2 && |groups[0]| == 2 && |groups[1]| == 2
    ensures Sound(cards, EvalTwoPair(groups))
  {
    var g0 := groups[0];
    var g1 := groups[1];
    var others := FlattenGroups(groups[2..]);
    if others != [] {
      var kicker := MaxByRank(others);
      GroupOneRank(cards, groups, 0);
      GroupOneRank(cards, groups, 1);
      assert groups[0] in groups && groups[1] in groups && KeyAbove(g0, g1);
      RestRanks(cards, groups, 0, 2, kicker);
      RestRanks(cards, groups, 1, 2, kicker);
      TwoPairHand(g0, g1, kicker);
      assert groups[1..][1..] == groups[2..];
      assert FlattenGroups(groups) == g0 + (g1 + others);
      assert multiset{kicker} <= multiset(others);
    }
  }

  lemma {:induction false} TwoPairHand(g0: seq<PlayingCard>, g1: seq<PlayingCard>, kicker: PlayingCard)
    requires |g0| == 2 && |g1| == 2 && OneRank(g0) && OneRank(g1) && g0[0].rank > g1[0].rank
    requires kicker.rank != g0[0].rank && kicker.rank != g1[0].rank
    ensures TwoPairShape(g0 + g1 + [kicker], [g0[0].rank as nat, g1[0].rank as nat, kicker.rank as nat])
  {
    var h := g0 + g1 + [kicker];
    assert h[..2] == g0 && h[2..4] == g1 && h[4] == kicker;
  }

  lemma {:induction false} OnePairSound(cards: seq<PlayingCard>, groups: seq<seq<PlayingCard>>)
    requires IsRankGrouping(cards, groups) && |groups| >= 2 && |groups[0]| == 2 && |groups[1]| < 2
    ensures Sound(cards, EvalOnePair(groups))
  {
    var g0 := groups[0];
    var rest := FlattenGroups(groups[1..]);
    var sorted := SortDesc(rest);
    var kickers := Take(sorted, 3);
    if |kickers| == 3 {
      GroupOneRank(cards, groups, 0);
      SortedSingles(cards, groups);
      assert StrictlyDesc(kickers) by {
        assert forall i :: 0 <= i < 3 ==> kickers[i] == sorted[i];
      }
      PrefixIn(sorted, 3);
      forall i | 0 <= i < 3
        ensures kickers[i].rank != g0[0].rank
      {
        assert kickers[i] in multiset(rest);
        RestRanks(cards, groups, 0, 1, kickers[i]);
      }
      OnePairHand(g0, kickers);
      assert FlattenGroups(groups) == g0 + rest;
      assert EvalOnePair(groups) == Ok(Evaluation(OnePair, [g0[0].rank as nat] + Ranks(kickers), g0 + kickers));
    }
  }

  /** After a largest group of two and a second group of one, the other
      cards sorted fall strictly. */
  lemma {:induction false} SortedSingles(cards: seq<PlayingCard>, groups: seq<seq<PlayingCard>>)
    requires IsRankGrouping(cards, groups) && |groups| >= 2 && |groups[1]| < 2
    ensures StrictlyDesc(SortDesc(FlattenGroups(groups[1..])))
  {
    var rest := FlattenGroups(groups[1..]);
    var sorted := SortDesc(rest);
    forall r: int
      ensures |OfRank(sorted, r)| <= 1
    {
      SinglesAfterFirst(cards, groups, r);
      OfRankPermutation(sorted, rest, r);
    }
    SortDescSorted(rest);
    StrictFromSingles(sorted);
  }

  lemma {:induction false} OnePairHand(g0: seq<PlayingCard>, kickers: seq<PlayingCard>)
    requires |g0| == 2 && OneRank(g0) && |kickers| == 3
    requires forall i :: 0 <= i < 3 ==> kickers[i].rank != g0[0].rank
    requires StrictlyDesc(kickers)
    ensures OnePairShape(g0 + kickers, [g0[0].rank as nat] + Ranks(kickers))
    ensures Realises(Evaluation(OnePair, [g0[0].rank as nat] + Ranks(kickers), g0 + kickers))
  {
    var h := g0 + kickers;
    assert h[..2] == g0 && h[2..] == kickers;
  }

  /** The tie-breaks of a realised evaluation are hex digits, at most five
      of them. */
  lemma {:induction false} RealisedDigits(e: Evaluation)
    requires Realises(e)
    ensures HexDigits(e.tieBreaks) && |e.tieBreaks| <= 5
  {
  }

  /** `get_hand_rank` of the value `_eval_hand` packs is the category it
      found. */
  lemma {:induction false} EvalHandCategory(cards: seq<PlayingCard>, hands: seq<seq<PlayingCard>>, holes: seq<seq<PlayingCard>>)
    requires EvalHand(cards).Ok?
    ensures GameResult(EvalHand(cards).value.Value(), hands, holes).GetHandRank() == Ok(EvalHand(cards).value.category)
  {
    var e := EvalHand(cards).value;
    EvalHandSound(cards);
    RealisedDigits(e);
    GetHandRankOfValue(e.category, e.tieBreaks, hands, holes);
  }

  /** For a five-card hand, `_eval_hand` returns the same five cards in
      another order, so the cache key built from what it returns is the
      key of the hand it was given. */
  lemma {:induction false} FiveCardsPermuted(cards: seq<PlayingCard>)
    requires |cards| == 5
    ensures EvalHand(cards).Ok?
    ensures multiset(EvalHand(cards).value.hand) == multiset(cards)
    ensures MaskOf(EvalHand(cards).value.hand) == MaskOf(cards)
  {
    EvalHandSucceeds(cards);
    EvalHandSound(cards);
    var h := EvalHand(cards).value.hand;
    SubMultisetEqual(multiset(h), multiset(cards));
    MaskOfPermutation(h, cards);
  }

  lemma {:induction false} PrefixIn(s: seq<PlayingCard>, n: nat)
    requires n <= |s|
    ensures multiset(s[..n]) <= multiset(s)
  {
    assert s == s[..n] + s[n..];
  }
}
