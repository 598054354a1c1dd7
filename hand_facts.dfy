/** What `_eval_hand` promises: it returns a value for every list of five
    or more cards and raises for every shorter one (so none of its
    `assert` statements can fail on a real hand), the five cards it returns
    are cards of the input, and the value it packs names the category. */
module HandFacts {
  import opened Outcomes
  import opened Cards
  import opened RankOrder
  import opened Poker
  import opened Groups
  import opened Evaluator

  /** Two cards of one rank at the front of a list make at least two
      cards of that rank. */
  lemma {:induction false} FrontPair(s: seq<PlayingCard>)
    requires |s| >= 2
    ensures s[0].rank == s[1].rank ==> |OfRank(s, s[0].rank)| >= 2
  {
    assert s == [s[0], s[1]] + s[2..];
    OfRankAppend([s[0], s[1]], s[2..], s[0].rank);
  }

  /** The trips branch: its two kickers always exist and differ in rank
      when there are five or more cards, which is what its assert checks. */
  lemma {:induction false} TripsSucceed(cards: seq<PlayingCard>, groups: seq<seq<PlayingCard>>)
    requires IsRankGrouping(cards, groups) && |groups| >= 2 && |groups[0]| == 3 && |groups[1]| < 2
    ensures EvalTrips(groups).Ok? <==> |cards| >= 5
  {
    FlattenSizes(groups);
    assert |multiset(FlattenGroups(groups))| == |multiset(cards)|;
    var rest := FlattenGroups(groups[1..]);
    var sorted := SortDesc(rest);
    if |cards| >= 5 {
      var r := sorted[0].rank;
      SinglesAfterFirst(cards, groups, r);
      OfRankPermutation(sorted, rest, r);
      FrontPair(sorted);
    }
  }

  /** The pair branches. */
  lemma {:induction false} PairsSucceed(cards: seq<PlayingCard>, groups: seq<seq<PlayingCard>>)
    requires IsRankGrouping(cards, groups) && groups != [] && |groups[0]| == 2
    ensures EvalPairs(groups).Ok? <==> |cards| >= 5
  {
    FlattenSizes(groups);
    assert |multiset(FlattenGroups(groups))| == |multiset(cards)|;
    if |groups| >= 2 && |groups[1]| != 2 {
      assert |SortDesc(FlattenGroups(groups[1..]))| == |cards| - 2;
    }
  }

  /** The full house test failed: the largest group is not three cards
      followed by a group of two or more. */
  predicate NoFullHouse(groups: seq<seq<PlayingCard>>)
  {
    groups != [] && |groups[0]| == 3 && |groups| >= 2 ==> |groups[1]| < 2
  }

  lemma {:induction false} KickersSucceed(cards: seq<PlayingCard>, groups: seq<seq<PlayingCard>>)
    requires IsRankGrouping(cards, groups) && NoFullHouse(groups)
    ensures EvalKickers(cards, groups).Ok? <==> |cards| >= 5
  {
    FlattenSizes(groups);
    assert |multiset(FlattenGroups(groups))| == |multiset(cards)|;
    if groups != [] {
      assert groups[0] in groups;
      if |groups[0]| == 3 {
        if |groups| >= 2 {
          TripsSucceed(cards, groups);
        } else {
          assert |cards| == 3;
        }
      } else if |groups[0]| == 2 {
        PairsSucceed(cards, groups);
      } else {
        assert |SortDesc(cards)| == |cards|;
      }
    }
  }

  lemma {:induction false} BelowFlushSucceeds(cards: seq<PlayingCard>, groups: seq<seq<PlayingCard>>)
    requires IsRankGrouping(cards, groups) && NoFullHouse(groups)
    ensures EvalBelowFlush(cards, groups).Ok? <==> |cards| >= 5
  {
    StraightNeedsFive(cards, true);
    KickersSucceed(cards, groups);
  }

  lemma {:induction false} GroupsSucceed(cards: seq<PlayingCard>, groups: seq<seq<PlayingCard>>)
    requires IsRankGrouping(cards, groups)
    ensures EvalGroups(cards, FlushCandidates(cards), groups).Ok? <==> |cards| >= 5
  {
    var flush := FlushCandidates(cards);
    FlattenSizes(groups);
    FlushCandidatesSpec(cards);
    assert |multiset(FlattenGroups(groups))| == |multiset(cards)|;
    assert |multiset(flush)| <= |multiset(cards)|;
    if groups != [] {
      assert groups[0] in groups;
      if |groups[0]| != 4 && !(|groups[0]| == 3 && |groups| < 2) && !(|groups[0]| == 3 && |groups[1]| >= 2) && flush == [] {
        BelowFlushSucceeds(cards, groups);
      }
    }
  }

  /** `_eval_hand` returns for every list of five or more cards, and raises
      (an `IndexError`, a `ValueError` from `max` or a failed assert) for
      every shorter one. */
  lemma {:induction false} EvalHandSucceeds(cards: seq<PlayingCard>)
    ensures EvalHand(cards).Ok? <==> |cards| >= 5
  {
    var flush := FlushCandidates(cards);
    FlushCandidatesSpec(cards);
    StraightNeedsFive(flush, false);
    assert |multiset(flush)| <= |multiset(cards)|;
    RankGroupsIsGrouping(cards);
    GroupsSucceed(cards, RankGroups(cards));
  }
}
