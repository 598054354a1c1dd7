/** The priority of the chain in `_eval_hand`: for a list of distinct
    cards, a hand that holds four of a kind, a full house, a flush, three
    of a kind, two pair or a pair is ranked at least that high. (The
    straight is the exception; see module StraightFinding.) */
module HandPriority {
  import opened Outcomes
  import opened Cards
  import opened RankOrder
  import opened Poker
  import opened Groups
  import opened Evaluator
  import opened HandFacts

  /** The ordinal of the category found, and -1 when `_eval_hand` raises.
      The floors below are written as these ordinals: high card 0, one
      pair 1, two pair 2, three of a kind 3, straight 4, flush 5, full
      house 6, four of a kind 7, straight flush 8, royal flush 9. */
  function Category(r: Result<Evaluation>): (n: int)
    ensures n >= 0 <==> r.Ok?
    ensures r.Ok? ==> n == r.value.category.Ordinal()
  {
    if r.Ok? then r.value.category.Ordinal() else -1
  }

  lemma {:induction false} OfRankDistinct(s: seq<PlayingCard>, k: int)
    requires Distinct(s)
    ensures Distinct(OfRank(s, k))
  {
    if s != [] {
      assert Distinct(s[1..]) by {
        forall i, j | 0 <= i < j < |s| - 1
          ensures s[1..][i] != s[1..][j]
        {
          assert s[1..][i] == s[i + 1] && s[1..][j] == s[j + 1];
        }
      }
      OfRankDistinct(s[1..], k);
      if s[0].rank == k {
        var t := OfRank(s[1..], k);
        OfRankMember(s[1..], k, s[0]);
        assert s[0] !in s[1..] by {
          forall j | 0 <= j < |s| - 1
            ensures s[1..][j] != s[0]
          {
            assert s[1..][j] == s[j + 1];
          }
        }
        forall i, j | 0 <= i < j < |t| + 1
          ensures ([s[0]] + t)[i] != ([s[0]] + t)[j]
        {
          if i == 0 {
            assert ([s[0]] + t)[j] == t[j - 1] && t[j - 1] in t;
          } else {
            assert ([s[0]] + t)[i] == t[i - 1] && ([s[0]] + t)[j] == t[j - 1];
          }
        }
      }
    }
  }

  lemma {:induction false} DistinctSize(s: seq<PlayingCard>)
    requires Distinct(s)
    ensures |set c | c in s| == |s|
  {
    if s != [] {
      assert Distinct(s[1..]) by {
        forall i, j | 0 <= i < j < |s| - 1
          ensures s[1..][i] != s[1..][j]
        {
          assert s[1..][i] == s[i + 1] && s[1..][j] == s[j + 1];
        }
      }
      DistinctSize(s[1..]);
      assert (set c | c in s) == {s[0]} + (set c | c in s[1..]) by {
        assert s == [s[0]] + s[1..];
      }
      assert s[0] !in (set c | c in s[1..]) by {
        forall j | 0 <= j < |s| - 1
          ensures s[1..][j] != s[0]
        {
          assert s[1..][j] == s[j + 1];
        }
      }
    }
  }

  lemma {:induction false} SubsetSize(a: set<PlayingCard>, b: set<PlayingCard>)
    requires a <= b
    ensures |a| <= |b|
    decreases |b|
  {
    if a != {} {
      var x :| x in a;
      SubsetSize(a - {x}, b - {x});
    }
  }

  /** A deck has four suits, so distinct cards hold at most four of a rank. */
  lemma {:induction false} AtMostFour(cards: seq<PlayingCard>, k: Rank)
    requires Distinct(cards)
    ensures |OfRank(cards, k)| <= 4
  {
    var o := OfRank(cards, k);
    OfRankDistinct(cards, k);
    DistinctSize(o);
    var four := {PlayingCard(k, Spade), PlayingCard(k, Heart), PlayingCard(k, Diamond), PlayingCard(k, Club)};
    forall c | c in o
      ensures c in four
    {
      var i :| 0 <= i < |o| && o[i] == c;
      assert c == PlayingCard(k, c.suit);
      match c.suit
      case Spade =>
      case Heart =>
      case Diamond =>
      case Club =>
    }
    SubsetSize((set c | c in o), four);
    assert |four| <= 4;
  }

  /** The first group is at least as large as the group of any rank. */
  lemma {:induction false} LargestGroup(cards: seq<PlayingCard>, groups: seq<seq<PlayingCard>>, r: int)
    requires IsRankGrouping(cards, groups) && OfRank(cards, r) != []
    ensures groups != [] && |groups[0]| >= |OfRank(cards, r)|
  {
    GroupingComplete(cards, groups, r);
    var m :| 0 <= m < |groups| && groups[m] == OfRank(cards, r);
    if m > 0 {
      assert KeyAbove(groups[0], groups[m]);
    }
  }

  /** With two ranks present, the second group is at least as large as the
      smaller of their groups. */
  lemma {:induction false} SecondGroup(cards: seq<PlayingCard>, groups: seq<seq<PlayingCard>>, p: int, q: int, n: nat)
    requires IsRankGrouping(cards, groups) && p != q
    requires |OfRank(cards, p)| >= n && |OfRank(cards, q)| >= n && n > 0
    ensures |groups| >= 2 && |groups[1]| >= n
  {
    GroupingComplete(cards, groups, p);
    GroupingComplete(cards, groups, q);
    var mp :| 0 <= mp < |groups| && groups[mp] == OfRank(cards, p);
    var mq :| 0 <= mq < |groups| && groups[mq] == OfRank(cards, q);
    assert groups[mp][0].rank == p && groups[mq][0].rank == q;
    var m := if mp < mq then mq else mp;
    assert m >= 1;
    if m > 1 {
      assert KeyAbove(groups[1], groups[m]);
    }
  }

  lemma {:induction false} GroupAtMostFour(cards: seq<PlayingCard>, groups: seq<seq<PlayingCard>>, i: nat)
    requires Distinct(cards) && IsRankGrouping(cards, groups) && i < |groups|
    ensures |groups[i]| <= 4
  {
    assert groups[i] in groups;
    AtMostFour(cards, groups[i][0].rank);
  }

  /** The floor each stage of the chain puts under the category, read off
      the sizes of the first two groups and the flush candidates. */
  lemma {:induction false} GroupsFloor(cards: seq<PlayingCard>, flush: seq<PlayingCard>, groups: seq<seq<PlayingCard>>)
    requires IsRankGrouping(cards, groups) && groups != [] && |groups[0]| <= 4
    requires EvalGroups(cards, flush, groups).Ok?
    ensures var c := Category(EvalGroups(cards, flush, groups));
      && (|groups[0]| == 4 ==> c == 7)
      && (|groups[0]| == 3 && |groups| >= 2 && |groups[1]| >= 2 ==> c == 6)
      && (flush != [] ==> c >= 5)
      && (|groups[0]| == 3 ==> c >= 3)
      && (|groups[0]| == 2 && |groups| >= 2 && |groups[1]| == 2 ==> c >= 2)
      && (|groups[0]| == 2 ==> c >= 1)
  {
    if |groups[0]| < 4 && !(|groups[0]| == 3 && |groups| >= 2 && |groups[1]| >= 2) && flush == [] {
      KickersFloor(cards, groups);
    }
  }

  lemma {:induction false} KickersFloor(cards: seq<PlayingCard>, groups: seq<seq<PlayingCard>>)
    requires AllNonEmpty(groups) && groups != []
    requires EvalBelowFlush(cards, groups).Ok?
    ensures var c := Category(EvalBelowFlush(cards, groups));
      && (|groups[0]| == 3 ==> c >= 3)
      && (|groups[0]| == 2 && |groups| >= 2 && |groups[1]| == 2 ==> c >= 2)
      && (|groups[0]| == 2 ==> c >= 1)
  {
    var h := EvalBelowFlush(cards, groups).value.category;
    Ordinals(h);
    if StraightOf(cards, true) == [] {
      var k := EvalKickers(cards, groups);
      assert h == k.value.category;
    }
  }

  /** The ordinal of each category, as `HandRank` numbers them. */
  lemma {:induction false} Ordinals(h: HandRank)
    ensures h == HighCard ==> h.Ordinal() == 0
    ensures h == OnePair ==> h.Ordinal() == 1
    ensures h == TwoPair ==> h.Ordinal() == 2
    ensures h == ThreeOfAKind ==> h.Ordinal() == 3
    ensures h == Straight ==> h.Ordinal() == 4
    ensures h == Flush ==> h.Ordinal() == 5
    ensures h == FullHouse ==> h.Ordinal() == 6
    ensures h == FourOfAKind ==> h.Ordinal() == 7
    ensures h == StraightFlush ==> h.Ordinal() == 8
    ensures h == RoyalFlush ==> h.Ordinal() == 9
  {
  }

  /** `_eval_hand` either finds a straight flush or goes on to the rank
      groups. */
  lemma {:induction false} HandStages(cards: seq<PlayingCard>)
    ensures StraightOf(FlushCandidates(cards), false) != [] ==> Category(EvalHand(cards)) >= 8
    ensures StraightOf(FlushCandidates(cards), false) == [] ==>
      Category(EvalHand(cards)) == Category(EvalGroups(cards, FlushCandidates(cards), RankGroups(cards)))
  {
    var flush := FlushCandidates(cards);
    var sf := StraightOf(flush, false);
    StraightOfShape(flush, false);
    if sf != [] {
      Ordinals(StraightFlushOf(sf).category);
    }
  }

  /** The set-up shared by the lemmas below: the rank groups of a list of
      five or more distinct cards, when no straight flush was found. */
  lemma {:induction false} GroupsStage(cards: seq<PlayingCard>, r: Rank)
    requires Distinct(cards) && |cards| >= 5 && OfRank(cards, r) != []
    requires StraightOf(FlushCandidates(cards), false) == []
    ensures var groups := RankGroups(cards);
      && IsRankGrouping(cards, groups) && groups != []
      && |OfRank(cards, r)| <= |groups[0]| <= 4
      && EvalGroups(cards, FlushCandidates(cards), groups).Ok?
      && Category(EvalHand(cards)) == Category(EvalGroups(cards, FlushCandidates(cards), groups))
  {
    var groups := RankGroups(cards);
    RankGroupsIsGrouping(cards);
    LargestGroup(cards, groups, r);
    GroupAtMostFour(cards, groups, 0);
    EvalHandSucceeds(cards);
    HandStages(cards);
  }

  /** Four cards of one rank make at least four of a kind. */
  lemma {:induction false} FourOfAKindFound(cards: seq<PlayingCard>, q: Rank)
    requires Distinct(cards) && |cards| >= 5 && |OfRank(cards, q)| == 4
    ensures Category(EvalHand(cards)) >= 7
  {
    HandStages(cards);
    if StraightOf(FlushCandidates(cards), false) == [] {
      GroupsStage(cards, q);
      GroupsFloor(cards, FlushCandidates(cards), RankGroups(cards));
    }
  }

  /** Three cards of one rank and two of another make at least a full
      house. */
  lemma {:induction false} FullHouseFound(cards: seq<PlayingCard>, p: Rank, q: Rank)
    requires Distinct(cards) && |cards| >= 5 && p != q
    requires |OfRank(cards, p)| >= 3 && |OfRank(cards, q)| >= 2
    ensures Category(EvalHand(cards)) >= 6
  {
    HandStages(cards);
    if StraightOf(FlushCandidates(cards), false) == [] {
      var groups := RankGroups(cards);
      GroupsStage(cards, p);
      SecondGroup(cards, groups, p, q, 2);
      GroupsFloor(cards, FlushCandidates(cards), groups);
    }
  }

  /** Five cards of one suit make at least a flush. */
  lemma {:induction false} FlushFound(cards: seq<PlayingCard>, t: Suit)
    requires Distinct(cards) && |OfSuit(cards, t)| >= 5
    ensures Category(EvalHand(cards)) >= 5
  {
    HandStages(cards);
    FlushCandidatesSpec(cards);
    if StraightOf(FlushCandidates(cards), false) == [] {
      var c := OfSuit(cards, t)[0];
      assert c in OfSuit(cards, t);
      OfRankMember(cards, c.rank, c);
      assert OfRank(cards, c.rank) != [];
      GroupsStage(cards, c.rank);
      GroupsFloor(cards, FlushCandidates(cards), RankGroups(cards));
    }
  }

  /** Three cards of one rank make at least three of a kind. */
  lemma {:induction false} ThreeOfAKindFound(cards: seq<PlayingCard>, p: Rank)
    requires Distinct(cards) && |cards| >= 5 && |OfRank(cards, p)| >= 3
    ensures Category(EvalHand(cards)) >= 3
  {
    HandStages(cards);
    if StraightOf(FlushCandidates(cards), false) == [] {
      GroupsStage(cards, p);
      GroupsFloor(cards, FlushCandidates(cards), RankGroups(cards));
    }
  }

  /** Two cards of each of two ranks make at least two pair. */
  lemma {:induction false} TwoPairFound(cards: seq<PlayingCard>, p: Rank, q: Rank)
    requires Distinct(cards) && |cards| >= 5 && p != q
    requires |OfRank(cards, p)| >= 2 && |OfRank(cards, q)| >= 2
    ensures Category(EvalHand(cards)) >= 2
  {
    HandStages(cards);
    if StraightOf(FlushCandidates(cards), false) == [] {
      var groups := RankGroups(cards);
      GroupsStage(cards, p);
      SecondGroup(cards, groups, p, q, 2);
      GroupAtMostFour(cards, groups, 1);
      GroupsFloor(cards, FlushCandidates(cards), groups);
      if |groups[0]| == 2 {
        assert KeyAbove(groups[0], groups[1]) by {
          assert groups[0] in groups && groups[1] in groups;
        }
      }
    }
  }

  /** Two cards of one rank make at least a pair. */
  lemma {:induction false} OnePairFound(cards: seq<PlayingCard>, p: Rank)
    requires Distinct(cards) && |cards| >= 5 && |OfRank(cards, p)| >= 2
    ensures Category(EvalHand(cards)) >= 1
  {
    HandStages(cards);
    if StraightOf(FlushCandidates(cards), false) == [] {
      GroupsStage(cards, p);
      GroupsFloor(cards, FlushCandidates(cards), RankGroups(cards));
    }
  }
}
