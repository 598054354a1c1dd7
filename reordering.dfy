/** `_eval_hand` on cards with no two of a rank depends only on which
    cards there are, not on their order: each of its helpers either sorts
    the cards by rank, which leaves one order when no ranks tie, or counts
    them per suit or per rank. */
module Reordering {
  import opened Outcomes
  import opened Cards
  import opened RankOrder
  import opened Groups
  import opened Evaluator

  /** At most one card of each rank. */
  ghost predicate Unpaired(s: seq<PlayingCard>)
  {
    forall r: int :: |OfRank(s, r)| <= 1
  }

  /** The cards of rank `r` are those of the list that have that rank,
      each as often as in the list. */
  lemma {:induction false} OfRankCount(s: seq<PlayingCard>, r: int, c: PlayingCard)
    ensures multiset(OfRank(s, r))[c] == if c.rank == r then multiset(s)[c] else 0
  {
    if s != [] {
      var x := s[0];
      var t := s[1..];
      assert s == [x] + t;
      OfRankCons(x, t, r);
      OfRankCount(t, r, c);
    }
  }

  /** The cards of suit `t` are those of the list that have that suit,
      each as often as in the list. */
  lemma {:induction false} OfSuitCount(s: seq<PlayingCard>, t: Suit, c: PlayingCard)
    ensures multiset(OfSuit(s, t))[c] == if c.suit == t then multiset(s)[c] else 0
  {
    if s != [] {
      var x := s[0];
      var rest := s[1..];
      assert s == [x] + rest;
      OfSuitCount(rest, t, c);
    }
  }

  /** Fewer cards have no more cards of any rank. */
  lemma {:induction false} UnpairedSub(a: seq<PlayingCard>, b: seq<PlayingCard>)
    requires multiset(a) <= multiset(b) && Unpaired(b)
    ensures Unpaired(a)
  {
    forall r: int
      ensures |OfRank(a, r)| <= 1
    {
      forall c
        ensures multiset(OfRank(a, r))[c] <= multiset(OfRank(b, r))[c]
      {
        OfRankCount(a, r, c);
        OfRankCount(b, r, c);
      }
      SubMultisetSize(multiset(OfRank(a, r)), multiset(OfRank(b, r)));
    }
  }

  /** Cards whose ranks all differ have no pair. */
  lemma {:induction false} RanksApartUnpaired(s: seq<PlayingCard>)
    requires forall i, j :: 0 <= i < j < |s| ==> s[i].rank != s[j].rank
    ensures Unpaired(s)
  {
    if s != [] {
      var t := s[1..];
      assert s == [s[0]] + t;
      forall i, j | 0 <= i < j < |t|
        ensures t[i].rank != t[j].rank
      {
        assert t[i] == s[i + 1] && t[j] == s[j + 1];
      }
      RanksApartUnpaired(t);
      forall r: int
        ensures |OfRank(s, r)| <= 1
      {
        OfRankCons(s[0], t, r);
        if s[0].rank == r {
          forall i | 0 <= i < |t|
            ensures t[i].rank != r
          {
            assert t[i] == s[i + 1];
          }
          OfRankAbsent(t, r);
        }
      }
    }
  }

  /** Two lists that fall strictly in rank and hold the same cards are
      the same list. */
  lemma {:induction false} StrictUnique(x: seq<PlayingCard>, y: seq<PlayingCard>)
    requires StrictlyDesc(x) && StrictlyDesc(y) && multiset(x) == multiset(y)
    ensures x == y
    decreases |x|
  {
    if x != [] {
      StrictHeads(x, y);
      var x', y' := x[1..], y[1..];
      assert x == [x[0]] + x' && y == [y[0]] + y';
      assert multiset(x') == multiset(y') by {
        assert multiset(x') == multiset(x) - multiset{x[0]};
        assert multiset(y') == multiset(y) - multiset{y[0]};
      }
      StrictTail(x);
      StrictTail(y);
      StrictUnique(x', y');
    }
  }

  /** Such lists start with the same card: the highest. */
  lemma {:induction false} StrictHeads(x: seq<PlayingCard>, y: seq<PlayingCard>)
    requires StrictlyDesc(x) && StrictlyDesc(y) && multiset(x) == multiset(y) && x != []
    ensures y != [] && x[0] == y[0]
  {
    assert |x| == |multiset(x)| == |multiset(y)| == |y|;
    assert x[0] in multiset(y) && y[0] in multiset(x);
    var k :| 0 <= k < |y| && y[k] == x[0];
    var m :| 0 <= m < |x| && x[m] == y[0];
  }

  lemma {:induction false} StrictTail(x: seq<PlayingCard>)
    requires StrictlyDesc(x) && x != []
    ensures StrictlyDesc(x[1..])
  {
    forall i, j | 0 <= i < j < |x| - 1
      ensures x[1..][i].rank > x[1..][j].rank
    {
      assert x[1..][i] == x[i + 1] && x[1..][j] == x[j + 1];
    }
  }

  /** Sorting a list with no pair falls strictly in rank. */
  lemma {:induction false} SortDescStrict(s: seq<PlayingCard>)
    requires Unpaired(s)
    ensures StrictlyDesc(SortDesc(s))
  {
    SortDescSorted(s);
    forall r: int
      ensures |OfRank(SortDesc(s), r)| <= 1
    {
      SortDescStable(s, r);
    }
    StrictFromSingles(SortDesc(s));
  }

  /** With no pair, the same cards in any order sort to the same list. */
  lemma {:induction false} SortDescReordered(a: seq<PlayingCard>, b: seq<PlayingCard>)
    requires multiset(a) == multiset(b) && Unpaired(a)
    ensures SortDesc(a) == SortDesc(b)
  {
    UnpairedSub(b, a);
    SortDescStrict(a);
    SortDescStrict(b);
    StrictUnique(SortDesc(a), SortDesc(b));
  }

  /** The same cards have the same cards of each suit. */
  lemma {:induction false} OfSuitReordered(a: seq<PlayingCard>, b: seq<PlayingCard>, t: Suit)
    requires multiset(a) == multiset(b)
    ensures multiset(OfSuit(a, t)) == multiset(OfSuit(b, t))
  {
    forall c
      ensures multiset(OfSuit(a, t))[c] == multiset(OfSuit(b, t))[c]
    {
      OfSuitCount(a, t, c);
      OfSuitCount(b, t, c);
    }
  }

  /** The first suit with five cards depends only on which cards there are. */
  lemma {:induction false} FlushSuitReordered(a: seq<PlayingCard>, b: seq<PlayingCard>, o: nat)
    requires multiset(a) == multiset(b) && o <= 4
    ensures FlushSuitFrom(a, o) == FlushSuitFrom(b, o)
    decreases 4 - o
  {
    if o < 4 {
      OfSuitReordered(a, b, SuitOf(o));
      FlushSuitReordered(a, b, o + 1);
    }
  }

  /** With no pair, the flush candidates depend only on which cards there are. */
  lemma {:induction false} FlushCandidatesReordered(a: seq<PlayingCard>, b: seq<PlayingCard>)
    requires multiset(a) == multiset(b) && Unpaired(a)
    ensures FlushCandidates(a) == FlushCandidates(b)
  {
    FlushSuitReordered(a, b, 0);
    var r := FlushSuitFrom(a, 0);
    if r.Some? {
      var t := r.value;
      OfSuitReordered(a, b, t);
      UnpairedSub(OfSuit(a, t), a);
      SortDescReordered(OfSuit(a, t), OfSuit(b, t));
    }
  }

  /** With no pair, every rank group of a non-empty list is one card. */
  lemma {:induction false} UnpairedGroups(s: seq<PlayingCard>)
    requires s != [] && Unpaired(s)
    ensures RankGroups(s) != [] && |RankGroups(s)[0]| == 1
  {
    var groups := RankGroups(s);
    RankGroupsSpec(s);
    var g := groups[0];
    assert g in groups;
  }

  /** With no pair, the chain below the straight is the high card. */
  lemma {:induction false} UnpairedKickers(s: seq<PlayingCard>)
    requires s != [] && Unpaired(s)
    ensures EvalKickers(s, RankGroups(s)) == EvalHighCard(s)
  {
    UnpairedGroups(s);
  }

  /** Below the flush, with no pair, the chain sees the cards only sorted. */
  lemma {:induction false} BelowFlushReordered(a: seq<PlayingCard>, b: seq<PlayingCard>)
    requires a != [] && b != [] && Unpaired(a) && Unpaired(b) && SortDesc(a) == SortDesc(b)
    ensures EvalBelowFlush(a, RankGroups(a)) == EvalBelowFlush(b, RankGroups(b))
  {
    UnpairedKickers(a);
    UnpairedKickers(b);
    assert StraightOf(a, true) == StraightOf(b, true);
    assert EvalHighCard(a) == EvalHighCard(b);
  }

  /** From four of a kind down, with no pair, the chain sees the cards
      only sorted, besides the flush candidates. */
  lemma {:induction false} GroupsReordered(a: seq<PlayingCard>, b: seq<PlayingCard>, flush: seq<PlayingCard>)
    requires a != [] && b != [] && Unpaired(a) && Unpaired(b) && SortDesc(a) == SortDesc(b)
    ensures EvalGroups(a, flush, RankGroups(a)) == EvalGroups(b, flush, RankGroups(b))
  {
    UnpairedChain(a, flush);
    UnpairedChain(b, flush);
    BelowFlushReordered(a, b);
  }

  /** With no pair, no four of a kind and no full house: the chain goes
      straight to the flush test. */
  lemma {:induction false} UnpairedChain(s: seq<PlayingCard>, flush: seq<PlayingCard>)
    requires s != [] && Unpaired(s)
    ensures EvalGroups(s, flush, RankGroups(s)) ==
      if flush != [] then EvalFlush(flush) else EvalBelowFlush(s, RankGroups(s))
  {
    UnpairedGroups(s);
  }

  /** `_eval_hand` gives the same category, ranks and five cards for any
      order of the same cards, when no two of them share a rank. */
  lemma {:induction false} EvalHandReordered(a: seq<PlayingCard>, b: seq<PlayingCard>)
    requires multiset(a) == multiset(b) && Unpaired(a)
    ensures EvalHand(a) == EvalHand(b)
  {
    if a == [] {
      assert b == [];
    } else {
      assert b != [] by {
        assert |b| == |multiset(b)|;
      }
      UnpairedSub(b, a);
      FlushCandidatesReordered(a, b);
      SortDescReordered(a, b);
      GroupsReordered(a, b, FlushCandidates(a));
    }
  }
}
