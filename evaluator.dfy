/** PokerEvaluator.py, the static part: the helpers of `_eval_hand` and the
    category chain itself, which turns five to seven cards into a packed
    hand value and the five cards that realise it. */
module Evaluator {
  import opened Outcomes
  import opened Cards
  import opened RankOrder
  import opened Poker
  import opened Groups

  /** `_find_rank`: the first card of the given rank, if any. */
  function FindRank(cards: seq<PlayingCard>, rank: Rank): (r: Option<PlayingCard>)
    ensures r.None? <==> forall c :: c in cards ==> c.rank != rank
    ensures r.Some? ==> r.value.rank == rank && r.value in cards
  {
    if cards == [] then None
    else if cards[0].rank == rank then Some(cards[0])
    else
      assert cards == [cards[0]] + cards[1..];
      FindRank(cards[1..], rank)
  }

  /** `_find_rank` returns the first card of that rank. */
  lemma {:induction false} FindRankFirst(cards: seq<PlayingCard>, rank: Rank)
    requires FindRank(cards, rank).Some?
    ensures exists i :: 0 <= i < |cards| && cards[i] == FindRank(cards, rank).value
                      && forall j :: 0 <= j < i ==> cards[j].rank != rank
  {
    if cards[0].rank != rank {
      FindRankFirst(cards[1..], rank);
      var i :| 0 <= i < |cards| - 1 && cards[1..][i] == FindRank(cards, rank).value
        && forall j :: 0 <= j < i ==> cards[1..][j].rank != rank;
      assert cards[i + 1] == FindRank(cards, rank).value;
      forall j | 0 <= j < i + 1
        ensures cards[j].rank != rank
      {
        if j > 0 {
          assert cards[j] == cards[1..][j - 1];
        }
      }
    }
  }

  /** `max(cards, key=lambda x: x.rank.value)`: the first card of the
      highest rank. */
  function MaxByRank(cards: seq<PlayingCard>): (r: PlayingCard)
    requires cards != []
    ensures r in cards
    ensures forall c :: c in cards ==> c.rank <= r.rank
    ensures exists i :: 0 <= i < |cards| && cards[i] == r && forall j :: 0 <= j < i ==> cards[j].rank < r.rank
  {
    if |cards| == 1 then cards[0]
    else
      var front := cards[..|cards| - 1];
      var m := MaxByRank(front);
      assert cards == front + [cards[|cards| - 1]];
      if cards[|cards| - 1].rank > m.rank then cards[|cards| - 1] else m
  }

  // ---------------------------------------------------------------------
  // Flush candidates

  /** The first suit, from ordinal `o` on, holding five or more of the
      cards. */
  function FlushSuitFrom(cards: seq<PlayingCard>, o: nat): (r: Option<Suit>)
    requires o <= 4
    ensures r.None? <==> forall t: Suit :: t.Ordinal() >= o ==> |OfSuit(cards, t)| < 5
    ensures r.Some? ==> && r.value.Ordinal() >= o && |OfSuit(cards, r.value)| >= 5
                        && forall u: Suit :: o <= u.Ordinal() < r.value.Ordinal() ==> |OfSuit(cards, u)| < 5
    decreases 4 - o
  {
    if o == 4 then None
    else
      var t := SuitOf(o);
      SuitOrdinalInjective(t, t);
      assert forall u: Suit :: u.Ordinal() == o ==> u == t by {
        forall u: Suit | u.Ordinal() == o
          ensures u == t
        {
          SuitOrdinalInjective(u, t);
        }
      }
      if |OfSuit(cards, t)| >= 5 then Some(t) else FlushSuitFrom(cards, o + 1)
  }

  /** `_get_flush_candidates`: sorting by suit and grouping visits the
      suits in ordinal order; the first group of five or more cards comes
      back sorted by rank, highest first, and [] when there is none. */
  function FlushCandidates(cards: seq<PlayingCard>): seq<PlayingCard>
  {
    match FlushSuitFrom(cards, 0)
    case None => []
    case Some(t) => SortDesc(OfSuit(cards, t))
  }

  /** The flush candidates are [] exactly when no suit has five cards, and
      otherwise every card of the first such suit, highest rank first. */
  lemma {:induction false} FlushCandidatesSpec(cards: seq<PlayingCard>)
    ensures FlushCandidates(cards) == [] ==> forall t: Suit :: |OfSuit(cards, t)| < 5
    ensures (forall t: Suit :: |OfSuit(cards, t)| < 5) ==> FlushCandidates(cards) == []
    ensures FlushCandidates(cards) != [] ==>
      var t := FlushSuitFrom(cards, 0).value;
      && |OfSuit(cards, t)| >= 5
      && (forall u: Suit :: u.Ordinal() < t.Ordinal() ==> |OfSuit(cards, u)| < 5)
      && multiset(FlushCandidates(cards)) == multiset(OfSuit(cards, t))
      && (forall c :: c in FlushCandidates(cards) ==> c.suit == t)
    ensures |FlushCandidates(cards)| != 0 ==> |FlushCandidates(cards)| >= 5
    ensures SortedDesc(FlushCandidates(cards))
    ensures multiset(FlushCandidates(cards)) <= multiset(cards)
  {
    var r := FlushSuitFrom(cards, 0);
    if r.Some? {
      var f := SortDesc(OfSuit(cards, r.value));
      SortDescSorted(OfSuit(cards, r.value));
      assert FlushCandidates(cards) == f;
      assert |f| >= 5;
      forall c | c in f
        ensures c.suit == r.value
      {
        assert c in multiset(f);
      }
    } else {
      assert FlushCandidates(cards) == [];
      forall t: Suit
        ensures |OfSuit(cards, t)| < 5
      {
        assert t.Ordinal() >= 0;
      }
    }
  }

  // ---------------------------------------------------------------------
  // Straights

  /** Each card one rank below the one before it: the card `j - i`
      places after another is `j - i` ranks lower. */
  predicate Descending(s: seq<PlayingCard>)
  {
    forall i, j :: 0 <= i <= j < |s| ==> s[j].rank + (j - i) == s[i].rank
  }

  /** `Descending(s[lo..hi])`, by index into `s`. */
  predicate DescendingBetween(s: seq<PlayingCard>, lo: nat, hi: nat)
    requires lo <= hi <= |s|
  {
    forall i, j :: lo <= i <= j < hi ==> s[j].rank + (j - i) == s[i].rank
  }

  lemma {:induction false} DescendingSlice(s: seq<PlayingCard>, lo: nat, hi: nat)
    requires lo <= hi <= |s| && DescendingBetween(s, lo, hi)
    ensures Descending(s[lo..hi])
  {
    forall i, j | 0 <= i <= j < hi - lo
      ensures s[lo..hi][j].rank + (j - i) == s[lo..hi][i].rank
    {
      assert s[lo..hi][i] == s[lo + i] && s[lo..hi][j] == s[lo + j];
    }
  }

  /** Ace, then Five, Four, Three, Two. */
  predicate IsWheel(s: seq<PlayingCard>)
  {
    |s| == 5 && s[0].rank == ACE && s[1].rank == FIVE && Descending(s[1..])
  }

  /** Where the run held by the scan of `_eval_straight` starts after it
      has seen the first `n` cards: a card one rank below the last one
      extends the run, any other card starts a new one. */
  function RunStart(s: seq<PlayingCard>, n: nat): (k: nat)
    requires 1 <= n <= |s|
    ensures k < n
  {
    if n == 1 then 0
    else if s[n - 1].rank == s[n - 2].rank - 1 then RunStart(s, n - 1)
    else n - 1
  }

  /** The run held by the scan falls one rank at a time. */
  lemma {:induction false} RunStartDescending(s: seq<PlayingCard>, n: nat)
    requires 1 <= n <= |s|
    ensures DescendingBetween(s, RunStart(s, n), n)
  {
    if n > 1 && s[n - 1].rank == s[n - 2].rank - 1 {
      RunStartDescending(s, n - 1);
    }
  }

  /** The wheel rule: when the run ends with a Two and the cards hold an
      Ace, the run is cut to its last four cards and the Ace put in front. */
  function WithWheelAce(s: seq<PlayingCard>, run: seq<PlayingCard>): seq<PlayingCard>
    requires run != []
  {
    if run[|run| - 1].rank == TWO && FindRank(s, ACE).Some? then
      [FindRank(s, ACE).value] + (if |run| > 4 then run[|run| - 4..] else run)
    else run
  }

  /** What the scan of `_eval_straight` returns for a non-empty list: the
      run it ends with, after the wheel rule, cut to five cards, or [] when
      shorter than five. */
  function ScanResult(s: seq<PlayingCard>): seq<PlayingCard>
    requires s != []
  {
    var straight := WithWheelAce(s, s[RunStart(s, |s|)..]);
    if |straight| >= 5 then straight[..5] else []
  }

  /** `_eval_straight(cards, need_sort)` as a value. */
  function StraightOf(cards: seq<PlayingCard>, needSort: bool): seq<PlayingCard>
  {
    if cards == [] then cards
    else ScanResult(if needSort then SortDesc(cards) else cards)
  }

  /** `_eval_straight` returns [] or five cards taken from its input that
      either fall one rank at a time or are the wheel, Ace first. */
  lemma {:induction false} StraightOfShape(cards: seq<PlayingCard>, needSort: bool)
    ensures var r := StraightOf(cards, needSort);
      && (r == [] || |r| == 5)
      && multiset(r) <= multiset(cards)
      && (r != [] ==> Descending(r) || IsWheel(r))
  {
    if cards != [] {
      var s := if needSort then SortDesc(cards) else cards;
      assert multiset(s) == multiset(cards);
      assert StraightOf(cards, needSort) == ScanResult(s);
      ScanShape(s);
    }
  }

  /** A straight needs five cards to be found in. */
  lemma {:induction false} StraightNeedsFive(cards: seq<PlayingCard>, needSort: bool)
    ensures StraightOf(cards, needSort) != [] ==> |StraightOf(cards, needSort)| == 5 <= |cards|
  {
    StraightOfShape(cards, needSort);
    var r := StraightOf(cards, needSort);
    SubMultisetSize(multiset(r), multiset(cards));
  }

  lemma {:induction false} SubMultisetSize(a: multiset<PlayingCard>, b: multiset<PlayingCard>)
    requires a <= b
    ensures |a| <= |b|
    decreases |a|
  {
    if a != multiset{} {
      var x :| x in a;
      SubMultisetSize(a - multiset{x}, b - multiset{x});
    }
  }

  lemma {:induction false} ScanShape(s: seq<PlayingCard>)
    requires s != []
    ensures var r := ScanResult(s);
      && (r == [] || |r| == 5)
      && multiset(r) <= multiset(s)
      && (r != [] ==> Descending(r) || IsWheel(r))
  {
    var k := RunStart(s, |s|);
    RunStartDescending(s, |s|);
    DescendingSlice(s, k, |s|);
    if s[|s| - 1].rank == TWO && FindRank(s, ACE).Some? {
      WheelShape(s, k);
    } else {
      RunShape(s, k);
    }
  }

  /** A piece of a descending list is descending. */
  lemma {:induction false} DescendingSub(t: seq<PlayingCard>, lo: nat, hi: nat)
    requires lo <= hi <= |t| && Descending(t)
    ensures Descending(t[lo..hi])
  {
    forall i, j | 0 <= i <= j < hi - lo
      ensures t[lo..hi][j].rank + (j - i) == t[lo..hi][i].rank
    {
      assert t[lo..hi][i] == t[lo + i] && t[lo..hi][j] == t[lo + j];
    }
  }

  /** Without the wheel rule the result is the top of the final run. */
  lemma {:induction false} RunShape(s: seq<PlayingCard>, k: nat)
    requires k < |s| && Descending(s[k..])
    requires !(s[|s| - 1].rank == TWO && FindRank(s, ACE).Some?)
    ensures var straight := WithWheelAce(s, s[k..]);
      && multiset(if |straight| >= 5 then straight[..5] else []) <= multiset(s)
      && (|straight| >= 5 ==> Descending(straight[..5]))
  {
    var run := s[k..];
    assert run[|run| - 1] == s[|s| - 1];
    assert WithWheelAce(s, run) == run;
    if |run| >= 5 {
      assert run[..5] == s[k..k + 5];
      SliceInMultiset(s, k, k + 5);
      DescendingSub(run, 0, 5);
    }
  }

  /** With the wheel rule the result is the Ace before Five to Two. */
  lemma {:induction false} WheelShape(s: seq<PlayingCard>, k: nat)
    requires k < |s| && Descending(s[k..])
    requires s[|s| - 1].rank == TWO && FindRank(s, ACE).Some?
    ensures var straight := WithWheelAce(s, s[k..]);
      && multiset(if |straight| >= 5 then straight[..5] else []) <= multiset(s)
      && (|straight| >= 5 ==> IsWheel(straight[..5]))
  {
    var run := s[k..];
    var ace := FindRank(s, ACE).value;
    var m := if |run| > 4 then 4 else |run|;
    assert run[|run| - 1] == s[|s| - 1];
    WheelTail(run, m);
    assert run[|run| - m..] == s[|s| - m..];
    assert WithWheelAce(s, run) == [ace] + s[|s| - m..];
    WheelParts(s, ace, m);
  }

  /** The Ace put before the last `m` cards of the list. */
  lemma {:induction false} WheelParts(s: seq<PlayingCard>, ace: PlayingCard, m: nat)
    requires 0 < m <= 4 && m <= |s| && ace in s && ace.rank == ACE
    requires Descending(s[|s| - m..]) && s[|s| - m].rank == m + 1
    requires forall c :: c in s[|s| - m..] ==> c.rank != ACE
    ensures var w := [ace] + s[|s| - m..];
      && multiset(if |w| >= 5 then w[..5] else []) <= multiset(s)
      && (|w| >= 5 ==> IsWheel(w[..5]))
  {
    AceBeforeTail(s, ace, m);
    if m == 4 {
      AceThenFour(ace, s[|s| - m..]);
    }
  }

  /** An Ace before Five, Four, Three, Two is the wheel. */
  lemma {:induction false} AceThenFour(ace: PlayingCard, tail: seq<PlayingCard>)
    requires ace.rank == ACE && |tail| == 4 && tail[0].rank == FIVE && Descending(tail)
    ensures var w := [ace] + tail; w[..5] == w && IsWheel(w)
  {
    var w := [ace] + tail;
    assert w[1..] == tail;
  }

  /** The last `m <= 4` cards of a descending run ending with a Two fall
      from rank m + 1 to 2, so none of them is an Ace. */
  lemma {:induction false} WheelTail(run: seq<PlayingCard>, m: nat)
    requires 0 < m <= 4 && m <= |run| && Descending(run) && run[|run| - 1].rank == TWO
    ensures Descending(run[|run| - m..])
    ensures forall c :: c in run[|run| - m..] ==> c.rank != ACE
    ensures run[|run| - m].rank == m + 1
  {
    DescendingSub(run, |run| - m, |run|);
    var tail := run[|run| - m..];
    assert tail[m - 1] == run[|run| - 1];
    forall c | c in tail
      ensures c.rank != ACE
    {
      var i :| 0 <= i < m && tail[i] == c;
      assert tail[m - 1].rank + (m - 1 - i) == tail[i].rank;
    }
  }

  /** An Ace of the list and a tail holding no Ace are, together, cards of
      the list. */
  lemma {:induction false} AceBeforeTail(s: seq<PlayingCard>, ace: PlayingCard, m: nat)
    requires m <= |s| && ace in s && ace.rank == ACE
    requires forall c :: c in s[|s| - m..] ==> c.rank != ACE
    ensures multiset([ace] + s[|s| - m..]) <= multiset(s)
  {
    var j :| 0 <= j < |s| && s[j] == ace;
    ElementBeforeSlice(s, ace, j, |s| - m);
  }

  lemma {:induction false} ElementBeforeSlice(s: seq<PlayingCard>, x: PlayingCard, j: nat, lo: nat)
    requires j < lo <= |s| && s[j] == x
    ensures multiset([x] + s[lo..]) <= multiset(s)
  {
    assert s == s[..j] + [s[j]] + s[j + 1..lo] + s[lo..];
  }

  lemma {:induction false} SliceInMultiset(s: seq<PlayingCard>, i: nat, j: nat)
    requires i <= j <= |s|
    ensures multiset(s[i..j]) <= multiset(s)
  {
    assert s == s[..i] + s[i..j] + s[j..];
  }

  /** `_eval_straight`: an empty list comes back as it is; otherwise the
      list is sorted when asked to and scanned. */
  method EvalStraight(cards: seq<PlayingCard>, needSort: bool) returns (straight: seq<PlayingCard>)
    ensures straight == StraightOf(cards, needSort)
  {
    if cards == [] {
      return cards;
    }
    var s := if needSort then SortDesc(cards) else cards;
    straight := ScanForStraight(s);
  }

  /** The scan of `_eval_straight`: the run it ends with, after the wheel
      rule, cut to five cards or [] when shorter. */
  method ScanForStraight(s: seq<PlayingCard>) returns (straight: seq<PlayingCard>)
    requires s != []
    ensures straight == ScanResult(s)
  {
    straight := FinalRun(s);
    ghost var run := straight;
    if straight[|straight| - 1].rank == TWO {
      var ace := FindRank(s, ACE);
      if ace.Some? {
        while |straight| > 4
          invariant 0 < |straight| <= |run|
          invariant straight == run[|run| - |straight|..]
          invariant |run| > 4 ==> |straight| >= 4
          invariant |run| <= 4 ==> straight == run
        {
          straight := straight[1..];
        }
        straight := [ace.value] + straight;
      }
    }
    assert straight == WithWheelAce(s, run);
    if |straight| >= 5 {
      return straight[..5];
    }
    return [];
  }

  /** The loop of `_eval_straight`: a running list, to which a card one
      rank below its last element is appended and which any other card
      restarts. */
  method FinalRun(s: seq<PlayingCard>) returns (straight: seq<PlayingCard>)
    requires s != []
    ensures straight == s[RunStart(s, |s|)..]
  {
    straight := [s[0]];
    var i := 1;
    while i < |s|
      invariant 1 <= i <= |s|
      invariant straight == s[RunStart(s, i)..i]
    {
      var card := s[i];
      ghost var k := RunStart(s, i);
      assert straight[|straight| - 1] == s[i - 1];
      if card.rank == straight[|straight| - 1].rank - 1 {
        assert RunStart(s, i + 1) == k;
        assert s[k..i + 1] == s[k..i] + [card];
        straight := straight + [card];
      } else {
        assert RunStart(s, i + 1) == i;
        assert [card] == s[i..i + 1];
        straight := [card];
      }
      i := i + 1;
    }
  }

  // ---------------------------------------------------------------------
  // The category chain

  /** What `_eval_hand` works out: the category and the ranks that
      `value_from` packs after it, and the cards it returns. */
  datatype Evaluation = Evaluation(category: HandRank, tieBreaks: seq<nat>, hand: seq<PlayingCard>)
  {
    /** The first element of the pair `_eval_hand` returns. */
    function Value(): nat
    {
      ValueFrom([category.Ordinal()] + tieBreaks)
    }
  }

  /** `[c.rank.value for c in s]`. */
  function Ranks(s: seq<PlayingCard>): (r: seq<nat>)
    ensures |r| == |s| && forall i :: 0 <= i < |s| ==> r[i] == s[i].rank
  {
    if s == [] then [] else [s[0].rank as nat] + Ranks(s[1..])
  }

  /** The slice `s[:n]`, which stops early on a shorter list. */
  function Take(s: seq<PlayingCard>, n: nat): (r: seq<PlayingCard>)
    ensures |r| == if |s| < n then |s| else n
    ensures r == s[..|r|]
  {
    if |s| < n then s else s[..n]
  }

  /** `_eval_hand`: the first category of the chain, from the highest down,
      that the cards make; a list too short for the category it lands in
      raises where the source indexes, takes a `max` or asserts. */
  function EvalHand(cards: seq<PlayingCard>): Result<Evaluation>
  {
    var flush := FlushCandidates(cards);
    var sf := StraightOf(flush, false);
    StraightOfShape(flush, false);
    if sf != [] then Ok(StraightFlushOf(sf))
    else
      EvalGroups(cards, flush, RankGroups(cards))
  }

  /** A royal flush when the second card is a King, a straight flush
      otherwise. */
  function StraightFlushOf(sf: seq<PlayingCard>): Evaluation
    requires |sf| == 5
  {
    if sf[1].rank == KING then Evaluation(RoyalFlush, [], sf)
    else Evaluation(StraightFlush, [sf[0].rank as nat, sf[1].rank as nat], sf)
  }

  /** The chain from four of a kind to flush, on the rank groups and flush
      candidates of the cards, once no straight flush was found. */
  function EvalGroups(cards: seq<PlayingCard>, flush: seq<PlayingCard>, groups: seq<seq<PlayingCard>>): Result<Evaluation>
    requires AllNonEmpty(groups)
  {
    if groups == [] then Err(IndexOutOfRange)
    else if |groups[0]| == 4 then EvalQuads(groups)
    else if |groups[0]| == 3 && |groups| < 2 then Err(IndexOutOfRange)
    else if |groups[0]| == 3 && |groups[1]| >= 2 then Ok(FullHouseOf(groups))
    else if flush != [] then EvalFlush(flush)
    else EvalBelowFlush(cards, groups)
  }

  /** Four of a kind: the group and the highest card of the rest. */
  function EvalQuads(groups: seq<seq<PlayingCard>>): (r: Result<Evaluation>)
    requires groups != [] && AllNonEmpty(groups)
    ensures r.Ok? ==> r.value.category == FourOfAKind
  {
    assert groups[0] in groups;
    var others := FlattenGroups(groups[1..]);
    if others == [] then Err(EmptyMax)
    else
      var kicker := MaxByRank(others);
      Ok(Evaluation(FourOfAKind, [groups[0][0].rank as nat, kicker.rank as nat], groups[0] + [kicker]))
  }

  /** Full house: the group of three and the first two of the next. */
  function FullHouseOf(groups: seq<seq<PlayingCard>>): Evaluation
    requires |groups| >= 2 && |groups[1]| >= 2 && AllNonEmpty(groups)
  {
    assert groups[0] in groups;
    Evaluation(FullHouse, [groups[0][0].rank as nat, groups[1][0].rank as nat], groups[0] + groups[1][..2])
  }

  /** Flush: the five highest of the flush candidates. */
  function EvalFlush(flush: seq<PlayingCard>): (r: Result<Evaluation>)
    ensures r.Ok? <==> |flush| >= 5
    ensures r.Ok? ==> r.value.category == Flush
  {
    var top := Take(flush, 5);
    if |top| != 5 then Err(AssertionFailed)
    else Ok(Evaluation(Flush, Ranks(top), top))
  }

  /** The chain from straight down to high card. */
  function EvalBelowFlush(cards: seq<PlayingCard>, groups: seq<seq<PlayingCard>>): Result<Evaluation>
    requires AllNonEmpty(groups)
  {
    var straight := StraightOf(cards, true);
    StraightOfShape(cards, true);
    if straight != [] then
      Ok(Evaluation(Straight, [straight[0].rank as nat, straight[1].rank as nat], straight))
    else EvalKickers(cards, groups)
  }

  /** Three of a kind, two pair, one pair and high card. */
  function EvalKickers(cards: seq<PlayingCard>, groups: seq<seq<PlayingCard>>): Result<Evaluation>
    requires AllNonEmpty(groups)
  {
    if groups == [] then Err(IndexOutOfRange)
    else if |groups[0]| == 3 then EvalTrips(groups)
    else if |groups[0]| == 2 then EvalPairs(groups)
    else EvalHighCard(cards)
  }

  /** High card: the five highest cards. */
  function EvalHighCard(cards: seq<PlayingCard>): (r: Result<Evaluation>)
    ensures r.Ok? <==> |cards| >= 5
    ensures r.Ok? ==> r.value.category == HighCard
  {
    var top := Take(SortDesc(cards), 5);
    if |top| != 5 then Err(AssertionFailed)
    else Ok(Evaluation(HighCard, Ranks(top), top))
  }

  /** Three of a kind: the group and the two highest other cards. */
  function EvalTrips(groups: seq<seq<PlayingCard>>): (r: Result<Evaluation>)
    requires groups != [] && AllNonEmpty(groups)
    ensures r.Ok? ==> r.value.category == ThreeOfAKind
  {
    assert groups[0] in groups;
    var kickers := Take(SortDesc(FlattenGroups(groups[1..])), 2);
    if |kickers| < 2 then Err(IndexOutOfRange)
    else if kickers[0].rank == kickers[1].rank then Err(AssertionFailed)
    else Ok(Evaluation(ThreeOfAKind, [groups[0][0].rank as nat, kickers[0].rank as nat, kickers[1].rank as nat], groups[0] + kickers))
  }

  /** Two pair and one pair. */
  function EvalPairs(groups: seq<seq<PlayingCard>>): (r: Result<Evaluation>)
    requires groups != [] && AllNonEmpty(groups)
    ensures r.Ok? ==> r.value.category in {TwoPair, OnePair}
    ensures r.Ok? && |groups| >= 2 && |groups[1]| == 2 ==> r.value.category == TwoPair
  {
    if |groups| < 2 then Err(IndexOutOfRange)
    else if |groups[1]| == 2 then EvalTwoPair(groups)
    else EvalOnePair(groups)
  }

  /** Two pair: both groups and the highest card of the rest. */
  function EvalTwoPair(groups: seq<seq<PlayingCard>>): (r: Result<Evaluation>)
    requires |groups| >= 2 && AllNonEmpty(groups)
    ensures r.Ok? ==> r.value.category == TwoPair
  {
    assert groups[0] in groups && groups[1] in groups;
    var others := FlattenGroups(groups[2..]);
    if others == [] then Err(EmptyMax)
    else
      var kicker := MaxByRank(others);
      Ok(Evaluation(TwoPair, [groups[0][0].rank as nat, groups[1][0].rank as nat, kicker.rank as nat], groups[0] + groups[1] + [kicker]))
  }

  /** One pair: the group and the three highest other cards. */
  function EvalOnePair(groups: seq<seq<PlayingCard>>): (r: Result<Evaluation>)
    requires groups != [] && AllNonEmpty(groups)
    ensures r.Ok? ==> r.value.category == OnePair
  {
    assert groups[0] in groups;
    var kickers := Take(SortDesc(FlattenGroups(groups[1..])), 3);
    if |kickers| != 3 then Err(AssertionFailed)
    else Ok(Evaluation(OnePair, [groups[0][0].rank as nat] + Ranks(kickers), groups[0] + kickers))
  }
}
