/** Two defects of the straight handling in `_eval_straight` and
    `_eval_hand`, each shown on the model of the code as written next to a
    corrected definition with the property the code evidently intends.

    1. The scan keeps only the run it is in when the cards run out: a
       straight followed by lower cards that do not continue it, or broken
       by a second card of a rank, is lost.
    2. The wheel (Ace to Five) comes back Ace first, so its tie-breaks are
       (Ace, Five) and it outscores every straight topped by a King. */
module StraightFinding {
  import opened Outcomes
  import opened Cards
  import opened RankOrder
  import opened Poker
  import opened Evaluator

  // ---------------------------------------------------------------------
  // A reference definition of "the cards hold a straight"

  /** The ranks of the straight topped by `top`, highest first; in the
      five-high straight the Ace plays low and comes last. */
  function StraightRanks(top: int): (rs: seq<Rank>)
    requires FIVE <= top <= ACE
    ensures |rs| == 5 && rs[0] == top
    ensures forall i, j :: 0 <= i < j < 5 ==> rs[i] != rs[j]
  {
    [top, top - 1, top - 2, top - 3, if top == FIVE then ACE else top - 4]
  }

  /** The cards hold a card of every rank of the straight topped by `top`. */
  predicate HoldsStraight(cards: seq<PlayingCard>, top: int)
    requires FIVE <= top <= ACE
  {
    forall i :: 0 <= i < 5 ==> FindRank(cards, StraightRanks(top)[i]).Some?
  }

  /** The highest `t <= top` whose straight the cards hold. */
  function HighestStraight(cards: seq<PlayingCard>, top: int): (r: Option<int>)
    requires FIVE - 1 <= top <= ACE
    ensures r.Some? ==> FIVE <= r.value <= top && HoldsStraight(cards, r.value)
    ensures forall t :: FIVE <= t <= top && HoldsStraight(cards, t) ==> r.Some? && t <= r.value
    decreases top
  {
    if top < FIVE then None
    else if HoldsStraight(cards, top) then Some(top)
    else HighestStraight(cards, top - 1)
  }

  /** The straight topped by `top` is held when each of its five ranks
      is found. */
  lemma {:induction false} HoldsFive(cards: seq<PlayingCard>, top: int)
    requires FIVE <= top <= ACE
    requires FindRank(cards, top).Some? && FindRank(cards, top - 1).Some?
    requires FindRank(cards, top - 2).Some? && FindRank(cards, top - 3).Some?
    requires FindRank(cards, if top == FIVE then ACE else top - 4).Some?
    ensures HoldsStraight(cards, top)
  {
    var rs := StraightRanks(top);
    forall i | 0 <= i < 5
      ensures FindRank(cards, rs[i]).Some?
    {
      if i == 0 {
      } else if i == 1 {
        assert rs[i] == top - 1;
      } else if i == 2 {
        assert rs[i] == top - 2;
      } else if i == 3 {
        assert rs[i] == top - 3;
      } else {
        assert rs[i] == if top == FIVE then ACE else top - 4;
      }
    }
  }

  /** The rank of any card of the list is found. */
  lemma {:induction false} FoundAt(cards: seq<PlayingCard>, i: nat)
    requires i < |cards|
    ensures FindRank(cards, cards[i].rank).Some?
  {
    assert cards[i] in cards;
  }

  /** One card of each of the given ranks, the first the list holds. */
  function PickRanks(cards: seq<PlayingCard>, rs: seq<Rank>): (r: seq<PlayingCard>)
    requires forall i :: 0 <= i < |rs| ==> FindRank(cards, rs[i]).Some?
    ensures |r| == |rs|
    ensures forall i :: 0 <= i < |rs| ==> r[i].rank == rs[i] && r[i] in cards
  {
    if rs == [] then []
    else [FindRank(cards, rs[0]).value] + PickRanks(cards, rs[1..])
  }

  /** The corrected `_eval_straight`: the five cards of the highest
      straight the cards hold, highest rank first with a low Ace last, or
      [] when they hold none. */
  function CorrectedStraightOf(cards: seq<PlayingCard>): seq<PlayingCard>
  {
    match HighestStraight(cards, ACE)
    case None => []
    case Some(t) => PickRanks(cards, StraightRanks(t))
  }

  /** A list without repeats whose elements are all in `cards` is a
      sub-multiset of `cards`. */
  lemma {:induction false} DistinctInside(r: seq<PlayingCard>, cards: seq<PlayingCard>)
    requires forall i, j :: 0 <= i < j < |r| ==> r[i] != r[j]
    requires forall c :: c in r ==> c in cards
    ensures multiset(r) <= multiset(cards)
  {
    if r != [] {
      var rest := r[1..];
      assert forall i, j :: 0 <= i < j < |rest| ==> rest[i] != rest[j] by {
        forall i, j | 0 <= i < j < |rest|
          ensures rest[i] != rest[j]
        {
          assert rest[i] == r[i + 1] && rest[j] == r[j + 1];
        }
      }
      DistinctInside(rest, cards);
      assert r[0] !in rest by {
        forall j | 0 <= j < |rest|
          ensures rest[j] != r[0]
        {
          assert rest[j] == r[j + 1];
        }
      }
      assert r == [r[0]] + rest;
      assert r[0] in r;
      var m := multiset(rest);
      assert multiset(r) == m + multiset{r[0]};
      assert m[r[0]] == 0 && r[0] in multiset(cards);
      forall x
        ensures (m + multiset{r[0]})[x] <= multiset(cards)[x]
      {
        if x != r[0] {
          assert (m + multiset{r[0]})[x] == m[x];
        }
      }
    }
  }

  /** The corrected finder returns [] exactly when the cards hold no
      straight, and otherwise five of the cards making the highest
      straight they hold. */
  lemma {:induction false} CorrectedStraightSpec(cards: seq<PlayingCard>)
    ensures var r := CorrectedStraightOf(cards);
      && (r == [] <==> forall t :: FIVE <= t <= ACE ==> !HoldsStraight(cards, t))
      && (r != [] ==>
            && |r| == 5 && FIVE <= r[0].rank
            && HoldsStraight(cards, r[0].rank)
            && (forall t :: r[0].rank < t <= ACE ==> !HoldsStraight(cards, t))
            && (forall i :: 0 <= i < 5 ==> r[i].rank == StraightRanks(r[0].rank)[i])
            && multiset(r) <= multiset(cards))
  {
    var h := HighestStraight(cards, ACE);
    if h.Some? {
      var t := h.value;
      var r := PickRanks(cards, StraightRanks(t));
      assert r[0].rank == t;
      assert forall i, j :: 0 <= i < j < |r| ==> r[i] != r[j] by {
        forall i, j | 0 <= i < j < |r|
          ensures r[i] != r[j]
        {
          assert r[i].rank != r[j].rank;
        }
      }
      DistinctInside(r, cards);
    }
  }

  /** Five cards that fall one rank at a time, or that make the wheel, are
      found by the corrected finder, at their own height or above. */
  lemma {:induction false} CorrectedFindsEveryStraight(cards: seq<PlayingCard>, h: seq<PlayingCard>)
    requires |h| == 5 && (Descending(h) || IsWheel(h))
    requires forall c :: c in h ==> c in cards
    ensures CorrectedStraightOf(cards) != []
    ensures CorrectedStraightOf(cards)[0].rank >= Top(h)
  {
    var top := Top(h);
    var rs := StraightRanks(top);
    forall i | 0 <= i < 5
      ensures FindRank(cards, rs[i]).Some?
    {
      var c := if IsWheel(h) then (if i == 4 then h[0] else h[i + 1]) else h[i];
      assert c in h;
      if IsWheel(h) {
        if i < 4 {
          assert h[1..][i].rank + i == h[1..][0].rank;
        }
      } else {
        assert h[i].rank + i == h[0].rank;
        assert h[4].rank + 4 == h[0].rank;
      }
      assert c.rank == rs[i];
    }
    assert HoldsStraight(cards, top);
    CorrectedStraightSpec(cards);
  }

  // ---------------------------------------------------------------------
  // Finding: the scan keeps only its last run

  /** On a list already sorted by rank, `_eval_straight` is the scan of
      the list itself. */
  lemma {:induction false} ScanOfSorted(s: seq<PlayingCard>)
    requires s != [] && SortedDesc(s)
    ensures StraightOf(s, true) == ScanResult(s)
  {
    SortDescOfSorted(s);
  }

  /** King, Queen, Jack, Ten, Nine of mixed suits, then a Three and a Two:
      already sorted by rank, as the scan sees them. */
  const BROKEN_RUN: seq<PlayingCard> := [
    PlayingCard(13, Spade), PlayingCard(12, Heart), PlayingCard(11, Spade),
    PlayingCard(10, Diamond), PlayingCard(9, Club), PlayingCard(3, Club),
    PlayingCard(2, Diamond)]

  /** As written, the run King to Nine is dropped when the Three starts a
      new run, so no straight is found, while the cards hold the King-high
      straight and the corrected finder returns it. */
  lemma {:induction false} ScanMissesBrokenRun()
    ensures StraightOf(BROKEN_RUN, true) == []
    ensures HoldsStraight(BROKEN_RUN, KING)
    ensures CorrectedStraightOf(BROKEN_RUN) != [] && CorrectedStraightOf(BROKEN_RUN)[0].rank == KING
  {
    BrokenRunStraightOf();
    BrokenRunHolds();
    BrokenRunCorrected();
  }

  lemma {:induction false} BrokenRunStraightOf()
    ensures StraightOf(BROKEN_RUN, true) == []
  {
    BrokenRunScan();
    ScanOfSorted(BROKEN_RUN);
  }

  lemma {:induction false} BrokenRunCorrected()
    ensures CorrectedStraightOf(BROKEN_RUN) != [] && CorrectedStraightOf(BROKEN_RUN)[0].rank == KING
  {
    BrokenRunHolds();
    BrokenRunNoAce();
    forall u | KING < u <= ACE
      ensures !HoldsStraight(BROKEN_RUN, u)
    {
      assert u == ACE;
    }
    CorrectedTop(BROKEN_RUN, KING);
  }

  /** The corrected finder returns the straight of the highest height the
      cards hold. */
  lemma {:induction false} CorrectedTop(cards: seq<PlayingCard>, t: int)
    requires FIVE <= t <= ACE && HoldsStraight(cards, t)
    requires forall u :: t < u <= ACE ==> !HoldsStraight(cards, u)
    ensures CorrectedStraightOf(cards) != [] && CorrectedStraightOf(cards)[0].rank == t
  {
    CorrectedStraightSpec(cards);
    var r := CorrectedStraightOf(cards);
    assert r != [];
    assert t <= r[0].rank;
  }

  lemma {:induction false} BrokenRunScan()
    ensures SortedDesc(BROKEN_RUN) && ScanResult(BROKEN_RUN) == []
  {
    BrokenRunSorted();
    BrokenRunEmpty();
  }

  lemma {:induction false} BrokenRunSorted()
    ensures SortedDesc(BROKEN_RUN)
  {
  }

  lemma {:induction false} BrokenRunEmpty()
    ensures ScanResult(BROKEN_RUN) == []
  {
    var s := BROKEN_RUN;
    assert RunStart(s, 6) == 5;
    assert RunStart(s, 7) == 5;
    assert FindRank(s, ACE).None?;
  }

  lemma {:induction false} BrokenRunHolds()
    ensures HoldsStraight(BROKEN_RUN, KING)
  {
    var s := BROKEN_RUN;
    FoundAt(s, 0); FoundAt(s, 1); FoundAt(s, 2); FoundAt(s, 3); FoundAt(s, 4);
    HoldsFive(s, KING);
  }

  lemma {:induction false} BrokenRunNoAce()
    ensures FindRank(BROKEN_RUN, ACE).None? && !HoldsStraight(BROKEN_RUN, ACE)
  {
    assert StraightRanks(ACE)[0] == ACE;
  }

  /** Nine, Eight, Eight, Seven, Six, Five: the second Eight restarts the
      run, which then holds four cards. */
  const REPEATED_RANK: seq<PlayingCard> := [
    PlayingCard(9, Spade), PlayingCard(8, Heart), PlayingCard(8, Club),
    PlayingCard(7, Diamond), PlayingCard(6, Club), PlayingCard(5, Spade)]

  /** As written, no straight is found in Nine, Eight, Eight, Seven, Six,
      Five, while the cards hold the Nine-high straight. */
  lemma {:induction false} ScanMissesRepeatedRank()
    ensures StraightOf(REPEATED_RANK, true) == []
    ensures HoldsStraight(REPEATED_RANK, 9)
  {
    RepeatedRankScan();
    ScanOfSorted(REPEATED_RANK);
    RepeatedRankHolds();
  }

  lemma {:induction false} RepeatedRankScan()
    ensures SortedDesc(REPEATED_RANK) && ScanResult(REPEATED_RANK) == []
  {
    var s := REPEATED_RANK;
    assert RunStart(s, 3) == 2;
    assert RunStart(s, 6) == 2;
  }

  lemma {:induction false} RepeatedRankHolds()
    ensures HoldsStraight(REPEATED_RANK, 9)
  {
    var s := REPEATED_RANK;
    FoundAt(s, 0); FoundAt(s, 1); FoundAt(s, 3); FoundAt(s, 4); FoundAt(s, 5);
    HoldsFive(s, 9);
  }

  /** Ace, Six, Five, Four, Three, Two. */
  const SIX_HIGH: seq<PlayingCard> := [
    PlayingCard(14, Club), PlayingCard(6, Spade), PlayingCard(5, Heart),
    PlayingCard(4, Club), PlayingCard(3, Diamond), PlayingCard(2, Spade)]

  /** As written, the run Six to Two ends with a Two and the cards hold an
      Ace, so the Six is dropped for the Ace and the wheel is returned
      instead of the Six-high straight the cards hold. */
  lemma {:induction false} WheelRuleDropsSixHigh()
    ensures IsWheel(StraightOf(SIX_HIGH, true))
    ensures HoldsStraight(SIX_HIGH, 6)
  {
    SixHighScan();
    ScanOfSorted(SIX_HIGH);
    SixHighHolds();
  }

  lemma {:induction false} SixHighScan()
    ensures SortedDesc(SIX_HIGH) && IsWheel(ScanResult(SIX_HIGH))
  {
    SixHighSorted();
    SixHighWheel();
  }

  lemma {:induction false} SixHighSorted()
    ensures SortedDesc(SIX_HIGH)
  {
  }

  lemma {:induction false} SixHighWheel()
    ensures IsWheel(ScanResult(SIX_HIGH))
  {
    var s := SIX_HIGH;
    SixHighRun();
    var w := [s[0]] + s[2..];
    assert WithWheelAce(s, s[1..]) == w;
    assert s[RunStart(s, |s|)..] == s[1..];
    assert |w| == 5 && w[..5] == w;
    RunStartDescending(s, |s|);
    DescendingSlice(s, 1, |s|);
    DescendingSub(s[1..], 1, 5);
    assert w[1..] == s[1..][1..5];
  }

  lemma {:induction false} SixHighRun()
    ensures RunStart(SIX_HIGH, 6) == 1 && FindRank(SIX_HIGH, ACE) == Some(SIX_HIGH[0])
  {
    var s := SIX_HIGH;
    assert RunStart(s, 2) == 1;
  }

  lemma {:induction false} SixHighHolds()
    ensures HoldsStraight(SIX_HIGH, 6)
  {
    var s := SIX_HIGH;
    FoundAt(s, 1); FoundAt(s, 2); FoundAt(s, 3); FoundAt(s, 4); FoundAt(s, 5);
    HoldsFive(s, 6);
  }

  // ---------------------------------------------------------------------
  // Finding: the wheel is scored Ace high

  /** As written, a wheel straight flush is packed with the tie-breaks
      (Ace, Five) and so outscores the King-high straight flush. */
  lemma {:induction false} WheelOutscoresKingHigh(w: seq<PlayingCard>, k: seq<PlayingCard>)
    requires IsWheel(w) && |k| == 5 && Descending(k) && k[0].rank == KING
    ensures StraightFlushOf(w).category == StraightFlush == StraightFlushOf(k).category
    ensures StraightFlushOf(w).Value() > StraightFlushOf(k).Value()
  {
    assert k[1].rank + 1 == k[0].rank;
    var a := [8, 14, 5];
    var b := [8, 13, 12];
    assert StraightFlushOf(w) == Evaluation(StraightFlush, [14, 5], w);
    assert StraightFlushOf(k) == Evaluation(StraightFlush, [13, 12], k);
    assert [StraightFlush.Ordinal()] + [14, 5] == a;
    assert [StraightFlush.Ordinal()] + [13, 12] == b;
    assert HexDigits(a) && HexDigits(b);
    ValueFromOrder(b, a);
    KingDigitsBelowWheel();
  }

  /** King-high digits come before the wheel's Ace-first digits. */
  lemma {:induction false} KingDigitsBelowWheel()
    ensures LexLess(Padded([8, 13, 12]), Padded([8, 14, 5]))
  {
    var p := Padded([8, 13, 12]);
    var q := Padded([8, 14, 5]);
    assert p[0] == q[0] && p[1..][0] < q[1..][0];
  }

  /** The height of a straight: its first card's rank, or Five for the
      wheel. */
  function Top(s: seq<PlayingCard>): (t: int)
    requires |s| == 5 && (Descending(s) || IsWheel(s))
    ensures FIVE <= t <= ACE
  {
    if IsWheel(s) then FIVE
    else
      assert s[4].rank + 4 == s[0].rank;
      s[0].rank
  }

  /** The corrected scoring of a straight flush: a royal flush when topped
      by the Ace, and otherwise tie-breaks taken from its height. */
  function CorrectedStraightFlushOf(sf: seq<PlayingCard>): Evaluation
    requires |sf| == 5 && (Descending(sf) || IsWheel(sf))
  {
    var t := Top(sf);
    if t == ACE then Evaluation(RoyalFlush, [], sf)
    else Evaluation(StraightFlush, [t as nat, (t - 1) as nat], sf)
  }

  /** Corrected, straight flushes score in the order of their height, and
      equally exactly when their heights are equal. */
  lemma {:induction false} CorrectedStraightFlushOrder(a: seq<PlayingCard>, b: seq<PlayingCard>)
    requires |a| == 5 && (Descending(a) || IsWheel(a))
    requires |b| == 5 && (Descending(b) || IsWheel(b))
    ensures CorrectedStraightFlushOf(a).Value() < CorrectedStraightFlushOf(b).Value() <==> Top(a) < Top(b)
    ensures CorrectedStraightFlushOf(a).Value() == CorrectedStraightFlushOf(b).Value() <==> Top(a) == Top(b)
  {
    var ea := CorrectedStraightFlushOf(a);
    var eb := CorrectedStraightFlushOf(b);
    var da := [ea.category.Ordinal()] + ea.tieBreaks;
    var db := [eb.category.Ordinal()] + eb.tieBreaks;
    Ordinal89();
    assert HexDigits(da) && HexDigits(db);
    ValueFromOrder(da, db);
    PaddedStraightFlush(a);
    PaddedStraightFlush(b);
    TopDigitsOrder(Top(a), Top(b));
  }

  /** The padded digits of a corrected straight flush of the given height. */
  function TopDigits(t: int): (ds: seq<nat>)
    requires FIVE <= t <= ACE
    ensures |ds| == 6
  {
    if t == ACE then [9, 0, 0, 0, 0, 0] else [8, t as nat, (t - 1) as nat, 0, 0, 0]
  }

  /** The digits of two heights compare as the heights do. */
  lemma {:induction false} TopDigitsOrder(s: int, t: int)
    requires FIVE <= s <= ACE && FIVE <= t <= ACE
    ensures LexLess(TopDigits(s), TopDigits(t)) <==> s < t
    ensures TopDigits(s) == TopDigits(t) <==> s == t
  {
    var x := TopDigits(s);
    var y := TopDigits(t);
    if s == t {
      LexTrichotomy(x, x);
    } else if s == ACE || t == ACE {
      assert x[0] != y[0];
    } else {
      assert x[0] == y[0] && x[1..][0] != y[1..][0];
    }
  }

  lemma {:induction false} Ordinal89()
    ensures StraightFlush.Ordinal() == 8 && RoyalFlush.Ordinal() == 9
  {
  }

  /** The padded digit list of a corrected straight flush. */
  lemma {:induction false} PaddedStraightFlush(s: seq<PlayingCard>)
    requires |s| == 5 && (Descending(s) || IsWheel(s))
    ensures var e := CorrectedStraightFlushOf(s);
      Padded([e.category.Ordinal()] + e.tieBreaks) == TopDigits(Top(s))
  {
    Ordinal89();
  }
}
