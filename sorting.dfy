/** The list operations the evaluator leans on: Python's stable
    `sort(key=lambda x: x.rank.value, reverse=True)`, and the cards of one
    rank or one suit kept in list order. */
module RankOrder {
  import opened Cards

  predicate SortedDesc(s: seq<PlayingCard>)
  {
    forall i, j :: 0 <= i < j < |s| ==> s[i].rank >= s[j].rank
  }

  /** Strictly falling ranks: no two cards share a rank. */
  predicate StrictlyDesc(s: seq<PlayingCard>)
  {
    forall i, j :: 0 <= i < j < |s| ==> s[i].rank > s[j].rank
  }

  predicate OneRank(s: seq<PlayingCard>)
  {
    forall i :: 0 <= i < |s| ==> s[i].rank == s[0].rank
  }

  predicate OneSuit(s: seq<PlayingCard>)
  {
    forall i :: 0 <= i < |s| ==> s[i].suit == s[0].suit
  }

  /** The cards of rank `k`, in list order. */
  function OfRank(s: seq<PlayingCard>, k: int): (r: seq<PlayingCard>)
    ensures |r| <= |s|
    ensures forall i :: 0 <= i < |r| ==> r[i].rank == k
    ensures multiset(r) <= multiset(s)
  {
    if s == [] then []
    else
      assert s == [s[0]] + s[1..];
      if s[0].rank == k then [s[0]] + OfRank(s[1..], k) else OfRank(s[1..], k)
  }

  /** The cards of suit `t`, in list order. */
  function OfSuit(s: seq<PlayingCard>, t: Suit): (r: seq<PlayingCard>)
    ensures |r| <= |s|
    ensures forall c {:trigger c in r} :: c in r <==> c in s && c.suit == t
    ensures forall i :: 0 <= i < |r| ==> r[i].suit == t
    ensures multiset(r) <= multiset(s)
  {
    if s == [] then []
    else
      assert s == [s[0]] + s[1..];
      if s[0].suit == t then [s[0]] + OfSuit(s[1..], t) else OfSuit(s[1..], t)
  }

  /** Places `c` in front of the first card whose rank is not above its
      own, so that equal ranks keep their list order. */
  function InsertDesc(c: PlayingCard, t: seq<PlayingCard>): (r: seq<PlayingCard>)
    ensures multiset(r) == multiset(t) + multiset{c}
    ensures |r| == |t| + 1
    ensures r[0] == c || (t != [] && r[0] == t[0])
  {
    if t == [] || t[0].rank <= c.rank then [c] + t
    else
      assert t == [t[0]] + t[1..];
      [t[0]] + InsertDesc(c, t[1..])
  }

  lemma {:induction false} InsertDescSorted(c: PlayingCard, t: seq<PlayingCard>)
    requires SortedDesc(t)
    ensures SortedDesc(InsertDesc(c, t))
  {
    var r := InsertDesc(c, t);
    if t != [] && t[0].rank > c.rank {
      var r' := InsertDesc(c, t[1..]);
      InsertDescSorted(c, t[1..]);
      assert r == [t[0]] + r';
      if |t| > 1 {
        assert t[0].rank >= t[1].rank;
      }
      forall i, j | 0 <= i < j < |r|
        ensures r[i].rank >= r[j].rank
      {
        assert r[j] == r'[j - 1];
        if i == 0 {
          assert r'[0].rank >= r'[j - 1].rank || j == 1;
        } else {
          assert r[i] == r'[i - 1];
        }
      }
    } else {
      assert r == [c] + t;
      forall i, j | 0 <= i < j < |r|
        ensures r[i].rank >= r[j].rank
      {
        assert r[j] == t[j - 1];
        if i > 0 {
          assert r[i] == t[i - 1];
        } else if j > 1 {
          assert t[0].rank >= t[j - 1].rank;
        }
      }
    }
  }

  /** `sorted(s, key=rank, reverse=True)`. */
  function SortDesc(s: seq<PlayingCard>): (r: seq<PlayingCard>)
    ensures multiset(r) == multiset(s)
    ensures |r| == |s|
  {
    if s == [] then []
    else
      assert s == [s[0]] + s[1..];
      InsertDesc(s[0], SortDesc(s[1..]))
  }

  /** The sorted list falls in rank. */
  lemma {:induction false} SortDescSorted(s: seq<PlayingCard>)
    ensures SortedDesc(SortDesc(s))
  {
    if s != [] {
      SortDescSorted(s[1..]);
      InsertDescSorted(s[0], SortDesc(s[1..]));
    }
  }

  lemma {:induction false} InsertKeepsRankOrder(c: PlayingCard, t: seq<PlayingCard>, k: int)
    ensures OfRank(InsertDesc(c, t), k) == if c.rank == k then [c] + OfRank(t, k) else OfRank(t, k)
  {
    if t != [] && t[0].rank > c.rank {
      InsertKeepsRankOrder(c, t[1..], k);
      assert InsertDesc(c, t)[1..] == InsertDesc(c, t[1..]);
    }
  }

  /** The sort is stable: the cards of each rank keep their list order. */
  lemma {:induction false} SortDescStable(s: seq<PlayingCard>, k: int)
    ensures OfRank(SortDesc(s), k) == OfRank(s, k)
  {
    if s != [] {
      SortDescStable(s[1..], k);
      InsertKeepsRankOrder(s[0], SortDesc(s[1..]), k);
    }
  }

  /** A sorted list is left as it is. */
  lemma {:induction false} SortDescOfSorted(s: seq<PlayingCard>)
    requires SortedDesc(s)
    ensures SortDesc(s) == s
  {
    if s != [] {
      SortDescOfSorted(s[1..]);
    }
  }

  /** The first five of a sorted list are its five highest ranks: no card
      left behind outranks one taken. */
  lemma {:induction false} TopOfSorted(s: seq<PlayingCard>, n: nat)
    requires SortedDesc(s) && n <= |s|
    ensures forall c, d :: c in s[..n] && d in s[n..] ==> c.rank >= d.rank
  {
    forall c, d | c in s[..n] && d in s[n..]
      ensures c.rank >= d.rank
    {
      var i :| 0 <= i < n && s[..n][i] == c;
      var j :| 0 <= j < |s| - n && s[n..][j] == d;
      assert s[n + j] == d;
    }
  }

  /** A rank no card has selects nothing. */
  lemma {:induction false} OfRankAbsent(s: seq<PlayingCard>, k: int)
    requires forall i :: 0 <= i < |s| ==> s[i].rank != k
    ensures OfRank(s, k) == []
  {
    if s != [] {
      assert s[0].rank != k;
      OfRankAbsent(s[1..], k);
    }
  }

  /** A card is among the cards of rank `k` exactly when it is in the
      list and has that rank. */
  lemma {:induction false} OfRankMember(s: seq<PlayingCard>, k: int, c: PlayingCard)
    ensures c in OfRank(s, k) <==> c in s && c.rank == k
  {
    if s != [] {
      var x := s[0];
      var t := s[1..];
      assert s == [x] + t;
      OfRankCons(x, t, k);
      OfRankMember(t, k, c);
    }
  }

  lemma {:induction false} OfRankAppend(a: seq<PlayingCard>, b: seq<PlayingCard>, k: int)
    ensures OfRank(a + b, k) == OfRank(a, k) + OfRank(b, k)
  {
    if a != [] {
      var x := a[0];
      var t := a[1..];
      assert a == [x] + t && a + b == [x] + (t + b);
      OfRankCons(x, t + b, k);
      OfRankCons(x, t, k);
      OfRankAppend(t, b, k);
      if x.rank == k {
        assert [x] + (OfRank(t, k) + OfRank(b, k)) == ([x] + OfRank(t, k)) + OfRank(b, k);
      }
    } else {
      assert a + b == b;
    }
  }

  /** The cards of a rank in a list with a card in front. */
  lemma {:induction false} OfRankCons(x: PlayingCard, s: seq<PlayingCard>, k: int)
    ensures OfRank([x] + s, k) == if x.rank == k then [x] + OfRank(s, k) else OfRank(s, k)
  {
    assert ([x] + s)[0] == x && ([x] + s)[1..] == s;
  }

  /** The cards of a rank depend only on which cards there are, not on
      their order. */
  lemma {:induction false} OfRankPermutation(a: seq<PlayingCard>, b: seq<PlayingCard>, k: int)
    requires multiset(a) == multiset(b)
    ensures multiset(OfRank(a, k)) == multiset(OfRank(b, k))
    decreases |a|
  {
    if a != [] {
      var x := a[0];
      assert x in multiset(b);
      var j :| 0 <= j < |b| && b[j] == x;
      var b' := b[..j] + b[j + 1..];
      assert b == b[..j] + [x] + b[j + 1..];
      assert a == [x] + a[1..];
      assert multiset(b) == multiset(b[..j]) + multiset{x} + multiset(b[j + 1..]);
      assert multiset(a) == multiset{x} + multiset(a[1..]);
      assert multiset(b') == multiset(b[..j]) + multiset(b[j + 1..]);
      assert multiset(a[1..]) == multiset(a) - multiset{x};
      assert multiset(b') == multiset(b) - multiset{x};
      OfRankPermutation(a[1..], b', k);
      OfRankAppend(b[..j] + [x], b[j + 1..], k);
      OfRankAppend(b[..j], [x], k);
      OfRankAppend(b[..j], b[j + 1..], k);
      OfRankAppend([x], a[1..], k);
    } else {
      assert b == [];
    }
  }

  /** A list of one rank keeps all of itself for that rank and nothing for
      any other. */
  lemma {:induction false} OfRankUniform(s: seq<PlayingCard>, k: int, r: int)
    requires forall i :: 0 <= i < |s| ==> s[i].rank == k
    ensures OfRank(s, r) == if r == k then s else []
  {
    if s != [] {
      OfRankUniform(s[1..], k, r);
      assert s == [s[0]] + s[1..];
    }
  }

  /** Two cards of one rank at different places make at least two cards
      of that rank. */
  lemma {:induction false} TwoOfRank(s: seq<PlayingCard>, i: nat, j: nat)
    requires i < j < |s| && s[i].rank == s[j].rank
    ensures |OfRank(s, s[i].rank)| >= 2
  {
    var k := s[i].rank;
    assert s == s[..j] + s[j..];
    OfRankAppend(s[..j], s[j..], k);
    assert s[..j][i] == s[i] && s[j..][0] == s[j];
    OfRankMember(s[..j], k, s[i]);
    OfRankMember(s[j..], k, s[j]);
  }

  /** A sorted list with at most one card of each rank falls strictly. */
  lemma {:induction false} StrictFromSingles(s: seq<PlayingCard>)
    requires SortedDesc(s)
    requires forall r: int :: |OfRank(s, r)| <= 1
    ensures StrictlyDesc(s)
  {
    forall i, j | 0 <= i < j < |s|
      ensures s[i].rank > s[j].rank
    {
      if s[i].rank == s[j].rank {
        TwoOfRank(s, i, j);
      }
    }
  }
}
