/** `_get_rank_groups` and `_flatten_groups`: the cards grouped by rank,
    the groups ordered by size and then by rank, both highest first. */
module Groups {
  import opened Cards
  import opened RankOrder

  /** `_flatten_groups`: the groups one after the other. */
  function FlattenGroups(groups: seq<seq<PlayingCard>>): seq<PlayingCard>
  {
    if groups == [] then [] else groups[0] + FlattenGroups(groups[1..])
  }

  lemma {:induction false} FlattenAppend(a: seq<seq<PlayingCard>>, b: seq<seq<PlayingCard>>)
    ensures FlattenGroups(a + b) == FlattenGroups(a) + FlattenGroups(b)
  {
    if a != [] {
      FlattenAppend(a[1..], b);
      assert (a + b)[1..] == a[1..] + b;
    } else {
      assert a + b == b;
    }
  }

  /** The cards of rank `k` or above, in list order. */
  function AtLeast(s: seq<PlayingCard>, k: int): seq<PlayingCard>
  {
    if s == [] then []
    else if s[0].rank >= k then [s[0]] + AtLeast(s[1..], k)
    else AtLeast(s[1..], k)
  }

  lemma {:induction false} AtLeastSplit(s: seq<PlayingCard>, k: int)
    ensures multiset(AtLeast(s, k)) == multiset(OfRank(s, k)) + multiset(AtLeast(s, k + 1))
  {
    if s != [] {
      AtLeastSplit(s[1..], k);
    }
  }

  lemma {:induction false} AtLeastEnds(s: seq<PlayingCard>)
    ensures AtLeast(s, 2) == s
    ensures AtLeast(s, 15) == []
  {
    if s != [] {
      AtLeastEnds(s[1..]);
      assert s == [s[0]] + s[1..];
    }
  }

  /** The sort key `(len(x), x[0].rank.value)` of `g` is above that of `h`. */
  predicate KeyAbove(g: seq<PlayingCard>, h: seq<PlayingCard>)
  {
    g != [] && h != [] && (|g| > |h| || (|g| == |h| && g[0].rank > h[0].rank))
  }

  /** Every group is the full group of its rank in `cards`. */
  predicate GroupsOf(cards: seq<PlayingCard>, groups: seq<seq<PlayingCard>>)
  {
    forall g: seq<PlayingCard> :: g in groups ==> g != [] && g == OfRank(cards, g[0].rank)
  }

  /** The groups have pairwise different ranks. */
  predicate DistinctRanks(groups: seq<seq<PlayingCard>>)
  {
    forall i, j :: 0 <= i < j < |groups| ==> groups[i] != [] && groups[j] != [] && groups[i][0].rank != groups[j][0].rank
  }

  /** Strictly descending by the sort key. */
  predicate KeysDescending(groups: seq<seq<PlayingCard>>)
  {
    forall i, j :: 0 <= i < j < |groups| ==> KeyAbove(groups[i], groups[j])
  }

  /** Sorting by rank and grouping equal neighbours gives, for each rank
      from `k` up that occurs, the cards of that rank: the sort is stable,
      so they keep their list order. */
  function GroupsFrom(cards: seq<PlayingCard>, k: int): seq<seq<PlayingCard>>
    requires 2 <= k <= 15
    decreases 15 - k
  {
    if k == 15 then []
    else (if OfRank(cards, k) == [] then [] else [OfRank(cards, k)]) + GroupsFrom(cards, k + 1)
  }

  lemma {:induction false} GroupsFromMembers(cards: seq<PlayingCard>, k: int)
    requires 2 <= k <= 15
    ensures GroupsOf(cards, GroupsFrom(cards, k))
    decreases 15 - k
  {
    if k < 15 {
      GroupsFromMembers(cards, k + 1);
      var o := OfRank(cards, k);
      if o != [] {
        assert o[0].rank == k;
      }
    }
  }

  lemma {:induction false} GroupsFromRanks(cards: seq<PlayingCard>, k: int)
    requires 2 <= k <= 15
    ensures forall g: seq<PlayingCard> :: g in GroupsFrom(cards, k) ==> g != [] && g[0].rank >= k
    decreases 15 - k
  {
    if k < 15 {
      GroupsFromRanks(cards, k + 1);
      var o := OfRank(cards, k);
      if o != [] {
        assert o[0].rank == k;
      }
    }
  }

  lemma {:induction false} GroupsFromDistinct(cards: seq<PlayingCard>, k: int)
    requires 2 <= k <= 15
    ensures DistinctRanks(GroupsFrom(cards, k))
    decreases 15 - k
  {
    if k < 15 {
      GroupsFromDistinct(cards, k + 1);
      GroupsFromRanks(cards, k + 1);
      GroupsFromStep(cards, k);
    }
  }

  /** One step of `GroupsFrom`, stated without the recursion. */
  lemma {:induction false} GroupsFromStep(cards: seq<PlayingCard>, k: int)
    requires 2 <= k < 15
    requires DistinctRanks(GroupsFrom(cards, k + 1))
    requires forall g: seq<PlayingCard> :: g in GroupsFrom(cards, k + 1) ==> g != [] && g[0].rank >= k + 1
    ensures DistinctRanks(GroupsFrom(cards, k))
  {
    var o := OfRank(cards, k);
    var rest := GroupsFrom(cards, k + 1);
    if o != [] {
      assert o[0].rank == k;
      forall g: seq<PlayingCard> | g in rest
        ensures g != [] && g[0].rank > o[0].rank
      {
      }
      DistinctCons(o, rest);
    }
  }

  /** A group of a rank below all the others may go in front. */
  lemma {:induction false} DistinctCons(o: seq<PlayingCard>, rest: seq<seq<PlayingCard>>)
    requires o != [] && DistinctRanks(rest)
    requires forall g: seq<PlayingCard> :: g in rest ==> g != [] && g[0].rank > o[0].rank
    ensures DistinctRanks([o] + rest)
  {
    var gs: seq<seq<PlayingCard>> := [o] + rest;
    forall i, j | 0 <= i < j < |gs|
      ensures gs[i] != [] && gs[j] != [] && gs[i][0].rank != gs[j][0].rank
    {
      assert gs[j] == rest[j - 1] && gs[j] in rest;
      if i > 0 {
        assert gs[i] == rest[i - 1];
        assert rest[i - 1][0].rank != rest[j - 1][0].rank;
      } else {
        assert gs[i] == o;
      }
    }
    assert DistinctRanks(gs);
  }

  lemma {:induction false} GroupsFromFlatten(cards: seq<PlayingCard>, k: int)
    requires 2 <= k <= 15
    ensures multiset(FlattenGroups(GroupsFrom(cards, k))) == multiset(AtLeast(cards, k))
    decreases 15 - k
  {
    if k == 15 {
      AtLeastEnds(cards);
    } else {
      GroupsFromFlatten(cards, k + 1);
      AtLeastSplit(cards, k);
      var o := OfRank(cards, k);
      var rest := GroupsFrom(cards, k + 1);
      if o != [] {
        assert GroupsFrom(cards, k) == [o] + rest;
        assert ([o] + rest)[1..] == rest;
      } else {
        assert GroupsFrom(cards, k) == rest;
      }
    }
  }

  /** Inserts `g` in front of the first group whose key it is above. */
  function InsertGroup(g: seq<PlayingCard>, t: seq<seq<PlayingCard>>): (r: seq<seq<PlayingCard>>)
    ensures multiset(r) == multiset(t) + multiset{g}
    ensures |r| == |t| + 1
  {
    if t == [] || KeyAbove(g, t[0]) then [g] + t
    else
      assert t == [t[0]] + t[1..];
      [t[0]] + InsertGroup(g, t[1..])
  }

  /** `groups.sort(key=lambda x: (len(x), x[0].rank.value), reverse=True)`:
      the keys of the groups differ, so any correct sort gives this order. */
  function SortGroups(groups: seq<seq<PlayingCard>>): (r: seq<seq<PlayingCard>>)
    ensures multiset(r) == multiset(groups)
    ensures |r| == |groups|
  {
    if groups == [] then []
    else
      assert groups == [groups[0]] + groups[1..];
      InsertGroup(groups[0], SortGroups(groups[1..]))
  }

  lemma {:induction false} InsertGroupDescending(g: seq<PlayingCard>, t: seq<seq<PlayingCard>>)
    requires g != [] && KeysDescending(t)
    requires forall h: seq<PlayingCard> :: h in t ==> h != [] && h[0].rank != g[0].rank
    ensures KeysDescending(InsertGroup(g, t))
  {
    var r := InsertGroup(g, t);
    if t == [] || KeyAbove(g, t[0]) {
      forall i, j | 0 <= i < j < |r|
        ensures KeyAbove(r[i], r[j])
      {
        assert r[j] == t[j - 1];
        if i > 0 {
          assert r[i] == t[i - 1];
        } else if j > 1 {
          assert KeyAbove(t[0], t[j - 1]);
        }
      }
    } else {
      assert t[0] in t;
      assert KeyAbove(t[0], g);
      var r' := InsertGroup(g, t[1..]);
      forall i, j | 0 <= i < j < |t| - 1
        ensures KeyAbove(t[1..][i], t[1..][j])
      {
        assert t[1..][i] == t[i + 1] && t[1..][j] == t[j + 1];
      }
      forall h: seq<PlayingCard> | h in t[1..]
        ensures h != [] && h[0].rank != g[0].rank
      {
        assert h in t;
      }
      InsertGroupDescending(g, t[1..]);
      forall i, j | 0 <= i < j < |r|
        ensures KeyAbove(r[i], r[j])
      {
        assert r[j] == r'[j - 1];
        if i > 0 {
          assert r[i] == r'[i - 1];
        } else {
          assert r[j] in multiset(r');
          if r[j] != g {
            assert r[j] in t[1..];
            var m :| 0 <= m < |t| - 1 && t[1..][m] == r[j];
            assert t[m + 1] == r[j];
          }
        }
      }
    }
  }

  lemma {:induction false} SortGroupsDescending(groups: seq<seq<PlayingCard>>)
    requires DistinctRanks(groups)
    ensures KeysDescending(SortGroups(groups))
  {
    if |groups| > 1 {
      var rest: seq<seq<PlayingCard>> := groups[1..];
      var g := groups[0];
      assert g != [] by {
        assert groups[0] != [] && groups[1] != [];
      }
      forall i, j | 0 <= i < j < |rest|
        ensures rest[i] != [] && rest[j] != [] && rest[i][0].rank != rest[j][0].rank
      {
        assert rest[i] == groups[i + 1] && rest[j] == groups[j + 1];
      }
      SortGroupsDescending(rest);
      forall h: seq<PlayingCard> | h in SortGroups(rest)
        ensures h != [] && h[0].rank != g[0].rank
      {
        assert h in multiset(SortGroups(rest));
        assert h in multiset(rest);
        assert h in rest;
        var m :| 0 <= m < |rest| && rest[m] == h;
        assert groups[m + 1] == h;
        assert 0 < m + 1 < |groups|;
      }
      InsertGroupDescending(g, SortGroups(rest));
    } else if |groups| == 1 {
      assert SortGroups(groups) == [groups[0]];
    }
  }

  lemma {:induction false} FlattenInsert(g: seq<PlayingCard>, t: seq<seq<PlayingCard>>)
    ensures multiset(FlattenGroups(InsertGroup(g, t))) == multiset(g) + multiset(FlattenGroups(t))
  {
    if !(t == [] || KeyAbove(g, t[0])) {
      FlattenInsert(g, t[1..]);
      assert InsertGroup(g, t)[1..] == InsertGroup(g, t[1..]);
    }
  }

  lemma {:induction false} FlattenSort(groups: seq<seq<PlayingCard>>)
    ensures multiset(FlattenGroups(SortGroups(groups))) == multiset(FlattenGroups(groups))
  {
    if groups != [] {
      FlattenSort(groups[1..]);
      FlattenInsert(groups[0], SortGroups(groups[1..]));
    }
  }

  /** `_get_rank_groups`. */
  function RankGroups(cards: seq<PlayingCard>): (groups: seq<seq<PlayingCard>>)
    ensures AllNonEmpty(groups)
  {
    var gs := GroupsFrom(cards, 2);
    GroupsFromMembers(cards, 2);
    SortKeepsNonEmpty(gs);
    SortGroups(gs)
  }

  /** Sorting moves groups about and so keeps them all non-empty. */
  lemma {:induction false} SortKeepsNonEmpty(gs: seq<seq<PlayingCard>>)
    requires AllNonEmpty(gs)
    ensures AllNonEmpty(SortGroups(gs))
  {
    var sorted := SortGroups(gs);
    forall g | g in sorted
      ensures g != []
    {
      assert g in multiset(sorted);
      assert g in multiset(gs);
      assert g in gs;
    }
  }

  /** The rank groups hold every card once, each group is all the cards of
      its rank in list order, and the groups go down strictly by size and
      then by rank. */
  lemma {:induction false} RankGroupsSpec(cards: seq<PlayingCard>)
    ensures GroupsOf(cards, RankGroups(cards))
    ensures KeysDescending(RankGroups(cards))
    ensures multiset(FlattenGroups(RankGroups(cards))) == multiset(cards)
  {
    var gs := GroupsFrom(cards, 2);
    GroupsFromMembers(cards, 2);
    GroupsFromDistinct(cards, 2);
    GroupsFromFlatten(cards, 2);
    AtLeastEnds(cards);
    SortGroupsDescending(gs);
    FlattenSort(gs);
    forall g: seq<PlayingCard> | g in RankGroups(cards)
      ensures g != [] && g == OfRank(cards, g[0].rank)
    {
      assert g in multiset(SortGroups(gs));
    }
  }

  predicate AllNonEmpty(groups: seq<seq<PlayingCard>>)
  {
    forall g: seq<PlayingCard> :: g in groups ==> g != []
  }

  lemma {:induction false} FlattenMember(groups: seq<seq<PlayingCard>>, c: PlayingCard)
    ensures c in FlattenGroups(groups) <==> exists i :: 0 <= i < |groups| && c in groups[i]
  {
    if groups != [] {
      FlattenMember(groups[1..], c);
      if c in FlattenGroups(groups[1..]) {
        var i :| 0 <= i < |groups| - 1 && c in groups[1..][i];
        assert c in groups[i + 1];
      }
      if exists i :: 0 <= i < |groups| && c in groups[i] {
        var i :| 0 <= i < |groups| && c in groups[i];
        if i > 0 {
          assert groups[1..][i - 1] == groups[i];
        }
      }
    }
  }

  /** The groups after the first `n` hold the cards not in those `n`. */
  lemma {:induction false} FlattenSizes(groups: seq<seq<PlayingCard>>)
    ensures groups != [] ==> |FlattenGroups(groups)| == |groups[0]| + |FlattenGroups(groups[1..])|
    ensures |groups| >= 2 ==> |FlattenGroups(groups)| == |groups[0]| + |groups[1]| + |FlattenGroups(groups[2..])|
  {
    if |groups| >= 2 {
      assert groups[1..][1..] == groups[2..];
    }
  }

  /** What `_get_rank_groups` promises about its result. */
  predicate IsRankGrouping(cards: seq<PlayingCard>, groups: seq<seq<PlayingCard>>)
    ensures IsRankGrouping(cards, groups) ==> AllNonEmpty(groups)
  {
    && GroupsOf(cards, groups)
    && KeysDescending(groups)
    && multiset(FlattenGroups(groups)) == multiset(cards)
  }

  lemma {:induction false} RankGroupsIsGrouping(cards: seq<PlayingCard>)
    ensures IsRankGrouping(cards, RankGroups(cards))
  {
    RankGroupsSpec(cards);
  }

  /** Every rank that occurs has its group. */
  lemma {:induction false} GroupingComplete(cards: seq<PlayingCard>, groups: seq<seq<PlayingCard>>, r: int)
    requires IsRankGrouping(cards, groups) && OfRank(cards, r) != []
    ensures OfRank(cards, r) in groups
  {
    var c := OfRank(cards, r)[0];
    OfRankMember(cards, r, c);
    assert c in multiset(FlattenGroups(groups));
    FlattenMember(groups, c);
    var i :| 0 <= i < |groups| && c in groups[i];
    assert groups[i] in groups;
    var g := groups[i];
    OfRankMember(cards, g[0].rank, c);
  }

  /** No two groups share a rank. */
  lemma {:induction false} GroupingRanksDiffer(cards: seq<PlayingCard>, groups: seq<seq<PlayingCard>>, i: nat, j: nat)
    requires IsRankGrouping(cards, groups) && i < j < |groups|
    ensures groups[i] != [] && groups[j] != [] && groups[i][0].rank != groups[j][0].rank
  {
    assert groups[i] in groups && groups[j] in groups;
    assert KeyAbove(groups[i], groups[j]);
  }

  /** The cards of rank `r` in a grouping: those of the first group and
      those of the rest. */
  lemma {:induction false} GroupingSplit(cards: seq<PlayingCard>, groups: seq<seq<PlayingCard>>, r: int)
    requires IsRankGrouping(cards, groups) && groups != []
    ensures |OfRank(cards, r)| == |OfRank(groups[0], r)| + |OfRank(FlattenGroups(groups[1..]), r)|
  {
    OfRankAppend(groups[0], FlattenGroups(groups[1..]), r);
    OfRankPermutation(FlattenGroups(groups), cards, r);
  }

  /** When the second group has fewer than two cards, so has every later
      one: the cards after the first group have at most one card of each
      rank. */
  lemma {:induction false} SinglesAfterFirst(cards: seq<PlayingCard>, groups: seq<seq<PlayingCard>>, r: int)
    requires IsRankGrouping(cards, groups) && |groups| >= 2 && |groups[1]| < 2
    ensures |OfRank(FlattenGroups(groups[1..]), r)| <= 1
  {
    assert groups[0] in groups;
    var k0 := groups[0][0].rank;
    GroupingSplit(cards, groups, r);
    OfRankUniform(groups[0], k0, r);
    if r != k0 && OfRank(cards, r) != [] {
      GroupingComplete(cards, groups, r);
      var m :| 0 <= m < |groups| && groups[m] == OfRank(cards, r);
      assert groups[m][0].rank == r;
      if m > 1 {
        assert KeyAbove(groups[1], groups[m]);
      }
    }
  }

  /** Every group holds cards of a single rank. */
  lemma {:induction false} GroupOneRank(cards: seq<PlayingCard>, groups: seq<seq<PlayingCard>>, i: nat)
    requires IsRankGrouping(cards, groups) && i < |groups|
    ensures groups[i] != [] && OneRank(groups[i])
  {
    assert groups[i] in groups;
  }

  /** A card of a later group differs in rank from an earlier group. */
  lemma {:induction false} RestRanks(cards: seq<PlayingCard>, groups: seq<seq<PlayingCard>>, n: nat, m: nat, c: PlayingCard)
    requires IsRankGrouping(cards, groups) && n < m <= |groups|
    requires c in FlattenGroups(groups[m..])
    ensures groups[n] != [] && c.rank != groups[n][0].rank
  {
    FlattenMember(groups[m..], c);
    var i :| 0 <= i < |groups| - m && c in groups[m..][i];
    assert groups[m..][i] == groups[m + i];
    GroupOneRank(cards, groups, m + i);
    GroupingRanksDiffer(cards, groups, n, m + i);
  }
}
