/** `itertools.combinations(s, k)` and the five nested loops of the older
    simulator's `precompute`. Both walk the increasing position tuples
    `i < j < ...` of the list in lexicographic order and pick the elements
    at those positions: the first position at each value in turn, followed
    by every tuple of the positions after it. */
module Subsets {

  /** Puts `x` in front of every tuple. */
  function Prepend(x: nat, cs: seq<seq<nat>>): (r: seq<seq<nat>>)
    ensures |r| == |cs|
  {
    if cs == [] then [] else [[x] + cs[0]] + Prepend(x, cs[1..])
  }

  lemma {:induction false} PrependAt(x: nat, cs: seq<seq<nat>>)
    ensures forall i :: 0 <= i < |cs| ==> Prepend(x, cs)[i] == [x] + cs[i]
  {
    if cs != [] {
      PrependAt(x, cs[1..]);
      var r := Prepend(x, cs);
      assert r == [[x] + cs[0]] + Prepend(x, cs[1..]);
      forall i | 0 < i < |cs|
        ensures r[i] == [x] + cs[i]
      {
        assert r[i] == Prepend(x, cs[1..])[i - 1];
        assert cs[1..][i - 1] == cs[i];
      }
    }
  }

  /** The `k`-tuples of positions in `lo..hi`, in the order the nested
      loops `for i in range(lo, hi): for j in range(i + 1, hi): ...`
      visit them. */
  function Tuples(lo: nat, hi: nat, k: nat): seq<seq<nat>>
    decreases hi - lo
  {
    if k == 0 then [[]]
    else if lo >= hi then []
    else Prepend(lo, Tuples(lo + 1, hi, k - 1)) + Tuples(lo + 1, hi, k)
  }

  /** Pascal's triangle. */
  function Binom(n: nat, k: nat): nat
  {
    if k == 0 then 1
    else if n == 0 then 0
    else Binom(n - 1, k - 1) + Binom(n - 1, k)
  }

  lemma {:induction false} BinomStep(n: nat, k: nat)
    requires n > 0 && k > 0
    ensures Binom(n, k) == Binom(n - 1, k - 1) + Binom(n - 1, k)
  {
  }

  lemma {:induction false} TuplesSplit(lo: nat, hi: nat, k: nat)
    requires k > 0 && lo < hi
    ensures Tuples(lo, hi, k) ==
      Prepend(lo, Tuples(lo + 1, hi, k - 1)) + Tuples(lo + 1, hi, k)
  {
  }

  /** There are `Binom(hi - lo, k)` tuples. */
  lemma {:induction false} TuplesCount(lo: nat, hi: nat, k: nat)
    requires lo <= hi
    ensures |Tuples(lo, hi, k)| == Binom(hi - lo, k)
    decreases hi - lo
  {
    if k > 0 && lo < hi {
      TuplesCount(lo + 1, hi, k - 1);
      TuplesCount(lo + 1, hi, k);
      TuplesSplit(lo, hi, k);
      BinomStep(hi - lo, k);
    }
  }

  /** `k * Binom(n, k) == n * Binom(n - 1, k - 1)`. */
  lemma {:induction false} Absorption(n: nat, k: nat)
    requires n >= 1 && k >= 1
    ensures k * Binom(n, k) == n * Binom(n - 1, k - 1)
    decreases n
  {
    var a := Binom(n - 1, k - 1);
    if n >= 2 && k >= 2 {
      var b := Binom(n - 1, k);
      var c := Binom(n - 2, k - 2);
      var d := Binom(n - 2, k - 1);
      assert Binom(n, k) == a + b;
      assert a == c + d;
      Absorption(n - 1, k);
      Absorption(n - 1, k - 1);
      assert k * b == (n - 1) * d;
      assert (k - 1) * a == (n - 1) * c;
      Distribute(k, a, b);
      Distribute(n - 1, c, d);
      Successor(k - 1, a);
      Successor(n - 1, a);
    } else if k == 1 {
      BinomOne(n);
    } else {
      BinomStep(n, k);
    }
  }

  lemma {:induction false} Distribute(k: nat, a: nat, b: nat)
    ensures k * (a + b) == k * a + k * b
  {
  }

  lemma {:induction false} Successor(k: nat, a: nat)
    ensures (k + 1) * a == a + k * a
  {
  }

  lemma {:induction false} BinomOne(n: nat)
    ensures Binom(n, 1) == n
  {
    if n > 0 {
      BinomOne(n - 1);
    }
  }

  /** A deck of 52 cards has 2,598,960 hands of five. */
  lemma {:induction false} FiveCardHands()
    ensures Binom(52, 5) == 2598960
  {
    BinomOne(48);
    Absorption(49, 2);
    assert Binom(49, 2) == 1176;
    Absorption(50, 3);
    assert Binom(50, 3) == 19600;
    Absorption(51, 4);
    assert Binom(51, 4) == 249900;
    Absorption(52, 5);
  }

  /** `combinations(cards, 5)` of a player's seven cards yields 21 hands. */
  lemma {:induction false} FiveOfSeven<T>(cards: seq<T>)
    requires |cards| == 7
    ensures |Combinations(cards, 5)| == 21
  {
    CombinationsSpec(cards, 5);
    SevenChooseFive();
  }

  lemma {:induction false} SevenChooseFive()
    ensures Binom(7, 5) == 21
  {
    BinomOne(3);
    Absorption(4, 2);
    assert Binom(4, 2) == 6;
    Absorption(5, 3);
    assert Binom(5, 3) == 10;
    Absorption(6, 4);
    assert Binom(6, 4) == 15;
    Absorption(7, 5);
  }

  // ---------------------------------------------------------------------
  // The tuples are exactly the increasing tuples, each visited once

  predicate Increasing(c: seq<nat>)
  {
    forall i, j :: 0 <= i < j < |c| ==> c[i] < c[j]
  }

  predicate Within(c: seq<nat>, lo: nat, hi: nat)
  {
    forall i :: 0 <= i < |c| ==> lo <= c[i] < hi
  }

  predicate NoRepeats(cs: seq<seq<nat>>)
  {
    forall i, j :: 0 <= i < j < |cs| ==> cs[i] != cs[j]
  }

  /** A member of `Prepend(x, cs)` is `x` followed by a member of `cs`. */
  lemma {:induction false} PrependMember(x: nat, cs: seq<seq<nat>>, c: seq<nat>)
    requires c in Prepend(x, cs)
    ensures c != [] && c == [x] + c[1..] && c[1..] in cs
  {
    var p := Prepend(x, cs);
    PrependAt(x, cs);
    var i :| 0 <= i < |p| && p[i] == c;
    assert c[1..] == cs[i];
  }

  /** A tuple headed by `x` increases within `lo..hi` iff its tail
      increases within `x + 1..hi`. */
  lemma {:induction false} IncreasingCons(x: nat, d: seq<nat>, lo: nat, hi: nat)
    requires lo <= x < hi
    ensures Increasing([x] + d) && Within([x] + d, lo, hi) <==>
      Increasing(d) && Within(d, x + 1, hi)
  {
    var c := [x] + d;
    if Increasing(d) && Within(d, x + 1, hi) {
      forall i, j | 0 <= i < j < |c|
        ensures c[i] < c[j]
      {
        assert c[j] == d[j - 1];
        if i > 0 {
          assert c[i] == d[i - 1];
        }
      }
      forall i | 0 <= i < |c|
        ensures lo <= c[i] < hi
      {
        if i > 0 {
          assert c[i] == d[i - 1];
        }
      }
    }
    if Increasing(c) && Within(c, lo, hi) {
      forall i, j | 0 <= i < j < |d|
        ensures d[i] < d[j]
      {
        assert c[i + 1] == d[i] && c[j + 1] == d[j];
      }
      forall i | 0 <= i < |d|
        ensures x + 1 <= d[i] < hi
      {
        assert c[0] == x && c[i + 1] == d[i];
      }
    }
  }

  /** A tuple of `lo..hi` either starts at `lo` and continues with a
      tuple of `lo + 1..hi`, or is a tuple of `lo + 1..hi`. */
  lemma {:induction false} TuplesMember(lo: nat, hi: nat, k: nat, c: seq<nat>)
    requires k > 0 && c in Tuples(lo, hi, k)
    ensures lo < hi
    ensures (c != [] && c[0] == lo && c[1..] in Tuples(lo + 1, hi, k - 1))
      || c in Tuples(lo + 1, hi, k)
  {
    if lo < hi {
      TuplesSplit(lo, hi, k);
      var a := Tuples(lo + 1, hi, k - 1);
      if c in Prepend(lo, a) {
        PrependMember(lo, a, c);
      }
    }
  }

  /** The converse of `TuplesMember`. */
  lemma {:induction false} TuplesInclude(lo: nat, hi: nat, k: nat, c: seq<nat>)
    requires k > 0 && lo < hi
    requires (c != [] && c[0] == lo && c[1..] in Tuples(lo + 1, hi, k - 1))
      || c in Tuples(lo + 1, hi, k)
    ensures c in Tuples(lo, hi, k)
  {
    TuplesSplit(lo, hi, k);
    var a := Tuples(lo + 1, hi, k - 1);
    if c !in Tuples(lo + 1, hi, k) {
      var i :| 0 <= i < |a| && a[i] == c[1..];
      assert c == [lo] + c[1..];
      PrependAt(lo, a);
      assert Prepend(lo, a)[i] == c;
    }
  }

  /** Every tuple of positions in `lo..hi` is an increasing `k`-tuple of
      such positions. */
  lemma {:induction false} TuplesSound(lo: nat, hi: nat, k: nat, c: seq<nat>)
    requires c in Tuples(lo, hi, k)
    ensures |c| == k && Increasing(c) && Within(c, lo, hi)
  {
    var i :| 0 <= i < |Tuples(lo, hi, k)| && Tuples(lo, hi, k)[i] == c;
    TuplesSoundAt(lo, hi, k, i);
  }

  /** `TuplesSound`, by position in the enumeration. */
  lemma {:induction false} TuplesSoundAt(lo: nat, hi: nat, k: nat, i: nat)
    requires i < |Tuples(lo, hi, k)|
    ensures var c := Tuples(lo, hi, k)[i];
      |c| == k && Increasing(c) && Within(c, lo, hi)
    decreases hi - lo, 1
  {
    if k == 0 {
      assert Tuples(lo, hi, k) == [[]];
    } else if lo < hi {
      TuplesSplit(lo, hi, k);
      var a := Tuples(lo + 1, hi, k - 1);
      if i < |a| {
        HeadSoundAt(lo, hi, k - 1, i);
      } else {
        TuplesSoundAt(lo + 1, hi, k, i - |a|);
      }
    }
  }

  /** The tuples headed by `lo` are sound when their tails are. */
  lemma {:induction false} HeadSoundAt(lo: nat, hi: nat, m: nat, i: nat)
    requires lo < hi && i < |Tuples(lo + 1, hi, m)|
    ensures var c := Prepend(lo, Tuples(lo + 1, hi, m))[i];
      |c| == m + 1 && Increasing(c) && Within(c, lo, hi)
    decreases hi - lo, 0
  {
    var a := Tuples(lo + 1, hi, m);
    PrependAt(lo, a);
    TuplesSoundAt(lo + 1, hi, m, i);
    var c := [lo] + a[i];
    assert c[1..] == a[i];
    HeadCons(c, lo, hi);
  }

  /** A tuple whose tail increases above its head increases. */
  lemma {:induction false} HeadCons(c: seq<nat>, lo: nat, hi: nat)
    requires c != [] && lo <= c[0] < hi
    requires Increasing(c[1..]) && Within(c[1..], c[0] + 1, hi)
    ensures Increasing(c) && Within(c, lo, hi)
  {
    var d := c[1..];
    forall i, j | 0 <= i < j < |c|
      ensures c[i] < c[j]
    {
      assert c[j] == d[j - 1];
      if i > 0 {
        assert c[i] == d[i - 1];
      }
    }
    forall i | 0 <= i < |c|
      ensures lo <= c[i] < hi
    {
      if i > 0 {
        assert c[i] == d[i - 1];
      }
    }
  }

  /** Every increasing `k`-tuple of positions in `lo..hi` is one of the
      tuples. */
  lemma {:induction false} TuplesComplete(lo: nat, hi: nat, k: nat, c: seq<nat>)
    requires |c| == k && Increasing(c) && Within(c, lo, hi)
    ensures c in Tuples(lo, hi, k)
    decreases hi - lo
  {
    if k == 0 {
      assert c == [];
    } else {
      assert lo <= c[0] < hi;
      var d := c[1..];
      assert c == [c[0]] + d;
      IncreasingCons(c[0], d, lo, hi);
      if c[0] == lo {
        TuplesComplete(lo + 1, hi, k - 1, d);
      } else {
        forall i | 0 <= i < |c|
          ensures lo + 1 <= c[i] < hi
        {
          if i > 0 {
            assert c[0] < c[i];
          }
        }
        TuplesComplete(lo + 1, hi, k, c);
      }
      TuplesInclude(lo, hi, k, c);
    }
  }

  /** The tuples of positions in `lo..hi` are exactly the increasing
      `k`-tuples of those positions. */
  lemma {:induction false} PositionTuples(lo: nat, hi: nat, k: nat, c: seq<nat>)
    ensures c in Tuples(lo, hi, k) <==>
      |c| == k && Increasing(c) && Within(c, lo, hi)
  {
    if c in Tuples(lo, hi, k) {
      TuplesSound(lo, hi, k, c);
    }
    if |c| == k && Increasing(c) && Within(c, lo, hi) {
      TuplesComplete(lo, hi, k, c);
    }
  }

  /** Each tuple is visited once. */
  lemma {:induction false} TuplesOnce(lo: nat, hi: nat, k: nat)
    ensures NoRepeats(Tuples(lo, hi, k))
    decreases hi - lo
  {
    if k > 0 && lo < hi {
      var a := Tuples(lo + 1, hi, k - 1);
      var b := Tuples(lo + 1, hi, k);
      var p := Prepend(lo, a);
      PrependAt(lo, a);
      TuplesSplit(lo, hi, k);
      TuplesOnce(lo + 1, hi, k - 1);
      TuplesOnce(lo + 1, hi, k);
      var all := p + b;
      forall i, j | 0 <= i < j < |all|
        ensures all[i] != all[j]
      {
        if j < |p| {
          assert all[i] == [lo] + a[i] && all[j] == [lo] + a[j];
          assert all[i][1..] == a[i] && all[j][1..] == a[j];
        } else if i >= |p| {
          assert all[i] == b[i - |p|] && all[j] == b[j - |p|];
        } else {
          var e := b[j - |p|];
          assert all[j] == e && e in b;
          TuplesSound(lo + 1, hi, k, e);
          assert all[i][0] == lo;
        }
      }
    }
  }

  /** Every tuple has `k` positions within `lo..hi`. */
  lemma {:induction false} TuplesWithin(lo: nat, hi: nat, k: nat)
    ensures forall j :: 0 <= j < |Tuples(lo, hi, k)| ==>
      |Tuples(lo, hi, k)[j]| == k && Within(Tuples(lo, hi, k)[j], lo, hi)
  {
    var cs := Tuples(lo, hi, k);
    forall j | 0 <= j < |cs|
      ensures |cs[j]| == k && Within(cs[j], lo, hi)
    {
      TuplesSound(lo, hi, k, cs[j]);
    }
  }

  // ---------------------------------------------------------------------
  // Picking the elements at the positions

  /** The elements of `s` at the positions `c`. */
  function Pick<T>(s: seq<T>, c: seq<nat>): (r: seq<T>)
    requires Within(c, 0, |s|)
    ensures |r| == |c| && forall i :: 0 <= i < |c| ==> r[i] == s[c[i]]
  {
    if c == [] then [] else [s[c[0]]] + Pick(s, c[1..])
  }

  /** `Pick` over a list of position tuples. */
  function PickAll<T>(s: seq<T>, cs: seq<seq<nat>>): (r: seq<seq<T>>)
    requires forall j :: 0 <= j < |cs| ==> Within(cs[j], 0, |s|)
    ensures |r| == |cs| && forall j :: 0 <= j < |cs| ==> r[j] == Pick(s, cs[j])
  {
    if cs == [] then [] else [Pick(s, cs[0])] + PickAll(s, cs[1..])
  }

  /** `itertools.combinations(s, k)`. */
  function Combinations<T>(s: seq<T>, k: nat): seq<seq<T>>
  {
    TuplesWithin(0, |s|, k);
    PickAll(s, Tuples(0, |s|, k))
  }

  /** Picking increasing positions takes a sub-multiset of the list. */
  lemma {:induction false} PickSubMultiset<T>(s: seq<T>, c: seq<nat>, lo: nat)
    requires lo <= |s| && Increasing(c) && Within(c, lo, |s|)
    ensures multiset(Pick(s, c)) <= multiset(s[lo..])
    decreases |s| - lo
  {
    if c != [] {
      assert lo <= c[0] < |s|;
      var d := c[1..];
      assert c == [c[0]] + d;
      IncreasingCons(c[0], d, lo, |s|);
      assert s[lo..] == [s[lo]] + s[lo + 1..];
      if c[0] == lo {
        PickSubMultiset(s, d, lo + 1);
        assert Pick(s, c) == [s[lo]] + Pick(s, d);
      } else {
        forall i | 0 <= i < |c|
          ensures lo + 1 <= c[i] < |s|
        {
          if i > 0 {
            assert c[0] < c[i];
          }
        }
        PickSubMultiset(s, c, lo + 1);
      }
    }
  }

  /** `combinations(s, k)` yields `Binom(|s|, k)` selections, each of `k`
      elements drawn from `s` without reuse. */
  lemma {:induction false} CombinationsSpec<T>(s: seq<T>, k: nat)
    ensures |Combinations(s, k)| == Binom(|s|, k)
    ensures forall j :: 0 <= j < |Combinations(s, k)| ==>
      |Combinations(s, k)[j]| == k &&
      multiset(Combinations(s, k)[j]) <= multiset(s)
  {
    var cs := Tuples(0, |s|, k);
    TuplesCount(0, |s|, k);
    TuplesWithin(0, |s|, k);
    var r := Combinations(s, k);
    forall j | 0 <= j < |r|
      ensures |r[j]| == k && multiset(r[j]) <= multiset(s)
    {
      TuplesSound(0, |s|, k, cs[j]);
      PickSubMultiset(s, cs[j], 0);
      assert s[0..] == s;
    }
  }
}
