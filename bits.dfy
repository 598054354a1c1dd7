/** Python's unbounded non-negative integers seen as bit strings: powers of
    two, the bitwise OR used to build card masks and hand values, and the
    lowest set bit that `unhash_cards` peels off. */
module Bits {

  function Pow2(k: nat): (p: nat)
    ensures p >= 1
  {
    if k == 0 then 1 else 2 * Pow2(k - 1)
  }

  /** Python's `a | b` on non-negative integers, one binary digit at a time. */
  function Or(a: nat, b: nat): nat
    decreases a + b
  {
    if a == 0 then b
    else if b == 0 then a
    else 2 * Or(a / 2, b / 2) + (if a % 2 == 1 || b % 2 == 1 then 1 else 0)
  }

  /** The exponent of the lowest set bit of a positive integer. */
  function TrailingZeros(v: nat): nat
    requires v > 0
  {
    if v % 2 == 1 then 0 else 1 + TrailingZeros(v / 2)
  }

  /** Python's `v & -v` for a positive `v`: the lowest set bit on its own. */
  function LowBit(v: nat): nat
    requires v > 0
  {
    Pow2(TrailingZeros(v))
  }

  /** The positions of the 1-bits of `v`. */
  ghost function BitSet(v: nat): set<nat>
  {
    if v == 0 then {} else LowDigit(v) + Shifted(BitSet(v / 2))
  }

  ghost function LowDigit(v: nat): set<nat>
  {
    if v % 2 == 1 then {0} else {}
  }

  ghost function Shifted(s: set<nat>): set<nat>
  {
    set k | k in s :: k + 1
  }

  lemma {:induction false} BitSetStep(v: nat)
    ensures BitSet(v) == LowDigit(v) + Shifted(BitSet(v / 2))
  {
    if v == 0 {
      assert Shifted({}) == {};
    }
  }

  lemma {:induction false} ShiftedMember(s: set<nat>, k: nat)
    ensures k + 1 in Shifted(s) <==> k in s
    ensures 0 !in Shifted(s)
  {
  }

  lemma {:induction false} Pow2Add(a: nat, b: nat)
    ensures Pow2(a + b) == Pow2(a) * Pow2(b)
  {
    if a > 0 {
      Pow2Add(a - 1, b);
      assert Pow2(a + b) == 2 * Pow2(a - 1 + b);
    }
  }

  lemma {:induction false} Pow2Monotone(i: nat, j: nat)
    requires i < j
    ensures Pow2(i) < Pow2(j)
  {
    if i + 1 < j {
      Pow2Monotone(i, j - 1);
    }
  }

  lemma {:induction false} Pow2Injective(i: nat, j: nat)
    requires Pow2(i) == Pow2(j)
    ensures i == j
  {
    if i < j {
      Pow2Monotone(i, j);
    } else if j < i {
      Pow2Monotone(j, i);
    }
  }

  /** `|` is union on bit positions. */
  lemma {:induction false} BitSetOr(a: nat, b: nat)
    ensures BitSet(Or(a, b)) == BitSet(a) + BitSet(b)
    decreases a + b
  {
    if a != 0 && b != 0 {
      BitSetOr(a / 2, b / 2);
      OrHalves(a, b);
      BitSetStep(Or(a, b));
      BitSetStep(a);
      BitSetStep(b);
      ShiftedUnion(BitSet(a / 2), BitSet(b / 2));
    }
  }

  /** The low bit and the upper bits of `a | b` for positive `a`, `b`. */
  lemma {:induction false} OrHalves(a: nat, b: nat)
    requires a != 0 && b != 0
    ensures Or(a, b) / 2 == Or(a / 2, b / 2)
    ensures LowDigit(Or(a, b)) == LowDigit(a) + LowDigit(b)
  {
    var r := Or(a / 2, b / 2);
    var bit := if a % 2 == 1 || b % 2 == 1 then 1 else 0;
    assert Or(a, b) == 2 * r + bit;
    assert (2 * r + bit) / 2 == r && (2 * r + bit) % 2 == bit;
  }

  lemma {:induction false} ShiftedUnion(s: set<nat>, t: set<nat>)
    ensures Shifted(s + t) == Shifted(s) + Shifted(t)
  {
  }

  lemma {:induction false} BitSetPow2(k: nat)
    ensures BitSet(Pow2(k)) == {k}
  {
    if k > 0 {
      var p := Pow2(k - 1);
      calc {
        BitSet(Pow2(k));
        { assert Pow2(k) == 2 * p; }
        BitSet(2 * p);
        { BitSetDouble(p); }
        Shifted(BitSet(p));
        { BitSetPow2(k - 1); }
        Shifted({k - 1});
        { ShiftedSingleton(k - 1); }
        ({k});
      }
    }
  }

  /** Doubling shifts every bit up one position. */
  lemma {:induction false} BitSetDouble(p: nat)
    ensures BitSet(2 * p) == Shifted(BitSet(p))
  {
    if p == 0 {
      assert Shifted({}) == {};
    } else {
      BitSetStep(2 * p);
      assert (2 * p) / 2 == p && (2 * p) % 2 == 0;
    }
  }

  lemma {:induction false} ShiftedSingleton(k: nat)
    ensures Shifted({k}) == {k + 1}
  {
    assert k + 1 in Shifted({k});
  }

  lemma {:induction false} BitSetEmpty(v: nat)
    ensures BitSet(v) == {} <==> v == 0
  {
    if v > 0 && v % 2 == 0 {
      BitSetEmpty(v / 2);
      var k :| k in BitSet(v / 2);
      assert k + 1 in Shifted(BitSet(v / 2));
    }
  }

  /** A number is determined by its bit positions. */
  lemma {:induction false} BitSetInjective(a: nat, b: nat)
    requires BitSet(a) == BitSet(b)
    ensures a == b
    decreases a + b
  {
    BitSetEmpty(a);
    BitSetEmpty(b);
    if a != 0 && b != 0 {
      BitSetStep(a);
      BitSetStep(b);
      ShiftedMember(BitSet(a / 2), 0);
      ShiftedMember(BitSet(b / 2), 0);
      assert a % 2 == b % 2 by {
        assert 0 in BitSet(a) <==> a % 2 == 1;
        assert 0 in BitSet(b) <==> b % 2 == 1;
      }
      forall k: nat
        ensures k in BitSet(a / 2) <==> k in BitSet(b / 2)
      {
        ShiftedMember(BitSet(a / 2), k);
        ShiftedMember(BitSet(b / 2), k);
        assert k + 1 in BitSet(a) <==> k + 1 in BitSet(b);
      }
      BitSetInjective(a / 2, b / 2);
    }
  }

  /** `v < 2^n` exactly when every set bit of `v` is below `n`. */
  lemma {:induction false} BitSetBound(v: nat, n: nat)
    ensures v < Pow2(n) <==> forall k :: k in BitSet(v) ==> k < n
  {
    BitSetEmpty(v);
    if n > 0 && v > 0 {
      var p := Pow2(n - 1);
      assert Pow2(n) == 2 * p;
      assert v < 2 * p <==> v / 2 < p;
      BitSetBound(v / 2, n - 1);
      BitSetStep(v);
      if v < Pow2(n) {
        forall k | k in BitSet(v)
          ensures k < n
        {
          if k > 0 {
            ShiftedMember(BitSet(v / 2), k - 1);
          }
        }
      } else {
        var k :| k in BitSet(v / 2) && k >= n - 1;
        ShiftedMember(BitSet(v / 2), k);
        assert k + 1 in BitSet(v);
      }
    }
  }

  lemma {:induction false} BitSetAtLeast(v: nat, k: nat)
    requires k in BitSet(v)
    ensures v >= Pow2(k)
  {
    BitSetBound(v, k);
  }

  lemma {:induction false} BitSetAbove(v: nat, k: nat, n: nat)
    requires k in BitSet(v) && n <= k
    ensures v >= Pow2(n)
  {
    BitSetAtLeast(v, k);
    if n < k {
      Pow2Monotone(n, k);
    }
  }

  /** Removing the lowest bit removes exactly the least bit position. */
  lemma {:induction false} LowBitRemoved(v: nat)
    requires v > 0
    ensures TrailingZeros(v) in BitSet(v)
    ensures forall k :: k in BitSet(v) ==> TrailingZeros(v) <= k
    ensures LowBit(v) <= v
    ensures BitSet(v - LowBit(v)) == BitSet(v) - {TrailingZeros(v)}
  {
    if v % 2 == 1 {
      LowBitOdd(v);
    } else {
      LowBitRemoved(v / 2);
      LowBitEven(v);
    }
  }

  lemma {:induction false} LowBitOdd(v: nat)
    requires v % 2 == 1
    ensures TrailingZeros(v) == 0 && LowBit(v) == 1
    ensures 0 in BitSet(v)
    ensures BitSet(v - 1) == BitSet(v) - {0}
  {
    BitSetStep(v);
    BitSetStep(v - 1);
    assert (v - 1) / 2 == v / 2 && (v - 1) % 2 == 0;
    ShiftedMember(BitSet(v / 2), 0);
  }

  /** An even number's lowest bit is its half's, one position up. */
  lemma {:induction false} LowBitEven(v: nat)
    requires v > 0 && v % 2 == 0
    requires TrailingZeros(v / 2) in BitSet(v / 2)
    requires forall k :: k in BitSet(v / 2) ==> TrailingZeros(v / 2) <= k
    requires LowBit(v / 2) <= v / 2
    requires BitSet(v / 2 - LowBit(v / 2)) == BitSet(v / 2) - {TrailingZeros(v / 2)}
    ensures TrailingZeros(v) in BitSet(v)
    ensures forall k :: k in BitSet(v) ==> TrailingZeros(v) <= k
    ensures LowBit(v) <= v
    ensures BitSet(v - LowBit(v)) == BitSet(v) - {TrailingZeros(v)}
  {
    var h := v / 2;
    var t := TrailingZeros(v);
    assert t == TrailingZeros(h) + 1;
    assert LowBit(v) == 2 * LowBit(h);
    var w := v - LowBit(v);
    assert w == 2 * (h - LowBit(h));
    assert w / 2 == h - LowBit(h) && w % 2 == 0;
    BitSetStep(v);
    BitSetStep(w);
    ShiftedMember(BitSet(h), t - 1);
    EvenLeast(BitSet(v), BitSet(h), TrailingZeros(h));
    EvenRemoved(BitSet(v), BitSet(h), BitSet(w), BitSet(h - LowBit(h)), TrailingZeros(h));
  }

  lemma {:induction false} EvenLeast(sv: set<nat>, sh: set<nat>, th: nat)
    requires sv == {} + Shifted(sh)
    requires forall k :: k in sh ==> th <= k
    ensures forall k :: k in sv ==> th + 1 <= k
  {
    forall k | k in sv
      ensures th + 1 <= k
    {
      ShiftedMember(sh, k - 1);
    }
  }

  lemma {:induction false} EvenRemoved(sv: set<nat>, sh: set<nat>, sw: set<nat>, shw: set<nat>, th: nat)
    requires sv == {} + Shifted(sh) && sw == {} + Shifted(shw)
    requires shw == sh - {th}
    ensures sw == sv - {th + 1}
  {
    forall k: nat
      ensures k in sw <==> k in sv - {th + 1}
    {
      if k > 0 {
        ShiftedMember(sh, k - 1);
        ShiftedMember(shw, k - 1);
      } else {
        ShiftedMember(sh, 0);
        ShiftedMember(shw, 0);
      }
    }
  }

  /** OR-ing a number below `2^p` into a multiple of `2^p` is addition. */
  lemma {:induction false} OrDisjoint(q: nat, b: nat, p: nat)
    requires b < Pow2(p)
    ensures Or(q * Pow2(p), b) == q * Pow2(p) + b
  {
    if p > 0 && q > 0 && b > 0 {
      var a := q * Pow2(p);
      assert a == 2 * (q * Pow2(p - 1));
      assert a / 2 == q * Pow2(p - 1) && a % 2 == 0;
      OrDisjoint(q, b / 2, p - 1);
    }
  }
}
