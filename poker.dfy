/** Poker.py: the ten hand categories, the packing of a category and its
    tie-break ranks into one integer (one hex digit each), and the result
    of a game. */
module Poker {
  import opened Bits
  import opened Outcomes
  import opened Cards

  /** `HandRank`, listed from the lowest ordinal to the highest. */
  datatype HandRank =
    | HighCard | OnePair | TwoPair | ThreeOfAKind | Straight
    | Flush | FullHouse | FourOfAKind | StraightFlush | RoyalFlush
  {
    function Ordinal(): (n: nat)
      ensures n < 10
    {
      match this
      case HighCard => 0
      case OnePair => 1
      case TwoPair => 2
      case ThreeOfAKind => 3
      case Straight => 4
      case Flush => 5
      case FullHouse => 6
      case FourOfAKind => 7
      case StraightFlush => 8
      case RoyalFlush => 9
    }
  }

  /** `HandRank(n)`: the category with ordinal `n`; any other `n` raises. */
  function HandRankOf(n: int): (r: Result<HandRank>)
    ensures r.Ok? <==> 0 <= n < 10
    ensures r.Ok? ==> r.value.Ordinal() == n
    ensures r.Err? ==> r.error == NoSuchHandRank(n)
  {
    if n == 0 then Ok(HighCard)
    else if n == 1 then Ok(OnePair)
    else if n == 2 then Ok(TwoPair)
    else if n == 3 then Ok(ThreeOfAKind)
    else if n == 4 then Ok(Straight)
    else if n == 5 then Ok(Flush)
    else if n == 6 then Ok(FullHouse)
    else if n == 7 then Ok(FourOfAKind)
    else if n == 8 then Ok(StraightFlush)
    else if n == 9 then Ok(RoyalFlush)
    else Err(NoSuchHandRank(n))
  }

  /** Every category has its own ordinal, and `HandRank(h.value)` is `h`. */
  lemma {:induction false} HandRankOrdinals(h: HandRank, g: HandRank)
    ensures HandRankOf(h.Ordinal()) == Ok(h)
    ensures h.Ordinal() == g.Ordinal() <==> h == g
  {
  }

  /** `HAND_RANK_HEX` .. `FIFTH_KICKER_HEX`: entry `i` of the list goes to
      hex digit `5 - i`. */
  const HEX_DIGIT_BITS: nat := 4
  const HAND_RANK_HEX: nat := 5

  function HexShift(i: nat): nat
    requires i < 6
  {
    (HAND_RANK_HEX - i) * HEX_DIGIT_BITS
  }

  /** The accumulator of `value_from` after its first `n` steps. */
  function PackPrefix(vs: seq<nat>, n: nat): nat
    requires n <= |vs| && n <= 6
  {
    if n == 0 then 0 else Or(PackPrefix(vs, n - 1), vs[n - 1] * Pow2(HexShift(n - 1)))
  }

  /** `HandRank.value_from`: `zip` stops after six entries. */
  function ValueFrom(vs: seq<nat>): nat
  {
    PackPrefix(vs, if |vs| < 6 then |vs| else 6)
  }

  predicate HexDigits(vs: seq<nat>)
  {
    forall i :: 0 <= i < |vs| ==> vs[i] < 16
  }

  /** The digit list `value_from` encodes: the first six entries, padded
      with zeros up to six. */
  function Padded(vs: seq<nat>): (ds: seq<nat>)
    ensures |ds| == 6
    ensures forall i :: 0 <= i < 6 ==> ds[i] == (if i < |vs| then vs[i] else 0)
  {
    if |vs| >= 6 then vs[..6] else vs + Zeros(6 - |vs|)
  }

  function Zeros(k: nat): (z: seq<nat>)
    ensures |z| == k && forall i :: 0 <= i < k ==> z[i] == 0
  {
    if k == 0 then [] else Zeros(k - 1) + [0]
  }

  /** The number whose base-16 digits, most significant first, are `ds`. */
  function Horner(ds: seq<nat>): nat
  {
    if ds == [] then 0 else Horner(ds[..|ds| - 1]) * 16 + ds[|ds| - 1]
  }

  /** Lexicographic order of two digit lists of the same length. */
  predicate LexLess(a: seq<nat>, b: seq<nat>)
    requires |a| == |b|
  {
    a != [] && (a[0] < b[0] || (a[0] == b[0] && LexLess(a[1..], b[1..])))
  }

  lemma {:induction false} Pow2Of4(k: nat)
    ensures Pow2(4 * (k + 1)) == Pow2(4 * k) * 16
  {
    Pow2Add(4 * k, 4);
  }

  lemma {:induction false} HornerBound(ds: seq<nat>)
    requires HexDigits(ds)
    ensures Horner(ds) < Pow2(4 * |ds|)
  {
    if ds != [] {
      var front := ds[..|ds| - 1];
      HornerBound(front);
      Pow2Of4(|front|);
    }
  }

  /** Appending digits shifts the front and adds the back. */
  lemma {:induction false} HornerAppend(a: seq<nat>, b: seq<nat>)
    ensures Horner(a + b) == Horner(a) * Pow2(4 * |b|) + Horner(b)
  {
    if b == [] {
      assert a + b == a;
    } else {
      var bf := b[..|b| - 1];
      HornerAppend(a, bf);
      assert (a + b)[..|a + b| - 1] == a + bf;
      Pow2Of4(|bf|);
      var x, p, y, d := Horner(a), Pow2(4 * |bf|), Horner(bf), b[|b| - 1];
      assert b[..|b| - 1] == bf;
      calc {
        Horner(a + b);
        Horner(a + bf) * 16 + d;
        (x * p + y) * 16 + d;
        { Distribute16(x, p, y, d); }
        x * (p * 16) + (y * 16 + d);
        Horner(a) * Pow2(4 * |b|) + Horner(b);
      }
    }
  }

  lemma {:induction false} Distribute16(x: nat, p: nat, y: nat, d: nat)
    ensures (x * p + y) * 16 + d == x * (p * 16) + (y * 16 + d)
  {
  }

  lemma {:induction false} HornerCons(x: nat, rest: seq<nat>)
    ensures Horner([x] + rest) == x * Pow2(4 * |rest|) + Horner(rest)
  {
    HornerAppend([x], rest);
    assert [x][..0] == [];
    assert Horner([x]) == x;
  }

  lemma {:induction false} TimesDouble(a: nat, q: nat)
    ensures a * (2 * q) == 2 * (a * q)
  {
  }

  /** Shifting both operands left by `p` bits commutes with `|`. */
  lemma {:induction false} OrShift(a: nat, b: nat, p: nat)
    ensures Or(a * Pow2(p), b * Pow2(p)) == Or(a, b) * Pow2(p)
  {
    if p > 0 {
      var q := Pow2(p - 1);
      assert Pow2(p) == 2 * q;
      var aq, bq := a * q, b * q;
      TimesDouble(a, q);
      TimesDouble(b, q);
      TimesDouble(Or(a, b), q);
      calc {
        Or(a * Pow2(p), b * Pow2(p));
        Or(2 * aq, 2 * bq);
        { OrDouble(aq, bq); }
        2 * Or(aq, bq);
        { OrShift(a, b, p - 1); }
        2 * (Or(a, b) * q);
        Or(a, b) * Pow2(p);
      }
    }
  }

  lemma {:induction false} OrDouble(x: nat, y: nat)
    ensures Or(2 * x, 2 * y) == 2 * Or(x, y)
  {
    if x != 0 && y != 0 {
      assert (2 * x) / 2 == x && (2 * y) / 2 == y;
    }
  }

  lemma {:induction false} Regroup(h: nat, d: nat, q: nat)
    ensures h * (16 * q) == (h * 16) * q
    ensures (h * 16 + d) * q == (h * 16) * q + d * q
  {
  }

  /** One `|=` of `value_from`: a digit below 16 fills the empty low
      digit of the accumulator. */
  lemma {:induction false} PackStep(h: nat, d: nat, p: nat)
    requires d < 16
    ensures Or((h * 16) * Pow2(p), d * Pow2(p)) == (h * 16 + d) * Pow2(p)
  {
    OrShift(h * 16, d, p);
    assert Pow2(4) == 16;
    OrDisjoint(h, d, 4);
  }

  /** With hex digits below 16, every `|=` of `value_from` lands on zero
      bits: the accumulator after `n` steps is the first `n` digits,
      shifted to the top. */
  lemma {:induction false} PackPrefixDigits(vs: seq<nat>, n: nat)
    requires n <= |vs| && n <= 6 && HexDigits(vs)
    ensures PackPrefix(vs, n) == Horner(vs[..n]) * Pow2(4 * (6 - n))
  {
    if n > 0 {
      PackPrefixDigits(vs, n - 1);
      var p := 4 * (6 - n);
      var h := Horner(vs[..n - 1]);
      assert vs[..n][..n - 1] == vs[..n - 1];
      assert Horner(vs[..n]) == h * 16 + vs[n - 1];
      Pow2Add(4, p);
      assert Pow2(4) == 16;
      Regroup(h, vs[n - 1], Pow2(p));
      assert PackPrefix(vs, n - 1) == (h * 16) * Pow2(p);
      assert HexShift(n - 1) == p;
      PackStep(h, vs[n - 1], p);
    }
  }

  /** `value_from` packs the zero-padded six-digit list in base 16. */
  lemma {:induction false} ValueFromIsHorner(vs: seq<nat>)
    requires HexDigits(vs)
    ensures ValueFrom(vs) == Horner(Padded(vs))
    ensures ValueFrom(vs) < Pow2(24)
  {
    var m := if |vs| < 6 then |vs| else 6;
    var z := Zeros(6 - m);
    calc {
      ValueFrom(vs);
      PackPrefix(vs, m);
      { PackPrefixDigits(vs, m); }
      Horner(vs[..m]) * Pow2(4 * |z|);
      { HornerZeros(6 - m); }
      Horner(vs[..m]) * Pow2(4 * |z|) + Horner(z);
      { HornerAppend(vs[..m], z); }
      Horner(vs[..m] + z);
      { assert Padded(vs) == vs[..m] + z; }
      Horner(Padded(vs));
    }
    HornerBound(Padded(vs));
  }

  lemma {:induction false} HornerZeros(k: nat)
    ensures Horner(Zeros(k)) == 0
  {
    if k > 0 {
      HornerZeros(k - 1);
      assert Zeros(k)[..k - 1] == Zeros(k - 1);
    }
  }

  /** The weighted sum Σ vs[i]·16^(5−i) over the first `n` entries. */
  function DigitSum(vs: seq<nat>, n: nat): nat
    requires n <= |vs| && n <= 6
  {
    if n == 0 then 0 else DigitSum(vs, n - 1) + vs[n - 1] * Pow2(HexShift(n - 1))
  }

  /** With digits below 16 the ORs never overlap: `value_from` is the sum
      of the shifted entries, and it stays below 16^6. */
  lemma {:induction false} ValueFromIsSum(vs: seq<nat>)
    requires HexDigits(vs)
    ensures ValueFrom(vs) == DigitSum(vs, if |vs| < 6 then |vs| else 6)
    ensures ValueFrom(vs) < Pow2(24)
  {
    ValueFromIsHorner(vs);
    var m := if |vs| < 6 then |vs| else 6;
    PackPrefixDigits(vs, m);
    DigitSumIsHorner(vs, m);
  }

  lemma {:induction false} DigitSumIsHorner(vs: seq<nat>, n: nat)
    requires n <= |vs| && n <= 6
    ensures DigitSum(vs, n) == Horner(vs[..n]) * Pow2(4 * (6 - n))
  {
    if n > 0 {
      DigitSumIsHorner(vs, n - 1);
      var p := 4 * (6 - n);
      Pow2Add(4, p);
      assert Pow2(4) == 16;
      assert 4 * (6 - (n - 1)) == 4 + p;
      assert vs[..n][..n - 1] == vs[..n - 1];
      assert HexShift(n - 1) == p;
      Regroup(Horner(vs[..n - 1]), vs[n - 1], Pow2(p));
    }
  }

  lemma {:induction false} LeadingDigitDecides(x: nat, y: nat, r: nat, s: nat, p: nat)
    requires x < y && r < p
    ensures x * p + r < y * p + s
  {
    assert y * p >= (x + 1) * p;
  }

  /** For lists of hex digits of one length, base-16 order is
      lexicographic order. */
  lemma {:induction false} HornerOrder(a: seq<nat>, b: seq<nat>)
    requires |a| == |b| && HexDigits(a) && HexDigits(b)
    ensures Horner(a) < Horner(b) <==> LexLess(a, b)
    ensures Horner(a) == Horner(b) <==> a == b
  {
    if a != [] {
      var p := Pow2(4 * (|a| - 1));
      HornerCons(a[0], a[1..]);
      HornerCons(b[0], b[1..]);
      assert [a[0]] + a[1..] == a && [b[0]] + b[1..] == b;
      HornerBound(a[1..]);
      HornerBound(b[1..]);
      HornerOrder(a[1..], b[1..]);
      if a[0] < b[0] {
        LeadingDigitDecides(a[0], b[0], Horner(a[1..]), Horner(b[1..]), p);
      } else if b[0] < a[0] {
        LeadingDigitDecides(b[0], a[0], Horner(b[1..]), Horner(a[1..]), p);
      } else if a[1..] == b[1..] {
        assert a == b;
      }
    }
  }

  /** `value_from` is strictly monotone in the lexicographic order of the
      zero-padded six-digit lists, and equal exactly when those lists are. */
  lemma {:induction false} ValueFromOrder(a: seq<nat>, b: seq<nat>)
    requires HexDigits(a) && HexDigits(b)
    ensures ValueFrom(a) < ValueFrom(b) <==> LexLess(Padded(a), Padded(b))
    ensures ValueFrom(a) == ValueFrom(b) <==> Padded(a) == Padded(b)
  {
    ValueFromIsHorner(a);
    ValueFromIsHorner(b);
    PaddedDigits(a);
    PaddedDigits(b);
    HornerOrder(Padded(a), Padded(b));
  }

  /** Padding with zeros keeps every entry a hex digit. */
  lemma {:induction false} PaddedDigits(vs: seq<nat>)
    requires HexDigits(vs)
    ensures HexDigits(Padded(vs))
  {
    var ds := Padded(vs);
    forall i | 0 <= i < 6
      ensures ds[i] < 16
    {
      if i < |vs| {
        assert ds[i] == vs[i];
      }
    }
  }

  /** Exactly one of a < b, a == b, b < a holds in the lexicographic order. */
  lemma {:induction false} LexTrichotomy(a: seq<nat>, b: seq<nat>)
    requires |a| == |b|
    ensures LexLess(a, b) || a == b || LexLess(b, a)
    ensures !(LexLess(a, b) && LexLess(b, a))
    ensures !LexLess(a, a)
  {
    if a != [] {
      LexTrichotomy(a[1..], b[1..]);
      if a[0] == b[0] && a[1..] == b[1..] {
        assert a == [a[0]] + a[1..] && b == [b[0]] + b[1..];
      }
    }
  }

  /** `PokerGameResult`. */
  datatype GameResult = GameResult(
    handValue: nat,
    winningHands: seq<seq<PlayingCard>>,
    winningHoleCards: seq<seq<PlayingCard>>)
  {
    /** `is_draw`: more than one winning hand. */
    predicate IsDraw()
    {
      |winningHands| > 1
    }

    /** `get_hand_rank`: the category in hex digit 5. */
    function GetHandRank(): Result<HandRank>
    {
      HandRankOf(handValue / Pow2(HAND_RANK_HEX * HEX_DIGIT_BITS))
    }
  }

  lemma {:induction false} MulMonotone(a: nat, b: nat, p: nat)
    requires a <= b
    ensures a * p <= b * p
  {
    assert b * p == a * p + (b - a) * p;
  }

  lemma {:induction false} DivideOut(c: nat, r: nat, p: nat)
    requires r < p
    ensures (c * p + r) / p == c
  {
    var n := c * p + r;
    var q := n / p;
    assert n == q * p + n % p;
    if q > c {
      MulMonotone(c + 1, q, p);
    } else if q < c {
      MulMonotone(q + 1, c, p);
    }
  }

  /** `get_hand_rank` recovers the category that `value_from` put first,
      whatever the (hex-digit) kickers after it. */
  lemma {:induction false} GetHandRankOfValue(h: HandRank, kickers: seq<nat>, hands: seq<seq<PlayingCard>>, holes: seq<seq<PlayingCard>>)
    requires HexDigits(kickers)
    ensures GameResult(ValueFrom([h.Ordinal()] + kickers), hands, holes).GetHandRank() == Ok(h)
  {
    var g := GameResult(ValueFrom([h.Ordinal()] + kickers), hands, holes);
    LeadingDigit(h.Ordinal(), kickers);
    assert HAND_RANK_HEX * HEX_DIGIT_BITS == 20;
    assert g.GetHandRank() == HandRankOf(h.Ordinal());
    HandRankOrdinals(h, h);
  }

  /** The top hex digit of a packed value is the first entry. */
  lemma {:induction false} LeadingDigit(d: nat, kickers: seq<nat>)
    requires d < 16 && HexDigits(kickers)
    ensures ValueFrom([d] + kickers) / Pow2(20) == d
  {
    var vs := [d] + kickers;
    assert HexDigits(vs);
    ValueFromIsHorner(vs);
    var tail := PaddedTail(d, kickers);
    HornerLeading(d, tail);
  }

  /** Padding a list that starts with `d` gives `d` and five more hex digits. */
  lemma {:induction false} PaddedTail(d: nat, kickers: seq<nat>) returns (tail: seq<nat>)
    requires d < 16 && HexDigits(kickers)
    ensures Padded([d] + kickers) == [d] + tail
    ensures |tail| == 5 && HexDigits(tail)
  {
    var ds := Padded([d] + kickers);
    tail := ds[1..];
    assert ds == [d] + tail;
    forall i | 0 <= i < |tail|
      ensures tail[i] < 16
    {
      assert tail[i] == ds[i + 1];
    }
  }

  /** The leading digit of a digit list is its number divided by the weight
      of the remaining digits. */
  lemma {:induction false} HornerLeading(d: nat, tail: seq<nat>)
    requires HexDigits(tail)
    ensures Horner([d] + tail) / Pow2(4 * |tail|) == d
  {
    HornerCons(d, tail);
    HornerBound(tail);
    DivideOut(d, Horner(tail), Pow2(4 * |tail|));
  }
}
