/** PokerSimulator.py, the older evaluator: its own card hash, an
    `_eval_hand` that packs the hand value with explicit shifts, a
    `precompute` written as five nested loops over deck positions, and an
    `evaluate` that looks up only three contiguous five-card windows of
    each player's seven cards. */
module Simulator {
  import opened Outcomes
  import opened Bits
  import opened Cards
  import opened Poker
  import opened Evaluator
  import opened HandFacts
  import opened HandShape
  import opened Subsets
  import opened Resolver

  // ---------------------------------------------------------------------
  // Hashing

  /** `get_card_hash`: one bit per card, twelve positions per suit, the
      same bit as `PlayingCard.value`. */
  function GetCardHash(c: PlayingCard): (h: nat)
    ensures h == CardValue(c)
  {
    Pow2(c.suit.Ordinal() * 12 + c.rank - 2)
  }

  /** `hash_hand`: the card hashes ORed into an accumulator that starts at
      zero. */
  method HashHand(cards: seq<PlayingCard>) returns (h: nat)
    ensures h == MaskOf(cards)
  {
    h := 0;
    for i := 0 to |cards|
      invariant h == MaskOf(cards[..i])
    {
      assert cards[..i + 1][..i] == cards[..i];
      h := Or(h, GetCardHash(cards[i]));
    }
    assert cards[..|cards|] == cards;
  }

  /** `hash_hand` and `hash_cards` agree on every non-empty list; on the
      empty list `hash_hand` gives 0 where `hash_cards` raises. */
  lemma {:induction false} HashHandAgrees(cards: seq<PlayingCard>)
    ensures cards != [] ==> HashCards(cards) == Ok(MaskOf(cards))
    ensures cards == [] ==> MaskOf(cards) == 0 && HashCards(cards) == Err(EmptyReduce)
  {
    HashCardsIsMask(cards);
  }

  // ---------------------------------------------------------------------
  // The shift-packed `_eval_hand`

  /** The value the simulator's `_eval_hand` builds: the category shifted
      into hex digit 5, then each tie-break rank ORed in one hex digit
      lower than the one before. */
  function ShiftPacked(category: nat, tieBreaks: seq<nat>): nat
    requires |tieBreaks| <= 5
  {
    if tieBreaks == [] then category * Pow2(HAND_RANK_HEX * HEX_DIGIT_BITS)
    else
      var n := |tieBreaks| - 1;
      Or(ShiftPacked(category, tieBreaks[..n]), tieBreaks[n] * Pow2((4 - n) * HEX_DIGIT_BITS))
  }

  /** The first `n + 1` steps of `value_from` over the category and its
      tie-breaks give the shifted value of the first `n` tie-breaks. */
  lemma {:induction false} ShiftPackedPrefix(category: nat, tieBreaks: seq<nat>, n: nat)
    requires n <= |tieBreaks| <= 5
    ensures PackPrefix([category] + tieBreaks, n + 1) == ShiftPacked(category, tieBreaks[..n])
  {
    var vs := [category] + tieBreaks;
    if n == 0 {
      assert tieBreaks[..0] == [];
    } else {
      ShiftPackedPrefix(category, tieBreaks, n - 1);
      assert tieBreaks[..n][..n - 1] == tieBreaks[..n - 1];
      assert vs[n] == tieBreaks[n - 1];
    }
  }

  /** The explicit shifts produce the same integer as `value_from`. */
  lemma {:induction false} ShiftPackedIsValueFrom(category: nat, tieBreaks: seq<nat>)
    requires |tieBreaks| <= 5
    ensures ShiftPacked(category, tieBreaks) == ValueFrom([category] + tieBreaks)
  {
    ShiftPackedPrefix(category, tieBreaks, |tieBreaks|);
    assert tieBreaks[..|tieBreaks|] == tieBreaks;
  }

  /** The simulator's `_eval_hand`: the same category chain as
      PokerEvaluator.py, with the value packed by explicit shifts. */
  function SimEvalHand(cards: seq<PlayingCard>): Result<(nat, seq<PlayingCard>)>
  {
    match EvalHand(cards)
    case Err(e) => Err(e)
    case Ok(e) =>
      EvalHandSound(cards);
      RealisedDigits(e);
      Ok((ShiftPacked(e.category.Ordinal(), e.tieBreaks), e.hand))
  }

  /** Both evaluators fail on the same inputs and otherwise return the
      same value and the same five cards. */
  lemma {:induction false} SimEvalHandAgrees(cards: seq<PlayingCard>)
    ensures SimEvalHand(cards).Ok? <==> EvalHand(cards).Ok?
    ensures SimEvalHand(cards).Err? ==> SimEvalHand(cards).error == EvalHand(cards).error
    ensures EvalHand(cards).Ok? ==>
      SimEvalHand(cards).value == (EvalHand(cards).value.Value(), EvalHand(cards).value.hand)
  {
    if EvalHand(cards).Ok? {
      var e := EvalHand(cards).value;
      EvalHandSound(cards);
      RealisedDigits(e);
      ShiftPackedIsValueFrom(e.category.Ordinal(), e.tieBreaks);
    }
  }

  // ---------------------------------------------------------------------
  // The five nested loops of `precompute`

  /** The tuples of `Tuples(lo, hi, k)` whose first position is below `x`:
      what the loop at this depth has visited when it reaches `x`. */
  function Before(lo: nat, x: nat, hi: nat, k: nat): seq<seq<nat>>
    requires k > 0
    decreases x
  {
    if x <= lo then [] else Before(lo, x - 1, hi, k) + Prepend(x - 1, Tuples(x, hi, k - 1))
  }

  /** What is visited before `x`, followed by what is visited from `x`
      on, is the whole walk. */
  lemma {:induction false} BeforeSplit(lo: nat, x: nat, hi: nat, k: nat)
    requires k > 0 && lo <= x <= hi
    ensures Before(lo, x, hi, k) + Tuples(x, hi, k) == Tuples(lo, hi, k)
    decreases x
  {
    if x > lo {
      BeforeStep(lo, x, hi, k);
      BeforeSplit(lo, x - 1, hi, k);
    } else {
      assert Before(lo, x, hi, k) == [];
      assert x == lo;
    }
  }

  /** Moving the split point back one position keeps the walk. */
  lemma {:induction false} BeforeStep(lo: nat, x: nat, hi: nat, k: nat)
    requires k > 0 && lo < x <= hi
    ensures Before(lo, x, hi, k) + Tuples(x, hi, k) == Before(lo, x - 1, hi, k) + Tuples(x - 1, hi, k)
  {
    var earlier := Before(lo, x - 1, hi, k);
    var here := Prepend(x - 1, Tuples(x, hi, k - 1));
    var later := Tuples(x, hi, k);
    calc {
      Before(lo, x, hi, k) + Tuples(x, hi, k);
      (earlier + here) + later;
      { ConcatAssoc(earlier, here, later); }
      earlier + (here + later);
      { TuplesSplit(x - 1, hi, k); }
      earlier + Tuples(x - 1, hi, k);
    }
  }

  lemma {:induction false} ConcatAssoc<T>(a: seq<T>, b: seq<T>, c: seq<T>)
    ensures (a + b) + c == a + (b + c)
  {
  }

  /** After the last position the whole walk is visited. */
  lemma {:induction false} BeforeAll(lo: nat, hi: nat, k: nat)
    requires k > 0 && lo <= hi
    ensures Before(lo, hi, hi, k) == Tuples(lo, hi, k)
  {
    BeforeSplit(lo, hi, hi, k);
    assert Tuples(hi, hi, k) == [];
  }

  /** The entry `precompute` stores for the hand at positions `t` of the
      deck; positions that name no five cards of the deck have none. */
  function TupleEntry(deck: seq<PlayingCard>, t: seq<nat>): (nat, nat)
  {
    if |t| == 5 && Within(t, 0, |deck|) then CacheEntry(Pick(deck, t)) else (0, 0)
  }

  /** The entries `precompute` stores, by position tuple: a ghost table
      that the walk below is stated over, so that its proofs do not see
      the evaluation of a hand. */
  ghost function EntryTable(deck: seq<PlayingCard>): imap<seq<nat>, (nat, nat)>
  {
    imap t: seq<nat> | true :: TupleEntry(deck, t)
  }

  /** `table` gives the entry of every position tuple of `deck`. */
  ghost predicate EntriesOf(deck: seq<PlayingCard>, table: imap<seq<nat>, (nat, nat)>)
  {
    forall t {:trigger TupleEntry(deck, t)} :: t in table && table[t] == TupleEntry(deck, t)
  }

  lemma {:induction false} TupleEntries(deck: seq<PlayingCard>)
    ensures EntriesOf(deck, EntryTable(deck))
  {
  }

  /** The entry of one tuple in the table. */
  ghost function TableEntry(table: imap<seq<nat>, (nat, nat)>, t: seq<nat>): (nat, nat)
  {
    if t in table then table[t] else (0, 0)
  }

  /** The entries of `prefix + t` for each tuple `t` of `ts`, in order:
      what the walk over `ts` stores when the outer loops fixed `prefix`. */
  ghost function Entries(table: imap<seq<nat>, (nat, nat)>, prefix: seq<nat>, ts: seq<seq<nat>>): (kvs: seq<(nat, nat)>)
    ensures |kvs| == |ts|
    ensures forall j :: 0 <= j < |ts| ==> kvs[j] == TableEntry(table, prefix + ts[j])
  {
    seq(|ts|, j requires 0 <= j < |ts| => TableEntry(table, prefix + ts[j]))
  }

  /** Two lists of entries agree when they agree at every index. */
  lemma {:induction false} EntriesEqual(table: imap<seq<nat>, (nat, nat)>, p: seq<nat>, ps: seq<seq<nat>>, q: seq<nat>, qs: seq<seq<nat>>)
    requires |ps| == |qs|
    requires forall j :: 0 <= j < |ps| ==> p + ps[j] == q + qs[j]
    ensures Entries(table, p, ps) == Entries(table, q, qs)
  {
  }

  /** The entries of two lists of tuples, one after the other. */
  lemma {:induction false} EntriesAppend(table: imap<seq<nat>, (nat, nat)>, prefix: seq<nat>, a: seq<seq<nat>>, b: seq<seq<nat>>)
    ensures Entries(table, prefix, a + b) == Entries(table, prefix, a) + Entries(table, prefix, b)
  {
  }

  /** Fixing one more position `x` is moving it into the prefix. */
  lemma {:induction false} PrependIntoPrefix(table: imap<seq<nat>, (nat, nat)>, prefix: seq<nat>, x: nat, ts: seq<seq<nat>>)
    ensures Entries(table, prefix, Prepend(x, ts)) == Entries(table, prefix + [x], ts)
  {
    var ps := Prepend(x, ts);
    PrependAt(x, ts);
    forall j | 0 <= j < |ps|
      ensures prefix + ps[j] == (prefix + [x]) + ts[j]
    {
      assert prefix + ([x] + ts[j]) == (prefix + [x]) + ts[j];
    }
    EntriesEqual(table, prefix, ps, prefix + [x], ts);
  }

  /** With no position left to fix, the walk visits `prefix` alone. */
  lemma {:induction false} NothingLeft(table: imap<seq<nat>, (nat, nat)>, prefix: seq<nat>, lo: nat, hi: nat)
    ensures Entries(table, prefix, Tuples(lo, hi, 0)) == [TableEntry(table, prefix)]
  {
    assert Tuples(lo, hi, 0) == [[]];
    assert prefix + [] == prefix;
  }

  /** Storing one entry. */
  lemma {:induction false} CacheOfOne(m: map<nat, nat>, kv: (nat, nat))
    ensures CacheOf(m, [kv]) == m[kv.0 := kv.1]
  {
    assert Stored(m, [kv], 0) == m;
  }

  /** Storing `a` and then `b` is storing `a + b`. */
  lemma {:induction false} CacheOfAppend(m: map<nat, nat>, a: seq<(nat, nat)>, b: seq<(nat, nat)>)
    ensures CacheOf(CacheOf(m, a), b) == CacheOf(m, a + b)
    decreases |b|
  {
    if b != [] {
      var n := |b| - 1;
      var ab := a + b;
      CacheOfAppend(m, a, b[..n]);
      StoredPrefix(m, ab, |a| + n);
      StoredPrefix(CacheOf(m, a), b, n);
      assert ab[..|a| + n] == a + b[..n];
      assert ab[|a| + n] == b[n];
      assert |ab| == |a| + n + 1;
    } else {
      assert a + b == a;
    }
  }

  /** Storing the first `n` entries depends only on those entries. */
  lemma {:induction false} StoredPrefix(m: map<nat, nat>, kvs: seq<(nat, nat)>, n: nat)
    requires n < |kvs|
    ensures Stored(m, kvs, n + 1) == CacheOf(m, kvs[..n])[kvs[n].0 := kvs[n].1]
  {
    StoredTake(m, kvs, n, n);
  }

  lemma {:induction false} StoredTake(m: map<nat, nat>, kvs: seq<(nat, nat)>, n: nat, i: nat)
    requires i <= n <= |kvs|
    ensures Stored(m, kvs, i) == Stored(m, kvs[..n], i)
  {
    if i > 0 {
      StoredTake(m, kvs, n, i - 1);
    }
  }

  /** The dictionary after the loops from depth `5 - k` down have run
      over the positions from `lo` to `hi`, the outer loops having fixed
      `prefix`; at the innermost depth the entry of `prefix` is stored. */
  ghost function Run(v: map<nat, nat>, table: imap<seq<nat>, (nat, nat)>, prefix: seq<nat>, lo: nat, hi: nat, k: nat): map<nat, nat>
    decreases k, 1, 0
  {
    if k == 0 then v[TableEntry(table, prefix).0 := TableEntry(table, prefix).1]
    else Walked(v, table, prefix, lo, hi, hi, k)
  }

  /** The dictionary once the loop at depth `5 - k` has run its position
      from `lo` up to (not including) `x`: each turn runs the inner loops
      with one more position fixed. */
  ghost function Walked(v: map<nat, nat>, table: imap<seq<nat>, (nat, nat)>, prefix: seq<nat>, lo: nat, x: nat, hi: nat, k: nat): map<nat, nat>
    requires 0 < k
    decreases k, 0, x
  {
    if x <= lo then v
    else Run(Walked(v, table, prefix, lo, x - 1, hi, k), table, prefix + [x - 1], x, hi, k - 1)
  }

  /** The positions fixed so far stay below the next position. */
  lemma {:induction false} WithinExtend(prefix: seq<nat>, lo: nat, x: nat)
    requires Within(prefix, 0, lo) && lo <= x
    ensures Within(prefix + [x], 0, x + 1)
  {
  }

  /** The entries the loops from depth `5 - k` down store, in order. */
  ghost function RunEntries(table: imap<seq<nat>, (nat, nat)>, prefix: seq<nat>, lo: nat, hi: nat, k: nat): seq<(nat, nat)>
    decreases k, 1, 0
  {
    if k == 0 then [TableEntry(table, prefix)]
    else WalkEntries(table, prefix, lo, hi, hi, k)
  }

  /** The entries the turns of the loop at depth `5 - k` below `x` store. */
  ghost function WalkEntries(table: imap<seq<nat>, (nat, nat)>, prefix: seq<nat>, lo: nat, x: nat, hi: nat, k: nat): seq<(nat, nat)>
    requires 0 < k
    decreases k, 0, x
  {
    if x <= lo then []
    else WalkEntries(table, prefix, lo, x - 1, hi, k) + RunEntries(table, prefix + [x - 1], x, hi, k - 1)
  }

  /** The loops store their entries one after the other into `v`. */
  lemma {:induction false} RunStores(v: map<nat, nat>, table: imap<seq<nat>, (nat, nat)>, prefix: seq<nat>, lo: nat, hi: nat, k: nat)
    ensures Run(v, table, prefix, lo, hi, k) == CacheOf(v, RunEntries(table, prefix, lo, hi, k))
    decreases k, 1, 0
  {
    if k == 0 {
      CacheOfOne(v, TableEntry(table, prefix));
    } else {
      WalkStores(v, table, prefix, lo, hi, hi, k);
    }
  }

  /** The turns below `x` store their entries one after the other. */
  lemma {:induction false} WalkStores(v: map<nat, nat>, table: imap<seq<nat>, (nat, nat)>, prefix: seq<nat>, lo: nat, x: nat, hi: nat, k: nat)
    requires 0 < k
    ensures Walked(v, table, prefix, lo, x, hi, k) == CacheOf(v, WalkEntries(table, prefix, lo, x, hi, k))
    decreases k, 0, x
  {
    if x <= lo {
      assert CacheOf(v, []) == v;
    } else {
      var earlier := WalkEntries(table, prefix, lo, x - 1, hi, k);
      WalkStores(v, table, prefix, lo, x - 1, hi, k);
      RunStores(CacheOf(v, earlier), table, prefix + [x - 1], x, hi, k - 1);
      CacheOfAppend(v, earlier, RunEntries(table, prefix + [x - 1], x, hi, k - 1));
    }
  }

  /** The loops from depth `5 - k` down store the entries of `prefix + t`
      for every tuple `t` of `Tuples(lo, hi, k)`, in order. */
  lemma {:induction false} RunIsEntries(table: imap<seq<nat>, (nat, nat)>, prefix: seq<nat>, lo: nat, hi: nat, k: nat)
    requires lo <= hi
    ensures RunEntries(table, prefix, lo, hi, k) == Entries(table, prefix, Tuples(lo, hi, k))
    decreases k, 1, 0
  {
    if k == 0 {
      NothingLeft(table, prefix, lo, hi);
    } else {
      WalkIsBefore(table, prefix, lo, hi, hi, k);
      BeforeAll(lo, hi, k);
    }
  }

  /** The turns below `x` store the entries of `Before`. */
  lemma {:induction false} WalkIsBefore(table: imap<seq<nat>, (nat, nat)>, prefix: seq<nat>, lo: nat, x: nat, hi: nat, k: nat)
    requires 0 < k && lo <= x <= hi
    ensures WalkEntries(table, prefix, lo, x, hi, k) == Entries(table, prefix, Before(lo, x, hi, k))
    decreases k, 0, x
  {
    if x == lo {
      assert Before(lo, x, hi, k) == [];
    } else {
      WalkIsBefore(table, prefix, lo, x - 1, hi, k);
      RunIsEntries(table, prefix + [x - 1], x, hi, k - 1);
      BeforeEntries(table, prefix, lo, x, hi, k);
    }
  }

  /** The tuples the turn at `x - 1` adds are those of the loops below
      with `x - 1` fixed. */
  lemma {:induction false} BeforeEntries(table: imap<seq<nat>, (nat, nat)>, prefix: seq<nat>, lo: nat, x: nat, hi: nat, k: nat)
    requires 0 < k && lo < x
    ensures Entries(table, prefix, Before(lo, x, hi, k))
         == Entries(table, prefix, Before(lo, x - 1, hi, k)) + Entries(table, prefix + [x - 1], Tuples(x, hi, k - 1))
  {
    var rest := Tuples(x, hi, k - 1);
    PrependIntoPrefix(table, prefix, x - 1, rest);
    EntriesAppend(table, prefix, Before(lo, x - 1, hi, k), Prepend(x - 1, rest));
  }

  /** When the table holds `f` of the hand at each tuple's positions, the
      entries of the tuples are `f` of the hands at their positions. */
  lemma {:induction false} EntriesArePicks(deck: seq<PlayingCard>, table: imap<seq<nat>, (nat, nat)>, ts: seq<seq<nat>>, f: seq<PlayingCard> --> (nat, nat))
    requires forall j :: 0 <= j < |ts| ==> Within(ts[j], 0, |deck|)
    requires forall j :: 0 <= j < |ts| ==> f.requires(Pick(deck, ts[j])) && TableEntry(table, ts[j]) == f(Pick(deck, ts[j]))
    ensures forall j :: 0 <= j < |ts| ==> f.requires(PickAll(deck, ts)[j])
    ensures Entries(table, [], ts) == Mapped(f, PickAll(deck, ts))
  {
    var hands := PickAll(deck, ts);
    forall j | 0 <= j < |ts|
      ensures Entries(table, [], ts)[j] == Mapped(f, hands)[j]
    {
      MappedAt(f, hands, j);
      assert [] + ts[j] == ts[j];
    }
  }

  /** The table holds the cache entry of every five-card hand of the
      deck, at the tuple of its positions. */
  lemma {:induction false} TableIsCache(deck: seq<PlayingCard>, table: imap<seq<nat>, (nat, nat)>, ts: seq<seq<nat>>)
    requires EntriesOf(deck, table)
    requires forall j :: 0 <= j < |ts| ==> |ts[j]| == 5 && Within(ts[j], 0, |deck|)
    ensures forall j :: 0 <= j < |ts| ==> CacheEntry.requires(Pick(deck, ts[j])) && TableEntry(table, ts[j]) == CacheEntry(Pick(deck, ts[j]))
  {
    forall j | 0 <= j < |ts|
      ensures CacheEntry.requires(Pick(deck, ts[j])) && TableEntry(table, ts[j]) == CacheEntry(Pick(deck, ts[j]))
    {
      TableEntryIsCache(deck, table, ts[j], Pick(deck, ts[j]));
    }
  }

  /** The table holds the cache entry of the hand at a tuple's positions. */
  lemma {:induction false} TableEntryIsCache(deck: seq<PlayingCard>, table: imap<seq<nat>, (nat, nat)>, t: seq<nat>, hand: seq<PlayingCard>)
    requires EntriesOf(deck, table)
    requires |t| == 5 && Within(t, 0, |deck|) && hand == Pick(deck, t)
    ensures |hand| == 5 && TableEntry(table, t) == CacheEntry(hand)
  {
    assert TupleEntry(deck, t) == CacheEntry(hand);
  }

  /** The nested loops over the positions of the whole deck enter exactly
      the entries of the hands `itertools.combinations` yields, in the
      same order. */
  lemma {:induction false} WalkIsCombinations(deck: seq<PlayingCard>, table: imap<seq<nat>, (nat, nat)>)
    requires EntriesOf(deck, table)
    ensures Entries(table, [], Tuples(0, |deck|, 5)) == DeckEntries(deck)
  {
    var ts := Tuples(0, |deck|, 5);
    TuplesWithin(0, |deck|, 5);
    TableIsCache(deck, table, ts);
    EntriesArePicks(deck, table, ts, CacheEntry);
    DeckHands(deck);
  }

  /** A full deck has 2598960 five-card hands. */
  lemma {:induction false} FullDeckHands(count: nat)
    requires count == Binom(|STARTING_DECK|, 5)
    ensures count == 2598960
  {
    FiveCardHands();
  }

  // ---------------------------------------------------------------------
  // `get_value` and the window `evaluate`

  /** `get_value`: the value stored under `hash_hand` of the hand; a mask
      that is not in the dictionary raises `KeyError`. */
  function SimGetValue(values: map<nat, nat>, hand: seq<PlayingCard>): (r: Result<nat>)
  {
    var key := MaskOf(hand);
    if key in values then Ok(values[key]) else Err(CacheMiss(key))
  }

  /** On a non-empty hand `get_value` here and in PokerEvaluator.py agree;
      on the empty hand this one looks up the key 0 where the other
      raises. */
  lemma {:induction false} SimGetValueAgrees(values: map<nat, nat>, hand: seq<PlayingCard>)
    ensures hand != [] ==> SimGetValue(values, hand) == GetValue(values, hand)
    ensures hand == [] ==> SimGetValue(values, hand) == (if 0 in values then Ok(values[0]) else Err(CacheMiss(0)))
  {
    HashHandAgrees(hand);
  }

  /** The slice `cards[i:i+5]`: the cards from position `i` on, at most
      five of them, and none when `i` is past the end. */
  function Window(cards: seq<PlayingCard>, i: nat): (w: seq<PlayingCard>)
    ensures |w| == (if i + 5 <= |cards| then 5 else if i <= |cards| then |cards| - i else 0)
    ensures forall k :: 0 <= k < |w| ==> w[k] == cards[i + k]
  {
    if |cards| <= i then [] else if |cards| <= i + 5 then cards[i..] else cards[i..i + 5]
  }

  /** The hands the loop `for i in range(3)` looks up. */
  function Windows(cards: seq<PlayingCard>): (ws: seq<seq<PlayingCard>>)
    ensures |ws| == 3 && forall i :: 0 <= i < 3 ==> ws[i] == Window(cards, i)
  {
    [Window(cards, 0), Window(cards, 1), Window(cards, 2)]
  }

  /** One step of the window loop: `get_value` of the window. */
  function SimLookup(values: map<nat, nat>, index: nat, hand: seq<PlayingCard>): Result<Scored>
  {
    match SimGetValue(values, hand)
    case Err(e) => Err(e)
    case Ok(v) => Ok(Scored(v, index, hand))
  }

  function SimLookups(values: map<nat, nat>, index: nat, cards: seq<PlayingCard>): (rs: seq<Result<Scored>>)
    ensures |rs| == 3 && forall i :: 0 <= i < 3 ==> rs[i] == SimLookup(values, index, Window(cards, i))
  {
    [SimLookup(values, index, Window(cards, 0)), SimLookup(values, index, Window(cards, 1)),
     SimLookup(values, index, Window(cards, 2))]
  }

  /** The cached branch of the simulator's `evaluate`: the three windows
      looked up in turn, then `ranks[max(ranks.keys())][0]`. */
  function SimCachedEntry(values: map<nat, nat>, index: nat, cards: seq<PlayingCard>): Result<Scored>
  {
    match Collect(SimLookups(values, index, cards))
    case Err(e) => Err(e)
    case Ok(ps) => BestOf(ps)
  }

  /** With at least three cards no window is empty, and the window loop is
      the loop of PokerEvaluator.py run over the three windows instead of
      the five-card subsets. */
  lemma {:induction false} WindowsCached(values: map<nat, nat>, index: nat, cards: seq<PlayingCard>)
    requires 3 <= |cards|
    ensures SimCachedEntry(values, index, cards) == CachedBest(values, index, Windows(cards))
  {
    var ws := Windows(cards);
    forall i | 0 <= i < 3
      ensures SimLookup(values, index, ws[i]) == Lookup(values, index, ws[i])
    {
      SimGetValueAgrees(values, ws[i]);
    }
    assert SimLookups(values, index, cards) == Lookups(values, index, ws);
  }

  /** With at least three cards, the window loop succeeds iff all three
      windows are in the dictionary, and then picks the first window with
      the largest value. */
  lemma {:induction false} SimCachedEntrySpec(values: map<nat, nat>, index: nat, cards: seq<PlayingCard>)
    requires 3 <= |cards|
    ensures var ws := Windows(cards);
      var r := SimCachedEntry(values, index, cards);
      (r.Ok? <==> forall i :: 0 <= i < 3 ==> MaskOf(ws[i]) in values) &&
      (r.Ok? ==>
        (forall i :: 0 <= i < 3 ==> values[MaskOf(ws[i])] <= r.value.value) &&
        exists j :: 0 <= j < 3 &&
                    r.value == Scored(values[MaskOf(ws[j])], index, ws[j]) &&
                    forall l :: 0 <= l < j ==> values[MaskOf(ws[l])] < r.value.value)
  {
    WindowsCached(values, index, cards);
    CachedBestSpec(values, index, Windows(cards));
  }

  /** The branch without a dictionary: `_eval_hand` of all the cards. */
  function SimDirectEntry(index: nat, cards: seq<PlayingCard>): Result<Scored>
  {
    match SimEvalHand(cards)
    case Err(e) => Err(e)
    case Ok((value, hand)) => Ok(Scored(value, index, hand))
  }

  /** Without a dictionary both evaluators give a player the same entry. */
  lemma {:induction false} SimDirectEntryAgrees(index: nat, cards: seq<PlayingCard>)
    ensures SimDirectEntry(index, cards) == DirectEntry(index, cards)
  {
    SimEvalHandAgrees(cards);
  }

  /** The entry of one player: `_eval_hand` of all the cards while the
      dictionary is empty, otherwise the window loop. */
  function SimPlayerEntry(values: map<nat, nat>, index: nat, player: seq<PlayingCard>, community: seq<PlayingCard>): Result<Scored>
  {
    if values == map[] then SimDirectEntry(index, player + community)
    else SimCachedEntry(values, index, player + community)
  }

  function SimPlayerEntries(values: map<nat, nat>, players: seq<seq<PlayingCard>>, community: seq<PlayingCard>): (rs: seq<Result<Scored>>)
    ensures |rs| == |players|
  {
    Numbered((i, player) => SimPlayerEntry(values, i, player, community), players)
  }

  lemma {:induction false} SimPlayerEntriesAt(values: map<nat, nat>, players: seq<seq<PlayingCard>>, community: seq<PlayingCard>, i: nat)
    requires i < |players|
    ensures SimPlayerEntries(values, players, community)[i] == SimPlayerEntry(values, i, players[i], community)
  {
    NumberedAt((i, player) => SimPlayerEntry(values, i, player, community), players, i);
  }

  /** What the simulator's `evaluate` computes: the best value, the hands
      filed under it, and "Win" for a single hand, "Draw" otherwise. */
  datatype SimResult = SimResult(bestRank: nat, winningHands: seq<seq<PlayingCard>>, result: string)

  /** The outcome of the players' entries: the first failure, `max` of no
      keys, or the hands under the largest value. */
  function SimOutcome(rs: seq<Result<Scored>>): Result<SimResult>
  {
    match Collect(rs)
    case Err(e) => Err(e)
    case Ok(ps) =>
      if ps == [] then Err(EmptyMax)
      else
        var best := MaxValue(ps);
        var hands := HandsOf(Bucket(ps, best));
        Ok(SimResult(best, hands, if |hands| == 1 then "Win" else "Draw"))
  }

  /** The simulator reports what PokerEvaluator.py's `evaluate` reports for
      the same entries: both fail alike, and otherwise they name the same
      value and the same winning hands, and "Draw" is a draw. */
  lemma {:induction false} SimOutcomeAgrees(players: seq<seq<PlayingCard>>, rs: seq<Result<Scored>>)
    requires Indexed(players, rs)
    ensures SimOutcome(rs).Ok? <==> Outcome(players, rs).Ok?
    ensures SimOutcome(rs).Err? ==> SimOutcome(rs).error == Outcome(players, rs).error
    ensures SimOutcome(rs).Ok? ==>
      var s := SimOutcome(rs).value;
      var g := Outcome(players, rs).value;
      s.bestRank == g.handValue && s.winningHands == g.winningHands &&
      (s.result == "Draw" <==> g.IsDraw()) && (s.result == "Win" <==> !g.IsDraw())
  {
    if Collect(rs).Ok? && Collect(rs).value != [] {
      var ps := Collect(rs).value;
      MaxBucket(ps);
    }
  }

  function SimResolve(values: map<nat, nat>, players: seq<seq<PlayingCard>>, community: seq<PlayingCard>): Result<SimResult>
  {
    SimOutcome(SimPlayerEntries(values, players, community))
  }

  /** Without a dictionary, the simulator's `evaluate` finds the winners
      PokerEvaluator.py's `evaluate` finds. */
  lemma {:induction false} SimResolveUncached(players: seq<seq<PlayingCard>>, community: seq<PlayingCard>)
    ensures var s := SimResolve(map[], players, community);
      var g := Resolve(map[], players, community);
      (s.Ok? <==> g.Ok?) && (s.Err? ==> s.error == g.error) &&
      (s.Ok? ==> s.value.bestRank == g.value.handValue && s.value.winningHands == g.value.winningHands &&
                 (s.value.result == "Draw" <==> g.value.IsDraw()))
  {
    var rs := SimPlayerEntries(map[], players, community);
    forall i | 0 <= i < |players|
      ensures rs[i] == PlayerEntries(map[], players, community)[i]
    {
      SimPlayerEntriesAt(map[], players, community, i);
      PlayerEntriesAt(map[], players, community, i);
      SimDirectEntryAgrees(i, players[i] + community);
    }
    assert rs == PlayerEntries(map[], players, community);
    PlayerEntriesIndexed(map[], players, community);
    SimOutcomeAgrees(players, rs);
  }

  /** The simulator's `PokerEvaluator`: the dictionary from hand masks to
      hand values. */
  class PokerEvaluator {
    var values: map<nat, nat>

    constructor()
      ensures values == map[]
    {
      values := map[];
    }

    /** The compute branch of `precompute`: the dictionary is emptied, then
        five nested loops over increasing positions of a fresh deck enter
        every five-card hand, stored under the mask of the cards
        `_eval_hand` returns; `count` is the number of hands visited. The
        dictionary is the one PokerEvaluator.py builds. */
    method Precompute() returns (count: nat)
      modifies this
      ensures count == 2598960
      ensures values == CacheOf(map[], DeckEntries(STARTING_DECK))
    {
      values := map[];
      var deck := new DeckOfCards();
      count := StoreDeck(deck.cards);
      FullDeckHands(count);
    }

    /** The five loops over one deck. */
    method StoreDeck(deck: seq<PlayingCard>) returns (count: nat)
      modifies this
      ensures count == Binom(|deck|, 5)
      ensures values == CacheOf(old(values), DeckEntries(deck))
    {
      ghost var table := EntryTable(deck);
      TupleEntries(deck);
      count := Enumerate(deck, table, [], 0, 5);
      RunStores(old(values), table, [], 0, |deck|, 5);
      RunIsEntries(table, [], 0, |deck|, 5);
      WalkIsCombinations(deck, table);
    }

    /** The loops from depth `5 - k` down: `prefix` holds the positions
        the outer loops have fixed. */
    method Enumerate(deck: seq<PlayingCard>, ghost table: imap<seq<nat>, (nat, nat)>, prefix: seq<nat>, lo: nat, k: nat)
      returns (count: nat)
      requires EntriesOf(deck, table)
      requires |prefix| + k == 5 && lo <= |deck| && Within(prefix, 0, lo)
      modifies this
      ensures count == Binom(|deck| - lo, k)
      ensures values == Run(old(values), table, prefix, lo, |deck|, k)
      decreases k, 1
    {
      if k == 0 {
        Visit(deck, table, prefix);
        count := 1;
      } else {
        count := Loop(deck, table, prefix, lo, k);
      }
    }

    /** The loop at depth `5 - k`: its position runs from `lo` to the end
        of the deck, and the inner loops run for each. */
    method Loop(deck: seq<PlayingCard>, ghost table: imap<seq<nat>, (nat, nat)>, prefix: seq<nat>, lo: nat, k: nat)
      returns (count: nat)
      requires EntriesOf(deck, table)
      requires |prefix| + k == 5 && 0 < k && lo <= |deck| && Within(prefix, 0, lo)
      modifies this
      ensures count == Binom(|deck| - lo, k)
      ensures values == Walked(old(values), table, prefix, lo, |deck|, |deck|, k)
      decreases k, 0
    {
      var x := lo;
      count := 0;
      while x < |deck|
        invariant lo <= x <= |deck|
        invariant count + Binom(|deck| - x, k) == Binom(|deck| - lo, k)
        invariant values == Walked(old(values), table, prefix, lo, x, |deck|, k)
      {
        WithinExtend(prefix, lo, x);
        var c := Enumerate(deck, table, prefix + [x], x + 1, k - 1);
        BinomStep(|deck| - x, k);
        count := count + c;
        x := x + 1;
      }
    }

    /** The innermost body: `_eval_hand` on the five cards at positions
        `t`, its value stored under `hash_hand` of the cards it returns. */
    method Visit(deck: seq<PlayingCard>, ghost table: imap<seq<nat>, (nat, nat)>, t: seq<nat>)
      requires EntriesOf(deck, table)
      requires |t| == 5 && Within(t, 0, |deck|)
      modifies this
      ensures values == old(values)[TableEntry(table, t).0 := TableEntry(table, t).1]
    {
      var cards := Pick(deck, t);
      StoreHand(cards);
      assert TupleEntry(deck, t) == CacheEntry(cards);
    }

    /** `_eval_hand` on five cards and the store of its value. */
    method StoreHand(cards: seq<PlayingCard>)
      requires |cards| == 5
      modifies this
      ensures values == old(values)[CacheEntry(cards).0 := CacheEntry(cards).1]
    {
      var kv := CacheEntry(cards);
      SimEvalHandAgrees(cards);
      var (rank, hand) := SimEvalHand(cards).value;
      var cardHash := HashHand(hand);
      values := values[cardHash := rank];
    }

    /** `get_value`: `hash_hand` of the hand, looked up in the dictionary. */
    method GetValue(hand: seq<PlayingCard>) returns (r: Result<nat>)
      ensures r == SimGetValue(values, hand)
    {
      var key := HashHand(hand);
      if key !in values {
        return Err(CacheMiss(key));
      }
      r := Ok(values[key]);
    }

    /** The cached branch for one player: each of the three windows is
        looked up and filed under its value; the first hand of the largest
        value wins. */
    method WindowPick(index: nat, cards: seq<PlayingCard>) returns (r: Result<Scored>)
      ensures r == SimCachedEntry(values, index, cards)
    {
      ghost var rs := SimLookups(values, index, cards);
      var ranks: map<nat, seq<Scored>> := map[];
      ghost var ps: seq<Scored> := [];
      for i := 0 to 3
        invariant Collect(rs[..i]) == Ok(ps)
        invariant ranks == Filed(ps)
      {
        var hand := Window(cards, i);
        var v := GetValue(hand);
        CollectStep(rs, i, ps);
        if v.Err? {
          return Err(v.error);
        }
        var e := Scored(v.value, index, hand);
        FiledAppend(ps, e);
        ranks := Append(ranks, e);
        ps := ps + [e];
      }
      assert rs[..3] == rs;
      r := PickBest(ranks, ps);
    }

    /** The entry of one player: `_eval_hand` while the dictionary is
        empty, otherwise the window loop. */
    method PlayerPick(index: nat, player: seq<PlayingCard>, community: seq<PlayingCard>) returns (r: Result<Scored>)
      ensures r == SimPlayerEntry(values, index, player, community)
    {
      var cards := player + community;
      if values == map[] {
        var e := SimEvalHand(cards);
        if e.Err? {
          return Err(e.error);
        }
        var (value, hand) := e.value;
        return Ok(Scored(value, index, hand));
      }
      r := WindowPick(index, cards);
    }

    /** `evaluate`: every player's entry is filed under its value; the
        hands under the largest value win, "Win" when there is one of
        them and "Draw" otherwise. */
    method Evaluate(players: seq<seq<PlayingCard>>, community: seq<PlayingCard>) returns (r: Result<SimResult>)
      ensures r == SimResolve(values, players, community)
    {
      ghost var rs := SimPlayerEntries(values, players, community);
      var results: map<nat, seq<Scored>> := map[];
      ghost var ps: seq<Scored> := [];
      for index := 0 to |players|
        invariant Collect(rs[..index]) == Ok(ps)
        invariant results == Filed(ps)
      {
        var entry := PlayerPick(index, players[index], community);
        SimPlayerEntriesAt(values, players, community, index);
        CollectStep(rs, index, ps);
        if entry.Err? {
          return Err(entry.error);
        }
        FiledAppend(ps, entry.value);
        results := Append(results, entry.value);
        ps := ps + [entry.value];
      }
      assert rs[..|players|] == rs;
      FiledSpec(ps);
      if results == map[] {
        return Err(EmptyMax);
      }
      var best := MaxFiled(results, ps);
      var winningHands := HandsOf(results[best]);
      r := Ok(SimResult(best, winningHands, if |winningHands| == 1 then "Win" else "Draw"));
    }
  }
}
