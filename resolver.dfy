/** The multi-player resolver of PokerEvaluator.py: the value cache that
    `precompute` fills from every five-card hand of the deck, `get_value`,
    and `evaluate`, which picks each player's best hand (from `_eval_hand`
    directly, or as the best of the 21 five-card subsets looked up in the
    cache) and then the winners among the players. */
module Resolver {
  import opened Outcomes
  import opened Cards
  import opened Poker
  import opened Evaluator
  import opened HandFacts
  import opened HandShape
  import opened Subsets

  // ---------------------------------------------------------------------
  // The value cache

  /** `get_value`: the value stored under the hand's mask. An empty hand
      makes `hash_cards` raise; a mask that is not in the cache raises
      `KeyError`. */
  function GetValue(values: map<nat, nat>, hand: seq<PlayingCard>): (r: Result<nat>)
    ensures r.Ok? <==> hand != [] && MaskOf(hand) in values
    ensures r.Ok? ==> r.value == values[MaskOf(hand)]
    ensures hand == [] ==> r == Err(EmptyReduce)
    ensures hand != [] && MaskOf(hand) !in values ==> r == Err(CacheMiss(MaskOf(hand)))
  {
    HashCardsIsMask(hand);
    match HashCards(hand)
    case Err(e) => Err(e)
    case Ok(key) => if key in values then Ok(values[key]) else Err(CacheMiss(key))
  }

  predicate AllFive(hands: seq<seq<PlayingCard>>)
  {
    forall j :: 0 <= j < |hands| ==> |hands[j]| == 5
  }

  /** The key and value `precompute` stores for one five-card hand: the
      mask of the cards `_eval_hand` hands back, which is the mask of the
      hand itself, and the packed value. */
  function CacheEntry(hand: seq<PlayingCard>): (kv: (nat, nat))
    requires |hand| == 5
    ensures EvalHand(hand).Ok?
    ensures kv.0 == MaskOf(hand)
    ensures kv.1 == EvalHand(hand).value.Value()
  {
    FiveCardsPermuted(hand);
    var e := EvalHand(hand).value;
    (MaskOf(e.hand), e.Value())
  }

  /** `[f(x) for x in xs]`, built left to right. */
  function Mapped<T, U>(f: T --> U, xs: seq<T>): (ys: seq<U>)
    requires forall j :: 0 <= j < |xs| ==> f.requires(xs[j])
    ensures |ys| == |xs|
  {
    if xs == [] then [] else Mapped(f, xs[..|xs| - 1]) + [f(xs[|xs| - 1])]
  }

  /** Element `j` of the mapped list is `f` of element `j`. */
  lemma {:induction false} MappedAt<T, U>(f: T --> U, xs: seq<T>, j: nat)
    requires forall j :: 0 <= j < |xs| ==> f.requires(xs[j])
    requires j < |xs|
    ensures Mapped(f, xs)[j] == f(xs[j])
  {
    var n := |xs| - 1;
    if j < n {
      assert xs[..n][j] == xs[j];
      MappedAt(f, xs[..n], j);
    }
  }

  /** The entries of the hands, in order. */
  function CacheEntries(hands: seq<seq<PlayingCard>>): (kvs: seq<(nat, nat)>)
    requires AllFive(hands)
    ensures |kvs| == |hands|
  {
    Mapped(CacheEntry, hands)
  }

  /** Entry `j` is the entry of hand `j`. */
  lemma {:induction false} CacheEntriesAt(hands: seq<seq<PlayingCard>>, j: nat)
    requires AllFive(hands) && j < |hands|
    ensures CacheEntries(hands)[j] == CacheEntry(hands[j])
  {
    MappedAt(CacheEntry, hands, j);
  }

  /** The entries `precompute` stores: those of every five-card hand of
      the deck, in `itertools.combinations` order. */
  function DeckEntries(deck: seq<PlayingCard>): (kvs: seq<(nat, nat)>)
    ensures AllFive(Combinations(deck, 5))
    ensures kvs == CacheEntries(Combinations(deck, 5))
  {
    CombinationsSpec(deck, 5);
    CacheEntries(Combinations(deck, 5))
  }

  /** Every five-card hand of a deck can be entered, and the deck's
      entries are those of its hands in order. */
  lemma {:induction false} DeckHands(deck: seq<PlayingCard>)
    ensures forall j :: 0 <= j < |Combinations(deck, 5)| ==> CacheEntry.requires(Combinations(deck, 5)[j])
    ensures DeckEntries(deck) == Mapped(CacheEntry, Combinations(deck, 5))
  {
    var kvs := DeckEntries(deck);
  }

  /** The dictionary after storing the first `n` entries of `kvs` in
      order into `m`. */
  function Stored(m: map<nat, nat>, kvs: seq<(nat, nat)>, n: nat): map<nat, nat>
    requires n <= |kvs|
  {
    if n == 0 then m else Stored(m, kvs, n - 1)[kvs[n - 1].0 := kvs[n - 1].1]
  }

  /** Storing the entry of one more element. */
  lemma {:induction false} StoredStep<T>(m: map<nat, nat>, entry: T --> (nat, nat), xs: seq<T>, i: nat)
    requires forall j :: 0 <= j < |xs| ==> entry.requires(xs[j])
    requires i < |xs|
    ensures Stored(m, Mapped(entry, xs), i + 1) == Stored(m, Mapped(entry, xs), i)[entry(xs[i]).0 := entry(xs[i]).1]
  {
    MappedAt(entry, xs, i);
  }

  /** The dictionary after storing all the entries. */
  function CacheOf(m: map<nat, nat>, kvs: seq<(nat, nat)>): map<nat, nat>
  {
    Stored(m, kvs, |kvs|)
  }

  /** The dictionary holds the old keys and the key of every entry stored,
      and no other key. */
  lemma {:induction false} CacheKeys(m: map<nat, nat>, kvs: seq<(nat, nat)>, n: nat, k: nat)
    requires n <= |kvs|
    ensures k in Stored(m, kvs, n) <==> k in m || exists j :: 0 <= j < n && kvs[j].0 == k
  {
    if n > 0 {
      CacheKeys(m, kvs, n - 1, k);
    }
  }

  /** The last entry stored under a key decides its value. */
  lemma {:induction false} CacheLast(m: map<nat, nat>, kvs: seq<(nat, nat)>, n: nat, j: nat)
    requires j < n <= |kvs|
    requires forall l :: j < l < n ==> kvs[l].0 != kvs[j].0
    ensures kvs[j].0 in Stored(m, kvs, n) && Stored(m, kvs, n)[kvs[j].0] == kvs[j].1
  {
    if j < n - 1 {
      CacheLast(m, kvs, n - 1, j);
    }
  }

  /** A key under which every stored entry carries the same value ends
      with that value, whichever entry comes last. */
  lemma {:induction false} CacheAgreed(m: map<nat, nat>, kvs: seq<(nat, nat)>, n: nat, k: nat, v: nat)
    requires n <= |kvs|
    requires exists j :: 0 <= j < n && kvs[j].0 == k
    requires forall j :: 0 <= j < n && kvs[j].0 == k ==> kvs[j].1 == v
    ensures k in Stored(m, kvs, n) && Stored(m, kvs, n)[k] == v
  {
    var j :| 0 <= j < n && kvs[j].0 == k;
    if kvs[n - 1].0 != k {
      assert j < n - 1;
      CacheAgreed(m, kvs, n - 1, k, v);
    }
  }

  /** After `precompute`, the cache has a key for exactly the masks of the
      hands (besides the keys it had). */
  lemma {:induction false} CacheHasHands(m: map<nat, nat>, hands: seq<seq<PlayingCard>>, k: nat)
    requires AllFive(hands)
    ensures k in CacheOf(m, CacheEntries(hands)) <==>
      k in m || exists j :: 0 <= j < |hands| && MaskOf(hands[j]) == k
  {
    var kvs := CacheEntries(hands);
    CacheKeys(m, kvs, |kvs|, k);
    if exists j :: 0 <= j < |kvs| && kvs[j].0 == k {
      var j :| 0 <= j < |kvs| && kvs[j].0 == k;
      CacheEntriesAt(hands, j);
    }
    if exists j :: 0 <= j < |hands| && MaskOf(hands[j]) == k {
      var j :| 0 <= j < |hands| && MaskOf(hands[j]) == k;
      CacheEntriesAt(hands, j);
    }
  }

  /** With one mask per hand the cache is exact: `get_value` of every hand
      is its own `_eval_hand` value. */
  lemma {:induction false} CacheExact(m: map<nat, nat>, hands: seq<seq<PlayingCard>>)
    requires AllFive(hands)
    requires forall i, j :: 0 <= i < j < |hands| ==> MaskOf(hands[i]) != MaskOf(hands[j])
    ensures forall j :: 0 <= j < |hands| ==>
      EvalHand(hands[j]).Ok? &&
      GetValue(CacheOf(m, CacheEntries(hands)), hands[j]) == Ok(EvalHand(hands[j]).value.Value())
  {
    var kvs := CacheEntries(hands);
    forall j | 0 <= j < |hands|
      ensures EvalHand(hands[j]).Ok? &&
        GetValue(CacheOf(m, kvs), hands[j]) == Ok(EvalHand(hands[j]).value.Value())
    {
      CacheEntriesAt(hands, j);
      forall l | j < l < |kvs|
        ensures kvs[l].0 != kvs[j].0
      {
        CacheEntriesAt(hands, l);
      }
      CacheLast(m, kvs, |kvs|, j);
    }
  }

  // ---------------------------------------------------------------------
  // Filing `(index, hand)` entries under their values

  /** One `(index, hand)` entry of the `ranks` or `results` dictionary,
      with the value it is filed under. */
  datatype Scored = Scored(value: nat, index: nat, hand: seq<PlayingCard>)

  /** `d[v]` of a `defaultdict(list)` after appending the entries `ps` in
      order: the entries of value `v`, in the order they came. */
  function Bucket(ps: seq<Scored>, v: nat): (r: seq<Scored>)
    ensures forall e :: e in r <==> e in ps && e.value == v
  {
    if ps == [] then []
    else
      var last := ps[|ps| - 1];
      assert ps == ps[..|ps| - 1] + [last];
      Bucket(ps[..|ps| - 1], v) + if last.value == v then [last] else []
  }

  /** The keys of that dictionary. */
  function Keys(ps: seq<Scored>): set<nat>
  {
    set e | e in ps :: e.value
  }

  /** `d[e.value].append(e)`. */
  function Append(d: map<nat, seq<Scored>>, e: Scored): map<nat, seq<Scored>>
  {
    d[e.value := (if e.value in d then d[e.value] else []) + [e]]
  }

  /** The dictionary after appending the entries `ps` in order to an
      empty `defaultdict(list)`. */
  function Filed(ps: seq<Scored>): map<nat, seq<Scored>>
  {
    if ps == [] then map[] else Append(Filed(ps[..|ps| - 1]), ps[|ps| - 1])
  }

  /** Appending one more entry files it. */
  lemma {:induction false} FiledAppend(ps: seq<Scored>, e: Scored)
    ensures Filed(ps + [e]) == Append(Filed(ps), e)
  {
    assert (ps + [e])[..|ps|] == ps;
  }

  /** One more entry adds its value to the keys. */
  lemma {:induction false} KeysAppend(ps: seq<Scored>, e: Scored)
    ensures Keys(ps + [e]) == Keys(ps) + {e.value}
  {
    forall v | v in Keys(ps + [e]) && v != e.value
      ensures v in Keys(ps)
    {
      var x :| x in ps + [e] && x.value == v;
      assert x in ps;
    }
  }

  /** The keys of the dictionary are the values of the entries. */
  lemma {:induction false} FiledKeys(ps: seq<Scored>)
    ensures forall v :: v in Filed(ps) <==> v in Keys(ps)
  {
    if ps != [] {
      var n := |ps| - 1;
      assert ps == ps[..n] + [ps[n]];
      FiledKeys(ps[..n]);
      KeysAppend(ps[..n], ps[n]);
    }
  }

  /** Each key holds the entries of its value in order; a value that is
      not a key has no entries. */
  lemma {:induction false} FiledBuckets(ps: seq<Scored>)
    ensures forall v :: v in Filed(ps) ==> Filed(ps)[v] == Bucket(ps, v)
    ensures forall v :: v !in Filed(ps) ==> Bucket(ps, v) == []
  {
    if ps != [] {
      var n := |ps| - 1;
      FiledBuckets(ps[..n]);
    }
  }

  /** The keys are the values of the entries, each key holds the entries
      of its value in order, and the dictionary is empty only when there
      are no entries. */
  lemma {:induction false} FiledSpec(ps: seq<Scored>)
    ensures forall v :: v in Filed(ps) <==> v in Keys(ps)
    ensures forall v :: v in Filed(ps) ==> Filed(ps)[v] == Bucket(ps, v)
    ensures Filed(ps) == map[] <==> ps == []
  {
    FiledKeys(ps);
    FiledBuckets(ps);
    if ps != [] {
      assert ps[0].value in Keys(ps);
    }
  }

  /** The largest value filed, `max(d.keys())`. */
  function MaxValue(ps: seq<Scored>): (m: nat)
    requires ps != []
    ensures exists j :: 0 <= j < |ps| && ps[j].value == m
    ensures forall j :: 0 <= j < |ps| ==> ps[j].value <= m
  {
    if |ps| == 1 then ps[0].value
    else
      var m := MaxValue(ps[..|ps| - 1]);
      var last := ps[|ps| - 1].value;
      assert forall j :: 0 <= j < |ps| - 1 ==> ps[..|ps| - 1][j] == ps[j];
      if last > m then last else m
  }

  /** The bucket of the largest value is never empty. */
  lemma {:induction false} MaxBucket(ps: seq<Scored>)
    requires ps != []
    ensures Bucket(ps, MaxValue(ps)) != []
  {
    var j :| 0 <= j < |ps| && ps[j].value == MaxValue(ps);
    assert ps[j] in Bucket(ps, MaxValue(ps));
  }

  /** `max(d.keys())`, for a non-empty dictionary. */
  method MaxKey(keys: set<nat>) returns (m: nat)
    requires keys != {}
    ensures m in keys && forall k :: k in keys ==> k <= m
  {
    var rest := keys;
    m :| m in rest;
    rest := rest - {m};
    while rest != {}
      invariant rest <= keys && m in keys
      invariant forall k :: k in keys && k !in rest ==> k <= m
      decreases |rest|
    {
      var k :| k in rest;
      if k > m {
        m := k;
      }
      rest := rest - {k};
    }
  }

  /** The largest key of the filled dictionary is the largest value. */
  lemma {:induction false} MaxKeyIsMax(ps: seq<Scored>, m: nat)
    requires m in Filed(ps) && forall k :: k in Filed(ps) ==> k <= m
    ensures ps != [] && m == MaxValue(ps)
  {
    FiledSpec(ps);
    var j :| 0 <= j < |ps| && ps[j].value == MaxValue(ps);
    assert ps[j] in ps;
    assert MaxValue(ps) in Filed(ps);
    var x :| x in ps && x.value == m;
    var i :| 0 <= i < |ps| && ps[i] == x;
  }

  /** `max(d.keys())` of the filled dictionary, with the entries filed
      under it. */
  method MaxFiled(d: map<nat, seq<Scored>>, ghost ps: seq<Scored>) returns (best: nat)
    requires d == Filed(ps) && d != map[]
    ensures ps != [] && best == MaxValue(ps)
    ensures best in d && d[best] == Bucket(ps, best)
  {
    best := MaxKey(d.Keys);
    MaxKeyIsMax(ps, best);
    FiledSpec(ps);
  }

  // ---------------------------------------------------------------------
  // What `evaluate` computes

  /** The entries of a loop in which every step may raise: the first
      error ends the loop, otherwise every entry is kept in order. */
  function Collect(rs: seq<Result<Scored>>): Result<seq<Scored>>
  {
    if rs == [] then Ok([])
    else
      match Collect(rs[..|rs| - 1])
      case Err(e) => Err(e)
      case Ok(ps) =>
        match rs[|rs| - 1]
        case Err(e) => Err(e)
        case Ok(x) => Ok(ps + [x])
  }

  /** The loop succeeds iff every step does, keeping every entry; it fails
      with the error of the first step that fails. */
  lemma {:induction false} CollectSpec(rs: seq<Result<Scored>>)
    ensures Collect(rs).Ok? <==> forall i :: 0 <= i < |rs| ==> rs[i].Ok?
    ensures Collect(rs).Ok? ==>
      |Collect(rs).value| == |rs| && forall i :: 0 <= i < |rs| ==> Collect(rs).value[i] == rs[i].value
    ensures Collect(rs).Err? ==>
      exists i :: 0 <= i < |rs| && rs[i] == Err(Collect(rs).error) &&
                  forall l :: 0 <= l < i ==> rs[l].Ok?
  {
    if rs != [] {
      var n := |rs| - 1;
      CollectSpec(rs[..n]);
      assert forall i :: 0 <= i < n ==> rs[..n][i] == rs[i];
    }
  }

  /** Once a step fails, the rest of the loop does not run. */
  lemma {:induction false} CollectErrPersists(rs: seq<Result<Scored>>, n: nat)
    requires n <= |rs| && Collect(rs[..n]).Err?
    ensures Collect(rs) == Collect(rs[..n])
    decreases |rs| - n
  {
    if n < |rs| {
      var m := |rs| - 1;
      assert rs[..n] == rs[..m][..n];
      CollectErrPersists(rs[..m], n);
    } else {
      assert rs[..n] == rs;
    }
  }

  /** One more step of the loop: a success keeps its entry, a failure
      is the outcome of the whole loop. */
  lemma {:induction false} CollectStep(rs: seq<Result<Scored>>, j: nat, ps: seq<Scored>)
    requires j < |rs| && Collect(rs[..j]) == Ok(ps)
    ensures rs[j].Ok? ==> Collect(rs[..j + 1]) == Ok(ps + [rs[j].value])
    ensures rs[j].Err? ==> Collect(rs) == Err(rs[j].error)
  {
    assert rs[..j + 1][..j] == rs[..j];
    if rs[j].Err? {
      CollectErrPersists(rs, j + 1);
    }
  }

  /** One step of the loop over the subsets: `get_value` of the hand. */
  function Lookup(values: map<nat, nat>, index: nat, hand: seq<PlayingCard>): Result<Scored>
  {
    match GetValue(values, hand)
    case Err(e) => Err(e)
    case Ok(v) => Ok(Scored(v, index, hand))
  }

  function Lookups(values: map<nat, nat>, index: nat, hands: seq<seq<PlayingCard>>): (rs: seq<Result<Scored>>)
    ensures |rs| == |hands| && forall j :: 0 <= j < |hands| ==> rs[j] == Lookup(values, index, hands[j])
  {
    seq(|hands|, j requires 0 <= j < |hands| => Lookup(values, index, hands[j]))
  }

  /** `ranks[max(ranks.keys())][0]`: the first entry of the largest value;
      `max` of no keys raises. */
  function BestOf(ps: seq<Scored>): Result<Scored>
  {
    if ps == [] then Err(EmptyMax)
    else
      MaxBucket(ps);
      Ok(Bucket(ps, MaxValue(ps))[0])
  }

  /** `ranks[max(ranks.keys())][0]` of the filled dictionary. */
  method PickBest(ranks: map<nat, seq<Scored>>, ghost ps: seq<Scored>) returns (r: Result<Scored>)
    requires ranks == Filed(ps)
    ensures r == BestOf(ps)
  {
    FiledSpec(ps);
    if ranks == map[] {
      return Err(EmptyMax);
    }
    var best := MaxFiled(ranks, ps);
    MaxBucket(ps);
    r := Ok(ranks[best][0]);
  }

  /** The entry of one player: `_eval_hand` of the seven cards while the
      cache is empty, otherwise the best of the five-card subsets looked up
      in the cache. */
  function PlayerEntry(values: map<nat, nat>, index: nat, player: seq<PlayingCard>, community: seq<PlayingCard>): Result<Scored>
  {
    if values == map[] then DirectEntry(index, player + community)
    else CachedEntry(values, index, player + community)
  }

  /** The branch without a cache: `_eval_hand` of all the cards. */
  function DirectEntry(index: nat, cards: seq<PlayingCard>): Result<Scored>
  {
    match EvalHand(cards)
    case Err(e) => Err(e)
    case Ok(e) => Ok(Scored(e.Value(), index, e.hand))
  }

  /** The cached branch: the loop over the five-card subsets of the
      cards, then the best of them. */
  function CachedEntry(values: map<nat, nat>, index: nat, cards: seq<PlayingCard>): Result<Scored>
  {
    CachedBest(values, index, Combinations(cards, 5))
  }

  /** The cached lookup of each hand in turn, then the best of them. */
  function CachedBest(values: map<nat, nat>, index: nat, hands: seq<seq<PlayingCard>>): Result<Scored>
  {
    match Collect(Lookups(values, index, hands))
    case Err(e) => Err(e)
    case Ok(ps) => BestOf(ps)
  }

  /** The first entry of a bucket is the first entry of that value. */
  lemma {:induction false} BucketFirst(ps: seq<Scored>, v: nat)
    requires Bucket(ps, v) != []
    ensures exists j :: 0 <= j < |ps| && ps[j] == Bucket(ps, v)[0] &&
                        forall l :: 0 <= l < j ==> ps[l].value != v
  {
    var n := |ps| - 1;
    var init := ps[..n];
    assert forall l :: 0 <= l < n ==> init[l] == ps[l];
    if Bucket(init, v) != [] {
      BucketFirst(init, v);
    } else {
      forall l | 0 <= l < n
        ensures ps[l].value != v
      {
        assert init[l] in init;
      }
    }
  }

  /** The best entry is the first entry reaching the largest value. */
  lemma {:induction false} BestOfSpec(ps: seq<Scored>)
    requires ps != []
    ensures BestOf(ps).Ok?
    ensures forall j :: 0 <= j < |ps| ==> ps[j].value <= BestOf(ps).value.value
    ensures exists j :: 0 <= j < |ps| && ps[j] == BestOf(ps).value &&
                        forall l :: 0 <= l < j ==> ps[l].value < ps[j].value
  {
    var m := MaxValue(ps);
    MaxBucket(ps);
    BucketFirst(ps, m);
    assert Bucket(ps, m)[0] in Bucket(ps, m);
  }

  /** The loop over non-empty hands succeeds iff every hand's mask is
      cached, and then scores every hand with its cached value. */
  lemma {:induction false} LookupsSpec(values: map<nat, nat>, index: nat, hands: seq<seq<PlayingCard>>)
    requires forall l :: 0 <= l < |hands| ==> hands[l] != []
    ensures var r := Collect(Lookups(values, index, hands));
      (r.Ok? <==> forall l :: 0 <= l < |hands| ==> MaskOf(hands[l]) in values) &&
      (r.Ok? ==> |r.value| == |hands|) &&
      (r.Ok? ==> forall l :: 0 <= l < |hands| ==> r.value[l] == Scored(values[MaskOf(hands[l])], index, hands[l]))
  {
    var rs := Lookups(values, index, hands);
    CollectSpec(rs);
    if Collect(rs).Err? {
      var i :| 0 <= i < |rs| && rs[i] == Err(Collect(rs).error);
      assert MaskOf(hands[i]) !in values;
    }
  }

  lemma {:induction false} SubsetsNonEmpty(cards: seq<PlayingCard>)
    ensures forall l :: 0 <= l < |Combinations(cards, 5)| ==> Combinations(cards, 5)[l] != []
  {
    var hands := Combinations(cards, 5);
    CombinationsSpec(cards, 5);
    forall l | 0 <= l < |hands|
      ensures hands[l] != []
    {
      assert |hands[l]| == 5;
    }
  }

  /** Under a filled cache, a player's entry is the first of the five-card
      subsets of their cards with the largest cached value; a subset
      missing from the cache raises. */
  lemma {:induction false} CachedEntrySpec(values: map<nat, nat>, index: nat, cards: seq<PlayingCard>)
    ensures var hands := Combinations(cards, 5);
      var r := CachedEntry(values, index, cards);
      (r.Ok? <==> hands != [] && forall l :: 0 <= l < |hands| ==> MaskOf(hands[l]) in values) &&
      (r.Ok? ==>
        (forall l :: 0 <= l < |hands| ==> values[MaskOf(hands[l])] <= r.value.value) &&
        exists j :: 0 <= j < |hands| &&
                    r.value == Scored(values[MaskOf(hands[j])], index, hands[j]) &&
                    forall l :: 0 <= l < j ==> values[MaskOf(hands[l])] < r.value.value)
  {
    SubsetsNonEmpty(cards);
    CachedBestSpec(values, index, Combinations(cards, 5));
  }

  /** The same for any list of non-empty hands. */
  lemma {:induction false} CachedBestSpec(values: map<nat, nat>, index: nat, hands: seq<seq<PlayingCard>>)
    requires forall l :: 0 <= l < |hands| ==> hands[l] != []
    ensures var r := CachedBest(values, index, hands);
      (r.Ok? <==> hands != [] && forall l :: 0 <= l < |hands| ==> MaskOf(hands[l]) in values) &&
      (r.Ok? ==>
        (forall l :: 0 <= l < |hands| ==> values[MaskOf(hands[l])] <= r.value.value) &&
        exists j :: 0 <= j < |hands| &&
                    r.value == Scored(values[MaskOf(hands[j])], index, hands[j]) &&
                    forall l :: 0 <= l < j ==> values[MaskOf(hands[l])] < r.value.value)
  {
    LookupsSpec(values, index, hands);
    var r := Collect(Lookups(values, index, hands));
    if r.Ok? && r.value != [] {
      BestScored(values, index, hands, r.value);
    }
  }

  /** The best of the scored hands is the first one with the largest
      cached value. */
  lemma {:induction false} BestScored(values: map<nat, nat>, index: nat, hands: seq<seq<PlayingCard>>, ps: seq<Scored>)
    requires forall l :: 0 <= l < |hands| ==> MaskOf(hands[l]) in values
    requires |ps| == |hands| && ps != []
    requires forall l :: 0 <= l < |hands| ==> ps[l] == Scored(values[MaskOf(hands[l])], index, hands[l])
    ensures BestOf(ps).Ok?
    ensures forall l :: 0 <= l < |hands| ==> values[MaskOf(hands[l])] <= BestOf(ps).value.value
    ensures exists j :: 0 <= j < |hands| &&
                        BestOf(ps).value == Scored(values[MaskOf(hands[j])], index, hands[j]) &&
                        forall l :: 0 <= l < j ==> values[MaskOf(hands[l])] < BestOf(ps).value.value
  {
    BestOfSpec(ps);
    var j :| 0 <= j < |ps| && ps[j] == BestOf(ps).value &&
             forall l :: 0 <= l < j ==> ps[l].value < ps[j].value;
    forall l | 0 <= l < j
      ensures values[MaskOf(hands[l])] < ps[j].value
    {
      assert ps[l] == Scored(values[MaskOf(hands[l])], index, hands[l]);
    }
  }

  lemma {:induction false} PlayerEntryIndex(values: map<nat, nat>, index: nat, player: seq<PlayingCard>, community: seq<PlayingCard>)
    requires PlayerEntry(values, index, player, community).Ok?
    ensures PlayerEntry(values, index, player, community).value.index == index
  {
    if values != map[] {
      CachedEntrySpec(values, index, player + community);
    }
  }

  /** `[f(i, x) for i, x in enumerate(xs)]`, built left to right. */
  function Numbered<T, U>(f: (nat, T) -> U, xs: seq<T>): (ys: seq<U>)
    ensures |ys| == |xs|
  {
    if xs == [] then [] else Numbered(f, xs[..|xs| - 1]) + [f(|xs| - 1, xs[|xs| - 1])]
  }

  /** Element `i` of the numbered list is `f(i, xs[i])`. */
  lemma {:induction false} NumberedAt<T, U>(f: (nat, T) -> U, xs: seq<T>, i: nat)
    requires i < |xs|
    ensures Numbered(f, xs)[i] == f(i, xs[i])
  {
    var n := |xs| - 1;
    if i < n {
      assert xs[..n][i] == xs[i];
      NumberedAt(f, xs[..n], i);
    }
  }

  /** The entries of all players, in player order. */
  function PlayerEntries(values: map<nat, nat>, players: seq<seq<PlayingCard>>, community: seq<PlayingCard>): (rs: seq<Result<Scored>>)
    ensures |rs| == |players|
  {
    Numbered((i, player) => PlayerEntry(values, i, player, community), players)
  }

  /** Entry `i` is the entry of player `i`. */
  lemma {:induction false} PlayerEntriesAt(values: map<nat, nat>, players: seq<seq<PlayingCard>>, community: seq<PlayingCard>, i: nat)
    requires i < |players|
    ensures PlayerEntries(values, players, community)[i] == PlayerEntry(values, i, players[i], community)
  {
    NumberedAt((i, player) => PlayerEntry(values, i, player, community), players, i);
  }

  /** Every successful entry carries its player's index. */
  lemma {:induction false} PlayerEntriesIndexed(values: map<nat, nat>, players: seq<seq<PlayingCard>>, community: seq<PlayingCard>)
    ensures Indexed(players, PlayerEntries(values, players, community))
  {
    var rs := PlayerEntries(values, players, community);
    forall i | 0 <= i < |rs| && rs[i].Ok?
      ensures rs[i].value.index == i
    {
      PlayerEntriesAt(values, players, community, i);
      PlayerEntryIndex(values, i, players[i], community);
    }
  }

  /** `[result[1] for result in winners]`. */
  function HandsOf(ws: seq<Scored>): (r: seq<seq<PlayingCard>>)
    ensures |r| == |ws|
  {
    seq(|ws|, k requires 0 <= k < |ws| => ws[k].hand)
  }

  /** `[players[result[0]] for result in winners]`. */
  function HoleCardsOf(players: seq<seq<PlayingCard>>, ws: seq<Scored>): (r: seq<seq<PlayingCard>>)
    requires forall k :: 0 <= k < |ws| ==> ws[k].index < |players|
    ensures |r| == |ws|
  {
    seq(|ws|, k requires 0 <= k < |ws| => players[ws[k].index])
  }

  /** Entry `i` of the players' entries belongs to player `i`. */
  predicate Indexed(players: seq<seq<PlayingCard>>, rs: seq<Result<Scored>>)
  {
    |rs| == |players| && forall i :: 0 <= i < |rs| && rs[i].Ok? ==> rs[i].value.index == i
  }

  /** Every entry filed under a value belongs to one of the players. */
  lemma {:induction false} WinnersIndexed(players: seq<seq<PlayingCard>>, rs: seq<Result<Scored>>, ps: seq<Scored>, v: nat)
    requires Indexed(players, rs) && Collect(rs) == Ok(ps)
    ensures forall k :: 0 <= k < |Bucket(ps, v)| ==> Bucket(ps, v)[k].index < |players|
  {
    CollectSpec(rs);
    var ws := Bucket(ps, v);
    forall k | 0 <= k < |ws|
      ensures ws[k].index < |players|
    {
      assert ws[k] in ps;
    }
  }

  /** The result of `evaluate` from the players' entries: the largest
      value, with the entries of every player reaching it. */
  function Outcome(players: seq<seq<PlayingCard>>, rs: seq<Result<Scored>>): Result<GameResult>
    requires Indexed(players, rs)
  {
    match Collect(rs)
    case Err(e) => Err(e)
    case Ok(ps) =>
      if ps == [] then Err(EmptyMax)
      else
        var best := MaxValue(ps);
        var ws := Bucket(ps, best);
        WinnersIndexed(players, rs, ps, best);
        Ok(GameResult(best, HandsOf(ws), HoleCardsOf(players, ws)))
  }

  /** What `evaluate` returns. */
  function Resolve(values: map<nat, nat>, players: seq<seq<PlayingCard>>, community: seq<PlayingCard>): Result<GameResult>
  {
    PlayerEntriesIndexed(values, players, community);
    Outcome(players, PlayerEntries(values, players, community))
  }

  /** The indexes `i` of `ps`, ascending, whose value is `v`. */
  function Reaching(ps: seq<Scored>, v: nat): (r: seq<nat>)
    ensures forall k :: 0 <= k < |r| ==> r[k] < |ps|
  {
    if ps == [] then []
    else Reaching(ps[..|ps| - 1], v) + if ps[|ps| - 1].value == v then [|ps| - 1] else []
  }

  /** The bucket of entries indexed by position lists those positions. */
  lemma {:induction false} BucketIndexes(ps: seq<Scored>, v: nat)
    requires forall i :: 0 <= i < |ps| ==> ps[i].index == i
    ensures var b := Bucket(ps, v);
      |b| == |Reaching(ps, v)| &&
      forall k :: 0 <= k < |b| ==> b[k].index == Reaching(ps, v)[k] && b[k] == ps[b[k].index]
  {
    if ps != [] {
      var n := |ps| - 1;
      BucketIndexes(ps[..n], v);
      assert forall i :: 0 <= i < n ==> ps[..n][i] == ps[i];
    }
  }

  /** `Reaching` lists, in ascending order, exactly the positions whose
      value is `v`. */
  lemma {:induction false} ReachingSpec(ps: seq<Scored>, v: nat)
    ensures forall i :: i in Reaching(ps, v) <==> 0 <= i < |ps| && ps[i].value == v
    ensures forall k, l :: 0 <= k < l < |Reaching(ps, v)| ==> Reaching(ps, v)[k] < Reaching(ps, v)[l]
  {
    if ps != [] {
      var n := |ps| - 1;
      ReachingSpec(ps[..n], v);
      assert forall i :: 0 <= i < n ==> ps[..n][i] == ps[i];
      var r := Reaching(ps[..n], v);
      assert forall k :: 0 <= k < |r| ==> r[k] in r;
    }
  }

  /** `evaluate` succeeds iff there are players and every player's
      evaluation succeeds. */
  lemma {:induction false} OutcomeOk(players: seq<seq<PlayingCard>>, rs: seq<Result<Scored>>)
    requires Indexed(players, rs)
    ensures Outcome(players, rs).Ok? <==> players != [] && forall i :: 0 <= i < |rs| ==> rs[i].Ok?
    ensures players == [] ==> Outcome(players, rs) == Err(EmptyMax)
  {
    CollectSpec(rs);
  }

  /** `v` is the largest value of `ps` and `w` lists, in ascending
      order, exactly the positions of `ps` that reach it. */
  ghost predicate Reaches(ps: seq<Scored>, v: nat, w: seq<nat>)
  {
    (forall i :: 0 <= i < |ps| ==> ps[i].value <= v) &&
    (forall i :: i in w <==> 0 <= i < |ps| && ps[i].value == v) &&
    (forall k, l :: 0 <= k < l < |w| ==> w[k] < w[l])
  }

  /** `g` reports the entries `ps` of `players`: its value is the largest
      one, the positions reaching it are listed in ascending order, the
      winners' hole cards and hands are those of these positions, and it
      is a draw exactly when more than one position reaches it. */
  ghost predicate Reports(players: seq<seq<PlayingCard>>, ps: seq<Scored>, g: GameResult)
  {
    var w := Reaching(ps, g.handValue);
    Reaches(ps, g.handValue, w) &&
    |g.winningHands| == |g.winningHoleCards| == |w| &&
    (forall k :: 0 <= k < |w| ==>
      w[k] < |players| && g.winningHoleCards[k] == players[w[k]] && g.winningHands[k] == ps[w[k]].hand) &&
    (g.IsDraw() <==> |w| > 1)
  }

  /** The positions reaching the largest value. */
  lemma {:induction false} MaxReached(ps: seq<Scored>)
    requires ps != []
    ensures Reaches(ps, MaxValue(ps), Reaching(ps, MaxValue(ps)))
  {
    ReachingSpec(ps, MaxValue(ps));
  }

  /** With the players' entries `ps`, `evaluate` succeeds and reports
      them. */
  lemma {:induction false} OutcomeWinners(players: seq<seq<PlayingCard>>, rs: seq<Result<Scored>>, ps: seq<Scored>)
    requires Indexed(players, rs) && Collect(rs) == Ok(ps) && players != []
    ensures Outcome(players, rs).Ok? && |ps| == |players|
    ensures Reports(players, ps, Outcome(players, rs).value)
  {
    CollectSpec(rs);
    var best := MaxValue(ps);
    var ws := Bucket(ps, best);
    WinnersIndexed(players, rs, ps, best);
    var g := GameResult(best, HandsOf(ws), HoleCardsOf(players, ws));
    assert Outcome(players, rs) == Ok(g);
    BestReported(players, ps);
  }

  /** The same, stated on the entries alone. */
  lemma {:induction false} BestReported(players: seq<seq<PlayingCard>>, ps: seq<Scored>)
    requires |ps| == |players| && ps != [] && forall i :: 0 <= i < |ps| ==> ps[i].index == i
    ensures var ws := Bucket(ps, MaxValue(ps));
      (forall k :: 0 <= k < |ws| ==> ws[k].index < |players|) &&
      Reports(players, ps, GameResult(MaxValue(ps), HandsOf(ws), HoleCardsOf(players, ws)))
  {
    var best := MaxValue(ps);
    var ws := Bucket(ps, best);
    var w := Reaching(ps, best);
    MaxReached(ps);
    WinnersListed(players, ps, best);
    var g := GameResult(best, HandsOf(ws), HoleCardsOf(players, ws));
    assert |g.winningHands| == |g.winningHoleCards| == |w|;
    assert g.IsDraw() <==> |w| > 1;
  }

  /** The winners' lists follow the positions reaching the value. */
  lemma {:induction false} WinnersListed(players: seq<seq<PlayingCard>>, ps: seq<Scored>, v: nat)
    requires |ps| == |players| && forall i :: 0 <= i < |ps| ==> ps[i].index == i
    ensures var ws := Bucket(ps, v);
      var w := Reaching(ps, v);
      (forall k :: 0 <= k < |ws| ==> ws[k].index < |players|) &&
      |ws| == |w| &&
      forall k :: 0 <= k < |w| ==>
        HoleCardsOf(players, ws)[k] == players[w[k]] && HandsOf(ws)[k] == ps[w[k]].hand
  {
    BucketIndexes(ps, v);
  }

  // ---------------------------------------------------------------------
  // The evaluator object

  /** `PokerEvaluator`: the cache of packed values by mask. */
  class PokerEvaluator {
    const usePrecomputedValues: bool
    var values: map<nat, nat>

    /** `__post_init__`: the cache starts empty. */
    constructor(usePrecomputed: bool)
      ensures usePrecomputedValues == usePrecomputed && values == map[]
    {
      usePrecomputedValues := usePrecomputed;
      values := map[];
    }

    /** The compute branch of `precompute`: every five-card hand of the
        deck, in `itertools.combinations` order, is evaluated and its
        value stored under the mask of the returned cards. */
    method Precompute()
      modifies this
      ensures !usePrecomputedValues ==> values == old(values)
      ensures usePrecomputedValues ==> values == CacheOf(old(values), DeckEntries(STARTING_DECK))
    {
      if !usePrecomputedValues {
        return;
      }
      StoreHands(STARTING_DECK);
    }

    /** The compute branch over the five-card hands of `deck`. */
    method StoreHands(deck: seq<PlayingCard>)
      modifies this
      ensures values == CacheOf(old(values), DeckEntries(deck))
    {
      var hands := Combinations(deck, 5);
      DeckHands(deck);
      StoreEntries(hands, CacheEntry);
    }

    /** The loop of the compute branch: the entry of each hand, its mask
        and its value, is stored in turn. */
    method StoreEntries(hands: seq<seq<PlayingCard>>, entry: seq<PlayingCard> --> (nat, nat))
      requires forall j :: 0 <= j < |hands| ==> entry.requires(hands[j])
      modifies this
      ensures values == CacheOf(old(values), Mapped(entry, hands))
    {
      var i := 0;
      while i < |hands|
        invariant 0 <= i <= |hands|
        invariant values == Stored(old(values), Mapped(entry, hands), i)
      {
        var kv := entry(hands[i]);
        StoredStep(old(values), entry, hands, i);
        values := values[kv.0 := kv.1];
        i := i + 1;
      }
    }

    /** The best entry of one player: `_eval_hand` while the cache is
        empty, otherwise the loop over the five-card subsets. */
    method PlayerPick(index: nat, player: seq<PlayingCard>, community: seq<PlayingCard>) returns (r: Result<Scored>)
      ensures r == PlayerEntry(values, index, player, community)
    {
      var cards := player + community;
      if values == map[] {
        var e := EvalHand(cards);
        if e.Err? {
          return Err(e.error);
        }
        return Ok(Scored(e.value.Value(), index, e.value.hand));
      }
      r := CachedPick(index, cards);
    }

    /** The loop over the five-card subsets: each is looked up in the cache
        and filed under its value; the first entry of the largest value
        wins. */
    method CachedPick(index: nat, cards: seq<PlayingCard>) returns (r: Result<Scored>)
      ensures r == CachedEntry(values, index, cards)
    {
      var hands := Combinations(cards, 5);
      ghost var rs := Lookups(values, index, hands);
      var ranks: map<nat, seq<Scored>> := map[];
      ghost var ps: seq<Scored> := [];
      var j := 0;
      while j < |hands|
        invariant 0 <= j <= |hands|
        invariant Collect(rs[..j]) == Ok(ps)
        invariant ranks == Filed(ps)
      {
        var v := GetValue(values, hands[j]);
        CollectStep(rs, j, ps);
        if v.Err? {
          return Err(v.error);
        }
        var e := Scored(v.value, index, hands[j]);
        FiledAppend(ps, e);
        ranks := Append(ranks, e);
        ps := ps + [e];
        j := j + 1;
      }
      assert rs[..j] == rs;
      r := PickBest(ranks, ps);
    }

    /** `evaluate`: every player's best entry is filed under its value;
        the winners are the entries under the largest value. */
    method Evaluate(players: seq<seq<PlayingCard>>, community: seq<PlayingCard>) returns (r: Result<GameResult>)
      ensures r == Resolve(values, players, community)
    {
      ghost var rs := PlayerEntries(values, players, community);
      var results: map<nat, seq<Scored>> := map[];
      ghost var ps: seq<Scored> := [];
      var index := 0;
      while index < |players|
        invariant 0 <= index <= |players|
        invariant Collect(rs[..index]) == Ok(ps)
        invariant results == Filed(ps)
      {
        var entry := PlayerPick(index, players[index], community);
        PlayerEntriesAt(values, players, community, index);
        CollectStep(rs, index, ps);
        if entry.Err? {
          return Err(entry.error);
        }
        var e := entry.value;
        FiledAppend(ps, e);
        results := Append(results, e);
        ps := ps + [e];
        index := index + 1;
      }
      assert rs[..index] == rs;
      if results == map[] {
        FiledSpec(ps);
        return Err(EmptyMax);
      }
      var best := MaxFiled(results, ps);
      var winners := results[best];
      PlayerEntriesIndexed(values, players, community);
      WinnersIndexed(players, rs, ps, best);
      r := Ok(GameResult(best, HandsOf(winners), HoleCardsOf(players, winners)));
    }
  }
}
