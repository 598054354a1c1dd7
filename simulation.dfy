/** `PokerSimulation` (PokerSimulator.py): one game of Texas Hold'em with a
    shuffled deck, the players' hole cards and the community cards, dealt
    by popping cards off the deck. */
module Simulation {
  import opened Outcomes
  import opened Cards
  import opened Groups
  import opened Simulator

  /** The most players `__post_init__` accepts. */
  const MAX_PLAYERS: int := 22

  /** The number of hands `[[] for _ in range(n)]` makes. */
  function PlayerCount(n: int): (count: nat)
    ensures n >= 0 ==> count == n
    ensures n < 0 ==> count == 0
  {
    if n < 0 then 0 else n
  }

  // ---------------------------------------------------------------------
  // Dealing, as values

  /** The first `k` cards that repeated `draw` calls pop off `deck`, in the
      order they are drawn: the last card of the list first. */
  function Drawn(deck: seq<PlayingCard>, k: nat): (r: seq<PlayingCard>)
    requires k <= |deck|
    ensures |r| == k
  {
    if k == 0 then [] else Drawn(deck, k - 1) + [deck[|deck| - k]]
  }

  /** The `d`-th card drawn is the `d`-th card from the end of the deck. */
  lemma {:induction false} DrawnOrder(deck: seq<PlayingCard>, k: nat, d: nat)
    requires d < k <= |deck|
    ensures Drawn(deck, k)[d] == deck[|deck| - 1 - d]
  {
    if d < k - 1 {
      DrawnOrder(deck, k - 1, d);
    }
  }

  /** The drawn cards are the cards cut off the end of the deck. */
  lemma {:induction false} DrawnFromTop(deck: seq<PlayingCard>, k: nat)
    requires k <= |deck|
    ensures multiset(Drawn(deck, k)) == multiset(deck[|deck| - k..])
  {
    if k > 0 {
      DrawnFromTop(deck, k - 1);
      assert deck[|deck| - k..] == [deck[|deck| - k]] + deck[|deck| - (k - 1)..];
    }
  }

  /** The cards drawn and the cards left make up the deck. */
  lemma {:induction false} DrawnAndLeft(deck: seq<PlayingCard>, k: nat)
    requires k <= |deck|
    ensures multiset(Drawn(deck, k)) + multiset(deck[..|deck| - k]) == multiset(deck)
  {
    DrawnFromTop(deck, k);
    assert deck == deck[..|deck| - k] + deck[|deck| - k..];
  }

  /** The card at position `d` of `drawn`, when there is one. */
  function Slot(drawn: seq<PlayingCard>, d: nat): seq<PlayingCard>
  {
    if d < |drawn| then [drawn[d]] else []
  }

  /** The hands of `n` players after the cards `drawn` are handed out one
      at a time, in two rounds over the players in order. */
  function RoundRobin(drawn: seq<PlayingCard>, n: nat): (hands: seq<seq<PlayingCard>>)
    requires |drawn| <= 2 * n
    ensures |hands| == n
  {
    seq(n, p requires 0 <= p < n => Slot(drawn, p) + Slot(drawn, n + p))
  }

  /** The position in the drawing order of player `p`'s card of round
      `round`. */
  function Turn(n: nat, round: nat, p: nat): nat
  {
    if round == 0 then p else n + p
  }

  /** In round `round` (0 or 1) player `p` is given the card drawn at turn
      `Turn(n, round, p)`, and that card is the hand's card `round`. */
  lemma {:induction false} RoundRobinDeals(drawn: seq<PlayingCard>, n: nat, round: nat, p: nat)
    requires |drawn| <= 2 * n && round < 2 && p < n && Turn(n, round, p) < |drawn|
    ensures round < |RoundRobin(drawn, n)[p]|
    ensures RoundRobin(drawn, n)[p][round] == drawn[Turn(n, round, p)]
  {
    if round == 1 {
      assert Slot(drawn, p) == [drawn[p]];
    }
  }

  /** Once `2 * n` cards are drawn, every player holds exactly two. */
  lemma {:induction false} RoundRobinFull(drawn: seq<PlayingCard>, n: nat, p: nat)
    requires |drawn| == 2 * n && p < n
    ensures |RoundRobin(drawn, n)[p]| == 2
  {
    assert Slot(drawn, p) == [drawn[p]] && Slot(drawn, n + p) == [drawn[n + p]];
  }

  /** Before the first draw every hand is empty. */
  lemma {:induction false} NoneDealt(n: nat)
    ensures RoundRobin([], n) == seq(n, _ => [])
  {
    forall q | 0 <= q < n
      ensures RoundRobin([], n)[q] == []
    {
      assert Slot([], q) == [] && Slot([], n + q) == [];
    }
  }

  /** Handing out the card of turn `Turn(n, round, p)` adds it to player
      `p`'s hand. */
  lemma {:induction false} RoundRobinStep(drawn: seq<PlayingCard>, n: nat, round: nat, p: nat, c: PlayingCard)
    requires round < 2 && p < n && |drawn| == Turn(n, round, p)
    ensures RoundRobin(drawn + [c], n) == RoundRobin(drawn, n)[p := RoundRobin(drawn, n)[p] + [c]]
  {
    var before, after := RoundRobin(drawn, n), RoundRobin(drawn + [c], n);
    forall q | 0 <= q < n
      ensures after[q] == before[p := before[p] + [c]][q]
    {
      assert Slot(drawn + [c], q) == if q == |drawn| then [c] else Slot(drawn, q);
      assert Slot(drawn + [c], n + q) == if n + q == |drawn| then [c] else Slot(drawn, n + q);
    }
  }

  /** Adding a card to one hand adds it to the cards of all the hands. */
  lemma {:induction false} FlattenAdd(hands: seq<seq<PlayingCard>>, p: nat, c: PlayingCard)
    requires p < |hands|
    ensures multiset(FlattenGroups(hands[p := hands[p] + [c]])) == multiset(FlattenGroups(hands)) + multiset{c}
  {
    var updated := hands[p := hands[p] + [c]];
    assert updated[1..] == if p == 0 then hands[1..] else hands[1..][p - 1 := hands[p] + [c]];
    if p > 0 {
      FlattenAdd(hands[1..], p - 1, c);
    }
  }

  /** Round-robin dealing hands out exactly the cards drawn. */
  lemma {:induction false} RoundRobinConserves(drawn: seq<PlayingCard>, n: nat)
    requires |drawn| <= 2 * n
    ensures multiset(FlattenGroups(RoundRobin(drawn, n))) == multiset(drawn)
  {
    if drawn == [] {
      EmptyHands(RoundRobin(drawn, n));
    } else {
      var front, c := drawn[..|drawn| - 1], drawn[|drawn| - 1];
      assert drawn == front + [c];
      RoundRobinConserves(front, n);
      var round, p := if |front| < n then 0 else 1, if |front| < n then |front| else |front| - n;
      RoundRobinStep(front, n, round, p, c);
      FlattenAdd(RoundRobin(front, n), p, c);
    }
  }

  lemma {:induction false} EmptyHands(hands: seq<seq<PlayingCard>>)
    requires forall p :: 0 <= p < |hands| ==> hands[p] == []
    ensures FlattenGroups(hands) == []
  {
    if hands != [] {
      EmptyHands(hands[1..]);
    }
  }

  /** What `deal_hands` raises, for a deck of `deckSize` cards: a `draw`
      on the emptied deck, or the final check that `52 - 2 * n` cards are
      left. */
  function DealFailure(deckSize: nat, numberOfPlayers: int): Option<Error>
  {
    var n := PlayerCount(numberOfPlayers);
    if 2 * n > deckSize then Some(EmptyDeck)
    else if deckSize - 2 * n != 52 - 2 * numberOfPlayers then Some(AssertionFailed)
    else None
  }

  /** On a full deck, dealing succeeds exactly when the number of players
      is neither negative (no hands are dealt, so the count check fails)
      nor above 26; every simulation that can be created (at most 22
      players) leaves enough cards for the board. */
  lemma {:induction false} FullDeckDeals(numberOfPlayers: int)
    ensures DealFailure(52, numberOfPlayers) == None <==> 0 <= numberOfPlayers <= 26
    ensures 0 <= numberOfPlayers <= MAX_PLAYERS ==> 52 - 2 * numberOfPlayers >= 5
  {
  }

  // ---------------------------------------------------------------------
  // No card twice

  /** Dealing the top `k` cards of the deck round robin in place of the
      old hands keeps every card once. */
  lemma {:induction false} DealKeepsCards(hands: seq<seq<PlayingCard>>, board: seq<PlayingCard>, deck: seq<PlayingCard>, k: nat, n: nat)
    requires k <= |deck| && k <= 2 * n
    requires Distinct(FlattenGroups(hands) + board + deck)
    ensures Distinct(FlattenGroups(RoundRobin(Drawn(deck, k), n)) + board + deck[..|deck| - k])
  {
    RoundRobinConserves(Drawn(deck, k), n);
    DrawnAndLeft(deck, k);
    DistinctSub(FlattenGroups(hands) + board + deck, FlattenGroups(RoundRobin(Drawn(deck, k), n)) + board + deck[..|deck| - k]);
  }

  /** Moving the top `k` cards of the deck onto the board keeps every card
      once. */
  lemma {:induction false} BoardKeepsCards(hands: seq<seq<PlayingCard>>, board: seq<PlayingCard>, deck: seq<PlayingCard>, k: nat)
    requires k <= |deck|
    requires Distinct(FlattenGroups(hands) + board + deck)
    ensures Distinct(FlattenGroups(hands) + (board + Drawn(deck, k)) + deck[..|deck| - k])
  {
    var held, drawn, left := FlattenGroups(hands), Drawn(deck, k), deck[..|deck| - k];
    DrawnAndLeft(deck, k);
    calc {
      multiset(held + (board + drawn) + left);
      multiset(held) + multiset(board) + multiset(drawn) + multiset(left);
      multiset(held + board + deck);
    }
    DistinctSub(held + board + deck, held + (board + drawn) + left);
  }

  // ---------------------------------------------------------------------
  // Drawing from the deck

  /** The loops of `deal_hands`: two rounds over `n` players, each player
      drawing one card per round; `emptied` tells that a `draw` found the
      deck empty, which ends the dealing. */
  method DealRoundRobin(deck: DeckOfCards, n: nat) returns (hands: seq<seq<PlayingCard>>, emptied: bool)
    modifies deck
    ensures var k := if 2 * n <= |old(deck.cards)| then 2 * n else |old(deck.cards)|;
      hands == RoundRobin(Drawn(old(deck.cards), k), n) &&
      deck.cards == old(deck.cards)[..|old(deck.cards)| - k]
    ensures emptied <==> 2 * n > |old(deck.cards)|
  {
    ghost var deck0 := deck.cards;
    hands := seq(n, _ => []);
    NoneDealt(n);
    emptied := false;
    for round := 0 to 2
      invariant !emptied
      invariant var k := if round == 0 then 0 else if round == 1 then n else 2 * n;
        k <= |deck0| && deck.cards == deck0[..|deck0| - k] && hands == RoundRobin(Drawn(deck0, k), n)
    {
      hands, emptied := DealRound(deck, hands, n, deck0, round);
      if emptied {
        return;
      }
    }
  }

  /** One round of `deal_hands`: each of the `n` players in turn draws one
      card, until the deck is empty. */
  method DealRound(deck: DeckOfCards, hands: seq<seq<PlayingCard>>, n: nat, ghost deck0: seq<PlayingCard>, ghost round: nat)
    returns (dealt: seq<seq<PlayingCard>>, emptied: bool)
    requires round < 2 && Turn(n, round, 0) <= |deck0| && deck.cards == deck0[..|deck0| - Turn(n, round, 0)]
    requires hands == RoundRobin(Drawn(deck0, Turn(n, round, 0)), n)
    modifies deck
    ensures var k := if Turn(n, round, n) <= |deck0| then Turn(n, round, n) else |deck0|;
      dealt == RoundRobin(Drawn(deck0, k), n) && deck.cards == deck0[..|deck0| - k]
    ensures emptied <==> Turn(n, round, n) > |deck0|
  {
    dealt := hands;
    for p := 0 to n
      invariant Turn(n, round, p) <= |deck0| && deck.cards == deck0[..|deck0| - Turn(n, round, p)]
      invariant dealt == RoundRobin(Drawn(deck0, Turn(n, round, p)), n)
    {
      var card := deck.Draw();
      if card.Err? {
        return dealt, true;
      }
      RoundRobinStep(Drawn(deck0, Turn(n, round, p)), n, round, p, card.value);
      dealt := dealt[p := dealt[p] + [card.value]];
    }
    return dealt, false;
  }

  /** The loop of `deal_community_cards`: `count` draws, in order;
      `emptied` tells that a `draw` found the deck empty, which ends the
      loop. */
  method DrawCards(deck: DeckOfCards, count: nat) returns (drawn: seq<PlayingCard>, emptied: bool)
    modifies deck
    ensures var k := if count <= |old(deck.cards)| then count else |old(deck.cards)|;
      drawn == Drawn(old(deck.cards), k) && deck.cards == old(deck.cards)[..|old(deck.cards)| - k]
    ensures emptied <==> count > |old(deck.cards)|
  {
    ghost var deck0 := deck.cards;
    drawn := [];
    for i := 0 to count
      invariant i <= |deck0| && deck.cards == deck0[..|deck0| - i]
      invariant drawn == Drawn(deck0, i)
    {
      var card := deck.Draw();
      if card.Err? {
        return drawn, true;
      }
      drawn := drawn + [card.value];
    }
    return drawn, false;
  }

  // ---------------------------------------------------------------------
  // The simulation

  /** `PokerSimulation`: the number of players, a deck shuffled at
      creation, the simulator's `PokerEvaluator`, the players' hole cards
      and the community cards. */
  class PokerSimulation {
    var numberOfPlayers: int
    var deck: DeckOfCards
    var evaluator: PokerEvaluator
    var players: seq<seq<PlayingCard>>
    var communityCards: seq<PlayingCard>

    /** Every card of the game: the hands, the board and the deck. */
    function InPlay(): seq<PlayingCard>
      reads this, deck
    {
      FlattenGroups(players) + communityCards + deck.cards
    }

    /** No card is in two places, or twice in one. */
    ghost predicate Valid()
      reads this, deck
    {
      Distinct(InPlay())
    }

    constructor Make(numberOfPlayers: int, deck: DeckOfCards, evaluator: PokerEvaluator)
      ensures this.numberOfPlayers == numberOfPlayers && this.deck == deck && this.evaluator == evaluator
      ensures players == [] && communityCards == []
    {
      this.numberOfPlayers := numberOfPlayers;
      this.deck := deck;
      this.evaluator := evaluator;
      players := [];
      communityCards := [];
    }

    /** Creation and `__post_init__`: the deck is a fresh full deck,
        shuffled with the random numbers `draws`; more than 22 players are
        refused. */
    static method Create(numberOfPlayers: int, draws: seq<nat>, evaluator: PokerEvaluator) returns (r: Result<PokerSimulation>)
      requires |draws| >= 52
      ensures r.Err? <==> numberOfPlayers > MAX_PLAYERS
      ensures r.Err? ==> r.error == TooManyPlayers(numberOfPlayers)
      ensures r.Ok? ==> fresh(r.value) && fresh(r.value.deck)
      ensures r.Ok? ==> r.value.numberOfPlayers == numberOfPlayers && r.value.evaluator == evaluator
      ensures r.Ok? ==> r.value.players == [] && r.value.communityCards == []
      ensures r.Ok? ==> multiset(r.value.deck.cards) == multiset(STARTING_DECK) && r.value.Valid()
    {
      var fullDeck := new DeckOfCards();
      StartingDeckComplete();
      var deck := fullDeck.Shuffle(draws);
      if numberOfPlayers > MAX_PLAYERS {
        return Err(TooManyPlayers(numberOfPlayers));
      }
      var sim := new PokerSimulation.Make(numberOfPlayers, deck, evaluator);
      StartingDeckFull();
      DistinctSub(STARTING_DECK, deck.cards);
      assert sim.InPlay() == deck.cards;
      return Ok(sim);
    }

    /** `deal_hands`: fresh empty hands, then two rounds over the players,
        each drawing one card; a failing `draw` leaves the cards dealt so
        far, and at the end the deck must hold `52 - 2 * n` cards. */
    method DealHands() returns (failure: Option<Error>)
      requires Valid()
      modifies this, deck
      ensures deck == old(deck) && evaluator == old(evaluator)
      ensures numberOfPlayers == old(numberOfPlayers) && communityCards == old(communityCards)
      ensures var n := PlayerCount(numberOfPlayers);
        var k := if 2 * n <= |old(deck.cards)| then 2 * n else |old(deck.cards)|;
        players == RoundRobin(Drawn(old(deck.cards), k), n) &&
        deck.cards == old(deck.cards)[..|old(deck.cards)| - k]
      ensures failure == DealFailure(|old(deck.cards)|, numberOfPlayers)
      ensures Valid()
    {
      var n := PlayerCount(numberOfPlayers);
      ghost var deck0 := deck.cards;
      ghost var k := if 2 * n <= |deck0| then 2 * n else |deck0|;
      var hands, emptied := DealRoundRobin(deck, n);
      DealKeepsCards(players, communityCards, deck0, k, n);
      players := hands;
      assert InPlay() == FlattenGroups(RoundRobin(Drawn(deck0, k), n)) + communityCards + deck0[..|deck0| - k];
      if emptied {
        return Some(EmptyDeck);
      }
      if |deck.cards| != 52 - 2 * numberOfPlayers {
        return Some(AssertionFailed);
      }
      return None;
    }

    /** `deal_community_cards`: five draws onto the board; a failing
        `draw` leaves the cards drawn so far. */
    method DealCommunityCards() returns (failure: Option<Error>)
      requires Valid()
      modifies this, deck
      ensures deck == old(deck) && evaluator == old(evaluator)
      ensures numberOfPlayers == old(numberOfPlayers) && players == old(players)
      ensures var k := if 5 <= |old(deck.cards)| then 5 else |old(deck.cards)|;
        communityCards == old(communityCards) + Drawn(old(deck.cards), k) &&
        deck.cards == old(deck.cards)[..|old(deck.cards)| - k]
      ensures failure == if |old(deck.cards)| < 5 then Some(EmptyDeck) else None
      ensures Valid()
    {
      ghost var deck0 := deck.cards;
      var drawn, emptied := DrawCards(deck, 5);
      BoardKeepsCards(players, communityCards, deck0, |drawn|);
      communityCards := communityCards + drawn;
      if emptied {
        return Some(EmptyDeck);
      }
      return None;
    }

    /** The hands and the board dealt from `deck0`, two cards to each
        player and then five onto the board `board0`, and the deck left. */
    ghost predicate DealtFrom(deck0: seq<PlayingCard>, board0: seq<PlayingCard>)
      reads this, deck
    {
      var n := PlayerCount(numberOfPlayers);
      && 2 * n + 5 <= |deck0|
      && players == RoundRobin(Drawn(deck0, 2 * n), n)
      && communityCards == board0 + Drawn(deck0[..|deck0| - 2 * n], 5)
      && deck.cards == deck0[..|deck0| - 2 * n - 5]
    }

    /** `run`: deal the hands, deal the board and evaluate the game with the
        simulator's window scan. The source discards the result of
        `evaluate`; here it is returned. */
    method Run() returns (r: Result<SimResult>)
      requires Valid()
      modifies this, deck
      ensures deck == old(deck) && evaluator == old(evaluator) && Valid()
      ensures var f := DealFailure(|old(deck.cards)|, numberOfPlayers);
        f.Some? ==> r == Err(f.value)
      ensures var n := PlayerCount(numberOfPlayers);
        DealFailure(|old(deck.cards)|, numberOfPlayers).None? && |old(deck.cards)| < 2 * n + 5 ==> r == Err(EmptyDeck)
      ensures var n := PlayerCount(numberOfPlayers);
        DealFailure(|old(deck.cards)|, numberOfPlayers).None? && |old(deck.cards)| >= 2 * n + 5 ==>
          DealtFrom(old(deck.cards), old(communityCards)) && r == SimResolve(evaluator.values, players, communityCards)
    {
      var dealt := DealHands();
      if dealt.Some? {
        return Err(dealt.value);
      }
      var boarded := DealCommunityCards();
      if boarded.Some? {
        return Err(boarded.value);
      }
      assert DealtFrom(old(deck.cards), old(communityCards));
      r := evaluator.Evaluate(players, communityCards);
    }
  }
}
