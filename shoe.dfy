/**
 * The shoe (src/models/shoe.py): an ordered list of cards dealt from the front,
 * a dealt counter, and a penetration threshold after which it must be shuffled.
 * `ShoeView` is the shoe's state as a value; the game's transitions are stated on it.
 */
module Shoes {
  import opened Wrappers
  import opened Errors
  import opened Cards
  import Rules
  import Validation

  datatype ShoeView = ShoeView(cards: seq<Card>, dealt: nat, threshold: int)

  /** `needs_shuffle`: the dealt count has reached the threshold. */
  predicate ShuffleDue(v: ShoeView) {
    v.dealt >= v.threshold
  }

  /** `deal_card` on a shoe state: the new state and the card or the error. */
  function Deal(v: ShoeView): (out: (ShoeView, Result<Card, ErrorKind>))
    ensures ShuffleDue(v) ==> out == (v, Failure(GameLogicError(PenetrationReached)))
    ensures !ShuffleDue(v) && v.cards == [] ==> out == (v, Failure(GameLogicError(ShoeEmpty)))
    ensures out.1.Success? <==> !ShuffleDue(v) && v.cards != []
    ensures out.1.Success? ==> [out.1.value] + out.0.cards == v.cards
    ensures out.1.Success? ==> out.0.dealt == v.dealt + 1 && out.0.threshold == v.threshold
  {
    if ShuffleDue(v) then (v, Failure(GameLogicError(PenetrationReached)))
    else if v.cards == [] then (v, Failure(GameLogicError(ShoeEmpty)))
    else (ShoeView(v.cards[1..], v.dealt + 1, v.threshold), Success(v.cards[0]))
  }

  /** Dealing moves one card from the shoe to the dealt count, so their sum is kept. */
  lemma DealKeepsCardsPlusDealt(v: ShoeView)
    ensures |Deal(v).0.cards| + Deal(v).0.dealt == |v.cards| + v.dealt
  {
  }

  /**
   * A shoe that is empty but below its threshold is stuck: every deal fails with
   * `ShoeEmpty` and leaves it unchanged, and `needs_shuffle` never becomes true.
   */
  lemma {:induction false} EmptyShoeBelowThresholdIsStuck(v: ShoeView, n: nat)
    requires v.cards == [] && v.dealt < v.threshold
    ensures Repeat(v, n) == v && !ShuffleDue(Repeat(v, n))
    ensures Deal(Repeat(v, n)).1 == Failure(GameLogicError(ShoeEmpty))
  {
    if n > 0 {
      EmptyShoeBelowThresholdIsStuck(v, n - 1);
    }
  }

  /** The first `k` deals of a shoe with cards left before its threshold all succeed, taking the cards in order. */
  lemma {:induction false} RepeatTakesFront(v: ShoeView, k: nat)
    requires k <= |v.cards| && |v.cards| + v.dealt <= v.threshold
    ensures Repeat(v, k) == ShoeView(v.cards[k..], v.dealt + k, v.threshold)
  {
    if k > 0 {
      RepeatTakesFront(v, k - 1);
      assert v.cards[k - 1..][1..] == v.cards[k..];
    }
  }

  /**
   * A shoe holding fewer cards than it may deal before its threshold runs dry
   * first: after its last card it is empty, below the threshold, and stuck.
   */
  lemma ShortShoeRunsDry(v: ShoeView)
    requires |v.cards| + v.dealt < v.threshold
    ensures var w := Repeat(v, |v.cards|);
      w.cards == [] && !ShuffleDue(w) && Deal(w).1 == Failure(GameLogicError(ShoeEmpty))
  {
    RepeatTakesFront(v, |v.cards|);
  }

  /** The shoe state after `n` deals, successful or not. */
  function Repeat(v: ShoeView, n: nat): ShoeView {
    if n == 0 then v else Deal(Repeat(v, n - 1)).0
  }

  /** `int(total_cards * penetration)`, the floor of a non-negative product. */
  function Threshold(numDecks: int, penetration: real): int {
    ((52 * numDecks) as real * penetration).Floor
  }

  /**
   * The threshold is the floor of the product; for an accepted configuration the
   * shoe is due for a shuffle after at least 5 cards and before its last card.
   */
  lemma ThresholdBounds(numDecks: int, penetration: real)
    requires Rules.AllowedDeckCount(numDecks) && 0.1 <= penetration <= 0.95
    ensures var t := Threshold(numDecks, penetration);
      t as real <= (52 * numDecks) as real * penetration < (t + 1) as real
      && 5 <= t < 52 * numDecks
  {
    var total := (52 * numDecks) as real;
    var t := Threshold(numDecks, penetration);
    assert total >= 52.0;
    assert total * penetration >= total * 0.1 >= 5.2;
    assert total * penetration <= total * 0.95 < total;
  }

  // ---------------------------------------------------------------------------
  // The cards of a fresh shoe

  /** The position of a rank in `Rank`'s enumeration order. */
  function RankIndex(r: Rank): (k: nat)
    ensures k < 13 && AllRanks[k] == r
  {
    match r
    case Ace => 0 case Two => 1 case Three => 2 case Four => 3 case Five => 4 case Six => 5 case Seven => 6
    case Eight => 7 case Nine => 8 case Ten => 9 case Jack => 10 case Queen => 11 case King => 12
  }

  /** The position of a suit in `Suit`'s enumeration order. */
  function SuitIndex(s: Suit): (k: nat)
    ensures k < 4 && AllSuits[k] == s
  {
    match s
    case Hearts => 0 case Diamonds => 1 case Clubs => 2 case Spades => 3
  }

  /** The card `_create_decks` appends `i`-th within each deck: suits outer, ranks inner. */
  function DeckCard(i: nat): Card
    requires i < 52
  {
    Card(AllSuits[i / 13], AllRanks[i % 13])
  }

  /** One deck in creation order. */
  function OneDeck(): (cards: seq<Card>)
    ensures |cards| == 52 && forall i :: 0 <= i < 52 ==> cards[i] == DeckCard(i)
  {
    seq(52, i requires 0 <= i < 52 => DeckCard(i))
  }

  /** `n` decks in a row. */
  function FreshShoe(n: nat): (cards: seq<Card>)
    ensures |cards| == 52 * n
  {
    if n == 0 then [] else FreshShoe(n - 1) + OneDeck()
  }

  /** The deck prefix grows by the card at its end. */
  lemma DeckPrefixStep(si: nat, ri: nat)
    requires si < 4 && ri < 13
    ensures OneDeck()[..13 * si + ri + 1] == OneDeck()[..13 * si + ri] + [Card(AllSuits[si], AllRanks[ri])]
  {
    var k := 13 * si + ri;
    assert k / 13 == si && k % 13 == ri;
    assert OneDeck()[k] == Card(AllSuits[si], AllRanks[ri]);
  }

  lemma RankIndexOfPosition(k: nat)
    requires k < 13
    ensures RankIndex(AllRanks[k]) == k
  {
  }

  lemma SuitIndexOfPosition(k: nat)
    requires k < 4
    ensures SuitIndex(AllSuits[k]) == k
  {
  }

  /** No card occurs twice in a deck. */
  lemma OneDeckDistinct(i: nat, j: nat)
    requires i < 52 && j < 52 && DeckCard(i) == DeckCard(j)
    ensures i == j
  {
    RankIndexOfPosition(i % 13);
    RankIndexOfPosition(j % 13);
    SuitIndexOfPosition(i / 13);
    SuitIndexOfPosition(j / 13);
  }

  /** An element occurs once in a sequence without repetitions if it is there at all. */
  lemma {:induction false} CountInDistinct<T>(s: seq<T>, x: T)
    requires forall i, j :: 0 <= i < j < |s| ==> s[i] != s[j]
    ensures multiset(s)[x] == if x in s then 1 else 0
  {
    if s != [] {
      var t := s[..|s| - 1];
      CountInDistinct(t, x);
      assert s == t + [s[|s| - 1]];
      assert x in s <==> x in t || x == s[|s| - 1];
      if x == s[|s| - 1] {
        assert x !in t;
      }
    }
  }

  /** A deck holds every card exactly once. */
  lemma OneDeckCount(c: Card)
    ensures multiset(OneDeck())[c] == 1
  {
    var deck := OneDeck();
    forall i, j | 0 <= i < j < |deck| ensures deck[i] != deck[j] {
      if deck[i] == deck[j] {
        OneDeckDistinct(i, j);
      }
    }
    CountInDistinct(deck, c);
    var k := 13 * SuitIndex(c.suit) + RankIndex(c.rank);
    assert deck[k] == c;
  }

  /** A fresh shoe of `n` decks holds every (suit, rank) exactly `n` times. */
  lemma {:induction false} FreshShoeCount(n: nat, c: Card)
    ensures multiset(FreshShoe(n))[c] == n
  {
    if n > 0 {
      FreshShoeCount(n - 1, c);
      OneDeckCount(c);
    }
  }

  // ---------------------------------------------------------------------------
  // The shoe object

  class Shoe {
    const numDecks: int
    const penetration: real
    const totalCards: int
    const threshold: int
    var cards: seq<Card>
    var cardsDealt: nat

    /** The configuration the constructor accepted and the quantities derived from it. */
    ghost predicate Valid()
      reads this
    {
      Rules.AllowedDeckCount(numDecks) && 0.1 <= penetration <= 0.95
      && totalCards == 52 * numDecks && 5 <= threshold < totalCards
    }

    function View(): ShoeView
      reads this
    {
      ShoeView(cards, cardsDealt, threshold)
    }

    /** The body of `__init__` once the configuration has been validated. */
    constructor (numDecks: int, penetration: real, shuffleOnInit: bool, draws: seq<nat>)
      requires Rules.AllowedDeckCount(numDecks) && 0.1 <= penetration <= 0.95
      ensures Valid() && this.numDecks == numDecks && this.penetration == penetration
      ensures threshold == Threshold(numDecks, penetration)
      ensures multiset(cards) == multiset(FreshShoe(numDecks)) && |cards| == totalCards
      ensures !shuffleOnInit ==> cards == FreshShoe(numDecks)
      ensures cardsDealt == 0 && Complete()
    {
      this.numDecks := numDecks;
      this.penetration := penetration;
      totalCards := numDecks * 52;
      threshold := Threshold(numDecks, penetration);
      ThresholdBounds(numDecks, penetration);
      cards := [];
      cardsDealt := 0;
      new;
      CreateDecks();
      if shuffleOnInit {
        Shuffle(draws);
      }
      cardsDealt := 0;
    }

    /** `_create_decks`: the cards of `numDecks` fresh decks in order. */
    method CreateDecks()
      requires numDecks >= 0
      modifies this
      ensures cards == FreshShoe(numDecks) && cardsDealt == old(cardsDealt)
    {
      cards := [];
      var d := 0;
      while d < numDecks
        invariant 0 <= d <= numDecks
        invariant cards == FreshShoe(d) && cardsDealt == old(cardsDealt)
      {
        var si := 0;
        while si < 4
          invariant 0 <= si <= 4
          invariant cards == FreshShoe(d) + OneDeck()[..13 * si] && cardsDealt == old(cardsDealt)
        {
          var ri := 0;
          while ri < 13
            invariant 0 <= ri <= 13
            invariant cards == FreshShoe(d) + OneDeck()[..13 * si + ri]
            invariant cardsDealt == old(cardsDealt)
          {
            DeckPrefixStep(si, ri);
            cards := cards + [Card(AllSuits[si], AllRanks[ri])];
            ri := ri + 1;
          }
          si := si + 1;
        }
        assert OneDeck()[..52] == OneDeck();
        d := d + 1;
      }
    }

    /**
     * `shuffle`: `random.shuffle` of the cards still in the shoe, with the random
     * choices given as `draws`, then the dealt count goes back to 0.
     */
    method Shuffle(draws: seq<nat>)
      modifies this
      ensures multiset(cards) == multiset(old(cards)) && |cards| == |old(cards)|
      ensures cardsDealt == 0
    {
      var i := |cards|;
      var k := 0;
      while i > 1
        invariant 0 <= i <= |cards| && |cards| == |old(cards)|
        invariant multiset(cards) == multiset(old(cards))
      {
        i := i - 1;
        var j := (if k < |draws| then draws[k] else 0) % (i + 1);
        cards := cards[i := cards[j]][j := cards[i]];
        k := k + 1;
      }
      cardsDealt := 0;
    }

    /** Every card of the shoe is either still in it or counted as dealt: true from construction or `reset` until the next `shuffle`. */
    ghost predicate Complete()
      reads this
    {
      |cards| + cardsDealt == totalCards
    }

    /** `cards_remaining`. */
    method CardsRemaining() returns (n: int)
      ensures n == |View().cards|
      ensures Complete() ==> n == totalCards - cardsDealt
    {
      n := |cards|;
    }

    /** `cards_dealt_count`. */
    method CardsDealtCount() returns (n: int)
      ensures n == View().dealt
      ensures Complete() ==> n == totalCards - |cards|
    {
      n := cardsDealt;
    }

    /** `needs_shuffle`. */
    method NeedsShuffle() returns (b: bool)
      ensures b == ShuffleDue(View())
      ensures Valid() && Complete() ==> (b <==> |cards| <= totalCards - threshold)
    {
      b := cardsDealt >= threshold;
    }

    /** `deal_card`: a deal keeps the shoe complete. */
    method DealCard() returns (r: Result<Card, ErrorKind>)
      modifies this
      ensures (View(), r) == Deal(old(View()))
      ensures old(Complete()) ==> Complete()
    {
      if cardsDealt >= threshold {
        return Failure(GameLogicError(PenetrationReached));
      }
      if cards == [] {
        return Failure(GameLogicError(ShoeEmpty));
      }
      var card := cards[0];
      cards := cards[1..];
      cardsDealt := cardsDealt + 1;
      return Success(card);
    }

    /** `reset`: rebuild every deck, then shuffle. */
    method Reset(draws: seq<nat>)
      requires Valid()
      modifies this
      ensures Valid()
      ensures multiset(cards) == multiset(FreshShoe(numDecks)) && Complete()
      ensures cardsDealt == 0
    {
      CreateDecks();
      Shuffle(draws);
    }
  }

  /** `Shoe(num_decks, penetration, shuffle_on_init)`: a bad configuration is an `InvalidConfigurationError`. */
  method NewShoe(numDecks: int, penetration: real, shuffleOnInit: bool, draws: seq<nat>) returns (r: Result<Shoe, ErrorKind>)
    ensures r.Success? <==> Rules.AllowedDeckCount(numDecks) && 0.1 <= penetration <= 0.95
    ensures !Rules.AllowedDeckCount(numDecks) ==> r == Failure(InvalidConfigurationError(BadDeckCount))
    ensures Rules.AllowedDeckCount(numDecks) && !(0.1 <= penetration <= 0.95) ==> r == Failure(InvalidConfigurationError(BadPenetration))
    ensures r.Success? ==> fresh(r.value) && r.value.Valid() && r.value.numDecks == numDecks && r.value.penetration == penetration
    ensures r.Success? ==> multiset(r.value.cards) == multiset(FreshShoe(numDecks)) && r.value.cardsDealt == 0
  {
    var decks := Validation.ValidateDeckCount(numDecks);
    if decks.Failure? {
      return Failure(InvalidConfigurationError(decks.error.reason));
    }
    var pen := Validation.ValidatePenetration(penetration);
    if pen.Failure? {
      return Failure(InvalidConfigurationError(pen.error.reason));
    }
    var shoe := new Shoe(numDecks, penetration, shuffleOnInit, draws);
    return Success(shoe);
  }

  /** Six decks at 75% penetration: 312 cards, reshuffle after 234. */
  lemma DefaultShoe()
    ensures Threshold(6, 0.75) == 234
  {
    assert (52 * 6) as real * 0.75 == 234.0;
  }
}
