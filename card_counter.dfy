/**
 * The running/true count tracker (src/counting/card_counter.py). The ghost list
 * `seen` records the cards passed to `UpdateCount` since the last reset; the two
 * accumulators are proved to be its weight sum and its length.
 */
module Counters {
  import opened Cards
  import opened CountingSystems

  class CardCounter {
    const system: CountingSystem
    const numDecks: int
    var runningCount: int
    var cardsSeen: int
    ghost var seen: seq<Card>

    ghost predicate Valid()
      reads this
    {
      runningCount == WeightSum(system, seen) && cardsSeen == |seen|
    }

    /** `CardCounter(system, num_decks)`: both accumulators start at 0. */
    constructor (system: CountingSystem, numDecks: int)
      ensures Valid() && this.system == system && this.numDecks == numDecks
      ensures seen == [] && runningCount == 0 && cardsSeen == 0
    {
      this.system := system;
      this.numDecks := numDecks;
      runningCount := 0;
      cardsSeen := 0;
      seen := [];
    }

    /** `update_count`: adds the card's weight to the running count and 1 to the cards seen. */
    method UpdateCount(c: Card)
      requires Valid()
      modifies this
      ensures Valid() && seen == old(seen) + [c]
      ensures runningCount == old(runningCount) + Weight(system, c) && cardsSeen == old(cardsSeen) + 1
    {
      runningCount := runningCount + Weight(system, c);
      cardsSeen := cardsSeen + 1;
      seen := seen + [c];
      WeightSumSnoc(system, old(seen), c);
    }

    /** `reset`. */
    method Reset()
      modifies this
      ensures Valid() && seen == [] && runningCount == 0 && cardsSeen == 0
    {
      runningCount := 0;
      cardsSeen := 0;
      seen := [];
    }

    /** `remaining_decks`: unseen cards over 52, with no clamping at 0. */
    function RemainingDecks(): (d: real)
      reads this
      ensures d * 52.0 == (52 * numDecks - cardsSeen) as real
      ensures cardsSeen > 52 * numDecks ==> d < 0.0
    {
      DecksLeft(numDecks, cardsSeen)
    }

    /** `true_count`: the running count per remaining deck, or exactly 0 when no deck remains. */
    function TrueCount(): (tc: real)
      reads this
      ensures RemainingDecks() <= 0.0 ==> tc == 0.0
    {
      PerDeck(runningCount, RemainingDecks())
    }
  }

  /** The decks left in a shoe of `numDecks` decks once `cardsSeen` cards are out. */
  function DecksLeft(numDecks: int, cardsSeen: int): real {
    (52 * numDecks - cardsSeen) as real / 52.0
  }

  /** A count per remaining deck, or 0 when no deck remains. */
  function PerDeck(running: int, decks: real): real {
    if decks <= 0.0 then 0.0 else running as real / decks
  }

  /** While some deck remains, the true count times the remaining decks is the running count, and has its sign. */
  lemma TrueCountPerDeck(running: int, decks: real)
    requires decks > 0.0
    ensures PerDeck(running, decks) * decks == running as real
    ensures running > 0 ==> PerDeck(running, decks) > 0.0
    ensures running < 0 ==> PerDeck(running, decks) < 0.0
  {
    QuotientSign(running as real, decks);
  }

  /** While some card remains unseen, the true count is 52 times the running count per unseen card. */
  lemma TrueCountPerCard(running: int, numDecks: int, cardsSeen: int)
    requires 52 * numDecks > cardsSeen
    ensures PerDeck(running, DecksLeft(numDecks, cardsSeen)) * (52 * numDecks - cardsSeen) as real == 52.0 * running as real
  {
    var decks := DecksLeft(numDecks, cardsSeen);
    TrueCountPerDeck(running, decks);
    assert decks * 52.0 == (52 * numDecks - cardsSeen) as real;
    ScaleByDeck(PerDeck(running, decks), decks, running as real);
  }

  /** A quotient per deck, scaled from decks to cards. */
  lemma ScaleByDeck(q: real, decks: real, total: real)
    requires q * decks == total
    ensures q * (decks * 52.0) == 52.0 * total
  {
  }

  /** A quotient by a positive number times that number is the dividend, and has the dividend's sign. */
  lemma QuotientSign(x: real, d: real)
    requires d > 0.0
    ensures (x / d) * d == x
    ensures x > 0.0 ==> x / d > 0.0
    ensures x < 0.0 ==> x / d < 0.0
  {
  }

  /** Counting 5, K, 6, 7 with Hi-Lo leaves a running count of +1 after four cards. */
  method HiLoScenario() returns (running: int, seenCount: int)
    ensures running == 1 && seenCount == 4
  {
    var counter := new CardCounter(HiLo, 6);
    counter.UpdateCount(Card(Hearts, Five));
    counter.UpdateCount(Card(Spades, King));
    counter.UpdateCount(Card(Clubs, Six));
    counter.UpdateCount(Card(Diamonds, Seven));
    running := counter.runningCount;
    seenCount := counter.cardsSeen;
  }

  /** With one deck and no card seen, the true count equals the running count. */
  lemma OneDeckTrueCount(counter: CardCounter)
    requires counter.numDecks == 1 && counter.cardsSeen == 0
    ensures counter.TrueCount() == counter.runningCount as real
  {
  }
}
