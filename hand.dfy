/**
 * Blackjack hands (src/models/hand.py). The value of a hand starts with every ace
 * counted as 11 and demotes one ace at a time to 1 while the total is over 21.
 * The spec functions below describe that computation; the `Hand` class keeps the
 * card list that the game mutates, and its queries are the source's loops.
 */
module Hands {
  import opened Cards

  /** Number of aces among the cards. */
  function AceCount(cards: seq<Card>): (n: nat)
    ensures n <= |cards|
  {
    if cards == [] then 0
    else AceCount(cards[..|cards| - 1]) + (if cards[|cards| - 1].rank == Ace then 1 else 0)
  }

  /** The total with every ace counted as 11 (the first loop of `value`). */
  function ElevenTotal(cards: seq<Card>): int {
    if cards == [] then 0
    else
      var c := cards[|cards| - 1];
      ElevenTotal(cards[..|cards| - 1]) + (if c.rank == Ace then 11 else Value(c, false))
  }

  /** The total with every ace counted as 1. */
  function HardTotal(cards: seq<Card>): int {
    if cards == [] then 0 else HardTotal(cards[..|cards| - 1]) + Value(cards[|cards| - 1], false)
  }

  /** The total when exactly `j` of the aces count as 11. */
  function AssignedTotal(cards: seq<Card>, j: nat): int {
    HardTotal(cards) + 10 * j
  }

  /** The demotion loop on (total, aces counted as 11). */
  function Demote(total: int, aces: nat): (int, nat)
    decreases aces
  {
    if total > 21 && aces > 0 then Demote(total - 10, aces - 1) else (total, aces)
  }

  /** `Hand.value`. */
  function BestTotal(cards: seq<Card>): int {
    Demote(ElevenTotal(cards), AceCount(cards)).0
  }

  /** The number of aces still counted as 11 after the demotion loop. */
  function SoftAces(cards: seq<Card>): nat {
    Demote(ElevenTotal(cards), AceCount(cards)).1
  }

  /** `Hand.is_soft`: the hand has an ace and one is still counted as 11 after demotion. */
  predicate Soft(cards: seq<Card>) {
    AceCount(cards) > 0 && SoftAces(cards) > 0
  }

  /** `Hand.is_blackjack`: two cards worth 21. */
  predicate BlackjackHand(cards: seq<Card>) {
    |cards| == 2 && BestTotal(cards) == 21
  }

  /** `Hand.is_bust`. */
  predicate Bust(cards: seq<Card>) {
    BestTotal(cards) > 21
  }

  /** `Hand.can_split`: two cards of equal rank or of equal value with aces as 1. */
  predicate Splittable(cards: seq<Card>) {
    |cards| == 2 && (cards[0].rank == cards[1].rank || Value(cards[0], false) == Value(cards[1], false))
  }

  /** `Hand.can_double`. */
  predicate Doublable(cards: seq<Card>) {
    |cards| == 2
  }

  // ---------------------------------------------------------------------------
  // Properties of the value computation

  /** Counting every ace as 11 adds exactly 10 per ace to the all-aces-as-1 total. */
  lemma {:induction false} ElevenIsHardPlusTens(cards: seq<Card>)
    ensures ElevenTotal(cards) == HardTotal(cards) + 10 * AceCount(cards)
    ensures AceCount(cards) <= HardTotal(cards)
  {
    if cards != [] {
      ElevenIsHardPlusTens(cards[..|cards| - 1]);
    }
  }

  /** The demotion loop stops at an ace assignment: under 21 if an ace is still high, and at the highest such assignment. */
  lemma {:induction false} DemoteResult(h: int, a: nat)
    ensures Demote(h + 10 * a, a).1 <= a
    ensures Demote(h + 10 * a, a).0 == h + 10 * Demote(h + 10 * a, a).1
    ensures Demote(h + 10 * a, a).1 > 0 ==> Demote(h + 10 * a, a).0 <= 21
    ensures Demote(h + 10 * a, a).1 < a ==> h + 10 * (Demote(h + 10 * a, a).1 + 1) > 21
    decreases a
  {
    if h + 10 * a > 21 && a > 0 {
      DemoteResult(h, a - 1);
    }
  }

  /**
   * `Hand.value` is an ace assignment: the highest one that does not bust when one
   * exists, and the all-aces-as-1 total otherwise.
   */
  lemma BestTotalIsBestAssignment(cards: seq<Card>)
    ensures SoftAces(cards) <= AceCount(cards)
    ensures BestTotal(cards) == AssignedTotal(cards, SoftAces(cards))
    ensures HardTotal(cards) <= 21 ==> BestTotal(cards) <= 21
    ensures HardTotal(cards) > 21 ==> BestTotal(cards) == HardTotal(cards)
    ensures forall j: nat {:trigger AssignedTotal(cards, j)} ::
      j <= AceCount(cards) && AssignedTotal(cards, j) <= 21 ==> AssignedTotal(cards, j) <= BestTotal(cards)
  {
    ElevenIsHardPlusTens(cards);
    DemoteResult(HardTotal(cards), AceCount(cards));
  }

  /** `Hand.is_soft` holds iff the hand has an ace and counting one ace as 11 does not bust. */
  lemma SoftIffAceFits(cards: seq<Card>)
    ensures Soft(cards) <==> AceCount(cards) > 0 && HardTotal(cards) + 10 <= 21
  {
    ElevenIsHardPlusTens(cards);
    DemoteResult(HardTotal(cards), AceCount(cards));
  }

  /** The value of a hand is never below its all-aces-as-1 total. */
  lemma HardAtMostBest(cards: seq<Card>)
    ensures HardTotal(cards) <= BestTotal(cards)
    ensures Soft(cards) ==> BestTotal(cards) >= HardTotal(cards) + 10
  {
    BestTotalIsBestAssignment(cards);
  }

  /** Once the all-aces-as-1 total reaches 17, the hand cannot be soft. */
  lemma HardSeventeenNotSoft(cards: seq<Card>)
    requires HardTotal(cards) >= 17
    ensures !Soft(cards)
  {
    SoftIffAceFits(cards);
  }

  /** Adding a card raises the all-aces-as-1 total by that card's value with aces as 1, so by at least 1. */
  lemma HardTotalGrows(cards: seq<Card>, c: Card)
    ensures HardTotal(cards + [c]) == HardTotal(cards) + Value(c, false)
    ensures HardTotal(cards + [c]) >= HardTotal(cards) + 1
  {
    assert (cards + [c])[..|cards|] == cards;
  }

  /** An empty hand is worth 0 and is neither soft, blackjack, bust, splittable nor doublable. */
  lemma EmptyHand()
    ensures BestTotal([]) == 0 && !Soft([]) && !BlackjackHand([]) && !Bust([]) && !Splittable([]) && !Doublable([])
  {
  }

  // ---------------------------------------------------------------------------
  // The hand object

  class Hand {
    var cards: seq<Card>

    /** `Hand(cards)`: the hand holds its own copy of the initial cards. */
    constructor (initial: seq<Card>)
      ensures cards == initial
    {
      cards := initial;
    }

    /** `add_card`: appends the card; earlier cards and their order are unchanged. */
    method AddCard(c: Card)
      modifies this
      ensures cards == old(cards) + [c]
    {
      cards := cards + [c];
    }

    /** `clear`. */
    method Clear()
      modifies this
      ensures cards == []
    {
      cards := [];
    }

    /** `value`: the source's two loops, proved to compute `BestTotal`. */
    method Value() returns (v: int)
      ensures v == BestTotal(cards)
    {
      var total := 0;
      var aces := 0;
      var i := 0;
      while i < |cards|
        invariant 0 <= i <= |cards|
        invariant total == ElevenTotal(cards[..i]) && aces == AceCount(cards[..i])
      {
        assert cards[..i + 1][..i] == cards[..i];
        if cards[i].rank == Ace {
          aces := aces + 1;
          total := total + 11;
        } else {
          total := total + Cards.Value(cards[i], false);
        }
        i := i + 1;
      }
      assert cards[..i] == cards;
      while total > 21 && aces > 0
        invariant Demote(total, aces) == Demote(ElevenTotal(cards), AceCount(cards))
        decreases aces
      {
        total := total - 10;
        aces := aces - 1;
      }
      v := total;
    }

    /** `is_soft`: no ace means not soft; otherwise the same demotion, soft when an ace remains high. */
    method IsSoft() returns (soft: bool)
      ensures soft == Soft(cards)
    {
      var anyAce := false;
      var k := 0;
      while k < |cards|
        invariant 0 <= k <= |cards|
        invariant anyAce <==> AceCount(cards[..k]) > 0
      {
        assert cards[..k + 1][..k] == cards[..k];
        anyAce := anyAce || cards[k].rank == Ace;
        k := k + 1;
      }
      assert cards[..k] == cards;
      if !anyAce {
        return false;
      }
      var total := 0;
      var aces := 0;
      var i := 0;
      while i < |cards|
        invariant 0 <= i <= |cards|
        invariant total == ElevenTotal(cards[..i]) && aces == AceCount(cards[..i])
      {
        assert cards[..i + 1][..i] == cards[..i];
        if cards[i].rank == Ace {
          aces := aces + 1;
          total := total + 11;
        } else {
          total := total + Cards.Value(cards[i], false);
        }
        i := i + 1;
      }
      assert cards[..i] == cards;
      var acesAsEleven := aces;
      while total > 21 && acesAsEleven > 0
        invariant Demote(total, acesAsEleven) == Demote(ElevenTotal(cards), AceCount(cards))
        decreases acesAsEleven
      {
        total := total - 10;
        acesAsEleven := acesAsEleven - 1;
      }
      soft := acesAsEleven > 0;
    }

    /** `is_blackjack`. */
    method IsBlackjack() returns (b: bool)
      ensures b == BlackjackHand(cards)
    {
      var v := Value();
      b := |cards| == 2 && v == 21;
    }

    /** `can_split`. */
    method CanSplit() returns (b: bool)
      ensures b == Splittable(cards)
      ensures b <==> |cards| == 2 && Cards.Value(cards[0], false) == Cards.Value(cards[1], false)
    {
      if |cards| != 2 {
        return false;
      }
      var c1, c2 := cards[0], cards[1];
      b := c1.rank == c2.rank || Cards.Value(c1, false) == Cards.Value(c2, false);
    }

    /** `can_double`. */
    method CanDouble() returns (b: bool)
      ensures b == Doublable(cards)
    {
      b := |cards| == 2;
    }

    /** `card_count`. */
    method CardCount() returns (n: nat)
      ensures n == |cards|
    {
      n := |cards|;
    }

    /** `is_bust`. */
    method IsBust() returns (b: bool)
      ensures b == Bust(cards)
    {
      var v := Value();
      b := v > 21;
    }
  }
}
