/**
 * A decision point as seen by a strategy (src/models/game_situation.py): the player's
 * cards, the dealer's up card and the flags describing what may be done. Its own
 * total and softness queries are separate loops over the cards; the softness query
 * is NOT the one of `Hands.Soft`.
 */
module Situations {
  import opened Cards
  import opened Hands

  datatype GameSituation = GameSituation(
    playerCards: seq<Card>,
    dealerUpCard: Card,
    canDouble: bool,
    canSplit: bool,
    canSurrender: bool,
    isFirstDecision: bool,
    handNumber: int)

  /** A situation with the dataclass defaults for every flag. */
  function Situation(playerCards: seq<Card>, dealerUpCard: Card): (s: GameSituation)
    ensures s.playerCards == playerCards && s.dealerUpCard == dealerUpCard
    ensures !s.canDouble && !s.canSplit && !s.canSurrender && s.isFirstDecision && s.handNumber == 1
  {
    GameSituation(playerCards, dealerUpCard, false, false, false, true, 1)
  }

  /** `is_soft_hand`: an ace and a total of at most 21 with every ace counted as 11. */
  predicate SoftHand(s: GameSituation) {
    AceCount(s.playerCards) > 0 && ElevenTotal(s.playerCards) <= 21
  }

  /** `is_pair`. */
  predicate Pair(s: GameSituation) {
    |s.playerCards| == 2
    && (s.playerCards[0].rank == s.playerCards[1].rank
        || Value(s.playerCards[0], false) == Value(s.playerCards[1], false))
  }

  /** `is_blackjack`: unlike the hand's test, it also needs the first decision. */
  predicate SituationBlackjack(s: GameSituation) {
    |s.playerCards| == 2 && BestTotal(s.playerCards) == 21 && s.isFirstDecision
  }

  /** `player_total`: the same two loops as `Hand.value`. */
  method PlayerTotal(s: GameSituation) returns (total: int)
    ensures total == BestTotal(s.playerCards)
  {
    var cards := s.playerCards;
    total := 0;
    var aces := 0;
    var i := 0;
    while i < |cards|
      invariant 0 <= i <= |cards|
      invariant total == ElevenTotal(cards[..i]) && aces == AceCount(cards[..i])
    {
      assert cards[..i + 1][..i] == cards[..i];
      if cards[i].rank == Ace {
        aces := aces + 1;
        total := total + 11;
      } else {
        total := total + Value(cards[i], false);
      }
      i := i + 1;
    }
    assert cards[..i] == cards;
    while total > 21 && aces > 0
      invariant Demote(total, aces) == Demote(ElevenTotal(cards), AceCount(cards))
      decreases aces
    {
      total := total - 10;
      aces := aces - 1;
    }
  }

  /** `is_soft_hand`: one loop with every ace as 11, no demotion. */
  method IsSoftHand(s: GameSituation) returns (soft: bool)
    ensures soft <==> AceCount(s.playerCards) > 0 && HardTotal(s.playerCards) + 10 * AceCount(s.playerCards) <= 21
  {
    var cards := s.playerCards;
    var total := 0;
    var aces := 0;
    var i := 0;
    while i < |cards|
      invariant 0 <= i <= |cards|
      invariant total == ElevenTotal(cards[..i]) && aces == AceCount(cards[..i])
    {
      assert cards[..i + 1][..i] == cards[..i];
      if cards[i].rank == Ace {
        aces := aces + 1;
        total := total + 11;
      } else {
        total := total + Value(cards[i], false);
      }
      i := i + 1;
    }
    assert cards[..i] == cards;
    ElevenIsHardPlusTens(cards);
    soft := aces > 0 && total <= 21;
  }

  /** Softness here implies the hand's softness; with two or more aces the converse fails. */
  lemma SoftHandImpliesSoft(s: GameSituation)
    ensures SoftHand(s) ==> Soft(s.playerCards)
  {
    ElevenIsHardPlusTens(s.playerCards);
    SoftIffAceFits(s.playerCards);
  }

  /** A,A is soft for the hand but not for the situation. */
  lemma TwoAcesDisagree(s: GameSituation)
    requires s.playerCards == [Card(Spades, Ace), Card(Hearts, Ace)]
    ensures Soft(s.playerCards) && !SoftHand(s)
  {
    var cards := s.playerCards;
    assert cards[..1] == [Card(Spades, Ace)];
    assert cards[..1][..0] == [];
    assert HardTotal(cards[..1]) == 1 && ElevenTotal(cards[..1]) == 11;
    assert AceCount(cards) == 2 && HardTotal(cards) == 2;
    assert ElevenTotal(cards) == 22;
    SoftIffAceFits(cards);
  }

  /** `is_pair` is the hand's split test on the same cards. */
  lemma PairIsSplittable(s: GameSituation)
    ensures Pair(s) <==> Splittable(s.playerCards)
  {
  }

  /** The situation's blackjack is the hand's blackjack restricted to the first decision. */
  lemma SituationBlackjackIsHandBlackjack(s: GameSituation)
    ensures SituationBlackjack(s) <==> BlackjackHand(s.playerCards) && s.isFirstDecision
  {
  }
}
