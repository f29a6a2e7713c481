/**
 * Card counting systems (src/counting/counting_system.py and its three
 * implementations hi_lo.py, ko.py, hi_opt_i.py). A system gives each card a
 * weight and has a name; `Custom` stands for any other system a caller registers.
 */
module CountingSystems {
  import opened Wrappers
  import opened Cards
  import Shoes

  datatype CountingSystem =
    | HiLo
    | KO
    | HiOptI
    | Custom(title: string, weight: Card -> int)

  predicate BuiltIn(sys: CountingSystem) {
    !sys.Custom?
  }

  /** `HiLoSystem.card_value`: 2-6 count +1, 7-9 count 0, tens, faces and aces -1. */
  function HiLoValue(r: Rank): int {
    if r in {Two, Three, Four, Five, Six} then 1
    else if r in {Seven, Eight, Nine} then 0
    else -1
  }

  /** `KOSystem.card_value`: 2-7 count +1, 8-9 count 0, tens, faces and aces -1. */
  function KOValue(r: Rank): int {
    if r in {Two, Three, Four, Five, Six, Seven} then 1
    else if r in {Eight, Nine} then 0
    else -1
  }

  /** `HiOptISystem.card_value`: 3-6 count +1, 2, 7-9 and aces 0, tens and faces -1. */
  function HiOptIValue(r: Rank): int {
    if r in {Three, Four, Five, Six} then 1
    else if r in {Two, Seven, Eight, Nine, Ace} then 0
    else -1
  }

  /** `card_value` of the interface. */
  function Weight(sys: CountingSystem, c: Card): (w: int)
    ensures BuiltIn(sys) ==> -1 <= w <= 1
  {
    match sys
    case HiLo => HiLoValue(c.rank)
    case KO => KOValue(c.rank)
    case HiOptI => HiOptIValue(c.rank)
    case Custom(_, weight) => weight(c)
  }

  /** `name` of the interface. */
  function Name(sys: CountingSystem): string {
    match sys
    case HiLo => "Hi-Lo"
    case KO => "KO"
    case HiOptI => "Hi-Opt I"
    case Custom(title, _) => title
  }

  /** `Card.count_value(system)`: the system's weight, or 0 when there is no system to ask. */
  function CountValue(c: Card, sys: Option<CountingSystem>): (w: int)
    ensures sys.None? ==> w == 0
    ensures sys.Some? ==> w == Weight(sys.value, c)
  {
    match sys
    case None => 0
    case Some(s) => Weight(s, c)
  }

  /** Hi-Lo in terms of the blackjack value: low cards (2-6) +1, middle (7-9) 0, ten-valued cards and aces -1. */
  lemma HiLoByPointValue(c: Card)
    ensures Weight(HiLo, c) == 1 <==> 2 <= Value(c, false) <= 6
    ensures Weight(HiLo, c) == 0 <==> 7 <= Value(c, false) <= 9
    ensures Weight(HiLo, c) == -1 <==> Value(c, false) == 10 || c.rank == Ace
  {
  }

  /** Hi-Opt I by point value: 3-6 +1; 2, 7-9 and aces 0; ten-valued cards -1. */
  lemma HiOptIByPointValue(c: Card)
    ensures Weight(HiOptI, c) == 1 <==> 3 <= Value(c, false) <= 6
    ensures Weight(HiOptI, c) == 0 <==> Value(c, false) in {1, 2, 7, 8, 9}
    ensures Weight(HiOptI, c) == -1 <==> Value(c, false) == 10
  {
  }

  /** The built-in weights ignore the suit. */
  lemma BuiltInIgnoresSuit(sys: CountingSystem, c: Card, d: Card)
    requires BuiltIn(sys) && c.rank == d.rank
    ensures Weight(sys, c) == Weight(sys, d)
  {
  }

  /** KO and Hi-Lo disagree on sevens only. */
  lemma KODiffersFromHiLoOnSevens(c: Card)
    ensures Weight(KO, c) != Weight(HiLo, c) <==> c.rank == Seven
    ensures c.rank == Seven ==> Weight(KO, c) == Weight(HiLo, c) + 1
  {
  }

  // ---------------------------------------------------------------------------
  // Sums of weights

  /** The sum of the weights of a sequence of cards. */
  function WeightSum(sys: CountingSystem, cards: seq<Card>): int {
    if cards == [] then 0 else WeightSum(sys, cards[..|cards| - 1]) + Weight(sys, cards[|cards| - 1])
  }

  lemma {:induction false} WeightSumAppend(sys: CountingSystem, a: seq<Card>, b: seq<Card>)
    ensures WeightSum(sys, a + b) == WeightSum(sys, a) + WeightSum(sys, b)
    decreases |b|
  {
    if b != [] {
      var b' := b[..|b| - 1];
      assert (a + b)[..|a + b| - 1] == a + b';
      WeightSumAppend(sys, a, b');
    } else {
      assert a + b == a;
    }
  }

  /** The weights of the first `k` ranks, in enumeration order, of any one suit. */
  function RankWeights(sys: CountingSystem, k: nat): int
    requires k <= 13
  {
    if k == 0 then 0 else RankWeights(sys, k - 1) + Weight(sys, Card(Hearts, AllRanks[k - 1]))
  }

  /** Extending a sequence by one card adds that card's weight. */
  lemma WeightSumSnoc(sys: CountingSystem, cards: seq<Card>, c: Card)
    ensures WeightSum(sys, cards + [c]) == WeightSum(sys, cards) + Weight(sys, c)
  {
    assert (cards + [c])[..|cards|] == cards;
  }

  lemma {:induction false} DeckPrefixSum(sys: CountingSystem, si: nat, ri: nat)
    requires BuiltIn(sys) && si < 4 && ri <= 13
    ensures WeightSum(sys, Shoes.OneDeck()[..13 * si + ri]) == si * RankWeights(sys, 13) + RankWeights(sys, ri)
    decreases si, ri
  {
    if ri == 0 {
      if si > 0 {
        DeckPrefixSum(sys, si - 1, 13);
        assert (si - 1) * RankWeights(sys, 13) + RankWeights(sys, 13) == si * RankWeights(sys, 13);
      }
    } else {
      DeckPrefixSum(sys, si, ri - 1);
      Shoes.DeckPrefixStep(si, ri - 1);
      var c := Card(AllSuits[si], AllRanks[ri - 1]);
      WeightSumSnoc(sys, Shoes.OneDeck()[..13 * si + ri - 1], c);
      BuiltInIgnoresSuit(sys, c, Card(Hearts, AllRanks[ri - 1]));
    }
  }

  /** The weights of the first six ranks written out. */
  lemma RankWeightsFirstSix(sys: CountingSystem)
    ensures RankWeights(sys, 6) ==
      Weight(sys, Card(Hearts, Ace)) + Weight(sys, Card(Hearts, Two)) + Weight(sys, Card(Hearts, Three))
      + Weight(sys, Card(Hearts, Four)) + Weight(sys, Card(Hearts, Five)) + Weight(sys, Card(Hearts, Six))
  {
    assert RankWeights(sys, 1) == Weight(sys, Card(Hearts, Ace));
    assert RankWeights(sys, 2) == RankWeights(sys, 1) + Weight(sys, Card(Hearts, Two));
    assert RankWeights(sys, 3) == RankWeights(sys, 2) + Weight(sys, Card(Hearts, Three));
    assert RankWeights(sys, 4) == RankWeights(sys, 3) + Weight(sys, Card(Hearts, Four));
    assert RankWeights(sys, 5) == RankWeights(sys, 4) + Weight(sys, Card(Hearts, Five));
  }

  /** The per-suit sum written out rank by rank. */
  lemma RankWeightsWrittenOut(sys: CountingSystem)
    ensures RankWeights(sys, 13) ==
      Weight(sys, Card(Hearts, Ace)) + Weight(sys, Card(Hearts, Two)) + Weight(sys, Card(Hearts, Three))
      + Weight(sys, Card(Hearts, Four)) + Weight(sys, Card(Hearts, Five)) + Weight(sys, Card(Hearts, Six))
      + Weight(sys, Card(Hearts, Seven)) + Weight(sys, Card(Hearts, Eight)) + Weight(sys, Card(Hearts, Nine))
      + Weight(sys, Card(Hearts, Ten)) + Weight(sys, Card(Hearts, Jack)) + Weight(sys, Card(Hearts, Queen))
      + Weight(sys, Card(Hearts, King))
  {
    RankWeightsFirstSix(sys);
    assert RankWeights(sys, 7) == RankWeights(sys, 6) + Weight(sys, Card(Hearts, Seven));
    assert RankWeights(sys, 8) == RankWeights(sys, 7) + Weight(sys, Card(Hearts, Eight));
    assert RankWeights(sys, 9) == RankWeights(sys, 8) + Weight(sys, Card(Hearts, Nine));
    assert RankWeights(sys, 10) == RankWeights(sys, 9) + Weight(sys, Card(Hearts, Ten));
    assert RankWeights(sys, 11) == RankWeights(sys, 10) + Weight(sys, Card(Hearts, Jack));
    assert RankWeights(sys, 12) == RankWeights(sys, 11) + Weight(sys, Card(Hearts, Queen));
  }

  /** Over a full deck a system's weights add up to four times its per-suit sum. */
  lemma DeckSum(sys: CountingSystem)
    requires BuiltIn(sys)
    ensures WeightSum(sys, Shoes.OneDeck()) == 4 * RankWeights(sys, 13)
  {
    DeckPrefixSum(sys, 3, 13);
    assert Shoes.OneDeck()[..52] == Shoes.OneDeck();
  }

  /** Hi-Lo and Hi-Opt I are balanced (a full deck sums to 0); KO is not (a full deck sums to +4). */
  lemma Balance()
    ensures WeightSum(HiLo, Shoes.OneDeck()) == 0
    ensures WeightSum(HiOptI, Shoes.OneDeck()) == 0
    ensures WeightSum(KO, Shoes.OneDeck()) == 4
  {
    DeckSum(HiLo);
    DeckSum(HiOptI);
    DeckSum(KO);
    RankWeightsWrittenOut(HiLo);
    RankWeightsWrittenOut(HiOptI);
    RankWeightsWrittenOut(KO);
  }
}
