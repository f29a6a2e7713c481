/**
 * Count-based deviations from basic strategy (src/strategy/deviation_strategy.py).
 * A table maps (player total, dealer key, action) to a true-count threshold. The
 * decision procedure consults ten fixed entries in a fixed order; a STAND, DOUBLE or
 * SPLIT entry fires when the true count is at least its threshold, a HIT entry when
 * it is at most its threshold. A missing entry stands for the source's +inf / -inf
 * default, so it never fires. When nothing fires, basic strategy decides.
 */
module Deviations {
  import opened Wrappers
  import opened Cards
  import opened Actions
  import opened Hands
  import opened Situations
  import BasicStrategies

  datatype DeviationKey = DeviationKey(total: int, dealer: int, action: Action)

  type Thresholds = map<DeviationKey, real>

  /** `_load_common_deviations`: the fifteen Hi-Lo entries. */
  function DefaultThresholds(): (m: Thresholds)
    ensures forall k :: k in m ==> k.action in {Stand, Hit, Double, Split} && 2 <= k.dealer <= 11
  {
    var m := map[
      DeviationKey(16, 10, Stand) := 0.0,
      DeviationKey(15, 10, Stand) := 4.0,
      DeviationKey(13, 2, Hit) := -1.0,
      DeviationKey(12, 3, Hit) := -2.0,
      DeviationKey(12, 2, Stand) := 3.0,
      DeviationKey(12, 4, Stand) := 0.0,
      DeviationKey(12, 5, Hit) := -2.0,
      DeviationKey(12, 6, Hit) := -1.0,
      DeviationKey(10, 10, Double) := 4.0,
      DeviationKey(11, 11, Double) := 1.0,
      DeviationKey(9, 2, Double) := 1.0,
      DeviationKey(9, 7, Double) := 3.0,
      DeviationKey(8, 6, Double) := 2.0,
      DeviationKey(20, 5, Split) := 5.0,
      DeviationKey(20, 6, Split) := 4.0];
    m
  }

  /** The entry exists and the count reaches it from below (a missing entry is +inf). */
  predicate AtLeast(m: Thresholds, k: DeviationKey, tc: real) {
    k in m && tc >= m[k]
  }

  /** The entry exists and the count is at or under it (a missing entry is -inf). */
  predicate AtMost(m: Thresholds, k: DeviationKey, tc: real) {
    k in m && tc <= m[k]
  }

  /** Two cards of value 10 that the hand may split. */
  predicate TenPair(p: seq<Card>) {
    Splittable(p) && |p| == 2 && Value(p[0], false) == 10
  }

  /** `_check_deviations`, in the source's order; 16 against 10 always decides. */
  function CheckDeviations(m: Thresholds, total: int, d: int, tc: real, p: seq<Card>): (r: Option<Action>)
    ensures r.Some? ==> r.value in {Stand, Hit, Double, Split}
    ensures r == Some(Double) ==> Doublable(p)
    ensures r == Some(Split) ==> TenPair(p) && (d == 5 || d == 6)
    ensures total == 16 && d == 10 ==> r.Some?
  {
    if total == 16 && d == 10 then
      Some(if AtLeast(m, DeviationKey(16, 10, Stand), tc) then Stand else Hit)
    else if total == 15 && d == 10 && AtLeast(m, DeviationKey(15, 10, Stand), tc) then Some(Stand)
    else if total == 13 && d == 2 && AtMost(m, DeviationKey(13, 2, Hit), tc) then Some(Hit)
    else if total == 12 && d == 3 && AtMost(m, DeviationKey(12, 3, Hit), tc) then Some(Hit)
    else if total == 12 && d == 2 && AtLeast(m, DeviationKey(12, 2, Stand), tc) then Some(Stand)
    else if total == 10 && d == 10 && Doublable(p) && AtLeast(m, DeviationKey(10, 10, Double), tc) then Some(Double)
    else if total == 11 && d == 11 && Doublable(p) && AtLeast(m, DeviationKey(11, 11, Double), tc) then Some(Double)
    else if total == 9 && d == 2 && Doublable(p) && AtLeast(m, DeviationKey(9, 2, Double), tc) then Some(Double)
    else if TenPair(p) && d == 5 && AtLeast(m, DeviationKey(20, 5, Split), tc) then Some(Split)
    else if TenPair(p) && d == 6 && AtLeast(m, DeviationKey(20, 6, Split), tc) then Some(Split)
    else None
  }

  /** `get_action`: blackjack stands, then a deviation if one applies, else basic strategy. */
  function DeviationAction(m: Thresholds, p: seq<Card>, up: Card, tc: real): (a: Action)
    ensures BlackjackHand(p) ==> a == Stand
    ensures a != Surrender
    ensures a == Double ==> |p| == 2
    ensures !BlackjackHand(p) && CheckDeviations(m, BestTotal(p), BasicStrategies.DealerKey(up), tc, p).None?
            ==> a == BasicStrategies.GetAction(p, up)
  {
    if BlackjackHand(p) then Stand
    else
      var dev := CheckDeviations(m, BestTotal(p), BasicStrategies.DealerKey(up), tc, p);
      if dev.Some? then dev.value else BasicStrategies.GetAction(p, up)
  }

  /** The firing test of `should_deviate` for one table entry. */
  predicate Fires(k: DeviationKey, threshold: real, total: int, d: int, tc: real) {
    k.total == total && k.dealer == d
    && ((k.action in {Stand, Double, Split} && tc >= threshold) || (k.action == Hit && tc <= threshold))
  }

  /** Some entry of the table fires at this total, dealer key and count. */
  predicate AnyFires(m: Thresholds, total: int, d: int, tc: real) {
    exists k :: k in m && Fires(k, m[k], total, d, tc)
  }

  /** A pair of ten-valued cards is worth 20. */
  lemma TenPairIsTwenty(p: seq<Card>)
    requires TenPair(p)
    ensures BestTotal(p) == 20 && Value(p[1], false) == 10
  {
    if p[0].rank == p[1].rank {
      ValueDependsOnlyOnRank(p[0], p[1], false);
    }
    assert p[..1][..0] == [];
    assert p[..1] == [p[0]];
    assert AceCount(p[..1]) == 0 && HardTotal(p[..1]) == 10;
    assert AceCount(p) == 0 && HardTotal(p) == 20;
    ElevenIsHardPlusTens(p);
  }

  /**
   * Every deviation `_check_deviations` takes, other than the HIT of 16 against 10
   * below its threshold, is backed by a table entry for that total, dealer key and
   * action that fires in the sense of `should_deviate`.
   */
  lemma CheckedDeviationFires(m: Thresholds, p: seq<Card>, up: Card, tc: real)
    requires CheckDeviations(m, BestTotal(p), BasicStrategies.DealerKey(up), tc, p).Some?
    requires !(BestTotal(p) == 16 && BasicStrategies.DealerKey(up) == 10
               && !AtLeast(m, DeviationKey(16, 10, Stand), tc))
    ensures var a := CheckDeviations(m, BestTotal(p), BasicStrategies.DealerKey(up), tc, p).value;
            var k := DeviationKey(BestTotal(p), BasicStrategies.DealerKey(up), a);
            k in m && Fires(k, m[k], BestTotal(p), BasicStrategies.DealerKey(up), tc)
    ensures AnyFires(m, BestTotal(p), BasicStrategies.DealerKey(up), tc)
  {
    var d := BasicStrategies.DealerKey(up);
    var a := CheckDeviations(m, BestTotal(p), d, tc, p).value;
    if a == Split {
      TenPairIsTwenty(p);
    }
    var k := DeviationKey(BestTotal(p), d, a);
    assert k in m && Fires(k, m[k], BestTotal(p), d, tc);
  }

  /** 12 against 4 at count 0: the table says deviate, yet `get_action` never consults that entry. */
  lemma TwelveAgainstFourIsNeverConsulted(p: seq<Card>)
    ensures AnyFires(DefaultThresholds(), 12, 4, 0.0)
    ensures CheckDeviations(DefaultThresholds(), 12, 4, 0.0, p) == None
  {
    var k := DeviationKey(12, 4, Stand);
    assert k in DefaultThresholds() && Fires(k, DefaultThresholds()[k], 12, 4, 0.0);
  }

  /** With the default table, 16 against 10 stands exactly when the true count is at least 0. */
  lemma SixteenAgainstTen(p: seq<Card>, up: Card, tc: real)
    requires BestTotal(p) == 16 && BasicStrategies.DealerKey(up) == 10
    ensures DeviationAction(DefaultThresholds(), p, up, tc) == (if tc >= 0.0 then Stand else Hit)
  {
    assert DeviationKey(16, 10, Stand) in DefaultThresholds();
  }

  /** With the default table, 15 against 10 stands from +4; below that basic strategy hits. */
  lemma FifteenAgainstTen(p: seq<Card>, up: Card, tc: real)
    requires BestTotal(p) == 15 && !Soft(p) && !BasicStrategies.SplitsPair(p, up)
    requires BasicStrategies.DealerKey(up) == 10
    ensures DeviationAction(DefaultThresholds(), p, up, tc) == (if tc >= 4.0 then Stand else Hit)
  {
    assert DeviationKey(15, 10, Stand) in DefaultThresholds();
  }

  /** With the default table, two-card 11 against an ace doubles from +1. */
  lemma ElevenAgainstAce(p: seq<Card>, up: Card, tc: real)
    requires BestTotal(p) == 11 && |p| == 2 && up.rank == Ace && tc >= 1.0
    ensures DeviationAction(DefaultThresholds(), p, up, tc) == Double
  {
    assert DeviationKey(11, 11, Double) in DefaultThresholds();
  }

  /** With the default table, a pair of tens splits against a 6 from +4 and against a 5 from +5. */
  lemma TensSplit(p: seq<Card>, up: Card, tc: real)
    requires TenPair(p)
    requires (BasicStrategies.DealerKey(up) == 6 && tc >= 4.0) || (BasicStrategies.DealerKey(up) == 5 && tc >= 5.0)
    ensures DeviationAction(DefaultThresholds(), p, up, tc) == Split
  {
    TenPairIsTwenty(p);
    assert DeviationKey(20, 6, Split) in DefaultThresholds();
    assert DeviationKey(20, 5, Split) in DefaultThresholds();
  }

  class DeviationStrategy {
    var thresholds: Thresholds

    /** `DeviationStrategy()`: the common deviations are loaded. */
    constructor ()
      ensures thresholds == DefaultThresholds()
    {
      thresholds := DefaultThresholds();
    }

    /** `add_custom_deviation`: sets or replaces one entry. */
    method AddCustomDeviation(total: int, d: int, action: Action, threshold: real)
      modifies this
      ensures thresholds == old(thresholds)[DeviationKey(total, d, action) := threshold]
    {
      thresholds := thresholds[DeviationKey(total, d, action) := threshold];
    }

    /** `get_deviation_threshold`: the entry, or nothing when the table lacks it. */
    function GetDeviationThreshold(total: int, d: int, action: Action): (r: Option<real>)
      reads this
      ensures r.Some? <==> DeviationKey(total, d, action) in thresholds
      ensures r.Some? ==> r.value == thresholds[DeviationKey(total, d, action)]
    {
      var k := DeviationKey(total, d, action);
      if k in thresholds then Some(thresholds[k]) else None
    }

    /** `get_all_deviations`: a map is a value, so the table itself is the copy; every lookup through `GetDeviationThreshold` agrees with it, present keys and missing ones alike. */
    function GetAllDeviations(): (r: Thresholds)
      reads this
      ensures forall k: DeviationKey :: GetDeviationThreshold(k.total, k.dealer, k.action) == (if k in r then Some(r[k]) else None)
    {
      thresholds
    }

    /** `get_action`, asking the hand object for its blackjack test and its value. */
    method GetAction(hand: Hand, up: Card, tc: real) returns (a: Action)
      ensures a == DeviationAction(thresholds, hand.cards, up, tc)
    {
      var bj := hand.IsBlackjack();
      if bj {
        return Stand;
      }
      var total := hand.Value();
      var dev := CheckDeviations(thresholds, total, BasicStrategies.DealerKey(up), tc, hand.cards);
      if dev.Some? {
        a := dev.value;
      } else {
        a := BasicStrategies.GetAction(hand.cards, up);
      }
    }

    /** `get_action_from_situation`: a temporary hand over the situation's cards. */
    method GetActionFromSituation(s: GameSituation, tc: real) returns (a: Action)
      ensures a == DeviationAction(thresholds, s.playerCards, s.dealerUpCard, tc)
    {
      var hand := new Hand(s.playerCards);
      a := GetAction(hand, s.dealerUpCard, tc);
    }

    /** `should_deviate`: scans the whole table for an entry that fires. */
    method ShouldDeviate(s: GameSituation, tc: real) returns (b: bool)
      ensures b <==> AnyFires(thresholds, BestTotal(s.playerCards), BasicStrategies.DealerKey(s.dealerUpCard), tc)
    {
      var total := PlayerTotal(s);
      var d := BasicStrategies.DealerKey(s.dealerUpCard);
      var m := thresholds;
      var pending := m.Keys;
      while pending != {}
        invariant pending <= m.Keys
        invariant forall k :: k in m && k !in pending ==> !Fires(k, m[k], total, d, tc)
        decreases |pending|
      {
        var k :| k in pending;
        if Fires(k, m[k], total, d, tc) {
          return true;
        }
        pending := pending - {k};
      }
      return false;
    }
  }
}
