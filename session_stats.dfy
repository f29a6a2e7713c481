/**
 * Session statistics (src/analytics/session_stats.py): counters for hand results,
 * money, counting accuracy and strategy adherence, and the rates derived from them.
 * The counting and strategy sub-records are objects the session updates in place.
 * The session object keeps its results history and, as ghost state, the bet and net
 * result of each hand, so its counters can be stated as functions of that history.
 * Absolute counting errors are whole numbers, so they are kept as `int` here.
 */
module Stats {
  import Actions
  import opened Results

  // ---------------------------------------------------------------------------
  // Rates

  /** `part / whole * 100`, or 0.0 when `whole` is 0 (the guard of every rate query). */
  function Rate(part: int, whole: int): (r: real)
    ensures whole == 0 ==> r == 0.0
    ensures 0 <= part <= whole ==> 0.0 <= r <= 100.0

  {
    if whole == 0 then 0.0 else (part as real / whole as real) * 100.0
  }

  /** Dividing by a positive amount keeps the order. */
  lemma DivMonotone(x: real, y: real, n: real)
    requires x <= y && 0.0 < n
    ensures x / n <= y / n
  {
  }

  /** Dividing two amounts by the same amount and adding is dividing their sum. */
  lemma DivAdd(x: real, y: real, n: real)
    requires n != 0.0
    ensures x / n + y / n == (x + y) / n
  {
  }

  /** A larger part of the same whole has a rate at least as large. */
  lemma RateMonotone(a: int, b: int, whole: int)
    requires a <= b && 0 <= whole
    ensures Rate(a, whole) <= Rate(b, whole)
  {
    if whole != 0 {
      DivMonotone(a as real, b as real, whole as real);
    }
  }

  /** Three rates over one positive whole whose parts add up to it add up to 100. */
  lemma RatesOfPartitionSumToHundred(a: int, b: int, c: int)
    requires 0 < a + b + c
    ensures Rate(a, a + b + c) + Rate(b, a + b + c) + Rate(c, a + b + c) == 100.0
  {
    var n := (a + b + c) as real;
    DivAdd(a as real, b as real, n);
    DivAdd(a as real + b as real, c as real, n);
    assert (a as real + b as real + c as real) / n == n / n == 1.0;
  }

  // ---------------------------------------------------------------------------
  // Counting accuracy

  function Abs(x: int): (r: int)
    ensures r >= 0 && (r == x || r == -x)
  {
    if x < 0 then -x else x
  }

  /** The counting-accuracy record, updated in place by the session. */
  class CountingAccuracy {
    var totalEstimates: int
    var correctEstimates: int
    var totalError: int
    var maxError: int

    /** Correct estimates are among all estimates, and the largest error is part of the summed error. */
    ghost predicate Valid()
      reads this
    {
      0 <= correctEstimates <= totalEstimates
      && 0 <= maxError <= totalError
    }

    /** `CountingAccuracy()`: no estimates yet. */
    constructor ()
      ensures Valid()
      ensures totalEstimates == 0 && correctEstimates == 0 && totalError == 0 && maxError == 0
    {
      totalEstimates, correctEstimates, totalError, maxError := 0, 0, 0, 0;
    }

    /** The body of `update_counting_accuracy`: one more estimate, its absolute error summed and maximised, and counted as correct when within the tolerance. */
    method RecordEstimate(user: int, actual: int, tolerance: int)
      requires Valid()
      modifies this
      ensures Valid()
      ensures totalEstimates == old(totalEstimates) + 1
      ensures totalError == old(totalError) + Abs(user - actual)
      ensures maxError >= old(maxError) && maxError >= Abs(user - actual)
      ensures maxError == old(maxError) || maxError == Abs(user - actual)
      ensures correctEstimates == old(correctEstimates) + (if Abs(user - actual) <= tolerance then 1 else 0)
    {
      totalEstimates := totalEstimates + 1;
      var error := Abs(user - actual);
      totalError := totalError + error;
      maxError := if maxError >= error then maxError else error;
      if error <= tolerance {
        correctEstimates := correctEstimates + 1;
      }
    }

    /** `accuracy_percentage`. */
    function AccuracyPercentage(): (r: real)
      reads this
      ensures totalEstimates == 0 ==> r == 0.0
      ensures Valid() ==> 0.0 <= r <= 100.0
    {
      Rate(correctEstimates, totalEstimates)
    }

    /** `average_error`. */
    function AverageError(): (r: real)
      reads this
      ensures totalEstimates == 0 ==> r == 0.0
      ensures Valid() ==> 0.0 <= r
    {
      if totalEstimates == 0 then 0.0 else totalError as real / totalEstimates as real
    }
  }

  // ---------------------------------------------------------------------------
  // Strategy adherence

  /** The strategy-adherence record, updated in place by the session. */
  class StrategyAccuracy {
    var totalDecisions: int
    var correctDecisions: int
    var basicDecisions: int
    var deviationDecisions: int
    var correctDeviations: int

    /** Every decision is a basic-strategy one or a deviation, and correct ones of each kind are among that kind. */
    ghost predicate Valid()
      reads this
    {
      0 <= basicDecisions && 0 <= deviationDecisions
      && totalDecisions == basicDecisions + deviationDecisions
      && 0 <= correctDeviations <= deviationDecisions
      && correctDeviations <= correctDecisions <= correctDeviations + basicDecisions
    }

    /** `StrategyAccuracy()`: no decisions yet. */
    constructor ()
      ensures Valid()
      ensures totalDecisions == 0 && correctDecisions == 0 && basicDecisions == 0
      ensures deviationDecisions == 0 && correctDeviations == 0
    {
      totalDecisions, correctDecisions, basicDecisions, deviationDecisions, correctDeviations := 0, 0, 0, 0, 0;
    }

    /** The body of `update_strategy_adherence`: one more decision, of the deviation or the basic kind, counted as correct when it matches the optimal action. */
    method RecordDecision(user: Actions.Action, optimal: Actions.Action, isDeviation: bool)
      requires Valid()
      modifies this
      ensures Valid()
      ensures totalDecisions == old(totalDecisions) + 1
      ensures correctDecisions == old(correctDecisions) + (if user == optimal then 1 else 0)
      ensures deviationDecisions == old(deviationDecisions) + (if isDeviation then 1 else 0)
      ensures basicDecisions == old(basicDecisions) + (if isDeviation then 0 else 1)
      ensures correctDeviations == old(correctDeviations) + (if isDeviation && user == optimal then 1 else 0)
    {
      totalDecisions := totalDecisions + 1;
      if isDeviation {
        deviationDecisions := deviationDecisions + 1;
        if user == optimal {
          correctDeviations := correctDeviations + 1;
        }
      } else {
        basicDecisions := basicDecisions + 1;
      }
      if user == optimal {
        correctDecisions := correctDecisions + 1;
      }
    }

    /** `adherence_percentage`. */
    function AdherencePercentage(): (r: real)
      reads this
      ensures totalDecisions == 0 ==> r == 0.0
      ensures Valid() ==> 0.0 <= r <= 100.0
    {
      Rate(correctDecisions, totalDecisions)
    }

    /** `deviation_accuracy`. */
    function DeviationAccuracy(): (r: real)
      reads this
      ensures deviationDecisions == 0 ==> r == 0.0
      ensures Valid() ==> 0.0 <= r <= 100.0
    {
      Rate(correctDeviations, deviationDecisions)
    }
  }

  // ---------------------------------------------------------------------------
  // Hand results as functions of the history

  const WinningOutcomes: set<Outcome> := {Win, Blackjack}
  const LosingOutcomes: set<Outcome> := {Loss, Surrender}

  /** The number of results in the history whose outcome is one of `os`. */
  function CountOutcomes(h: seq<GameResult>, os: set<Outcome>): (n: nat)
    ensures n <= |h|
  {
    if h == [] then 0
    else CountOutcomes(h[..|h| - 1], os) + (if h[|h| - 1].outcome in os then 1 else 0)
  }

  /** Every result is exactly one of winning, losing or a push. */
  lemma {:induction false} OutcomesPartition(h: seq<GameResult>)
    ensures CountOutcomes(h, WinningOutcomes) + CountOutcomes(h, LosingOutcomes) + CountOutcomes(h, {Push}) == |h|
  {
    if h != [] {
      OutcomesPartition(h[..|h| - 1]);
      match h[|h| - 1].outcome
      case Win =>
      case Blackjack =>
      case Loss =>
      case Surrender =>
      case Push =>
    }
  }

  /** Counting a smaller set of outcomes never gives more. */
  lemma {:induction false} CountOutcomesSubset(h: seq<GameResult>, a: set<Outcome>, b: set<Outcome>)
    requires a <= b
    ensures CountOutcomes(h, a) <= CountOutcomes(h, b)
  {
    if h != [] {
      CountOutcomesSubset(h[..|h| - 1], a, b);
    }
  }

  /** The outcome counters of `update_hand_result` agree with a history of results. */
  predicate Tallies(h: seq<GameResult>, played: int, won: int, lost: int, pushed: int, blackjacks: int, surrenders: int) {
    played == |h|
    && won == CountOutcomes(h, WinningOutcomes)
    && lost == CountOutcomes(h, LosingOutcomes)
    && pushed == CountOutcomes(h, {Push})
    && blackjacks == CountOutcomes(h, {Blackjack})
    && surrenders == CountOutcomes(h, {Surrender})
  }

  /** One more result adds one hand and one to exactly one of won, lost and pushed, following `is_winning_result` and `is_losing_result`. */
  lemma TalliesStep(h: seq<GameResult>, r: GameResult, played: int, won: int, lost: int, pushed: int, blackjacks: int, surrenders: int)
    requires Tallies(h, played, won, lost, pushed, blackjacks, surrenders)
    ensures Tallies(h + [r], played + 1,
                    won + (if IsWinning(r) then 1 else 0),
                    lost + (if !IsWinning(r) && IsLosing(r) then 1 else 0),
                    pushed + (if !IsWinning(r) && !IsLosing(r) then 1 else 0),
                    blackjacks + (if r.outcome == Blackjack then 1 else 0),
                    surrenders + (if r.outcome != Blackjack && r.outcome == Surrender then 1 else 0))
  {
    assert (h + [r])[..|h + [r]| - 1] == h;
  }

  /** The sum of a list of amounts. */
  function Sum(xs: seq<real>): real {
    if xs == [] then 0.0 else Sum(xs[..|xs| - 1]) + xs[|xs| - 1]
  }

  /** `max(0, x)`. */
  function Gain(x: real): (g: real)
    ensures g >= 0.0 && g >= x
    ensures g == x || g == 0.0
  {
    if x > 0.0 then x else 0.0
  }

  /** The sum of the positive parts of a list of amounts. */
  function GainSum(xs: seq<real>): real {
    if xs == [] then 0.0 else GainSum(xs[..|xs| - 1]) + Gain(xs[|xs| - 1])
  }

  /** The money totals of `update_hand_result` agree with each hand's bet and net result. */
  predicate MoneyTallies(bets: seq<real>, nets: seq<real>, totalBet: real, netResult: real, totalWinnings: real) {
    |bets| == |nets|
    && totalBet == Sum(bets)
    && netResult == Sum(nets)
    && totalWinnings == GainSum(nets)
  }

  /** One more hand adds its bet to the total bet, its net result to the net, and its gain, if any, to the winnings. */
  lemma MoneyTalliesStep(bets: seq<real>, nets: seq<real>, totalBet: real, netResult: real, totalWinnings: real, bet: real, net: real)
    requires MoneyTallies(bets, nets, totalBet, netResult, totalWinnings)
    ensures MoneyTallies(bets + [bet], nets + [net], totalBet + bet, netResult + net, totalWinnings + Gain(net))
  {
    assert (bets + [bet])[..|bets + [bet]| - 1] == bets;
    assert (nets + [net])[..|nets + [net]| - 1] == nets;
  }

  /** The sum of gains is never negative and never below the plain sum: total winnings bound the net result. */
  lemma {:induction false} GainSumBoundsSum(xs: seq<real>)
    ensures GainSum(xs) >= 0.0
    ensures GainSum(xs) >= Sum(xs)
  {
    if xs != [] {
      GainSumBoundsSum(xs[..|xs| - 1]);
    }
  }

  // ---------------------------------------------------------------------------
  // The session object

  class SessionStats {
    var sessionId: string
    var handsPlayed: int
    var handsWon: int
    var handsLost: int
    var handsPushed: int
    var blackjacks: int
    var surrenders: int
    var totalBet: real
    var totalWinnings: real
    var netResult: real
    const counting: CountingAccuracy
    const strategy: StrategyAccuracy
    var history: seq<GameResult>
    ghost var bets: seq<real>
    ghost var nets: seq<real>

    /**
     * Every hand counter is the corresponding count over the history; the money
     * totals are the sums of each hand's bet, of its `net_result(bet)` and of its
     * positive part.
     */
    ghost predicate Valid()
      reads this, counting, strategy
    {
      HandsValid()
      && MoneyValid()
      && |nets| == |history|
      && counting.Valid()
      && strategy.Valid()
    }

    /** The hand counters are the counts over the results history. */
    ghost predicate HandsValid()
      reads this`history, this`handsPlayed, this`handsWon, this`handsLost, this`handsPushed, this`blackjacks, this`surrenders
    {
      Tallies(history, handsPlayed, handsWon, handsLost, handsPushed, blackjacks, surrenders)
    }

    /** The money totals are the sums over each hand's bet and net result. */
    ghost predicate MoneyValid()
      reads this`bets, this`nets, this`totalBet, this`netResult, this`totalWinnings
    {
      MoneyTallies(bets, nets, totalBet, netResult, totalWinnings)
    }

    /** `SessionStats(session_id)`: every counter at zero and fresh, empty sub-records. */
    constructor (id: string)
      ensures Valid()
      ensures sessionId == id
      ensures history == [] && bets == [] && nets == []
      ensures fresh(counting) && counting.totalEstimates == 0 && counting.maxError == 0
      ensures fresh(strategy) && strategy.totalDecisions == 0
    {
      sessionId := id;
      handsPlayed, handsWon, handsLost, handsPushed, blackjacks, surrenders := 0, 0, 0, 0, 0, 0;
      totalBet, totalWinnings, netResult := 0.0, 0.0, 0.0;
      counting := new CountingAccuracy();
      strategy := new StrategyAccuracy();
      history := [];
      bets := [];
      nets := [];
    }

    /** `update_hand_result`: one more hand in the history, and the counters and money totals follow it. */
    method UpdateHandResult(result: GameResult, bet: real)
      requires Valid()
      modifies this
      ensures Valid()
      ensures history == old(history) + [result] && bets == old(bets) + [bet]
      ensures nets == old(nets) + [NetResult(result, bet)]
      ensures sessionId == old(sessionId)
    {
      RecordOutcome(result);
      RecordMoney(bet, NetResult(result, bet));
    }

    /** The counting half of `update_hand_result`: one more hand played, then won, lost or pushed, then blackjack or surrender. */
    method RecordOutcome(result: GameResult)
      requires HandsValid()
      modifies this`history, this`handsPlayed, this`handsWon, this`handsLost, this`handsPushed, this`blackjacks, this`surrenders
      ensures HandsValid()
      ensures history == old(history) + [result]
      ensures handsPlayed == old(handsPlayed) + 1
      ensures handsWon == old(handsWon) + (if IsWinning(result) then 1 else 0)
      ensures handsLost == old(handsLost) + (if IsLosing(result) then 1 else 0)
      ensures handsPushed == old(handsPushed) + (if result.outcome == Push then 1 else 0)
      ensures blackjacks == old(blackjacks) + (if result.outcome == Blackjack then 1 else 0)
      ensures surrenders == old(surrenders) + (if result.outcome == Surrender then 1 else 0)
    {
      TalliesStep(history, result, handsPlayed, handsWon, handsLost, handsPushed, blackjacks, surrenders);
      handsPlayed := handsPlayed + 1;
      history := history + [result];
      if IsWinning(result) {
        handsWon := handsWon + 1;
      } else if IsLosing(result) {
        handsLost := handsLost + 1;
      } else {
        handsPushed := handsPushed + 1;
      }
      if result.outcome == Blackjack {
        blackjacks := blackjacks + 1;
      } else if result.outcome == Surrender {
        surrenders := surrenders + 1;
      }
    }

    /** The money half of `update_hand_result`: the bet is added to the total bet, the hand's net result to the net, and its gain, if any, to the winnings. */
    method RecordMoney(bet: real, handResult: real)
      requires MoneyValid()
      modifies this`bets, this`nets, this`totalBet, this`netResult, this`totalWinnings
      ensures MoneyValid()
      ensures bets == old(bets) + [bet] && nets == old(nets) + [handResult]
      ensures totalBet == old(totalBet) + bet
      ensures netResult == old(netResult) + handResult
      ensures totalWinnings == old(totalWinnings) + Gain(handResult)
    {
      MoneyTalliesStep(bets, nets, totalBet, netResult, totalWinnings, bet, handResult);
      bets := bets + [bet];
      nets := nets + [handResult];
      totalBet := totalBet + bet;
      totalWinnings := totalWinnings + Gain(handResult);
      netResult := netResult + handResult;
    }

    /** `update_counting_accuracy`: the counting record takes one more estimate; nothing else changes. */
    method UpdateCountingAccuracy(user: int, actual: int, tolerance: int)
      requires Valid()
      modifies counting
      ensures Valid()
      ensures counting.totalEstimates == old(counting.totalEstimates) + 1
      ensures counting.correctEstimates == old(counting.correctEstimates) + (if Abs(user - actual) <= tolerance then 1 else 0)
      ensures counting.totalError == old(counting.totalError) + Abs(user - actual)
      ensures counting.maxError >= old(counting.maxError) && counting.maxError >= Abs(user - actual)
      ensures counting.maxError == old(counting.maxError) || counting.maxError == Abs(user - actual)
    {
      counting.RecordEstimate(user, actual, tolerance);
    }

    /** `update_strategy_adherence`: the strategy record takes one more decision; nothing else changes. */
    method UpdateStrategyAdherence(user: Actions.Action, optimal: Actions.Action, isDeviation: bool)
      requires Valid()
      modifies strategy
      ensures Valid()
      ensures strategy.totalDecisions == old(strategy.totalDecisions) + 1
      ensures strategy.correctDecisions == old(strategy.correctDecisions) + (if user == optimal then 1 else 0)
      ensures strategy.deviationDecisions == old(strategy.deviationDecisions) + (if isDeviation then 1 else 0)
      ensures strategy.basicDecisions == old(strategy.basicDecisions) + (if isDeviation then 0 else 1)
      ensures strategy.correctDeviations == old(strategy.correctDeviations) + (if isDeviation && user == optimal then 1 else 0)
    {
      strategy.RecordDecision(user, optimal, isDeviation);
    }

    /** `win_rate`. */
    function WinRate(): (r: real)
      reads this
      ensures handsPlayed == 0 ==> r == 0.0
      ensures Valid() ==> 0.0 <= r <= 100.0
    {
      Rate(handsWon, handsPlayed)
    }

    /** `loss_rate`. */
    function LossRate(): (r: real)
      reads this
      ensures handsPlayed == 0 ==> r == 0.0
      ensures Valid() ==> 0.0 <= r <= 100.0
    {
      Rate(handsLost, handsPlayed)
    }

    /** `push_rate`. */
    function PushRate(): (r: real)
      reads this
      ensures handsPlayed == 0 ==> r == 0.0
      ensures Valid() ==> 0.0 <= r <= 100.0
    {
      Rate(handsPushed, handsPlayed)
    }

    /** `blackjack_rate`. */
    function BlackjackRate(): (r: real)
      reads this
      ensures handsPlayed == 0 ==> r == 0.0
      ensures Valid() ==> 0.0 <= r <= 100.0
    {
      Rate(blackjacks, handsPlayed)
    }

    /** `average_bet`. */
    function AverageBet(): (r: real)
      reads this
      ensures handsPlayed == 0 ==> r == 0.0
      ensures handsPlayed > 0 ==> r * handsPlayed as real == totalBet
    {
      if handsPlayed == 0 then 0.0 else totalBet / handsPlayed as real
    }

    /** `return_on_investment`. */
    function ReturnOnInvestment(): (r: real)
      reads this
      ensures totalBet == 0.0 ==> r == 0.0
      ensures totalBet != 0.0 ==> r * totalBet == 100.0 * netResult
    {
      if totalBet == 0.0 then 0.0 else (netResult / totalBet) * 100.0
    }
  }

  /** With at least one hand played, the win, loss and push rates add up to 100. */
  lemma RatesSumToHundred(s: SessionStats)
    requires s.Valid() && s.handsPlayed > 0
    ensures s.WinRate() + s.LossRate() + s.PushRate() == 100.0
  {
    OutcomesPartition(s.history);
    RatesOfPartitionSumToHundred(s.handsWon, s.handsLost, s.handsPushed);
  }

  /** Blackjacks are among the wins and surrenders among the losses; winnings bound the net result from above. */
  lemma SessionCountersBounded(s: SessionStats)
    requires s.Valid()
    ensures s.blackjacks <= s.handsWon && s.surrenders <= s.handsLost
    ensures s.BlackjackRate() <= s.WinRate()
    ensures s.handsWon + s.handsLost + s.handsPushed == s.handsPlayed
    ensures 0.0 <= s.totalWinnings && s.netResult <= s.totalWinnings
  {
    CountOutcomesSubset(s.history, {Blackjack}, WinningOutcomes);
    CountOutcomesSubset(s.history, {Surrender}, LosingOutcomes);
    OutcomesPartition(s.history);
    GainSumBoundsSum(s.nets);
    RateMonotone(s.blackjacks, s.handsWon, s.handsPlayed);
  }
}
