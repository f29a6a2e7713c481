/**
 * The outcome of a hand (src/models/game_result.py). The dataclass's `__post_init__`
 * is a normalising constructor: `MakeResult` applies it to the caller's fields.
 */
module Results {
  import opened Wrappers

  datatype Outcome = Win | Loss | Push | Blackjack | Surrender

  /** `Outcome.value`. */
  function OutcomeText(o: Outcome): string {
    match o
    case Win => "win"
    case Loss => "loss"
    case Push => "push"
    case Blackjack => "blackjack"
    case Surrender => "surrender"
  }

  /** `Outcome(text)`: lookup by value. */
  function OutcomeFromText(text: string): (r: Option<Outcome>)
    ensures r.Some? ==> OutcomeText(r.value) == text
  {
    if text == "win" then Some(Win)
    else if text == "loss" then Some(Loss)
    else if text == "push" then Some(Push)
    else if text == "blackjack" then Some(Blackjack)
    else if text == "surrender" then Some(Surrender)
    else None
  }

  lemma OutcomeTextRoundTrip(o: Outcome)
    ensures OutcomeFromText(OutcomeText(o)) == Some(o)
  {
  }

  datatype GameResult = GameResult(
    outcome: Outcome,
    playerTotal: int,
    dealerTotal: Option<int>,
    payout: real,
    playerBusted: bool,
    dealerBusted: bool,
    playerBlackjack: bool,
    dealerBlackjack: bool)

  /** The payout agrees with the outcome, so that normalisation leaves it alone. */
  predicate PayoutMatches(outcome: Outcome, payout: real) {
    match outcome
    case Loss => payout < 0.0
    case Win => payout > 0.0
    case Blackjack => payout > 1.0
    case Push => payout == 0.0
    case Surrender => payout == -0.5
  }

  /** The payout normalisation applies when the payout does not agree with the outcome. */
  function DefaultPayout(outcome: Outcome): real {
    match outcome
    case Loss => -1.0
    case Win => 1.0
    case Blackjack => 1.5
    case Push => 0.0
    case Surrender => -0.5
  }

  /** The flags and payout agree with the totals and the outcome. */
  predicate Normalized(r: GameResult) {
    (r.playerTotal > 21 ==> r.playerBusted)
    && (r.dealerTotal.Some? && r.dealerTotal.value > 21 ==> r.dealerBusted)
    && (r.outcome == Blackjack ==> r.playerBlackjack)
    && PayoutMatches(r.outcome, r.payout)
  }

  /** `GameResult(...)` followed by `__post_init__`. */
  function MakeResult(outcome: Outcome, playerTotal: int, dealerTotal: Option<int>, payout: real,
                      playerBusted: bool, dealerBusted: bool, playerBlackjack: bool, dealerBlackjack: bool): (r: GameResult)
    ensures Normalized(r)
    ensures r.outcome == outcome && r.playerTotal == playerTotal && r.dealerTotal == dealerTotal
    ensures r.dealerBlackjack == dealerBlackjack
    ensures r.playerBusted == (playerBusted || playerTotal > 21)
    ensures r.dealerBusted == (dealerBusted || (dealerTotal.Some? && dealerTotal.value > 21))
    ensures r.playerBlackjack == (playerBlackjack || outcome == Blackjack)
    ensures PayoutMatches(outcome, payout) ==> r.payout == payout
    ensures !PayoutMatches(outcome, payout) ==> r.payout == DefaultPayout(outcome)
  {
    var newPayout :=
      if outcome == Loss && payout >= 0.0 then -1.0
      else if outcome == Win && payout <= 0.0 then 1.0
      else if outcome == Blackjack && payout <= 1.0 then 1.5
      else if outcome == Push && payout != 0.0 then 0.0
      else if outcome == Surrender && payout != -0.5 then -0.5
      else payout;
    GameResult(outcome, playerTotal, dealerTotal, newPayout,
               playerBusted || playerTotal > 21,
               dealerBusted || (dealerTotal.Some? && dealerTotal.value > 21),
               playerBlackjack || outcome == Blackjack,
               dealerBlackjack)
  }

  /** The result with every optional field at its default. */
  function Simple(outcome: Outcome, playerTotal: int, dealerTotal: Option<int>, payout: real): GameResult {
    MakeResult(outcome, playerTotal, dealerTotal, payout, false, false, false, false)
  }

  /** Normalising an already constructed result changes nothing. */
  lemma NormalizeIdempotent(r: GameResult)
    requires Normalized(r)
    ensures MakeResult(r.outcome, r.playerTotal, r.dealerTotal, r.payout,
                       r.playerBusted, r.dealerBusted, r.playerBlackjack, r.dealerBlackjack) == r
  {
  }

  /** Applying the constructor twice is the same as applying it once. */
  lemma MakeResultIdempotent(outcome: Outcome, playerTotal: int, dealerTotal: Option<int>, payout: real,
                             pb: bool, db: bool, pbj: bool, dbj: bool)
    ensures var r := MakeResult(outcome, playerTotal, dealerTotal, payout, pb, db, pbj, dbj);
      MakeResult(r.outcome, r.playerTotal, r.dealerTotal, r.payout,
                 r.playerBusted, r.dealerBusted, r.playerBlackjack, r.dealerBlackjack) == r
  {
    NormalizeIdempotent(MakeResult(outcome, playerTotal, dealerTotal, payout, pb, db, pbj, dbj));
  }

  /** A blackjack asked to pay 1.0 or less, such as even money, is paid 3:2 instead. */
  lemma SmallBlackjackPayoutOverridden(playerTotal: int, dealerTotal: Option<int>, payout: real)
    requires payout <= 1.0
    ensures Simple(Blackjack, playerTotal, dealerTotal, payout).payout == 1.5
  {
  }

  /** `is_winning_result`. */
  predicate IsWinning(r: GameResult) {
    r.outcome == Win || r.outcome == Blackjack
  }

  /** `is_losing_result`. */
  predicate IsLosing(r: GameResult) {
    r.outcome == Loss || r.outcome == Surrender
  }

  /** A normalised result is winning iff its payout is positive and losing iff it is negative; a push is neither. */
  lemma WinningIffPositivePayout(r: GameResult)
    requires Normalized(r)
    ensures IsWinning(r) <==> r.payout > 0.0
    ensures IsLosing(r) <==> r.payout < 0.0
    ensures !(IsWinning(r) && IsLosing(r))
    ensures r.outcome == Push <==> !IsWinning(r) && !IsLosing(r)
  {
  }

  /** `net_result(bet)`: the bet scaled by the payout multiplier. */
  function NetResult(r: GameResult, bet: real): real {
    r.payout * bet
  }

  /** On a positive bet a normalised result nets a gain iff it is winning and a loss iff it is losing. */
  lemma NetResultSign(r: GameResult, bet: real)
    requires Normalized(r) && bet > 0.0
    ensures NetResult(r, bet) > 0.0 <==> IsWinning(r)
    ensures NetResult(r, bet) < 0.0 <==> IsLosing(r)
    ensures NetResult(r, bet) == 0.0 <==> r.outcome == Push
  {
    WinningIffPositivePayout(r);
    var n := NetResult(r, bet);
    if r.payout > 0.0 {
      assert n > 0.0;
    } else if r.payout < 0.0 {
      assert n < 0.0;
    } else {
      assert n == 0.0;
    }
  }
}
