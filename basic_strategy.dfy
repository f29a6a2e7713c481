/**
 * Basic strategy (src/strategy/basic_strategy.py): three fixed charts keyed by the
 * player's total (or the pair's rank text) and the dealer's up-card key 2..11, and
 * the fall-through order of `get_action`: blackjack, pairs, soft, hard. A key the
 * hard or soft chart lacks means STAND; one the pair chart lacks means HIT.
 * The `rules` argument of the source is never read, so it is not a parameter here.
 */
module BasicStrategies {
  import opened Wrappers
  import opened Cards
  import opened Actions
  import opened Hands

  /** The dealer's up card as a chart key: 11 for an ace, else its value. */
  function DealerKey(up: Card): (k: int)
    ensures 2 <= k <= 11
    ensures k == 11 <==> up.rank == Ace
    ensures up.rank != Ace ==> k == Value(up, false)
  {
    if up.rank == Ace then 11 else Value(up, false)
  }

  /** `_load_hard_strategy`: the hard chart, row by row, for totals 5..21 against 2..11. */
  function HardChart(total: int, d: int): (a: Option<Action>)
    ensures a.Some? <==> 5 <= total <= 21 && 2 <= d <= 11
    ensures a.Some? ==> a.value in {Hit, Stand, Double}
  {
    if !(5 <= total <= 21 && 2 <= d <= 11) then None
    else if total <= 8 then Some(Hit)
    else if total == 9 then Some(if 3 <= d <= 6 then Double else Hit)
    else if total == 10 then Some(if d <= 9 then Double else Hit)
    else if total == 11 then Some(if d <= 10 then Double else Hit)
    else if total == 12 then Some(if 4 <= d <= 6 then Stand else Hit)
    else if total <= 16 then Some(if d <= 6 then Stand else Hit)
    else Some(Stand)
  }

  /** `_load_soft_strategy`: the soft chart, for soft totals 13..20 against 2..11. */
  function SoftChart(total: int, d: int): (a: Option<Action>)
    ensures a.Some? <==> 13 <= total <= 20 && 2 <= d <= 11
    ensures a.Some? ==> a.value in {Hit, Stand, Double}
  {
    if !(13 <= total <= 20 && 2 <= d <= 11) then None
    else if total <= 14 then Some(if 5 <= d <= 6 then Double else Hit)
    else if total <= 16 then Some(if 4 <= d <= 6 then Double else Hit)
    else if total == 17 then Some(if 3 <= d <= 6 then Double else Hit)
    else if total == 18 then Some(if 3 <= d <= 6 then Double else if d <= 8 then Stand else Hit)
    else Some(Stand)
  }

  /** `_load_pair_strategy`: the pair chart, keyed by the rank's text ("A", "2", ..., "10", "J", "Q", "K"). */
  function PairChart(rank: string, d: int): (a: Option<Action>)
    ensures a.Some? ==> a.value in {Hit, Stand, Double, Split}
  {
    if !(2 <= d <= 11) then None
    else if rank == "A" || rank == "8" then Some(Split)
    else if rank == "2" || rank == "3" || rank == "7" then Some(if d <= 7 then Split else Hit)
    else if rank == "4" then Some(Hit)
    else if rank == "5" then Some(if d <= 9 then Double else Hit)
    else if rank == "6" then Some(if d <= 6 then Split else Hit)
    else if rank == "9" then Some(if d == 7 || d >= 10 then Stand else Split)
    else if rank == "10" || rank == "J" || rank == "Q" || rank == "K" then Some(Stand)
    else None
  }

  /** `_get_hard_action` and `_get_soft_action`: a missing key stands, and a double that is not allowed becomes a hit. */
  function ChartAction(entry: Option<Action>, canDouble: bool): (a: Action)
    ensures entry.None? ==> a == Stand
    ensures entry == Some(Double) ==> a == (if canDouble then Double else Hit)
    ensures entry.Some? && entry.value != Double ==> a == entry.value
  {
    var action := if entry.Some? then entry.value else Stand;
    if action == Double && !canDouble then Hit else action
  }

  /** `_get_pair_action`: a missing key means hit; the answer is used only when it is a split. */
  function PairAction(rank: string, d: int): (a: Action)
    ensures a == Split <==> PairChart(rank, d) == Some(Split)
  {
    if PairChart(rank, d).Some? then PairChart(rank, d).value else Hit
  }

  /** Whether `get_action` takes the pair chart's split. */
  predicate SplitsPair(p: seq<Card>, up: Card) {
    Splittable(p) && |p| == 2 && PairAction(RankSymbol(p[0].rank), DealerKey(up)) == Split
  }

  /** `get_action`. */
  function GetAction(p: seq<Card>, up: Card): (a: Action)
    ensures BlackjackHand(p) ==> a == Stand
    ensures a != Surrender
    ensures a == Double ==> |p| == 2
    ensures a == Split <==> !BlackjackHand(p) && SplitsPair(p, up)
  {
    if BlackjackHand(p) then Stand
    else
      var total := BestTotal(p);
      var d := DealerKey(up);
      if SplitsPair(p, up) then Split
      else if Soft(p) then ChartAction(SoftChart(total, d), Doublable(p))
      else ChartAction(HardChart(total, d), Doublable(p))
  }

  /** Every rank's text has an entry in the pair chart against every dealer key. */
  lemma PairChartCoversEveryRank(r: Rank, d: int)
    requires 2 <= d <= 11
    ensures PairChart(RankSymbol(r), d).Some?
  {
    match r
    case Ace =>
    case Two =>
    case Three =>
    case Four =>
    case Five =>
    case Six =>
    case Seven =>
    case Eight =>
    case Nine =>
    case Ten =>
    case Jack =>
    case Queen =>
    case King =>
  }

  /** A bust hand is never soft and has no hard-chart key, so it stands (unless it is a pair the chart splits, which two cards never bust). */
  lemma BustHandStands(p: seq<Card>, up: Card)
    requires Bust(p)
    ensures GetAction(p, up) == Stand
  {
    SoftIffAceFits(p);
    HardAtMostBest(p);
    if |p| == 2 {
      TwoCardsNeverBust(p);
    }
  }

  /** Two cards are worth at most 21: 11 + 11 demotes to 12. */
  lemma TwoCardsNeverBust(p: seq<Card>)
    requires |p| == 2
    ensures !Bust(p)
  {
    assert p[..1][..0] == [];
    assert p[..1] == [p[0]];
    assert HardTotal(p[..1]) == Value(p[0], false);
    assert HardTotal(p) == Value(p[0], false) + Value(p[1], false) <= 20;
    BestTotalIsBestAssignment(p);
  }

  /** 2,2 against an 8 is not split and has no hard-chart key (total 4), so it stands. */
  lemma TwoTwosAgainstEightStand()
    ensures GetAction([Card(Spades, Two), Card(Hearts, Two)], Card(Clubs, Eight)) == Stand
  {
    var p := [Card(Spades, Two), Card(Hearts, Two)];
    assert p[..1] == [Card(Spades, Two)];
    assert AceCount(p) == 0 && ElevenTotal(p) == 4;
    assert BestTotal(p) == 4 && !Soft(p);
  }

  /** A three-card soft 21 has no soft-chart key, so it stands. */
  lemma SoftTwentyOneStands()
    ensures GetAction([Card(Spades, Ace), Card(Hearts, Five), Card(Clubs, Five)], Card(Clubs, Ten)) == Stand
  {
    var p := [Card(Spades, Ace), Card(Hearts, Five), Card(Clubs, Five)];
    assert p[..2][..1][..0] == [];
    assert p[..2][..1] == [Card(Spades, Ace)] && p[..2] == [Card(Spades, Ace), Card(Hearts, Five)];
    assert AceCount(p[..2][..1]) == 1 && ElevenTotal(p[..2][..1]) == 11 && HardTotal(p[..2][..1]) == 1;
    assert AceCount(p[..2]) == 1 && ElevenTotal(p[..2]) == 16 && HardTotal(p[..2]) == 6;
    assert AceCount(p) == 1 && ElevenTotal(p) == 21 && HardTotal(p) == 11;
  }

  /** Hard 11 against 10 doubles with two cards and hits with three. */
  lemma DoubleBecomesHit()
    ensures GetAction([Card(Spades, Five), Card(Hearts, Six)], Card(Clubs, Ten)) == Double
    ensures GetAction([Card(Spades, Two), Card(Hearts, Four), Card(Clubs, Five)], Card(Clubs, Ten)) == Hit
  {
    var p := [Card(Spades, Five), Card(Hearts, Six)];
    assert p[..1] == [Card(Spades, Five)];
    assert AceCount(p) == 0 && ElevenTotal(p) == 11;
    var q := [Card(Spades, Two), Card(Hearts, Four), Card(Clubs, Five)];
    assert q[..2][..1] == [Card(Spades, Two)] && q[..2] == [Card(Spades, Two), Card(Hearts, Four)];
    assert AceCount(q) == 0 && ElevenTotal(q) == 11;
  }
}
