/**
 * Playing cards (src/models/card.py): suits, ranks, the blackjack point value of a
 * card, and the text each enum member carries (used when records are serialised).
 */
module Cards {
  import opened Wrappers
  import Validation

  datatype Suit = Hearts | Diamonds | Clubs | Spades

  datatype Rank = Ace | Two | Three | Four | Five | Six | Seven | Eight | Nine | Ten | Jack | Queen | King

  /** A card is identified by its suit and rank; equality of cards is equality of both. */
  datatype Card = Card(suit: Suit, rank: Rank)

  /** The enumeration orders of the two enums (iteration over `Suit` and `Rank`). */
  const AllSuits: seq<Suit> := [Hearts, Diamonds, Clubs, Spades]
  const AllRanks: seq<Rank> := [Ace, Two, Three, Four, Five, Six, Seven, Eight, Nine, Ten, Jack, Queen, King]

  predicate IsFace(r: Rank) {
    r == Jack || r == Queen || r == King
  }

  /** The numeral printed on a number card, i.e. `int(rank.value)` for ranks 2 to 10. */
  function Pips(r: Rank): (n: int)
    requires r != Ace && !IsFace(r)
    ensures 2 <= n <= 10
  {
    match r
    case Two => 2
    case Three => 3
    case Four => 4
    case Five => 5
    case Six => 6
    case Seven => 7
    case Eight => 8
    case Nine => 9
    case Ten => 10
  }

  /** A number card's numeral is `int(rank.value)`: reading the rank's symbol as an integer gives `Pips`. */
  lemma PipsIsSymbolNumeral(r: Rank)
    requires r != Ace && !IsFace(r)
    ensures Validation.ParseInt(RankSymbol(r)) == Some(Pips(r))
  {
    var text := RankSymbol(r);
    assert Validation.AllDigits(text);
    if r == Ten {
      assert text[..1] == "1" && text[..1][..0] == [];
      assert Validation.DigitsValue(text[..1]) == 1;
    } else {
      assert |text| == 1 && text[..0] == [];
      assert Validation.DigitsValue(text) == text[0] as int - '0' as int;
    }
    assert Validation.DigitsValue(text) == Pips(r);
  }

  /** `Card.value`: an ace is 11 or 1 depending on the flag, a face card 10, any other card its numeral. */
  function Value(c: Card, aceAsEleven: bool): (v: int)
    ensures c.rank == Ace ==> v == (if aceAsEleven then 11 else 1)
    ensures c.rank != Ace ==> 2 <= v <= 10
    ensures v == 10 <==> (c.rank == Ten || IsFace(c.rank))
  {
    if c.rank == Ace then (if aceAsEleven then 11 else 1)
    else if IsFace(c.rank) then 10
    else Pips(c.rank)
  }

  /** The value of a card other than an ace does not depend on the ace flag, and no value depends on the suit. */
  lemma ValueDependsOnlyOnRank(c: Card, d: Card, flag: bool)
    requires c.rank == d.rank
    ensures Value(c, flag) == Value(d, flag)
    ensures c.rank != Ace ==> Value(c, flag) == Value(c, !flag)
  {
  }

  /** `Card.__eq__`: two cards are equal exactly when suit and rank are both equal. */
  lemma CardEquality(c: Card, d: Card)
    ensures c == d <==> (c.suit == d.suit && c.rank == d.rank)
  {
  }

  /** `Suit.value`: the suit symbol. */
  function SuitSymbol(s: Suit): string {
    match s
    case Hearts => "\U{2665}"
    case Diamonds => "\U{2666}"
    case Clubs => "\U{2663}"
    case Spades => "\U{2660}"
  }

  /** `Suit(text)`: the enum member whose value is `text`, if any. */
  function SuitFromSymbol(text: string): (r: Option<Suit>)
    ensures r.Some? ==> SuitSymbol(r.value) == text
  {
    if text == SuitSymbol(Hearts) then Some(Hearts)
    else if text == SuitSymbol(Diamonds) then Some(Diamonds)
    else if text == SuitSymbol(Clubs) then Some(Clubs)
    else if text == SuitSymbol(Spades) then Some(Spades)
    else None
  }

  lemma SuitSymbolRoundTrip(s: Suit)
    ensures SuitFromSymbol(SuitSymbol(s)) == Some(s)
  {
  }

  /** `Rank.value`: the rank symbol. */
  function RankSymbol(r: Rank): string {
    match r
    case Ace => "A"
    case Two => "2"
    case Three => "3"
    case Four => "4"
    case Five => "5"
    case Six => "6"
    case Seven => "7"
    case Eight => "8"
    case Nine => "9"
    case Ten => "10"
    case Jack => "J"
    case Queen => "Q"
    case King => "K"
  }

  /** `Rank(text)`: the enum member whose value is `text`, if any. */
  function RankFromSymbol(text: string): (r: Option<Rank>)
    ensures r.Some? ==> RankSymbol(r.value) == text
  {
    if text == "A" then Some(Ace)
    else if text == "2" then Some(Two)
    else if text == "3" then Some(Three)
    else if text == "4" then Some(Four)
    else if text == "5" then Some(Five)
    else if text == "6" then Some(Six)
    else if text == "7" then Some(Seven)
    else if text == "8" then Some(Eight)
    else if text == "9" then Some(Nine)
    else if text == "10" then Some(Ten)
    else if text == "J" then Some(Jack)
    else if text == "Q" then Some(Queen)
    else if text == "K" then Some(King)
    else None
  }

  lemma RankSymbolRoundTrip(r: Rank)
    ensures RankFromSymbol(RankSymbol(r)) == Some(r)
  {
  }

  /** Aces are recognised either by the enum member or by its text "A" (as `GameSituation` does). */
  lemma AceSymbol(r: Rank)
    ensures RankSymbol(r) == "A" <==> r == Ace
  {
  }
}
