/** Table rules (src/models/game_rules.py), validated once when they are built. */
module Rules {
  import opened Wrappers
  import opened Errors

  datatype GameRules = GameRules(
    dealerHitsSoft17: bool,
    doubleAfterSplit: bool,
    surrenderAllowed: bool,
    numDecks: int,
    penetration: real,
    blackjackPayout: real)

  /** The deck counts a shoe may be built with. */
  predicate AllowedDeckCount(n: int) {
    n == 1 || n == 2 || n == 4 || n == 6 || n == 8
  }

  /** What `__post_init__` accepts. */
  predicate Valid(r: GameRules) {
    AllowedDeckCount(r.numDecks) && 0.1 <= r.penetration <= 0.9 && r.blackjackPayout > 0.0
  }

  const Defaults: GameRules := GameRules(true, true, false, 6, 0.75, 1.5)

  type ValidRules = r: GameRules | Valid(r) witness Defaults

  /** Building `GameRules(...)`: the three checks in source order, each a `ValueError`. */
  function NewGameRules(dealerHitsSoft17: bool, doubleAfterSplit: bool, surrenderAllowed: bool,
                        numDecks: int, penetration: real, blackjackPayout: real): (r: Result<ValidRules, ErrorKind>)
    ensures r.Success? <==> AllowedDeckCount(numDecks) && 0.1 <= penetration <= 0.9 && blackjackPayout > 0.0
    ensures r.Success? ==> r.value == GameRules(dealerHitsSoft17, doubleAfterSplit, surrenderAllowed, numDecks, penetration, blackjackPayout)
    ensures !AllowedDeckCount(numDecks) ==> r == Failure(ValueError(BadDeckCount))
    ensures AllowedDeckCount(numDecks) && !(0.1 <= penetration <= 0.9) ==> r == Failure(ValueError(BadPenetration))
    ensures AllowedDeckCount(numDecks) && 0.1 <= penetration <= 0.9 && blackjackPayout <= 0.0 ==> r == Failure(ValueError(BadPayout))
  {
    if !AllowedDeckCount(numDecks) then Failure(ValueError(BadDeckCount))
    else if !(0.1 <= penetration <= 0.9) then Failure(ValueError(BadPenetration))
    else if blackjackPayout <= 0.0 then Failure(ValueError(BadPayout))
    else Success(GameRules(dealerHitsSoft17, doubleAfterSplit, surrenderAllowed, numDecks, penetration, blackjackPayout))
  }

  /** `total_cards`. */
  function TotalCards(r: GameRules): (n: int)
    ensures Valid(r) ==> 52 <= n <= 416 && n % 52 == 0
  {
    r.numDecks * 52
  }

  /** `penetration_cards`: `int()` of a non-negative product is its floor. */
  function PenetrationCards(r: GameRules): (n: int)
    ensures Valid(r) ==> 0 <= n < TotalCards(r)
    ensures (n as real) <= TotalCards(r) as real * r.penetration < (n + 1) as real
  {
    (TotalCards(r) as real * r.penetration).Floor
  }

  /** The defaults are valid: H17, double after split, no surrender, 6 decks, 75%, 3:2. */
  lemma DefaultsAreValid()
    ensures Valid(Defaults)
    ensures NewGameRules(true, true, false, 6, 0.75, 1.5) == Success(Defaults)
    ensures TotalCards(Defaults) == 312 && PenetrationCards(Defaults) == 234
  {
    assert 312.0 * 0.75 == 234.0;
  }

  /** Penetration 0.95, which the shoe itself would accept, is rejected here. */
  lemma NinetyFivePercentRejected(r: GameRules)
    requires r.penetration == 0.95
    ensures !Valid(r)
    ensures NewGameRules(r.dealerHitsSoft17, r.doubleAfterSplit, r.surrenderAllowed, 6, 0.95, r.blackjackPayout)
         == Failure(ValueError(BadPenetration))
  {
  }
}
