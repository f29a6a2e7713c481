/**
 * One hand of blackjack as a state machine over values (src/game/blackjack_game.py).
 * A `Table` is the game's state: both hands, the shoe, the `game_over` flag and the
 * result. Each transition returns the new table together with what the source
 * method returns or raises. A failing deal part-way through a transition raises
 * in the source after earlier cards were already dealt; the transitions here
 * return that partial table with the error.
 *
 * Phases: not started (no player cards, not over), in progress (player cards,
 * not over), over.
 */
module Round {
  import opened Wrappers
  import opened Errors
  import opened Cards
  import Actions
  import opened Hands
  import opened Rules
  import opened Results
  import opened Shoes

  datatype Table = Table(player: seq<Card>, dealer: seq<Card>, shoe: ShoeView, over: bool, result: Option<GameResult>)

  /** `game_over` is set exactly when a result is recorded. */
  predicate WellFormed(t: Table) {
    t.over <==> t.result.Some?
  }

  predicate NotStarted(t: Table) {
    t.player == [] && !t.over
  }

  predicate InProgress(t: Table) {
    t.player != [] && !t.over
  }

  /** A fresh game: empty hands, nothing decided, the given shoe. */
  function NewTable(shoe: ShoeView): (t: Table)
    ensures WellFormed(t) && NotStarted(t) && t.dealer == [] && t.shoe == shoe
  {
    Table([], [], shoe, false, None)
  }

  // ---------------------------------------------------------------------------
  // Dealing

  /** `player_hand.add_card(shoe.deal_card())`. */
  function DealPlayer(t: Table): (out: (Table, Result<Card, ErrorKind>))
    ensures out.1 == Deal(t.shoe).1 && out.0.shoe == Deal(t.shoe).0
    ensures out.1.Success? ==> out.0 == t.(player := t.player + [out.1.value], shoe := Deal(t.shoe).0)
    ensures out.1.Failure? ==> out.0 == t
  {
    var (s, r) := Deal(t.shoe);
    if r.Success? then (t.(player := t.player + [r.value], shoe := s), r) else (t, r)
  }

  /** `dealer_hand.add_card(shoe.deal_card())`. */
  function DealDealer(t: Table): (out: (Table, Result<Card, ErrorKind>))
    ensures out.1 == Deal(t.shoe).1 && out.0.shoe == Deal(t.shoe).0
    ensures out.1.Success? ==> out.0 == t.(dealer := t.dealer + [out.1.value], shoe := Deal(t.shoe).0)
    ensures out.1.Failure? ==> out.0 == t
  {
    var (s, r) := Deal(t.shoe);
    if r.Success? then (t.(dealer := t.dealer + [r.value], shoe := s), r) else (t, r)
  }

  // ---------------------------------------------------------------------------
  // Deciding the hand

  /** `_determine_winner`. */
  function DetermineWinner(p: seq<Card>, d: seq<Card>, rules: GameRules): GameResult {
    var pv := BestTotal(p);
    var dv := BestTotal(d);
    if Bust(p) then MakeResult(Loss, pv, Some(dv), -1.0, true, false, false, false)
    else if Bust(d) then MakeResult(Win, pv, Some(dv), 1.0, false, true, false, false)
    else if BlackjackHand(p) && BlackjackHand(d) then MakeResult(Push, pv, Some(dv), 0.0, false, false, true, true)
    else if BlackjackHand(p) then MakeResult(Blackjack, pv, Some(dv), rules.blackjackPayout, false, false, true, false)
    else if BlackjackHand(d) then MakeResult(Loss, pv, Some(dv), -1.0, false, false, false, true)
    else if pv > dv then MakeResult(Win, pv, Some(dv), 1.0, false, false, false, false)
    else if pv < dv then MakeResult(Loss, pv, Some(dv), -1.0, false, false, false, false)
    else MakeResult(Push, pv, Some(dv), 0.0, false, false, false, false)
  }

  /**
   * The winner by precedence: a player bust loses, then a dealer bust wins, then
   * blackjacks decide (both push, the player's pays the rules' payout, the
   * dealer's loses), then the totals are compared. Every flag is set from the hands.
   */
  lemma DetermineWinnerPrecedence(p: seq<Card>, d: seq<Card>, rules: GameRules)
    requires Valid(rules)
    ensures var r := DetermineWinner(p, d, rules);
      Normalized(r)
      && r.playerTotal == BestTotal(p) && r.dealerTotal == Some(BestTotal(d))
      && (r.outcome == Win <==> !Bust(p) && (Bust(d) || (!BlackjackHand(p) && !BlackjackHand(d) && BestTotal(p) > BestTotal(d))))
      && (r.outcome == Blackjack <==> !Bust(d) && BlackjackHand(p) && !BlackjackHand(d))
      && (r.outcome == Push <==>
            (!Bust(p) && !Bust(d)
             && ((BlackjackHand(p) && BlackjackHand(d)) || (!BlackjackHand(p) && !BlackjackHand(d) && BestTotal(p) == BestTotal(d)))))
      && (r.outcome == Loss <==> Bust(p) || (!Bust(d) && !BlackjackHand(p) && (BlackjackHand(d) || BestTotal(p) < BestTotal(d))))
      && r.outcome != Surrender
      && (r.outcome == Blackjack ==> r.payout == if rules.blackjackPayout > 1.0 then rules.blackjackPayout else 1.5)
      && (r.outcome != Blackjack ==> r.payout == DefaultPayout(r.outcome))
      && r.playerBusted == Bust(p) && r.dealerBusted == Bust(d)
      && r.playerBlackjack == (BlackjackHand(p) && !Bust(d))
      && r.dealerBlackjack == (BlackjackHand(d) && !Bust(p))
  {
    assert BlackjackHand(p) ==> !Bust(p);
    assert BlackjackHand(d) ==> !Bust(d);
  }

  /** `_dealer_play`'s rule for drawing another card. */
  predicate DealerMustHit(d: seq<Card>, rules: GameRules) {
    BestTotal(d) < 17 || (BestTotal(d) == 17 && Soft(d) && rules.dealerHitsSoft17)
  }

  /** The dealer only draws while the all-aces-as-1 total is at most 16, so each draw brings the loop closer to its end. */
  lemma DealerHitsBelowHardSeventeen(d: seq<Card>, rules: GameRules)
    requires DealerMustHit(d, rules)
    ensures HardTotal(d) <= 16
  {
    HardAtMostBest(d);
    SoftIffAceFits(d);
  }

  /** The `while True` loop of `_dealer_play`, once the player is known not to be bust. */
  function DealerDraw(t: Table, rules: GameRules): (out: (Table, Option<ErrorKind>))
    decreases |t.shoe.cards|
  {
    if DealerMustHit(t.dealer, rules) then
      var (t1, r) := DealDealer(t);
      if r.Failure? then (t1, Some(r.error)) else DealerDraw(t1, rules)
    else (t, None)
  }

  /** `_dealer_play`: nothing when the player is bust, otherwise draw by the rule. */
  function DealerPlay(t: Table, rules: GameRules): (out: (Table, Option<ErrorKind>)) {
    if Bust(t.player) then (t, None) else DealerDraw(t, rules)
  }

  /**
   * Dealer play only appends to the dealer's hand, taking the cards from the front
   * of the shoe; the player's hand, the flags and the result are untouched.
   */
  lemma {:induction false} DealerDrawFrame(t: Table, rules: GameRules)
    ensures var t' := DealerDraw(t, rules).0;
      t'.player == t.player && t'.over == t.over && t'.result == t.result
      && t'.shoe.threshold == t.shoe.threshold
      && |t'.dealer| >= |t.dealer| && t'.dealer[..|t.dealer|] == t.dealer
      && t'.dealer[|t.dealer|..] + t'.shoe.cards == t.shoe.cards
      && t'.shoe.dealt == t.shoe.dealt + (|t'.dealer| - |t.dealer|)
    decreases |t.shoe.cards|
  {
    if DealerMustHit(t.dealer, rules) {
      var (t1, r) := DealDealer(t);
      if r.Success? {
        DealerDrawFrame(t1, rules);
        var t' := DealerDraw(t1, rules).0;
        assert t' == DealerDraw(t, rules).0;
        assert t'.dealer[..|t1.dealer|][..|t.dealer|] == t'.dealer[..|t.dealer|];
        assert t'.dealer[|t.dealer|..] == [r.value] + t'.dealer[|t1.dealer|..];
      }
    }
  }

  /**
   * Dealer play ends without error only when the dealer stands: 17 or more, and not
   * a soft 17 when the dealer hits soft 17. It ends with the shoe's error when the
   * dealer still had to draw and the shoe could not deal.
   */
  lemma {:induction false} DealerDrawStops(t: Table, rules: GameRules)
    ensures var (t', e) := DealerDraw(t, rules);
      (e.None? ==> !DealerMustHit(t'.dealer, rules) && BestTotal(t'.dealer) >= 17)
      && (e.Some? ==> DealerMustHit(t'.dealer, rules) && Deal(t'.shoe).1.Failure? && e == Some(Deal(t'.shoe).1.error))
    decreases |t.shoe.cards|
  {
    if DealerMustHit(t.dealer, rules) {
      var (t1, r) := DealDealer(t);
      if r.Success? {
        DealerDrawStops(t1, rules);
        assert DealerDraw(t, rules) == DealerDraw(t1, rules);
      }
    }
  }

  // ---------------------------------------------------------------------------
  // Guards

  /** `can_double`. */
  predicate CanDouble(t: Table) {
    !t.over && Doublable(t.player) && !BlackjackHand(t.player)
  }

  /** `can_split`. */
  predicate CanSplit(t: Table) {
    !t.over && Splittable(t.player) && !BlackjackHand(t.player)
  }

  /** `can_surrender`. */
  predicate CanSurrender(t: Table, rules: GameRules) {
    !t.over && rules.surrenderAllowed && |t.player| == 2 && !BlackjackHand(t.player)
  }

  /** `get_available_actions`. */
  function AvailableActions(t: Table, rules: GameRules): seq<Actions.Action> {
    if t.over || |t.player| == 0 then []
    else
      [Actions.Hit, Actions.Stand]
      + (if CanDouble(t) then [Actions.Double] else [])
      + (if CanSplit(t) then [Actions.Split] else [])
      + (if CanSurrender(t, rules) then [Actions.Surrender] else [])
  }

  /** No action is on offer unless the hand is in progress; otherwise hit and stand come first. */
  lemma AvailableActionsInProgress(t: Table, rules: GameRules)
    ensures AvailableActions(t, rules) == [] <==> !InProgress(t)
    ensures InProgress(t) ==> |AvailableActions(t, rules)| >= 2 && AvailableActions(t, rules)[..2] == [Actions.Hit, Actions.Stand]
  {
  }

  /** Double, split and surrender are on offer exactly when the hand is in progress and their guard holds. */
  lemma AvailableActionsGuards(t: Table, rules: GameRules)
    ensures Actions.Double in AvailableActions(t, rules) <==> InProgress(t) && CanDouble(t)
    ensures Actions.Split in AvailableActions(t, rules) <==> InProgress(t) && CanSplit(t)
    ensures Actions.Surrender in AvailableActions(t, rules) <==> InProgress(t) && CanSurrender(t, rules)
  {
    if InProgress(t) {
      var acts := AvailableActions(t, rules);
      assert acts == [Actions.Hit, Actions.Stand] + (if CanDouble(t) then [Actions.Double] else [])
        + (if CanSplit(t) then [Actions.Split] else []) + (if CanSurrender(t, rules) then [Actions.Surrender] else []);
    }
  }

  /** The actions are listed in the fixed order hit, stand, double, split, surrender, so none twice. */
  lemma AvailableActionsOrdered(t: Table, rules: GameRules)
    ensures var acts := AvailableActions(t, rules);
      forall i, j :: 0 <= i < j < |acts| ==> ActionRank(acts[i]) < ActionRank(acts[j])
  {
    var acts := AvailableActions(t, rules);
    if InProgress(t) {
      var tail := (if CanDouble(t) then [Actions.Double] else []) + (if CanSplit(t) then [Actions.Split] else [])
        + (if CanSurrender(t, rules) then [Actions.Surrender] else []);
      assert acts == [Actions.Hit, Actions.Stand] + tail;
      forall i, j | 0 <= i < j < |tail| ensures ActionRank(tail[i]) < ActionRank(tail[j]) {
      }
      forall i | 0 <= i < |tail| ensures ActionRank(tail[i]) >= 2 {
      }
    }
  }

  /** The order in which `get_available_actions` lists actions. */
  function ActionRank(a: Actions.Action): nat {
    match a
    case Hit => 0
    case Stand => 1
    case Double => 2
    case Split => 3
    case Surrender => 4
  }

  /** `get_result`: the result only once the hand is over. */
  function GetResult(t: Table): (r: Option<GameResult>)
    ensures !t.over ==> r.None?
    ensures WellFormed(t) ==> (r.Some? <==> t.over)
  {
    if t.over then t.result else None
  }

  // ---------------------------------------------------------------------------
  // Transitions

  /** `deal_initial_cards`. */
  function DealInitial(t: Table, rules: GameRules): (Table, Option<ErrorKind>) {
    if |t.player| > 0 || |t.dealer| > 0 then (t, Some(RuntimeError(GameAlreadyStarted)))
    else if ShuffleDue(t.shoe) then (t, Some(RuntimeError(ShoeNeedsShuffle)))
    else
      var (t2, e2) := DealBoth(t);
      if e2.Some? then (t2, e2) else
      var (t4, e4) := DealBoth(t2);
      if e4.Some? then (t4, e4)
      else if BlackjackHand(t4.player) || BlackjackHand(t4.dealer) then
        (t4.(over := true, result := Some(DetermineWinner(t4.player, t4.dealer, rules))), None)
      else (t4, None)
  }

  /** One card to the player, then one to the dealer; a failing deal stops there with its error. */
  function DealBoth(t: Table): (Table, Option<ErrorKind>) {
    var (t1, r1) := DealPlayer(t);
    if r1.Failure? then (t1, Some(r1.error)) else
    var (t2, r2) := DealDealer(t1);
    if r2.Failure? then (t2, Some(r2.error)) else (t2, None)
  }

  /** `player_hit`. */
  function PlayerHit(t: Table): (Table, Result<Card, ErrorKind>) {
    if t.over then (t, Failure(RuntimeError(GameIsOver)))
    else if |t.player| == 0 then (t, Failure(RuntimeError(GameNotStarted)))
    else
      var (t1, r) := DealPlayer(t);
      if r.Failure? then (t1, r)
      else if Bust(t1.player) then
        (t1.(over := true, result := Some(MakeResult(Loss, BestTotal(t1.player), Some(BestTotal(t1.dealer)), 0.0, true, false, false, false))), r)
      else (t1, r)
  }

  /** `player_stand`. */
  function PlayerStand(t: Table, rules: GameRules): (Table, Option<ErrorKind>) {
    if t.over then (t, Some(RuntimeError(GameIsOver)))
    else if |t.player| == 0 then (t, Some(RuntimeError(GameNotStarted)))
    else
      var (t1, e) := DealerPlay(t, rules);
      if e.Some? then (t1, e)
      else (t1.(over := true, result := Some(DetermineWinner(t1.player, t1.dealer, rules))), None)
  }

  /** The in-place `result.payout *= 2` after a double: any nonzero payout doubles, keeping its sign. */
  function DoubledPayout(r: GameResult): GameResult {
    if r.payout > 0.0 then r.(payout := r.payout * 2.0)
    else if r.payout < 0.0 then r.(payout := r.payout * 2.0)
    else r
  }

  /** Doubling keeps every field but the payout, which becomes twice the original whatever its sign. */
  lemma DoubledPayoutTwice(r: GameResult)
    ensures DoubledPayout(r) == r.(payout := 2.0 * r.payout)
  {
    if r.payout == 0.0 {
      assert r.(payout := 2.0 * r.payout) == r;
    }
  }

  /** `player_double`. */
  function PlayerDouble(t: Table, rules: GameRules): (Table, Result<Card, ErrorKind>) {
    if t.over then (t, Failure(RuntimeError(GameIsOver)))
    else if !CanDouble(t) then (t, Failure(RuntimeError(CannotDouble)))
    else
      var (t1, r) := DealPlayer(t);
      if r.Failure? then (t1, r)
      else
        var (t2, e) := SettleDouble(t1, rules);
        if e.Some? then (t2, Failure(e.value)) else (t2, r)
  }

  /** The rest of `player_double` once its card is dealt: a bust loses twice the bet; otherwise the dealer plays and the payout doubles. */
  function SettleDouble(t: Table, rules: GameRules): (Table, Option<ErrorKind>) {
    if Bust(t.player) then
      (t.(over := true, result := Some(MakeResult(Loss, BestTotal(t.player), Some(BestTotal(t.dealer)), -2.0, true, false, false, false))), None)
    else
      var (t2, e) := DealerPlay(t, rules);
      if e.Some? then (t2, e)
      else (t2.(over := true, result := Some(DoubledPayout(DetermineWinner(t2.player, t2.dealer, rules)))), None)
  }

  /** `player_surrender`. */
  function PlayerSurrender(t: Table, rules: GameRules): (Table, Option<ErrorKind>) {
    if t.over then (t, Some(RuntimeError(GameIsOver)))
    else if !CanSurrender(t, rules) then (t, Some(RuntimeError(CannotSurrender)))
    else (t.(over := true, result := Some(MakeResult(Surrender, BestTotal(t.player), None, -0.5, false, false, false, false))), None)
  }

  // ---------------------------------------------------------------------------
  // Properties of the transitions

  /**
   * The initial deal fails without touching anything unless both hands are empty
   * and the shoe does not need shuffling. Otherwise it deals player, dealer, player,
   * dealer from the front of the shoe, and ends the hand, with a result, exactly when
   * either two-card hand is a blackjack.
   */
  lemma DealInitialEffect(t: Table, rules: GameRules)
    ensures var (t', e) := DealInitial(t, rules);
      (|t.player| > 0 || |t.dealer| > 0 ==> t' == t && e == Some(RuntimeError(GameAlreadyStarted)))
      && (t.player == [] && t.dealer == [] && ShuffleDue(t.shoe) ==> t' == t && e == Some(RuntimeError(ShoeNeedsShuffle)))
      && (e.None? ==>
            t.player == [] && t.dealer == [] && |t.shoe.cards| >= 4
            && t'.player == [t.shoe.cards[0], t.shoe.cards[2]]
            && t'.dealer == [t.shoe.cards[1], t.shoe.cards[3]]
            && t'.shoe.cards == t.shoe.cards[4..] && t'.shoe.dealt == t.shoe.dealt + 4
            && (BlackjackHand(t'.player) || BlackjackHand(t'.dealer) ==>
                  t'.over && t'.result == Some(DetermineWinner(t'.player, t'.dealer, rules)))
            && (!BlackjackHand(t'.player) && !BlackjackHand(t'.dealer) ==> t'.over == t.over && t'.result == t.result))
      && (e.Some? ==> t'.over == t.over && t'.result == t.result)
  {
    var (t', e) := DealInitial(t, rules);
    if e.None? {
      var s := t.shoe.cards;
      var (t1, r1) := DealPlayer(t);
      var (t2, r2) := DealDealer(t1);
      var (t3, r3) := DealPlayer(t2);
      assert s[1..][1..][1..][1..] == s[4..];
      assert t1.shoe.cards == s[1..] && t2.shoe.cards == s[2..] && t3.shoe.cards == s[3..];
    }
  }

  /**
   * A hit in progress deals exactly one card, from the front of the shoe, to the
   * player. The hand ends exactly when the player busts, as a LOSS flagged as a
   * player bust with payout -1; the dealer draws nothing.
   */
  lemma HitEffect(t: Table)
    ensures var (t', r) := PlayerHit(t);
      (t.over ==> t' == t && r == Failure(RuntimeError(GameIsOver)))
      && (!t.over && t.player == [] ==> t' == t && r == Failure(RuntimeError(GameNotStarted)))
      && (r.Success? ==>
            InProgress(t) && t.shoe.cards != [] && r.value == t.shoe.cards[0]
            && t'.player == t.player + [r.value] && t'.dealer == t.dealer
            && t'.shoe.cards == t.shoe.cards[1..] && t'.shoe.dealt == t.shoe.dealt + 1
            && (t'.over <==> Bust(t'.player))
            && (t'.over ==> t'.result.Some? && t'.result.value.outcome == Loss
                            && t'.result.value.playerBusted && t'.result.value.payout == -1.0))
      && (r.Failure? && InProgress(t) ==> t' == t)
  {
  }

  /**
   * Standing on a finished or not yet dealt game fails and changes nothing. In
   * progress, it makes the dealer play and then decides the hand: on success the hand
   * is over with `DetermineWinner` of the final hands, the player's hand is unchanged
   * and the dealer stood by the drawing rule.
   */
  lemma StandEffect(t: Table, rules: GameRules)
    ensures var (t', e) := PlayerStand(t, rules);
      (t.over ==> t' == t && e == Some(RuntimeError(GameIsOver)))
      && (!t.over && t.player == [] ==> t' == t && e == Some(RuntimeError(GameNotStarted)))
      && (InProgress(t) ==>
            t'.player == t.player && |t'.dealer| >= |t.dealer| && t'.dealer[..|t.dealer|] == t.dealer
            && (e.None? ==> t'.over && t'.result == Some(DetermineWinner(t'.player, t'.dealer, rules))
                            && (!Bust(t.player) ==> !DealerMustHit(t'.dealer, rules)))
            && (Bust(t.player) ==> t'.dealer == t.dealer && t'.shoe == t.shoe)
            && (e.Some? ==> !t'.over && t'.result == t.result))
  {
    if InProgress(t) && !Bust(t.player) {
      DealerDrawFrame(t, rules);
      DealerDrawStops(t, rules);
    }
  }

  /**
   * A double takes exactly one card. A bust ends the hand as a LOSS paying -2;
   * otherwise the dealer plays and the result is the ordinary result with its payout
   * doubled, so a win pays 2, a loss -2 and a push 0.
   */
  lemma DoubleEffect(t: Table, rules: GameRules)
    requires Valid(rules)
    ensures var (t', r) := PlayerDouble(t, rules);
      (!CanDouble(t) ==> t' == t && r.Failure?)
      && (r.Success? ==>
            CanDouble(t) && t'.over && |t'.player| == 3 && t'.player == t.player + [r.value]
            && r.value == t.shoe.cards[0]
            && (Bust(t'.player) ==> t'.result.value.outcome == Loss && t'.result.value.payout == -2.0
                                    && t'.dealer == t.dealer)
            && (!Bust(t'.player) ==>
                  t'.result == Some(DoubledPayout(DetermineWinner(t'.player, t'.dealer, rules)))
                  && !DealerMustHit(t'.dealer, rules)
                  && t'.result.value.payout == 2.0 * DetermineWinner(t'.player, t'.dealer, rules).payout))
  {
    var (t', r) := PlayerDouble(t, rules);
    if r.Success? && CanDouble(t) {
      var (t1, r1) := DealPlayer(t);
      if !Bust(t1.player) {
        DealerDrawFrame(t1, rules);
        DealerDrawStops(t1, rules);
        var t2 := DealerPlay(t1, rules).0;
        DoubledPayoutTwice(DetermineWinner(t2.player, t2.dealer, rules));
      }
    }
  }

  /**
   * Surrender is allowed only in progress, with the rule on, two cards and no
   * blackjack. It ends the hand as SURRENDER paying -0.5 with no dealer total; the
   * dealer's hand and the shoe are untouched.
   */
  lemma SurrenderEffect(t: Table, rules: GameRules)
    ensures var (t', e) := PlayerSurrender(t, rules);
      (e.None? <==> CanSurrender(t, rules))
      && t'.player == t.player && t'.dealer == t.dealer && t'.shoe == t.shoe
      && (e.None? ==> t'.over && t'.result.Some? && t'.result.value.outcome == Surrender
                      && t'.result.value.payout == -0.5 && t'.result.value.dealerTotal.None?)
      && (e.Some? ==> t' == t)
  {
  }

  /** Every transition keeps `game_over` and the recorded result in step. */
  lemma TransitionsKeepWellFormed(t: Table, rules: GameRules)
    requires WellFormed(t)
    ensures WellFormed(DealInitial(t, rules).0)
    ensures WellFormed(PlayerHit(t).0)
    ensures WellFormed(PlayerStand(t, rules).0)
    ensures WellFormed(PlayerDouble(t, rules).0)
    ensures WellFormed(PlayerSurrender(t, rules).0)
  {
    DealInitialEffect(t, rules);
    if !t.over && t.player != [] {
      StandEffect(t, rules);
    }
    if CanDouble(t) && !Bust(DealPlayer(t).0.player) {
      DealerDrawFrame(DealPlayer(t).0, rules);
    }
  }

  /** Once over, no transition changes anything, and an initial deal does not reopen the game. */
  lemma OverIsFinal(t: Table, rules: GameRules)
    requires t.over
    ensures DealInitial(t, rules).0.over
    ensures PlayerHit(t).0 == t && PlayerStand(t, rules).0 == t && PlayerDouble(t, rules).0 == t && PlayerSurrender(t, rules).0 == t
    ensures AvailableActions(t, rules) == []
  {
  }
}
