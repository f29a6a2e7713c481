/**
 * The game object (src/game/blackjack_game.py): one shoe, a player hand and a
 * dealer hand updated in place, the `game_over` flag and the result. Every
 * method is proved to move the object's state exactly as the matching transition
 * of module `Round` moves its `Table`, and returns what that transition returns;
 * an exception of the source is the `Failure`/`Some` error here.
 */
module Games {
  import opened Wrappers
  import opened Errors
  import opened Cards
  import Actions
  import opened Hands
  import opened Rules
  import opened Results
  import opened Shoes
  import opened Round

  class BlackjackGame {
    const rules: ValidRules
    const shoe: Shoe
    const player: Hand
    const dealer: Hand
    var gameOver: bool
    var result: Option<GameResult>

    /** The shoe was built from the rules, the two hands are distinct objects, and a result is recorded exactly when the game is over. */
    ghost predicate Valid()
      reads this, shoe
    {
      shoe.Valid() && shoe.numDecks == rules.numDecks && shoe.penetration == rules.penetration
      && player != dealer
      && (gameOver <==> result.Some?)
    }

    /** The game's state as a value. */
    function Snapshot(): Table
      reads this, shoe, player, dealer
    {
      Table(player.cards, dealer.cards, shoe.View(), gameOver, result)
    }

    /** `BlackjackGame(rules)`: a shuffled shoe of the rules' decks (shuffled by `draws`), empty hands, no result. */
    constructor (rules: ValidRules, draws: seq<nat>)
      ensures Valid() && this.rules == rules
      ensures fresh(shoe) && fresh(player) && fresh(dealer)
      ensures Snapshot() == NewTable(shoe.View())
      ensures multiset(shoe.cards) == multiset(FreshShoe(rules.numDecks)) && shoe.cardsDealt == 0
    {
      this.rules := rules;
      shoe := new Shoe(rules.numDecks, rules.penetration, true, draws);
      player := new Hand([]);
      dealer := new Hand([]);
      gameOver := false;
      result := None;
    }

    /** `hand.add_card(self.shoe.deal_card())`: nothing is added when the deal raises. */
    method DealTo(h: Hand) returns (r: Result<Card, ErrorKind>)
      requires Valid() && (h == player || h == dealer)
      modifies shoe, h
      ensures Valid()
      ensures h == player ==> (Snapshot(), r) == DealPlayer(old(Snapshot()))
      ensures h == dealer ==> (Snapshot(), r) == DealDealer(old(Snapshot()))
    {
      r := shoe.DealCard();
      if r.Success? {
        h.AddCard(r.value);
      }
    }

    /** `deal_initial_cards`: player, dealer, player, dealer; a blackjack on either side ends the game. */
    method DealInitialCards() returns (e: Option<ErrorKind>)
      requires Valid()
      modifies this, shoe, player, dealer
      ensures Valid()
      ensures (Snapshot(), e) == DealInitial(old(Snapshot()), rules)
    {
      var playerCount := player.CardCount();
      var dealerCount := dealer.CardCount();
      if playerCount > 0 || dealerCount > 0 {
        return Some(RuntimeError(GameAlreadyStarted));
      }
      var due := shoe.NeedsShuffle();
      if due {
        return Some(RuntimeError(ShoeNeedsShuffle));
      }
      e := DealBoth();
      if e.Some? {
        return;
      }
      e := DealBoth();
      if e.Some? {
        return;
      }
      ghost var dealt := Snapshot();
      var playerBlackjack := player.IsBlackjack();
      var dealerBlackjack := dealer.IsBlackjack();
      if playerBlackjack || dealerBlackjack {
        gameOver := true;
        var res := DetermineWinnerNow();
        result := Some(res);
        assert Snapshot() == dealt.(over := true, result := Some(DetermineWinner(dealt.player, dealt.dealer, rules)));
      }
      return None;
    }

    /** One card to the player, then one to the dealer, as the initial deal does twice. */
    method DealBoth() returns (e: Option<ErrorKind>)
      requires Valid()
      modifies shoe, player, dealer
      ensures Valid()
      ensures (Snapshot(), e) == Round.DealBoth(old(Snapshot()))
    {
      var r := DealTo(player);
      if r.Failure? {
        return Some(r.error);
      }
      r := DealTo(dealer);
      if r.Failure? {
        return Some(r.error);
      }
      return None;
    }

    /** `player_hit`: one card to the player; a bust ends the game as a loss. */
    method PlayerHit() returns (r: Result<Card, ErrorKind>)
      requires Valid()
      modifies this, shoe, player
      ensures Valid()
      ensures (Snapshot(), r) == Round.PlayerHit(old(Snapshot()))
    {
      if gameOver {
        return Failure(RuntimeError(GameIsOver));
      }
      var count := player.CardCount();
      if count == 0 {
        return Failure(RuntimeError(GameNotStarted));
      }
      r := DealTo(player);
      if r.Failure? {
        return;
      }
      var bust := player.IsBust();
      if bust {
        gameOver := true;
        var playerTotal := player.Value();
        var dealerTotal := dealer.Value();
        result := Some(MakeResult(Loss, playerTotal, Some(dealerTotal), 0.0, true, false, false, false));
      }
    }

    /** `player_stand`: the dealer plays out, then the winner is decided. */
    method PlayerStand() returns (e: Option<ErrorKind>)
      requires Valid()
      modifies this, shoe, dealer
      ensures Valid()
      ensures (Snapshot(), e) == Round.PlayerStand(old(Snapshot()), rules)
    {
      if gameOver {
        return Some(RuntimeError(GameIsOver));
      }
      var count := player.CardCount();
      if count == 0 {
        return Some(RuntimeError(GameNotStarted));
      }
      e := DealerPlay();
      if e.Some? {
        return;
      }
      gameOver := true;
      var res := DetermineWinnerNow();
      result := Some(res);
    }

    /** `player_double`: exactly one more card, then stand; the payout is doubled. */
    method PlayerDouble() returns (r: Result<Card, ErrorKind>)
      requires Valid()
      modifies this, shoe, player, dealer
      ensures Valid()
      ensures (Snapshot(), r) == Round.PlayerDouble(old(Snapshot()), rules)
      ensures r.Success? ==> gameOver
    {
      if gameOver {
        return Failure(RuntimeError(GameIsOver));
      }
      var allowed := CanDouble();
      if !allowed {
        return Failure(RuntimeError(CannotDouble));
      }
      r := DealTo(player);
      if r.Failure? {
        return;
      }
      var e := SettleDouble();
      if e.Some? {
        return Failure(e.value);
      }
    }

    /** The rest of `player_double` once its card is dealt. */
    method SettleDouble() returns (e: Option<ErrorKind>)
      requires Valid() && !gameOver
      modifies this, shoe, dealer
      ensures Valid()
      ensures (Snapshot(), e) == Round.SettleDouble(old(Snapshot()), rules)
      ensures e.None? ==> gameOver
    {
      var bust := player.IsBust();
      if bust {
        gameOver := true;
        var playerTotal := player.Value();
        var dealerTotal := dealer.Value();
        result := Some(MakeResult(Loss, playerTotal, Some(dealerTotal), -2.0, true, false, false, false));
        e := None;
      } else {
        e := DealerPlay();
        if e.Some? {
          return;
        }
        ghost var played := Snapshot();
        gameOver := true;
        var res := DetermineWinnerNow();
        ghost var decided := res;
        if res.payout > 0.0 {
          res := res.(payout := res.payout * 2.0);
        } else if res.payout < 0.0 {
          res := res.(payout := res.payout * 2.0);
        }
        assert res == DoubledPayout(decided);
        result := Some(res);
        assert Snapshot() == played.(over := true, result := Some(DoubledPayout(DetermineWinner(played.player, played.dealer, rules))));
      }
    }

    /** `player_surrender`: half the bet is lost and the dealer's hand is not revealed. */
    method PlayerSurrender() returns (e: Option<ErrorKind>)
      requires Valid()
      modifies this
      ensures Valid()
      ensures (Snapshot(), e) == Round.PlayerSurrender(old(Snapshot()), rules)
    {
      if gameOver {
        return Some(RuntimeError(GameIsOver));
      }
      var allowed := CanSurrender();
      if !allowed {
        return Some(RuntimeError(CannotSurrender));
      }
      gameOver := true;
      var playerTotal := player.Value();
      result := Some(MakeResult(Surrender, playerTotal, None, -0.5, false, false, false, false));
      return None;
    }

    /** `can_double`. */
    method CanDouble() returns (b: bool)
      ensures b == Round.CanDouble(Snapshot())
    {
      var doublable := player.CanDouble();
      var blackjack := player.IsBlackjack();
      b := !gameOver && doublable && !blackjack;
    }

    /** `can_split`. */
    method CanSplit() returns (b: bool)
      ensures b == Round.CanSplit(Snapshot())
    {
      var splittable := player.CanSplit();
      var blackjack := player.IsBlackjack();
      b := !gameOver && splittable && !blackjack;
    }

    /** `can_surrender`. */
    method CanSurrender() returns (b: bool)
      ensures b == Round.CanSurrender(Snapshot(), rules)
    {
      var count := player.CardCount();
      var blackjack := player.IsBlackjack();
      b := !gameOver && rules.surrenderAllowed && count == 2 && !blackjack;
    }

    /** `get_available_actions`: hit and stand, then double, split and surrender when allowed. */
    method GetAvailableActions() returns (actions: seq<Actions.Action>)
      ensures actions == AvailableActions(Snapshot(), rules)
    {
      var count := player.CardCount();
      if gameOver || count == 0 {
        return [];
      }
      actions := [Actions.Hit, Actions.Stand];
      var double := CanDouble();
      if double {
        actions := actions + [Actions.Double];
      }
      var split := CanSplit();
      if split {
        actions := actions + [Actions.Split];
      }
      var surrender := CanSurrender();
      if surrender {
        actions := actions + [Actions.Surrender];
      }
    }

    /** `get_result`. */
    method GetResult() returns (r: Option<GameResult>)
      ensures r == Round.GetResult(Snapshot())
    {
      r := if gameOver then result else None;
    }

    /**
     * `reset`: both hands emptied and the result cleared; the cards still in the
     * shoe are shuffled, and the dealt count zeroed, only when the shoe needs it.
     */
    method Reset(draws: seq<nat>)
      requires Valid()
      modifies this, shoe, player, dealer
      ensures Valid()
      ensures Snapshot() == NewTable(shoe.View())
      ensures ShuffleDue(old(shoe.View())) ==>
                multiset(shoe.cards) == multiset(old(shoe.cards)) && |shoe.cards| == |old(shoe.cards)| && shoe.cardsDealt == 0
      ensures !ShuffleDue(old(shoe.View())) ==> shoe.View() == old(shoe.View())
    {
      player.Clear();
      dealer.Clear();
      gameOver := false;
      result := None;
      var due := shoe.NeedsShuffle();
      if due {
        shoe.Shuffle(draws);
      }
    }

    /** `_dealer_play`: nothing if the player is bust, else draw until the rule says stand. */
    method DealerPlay() returns (e: Option<ErrorKind>)
      requires Valid()
      modifies shoe, dealer
      ensures Valid()
      ensures (Snapshot(), e) == Round.DealerPlay(old(Snapshot()), rules)
    {
      var bust := player.IsBust();
      if bust {
        return None;
      }
      while true
        invariant Valid()
        invariant player.cards == old(player.cards)
        invariant DealerDraw(Snapshot(), rules) == DealerDraw(old(Snapshot()), rules)
        decreases 17 - HardTotal(dealer.cards)
      {
        var dealerValue := dealer.Value();
        var mustHit := false;
        if dealerValue >= 17 {
          var soft := dealer.IsSoft();
          mustHit := dealerValue == 17 && soft && rules.dealerHitsSoft17;
        } else {
          mustHit := true;
        }
        if !mustHit {
          break;
        }
        DealerHitsBelowHardSeventeen(dealer.cards, rules);
        var before := dealer.cards;
        var r := DealTo(dealer);
        if r.Failure? {
          return Some(r.error);
        }
        HardTotalGrows(before, r.value);
      }
      return None;
    }

    /** `_determine_winner`, computed with the hands' own methods. */
    method DetermineWinnerNow() returns (r: GameResult)
      ensures r == DetermineWinner(player.cards, dealer.cards, rules)
    {
      var playerValue := player.Value();
      var dealerValue := dealer.Value();
      var playerBlackjack := player.IsBlackjack();
      var dealerBlackjack := dealer.IsBlackjack();
      var playerBusted := player.IsBust();
      var dealerBusted := dealer.IsBust();
      if playerBusted {
        return MakeResult(Loss, playerValue, Some(dealerValue), -1.0, true, false, false, false);
      }
      if dealerBusted {
        return MakeResult(Win, playerValue, Some(dealerValue), 1.0, false, true, false, false);
      }
      if playerBlackjack && dealerBlackjack {
        return MakeResult(Push, playerValue, Some(dealerValue), 0.0, false, false, true, true);
      }
      if playerBlackjack && !dealerBlackjack {
        return MakeResult(Blackjack, playerValue, Some(dealerValue), rules.blackjackPayout, false, false, true, false);
      }
      if dealerBlackjack && !playerBlackjack {
        return MakeResult(Loss, playerValue, Some(dealerValue), -1.0, false, false, false, true);
      }
      if playerValue > dealerValue {
        return MakeResult(Win, playerValue, Some(dealerValue), 1.0, false, false, false, false);
      } else if playerValue < dealerValue {
        return MakeResult(Loss, playerValue, Some(dealerValue), -1.0, false, false, false, false);
      } else {
        return MakeResult(Push, playerValue, Some(dealerValue), 0.0, false, false, false, false);
      }
    }
  }

  /**
   * After the first reshuffle a game can be left with a shoe that never deals again:
   * `reset` shuffles only the undealt cards and zeroes the dealt count, so when more
   * than half the shoe lies before the threshold, the cards left run out before the
   * threshold is reached, every later deal fails with `ShoeEmpty`, and `needs_shuffle`
   * stays false, so no later reset shuffles.
   */
  lemma ReshuffledShoeRunsDry(v: ShoeView, totalCards: int, rules: GameRules)
    requires ShuffleDue(v) && |v.cards| + v.dealt == totalCards && 2 * v.threshold > totalCards
    ensures var w := Repeat(ShoeView(v.cards, 0, v.threshold), |v.cards|);
      w.cards == [] && !ShuffleDue(w)
      && DealInitial(NewTable(w), rules) == (Table([], [], w, false, None), Some(GameLogicError(ShoeEmpty)))
  {
    ShortShoeRunsDry(ShoeView(v.cards, 0, v.threshold));
  }
}
