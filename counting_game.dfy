/**
 * The counting game (src/game/counting_game.py): a blackjack game whose card
 * counter sees every card as it is revealed. The source subclasses the game; here
 * the counting game holds a `BlackjackGame` and forwards to it. The callbacks a
 * caller registers are opaque code: the model keeps how many of each kind are
 * registered and the log of notices they are called with, one per notice.
 */
module CountingGames {
  import opened Wrappers
  import opened Errors
  import opened Cards
  import opened Hands
  import opened Rules
  import opened Results
  import opened Shoes
  import opened Round
  import opened CountingSystems
  import opened Counters
  import opened SystemManager
  import opened Games

  /** What the callbacks are told: a card came face up, or the shoe was shuffled. */
  datatype Notice = Revealed(card: Card) | Shuffled

  /** The notices for cards revealed in this order. */
  function RevealNotices(cards: seq<Card>): (ns: seq<Notice>)
    ensures |ns| == |cards|
  {
    if cards == [] then [] else RevealNotices(cards[..|cards| - 1]) + [Revealed(cards[|cards| - 1])]
  }

  /** Notices of consecutive reveals are the notices of each part, in order. */
  lemma {:induction false} RevealNoticesAppend(a: seq<Card>, b: seq<Card>)
    ensures RevealNotices(a + b) == RevealNotices(a) + RevealNotices(b)
    decreases |b|
  {
    if b == [] {
      assert a + b == a;
    } else {
      var b' := b[..|b| - 1];
      assert (a + b)[..|a + b| - 1] == a + b';
      RevealNoticesAppend(a, b');
    }
  }

  /** The notice for each revealed card sits at the card's position. */
  lemma {:induction false} RevealNoticesAt(cards: seq<Card>, i: nat)
    requires i < |cards|
    ensures RevealNotices(cards)[i] == Revealed(cards[i])
    decreases |cards|
  {
    if i < |cards| - 1 {
      RevealNoticesAt(cards[..|cards| - 1], i);
    }
  }

  /** The cards revealed by the initial deal: all the player's cards and the dealer's first card. */
  function InitialReveals(p: seq<Card>, d: seq<Card>): seq<Card> {
    p + (if |d| > 0 then [d[0]] else [])
  }

  /** `_reveal_dealer_cards`: the hole card and every card the dealer drew, if the dealer holds two or more. */
  function DealerReveals(d: seq<Card>): (cards: seq<Card>)
    ensures |d| >= 2 ==> [d[0]] + cards == d
    ensures |d| < 2 ==> cards == []
  {
    if |d| >= 2 then d[1..] else []
  }

  /** The table `t1` is `t0` with its shoe reshuffled when `t0`'s shoe was due, and `t0` itself otherwise. */
  ghost predicate ShuffledIfDue(t0: Table, t1: Table) {
    if ShuffleDue(t0.shoe) then
      t1 == t0.(shoe := t1.shoe) && multiset(t1.shoe.cards) == multiset(t0.shoe.cards)
      && t1.shoe.dealt == 0 && t1.shoe.threshold == t0.shoe.threshold
    else t1 == t0
  }

  /** What `get_count_info` reports. */
  datatype CountInfo = CountInfo(system: string, runningCount: int, trueCount: real, cardsSeen: int,
                                 remainingDecks: real, penetration: real)

  class CountingBlackjackGame {
    const game: BlackjackGame
    var system: CountingSystem
    var counter: CardCounter
    var revealCallbacks: nat
    var shuffleCallbacks: nat
    var log: seq<Notice>

    /** The game is consistent and the counter counts with the current system and the rules' deck count. */
    ghost predicate Valid()
      reads this, game, game.shoe, counter
    {
      game.Valid() && counter.Valid() && counter.system == system && counter.numDecks == game.rules.numDecks
    }

    /** `CountingBlackjackGame(rules, counting_system)`: no system means the manager's default, Hi-Lo. */
    constructor (rules: ValidRules, countingSystem: Option<CountingSystem>, draws: seq<nat>)
      ensures Valid() && game.rules == rules && fresh(game) && fresh(counter)
      ensures game.Snapshot() == NewTable(game.shoe.View())
      ensures system == (if countingSystem.Some? then countingSystem.value else HiLo)
      ensures counter.seen == [] && log == [] && revealCallbacks == 0 && shuffleCallbacks == 0
    {
      game := new BlackjackGame(rules, draws);
      var sys: CountingSystem;
      if countingSystem.None? {
        var manager := new CountingSystemManager();
        sys := manager.GetDefaultSystem();
      } else {
        sys := countingSystem.value;
      }
      system := sys;
      counter := new CardCounter(sys, rules.numDecks);
      revealCallbacks := 0;
      shuffleCallbacks := 0;
      log := [];
    }

    /** `add_card_reveal_callback`. */
    method AddCardRevealCallback()
      modifies this`revealCallbacks
      ensures revealCallbacks == old(revealCallbacks) + 1
    {
      revealCallbacks := revealCallbacks + 1;
    }

    /** `add_shuffle_callback`. */
    method AddShuffleCallback()
      modifies this`shuffleCallbacks
      ensures shuffleCallbacks == old(shuffleCallbacks) + 1
    {
      shuffleCallbacks := shuffleCallbacks + 1;
    }

    /** `_notify_card_revealed`: the counter counts the card, then the callbacks are told. */
    method NotifyCardRevealed(c: Card)
      requires Valid()
      modifies this`log, counter
      ensures Valid()
      ensures counter.seen == old(counter.seen) + [c]
      ensures log == old(log) + [Revealed(c)]
    {
      counter.UpdateCount(c);
      log := log + [Revealed(c)];
    }

    /** `_notify_shuffle`: the counter starts over, then the callbacks are told. */
    method NotifyShuffle()
      requires Valid()
      modifies this`log, counter
      ensures Valid()
      ensures counter.seen == []
      ensures log == old(log) + [Shuffled]
    {
      counter.Reset();
      log := log + [Shuffled];
    }

    /**
     * `deal_initial_cards`: a shoe past its threshold is shuffled (and the count
     * reset) first; then the game deals, and the player's cards and the dealer's
     * first card are counted. `before` is the game's state after the optional shuffle.
     */
    method DealInitialCards(draws: seq<nat>) returns (e: Option<ErrorKind>, ghost before: Table)
      requires Valid()
      modifies this`log, counter, game, game.shoe, game.player, game.dealer
      ensures Valid()
      ensures ShuffledIfDue(old(game.Snapshot()), before)
      ensures (game.Snapshot(), e) == DealInitial(before, game.rules)
      ensures counter.seen == (if ShuffleDue(old(game.shoe.View())) then [] else old(counter.seen))
                              + (if e.None? then InitialReveals(game.player.cards, game.dealer.cards) else [])
      ensures log == old(log) + (if ShuffleDue(old(game.shoe.View())) then [Shuffled] else [])
                     + (if e.None? then RevealNotices(InitialReveals(game.player.cards, game.dealer.cards)) else [])
    {
      ShuffleIfNeeded(draws);
      before := game.Snapshot();
      e := DealAndReveal();
    }

    /** The deal proper, then the reveals when it succeeded. */
    method DealAndReveal() returns (e: Option<ErrorKind>)
      requires Valid()
      modifies this`log, counter, game, game.shoe, game.player, game.dealer
      ensures Valid()
      ensures (game.Snapshot(), e) == DealInitial(old(game.Snapshot()), game.rules)
      ensures counter.seen == old(counter.seen) + (if e.None? then InitialReveals(game.player.cards, game.dealer.cards) else [])
      ensures log == old(log) + (if e.None? then RevealNotices(InitialReveals(game.player.cards, game.dealer.cards)) else [])
    {
      e := game.DealInitialCards();
      if e.None? {
        RevealInitialCards();
      } else {
        assert counter.seen == old(counter.seen) + [] && log == old(log) + [];
      }
    }

    /** The test at the top of `deal_initial_cards`: a shoe past its threshold is shuffled and the count restarted. */
    method ShuffleIfNeeded(draws: seq<nat>)
      requires Valid()
      modifies this`log, counter, game.shoe
      ensures Valid()
      ensures ShuffledIfDue(old(game.Snapshot()), game.Snapshot())
      ensures counter.seen == (if ShuffleDue(old(game.shoe.View())) then [] else old(counter.seen))
      ensures log == old(log) + (if ShuffleDue(old(game.shoe.View())) then [Shuffled] else [])
    {
      var due := game.shoe.NeedsShuffle();
      if due {
        game.shoe.Shuffle(draws);
        NotifyShuffle();
      }
    }

    /** The reveals after a successful initial deal: each of the player's cards, then the dealer's first card. */
    method RevealInitialCards()
      requires Valid()
      modifies this`log, counter
      ensures Valid()
      ensures counter.seen == old(counter.seen) + InitialReveals(game.player.cards, game.dealer.cards)
      ensures log == old(log) + RevealNotices(InitialReveals(game.player.cards, game.dealer.cards))
    {
      RevealEach(InitialReveals(game.player.cards, game.dealer.cards));
    }

    /** `_notify_card_revealed` for each card in turn. */
    method RevealEach(cards: seq<Card>)
      requires Valid()
      modifies this`log, counter
      ensures Valid()
      ensures counter.seen == old(counter.seen) + cards
      ensures log == old(log) + RevealNotices(cards)
    {
      var i := 0;
      while i < |cards|
        invariant Valid() && 0 <= i <= |cards|
        invariant counter.seen == old(counter.seen) + cards[..i]
        invariant log == old(log) + RevealNotices(cards[..i])
      {
        NotifyCardRevealed(cards[i]);
        assert cards[..i + 1] == cards[..i] + [cards[i]];
        RevealNoticesAppend(cards[..i], [cards[i]]);
        i := i + 1;
      }
      assert cards[..i] == cards;
    }

    /** `player_hit`: the card dealt is counted. */
    method PlayerHit() returns (r: Result<Card, ErrorKind>)
      requires Valid()
      modifies this`log, counter, game, game.shoe, game.player
      ensures Valid()
      ensures (game.Snapshot(), r) == Round.PlayerHit(old(game.Snapshot()))
      ensures counter.seen == old(counter.seen) + (if r.Success? then [r.value] else [])
      ensures log == old(log) + (if r.Success? then [Revealed(r.value)] else [])
    {
      r := game.PlayerHit();
      if r.Success? {
        NotifyCardRevealed(r.value);
      }
    }

    /** `player_double`: the card dealt is counted, then the dealer's hidden and drawn cards unless the player busted. */
    method PlayerDouble() returns (r: Result<Card, ErrorKind>)
      requires Valid()
      modifies this`log, counter, game, game.shoe, game.player, game.dealer
      ensures Valid()
      ensures (game.Snapshot(), r) == Round.PlayerDouble(old(game.Snapshot()), game.rules)
      ensures r.Failure? ==> counter.seen == old(counter.seen) && log == old(log)
      ensures r.Success? ==>
                var shown := [r.value] + (if Bust(game.player.cards) then [] else DealerReveals(game.dealer.cards));
                counter.seen == old(counter.seen) + shown && log == old(log) + RevealNotices(shown)
    {
      r := game.PlayerDouble();
      if r.Success? {
        RevealAfterDouble(r.value);
      }
    }

    /** The reveals after a successful double: the card dealt, then the dealer's cards unless the player busted. */
    method RevealAfterDouble(c: Card)
      requires Valid() && game.gameOver
      modifies this`log, counter
      ensures Valid()
      ensures var shown := [c] + (if Bust(game.player.cards) then [] else DealerReveals(game.dealer.cards));
        counter.seen == old(counter.seen) + shown && log == old(log) + RevealNotices(shown)
    {
      var bust := game.player.IsBust();
      RevealEach([c] + (if bust then [] else DealerReveals(game.dealer.cards)));
    }

    /** `player_stand`: once the hand is decided, the dealer's hidden and drawn cards are counted. */
    method PlayerStand() returns (e: Option<ErrorKind>)
      requires Valid()
      modifies this`log, counter, game, game.shoe, game.dealer
      ensures Valid()
      ensures (game.Snapshot(), e) == Round.PlayerStand(old(game.Snapshot()), game.rules)
      ensures var shown := if e.None? then DealerReveals(game.dealer.cards) else [];
        counter.seen == old(counter.seen) + shown && log == old(log) + RevealNotices(shown)
    {
      e := game.PlayerStand();
      if e.Some? {
        return;
      }
      if game.gameOver {
        RevealDealerCards();
      }
    }

    /** `player_surrender`: no card is revealed. */
    method PlayerSurrender() returns (e: Option<ErrorKind>)
      requires Valid()
      modifies game
      ensures Valid()
      ensures (game.Snapshot(), e) == Round.PlayerSurrender(old(game.Snapshot()), game.rules)
      ensures counter.seen == old(counter.seen) && log == old(log)
    {
      e := game.PlayerSurrender();
    }

    /** `_reveal_dealer_cards`: the hole card, then each card the dealer drew, in order. */
    method RevealDealerCards()
      requires Valid()
      modifies this`log, counter
      ensures Valid()
      ensures counter.seen == old(counter.seen) + DealerReveals(game.dealer.cards)
      ensures log == old(log) + RevealNotices(DealerReveals(game.dealer.cards))
    {
      RevealEach(DealerReveals(game.dealer.cards));
    }

    /** `reset`: the game resets; a dealt count of 0 afterwards is taken as a shuffle and restarts the count. */
    method Reset(draws: seq<nat>)
      requires Valid()
      modifies this`log, counter, game, game.shoe, game.player, game.dealer
      ensures Valid()
      ensures game.Snapshot() == NewTable(game.shoe.View())
      ensures ShuffleDue(old(game.shoe.View())) ==>
                multiset(game.shoe.cards) == multiset(old(game.shoe.cards)) && game.shoe.cardsDealt == 0
      ensures !ShuffleDue(old(game.shoe.View())) ==> game.shoe.View() == old(game.shoe.View())
      ensures game.shoe.cardsDealt == 0 ==> counter.seen == [] && log == old(log) + [Shuffled]
      ensures game.shoe.cardsDealt != 0 ==> counter.seen == old(counter.seen) && log == old(log)
    {
      game.Reset(draws);
      var dealt := game.shoe.CardsDealtCount();
      if dealt == 0 {
        NotifyShuffle();
      }
    }

    /** `get_running_count`: the weight sum of the cards counted since the last reset. */
    method GetRunningCount() returns (n: int)
      requires Valid()
      ensures n == WeightSum(system, counter.seen)
    {
      n := counter.runningCount;
    }

    /** `get_true_count`. */
    method GetTrueCount() returns (tc: real)
      requires Valid()
      ensures tc == counter.TrueCount()
      ensures 52 * game.rules.numDecks > |counter.seen| ==>
                tc * (52 * game.rules.numDecks - |counter.seen|) as real == 52.0 * WeightSum(system, counter.seen) as real
    {
      tc := counter.TrueCount();
      if 52 * game.rules.numDecks > |counter.seen| {
        TrueCountPerCard(counter.runningCount, counter.numDecks, counter.cardsSeen);
      }
    }

    /** `get_cards_seen`: how many cards were counted since the last reset. */
    method GetCardsSeen() returns (n: int)
      requires Valid()
      ensures n == |counter.seen|
    {
      n := counter.cardsSeen;
    }

    /** `get_remaining_decks`. */
    method GetRemainingDecks() returns (d: real)
      requires Valid()
      ensures d * 52.0 == (52 * game.rules.numDecks - |counter.seen|) as real
    {
      d := counter.RemainingDecks();
    }

    /** `get_counting_system_name`. */
    method GetCountingSystemName() returns (name: string)
      ensures name == Name(system)
    {
      name := Name(system);
    }

    /** `switch_counting_system`: a new counter for the new system; the count starts again from nothing. */
    method SwitchCountingSystem(newSystem: CountingSystem)
      requires Valid()
      modifies this`system, this`counter
      ensures Valid() && system == newSystem && fresh(counter) && counter.seen == []
    {
      system := newSystem;
      counter := new CardCounter(newSystem, game.rules.numDecks);
    }

    /** `get_count_info`: the system, the counts, and the fraction of the shoe dealt. */
    method GetCountInfo() returns (info: CountInfo)
      requires Valid()
      ensures info.system == Name(system) && info.runningCount == WeightSum(system, counter.seen)
      ensures info.cardsSeen == |counter.seen| && info.trueCount == counter.TrueCount()
      ensures info.remainingDecks == counter.RemainingDecks()
      ensures info.penetration * (52 * game.rules.numDecks) as real == game.shoe.cardsDealt as real
    {
      info := CountInfo(Name(system), counter.runningCount, counter.TrueCount(), counter.cardsSeen,
                        counter.RemainingDecks(), game.shoe.cardsDealt as real / game.shoe.totalCards as real);
    }
  }

  /**
   * A hand dealt and then stood on, with no blackjack, has every card of both hands
   * counted exactly once: the initial reveals and the dealer's reveals make up
   * the player's cards followed by the dealer's.
   */
  lemma StandCountsEveryCard(t: Table, rules: GameRules)
    requires t.player == [] && t.dealer == [] && !t.over
    ensures var (t1, e1) := DealInitial(t, rules);
      var (t2, e2) := PlayerStand(t1, rules);
      e1.None? && !t1.over && e2.None? ==>
        InitialReveals(t1.player, t1.dealer) + DealerReveals(t2.dealer) == t2.player + t2.dealer
  {
    var (t1, e1) := DealInitial(t, rules);
    DealInitialEffect(t, rules);
    if e1.None? && !t1.over {
      StandEffect(t1, rules);
      var t2 := PlayerStand(t1, rules).0;
      RevealsCoverHands(t1.player, t1.dealer, t2.dealer);
    }
  }

  /** The initial reveals and the dealer's reveals of a hand grown from the first dealer hand cover both hands. */
  lemma RevealsCoverHands(p: seq<Card>, d1: seq<Card>, d2: seq<Card>)
    requires |d1| >= 1 && |d2| >= 2 && d2[0] == d1[0]
    ensures InitialReveals(p, d1) + DealerReveals(d2) == p + d2
  {
    assert [d2[0]] + d2[1..] == d2;
  }

  /**
   * When the initial deal ends the hand with a blackjack, the dealer's hole card is
   * never counted: the counter sees the player's two cards and the dealer's first.
   */
  lemma BlackjackLeavesHoleCardUncounted(t: Table, rules: GameRules)
    requires t.player == [] && t.dealer == []
    ensures var (t1, e1) := DealInitial(t, rules);
      e1.None? && t1.over ==>
        |t1.dealer| == 2 && InitialReveals(t1.player, t1.dealer) == t1.player + [t1.dealer[0]]
        && InitialReveals(t1.player, t1.dealer) + [t1.dealer[1]] == t1.player + t1.dealer
  {
    DealInitialEffect(t, rules);
  }
}
