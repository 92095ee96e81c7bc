/**
 * The battle's turn state machine. The human's choices arrive as a sequence
 * of events (click the card at a hand position, or end the turn), the cards
 * dealt into the player's hands as one stream, and the cards the opponent
 * draws on the fly as another. When an input runs out the battle is left
 * Undecided, waiting for more.
 *
 * The functions here are the specification; the methods at the end run the
 * same machine on two Player objects and are proved equal to it.
 */
module Battle {
  import opened Rules
  import opened Combatant

  /** What the human can do during their turn. */
  datatype Event = Click(index: nat) | EndTurn

  datatype Outcome = PlayerWins | OpponentWins | Undecided

  /** A side has lost once its health, maximum energy or deck reaches zero or below. */
  predicate Defeated(s: Stats)
  {
    s.health <= 0 || s.energy <= 0 || s.deck <= 0
  }

  /** Turn setup: defense is reset and this turn's energy is added to what is
      left over (a negative carry-over stays as debt). */
  function StartTurn(s: Stats): (r: Stats)
    ensures r.defense == 0
    ensures r.energyCurrent - s.energyCurrent == s.energy
    ensures r == s.(defense := 0, energyCurrent := r.energyCurrent)
    ensures Defeated(r) <==> Defeated(s)
  {
    s.(defense := 0, energyCurrent := s.energyCurrent + s.energy)
  }

  /** The number of cards dealt for a turn: one per point of deck, none if it is not positive. */
  function HandSize(s: Stats): (n: nat)
    ensures n == 0 <==> s.deck <= 0
    ensures s.deck > 0 ==> n == s.deck
  {
    if s.deck > 0 then s.deck else 0
  }

  /** From s to t the user has lost no health, maximum energy or deck, and
      neither side's non-negative defense has gone negative. */
  predicate Unweakened(s: Sides, t: Sides)
  {
    && t.user.health >= s.user.health
    && t.user.energy >= s.user.energy
    && t.user.deck >= s.user.deck
    && (s.user.defense >= 0 ==> t.user.defense >= 0)
    && (s.target.defense >= 0 ==> t.target.defense >= 0)
  }

  /** The user plays a card and pays its cost out of its current energy. */
  function PlayAndPay(c: Card, s: Sides): (r: Sides)
    requires WellFormed(c)
    ensures r.user.energyCurrent == s.user.energyCurrent - c.cost
    ensures r.target.energyCurrent == s.target.energyCurrent
    ensures Unweakened(s, r)
  {
    var p := PlayCard(c, s);
    Sides(p.user.(energyCurrent := p.user.energyCurrent - c.cost), p.target)
  }

  /** The hand without the card at position k. */
  function Without(hand: seq<Card>, k: nat): (r: seq<Card>)
    requires k < |hand|
    ensures multiset(r) + multiset{hand[k]} == multiset(hand)
    ensures forall c | c in r :: c in hand
  {
    assert hand == hand[..k] + [hand[k]] + hand[k + 1..];
    hand[..k] + hand[k + 1..]
  }

  predicate AllWellFormed(cards: seq<Card>)
  {
    forall c | c in cards :: WellFormed(c)
  }

  /** Where the player's turn stands: user is the player, target the opponent. */
  datatype PlayerTurnState = PlayerTurnState(sides: Sides, hand: seq<Card>, events: seq<Event>, ended: bool)

  /** The player's turn, from a hand and the remaining events. Each event is
      one return from the wait: a click on a card in the hand plays it, pays
      for it and removes it, and the turn then ends if energy is used up or
      the hand is empty; End Turn ends it at once. A click on a position
      outside the hand is rejected and changes nothing. */
  function PlayerTurnFrom(hand: seq<Card>, events: seq<Event>, s: Sides): (r: PlayerTurnState)
    requires AllWellFormed(hand)
    // the events left over are a suffix; an ended turn consumed at least one
    ensures |r.events| <= |events| && r.events == events[|events| - |r.events|..]
    ensures r.ended ==> |r.events| < |events|
    // a turn not ended is waiting for more events
    ensures !r.ended ==> r.events == []
    // a turn ends only on End Turn, exhausted energy or an empty hand
    ensures r.ended ==>
      r.hand == [] || r.sides.user.energyCurrent <= 0 || events[|events| - |r.events| - 1] == EndTurn
    // the remaining hand is part of the dealt hand
    ensures multiset(r.hand) <= multiset(hand)
    ensures AllWellFormed(r.hand)
    // the player never weakens itself, and defenses stay non-negative
    ensures Unweakened(s, r.sides)
    decreases |events|
  {
    if events == [] then PlayerTurnState(s, hand, [], false)
    else
      match events[0]
      case EndTurn => PlayerTurnState(s, hand, events[1..], true)
      case Click(k) =>
        if k >= |hand| then
          var r := PlayerTurnFrom(hand, events[1..], s);
          assert events[1..][|events| - 1 - |r.events|..] == events[|events| - |r.events|..];
          r
        else
          var s', hand' := PlayAndPay(hand[k], s), Without(hand, k);
          if s'.user.energyCurrent <= 0 || hand' == [] then PlayerTurnState(s', hand', events[1..], true)
          else
            var r := PlayerTurnFrom(hand', events[1..], s');
            assert events[1..][|events| - 1 - |r.events|..] == events[|events| - |r.events|..];
            r
  }

  /** No End Turn is passed over: of the events the turn consumed, only the
      one that ended it can be End Turn. */
  lemma {:induction false} NoEndTurnPassedOver(hand: seq<Card>, events: seq<Event>, s: Sides)
    requires AllWellFormed(hand)
    ensures var r := PlayerTurnFrom(hand, events, s);
      forall j | 0 <= j < |events| - |r.events| - (if r.ended then 1 else 0) :: events[j] != EndTurn
    decreases |events|
  {
    if events != [] && events[0].Click? {
      var k := events[0].index;
      if k >= |hand| {
        NoEndTurnPassedOver(hand, events[1..], s);
      } else {
        var s', hand' := PlayAndPay(hand[k], s), Without(hand, k);
        if s'.user.energyCurrent > 0 && hand' != [] {
          NoEndTurnPassedOver(hand', events[1..], s');
        }
      }
    }
  }

  /** End Turn ends the player's turn at once, with nothing changed. */
  lemma EndTurnStops(hand: seq<Card>, rest: seq<Event>, s: Sides)
    requires AllWellFormed(hand)
    ensures PlayerTurnFrom(hand, [EndTurn] + rest, s) == PlayerTurnState(s, hand, rest, true)
  {
    assert ([EndTurn] + rest)[1..] == rest;
  }

  /** A click on a card that uses up the player's energy or empties the hand
      ends the turn right after that card. */
  lemma ClickStops(hand: seq<Card>, k: nat, rest: seq<Event>, s: Sides)
    requires AllWellFormed(hand) && k < |hand|
    requires PlayAndPay(hand[k], s).user.energyCurrent <= 0 || |hand| == 1
    ensures PlayerTurnFrom(hand, [Click(k)] + rest, s)
         == PlayerTurnState(PlayAndPay(hand[k], s), Without(hand, k), rest, true)
  {
    assert ([Click(k)] + rest)[1..] == rest;
  }

  /** A click on a card that leaves energy and cards goes on with the turn
      from the new state and the smaller hand. */
  lemma ClickContinues(hand: seq<Card>, k: nat, rest: seq<Event>, s: Sides)
    requires AllWellFormed(hand) && k < |hand|
    requires PlayAndPay(hand[k], s).user.energyCurrent > 0 && |hand| > 1
    ensures PlayerTurnFrom(hand, [Click(k)] + rest, s)
         == PlayerTurnFrom(Without(hand, k), rest, PlayAndPay(hand[k], s))
  {
    assert ([Click(k)] + rest)[1..] == rest;
  }

  /** A click outside the hand is rejected: the turn goes on unchanged. */
  lemma ClickOutsideRejected(hand: seq<Card>, k: nat, rest: seq<Event>, s: Sides)
    requires AllWellFormed(hand) && k >= |hand|
    ensures PlayerTurnFrom(hand, [Click(k)] + rest, s) == PlayerTurnFrom(hand, rest, s)
  {
    assert ([Click(k)] + rest)[1..] == rest;
  }

  /** Where the opponent's turn stands: user is the opponent, target the player. */
  datatype OpponentTurnState = OpponentTurnState(sides: Sides, cards: seq<Card>, count: int, ended: bool)

  /** The opponent's turn: it plays and pays for fresh cards, one at a time,
      counting down from count, until its energy is used up or the count
      reaches zero. It always plays at least one card. */
  function OpponentTurnFrom(cards: seq<Card>, count: int, s: Sides): (r: OpponentTurnState)
    requires AllWellFormed(cards)
    // the cards left over are a suffix, and the counter went down once per card played
    ensures |r.cards| <= |cards| && r.cards == cards[|cards| - |r.cards|..]
    ensures r.count == count - (|cards| - |r.cards|)
    ensures AllWellFormed(r.cards)
    // an ended turn played at least one card, and no more than count if count was positive
    ensures r.ended ==> |r.cards| < |cards|
    ensures count >= 1 ==> r.count >= 0
    // a turn not ended is waiting for more cards
    ensures !r.ended ==> r.cards == []
    // a turn ends only on exhausted energy or a spent counter
    ensures r.ended ==> r.sides.user.energyCurrent <= 0 || r.count <= 0
    // the opponent never weakens itself, and defenses stay non-negative
    ensures Unweakened(s, r.sides)
    decreases |cards|
  {
    if cards == [] then OpponentTurnState(s, [], count, false)
    else
      var s' := PlayAndPay(cards[0], s);
      if s'.user.energyCurrent <= 0 || count - 1 <= 0 then OpponentTurnState(s', cards[1..], count - 1, true)
      else OpponentTurnFrom(cards[1..], count - 1, s')
  }

  /** The opponent's turn stops right after a card that uses up its energy
      or brings the counter to zero. */
  lemma OpponentStops(card: Card, rest: seq<Card>, count: int, s: Sides)
    requires AllWellFormed([card] + rest)
    requires PlayAndPay(card, s).user.energyCurrent <= 0 || count <= 1
    ensures OpponentTurnFrom([card] + rest, count, s)
         == OpponentTurnState(PlayAndPay(card, s), rest, count - 1, true)
  {
    assert ([card] + rest)[0] == card && ([card] + rest)[1..] == rest;
  }

  /** While energy is left and the counter is above one, the opponent goes on
      with the next card. */
  lemma OpponentContinues(card: Card, rest: seq<Card>, count: int, s: Sides)
    requires AllWellFormed([card] + rest)
    requires PlayAndPay(card, s).user.energyCurrent > 0 && count > 1
    ensures OpponentTurnFrom([card] + rest, count, s)
         == OpponentTurnFrom(rest, count - 1, PlayAndPay(card, s))
  {
    assert ([card] + rest)[0] == card && ([card] + rest)[1..] == rest;
  }

  /** How a battle stands when it is decided or waiting for input. */
  datatype BattleEnd = BattleEnd(outcome: Outcome, player: Stats, opponent: Stats)

  /** Rounds of the battle from the start of a player turn: player setup and
      hand, player turn, win check on the opponent, opponent setup and turn,
      win check on the player, and round again. */
  function BattleFrom(deals: seq<Card>, events: seq<Event>, opponentCards: seq<Card>,
                      player: Stats, opponent: Stats): BattleEnd
    requires AllWellFormed(deals) && AllWellFormed(opponentCards)
    decreases |events| + |opponentCards|
  {
    var p := StartTurn(player);
    var n := HandSize(p);
    if |deals| < n then BattleEnd(Undecided, p, opponent)
    else
      var pt := PlayerTurnFrom(deals[..n], events, Sides(p, opponent));
      if !pt.ended then BattleEnd(Undecided, pt.sides.user, pt.sides.target)
      else if Defeated(pt.sides.target) then BattleEnd(PlayerWins, pt.sides.user, pt.sides.target)
      else
        var o := StartTurn(pt.sides.target);
        var ot := OpponentTurnFrom(opponentCards, o.deck, Sides(o, pt.sides.user));
        if !ot.ended then BattleEnd(Undecided, ot.sides.target, ot.sides.user)
        else if Defeated(ot.sides.target) then BattleEnd(OpponentWins, ot.sides.target, ot.sides.user)
        else BattleFrom(deals[n..], pt.events, ot.cards, ot.sides.target, ot.sides.user)
  }

  /** A battle: both sides' current energy starts at zero, then rounds run. */
  function Battle(deals: seq<Card>, events: seq<Event>, opponentCards: seq<Card>,
                  player: Stats, opponent: Stats): BattleEnd
    requires AllWellFormed(deals) && AllWellFormed(opponentCards)
  {
    BattleFrom(deals, events, opponentCards,
               player.(energyCurrent := 0), opponent.(energyCurrent := 0))
  }

  /** A decided battle is decided by the rules: the loser is defeated, and the
      winner is not (a side never weakens itself, and each check looks at one side). */
  lemma {:induction false} OutcomeSound(deals: seq<Card>, events: seq<Event>, opponentCards: seq<Card>,
                                        player: Stats, opponent: Stats)
    requires AllWellFormed(deals) && AllWellFormed(opponentCards)
    ensures var r := BattleFrom(deals, events, opponentCards, player, opponent);
      && (r.outcome == PlayerWins ==> Defeated(r.opponent))
      && (r.outcome == OpponentWins ==> Defeated(r.player) && !Defeated(r.opponent))
      && (r.outcome == PlayerWins && !Defeated(player) ==> !Defeated(r.player))
    decreases |events| + |opponentCards|
  {
    var p := StartTurn(player);
    var n := HandSize(p);
    if |deals| >= n {
      var pt := PlayerTurnFrom(deals[..n], events, Sides(p, opponent));
      if pt.ended && !Defeated(pt.sides.target) {
        var o := StartTurn(pt.sides.target);
        var ot := OpponentTurnFrom(opponentCards, o.deck, Sides(o, pt.sides.user));
        if ot.ended && !Defeated(ot.sides.target) {
          OutcomeSound(deals[n..], pt.events, ot.cards, ot.sides.target, ot.sides.user);
        }
      }
    }
  }

  /** The converse of OutcomeSound for the player's check: once the player's
      turn has ended with the opponent defeated, the battle stops there in the
      player's favour and no further turns run. */
  lemma PlayerWinsWhenOpponentDefeated(deals: seq<Card>, events: seq<Event>, opponentCards: seq<Card>,
                                       player: Stats, opponent: Stats)
    requires AllWellFormed(deals) && AllWellFormed(opponentCards)
    requires |deals| >= HandSize(StartTurn(player))
    requires var pt := PlayerTurnFrom(deals[..HandSize(StartTurn(player))], events, Sides(StartTurn(player), opponent));
      pt.ended && Defeated(pt.sides.target)
    ensures var pt := PlayerTurnFrom(deals[..HandSize(StartTurn(player))], events, Sides(StartTurn(player), opponent));
      BattleFrom(deals, events, opponentCards, player, opponent)
        == BattleEnd(PlayerWins, pt.sides.user, pt.sides.target)
  {
  }

  /** The converse of OutcomeSound for the opponent's check: once the
      opponent's turn has ended with the player defeated, the battle stops there
      in the opponent's favour. */
  lemma OpponentWinsWhenPlayerDefeated(deals: seq<Card>, events: seq<Event>, opponentCards: seq<Card>,
                                       player: Stats, opponent: Stats)
    requires AllWellFormed(deals) && AllWellFormed(opponentCards)
    requires |deals| >= HandSize(StartTurn(player))
    requires var pt := PlayerTurnFrom(deals[..HandSize(StartTurn(player))], events, Sides(StartTurn(player), opponent));
      && pt.ended && !Defeated(pt.sides.target)
      && var o := StartTurn(pt.sides.target);
         var ot := OpponentTurnFrom(opponentCards, o.deck, Sides(o, pt.sides.user));
         ot.ended && Defeated(ot.sides.target)
    ensures var pt := PlayerTurnFrom(deals[..HandSize(StartTurn(player))], events, Sides(StartTurn(player), opponent));
      var o := StartTurn(pt.sides.target);
      var ot := OpponentTurnFrom(opponentCards, o.deck, Sides(o, pt.sides.user));
      BattleFrom(deals, events, opponentCards, player, opponent)
        == BattleEnd(OpponentWins, ot.sides.target, ot.sides.user)
  {
  }

  /** Defense never becomes negative over a battle. */
  lemma {:induction false} DefenseStaysNonNegative(deals: seq<Card>, events: seq<Event>, opponentCards: seq<Card>,
                                                   player: Stats, opponent: Stats)
    requires AllWellFormed(deals) && AllWellFormed(opponentCards)
    requires opponent.defense >= 0
    ensures var r := BattleFrom(deals, events, opponentCards, player, opponent);
      r.player.defense >= 0 && r.opponent.defense >= 0
    decreases |events| + |opponentCards|
  {
    var p := StartTurn(player);
    var n := HandSize(p);
    if |deals| >= n {
      var pt := PlayerTurnFrom(deals[..n], events, Sides(p, opponent));
      if pt.ended && !Defeated(pt.sides.target) {
        var o := StartTurn(pt.sides.target);
        var ot := OpponentTurnFrom(opponentCards, o.deck, Sides(o, pt.sides.user));
        if ot.ended && !Defeated(ot.sides.target) {
          DefenseStaysNonNegative(deals[n..], pt.events, ot.cards, ot.sides.target, ot.sides.user);
        }
      }
    }
  }

  /** In a battle the opponent's turn starts with a positive counter (it was
      not defeated), so an ended turn played between one and deck cards. */
  lemma OpponentPlaysWithinDeck(cards: seq<Card>, opponent: Stats, player: Stats)
    requires AllWellFormed(cards)
    requires !Defeated(opponent)
    ensures var o := StartTurn(opponent);
      var ot := OpponentTurnFrom(cards, o.deck, Sides(o, player));
      ot.ended ==> 1 <= |cards| - |ot.cards| <= opponent.deck
  {
  }

  /** Two default combatants and no events yet: the battle first waits on the
      player with eight energy and no defense, while the opponent's current
      energy has been zeroed at the battle's start. */
  lemma FirstTurnFromDefaults(deals: seq<Card>, opponentCards: seq<Card>)
    requires AllWellFormed(deals) && AllWellFormed(opponentCards)
    requires |deals| >= 4
    ensures Battle(deals, [], opponentCards, DefaultStats, DefaultStats)
         == BattleEnd(Undecided, DefaultStats, DefaultStats.(energyCurrent := 0))
  {
    var p := StartTurn(DefaultStats.(energyCurrent := 0));
    assert p == DefaultStats;
    assert HandSize(p) == 4;
    assert PlayerTurnFrom(deals[..4], [], Sides(p, DefaultStats.(energyCurrent := 0)))
        == PlayerTurnState(Sides(p, DefaultStats.(energyCurrent := 0)), deals[..4], [], false);
  }

  // ---------------------------------------------------------------------
  // The machine run on two Player objects.

  /** Turn setup on a combatant in place. */
  method TurnSetup(p: Player)
    modifies p
    ensures p.Snapshot() == StartTurn(old(p.Snapshot()))
  {
    p.defense := 0;
    p.energyCurrent := p.energyCurrent + p.energy;
  }

  /** A click on the card at position k: play it, pay its cost, remove it from the hand. */
  method ClickCard(player: Player, opponent: Player, hand: seq<Card>, k: nat) returns (rest: seq<Card>)
    requires player != opponent
    requires k < |hand| && WellFormed(hand[k])
    modifies player, opponent
    ensures Sides(player.Snapshot(), opponent.Snapshot())
         == PlayAndPay(hand[k], Sides(old(player.Snapshot()), old(opponent.Snapshot())))
    ensures rest == Without(hand, k)
  {
    PlayPaying(hand[k], player, opponent);
    rest := hand[..k] + hand[k + 1..];
  }

  /** Plays a card in place and takes its cost off the user's current energy. */
  method PlayPaying(card: Card, user: Player, target: Player)
    requires user != target
    requires WellFormed(card)
    modifies user, target
    ensures Sides(user.Snapshot(), target.Snapshot())
         == PlayAndPay(card, Sides(old(user.Snapshot()), old(target.Snapshot())))
  {
    Play(card, user, target);
    user.energyCurrent := user.energyCurrent - card.cost;
  }

  /** The player's turn: wait for events and act on them until the turn ends
      or the events run out. */
  method PlayerTurn(player: Player, opponent: Player, hand0: seq<Card>, events0: seq<Event>)
    returns (hand: seq<Card>, events: seq<Event>, ended: bool)
    requires player != opponent
    requires AllWellFormed(hand0)
    modifies player, opponent
    ensures PlayerTurnState(Sides(player.Snapshot(), opponent.Snapshot()), hand, events, ended)
         == PlayerTurnFrom(hand0, events0, Sides(old(player.Snapshot()), old(opponent.Snapshot())))
  {
    ghost var goal := PlayerTurnFrom(hand0, events0, Sides(player.Snapshot(), opponent.Snapshot()));
    hand, events, ended := hand0, events0, false;
    while !ended && events != []
      invariant AllWellFormed(hand)
      invariant !ended ==> PlayerTurnFrom(hand, events, Sides(player.Snapshot(), opponent.Snapshot())) == goal
      invariant ended ==> PlayerTurnState(Sides(player.Snapshot(), opponent.Snapshot()), hand, events, true) == goal
      decreases |events|
    {
      var event := events[0];
      events := events[1..];
      match event
      case EndTurn =>
        ended := true;
      case Click(k) =>
        if k < |hand| {
          hand := ClickCard(player, opponent, hand, k);
          ended := player.energyCurrent <= 0 || |hand| == 0;
        }
    }
  }

  /** The opponent's turn: play fresh cards, counting down from the deck size
      it has at setup, until energy is used up or the count reaches zero. */
  method OpponentTurn(opponent: Player, player: Player, cards0: seq<Card>)
    returns (cards: seq<Card>, ended: bool)
    requires player != opponent
    requires AllWellFormed(cards0)
    modifies player, opponent
    ensures var r := OpponentTurnFrom(cards0, old(opponent.deck), Sides(old(opponent.Snapshot()), old(player.Snapshot())));
      r.sides == Sides(opponent.Snapshot(), player.Snapshot()) && r.cards == cards && r.ended == ended
  {
    var count := opponent.deck;
    ghost var goal := OpponentTurnFrom(cards0, count, Sides(opponent.Snapshot(), player.Snapshot()));
    cards, ended := cards0, false;
    while !ended && cards != []
      invariant AllWellFormed(cards)
      invariant !ended ==> OpponentTurnFrom(cards, count, Sides(opponent.Snapshot(), player.Snapshot())) == goal
      invariant ended ==> OpponentTurnState(Sides(opponent.Snapshot(), player.Snapshot()), cards, count, true) == goal
      decreases |cards|
    {
      cards, ended := OpponentPlaysOne(opponent, player, cards, count);
      count := count - 1;
    }
  }

  /** One round of the opponent's loop: play and pay for the next card, count
      down, and test whether the turn is over. */
  method OpponentPlaysOne(opponent: Player, player: Player, cards: seq<Card>, count: int)
    returns (rest: seq<Card>, ended: bool)
    requires player != opponent
    requires cards != [] && AllWellFormed(cards)
    modifies player, opponent
    ensures rest == cards[1..] && AllWellFormed(rest)
    ensures var r := OpponentTurnFrom(cards, count, Sides(old(opponent.Snapshot()), old(player.Snapshot())));
      if ended then r == OpponentTurnState(Sides(opponent.Snapshot(), player.Snapshot()), rest, count - 1, true)
      else r == OpponentTurnFrom(rest, count - 1, Sides(opponent.Snapshot(), player.Snapshot()))
  {
    PlayPaying(cards[0], opponent, player);
    rest := cards[1..];
    ended := opponent.energyCurrent <= 0 || count - 1 <= 0;
  }

  /** The whole battle on two combatants. */
  method RunBattle(player: Player, opponent: Player,
                   deals: seq<Card>, events0: seq<Event>, opponentCards: seq<Card>)
    returns (outcome: Outcome)
    requires player != opponent
    requires AllWellFormed(deals) && AllWellFormed(opponentCards)
    modifies player, opponent
    ensures BattleEnd(outcome, player.Snapshot(), opponent.Snapshot())
         == Battle(deals, events0, opponentCards, old(player.Snapshot()), old(opponent.Snapshot()))
  {
    player.energyCurrent := 0;
    opponent.energyCurrent := 0;
    ghost var goal := BattleFrom(deals, events0, opponentCards, player.Snapshot(), opponent.Snapshot());
    var dealt, events, drawn := deals, events0, opponentCards;
    outcome := Undecided;
    while true
      invariant AllWellFormed(dealt) && AllWellFormed(drawn)
      invariant outcome == Undecided
      invariant BattleFrom(dealt, events, drawn, player.Snapshot(), opponent.Snapshot()) == goal
      decreases |events| + |drawn|
    {
      ghost var p0, o0 := player.Snapshot(), opponent.Snapshot();
      TurnSetup(player);
      var n := if player.deck > 0 then player.deck else 0;
      if |dealt| < n {
        return;
      }
      var hand := dealt[..n];
      assert AllWellFormed(hand);
      dealt := dealt[n..];
      var ended;
      hand, events, ended := PlayerTurn(player, opponent, hand, events);
      if !ended {
        return;
      }
      if opponent.health <= 0 || opponent.energy <= 0 || opponent.deck <= 0 {
        outcome := PlayerWins;
        return;
      }
      TurnSetup(opponent);
      drawn, ended := OpponentTurn(opponent, player, drawn);
      if !ended {
        return;
      }
      if player.health <= 0 || player.energy <= 0 || player.deck <= 0 {
        outcome := OpponentWins;
        return;
      }
    }
  }
}
