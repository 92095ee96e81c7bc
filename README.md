# RandomCards battle rules, modelled in Dafny

RandomCards is a two-player card battle. Each card is put together from five
word slots (prefix 1, prefix 2, name, suffix 1, suffix 2). Every slot brings
three effect strings, three powers and a cost. Playing a card works through
its effects in index order and changes the stat blocks of the player using it
(the user) and of its opponent (the target). A battle alternates turns:

- On the human's turn, they click cards from a dealt hand until they press
  End Turn, run out of energy or run out of cards.
- On the opponent's turn, it plays fresh cards until its energy is used up or
  its per-turn counter reaches zero.

After each turn the other side is checked for defeat.

This project models that rules engine:

- `rules.dfy` (module `Rules`): the value-level rules. This covers the 17
  effect strings and the `Unknown` kind, the stat block as a value (`Stats`),
  one effect (`ApplyEffect`, with the three-case damage rule `TakeDamage`), and
  a whole card (`Resolve`, a fold over the effects in index order).
- `assembly.dfy` (module `Assembly`): building a card from five chosen slot
  entries.
- `combatant.dfy` (module `Combatant`): the mutable `Player` class with the
  source's ten stat fields. `ResolveEffect` and `Play` update the fields in
  place. Each is proved equal to the value-level rules through
  `Player.Snapshot()`.
- `battle.dfy` (module `Battle`): the turn state machine.
  - It is specified as functions: `PlayerTurnFrom`, `OpponentTurnFrom`,
    `BattleFrom` and `Battle`.
  - It is run on two `Player` objects by the methods `TurnSetup`, `ClickCard`,
    `PlayerTurn`, `OpponentTurn` and `RunBattle`, each proved equal to its
    function.
  - Three inputs replace the human and the random generator: the events
    (`Click(k)` for the card at hand position `k`, and `EndTurn`), the stream
    of cards dealt into the player's hands, and the stream of cards the
    opponent draws.
  - When an input runs out, the battle is reported `Undecided`, together with
    the state it was waiting in.

Notes on how the model reads the code:

- In `click` (cards_random.py:1017-1018), `player_turn = False` assigns a
  variable local to `click`, so it has no effect. The turn is ended by the same
  test in the outer loop (cards_random.py:1131-1132), and that test is what the
  model uses.
- The code recognises 17 effect strings, including "Buff Energy" and "Buff
  Deck". Any other string, the blank one included, changes nothing.
- "Boost Energy" and "Reduce Energy" change the maximum energy field
  (`energy`), not `energyCurrent`. This is the code's own field choice.
- A click on a position outside the hand is rejected: the event is used up,
  nothing changes, and the end-of-turn test is not run for it. The code cannot
  produce such a click, because only cards in the hand have buttons.
- `Play` requires `user != target`. The code always passes two distinct
  `Player` objects.

## Model

| member | source | states |
|---|---|---|
| Rules.ParseEffect | cards_random.py:119-270 | an effect string is recognised exactly when it is one of the 17 literals the resolver compares against, and a recognised kind is written as that string |
| Rules.ParseName | cards_random.py:121-267 | every effect kind is parsed back from its own literal; exactly the non-Unknown kinds have a recognised literal |
| Rules.Amount | cards_random.py:132 | the floored amount max(0, power + buff) is never negative, is at least power + buff, and is either 0 or power + buff |
| Rules.TakeDamage | cards_random.py:121-148 | damage lowers defense plus health by exactly the amount; only defense and health change; neither rises for a non-negative amount; a non-negative defense stays non-negative |
| Rules.ApplyEffect | cards_random.py:119-270 | no effect touches either side's current energy; the user never loses health, maximum energy or deck; a non-negative defense stays non-negative on both sides; an unrecognised kind changes nothing |
| Rules.DamageCases | cards_random.py:132-148 | the three damage cases: defense <= 0 hits only health; 0 < defense < amount zeroes defense and takes the rest off health; defense >= amount takes it all off defense |
| Rules.DamageConserves | cards_random.py:132-148 | a Damage effect lowers the target's defense + health by exactly max(0, power + the user's damage buff) |
| Rules.BoostsOnlyRaise | cards_random.py:154-184 | Defense, Healing, Boost Energy and Boost Deck each raise only their one user field, by exactly max(0, power + the user's matching buff), and leave the target alone |
| Rules.ReductionsOnlyLower | cards_random.py:188-200 | Reduce Energy lowers only the target's maximum energy and Reduce Deck only its deck, by exactly max(0, power + the user's energy or deck buff), and the user is unchanged |
| Rules.BuffsAreUnclamped | cards_random.py:204-270 | each Buff adds the raw power to one user counter and each Debuff subtracts it from one target counter, without clamping, and nothing else changes |
| Rules.Resolve | cards_random.py:119-270 | resolving a card's effects in index order keeps both current energies, never weakens the user's health, maximum energy or deck, and keeps non-negative defenses non-negative |
| Rules.ResolveAppend | cards_random.py:119 | resolution is sequential: the effects after any split point act on the state the ones before it left |
| Rules.FirstEffectFirst | cards_random.py:119-121 | the first effect is applied first, and the rest of the card sees its result |
| Rules.UnknownEffectsChangeNothing | cards_random.py:119-270 | a card whose effect strings are all unrecognised leaves both combatants unchanged |
| Rules.BuffThenDamage | cards_random.py:121-148 | "Buff Damage" 2 then "Damage" 3 on an undefended target takes 5 health: the damage uses the buff raised earlier on the same card |
| Rules.DebuffTwice | cards_random.py:204-208 | two "Debuff Damage" 5 effects from a damage buff of 0 give -10 |
| Rules.NegativeDamageFloors | cards_random.py:132 | Damage with power -3 and damage buff 1 floors at 0 and changes nothing |
| Assembly.ColumnsAligned | cards_random.py:734-754 | the concatenated effects and powers both have 3 entries per slot, and position 3*j+k holds column k of slot j in both, so they stay index-aligned |
| Assembly.MakeCard | cards_random.py:709-756 | the card's effects and powers are the five slots' columns in the order prefix 1, prefix 2, name, suffix 1, suffix 2; its cost is the sum of the five costs; it has 15 index-aligned effects |
| Combatant.Player.constructor | cards_random.py:287-298 | a combatant holds exactly the stats it is given |
| Combatant.Player.Default | cards_random.py:288-298 | the default combatant has 30 health, 8 energy of 8, no defense, a deck of 4 and all buffs 0 |
| Combatant.ResolveEffect | cards_random.py:119-270 | updating the fields in place through the chain of string comparisons yields exactly ApplyEffect of the parsed kind |
| Combatant.Play | cards_random.py:108-270 | the in-place loop over the effects yields exactly the value-level resolution of the whole card |
| Battle.StartTurn | cards_random.py:1033-1034 | turn setup zeroes defense, adds the maximum energy to the current energy (a negative carry-over stays as debt), changes nothing else, and leaves the defeat test as it was |
| Battle.HandSize | cards_random.py:1041-1042 | a hand has deck cards when deck is positive and none otherwise |
| Battle.PlayAndPay | cards_random.py:1007-1008 | playing a card and paying for it lowers the user's current energy by exactly the cost, never weakens the user, and keeps defenses non-negative |
| Battle.Without | cards_random.py:1009 | removing the clicked card takes exactly that one card out of the hand |
| Battle.PlayerTurnFrom | cards_random.py:1088-1132 | the player's turn consumes a prefix of the events, at least one if it ended; it ends only on End Turn, exhausted energy or an empty hand; an unfinished turn has used up all events; the hand left is part of the dealt hand; the player never weakens itself |
| Battle.NoEndTurnPassedOver | cards_random.py:1088-1132 | of the events a turn consumed, only the last one, the one that ended it, can be End Turn: the turn never goes on past an End Turn |
| Battle.EndTurnStops | cards_random.py:1131-1132 | End Turn ends the player's turn at once, with the hand and both stat blocks unchanged |
| Battle.ClickStops | cards_random.py:1000-1018 | a click that leaves the player with no energy, or that plays the last card, ends the turn right after that card |
| Battle.ClickContinues | cards_random.py:1088-1132 | a click that leaves energy and cards continues the turn from the new stats and the smaller hand |
| Battle.ClickOutsideRejected | cards_random.py:1000-1009 | a click on a position outside the hand is rejected, and the turn goes on with nothing changed |
| Battle.OpponentTurnFrom | cards_random.py:1150-1166 | the opponent's turn plays a prefix of the drawn cards, at least one if it ended and at most count when count is positive, counting down once per card; it ends only on exhausted energy or a spent counter; the opponent never weakens itself |
| Battle.OpponentStops | cards_random.py:1160-1166 | a card that leaves the opponent with no energy, or that brings the counter to zero, ends the opponent's turn right after it |
| Battle.OpponentContinues | cards_random.py:1150-1166 | while energy is left and the counter stays above zero, the opponent goes on with the next card |
| Battle.OutcomeSound | cards_random.py:1140-1174 | when the player wins the opponent is defeated (and the player is not, if it was not at the start); when the opponent wins the player is defeated and the opponent is not |
| Battle.PlayerWinsWhenOpponentDefeated | cards_random.py:1140-1144 | after the player's turn, a defeated opponent ends the battle at once in the player's favour, with no further turns |
| Battle.OpponentWinsWhenPlayerDefeated | cards_random.py:1170-1174 | after the opponent's turn, a defeated player ends the battle at once in the opponent's favour |
| Battle.DefenseStaysNonNegative | cards_random.py:1031-1174 | with a non-negative starting defense for the opponent, no defense is ever negative when the battle stops or waits |
| Battle.OpponentPlaysWithinDeck | cards_random.py:1140-1166 | an opponent that passed the win check plays between 1 and its deck size of cards in an ended turn |
| Battle.FirstTurnFromDefaults | cards_random.py:963-1042 | two default combatants: the battle first waits on the player with 8 energy and no defense, having zeroed the opponent's current energy |
| Battle.TurnSetup | cards_random.py:1033-1034 | setup in place matches StartTurn |
| Battle.ClickCard | cards_random.py:1000-1009 | a click plays the card against the opponent, pays its cost and removes it from the hand, as PlayAndPay and Without say |
| Battle.PlayPaying | cards_random.py:1160-1161 | playing a card in place and paying for it gives exactly PlayAndPay |
| Battle.PlayerTurn | cards_random.py:1088-1132 | the in-place turn loop ends in exactly the state PlayerTurnFrom gives |
| Battle.OpponentTurn | cards_random.py:1148-1166 | the in-place opponent loop, with its counter seeded from deck, ends in exactly the state OpponentTurnFrom gives |
| Battle.OpponentPlaysOne | cards_random.py:1160-1166 | one round of the opponent's loop either ends the turn in exactly the state OpponentTurnFrom gives, or leaves a state from which the rest of the turn gives that same result |
| Battle.RunBattle | cards_random.py:945-1174 | the in-place battle, which zeroes both current energies and then runs rounds, ends with exactly the outcome and stats that Battle gives |

## Left out

- Reading the word banks from CSV files (cards_random.py:321-604): this is file I/O and parsing. The slot entries are inputs.
- Random selection of the slot entries and of the opponent's cards (cards_random.py:614-702, 1156): these are replaced by supplied entries and card streams.
- The tkinter window, labels and buttons, `updateLabels`, `pressEndButton` and `wait_variable` (cards_random.py:776-808, 937-941, 1055-1100, 1177-1280): this is UI and event-loop code. Clicks and the End Turn button become the `Event` sequence.
- The card and player name strings, `color`, `__str__` and `__repr__` (cards_random.py:59-64, 100-106, 302-308): these are for display only.
- The print-based drivers `singleCardTest*` (cards_random.py:812-933): these are manual test drivers.
- The console messages of the battle and of `click` (cards_random.py:1002-1003, 1091-1092, 1142, 1157-1158, 1172): these are for display only and change no state.
- The commented-out fallback to hand position 0 (cards_random.py:1105-1128): this is dead code. An out-of-range click is rejected instead.
- The `perks` field (cards_random.py:300): it is never read.
- The blocking wait itself: a battle that runs out of input is reported `Undecided` instead of waiting forever.
- Effect resolution on an aliased pair (a player playing against itself): the code never does this, and `Play` requires two distinct objects.
- Cards whose power and effect lists have different lengths. With fewer powers than effects the code fails with an index error on a recognised effect. With more powers the extra ones are never read. Cards are required to be well-formed (lists of equal length), as every assembled card is.
