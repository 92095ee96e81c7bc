/**
 * A combatant's mutable stat block and the resolver that plays a card by
 * updating the user's and the target's fields in place, following the
 * value-level rules of module Rules.
 */
module Combatant {
  import opened Rules

  class Player {
    var health: int
    var energy: int           // the per-turn maximum
    var energyCurrent: int
    var defense: int
    var deck: int
    var buffDamage: int
    var buffDefense: int
    var buffHealing: int
    var buffEnergy: int
    var buffDeck: int

    /** The fields, read as one value. */
    function Snapshot(): Stats
      reads this
    {
      Stats(health, energy, energyCurrent, defense, deck,
            buffDamage, buffDefense, buffHealing, buffEnergy, buffDeck)
    }

    /** A combatant with the given stats. */
    constructor (s: Stats)
      ensures Snapshot() == s
    {
      health, energy, energyCurrent, defense, deck := s.health, s.energy, s.energyCurrent, s.defense, s.deck;
      buffDamage, buffDefense, buffHealing := s.buffDamage, s.buffDefense, s.buffHealing;
      buffEnergy, buffDeck := s.buffEnergy, s.buffDeck;
    }

    /** A combatant with the default stats: 30 health, 8 energy of 8, no defense, a deck of 4, no buffs. */
    constructor Default()
      ensures Snapshot() == DefaultStats
    {
      health, energy, energyCurrent, defense, deck := 30, 8, 8, 0, 4;
      buffDamage, buffDefense, buffHealing, buffEnergy, buffDeck := 0, 0, 0, 0, 0;
    }
  }

  /** Applies one effect string with its power to the two combatants in place. */
  method ResolveEffect(effect: string, power: int, user: Player, target: Player)
    requires user != target
    modifies user, target
    ensures Sides(user.Snapshot(), target.Snapshot())
         == ApplyEffect(ParseEffect(effect), power, Sides(old(user.Snapshot()), old(target.Snapshot())))
  {
    if effect == "Damage" {
      var amount := Amount(power, user.buffDamage);
      if target.defense <= 0 {
        target.health := target.health - amount;
      } else if target.defense < amount {
        amount := amount - target.defense;
        target.defense := 0;
        target.health := target.health - amount;
      } else {
        target.defense := target.defense - amount;
      }
    } else if effect == "Defense" {
      user.defense := user.defense + Amount(power, user.buffDefense);
    } else if effect == "Healing" {
      user.health := user.health + Amount(power, user.buffHealing);
    } else if effect == "Boost Energy" {
      user.energy := user.energy + Amount(power, user.buffEnergy);
    } else if effect == "Boost Deck" {
      user.deck := user.deck + Amount(power, user.buffDeck);
    } else if effect == "Reduce Energy" {
      target.energy := target.energy - Amount(power, user.buffEnergy);
    } else if effect == "Reduce Deck" {
      target.deck := target.deck - Amount(power, user.buffDeck);
    } else if effect == "Debuff Damage" {
      target.buffDamage := target.buffDamage - power;
    } else if effect == "Debuff Defense" {
      target.buffDefense := target.buffDefense - power;
    } else if effect == "Debuff Healing" {
      target.buffHealing := target.buffHealing - power;
    } else if effect == "Debuff Energy" {
      target.buffEnergy := target.buffEnergy - power;
    } else if effect == "Debuff Deck" {
      target.buffDeck := target.buffDeck - power;
    } else if effect == "Buff Damage" {
      user.buffDamage := user.buffDamage + power;
    } else if effect == "Buff Defense" {
      user.buffDefense := user.buffDefense + power;
    } else if effect == "Buff Healing" {
      user.buffHealing := user.buffHealing + power;
    } else if effect == "Buff Energy" {
      user.buffEnergy := user.buffEnergy + power;
    } else if effect == "Buff Deck" {
      user.buffDeck := user.buffDeck + power;
    }
  }

  /** Plays a card: resolves its effects against the two combatants in index order. */
  method Play(card: Card, user: Player, target: Player)
    requires WellFormed(card)
    requires user != target
    modifies user, target
    ensures Sides(user.Snapshot(), target.Snapshot())
         == PlayCard(card, Sides(old(user.Snapshot()), old(target.Snapshot())))
  {
    ghost var start := Sides(user.Snapshot(), target.Snapshot());
    for i := 0 to |card.effects|
      invariant Sides(user.Snapshot(), target.Snapshot())
             == Resolve(card.effects[..i], card.powers[..i], start)
    {
      ResolveEffect(card.effects[i], card.powers[i], user, target);
      assert card.effects[..i + 1][..i] == card.effects[..i];
      assert card.powers[..i + 1][..i] == card.powers[..i];
    }
    assert card.effects[..|card.effects|] == card.effects;
    assert card.powers[..|card.powers|] == card.powers;
  }
}
