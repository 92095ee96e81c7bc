/**
 * The value-level rules of the card battle: the effect kinds a card can carry,
 * a combatant's stat block as a value, how one effect changes a (user, target)
 * pair, and how a whole card resolves its effects in index order.
 *
 * These functions are the specification of the imperative resolver in
 * module Combatant and of the battle loop in module Battle.
 */
module Rules {

  /** The effect strings the resolver recognises, plus Unknown for every other
      string (including the empty string a blank word-bank cell gives). */
  datatype Effect =
    | Damage | Defense | Healing | BoostEnergy | BoostDeck
    | ReduceEnergy | ReduceDeck
    | DebuffDamage | DebuffDefense | DebuffHealing | DebuffEnergy | DebuffDeck
    | BuffDamage | BuffDefense | BuffHealing | BuffEnergy | BuffDeck
    | Unknown

  /** The seventeen literals the resolver compares an effect string against. */
  const KnownNames: set<string> := {
    "Damage", "Defense", "Healing", "Boost Energy", "Boost Deck",
    "Reduce Energy", "Reduce Deck",
    "Debuff Damage", "Debuff Defense", "Debuff Healing", "Debuff Energy", "Debuff Deck",
    "Buff Damage", "Buff Defense", "Buff Healing", "Buff Energy", "Buff Deck"
  }

  /** The literal an effect kind is written as; Unknown is written as the blank string. */
  function Name(e: Effect): string
  {
    match e
    case Damage => "Damage"
    case Defense => "Defense"
    case Healing => "Healing"
    case BoostEnergy => "Boost Energy"
    case BoostDeck => "Boost Deck"
    case ReduceEnergy => "Reduce Energy"
    case ReduceDeck => "Reduce Deck"
    case DebuffDamage => "Debuff Damage"
    case DebuffDefense => "Debuff Defense"
    case DebuffHealing => "Debuff Healing"
    case DebuffEnergy => "Debuff Energy"
    case DebuffDeck => "Debuff Deck"
    case BuffDamage => "Buff Damage"
    case BuffDefense => "Buff Defense"
    case BuffHealing => "Buff Healing"
    case BuffEnergy => "Buff Energy"
    case BuffDeck => "Buff Deck"
    case Unknown => ""
  }

  /** The resolver's chain of string comparisons: the first literal that
      matches decides the kind, anything else is Unknown. */
  function ParseEffect(s: string): (r: Effect)
    ensures r == Unknown <==> s !in KnownNames
    ensures r != Unknown ==> Name(r) == s
  {
    if s == "Damage" then Damage
    else if s == "Defense" then Defense
    else if s == "Healing" then Healing
    else if s == "Boost Energy" then BoostEnergy
    else if s == "Boost Deck" then BoostDeck
    else if s == "Reduce Energy" then ReduceEnergy
    else if s == "Reduce Deck" then ReduceDeck
    else if s == "Debuff Damage" then DebuffDamage
    else if s == "Debuff Defense" then DebuffDefense
    else if s == "Debuff Healing" then DebuffHealing
    else if s == "Debuff Energy" then DebuffEnergy
    else if s == "Debuff Deck" then DebuffDeck
    else if s == "Buff Damage" then BuffDamage
    else if s == "Buff Defense" then BuffDefense
    else if s == "Buff Healing" then BuffHealing
    else if s == "Buff Energy" then BuffEnergy
    else if s == "Buff Deck" then BuffDeck
    else Unknown
  }

  /** Every kind is recognised from its own literal: parsing is a left inverse of Name. */
  lemma ParseName(e: Effect)
    ensures ParseEffect(Name(e)) == e
    ensures e != Unknown <==> Name(e) in KnownNames
  {
    match e
    case Damage =>
    case Defense =>
    case Healing =>
    case BoostEnergy =>
    case BoostDeck =>
    case ReduceEnergy =>
    case ReduceDeck =>
    case DebuffDamage =>
    case DebuffDefense =>
    case DebuffHealing =>
    case DebuffEnergy =>
    case DebuffDeck =>
    case BuffDamage =>
    case BuffDefense =>
    case BuffHealing =>
    case BuffEnergy =>
    case BuffDeck =>
    case Unknown =>
  }

  /** One combatant's stat block, as a value. */
  datatype Stats = Stats(
    health: int,
    energy: int,          // the per-turn maximum
    energyCurrent: int,
    defense: int,
    deck: int,
    buffDamage: int,
    buffDefense: int,
    buffHealing: int,
    buffEnergy: int,
    buffDeck: int)

  /** The stat block a combatant starts with. */
  const DefaultStats: Stats := Stats(30, 8, 8, 0, 4, 0, 0, 0, 0, 0)

  /** The two combatants an effect acts on: the one playing the card and its opponent. */
  datatype Sides = Sides(user: Stats, target: Stats)

  /** The floored magnitude max(0, power + buff) of the clamped effect kinds. */
  function Amount(power: int, buff: int): (r: int)
    ensures r >= 0 && r >= power + buff
    ensures r == 0 || r == power + buff
  {
    if power + buff > 0 then power + buff else 0
  }

  /** The three-case damage rule: defense absorbs first, the rest hits health. */
  function TakeDamage(t: Stats, amount: int): (r: Stats)
    // defense plus health drops by exactly the damage dealt
    ensures r.defense + r.health == t.defense + t.health - amount
    // only defense and health change
    ensures r == t.(defense := r.defense, health := r.health)
    // damage never raises either, and never drives a non-negative defense below zero
    ensures amount >= 0 ==> r.defense <= t.defense && r.health <= t.health
    ensures t.defense >= 0 ==> r.defense >= 0
  {
    if t.defense <= 0 then
      t.(health := t.health - amount)
    else if t.defense < amount then
      t.(defense := 0, health := t.health - (amount - t.defense))
    else
      t.(defense := t.defense - amount)
  }

  /** The effect of one (kind, power) pair on the user and the target. */
  function ApplyEffect(e: Effect, power: int, s: Sides): (r: Sides)
    // no effect touches a combatant's current energy
    ensures r.user.energyCurrent == s.user.energyCurrent
    ensures r.target.energyCurrent == s.target.energyCurrent
    // the user never loses health, maximum energy or deck by its own card
    ensures r.user.health >= s.user.health
    ensures r.user.energy >= s.user.energy
    ensures r.user.deck >= s.user.deck
    // a non-negative defense stays non-negative on either side
    ensures s.user.defense >= 0 ==> r.user.defense >= 0
    ensures s.target.defense >= 0 ==> r.target.defense >= 0
    // an unrecognised kind changes nothing
    ensures e == Unknown ==> r == s
  {
    var u, t := s.user, s.target;
    match e
    case Damage => Sides(u, TakeDamage(t, Amount(power, u.buffDamage)))
    case Defense => Sides(u.(defense := u.defense + Amount(power, u.buffDefense)), t)
    case Healing => Sides(u.(health := u.health + Amount(power, u.buffHealing)), t)
    case BoostEnergy => Sides(u.(energy := u.energy + Amount(power, u.buffEnergy)), t)
    case BoostDeck => Sides(u.(deck := u.deck + Amount(power, u.buffDeck)), t)
    case ReduceEnergy => Sides(u, t.(energy := t.energy - Amount(power, u.buffEnergy)))
    case ReduceDeck => Sides(u, t.(deck := t.deck - Amount(power, u.buffDeck)))
    case DebuffDamage => Sides(u, t.(buffDamage := t.buffDamage - power))
    case DebuffDefense => Sides(u, t.(buffDefense := t.buffDefense - power))
    case DebuffHealing => Sides(u, t.(buffHealing := t.buffHealing - power))
    case DebuffEnergy => Sides(u, t.(buffEnergy := t.buffEnergy - power))
    case DebuffDeck => Sides(u, t.(buffDeck := t.buffDeck - power))
    case BuffDamage => Sides(u.(buffDamage := u.buffDamage + power), t)
    case BuffDefense => Sides(u.(buffDefense := u.buffDefense + power), t)
    case BuffHealing => Sides(u.(buffHealing := u.buffHealing + power), t)
    case BuffEnergy => Sides(u.(buffEnergy := u.buffEnergy + power), t)
    case BuffDeck => Sides(u.(buffDeck := u.buffDeck + power), t)
    case Unknown => s
  }

  /** the three damage cases, with amount = max(0, power + user's damage buff) */
  lemma DamageCases(power: int, s: Sides)
    ensures var a, t, r := Amount(power, s.user.buffDamage), s.target, ApplyEffect(Damage, power, s);
      && r.user == s.user
      && (t.defense <= 0 ==> r.target == t.(health := t.health - a))
      && (0 < t.defense < a ==> r.target == t.(defense := 0, health := t.health - (a - t.defense)))
      && (t.defense >= a ==> r.target == t.(defense := t.defense - a))
  {
  }

  /** A Damage effect lowers the target's defense plus health by exactly its floored amount. */
  lemma DamageConserves(power: int, s: Sides)
    ensures var r := ApplyEffect(Damage, power, s);
      r.target.defense + r.target.health
        == s.target.defense + s.target.health - Amount(power, s.user.buffDamage)
  {
  }

  /** Defense, Healing, Boost Energy and Boost Deck raise one field of the user,
      by max(0, power + buff), and change nothing else. */
  lemma BoostsOnlyRaise(e: Effect, power: int, s: Sides)
    requires e in {Defense, Healing, BoostEnergy, BoostDeck}
    ensures var r, u := ApplyEffect(e, power, s), s.user;
      && r.target == s.target
      && (e == Defense ==> r.user == u.(defense := r.user.defense) && r.user.defense >= u.defense
                           && r.user.defense == u.defense + Amount(power, u.buffDefense))
      && (e == Healing ==> r.user == u.(health := r.user.health) && r.user.health >= u.health
                           && r.user.health == u.health + Amount(power, u.buffHealing))
      && (e == BoostEnergy ==> r.user == u.(energy := r.user.energy) && r.user.energy >= u.energy
                               && r.user.energy == u.energy + Amount(power, u.buffEnergy))
      && (e == BoostDeck ==> r.user == u.(deck := r.user.deck) && r.user.deck >= u.deck
                             && r.user.deck == u.deck + Amount(power, u.buffDeck))
  {
  }

  /** Reduce Energy and Reduce Deck lower one field of the target (its maximum
      energy, or its deck), by max(0, power + the user's buff), and nothing else. */
  lemma ReductionsOnlyLower(e: Effect, power: int, s: Sides)
    requires e in {ReduceEnergy, ReduceDeck}
    ensures var r, t := ApplyEffect(e, power, s), s.target;
      && r.user == s.user
      && (e == ReduceEnergy ==> r.target == t.(energy := r.target.energy) && r.target.energy <= t.energy
                                && r.target.energy == t.energy - Amount(power, s.user.buffEnergy))
      && (e == ReduceDeck ==> r.target == t.(deck := r.target.deck) && r.target.deck <= t.deck
                              && r.target.deck == t.deck - Amount(power, s.user.buffDeck))
  {
  }

  /** Buffs add the raw power to one counter of the user, debuffs subtract it
      from one counter of the target; neither is clamped. */
  lemma BuffsAreUnclamped(power: int, s: Sides)
    ensures var u, t := s.user, s.target;
      && ApplyEffect(BuffDamage, power, s) == Sides(u.(buffDamage := u.buffDamage + power), t)
      && ApplyEffect(BuffDefense, power, s) == Sides(u.(buffDefense := u.buffDefense + power), t)
      && ApplyEffect(BuffHealing, power, s) == Sides(u.(buffHealing := u.buffHealing + power), t)
      && ApplyEffect(BuffEnergy, power, s) == Sides(u.(buffEnergy := u.buffEnergy + power), t)
      && ApplyEffect(BuffDeck, power, s) == Sides(u.(buffDeck := u.buffDeck + power), t)
      && ApplyEffect(DebuffDamage, power, s) == Sides(u, t.(buffDamage := t.buffDamage - power))
      && ApplyEffect(DebuffDefense, power, s) == Sides(u, t.(buffDefense := t.buffDefense - power))
      && ApplyEffect(DebuffHealing, power, s) == Sides(u, t.(buffHealing := t.buffHealing - power))
      && ApplyEffect(DebuffEnergy, power, s) == Sides(u, t.(buffEnergy := t.buffEnergy - power))
      && ApplyEffect(DebuffDeck, power, s) == Sides(u, t.(buffDeck := t.buffDeck - power))
  {
  }

  /** A card: its effect strings and the index-aligned powers, and its energy cost. */
  datatype Card = Card(effects: seq<string>, powers: seq<int>, cost: int)

  /** Every effect has a power at the same index. */
  predicate WellFormed(c: Card)
  {
    |c.effects| == |c.powers|
  }

  /** The pair after resolving the given effects, in index order, starting from s. */
  function Resolve(effects: seq<string>, powers: seq<int>, s: Sides): (r: Sides)
    requires |effects| == |powers|
    ensures r.user.energyCurrent == s.user.energyCurrent
    ensures r.target.energyCurrent == s.target.energyCurrent
    ensures r.user.health >= s.user.health
    ensures r.user.energy >= s.user.energy
    ensures r.user.deck >= s.user.deck
    ensures s.user.defense >= 0 ==> r.user.defense >= 0
    ensures s.target.defense >= 0 ==> r.target.defense >= 0
    decreases |effects|
  {
    if effects == [] then s
    else
      var n := |effects| - 1;
      ApplyEffect(ParseEffect(effects[n]), powers[n], Resolve(effects[..n], powers[..n], s))
  }

  /** Playing a card: resolve all of its effects, in index order. */
  function PlayCard(c: Card, s: Sides): Sides
    requires WellFormed(c)
  {
    Resolve(c.effects, c.powers, s)
  }

  /** Resolution is sequential: the effects after a split see the state the
      effects before it produced. */
  lemma {:induction false} ResolveAppend(e1: seq<string>, p1: seq<int>, e2: seq<string>, p2: seq<int>, s: Sides)
    requires |e1| == |p1| && |e2| == |p2|
    ensures Resolve(e1 + e2, p1 + p2, s) == Resolve(e2, p2, Resolve(e1, p1, s))
    decreases |e2|
  {
    if e2 == [] {
      assert e1 + e2 == e1 && p1 + p2 == p1;
    } else {
      var n := |e2| - 1;
      var m := |e1 + e2| - 1;
      assert (e1 + e2)[..m] == e1 + e2[..n];
      assert (p1 + p2)[..m] == p1 + p2[..n];
      ResolveAppend(e1, p1, e2[..n], p2[..n], s);
    }
  }

  /** The first effect is applied first; the rest of the card acts on its result. */
  lemma FirstEffectFirst(e: string, p: int, effects: seq<string>, powers: seq<int>, s: Sides)
    requires |effects| == |powers|
    ensures Resolve([e] + effects, [p] + powers, s)
         == Resolve(effects, powers, ApplyEffect(ParseEffect(e), p, s))
  {
    ResolveAppend([e], [p], effects, powers, s);
    assert [e][..0] == [] && [p][..0] == [];
  }

  /** A card whose effect strings are all unrecognised leaves both combatants unchanged. */
  lemma {:induction false} UnknownEffectsChangeNothing(effects: seq<string>, powers: seq<int>, s: Sides)
    requires |effects| == |powers|
    requires forall i | 0 <= i < |effects| :: effects[i] !in KnownNames
    ensures Resolve(effects, powers, s) == s
    decreases |effects|
  {
    if effects != [] {
      var n := |effects| - 1;
      assert ParseEffect(effects[n]) == Unknown;
      UnknownEffectsChangeNothing(effects[..n], powers[..n], s);
    }
  }

  /** "Buff Damage" followed by "Damage" on one card: the damage uses the raised buff. */
  lemma BuffThenDamage(s: Sides)
    requires s.user.buffDamage == 0 && s.target.defense == 0
    ensures PlayCard(Card(["Buff Damage", "Damage"], [2, 3], 0), s).target.health
         == s.target.health - 5
  {
    var c := Card(["Buff Damage", "Damage"], [2, 3], 0);
    assert c.effects[..1] == ["Buff Damage"] && c.powers[..1] == [2];
    assert ["Buff Damage"][..0] == [] && [2][..0] == [];
  }

  /** Two "Debuff Damage" 5 effects from 0 drive the target's damage buff to -10. */
  lemma DebuffTwice(s: Sides)
    requires s.target.buffDamage == 0
    ensures PlayCard(Card(["Debuff Damage", "Debuff Damage"], [5, 5], 0), s).target.buffDamage == -10
  {
    var c := Card(["Debuff Damage", "Debuff Damage"], [5, 5], 0);
    assert c.effects[..1] == ["Debuff Damage"] && c.powers[..1] == [5];
    assert ["Debuff Damage"][..0] == [] && [5][..0] == [];
  }

  /** A negative power below the buff floors at zero: Damage -3 with damage buff 1 does nothing. */
  lemma NegativeDamageFloors(s: Sides)
    requires s.user.buffDamage == 1
    ensures ApplyEffect(Damage, -3, s) == s
  {
  }
}
