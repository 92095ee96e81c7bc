/**
 * Card assembly: one word-bank entry per slot (prefix 1, prefix 2, name,
 * suffix 1, suffix 2) is turned into a card whose effects and powers are the
 * slots' three columns concatenated in slot order and whose cost is the sum of
 * the slots' costs. Which entry is chosen for each slot is an input here.
 */
module Assembly {
  import opened Rules

  /** One row of a word bank: three effect strings, three powers and a cost. */
  datatype SlotEntry = SlotEntry(
    effect1: string, effect2: string, effect3: string,
    power1: int, power2: int, power3: int,
    cost: int)

  function SlotEffects(e: SlotEntry): seq<string>
  {
    [e.effect1, e.effect2, e.effect3]
  }

  function SlotPowers(e: SlotEntry): seq<int>
  {
    [e.power1, e.power2, e.power3]
  }

  /** The effect columns of the given slots, one after the other. */
  function AllEffects(slots: seq<SlotEntry>): seq<string>
  {
    if slots == [] then [] else SlotEffects(slots[0]) + AllEffects(slots[1..])
  }

  /** The power columns of the given slots, one after the other. */
  function AllPowers(slots: seq<SlotEntry>): seq<int>
  {
    if slots == [] then [] else SlotPowers(slots[0]) + AllPowers(slots[1..])
  }

  /** The sum of the slots' costs. */
  function TotalCost(slots: seq<SlotEntry>): int
  {
    if slots == [] then 0 else slots[0].cost + TotalCost(slots[1..])
  }

  /** Position 3*j+k of the concatenation holds column k of slot j, for effects
      and powers alike, so the two lists stay index-aligned. */
  lemma {:induction false} ColumnsAligned(slots: seq<SlotEntry>, j: nat, k: nat)
    requires j < |slots| && k < 3
    ensures |AllEffects(slots)| == |AllPowers(slots)| == 3 * |slots|
    ensures AllEffects(slots)[3 * j + k] == SlotEffects(slots[j])[k]
    ensures AllPowers(slots)[3 * j + k] == SlotPowers(slots[j])[k]
  {
    if j > 0 {
      ColumnsAligned(slots[1..], j - 1, k);
    } else if |slots| > 1 {
      ColumnsAligned(slots[1..], 0, 0);
    }
  }

  /** The concatenations over five slots, written out. */
  lemma FiveSlots(a: SlotEntry, b: SlotEntry, c: SlotEntry, d: SlotEntry, e: SlotEntry)
    ensures var slots := [a, b, c, d, e];
      && AllEffects(slots) == SlotEffects(a) + SlotEffects(b) + SlotEffects(c) + SlotEffects(d) + SlotEffects(e)
      && AllPowers(slots) == SlotPowers(a) + SlotPowers(b) + SlotPowers(c) + SlotPowers(d) + SlotPowers(e)
      && TotalCost(slots) == a.cost + b.cost + c.cost + d.cost + e.cost
  {
    var s1, s2, s3, s4 := [b, c, d, e], [c, d, e], [d, e], [e];
    assert [a, b, c, d, e][1..] == s1 && s1[1..] == s2 && s2[1..] == s3 && s3[1..] == s4;
    assert s4[1..] == [];
    assert AllEffects(s4) == SlotEffects(e) + AllEffects([]);
    assert AllPowers(s4) == SlotPowers(e) + AllPowers([]);
    assert TotalCost(s4) == e.cost + TotalCost([]);
    assert AllEffects(s4) == SlotEffects(e) && AllPowers(s4) == SlotPowers(e) && TotalCost(s4) == e.cost;
    assert AllEffects(s3) == SlotEffects(d) + AllEffects(s4);
    assert AllEffects(s2) == SlotEffects(c) + AllEffects(s3);
    assert AllEffects(s1) == SlotEffects(b) + AllEffects(s2);
    assert AllPowers(s3) == SlotPowers(d) + AllPowers(s4);
    assert AllPowers(s2) == SlotPowers(c) + AllPowers(s3);
    assert AllPowers(s1) == SlotPowers(b) + AllPowers(s2);
    assert TotalCost(s3) == d.cost + TotalCost(s4);
    assert TotalCost(s2) == c.cost + TotalCost(s3);
    assert TotalCost(s1) == b.cost + TotalCost(s2);
  }

  /** The card built from five slot entries, appending their columns one by one. */
  method MakeCard(prefix1: SlotEntry, prefix2: SlotEntry, name: SlotEntry,
                  suffix1: SlotEntry, suffix2: SlotEntry) returns (card: Card)
    ensures var slots := [prefix1, prefix2, name, suffix1, suffix2];
      && card.effects == AllEffects(slots)
      && card.powers == AllPowers(slots)
      && card.cost == TotalCost(slots)
    ensures WellFormed(card) && |card.effects| == 15
  {
    var effects: seq<string> := [];
    effects := effects + [prefix1.effect1];
    effects := effects + [prefix1.effect2];
    effects := effects + [prefix1.effect3];
    assert effects == SlotEffects(prefix1);
    effects := effects + [prefix2.effect1];
    effects := effects + [prefix2.effect2];
    effects := effects + [prefix2.effect3];
    assert effects == SlotEffects(prefix1) + SlotEffects(prefix2);
    effects := effects + [name.effect1];
    effects := effects + [name.effect2];
    effects := effects + [name.effect3];
    assert effects == SlotEffects(prefix1) + SlotEffects(prefix2) + SlotEffects(name);
    effects := effects + [suffix1.effect1];
    effects := effects + [suffix1.effect2];
    effects := effects + [suffix1.effect3];
    assert effects == SlotEffects(prefix1) + SlotEffects(prefix2) + SlotEffects(name) + SlotEffects(suffix1);
    effects := effects + [suffix2.effect1];
    effects := effects + [suffix2.effect2];
    effects := effects + [suffix2.effect3];
    assert effects == SlotEffects(prefix1) + SlotEffects(prefix2) + SlotEffects(name) + SlotEffects(suffix1) + SlotEffects(suffix2);

    var powers: seq<int> := [];
    powers := powers + [prefix1.power1];
    powers := powers + [prefix1.power2];
    powers := powers + [prefix1.power3];
    assert powers == SlotPowers(prefix1);
    powers := powers + [prefix2.power1];
    powers := powers + [prefix2.power2];
    powers := powers + [prefix2.power3];
    assert powers == SlotPowers(prefix1) + SlotPowers(prefix2);
    powers := powers + [name.power1];
    powers := powers + [name.power2];
    powers := powers + [name.power3];
    assert powers == SlotPowers(prefix1) + SlotPowers(prefix2) + SlotPowers(name);
    powers := powers + [suffix1.power1];
    powers := powers + [suffix1.power2];
    powers := powers + [suffix1.power3];
    assert powers == SlotPowers(prefix1) + SlotPowers(prefix2) + SlotPowers(name) + SlotPowers(suffix1);
    powers := powers + [suffix2.power1];
    powers := powers + [suffix2.power2];
    powers := powers + [suffix2.power3];
    assert powers == SlotPowers(prefix1) + SlotPowers(prefix2) + SlotPowers(name) + SlotPowers(suffix1) + SlotPowers(suffix2);

    var cost := prefix1.cost + prefix2.cost + name.cost + suffix1.cost + suffix2.cost;
    card := Card(effects, powers, cost);

    FiveSlots(prefix1, prefix2, name, suffix1, suffix2);
  }
}
