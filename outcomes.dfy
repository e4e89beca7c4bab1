/**
 * Outcome tables: a bounded roll, biased by luck, is classified into ordered
 * bands.  Covers the luck bonus, the fishing and foraging tables and the
 * encounter spawn check.
 */
module Outcomes {
  import opened Wrappers
  import opened Catalog

  /**
   * Integer division truncating toward zero, as Python's `int()` does to the
   * exact quotient a / d (Dafny's own `/` rounds toward minus infinity).
   */
  function TruncDiv(a: int, d: int): (q: int)
    requires d > 0
    ensures a >= 0 ==> 0 <= q && 0 <= a - q * d < d
    ensures a < 0 ==> q <= 0 && 0 <= q * d - a < d
  {
    if a >= 0 then
      FloorDivBounds(a, d);
      a / d
    else
      FloorDivBounds(-a, d);
      NegMul((-a) / d, d);
      -((-a) / d)
  }

  lemma FloorDivBounds(n: nat, d: int)
    requires d > 0
    ensures 0 <= n / d && 0 <= n - (n / d) * d < d
  {
    assert n == d * (n / d) + n % d;
  }

  lemma NegMul(k: int, d: int)
    ensures (-k) * d == -(k * d)
  {
  }

  /** `int(total_luck * 1.5)`, the flee bonus. */
  function FleeBonus(luck: int): int
  {
    TruncDiv(3 * luck, 2)
  }

  /** `int(total_luck * 1.8)`, the foraging bonus. */
  function ForageBonus(luck: int): int
  {
    TruncDiv(9 * luck, 5)
  }

  /** `int(total_luck * 2.5)`, the fishing bonus. */
  function FishBonus(luck: int): int
  {
    TruncDiv(5 * luck, 2)
  }

  /** More luck never gives a smaller bonus, in any of the three tables. */
  lemma BonusMonotone(l1: int, l2: int)
    requires l1 <= l2
    ensures FleeBonus(l1) <= FleeBonus(l2)
    ensures ForageBonus(l1) <= ForageBonus(l2)
    ensures FishBonus(l1) <= FishBonus(l2)
  {
  }

  /** Sorted lower bounds of an ordered band table. */
  ghost predicate Ascending(bounds: seq<int>)
  {
    forall i, j :: 0 <= i < j < |bounds| ==> bounds[i] < bounds[j]
  }

  /**
   * The band a roll falls in, given the ascending lower bounds of every band
   * above the lowest: the number of bounds the roll reaches.
   */
  function BandIndex(bounds: seq<int>, roll: int): (k: nat)
    ensures k <= |bounds|
  {
    if bounds == [] then 0
    else (if bounds[0] <= roll then 1 else 0) + BandIndex(bounds[1..], roll)
  }

  /** In an ascending table, BandIndex is the unique band whose bounds enclose the roll. */
  lemma {:induction false} BandIndexLocates(bounds: seq<int>, roll: int)
    requires Ascending(bounds)
    ensures var k := BandIndex(bounds, roll);
      (k == 0 || bounds[k - 1] <= roll) && (k == |bounds| || roll < bounds[k])
  {
    if bounds != [] {
      BandIndexLocates(bounds[1..], roll);
    }
  }

  // ---------------------------------------------------------------- fishing

  /** The catch a final fishing roll gives: nothing at or below 40, overflow is legendary. */
  function FishBand(roll: int): (c: Option<FishCategory>)
    ensures c == None <==> roll <= 40
    ensures c == Some(Legendary) <==> roll >= 96
  {
    if roll <= 40 then None
    else if 41 <= roll <= 70 then Some(Common)
    else if 71 <= roll <= 85 then Some(Rare)
    else if 86 <= roll <= 95 then Some(Epic)
    else Some(Legendary)
  }

  /** The position of a catch in the order nothing < common < rare < epic < legendary. */
  function CatchRank(c: Option<FishCategory>): nat
  {
    match c
    case None => 0
    case Some(Common) => 1
    case Some(Rare) => 2
    case Some(Epic) => 3
    case Some(Legendary) => 4
  }

  const FishBounds: seq<int> := [41, 71, 86, 96]

  /** The fishing classification is the ordered band table with lower bounds 41, 71, 86 and 96. */
  lemma FishBandMatchesTable(roll: int)
    ensures CatchRank(FishBand(roll)) == BandIndex(FishBounds, roll)
  {
    BandIndexLocates(FishBounds, roll);
  }

  /** A higher roll never catches a lower category. */
  lemma FishBandMonotone(r1: int, r2: int)
    requires r1 <= r2
    ensures CatchRank(FishBand(r1)) <= CatchRank(FishBand(r2))
  {
    FishBandMatchesTable(r1);
    FishBandMatchesTable(r2);
    BandIndexMonotone(FishBounds, r1, r2);
  }

  lemma {:induction false} BandIndexMonotone(bounds: seq<int>, r1: int, r2: int)
    requires r1 <= r2
    ensures BandIndex(bounds, r1) <= BandIndex(bounds, r2)
  {
    if bounds != [] {
      BandIndexMonotone(bounds[1..], r1, r2);
    }
  }

  /** The category a fishing trip lands, from the 0..100 draw and the player's total luck. */
  function Catch(draw: int, luck: int): Option<FishCategory>
  {
    FishBand(draw + FishBonus(luck))
  }

  /** Luck never makes a fishing trip worse. */
  lemma LuckNeverHurtsFishing(draw: int, l1: int, l2: int)
    requires l1 <= l2
    ensures CatchRank(Catch(draw, l1)) <= CatchRank(Catch(draw, l2))
  {
    BonusMonotone(l1, l2);
    FishBandMonotone(draw + FishBonus(l1), draw + FishBonus(l2));
  }

  // --------------------------------------------------------------- foraging

  /** What a normal foraging trip turns up. NoMatch is a result above every band. */
  datatype Find = FoundNothing | Poisoned | NutsAndBerries | OddFind | CannedFood | Feast | NoMatch

  /** The foraging classification; the cookbook narrows the poison band to 1..5. */
  function ForageBand(result: int, cookbook: bool): (f: Find)
    ensures f == FoundNothing <==> result <= 0
    ensures f == Poisoned <==> 1 <= result <= (if cookbook then 5 else 10)
    ensures f == NoMatch <==> result > 40
  {
    if result <= 0 then FoundNothing
    else if (1 <= result <= 10 && !cookbook) || (0 <= result <= 5 && cookbook) then Poisoned
    else if (11 <= result <= 20 && !cookbook) || (6 <= result <= 20 && cookbook) then NutsAndBerries
    else if 21 <= result <= 25 then OddFind
    else if 26 <= result <= 30 then CannedFood
    else if 31 <= result <= 40 then Feast
    else NoMatch
  }

  /** Hunger a find restores. */
  function HungerGain(f: Find): nat
  {
    match f
    case NutsAndBerries => 2
    case OddFind => 3
    case CannedFood => 4
    case Feast => 5
    case _ => 0
  }

  /** The lower bounds of the foraging bands above "nothing". */
  function ForageBounds(cookbook: bool): seq<int>
  {
    if cookbook then [1, 6, 21, 26, 31, 41] else [1, 11, 21, 26, 31, 41]
  }

  const ForageKinds: seq<Find> := [FoundNothing, Poisoned, NutsAndBerries, OddFind, CannedFood, Feast, NoMatch]

  /** The foraging classification is the ordered band table ForageBounds. */
  lemma ForageBandMatchesTable(result: int, cookbook: bool)
    ensures ForageBand(result, cookbook) == ForageKinds[BandIndex(ForageBounds(cookbook), result)]
  {
    var bounds := ForageBounds(cookbook);
    assert Ascending(bounds);
    BandIndexLocates(bounds, result);
    if cookbook {
      assert bounds == [1, 6, 21, 26, 31, 41];
    } else {
      assert bounds == [1, 11, 21, 26, 31, 41];
    }
  }

  /** The cookbook changes a result only on 6..10, from poison to nuts and berries. */
  lemma CookbookOnlyShrinksPoison(result: int)
    ensures ForageBand(result, true) != ForageBand(result, false) <==> 6 <= result <= 10
    ensures 6 <= result <= 10 ==>
      ForageBand(result, false) == Poisoned && ForageBand(result, true) == NutsAndBerries
  {
  }

  /** Up to 40 a higher result never restores less hunger once past the poison band. */
  lemma ForageGainMonotone(r1: int, r2: int, cookbook: bool)
    requires r1 <= r2 <= 40
    requires ForageBand(r1, cookbook) != Poisoned && ForageBand(r2, cookbook) != Poisoned
    ensures HungerGain(ForageBand(r1, cookbook)) <= HungerGain(ForageBand(r2, cookbook))
  {
  }

  /** Unlike fishing, overflow is not the best band: a result above 40 restores nothing. */
  lemma ForageOverflowFindsNothing(result: int, cookbook: bool)
    requires result > 40
    ensures HungerGain(ForageBand(result, cookbook)) == 0
    ensures HungerGain(ForageBand(40, cookbook)) == 5
  {
  }

  // -------------------------------------------------------------- encounters

  /**
   * Whether a 0..10 draw starts an encounter: never at the Shack, from 8 up
   * elsewhere, from 6 up at the Nuclear Plant.
   */
  function Spawns(loc: Location, draw: int): (risky: bool)
    ensures risky <==> loc != Shack && draw >= (if loc == NuclearPlant then 6 else 8)
  {
    if loc == Shack then false
    else (draw >= 8 && loc != Shack) || (draw >= 6 && loc == NuclearPlant)
  }
}
