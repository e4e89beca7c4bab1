/**
 * The player character: base stats and gear modifiers, survival meters,
 * resources and the fish bag, with the non-combat actions that update them.
 */
module Survivor {
  import opened Wrappers
  import opened Ints
  import opened Catalog
  import opened Outcomes

  /** How many fish of a category a bag holds. */
  function Tally(fish: seq<Species>, c: FishCategory): nat
  {
    if fish == [] then 0
    else Tally(fish[..|fish| - 1], c) + (if CategoryOf(fish[|fish| - 1]) == c then 1 else 0)
  }

  /** The four per-category tallies add up to the size of the bag. */
  lemma {:induction false} TallyTotal(fish: seq<Species>)
    ensures Tally(fish, Common) + Tally(fish, Rare) + Tally(fish, Epic) + Tally(fish, Legendary) == |fish|
  {
    if fish != [] {
      TallyTotal(fish[..|fish| - 1]);
    }
  }

  /** Appending one fish adds one to its own category's tally and nothing to the others. */
  lemma TallyAppend(fish: seq<Species>, s: Species, c: FishCategory)
    ensures Tally(fish + [s], c) == Tally(fish, c) + (if CategoryOf(s) == c then 1 else 0)
  {
    assert (fish + [s])[..|fish|] == fish;
  }

  /** A character-creation pick: each of eyes, hair and size grants one of these. */
  datatype Trait = LuckTrait | DamageTrait | HealthTrait

  /** The luck, base damage and max health a pick grants. */
  function LuckBonus(t: Trait): int { if t == LuckTrait then 2 else 0 }
  function DamageBonus(t: Trait): int { if t == DamageTrait then 1 else 0 }
  function HealthBonus(t: Trait): int { if t == HealthTrait then 2 else 0 }

  /** The per-category fish counts a bag should be summarised by. */
  function CountsOf(fish: seq<Species>): (counts: map<FishCategory, int>)
    ensures counts.Keys == AllCategories
  {
    map[Common := Tally(fish, Common), Rare := Tally(fish, Rare),
        Epic := Tally(fish, Epic), Legendary := Tally(fish, Legendary)]
  }

  /** Adding one fish to a bag adds one to its own category's count and leaves the rest. */
  lemma CountsFollowCatch(fish: seq<Species>, s: Species)
    ensures CountsOf(fish + [s]) == CountsOf(fish)[CategoryOf(s) := CountsOf(fish)[CategoryOf(s)] + 1]
  {
    TallyAppend(fish, s, Common);
    TallyAppend(fish, s, Rare);
    TallyAppend(fish, s, Epic);
    TallyAppend(fish, s, Legendary);
  }

  /** What a gathering trip collects. */
  datatype Resource = Wood | Stone | Machinery

  class Player {
    var maxHealth: int
    var health: int
    var hunger: int

    var baseLuck: int
    var rodLuck: int
    var baseDamage: int
    var weaponMod: int
    var dodge: int
    var dodgeMod: int

    var money: int
    var wood: int
    var stone: int
    var machineParts: int

    var fishingRod: string
    var weapon: string
    var armorItems: seq<string>
    var fishList: seq<Species>
    var fishCounts: map<FishCategory, int>

    var cookbook: bool
    var name: string
    var location: Location
    var hasBoat: bool

    /**
     * What every reachable state satisfies: base damage is floored at 1,
     * luck and gear modifiers only ever grow from zero, health never exceeds
     * its ceiling, resources and money are never negative, and the per-category
     * fish counts agree with the bag.
     */
    ghost predicate Valid()
      reads this
    {
      && baseDamage >= 1 && weaponMod >= 0
      && baseLuck >= 0 && rodLuck >= 0
      && health <= maxHealth
      && money >= 0 && wood >= 0 && stone >= 0 && machineParts >= 0
      && BagCounted()
    }

    /** The per-category fish counts agree with the bag. */
    ghost predicate BagCounted()
      reads this`fishList, this`fishCounts
    {
      fishCounts == CountsOf(fishList)
    }

    /** A fresh character before creation choices. */
    constructor ()
      ensures Valid()
      ensures maxHealth == 10 && health == 10 && hunger == 10
      ensures baseLuck == 0 && rodLuck == 0 && baseDamage == 1 && weaponMod == 0 && dodge == 0 && dodgeMod == 0
      ensures money == 10 && wood == 0 && stone == 0 && machineParts == 0
      ensures fishingRod == "Stick And String" && weapon == "Fists"
      ensures armorItems == [] && fishList == []
      ensures fishCounts == map[Common := 0, Rare := 0, Epic := 0, Legendary := 0]
      ensures !cookbook && name == "" && location == Forest && !hasBoat
    {
      maxHealth, health, hunger := 10, 10, 10;
      baseLuck, rodLuck, baseDamage, weaponMod, dodge, dodgeMod := 0, 0, 1, 0, 0, 0;
      money, wood, stone, machineParts := 10, 0, 0, 0;
      fishingRod, weapon := "Stick And String", "Fists";
      armorItems, fishList := [], [];
      fishCounts := map[Common := 0, Rare := 0, Epic := 0, Legendary := 0];
      cookbook, name, location, hasBoat := false, "", Forest, false;
    }

    function TotalLuck(): (l: int)
      reads this
      ensures Valid() ==> l >= 0
    {
      baseLuck + rodLuck
    }

    function TotalDamage(): (d: int)
      reads this
      ensures Valid() ==> d >= 1
    {
      baseDamage + weaponMod
    }

    function TotalDodge(): int
      reads this
    {
      dodge + dodgeMod
    }

    /** The sum of the per-category counts, which is always the number of fish in the bag. */
    function CatchTotal(): (n: int)
      reads this
      requires Valid()
      ensures n == |fishList|
    {
      TallyTotal(fishList);
      fishCounts[Common] + fishCounts[Rare] + fishCounts[Epic] + fishCounts[Legendary]
    }

    /** Start-of-turn upkeep: cap hunger at 10 and health at its ceiling, starve below zero. */
    method UpdateStats()
      requires Valid()
      modifies this`hunger, this`health
      ensures Valid()
      ensures old(hunger) < 0 ==> hunger == 0 && health == Min(old(health), maxHealth) - 1
      ensures old(hunger) >= 0 ==> hunger == Min(old(hunger), 10) && health == Min(old(health), maxHealth)
    {
      hunger := Min(hunger, 10);
      health := Min(health, maxHealth);
      if hunger < 0 {
        hunger := 0;
        health := health - 1;
      }
    }

    /** One creation pick. */
    method ApplyTrait(t: Trait)
      requires Valid()
      modifies this`baseLuck, this`baseDamage, this`maxHealth
      ensures Valid()
      ensures baseLuck == old(baseLuck) + LuckBonus(t)
      ensures baseDamage == old(baseDamage) + DamageBonus(t)
      ensures maxHealth == old(maxHealth) + HealthBonus(t)
    {
      if t == LuckTrait {
        baseLuck := baseLuck + 2;
      } else if t == DamageTrait {
        baseDamage := baseDamage + 1;
      } else if t == HealthTrait {
        maxHealth := maxHealth + 2;
      }
    }

    /** Character creation: three picks, a name, full health and a spawn location. */
    method CreateCharacter(eye: Trait, hair: Trait, size: Trait, heroName: string, spawn: Location)
      requires Valid()
      modifies this`baseLuck, this`baseDamage, this`maxHealth, this`health, this`name, this`location
      ensures Valid()
      ensures baseLuck == old(baseLuck) + LuckBonus(eye) + LuckBonus(hair) + LuckBonus(size)
      ensures baseDamage == old(baseDamage) + DamageBonus(eye) + DamageBonus(hair) + DamageBonus(size)
      ensures maxHealth == old(maxHealth) + HealthBonus(eye) + HealthBonus(hair) + HealthBonus(size)
      ensures health == maxHealth && name == heroName && location == spawn
    {
      ApplyTrait(eye);
      ApplyTrait(hair);
      ApplyTrait(size);
      name := heroName;
      health := maxHealth;
      location := spawn;
    }

    /** Gather 0..5 units of a resource at the cost of one hunger. */
    method Gather(resource: Resource, amount: int)
      requires Valid()
      requires 0 <= amount <= 5
      modifies this`wood, this`stone, this`machineParts, this`hunger
      ensures Valid()
      ensures wood == old(wood) + (if resource == Wood then amount else 0)
      ensures stone == old(stone) + (if resource == Stone then amount else 0)
      ensures machineParts == old(machineParts) + (if resource == Machinery then amount else 0)
      ensures hunger == old(hunger) - 1
    {
      if resource == Wood {
        wood := wood + amount;
      } else if resource == Stone {
        stone := stone + amount;
      } else if resource == Machinery {
        machineParts := machineParts + amount;
      }
      hunger := hunger - 1;
    }

    /**
     * A fishing trip: one hunger, then the luck-biased 0..100 draw picks a
     * category and `pick` a species from its pool.
     */
    method GoFishing(draw: int, pick: nat)
      requires Valid()
      requires 0 <= draw <= 100
      requires Catch(draw, TotalLuck()).Some? ==> pick < |FishPool(Catch(draw, TotalLuck()).value)|
      modifies this`hunger, this`fishList, this`fishCounts
      ensures Valid()
      ensures hunger == old(hunger) - 1
      ensures old(Catch(draw, TotalLuck())).None? ==> fishList == old(fishList) && fishCounts == old(fishCounts)
      ensures old(Catch(draw, TotalLuck())).Some? ==>
        var c := old(Catch(draw, TotalLuck())).value;
        && fishList == old(fishList) + [FishPool(c)[pick]]
        && fishCounts == old(fishCounts)[c := old(fishCounts)[c] + 1]
    {
      var luck := TotalLuck();
      var category := Catch(draw, luck);
      hunger := hunger - 1;
      if category.None? {
        return;
      }
      var c := category.value;
      var species := FishPool(c)[pick];
      assert CategoryOf(species) == c;
      KeepFish(species);
    }

    /** Puts a caught fish in the bag and counts it under its category. */
    method KeepFish(species: Species)
      requires Valid()
      modifies this`fishList, this`fishCounts
      ensures Valid()
      ensures fishList == old(fishList) + [species]
      ensures fishCounts == old(fishCounts)[CategoryOf(species) := old(fishCounts)[CategoryOf(species)] + 1]
    {
      var c := CategoryOf(species);
      CountsFollowCatch(fishList, species);
      fishList := fishList + [species];
      fishCounts := fishCounts[c := fishCounts[c] + 1];
    }

    /**
     * Foraging away from the Nuclear Plant: nothing at the Shack; elsewhere one
     * hunger, then the luck-biased -10..32 draw decides the find.
     */
    method Forage(draw: int, hpLoss: int)
      requires Valid()
      requires location != NuclearPlant
      requires -10 <= draw <= 32 && 1 <= hpLoss <= 3
      modifies this`hunger, this`health
      ensures Valid()
      ensures location == Shack ==> hunger == old(hunger) && health == old(health)
      ensures location != Shack ==>
        var find := ForageBand(draw + ForageBonus(TotalLuck()), cookbook);
        && hunger == old(hunger) - 1 + HungerGain(find)
        && health == old(health) - (if find == Poisoned then hpLoss else 0)
    {
      if location == Shack {
        return;
      }
      hunger := hunger - 1;
      var result := draw + ForageBonus(TotalLuck());
      var find := ForageBand(result, cookbook);
      if find == Poisoned {
        health := health - hpLoss;
      } else {
        hunger := hunger + HungerGain(find);
      }
    }

    /** Whether the resources cover a recipe. */
    predicate Affords(r: Recipe)
      reads this
    {
      wood >= r.wood && stone >= r.stone && machineParts >= r.parts
    }

    /** Crafting: pay the resources, then get the boat or equip the weapon; otherwise nothing changes. */
    method Craft(r: Recipe)
      requires Valid()
      requires IsRecipe(r)
      modifies this`wood, this`stone, this`machineParts, this`hasBoat, this`weapon, this`weaponMod
      ensures Valid()
      ensures !old(Affords(r)) ==>
        wood == old(wood) && stone == old(stone) && machineParts == old(machineParts)
        && hasBoat == old(hasBoat) && weapon == old(weapon) && weaponMod == old(weaponMod)
      ensures old(Affords(r)) ==>
        wood == old(wood) - r.wood && stone == old(stone) - r.stone && machineParts == old(machineParts) - r.parts
      ensures old(Affords(r)) && r.isBoat ==>
        hasBoat && weapon == old(weapon) && weaponMod == old(weaponMod)
      ensures old(Affords(r)) && !r.isBoat ==>
        hasBoat == old(hasBoat) && weapon == r.name && r.weaponMod == Some(weaponMod)
    {
      RecipeShape(r);
      if wood >= r.wood && stone >= r.stone && machineParts >= r.parts {
        wood := wood - r.wood;
        stone := stone - r.stone;
        machineParts := machineParts - r.parts;
        if r.isBoat {
          hasBoat := true;
        } else {
          weapon := r.name;
          weaponMod := r.weaponMod.value;
        }
      }
    }

    /** Travel: travelling to the current place is refused, so either way the player ends at `dest`. */
    method Travel(dest: Location)
      modifies this`location
      ensures location == dest
    {
      if dest == location {
      } else {
        location := dest;
      }
    }

    /** Watching birds in the Forest, event 1..4. */
    method WatchBirds(event: int)
      requires Valid()
      requires 1 <= event <= 4
      modifies this`health, this`baseDamage, this`baseLuck, this`hunger
      ensures Valid()
      ensures health == (if event == 1 then Min(old(health) + 1, maxHealth) else old(health))
      ensures baseDamage == (if event == 3 then Max(1, old(baseDamage) - 1) else old(baseDamage))
      ensures baseLuck == old(baseLuck) + (if event == 4 then 1 else 0)
      ensures hunger == old(hunger) - (if event == 4 then 1 else 0)
    {
      if event == 1 {
        health := Min(health + 1, maxHealth);
      } else if event == 2 {
      } else if event == 3 {
        baseDamage := Max(1, baseDamage - 1);
      } else if event == 4 {
        baseLuck := baseLuck + 1;
        hunger := hunger - 1;
      }
    }

    /** Listening to echoes at the Nuclear Plant, event 1..4. */
    method ListenToEchoes(event: int)
      requires Valid()
      requires 1 <= event <= 4
      modifies this`health, this`baseDamage, this`money
      ensures Valid()
      ensures health == (if event == 1 then Min(old(health) + 1, maxHealth) else old(health))
      ensures baseDamage == (if event == 3 then Max(1, old(baseDamage) - 1) else old(baseDamage))
      ensures money == old(money) + (if event == 4 then 1 else 0)
    {
      if event == 1 {
        health := Min(health + 1, maxHealth);
      } else if event == 2 {
      } else if event == 3 {
        baseDamage := Max(1, baseDamage - 1);
      } else if event == 4 {
        money := money + 1;
      }
    }
  }
}
