/**
 * The game's fixed data: places, fish species and their pools, the enemy
 * roster and the crafting recipes.
 */
module Catalog {
  import opened Wrappers

  datatype Location = Forest | Lake | NuclearPlant | Shack

  datatype FishCategory = Common | Rare | Epic | Legendary

  const AllCategories: set<FishCategory> := {Common, Rare, Epic, Legendary}

  /** Every species that can be caught. */
  datatype Species =
    | Catfish | SmallmouthBass | Crappie | Bluegill | Sunfish
    | LargemouthBass | Walleye | Gar | Pike | Turtle | MutantCatfish | BrookTrout
    | Sturgeon | Paddlefish | BrownTrout | Muskellunge
    | ZombieFish | MightyBluegill

  /** The category a species belongs to. */
  function CategoryOf(s: Species): FishCategory
  {
    match s
    case Catfish | SmallmouthBass | Crappie | Bluegill | Sunfish => Common
    case LargemouthBass | Walleye | Gar | Pike | Turtle | MutantCatfish | BrookTrout => Rare
    case Sturgeon | Paddlefish | BrownTrout | Muskellunge => Epic
    case ZombieFish | MightyBluegill => Legendary
  }

  /** The species pool of a category, in the order a uniform pick indexes it. */
  function FishPool(c: FishCategory): (pool: seq<Species>)
    ensures |pool| >= 2
    ensures forall i :: 0 <= i < |pool| ==> CategoryOf(pool[i]) == c
  {
    match c
    case Common => [Catfish, SmallmouthBass, Crappie, Bluegill, Sunfish]
    case Rare => [LargemouthBass, Walleye, Gar, Pike, Turtle, MutantCatfish, BrookTrout]
    case Epic => [Sturgeon, Paddlefish, BrownTrout, Muskellunge]
    case Legendary => [ZombieFish, MightyBluegill]
  }

  /** Every species can be caught: it sits in the pool of its own category. */
  lemma PoolsCoverSpecies(s: Species)
    ensures s in FishPool(CategoryOf(s))
  {
  }

  /** An enemy template; behaviour differs only by the two capability flags. */
  datatype Enemy = Enemy(
    name: string,
    hpMin: int, hpMax: int,
    dmgMin: int, dmgMax: int,
    rewardMin: int, rewardMax: int,
    dodgeTarget: int,
    fleeDc: int,
    isBuster: bool,
    isGrappler: bool)

  const Zombie := Enemy("Zombie", 5, 11, 1, 5, 1, 5, 60, 12, false, false)
  const Scrambler := Enemy("Scrambler", 4, 9, 2, 6, 1, 5, 80, 15, false, false)
  const Brute := Enemy("Brute", 13, 21, 5, 9, 1, 5, 45, 10, false, false)
  const Buster := Enemy("Buster", 2, 5, 6, 17, 1, 5, 90, 13, true, false)
  const Crawler := Enemy("Crawler", 4, 8, 2, 4, 1, 5, 60, 9, false, true)

  const Enemies: seq<Enemy> := [Zombie, Scrambler, Brute, Buster, Crawler]

  /** Every range of the template is non-empty, hit points start positive, damage and rewards are never negative. */
  predicate WellFormed(e: Enemy)
  {
    1 <= e.hpMin <= e.hpMax && 0 <= e.dmgMin <= e.dmgMax && 0 <= e.rewardMin <= e.rewardMax
  }

  lemma RosterWellFormed(i: int)
    requires 0 <= i < |Enemies|
    ensures WellFormed(Enemies[i])
    ensures Enemies[i].isBuster <==> Enemies[i] == Buster
    ensures Enemies[i].isGrappler <==> Enemies[i] == Crawler
  {
  }

  /** A crafting recipe: resource costs and either a weapon modifier or the boat. */
  datatype Recipe = Recipe(name: string, wood: int, stone: int, parts: int, weaponMod: Option<int>, isBoat: bool)

  const Recipes: seq<Recipe> := [
    Recipe("Knife", 2, 3, 0, Some(1), false),
    Recipe("Machete", 3, 7, 0, Some(2), false),
    Recipe("Pistol", 5, 10, 10, Some(4), false),
    Recipe("SMG", 10, 15, 15, Some(6), false),
    Recipe("Shotgun", 15, 20, 20, Some(7), false),
    Recipe("Boat", 75, 50, 20, None, true)
  ]

  /** A recipe from the table: costs are non-negative and a non-boat recipe carries a positive modifier. */
  predicate IsRecipe(r: Recipe)
  {
    r in Recipes
  }

  lemma RecipeShape(r: Recipe)
    requires IsRecipe(r)
    ensures r.wood >= 0 && r.stone >= 0 && r.parts >= 0
    ensures r.isBoat <==> r.weaponMod.None?
    ensures r.weaponMod.Some? ==> r.weaponMod.value >= 1
  {
  }
}
