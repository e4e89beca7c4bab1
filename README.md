# Zombie Pro Fisher — rule layer in Dafny

A model of the game rules in `main.py` of Zombie Pro Fisher, a turn-based
survival game. The player forages, fishes, gathers, crafts, travels and
fights zombies. Every random draw of the game (`randint`, `choice`) is a
parameter here, and a `requires` clause gives its range. Nothing is random
in the model.

Modules:

- `Catalog` (catalog.dfy) holds the fixed data. It has the four locations,
  the fish species and their category pools, the enemy roster
  (`EnemyType`/`ENEMIES`) and the crafting recipes.
- `Outcomes` (outcomes.dfy) holds the luck bonuses `int(luck*1.5)`,
  `int(luck*1.8)` and `int(luck*2.5)`, the fishing and foraging band
  tables, and the encounter spawn check. Both band tables are also shown
  equal to one ordered-bounds table (`BandIndex`).
- `Survivor` (survivor.dfy) holds the `Player` class. It has the derived
  totals, the object invariant `Valid()`, start-of-turn upkeep and
  character creation. It also has gathering, fishing, foraging, the
  crafting transaction, travel, and the bird and echo events.
- `Combat` (combat.dfy) holds the combat rules as pure functions. A turn
  (`Turn`) is the player's action (`PlayerTurn`) followed by the enemy's
  attack (`EnemyTurn`). A fight (`Fight`) applies the turns of a finite
  script of moves. `Legal` says a script is one the game can produce:
  every draw is in range, and every action was on the menu offered that
  turn (this is what the input re-prompt of `choose` guarantees).
- `Encounter` (encounter.dfy) holds the imperative combat loop `RunCombat`
  and the encounter check `ZombieEncounter`. Both act on a `Player`
  object, and their postconditions tie the result and the new state to
  `Fight`.
- `Wrappers` and `Ints` (wrappers.dfy) hold `Option`, `min` and `max`.

The combat loop in the game need not terminate (Distract forever), so the
model plays a finite script. `RunCombat` returns `None` when the script
runs out while the fight is still going on.

`int(x)` on the float product truncates toward zero. The model takes it
as truncation toward zero of the exact quotient (`TruncDiv`). For integral
luck, `l*1.5` and `l*2.5` are exact in binary floating point. `1.8` is
stored slightly above 1.8, so `l*1.8` is never rounded below an integer it
reaches. `Valid()` keeps luck non-negative, because base luck only grows
and the rod modifier stays 0.

Behaviour of the code that a reader of the game's design might not expect,
modelled as written:

- Health is not kept in `[0, max_health]`. A lethal hit can leave it
  negative (main.py:341-344, `Combat.DeathCanOvershoot`). The upper bound
  does hold (`Combat.HealthStaysCapped`, `Survivor.Player.Valid`).
- Foraging results above 40 match no band. They restore nothing, unlike
  fishing, where overflow is legendary (main.py:516-518,
  `Outcomes.ForageOverflowFindsNothing`).
- A buster's "dead" branch at main.py:351 cannot be reached. A lethal hit
  has already returned at main.py:344 (`Combat.BusterRule`).
- The final `return` at main.py:358 is reached only when the loop body
  never runs. If health is already ≤ 0 on entry (starvation in
  `update_stats` just before the encounter), the result is "dead" at
  once. If the sampled hit points are ≤ 0, the result is "won" with no
  reward. No roster entry allows the second case (`Catalog.RosterWellFormed`).
- A reward is added only when it is positive (main.py:292). For the
  roster every reward is at least 1.

## Model

| member | source | states |
|---|---|---|
| `Catalog.FishPool` | main.py:40-54 | each category's pool holds only species of that category, at least two of them |
| `Catalog.PoolsCoverSpecies` | main.py:40-54 | every species lies in the pool of its own category, so each can be caught |
| `Catalog.RosterWellFormed` | main.py:244-265 | every roster entry has non-empty ranges, positive starting hit points and non-negative damage and rewards; the Buster is the only self-destructing enemy and the Crawler the only grappler |
| `Catalog.RecipeShape` | main.py:103-111 | recipe costs are non-negative; exactly the boat recipe has no weapon modifier, and every weapon modifier is at least 1 |
| `Outcomes.TruncDiv` | main.py:322 | the quotient truncated toward zero, as `int()` does with the exact product: for non-negative input the floor, for negative input minus the floor of the magnitude |
| `Outcomes.BonusMonotone` | main.py:322 | more luck never gives a smaller flee, foraging or fishing bonus |
| `Outcomes.BandIndex` | main.py:524-534 | the band a roll falls in under an ordered list of lower bounds never exceeds the number of bounds |
| `Outcomes.BandIndexLocates` | main.py:524-534 | in an ascending bound table, the band index is the unique band whose lower bound the roll reaches and whose next bound it does not |
| `Outcomes.BandIndexMonotone` | main.py:524-534 | a higher roll never falls in a lower band |
| `Outcomes.FishBand` | main.py:524-534 | no catch exactly at or below 40, and legendary exactly at 96 or above, overflow included |
| `Outcomes.FishBandMatchesTable` | main.py:524-534 | the fishing classification is the ordered table with lower bounds 41, 71, 86 and 96 for common < rare < epic < legendary |
| `Outcomes.FishBandMonotone` | main.py:524-534 | a higher fishing roll never lands a lower category |
| `Outcomes.LuckNeverHurtsFishing` | main.py:520-534 | for the same 0..100 draw, more luck never lands a lower category |
| `Outcomes.ForageBand` | main.py:501-518 | nothing exactly at or below 0; poison exactly on 1..10, or 1..5 with the cookbook; no band at all exactly above 40 |
| `Outcomes.ForageBandMatchesTable` | main.py:501-518 | the foraging classification is the ordered table with lower bounds 1, 11 (6 with the cookbook), 21, 26, 31 and 41 |
| `Outcomes.CookbookOnlyShrinksPoison` | main.py:503-509 | the cookbook changes a result exactly on 6..10, turning poison into nuts and berries |
| `Outcomes.ForageGainMonotone` | main.py:507-518 | up to 40, outside the poison band, a higher result never restores less hunger |
| `Outcomes.ForageOverflowFindsNothing` | main.py:516-518 | a result above 40 restores no hunger, while 40 restores 5 |
| `Outcomes.Spawns` | main.py:410-417 | an encounter starts exactly away from the Shack with a 0..10 draw of at least 8, or at least 6 at the Nuclear Plant |
| `Survivor.TallyTotal` | main.py:162-163 | the four per-category fish tallies add up to the number of fish in the bag |
| `Survivor.TallyAppend` | main.py:538-539 | appending a fish adds one to its own category's tally and nothing to the others |
| `Survivor.CountsOf` | main.py:162-163 | the count map of a bag has exactly the four categories as keys |
| `Survivor.CountsFollowCatch` | main.py:538-539 | the count map of a bag with one more fish is the old count map with one added under that fish's category |
| `Survivor.Player.constructor` | main.py:117-170 | the starting character: 10 health, hunger and money, base damage 1, no luck, no gear, empty bag, all counts 0, in the Forest |
| `Survivor.Player.TotalLuck` | main.py:172-174 | total luck is never negative in a valid state |
| `Survivor.Player.TotalDamage` | main.py:176-178 | total damage is at least 1 in a valid state |
| `Survivor.Player.CatchTotal` | main.py:162-163 | the sum of the per-category fish counts equals the number of fish in the bag |
| `Survivor.Player.UpdateStats` | main.py:232-238 | caps hunger at 10 and health at max health; negative hunger becomes 0 at the cost of 1 health; keeps `Valid()` |
| `Survivor.Player.ApplyTrait` | main.py:373-375 | one creation pick: +2 luck, +1 base damage or +2 max health |
| `Survivor.Player.CreateCharacter` | main.py:363-404 | three picks add their bonuses; the name is set, health is reset to max health, and the player spawns at the drawn location |
| `Survivor.Player.Gather` | main.py:541-550 | adds the 0..5 amount to the named resource only, and costs 1 hunger |
| `Survivor.Player.GoFishing` | main.py:520-539 | costs 1 hunger; a catch appends one species from the drawn category's pool and raises only that category's count; otherwise the bag is unchanged; keeps the counts equal to the bag |
| `Survivor.Player.KeepFish` | main.py:538-539 | appends the fish to the bag, adds one to its category's count only, and keeps the counts equal to the bag |
| `Survivor.Player.Forage` | main.py:494-518 | at the Shack nothing changes; elsewhere 1 hunger, then the find's hunger gain, or a loss of 1..3 health on poison |
| `Survivor.Player.Craft` | main.py:697-709 | with enough wood, stone and machine parts, pays them and gives the boat or equips the weapon with its modifier; otherwise nothing changes |
| `Survivor.Player.Travel` | main.py:788-793 | the player ends at the chosen location; choosing the current one changes nothing |
| `Survivor.Player.WatchBirds` | main.py:825-838 | event 1 heals 1 up to the maximum; event 3 lowers base damage but not below 1; event 4 gives +1 luck for 1 hunger |
| `Survivor.Player.ListenToEchoes` | main.py:843-855 | event 1 heals 1 up to the maximum; event 3 lowers base damage but not below 1; event 4 gives +1 money |
| `Combat.Offered` | main.py:278-283 | Attack, Distract and Use Gauze are always on the menu; Reposition and Flee exactly when not grappled |
| `Combat.RemoveFirst` | main.py:313 | removing one item takes exactly one copy of it out of the list |
| `Combat.WinRule` | main.py:286-297 | only an attack changes enemy hit points, by the 0..4 draw plus total damage; the turn is won exactly when that reaches 0 or below; the reward is added when positive, lies in the enemy's range, and nothing else changes |
| `Combat.FleeRule` | main.py:299-327 | the player escapes exactly when free and the 0..20 draw plus `int(luck*1.5)` reaches the flee DC; a grappled Reposition or Flee does nothing |
| `Combat.GauzeRule` | main.py:309-316 | Gauze heals 1..3 up to max health and uses up exactly one Gauze; without Gauze nothing changes |
| `Combat.HitRule` | main.py:329-344 | the bonus is +20 exactly after a free reposition; a hit lands exactly when the 0..100 draw plus dodge plus bonus misses the target, and subtracts the damage draw; the turn is Dead exactly when that leaves health at 0 or below |
| `Combat.GrappleRule` | main.py:334-347 | after a surviving turn, a grappler leaves the player grappled exactly when its attack landed; the grapple is set only by an undodged grappler hit and cleared only by a dodged grappler attack; other enemies never change it |
| `Combat.BusterRule` | main.py:349-354 | a buster's turn always ends the fight; unless the attack won, it is Dead exactly on a lethal landed hit, and Escaped otherwise |
| `Combat.BusterFightIsOneTurn` | main.py:342-356 | a fight against a buster never reaches a second turn |
| `Combat.DeadIffNoHealth` | main.py:275-358 | a fight ends Dead exactly when it ends with health at 0 or below |
| `Combat.TurnKeepsCap` | main.py:309-344 | with draws from the enemy's ranges, one turn never lifts health above max health |
| `Combat.HealthStaysCapped` | main.py:309-344 | health never rises above max health during a fight |
| `Combat.MoneyOnlyFromReward` | main.py:290-297 | money changes only when the fight is won, and then by a reward from the enemy's range |
| `Combat.NonGrapplerNeverGrapples` | main.py:334-347 | a fight against a non-grappler never grapples the player |
| `Combat.DeathCanOvershoot` | main.py:339-344 | a lethal hit can leave health below zero |
| `Encounter.RunCombat` | main.py:267-358 | the loop's result, health, money and items are exactly those of `Fight` for the script; keeps `Valid()` |
| `Encounter.PlayTurn` | main.py:277-356 | one pass of the loop body computes exactly `Turn`: the new enemy hit points, grapple, health, money and items, and whether the fight ended; the reposition bonus lives only for that pass, as the reset at main.py:356 makes it |
| `Encounter.PlayerAction` | main.py:285-327 | the player's half of a turn computes exactly `PlayerTurn` |
| `Encounter.EnemyAttack` | main.py:329-354 | the enemy's half of a turn computes exactly `EnemyTurn` |
| `Encounter.ZombieEncounter` | main.py:410-424 | no spawn leaves the player unchanged and reports no death; a spawn fights the picked roster entry and reports death exactly when the fight ends Dead |

## Left out

- Terminal I/O: screen clearing, `slow_print`, the colour library, sleeps and every narration string. Some messages state different numbers than the effects; only the effects are modelled.
- `choose` re-prompting on invalid input is not modelled as a loop. It appears only as the guarantee that the chosen action is on the offered menu (`Combat.Legal`).
- The random module. Each draw is a parameter with its range as a precondition.
- The printing methods `statscore`, `stats`, `inventory` and `almanac`.
- Weapon, rod, armor and food purchases and fish selling in `shop`. Their listing loops unpack 4- and 5-field tuples into fewer names, which raises an uncaught error, so these branches never run. The sell total is also float arithmetic.
- The shop's crafting menu (parsing the entry into a recipe index). `Craft` takes the chosen recipe directly.
- The attribute points (grit, muscle, nature, brains, charm), the class flags, xp and the turn counter. No modelled logic reads them.
- The main-loop menu dispatch, the survival-duration messages and sailing away with the boat. This is menu glue; travel and the bird and echo events are modelled.
- Survivor.Player.Forage: the Nuclear Plant branch (main.py:429-492: one hunger, then the stranger dialogue) is not modelled, so the method requires another location.
- Encounter.RunCombat: a fight is played from a finite script, so an endless fight (Distract forever) appears only as a `None` result once the script runs out.
- Survivor.Player.Gather: the source compares the resource name as a string and only the three names used by callers are modelled; any other string would only cost hunger.
