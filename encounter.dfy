/**
 * The combat loop and the encounter check run against a Player object:
 * the loop updates the enemy's hit points, the grapple and the one-turn
 * reposition bonus, and the player's health, money and items in place.
 */
module Encounter {
  import opened Wrappers
  import opened Ints
  import opened Catalog
  import opened Outcomes
  import opened Survivor
  import opened Combat

  /** The player's totals as the combat rules read them. */
  function StatsOf(p: Player): Stats
    reads p
  {
    Stats(p.TotalDamage(), p.TotalDodge(), p.TotalLuck(), p.maxHealth)
  }

  /** The round a fight starts in: the sampled enemy hit points, not grappled. */
  function OpeningRound(p: Player, hp: int): Round
    reads p
  {
    Round(hp, false, p.health, p.money, p.armorItems)
  }

  /** The result a fight has reached, if it is over. */
  function Outcome(st: Step): Option<Result>
  {
    if st.Over? then Some(st.result) else None
  }

  /**
   * One fight against `e` whose hit points were sampled as `hpRoll`, played
   * with the moves of `script`; None when the script ran out while the fight
   * was still going on.
   */
  method RunCombat(p: Player, e: Enemy, hpRoll: int, script: seq<Move>) returns (outcome: Option<Result>)
    requires p.Valid() && WellFormed(e)
    requires e.hpMin <= hpRoll <= e.hpMax
    requires Legal(e, StatsOf(p), OpeningRound(p, hpRoll), script)
    modifies p`health, p`money, p`armorItems
    ensures p.Valid()
    ensures var f := Fight(e, old(StatsOf(p)), old(OpeningRound(p, hpRoll)), script);
      && outcome == Outcome(f)
      && p.health == f.round.health && p.money == f.round.money && p.armorItems == f.round.items
  {
    ghost var s := StatsOf(p);
    ghost var whole := Fight(e, s, OpeningRound(p, hpRoll), script);
    var zombieHp := hpRoll;
    var grappled := false;
    var i := 0;
    while zombieHp > 0 && p.health > 0 && i < |script|
      invariant 0 <= i <= |script|
      invariant p.Valid() && StatsOf(p) == s
      invariant whole == Fight(e, s, Round(zombieHp, grappled, p.health, p.money, p.armorItems), script[i..])
      invariant Legal(e, s, Round(zombieHp, grappled, p.health, p.money, p.armorItems), script[i..])
      decreases |script| - i
    {
      ghost var cur := Round(zombieHp, grappled, p.health, p.money, p.armorItems);
      assert script[i..][0] == script[i] && script[i..][1..] == script[i + 1..];
      FightUnfold(e, s, cur, script[i..]);
      var ended: Option<Result>;
      zombieHp, grappled, ended := PlayTurn(p, e, script[i], zombieHp, grappled);
      if ended.Some? {
        return ended;
      }
      i := i + 1;
    }
    if zombieHp > 0 && p.health > 0 {
      return None;
    }
    return Some(if p.health <= 0 then Dead else Won);
  }

  /**
   * One pass of the combat loop: the player's action, then the enemy's
   * attack.  The reposition bonus lives only within the turn, so it is clear
   * again when the next turn starts.
   */
  method PlayTurn(p: Player, e: Enemy, m: Move, hp: int, grappled: bool)
    returns (hpAfter: int, grappledAfter: bool, ended: Option<Result>)
    requires p.Valid() && WellFormed(e) && RollsFit(e, m.rolls)
    modifies p`health, p`money, p`armorItems
    ensures p.Valid()
    ensures var t := Turn(e, old(StatsOf(p)), Round(hp, grappled, old(p.health), old(p.money), old(p.armorItems)), m);
      var after := Round(hpAfter, grappledAfter, p.health, p.money, p.armorItems);
      if ended.Some? then t == Over(ended.value, after) else t == Continue(after)
  {
    var combatDodge: bool;
    hpAfter, combatDodge, ended := PlayerAction(p, e, m, hp, grappled);
    grappledAfter := grappled;
    if ended.Some? {
      return;
    }
    grappledAfter, ended := EnemyAttack(p, e, m, hpAfter, grappled, combatDodge);
  }

  /** The player's half of a turn: the chosen action's effect, or the end of the fight. */
  method PlayerAction(p: Player, e: Enemy, m: Move, hp: int, grappled: bool)
    returns (hpAfter: int, braced: bool, ended: Option<Result>)
    requires p.Valid() && RollsFit(e, m.rolls)
    modifies p`health, p`money, p`armorItems
    ensures p.Valid()
    ensures var act := PlayerTurn(e, old(StatsOf(p)), Round(hp, grappled, old(p.health), old(p.money), old(p.armorItems)), m);
      var after := Round(hpAfter, grappled, p.health, p.money, p.armorItems);
      if ended.Some? then act == Ended(ended.value, after) else act == Acted(after, braced)
  {
    hpAfter, braced, ended := hp, false, None;
    if m.action == Attack {
      var dmg := m.rolls.attack + p.TotalDamage();
      hpAfter := hp - dmg;
      if hpAfter <= 0 {
        var reward := m.rolls.reward;
        if reward > 0 {
          p.money := p.money + reward;
        }
        ended := Some(Won);
      }
    } else if m.action == Reposition {
      if !grappled {
        braced := true;
      }
    } else if m.action == Distract {
    } else if m.action == UseGauze {
      if Gauze in p.armorItems {
        p.health := Min(p.health + m.rolls.heal, p.maxHealth);
        p.armorItems := RemoveFirst(p.armorItems, Gauze);
      }
    } else {
      if !grappled {
        var escape := m.rolls.escape + FleeBonus(p.TotalLuck());
        if escape >= e.fleeDc {
          ended := Some(Escaped);
        }
      }
    }
  }

  /** The enemy's half of a turn: its attack, the grapple, and a buster's self-destruct. */
  method EnemyAttack(p: Player, e: Enemy, m: Move, hp: int, grappled: bool, braced: bool)
    returns (grappledAfter: bool, ended: Option<Result>)
    requires p.Valid() && WellFormed(e) && RollsFit(e, m.rolls)
    modifies p`health
    ensures p.Valid()
    ensures var st := EnemyTurn(e, old(StatsOf(p)), Round(hp, grappled, old(p.health), p.money, p.armorItems), m.rolls, braced);
      var after := Round(hp, grappledAfter, p.health, p.money, p.armorItems);
      if ended.Some? then st == Over(ended.value, after) else st == Continue(after)
  {
    grappledAfter, ended := grappled, None;
    var zDmg := m.rolls.damage;
    var dodgeRoll := m.rolls.dodge + p.TotalDodge() + (if braced then 20 else 0);
    if dodgeRoll >= e.dodgeTarget {
      if e.isGrappler && grappled {
        grappledAfter := false;
      }
    } else {
      p.health := p.health - zDmg;
      if p.health <= 0 {
        return grappledAfter, Some(Dead);
      }
      if e.isGrappler {
        grappledAfter := true;
      }
    }
    if e.isBuster {
      if p.health > 0 {
        ended := Some(Escaped);
      }
    }
  }

  /**
   * The per-turn encounter check: no encounter at the Shack, else the 0..10
   * draw decides, and an encounter fights the roster entry `pick`.  Some(true)
   * when the player died, None when the script ran out mid-fight.
   */
  method ZombieEncounter(p: Player, spawnDraw: int, pick: int, hpRoll: int, script: seq<Move>) returns (died: Option<bool>)
    requires p.Valid()
    requires 0 <= spawnDraw <= 10 && 0 <= pick < |Enemies|
    requires Enemies[pick].hpMin <= hpRoll <= Enemies[pick].hpMax
    requires Spawns(p.location, spawnDraw) ==> Legal(Enemies[pick], StatsOf(p), OpeningRound(p, hpRoll), script)
    modifies p`health, p`money, p`armorItems
    ensures p.Valid()
    ensures !Spawns(p.location, spawnDraw) ==>
      died == Some(false) && p.health == old(p.health) && p.money == old(p.money) && p.armorItems == old(p.armorItems)
    ensures Spawns(p.location, spawnDraw) ==>
      var f := Fight(Enemies[pick], old(StatsOf(p)), old(OpeningRound(p, hpRoll)), script);
      && died == (if f.Over? then Some(f.result == Dead) else None)
      && p.health == f.round.health && p.money == f.round.money && p.armorItems == f.round.items
  {
    if p.location == Shack {
      return Some(false);
    }
    if !Spawns(p.location, spawnDraw) {
      return Some(false);
    }
    var enemy := Enemies[pick];
    RosterWellFormed(pick);
    var result := RunCombat(p, enemy, hpRoll, script);
    if result == None {
      return None;
    }
    return Some(result == Some(Dead));
  }
}
