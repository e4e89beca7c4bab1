/**
 * The combat rules as a state machine: one turn is the player's action
 * followed by the enemy's attack; a fight is the turns of a finite script of
 * moves until the enemy or the player drops, the player escapes, or the
 * script runs out.
 */
module Combat {
  import opened Ints
  import opened Catalog
  import opened Outcomes

  datatype Action = Attack | Reposition | Distract | UseGauze | Flee

  datatype Result = Won | Dead | Escaped

  const Gauze := "Gauze"

  /** The menu of a turn: Reposition and Flee only while not grappled. */
  function Offered(grappled: bool): (menu: set<Action>)
    ensures Attack in menu && Distract in menu && UseGauze in menu
    ensures Reposition in menu <==> !grappled
    ensures Flee in menu <==> !grappled
  {
    if grappled then {Attack, Distract, UseGauze}
    else {Attack, Reposition, Distract, UseGauze, Flee}
  }

  /** The player's totals, fixed for the whole fight. */
  datatype Stats = Stats(damage: int, dodge: int, luck: int, maxHealth: int)

  /** The live state between turns: enemy hit points, the grapple, and the player's health, money and items. */
  datatype Round = Round(enemyHp: int, grappled: bool, health: int, money: int, items: seq<string>)

  /** Every draw a turn may use; a turn reads only those its branch needs. */
  datatype Rolls = Rolls(attack: int, reward: int, heal: int, escape: int, damage: int, dodge: int)

  datatype Move = Move(action: Action, rolls: Rolls)

  /** Each draw lies in the range the game draws it from. */
  predicate RollsFit(e: Enemy, r: Rolls)
  {
    && 0 <= r.attack <= 4
    && e.rewardMin <= r.reward <= e.rewardMax
    && 1 <= r.heal <= 3
    && 0 <= r.escape <= 20
    && e.dmgMin <= r.damage <= e.dmgMax
    && 0 <= r.dodge <= 100
  }

  /** A list with its first occurrence of `x` removed, as Python's `list.remove`. */
  function RemoveFirst(items: seq<string>, x: string): (rest: seq<string>)
    requires x in items
    ensures |rest| == |items| - 1
    ensures multiset(rest) == multiset(items) - multiset{x}
  {
    assert items == [items[0]] + items[1..];
    if items[0] == x then items[1..]
    else [items[0]] + RemoveFirst(items[1..], x)
  }

  /** The outcome of the player's action: the fight ends, or it goes on (with `braced` for a reposition). */
  datatype Act = Ended(result: Result, round: Round) | Acted(round: Round, braced: bool)

  function PlayerTurn(e: Enemy, s: Stats, r: Round, m: Move): Act
  {
    match m.action
    case Attack =>
      var hp := r.enemyHp - (m.rolls.attack + s.damage);
      if hp <= 0 then
        Ended(Won, r.(enemyHp := hp, money := if m.rolls.reward > 0 then r.money + m.rolls.reward else r.money))
      else
        Acted(r.(enemyHp := hp), false)
    case Reposition =>
      Acted(r, !r.grappled)
    case Distract =>
      Acted(r, false)
    case UseGauze =>
      if Gauze in r.items then
        Acted(r.(health := Min(r.health + m.rolls.heal, s.maxHealth), items := RemoveFirst(r.items, Gauze)), false)
      else
        Acted(r, false)
    case Flee =>
      if !r.grappled && m.rolls.escape + FleeBonus(s.luck) >= e.fleeDc then Ended(Escaped, r)
      else Acted(r, false)
  }

  /** Whether the enemy's attack misses: the 0..100 draw plus dodge, +20 when braced, reaches the target. */
  predicate Dodged(e: Enemy, s: Stats, rolls: Rolls, braced: bool)
  {
    rolls.dodge + s.dodge + (if braced then 20 else 0) >= e.dodgeTarget
  }

  /** A turn either leaves the fight going on in a new round, or ends it. */
  datatype Step = Continue(round: Round) | Over(result: Result, round: Round)

  function EnemyTurn(e: Enemy, s: Stats, r: Round, rolls: Rolls, braced: bool): Step
  {
    var next :=
      if Dodged(e, s, rolls, braced) then
        Continue(if e.isGrappler && r.grappled then r.(grappled := false) else r)
      else if r.health - rolls.damage <= 0 then
        Over(Dead, r.(health := r.health - rolls.damage))
      else
        Continue(r.(health := r.health - rolls.damage, grappled := if e.isGrappler then true else r.grappled));
    if next.Continue? && e.isBuster && next.round.health > 0 then Over(Escaped, next.round)
    else next
  }

  function Turn(e: Enemy, s: Stats, r: Round, m: Move): Step
  {
    match PlayerTurn(e, s, r, m)
    case Ended(result, after) => Over(result, after)
    case Acted(after, braced) => EnemyTurn(e, s, after, m.rolls, braced)
  }

  /** Whether the loop's guard `enemy hp > 0 and health > 0` still holds. */
  predicate Live(r: Round)
  {
    r.enemyHp > 0 && r.health > 0
  }

  /** The fight from round `r` with the moves of `script`. */
  function Fight(e: Enemy, s: Stats, r: Round, script: seq<Move>): Step
    decreases |script|
  {
    if !Live(r) then Over(if r.health <= 0 then Dead else Won, r)
    else if script == [] then Continue(r)
    else
      match Turn(e, s, r, script[0])
      case Over(result, last) => Over(result, last)
      case Continue(next) => Fight(e, s, next, script[1..])
  }

  /** The script is one the game can produce: each move's draws are in range and its action was on the menu. */
  predicate Legal(e: Enemy, s: Stats, r: Round, script: seq<Move>)
    decreases |script|
  {
    !Live(r) || script == [] ||
    (&& RollsFit(e, script[0].rolls)
     && script[0].action in Offered(r.grappled)
     && match Turn(e, s, r, script[0])
        case Over(_, _) => true
        case Continue(next) => Legal(e, s, next, script[1..]))
  }

  /** One turn of a live fight: its result, and what a legal script promises of its first move. */
  lemma FightUnfold(e: Enemy, s: Stats, r: Round, script: seq<Move>)
    requires Live(r) && script != []
    ensures var t := Turn(e, s, r, script[0]);
      Fight(e, s, r, script) == if t.Over? then t else Fight(e, s, t.round, script[1..])
    ensures Legal(e, s, r, script) ==>
      && RollsFit(e, script[0].rolls)
      && script[0].action in Offered(r.grappled)
      && (Turn(e, s, r, script[0]).Continue? ==> Legal(e, s, Turn(e, s, r, script[0]).round, script[1..]))
  {
  }

  // ------------------------------------------------------------ one turn

  /** Whether the player's action braces for the coming attack: a reposition while free. */
  predicate Braced(r: Round, m: Move)
  {
    m.action == Reposition && !r.grappled
  }

  /**
   * Only an attack changes the enemy's hit points, by the 0..4 draw plus the
   * player's damage; the fight is won exactly when that takes them to zero or
   * below, and the win adds the (positive) reward to the money and changes
   * nothing else.
   */
  lemma WinRule(e: Enemy, s: Stats, r: Round, m: Move)
    ensures Turn(e, s, r, m).round.enemyHp == r.enemyHp - (if m.action == Attack then m.rolls.attack + s.damage else 0)
    ensures Turn(e, s, r, m).Over? && Turn(e, s, r, m).result == Won
      <==> m.action == Attack && r.enemyHp - (m.rolls.attack + s.damage) <= 0
    ensures m.action == Attack && r.enemyHp - (m.rolls.attack + s.damage) <= 0 ==>
      var f := Turn(e, s, r, m).round;
      && f.health == r.health && f.items == r.items && f.grappled == r.grappled
      && f.money == r.money + Max(0, m.rolls.reward)
    ensures (m.action == Attack && r.enemyHp - (m.rolls.attack + s.damage) <= 0
             && RollsFit(e, m.rolls) && WellFormed(e)) ==>
      e.rewardMin <= Turn(e, s, r, m).round.money - r.money <= e.rewardMax
  {
  }

  /** Flee escapes exactly when free and the 0..20 draw plus the flee bonus reaches the flee DC. */
  lemma FleeRule(e: Enemy, s: Stats, r: Round, m: Move)
    ensures PlayerTurn(e, s, r, m).Ended? && PlayerTurn(e, s, r, m).result == Escaped
      <==> m.action == Flee && !r.grappled && m.rolls.escape + FleeBonus(s.luck) >= e.fleeDc
    ensures r.grappled && (m.action == Flee || m.action == Reposition) ==>
      PlayerTurn(e, s, r, m) == Acted(r, false)
  {
  }

  /**
   * Gauze heals 1..3 capped at the maximum and uses up exactly one Gauze;
   * without Gauze nothing changes.
   */
  lemma GauzeRule(e: Enemy, s: Stats, r: Round, m: Move)
    requires m.action == UseGauze
    ensures PlayerTurn(e, s, r, m).Acted? && !PlayerTurn(e, s, r, m).braced
    ensures var a := PlayerTurn(e, s, r, m).round;
      if Gauze in r.items then
        && a.health == Min(r.health + m.rolls.heal, s.maxHealth)
        && multiset(a.items) == multiset(r.items) - multiset{Gauze}
        && a.enemyHp == r.enemyHp && a.money == r.money && a.grappled == r.grappled
      else a == r
  {
  }

  /**
   * After the player acts, the enemy's hit lands exactly when the dodge fails;
   * it subtracts the damage draw, and the fight ends Dead exactly when that
   * takes health to zero or below.
   */
  lemma HitRule(e: Enemy, s: Stats, r: Round, m: Move)
    requires PlayerTurn(e, s, r, m).Acted?
    ensures PlayerTurn(e, s, r, m).braced == Braced(r, m)
    ensures var a := PlayerTurn(e, s, r, m).round;
      var t := Turn(e, s, r, m);
      && t.round.health == (if Dodged(e, s, m.rolls, Braced(r, m)) then a.health else a.health - m.rolls.damage)
      && (t.Over? && t.result == Dead <==> !Dodged(e, s, m.rolls, Braced(r, m)) && a.health - m.rolls.damage <= 0)
      && t.round.money == a.money && t.round.items == a.items && t.round.enemyHp == a.enemyHp
  {
  }

  /**
   * Across a turn the fight survives, a grappler leaves the player grappled
   * exactly when its attack landed; other enemies never change the grapple.
   */
  lemma GrappleRule(e: Enemy, s: Stats, r: Round, m: Move)
    requires Turn(e, s, r, m).Continue?
    ensures var n := Turn(e, s, r, m).round;
      && (!e.isGrappler ==> n.grappled == r.grappled)
      && (e.isGrappler ==> (n.grappled <==> !Dodged(e, s, m.rolls, Braced(r, m))))
      && (!r.grappled && n.grappled ==> e.isGrappler && !Dodged(e, s, m.rolls, Braced(r, m)))
      && (r.grappled && !n.grappled ==> e.isGrappler && Dodged(e, s, m.rolls, Braced(r, m)))
  {
  }

  /**
   * A buster ends the fight in the turn it attacks: the player wins with the
   * attack, dies from a lethal hit, or otherwise escapes.  The branch where a
   * buster's turn leaves health at zero or below without a Dead result cannot
   * be reached, since a lethal hit already ended the fight.
   */
  lemma BusterRule(e: Enemy, s: Stats, r: Round, m: Move)
    requires e.isBuster && 0 < r.health <= s.maxHealth && RollsFit(e, m.rolls)
    ensures Turn(e, s, r, m).Over?
    ensures var t := Turn(e, s, r, m);
      t.result != Won ==>
        (t.result == Dead <==>
          && PlayerTurn(e, s, r, m).Acted?
          && !Dodged(e, s, m.rolls, Braced(r, m))
          && PlayerTurn(e, s, r, m).round.health - m.rolls.damage <= 0)
  {
    match m.action
    case UseGauze =>
      GauzeRule(e, s, r, m);
    case _ =>
  }

  // ------------------------------------------------------------ whole fights

  /** Against a buster, the whole fight is its first turn. */
  lemma BusterFightIsOneTurn(e: Enemy, s: Stats, r: Round, script: seq<Move>)
    requires e.isBuster && Live(r) && r.health <= s.maxHealth && script != [] && RollsFit(e, script[0].rolls)
    ensures Fight(e, s, r, script) == Turn(e, s, r, script[0])
  {
    BusterRule(e, s, r, script[0]);
  }

  /** A fight ends Dead exactly when it ends with health at zero or below. */
  lemma {:induction false} DeadIffNoHealth(e: Enemy, s: Stats, r: Round, script: seq<Move>)
    ensures Fight(e, s, r, script).Over? ==>
      (Fight(e, s, r, script).result == Dead <==> Fight(e, s, r, script).round.health <= 0)
    decreases |script|
  {
    if Live(r) && script != [] {
      var t := Turn(e, s, r, script[0]);
      if PlayerTurn(e, s, r, script[0]).Acted? {
        HitRule(e, s, r, script[0]);
      }
      if t.Continue? {
        DeadIffNoHealth(e, s, t.round, script[1..]);
      }
    }
  }

  /** Health never rises above its ceiling during a fight. */
  lemma {:induction false} HealthStaysCapped(e: Enemy, s: Stats, r: Round, script: seq<Move>)
    requires WellFormed(e) && Legal(e, s, r, script) && r.health <= s.maxHealth
    ensures Fight(e, s, r, script).round.health <= s.maxHealth
    decreases |script|
  {
    if Live(r) && script != [] {
      FightUnfold(e, s, r, script);
      TurnKeepsCap(e, s, r, script[0]);
      var t := Turn(e, s, r, script[0]);
      if t.Continue? {
        HealthStaysCapped(e, s, t.round, script[1..]);
      }
    }
  }

  /** One turn with draws from the enemy's ranges never lifts health above its ceiling. */
  lemma TurnKeepsCap(e: Enemy, s: Stats, r: Round, m: Move)
    requires WellFormed(e) && RollsFit(e, m.rolls) && r.health <= s.maxHealth
    ensures Turn(e, s, r, m).round.health <= s.maxHealth
  {
    if m.action == UseGauze {
      GauzeRule(e, s, r, m);
    }
    if PlayerTurn(e, s, r, m).Acted? {
      HitRule(e, s, r, m);
    }
  }

  /** Money changes only when the fight is won, and then by a reward from the enemy's range. */
  lemma {:induction false} MoneyOnlyFromReward(e: Enemy, s: Stats, r: Round, script: seq<Move>)
    requires WellFormed(e) && Legal(e, s, r, script)
    ensures var f := Fight(e, s, r, script);
      && (!(f.Over? && f.result == Won) ==> f.round.money == r.money)
      && (f.Over? && f.result == Won ==>
            f.round.money == r.money || e.rewardMin <= f.round.money - r.money <= e.rewardMax)
    decreases |script|
  {
    if Live(r) && script != [] {
      var m := script[0];
      var t := Turn(e, s, r, m);
      WinRule(e, s, r, m);
      if PlayerTurn(e, s, r, m).Acted? {
        HitRule(e, s, r, m);
        if m.action == UseGauze {
          GauzeRule(e, s, r, m);
        }
      }
      if t.Continue? {
        MoneyOnlyFromReward(e, s, t.round, script[1..]);
      }
    }
  }

  /** A fight against a non-grappler that starts free never grapples the player. */
  lemma {:induction false} NonGrapplerNeverGrapples(e: Enemy, s: Stats, r: Round, script: seq<Move>)
    requires !e.isGrappler && !r.grappled
    ensures !Fight(e, s, r, script).round.grappled
    decreases |script|
  {
    if Live(r) && script != [] {
      var t := Turn(e, s, r, script[0]);
      if t.Continue? {
        GrappleRule(e, s, r, script[0]);
        NonGrapplerNeverGrapples(e, s, t.round, script[1..]);
      }
    }
  }

  /** Health is not floored at zero: a lethal hit can leave it negative. */
  lemma DeathCanOvershoot()
    ensures Fight(Zombie, Stats(1, 0, 0, 10), Round(5, false, 1, 10, []),
                  [Move(Distract, Rolls(0, 1, 1, 0, 5, 0))])
            == Over(Dead, Round(5, false, -4, 10, []))
  {
  }
}
