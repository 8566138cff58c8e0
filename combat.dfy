/**
 * The combat component: stat and tuning arithmetic (pure) and one encounter's
 * state changes (a class). Dice results are parameters: a `d`-sided roll is an
 * integer in [1, d], which is all `Math.floor(Math.random() * d) + 1` promises.
 * Timers are replaced by calling the delayed step as a separate method.
 */
module Combat {
  import opened Prelude

  const BaseHp := 20
  const HpPerLevel := 5
  const AttackCost := 10
  const PlayerAttackBonus := 5
  const EnemyDifficultyClass := 15
  const EnergyCap := 120
  const RefocusGain := 18
  const LowEnergyNotice := "에너지가 부족합니다. 재정비가 필요합니다."
  const RefocusNotice := "숨을 고르고 힘을 비축했습니다."

  /** The result passed to `onEnd`. */
  datatype Outcome = Victory | Defeat
  {
    function Label(): string
    {
      match this
      case Victory => "승리"
      case Defeat => "패배"
    }
  }

  /** A call of one of the component's callbacks, recorded in the order it happened. */
  datatype Callback = OnVictory | OnEnd(result: Outcome)

  /** A roll of one `sides`-sided die. */
  predicate IsRoll(roll: int, sides: int)
  {
    1 <= roll <= sides
  }

  // ---------------------------------------------------------------------------
  // Tuning and stats

  datatype Tuning = Tuning(ac: int, atk: int, dmg: int)

  /** `difficulty[dangerLevel || "medium"] || difficulty.medium` */
  function TierTuning(dangerLevel: string): (t: Tuning)
    ensures t in {Tuning(12, 3, 6), Tuning(13, 5, 8), Tuning(14, 7, 10)}
    ensures dangerLevel != "low" && dangerLevel != "high" ==> t == Tuning(13, 5, 8)
  {
    match dangerLevel
    case "low" => Tuning(12, 3, 6)
    case "high" => Tuning(14, 7, 10)
    case _ => Tuning(13, 5, 8)
  }

  /** Enemy HP at the start of an encounter. */
  function EnemyMaxHp(enemyLevel: int): (hp: int)
    ensures enemyLevel >= 0 ==> hp >= BaseHp
  {
    BaseHp + enemyLevel * HpPerLevel
  }

  /** A level-0 enemy has the base HP, and each level adds the same amount. */
  lemma EnemyMaxHpPerLevel(enemyLevel: int)
    ensures EnemyMaxHp(0) == BaseHp
    ensures EnemyMaxHp(enemyLevel + 1) == EnemyMaxHp(enemyLevel) + HpPerLevel
  {
  }

  /** `tuning.ac + Math.floor(enemyLevel / 2)` */
  function EnemyAC(dangerLevel: string, enemyLevel: int): (ac: int)
    ensures var bonus := ac - TierTuning(dangerLevel).ac; 2 * bonus <= enemyLevel < 2 * bonus + 2
  {
    TierTuning(dangerLevel).ac + enemyLevel / 2
  }

  /** `tuning.atk + Math.floor(enemyLevel / 2)`: the level adds to the attack bonus exactly what it adds to AC. */
  function EnemyAttackBonus(dangerLevel: string, enemyLevel: int): (atk: int)
    ensures atk - TierTuning(dangerLevel).atk == EnemyAC(dangerLevel, enemyLevel) - TierTuning(dangerLevel).ac
  {
    TierTuning(dangerLevel).atk + enemyLevel / 2
  }

  /** The enemy's damage die does not scale with level. */
  function EnemyDamageDie(dangerLevel: string): (die: int)
    ensures die >= 6
  {
    TierTuning(dangerLevel).dmg
  }

  /** `10 + playerLevel * factor + (buffStats[key] || 0)` */
  function AbilityScore(playerLevel: int, factor: int, buffStats: map<string, int>, key: string): (score: int)
    ensures key !in buffStats ==> score == 10 + playerLevel * factor
    ensures key in buffStats ==> score == 10 + playerLevel * factor + buffStats[key]
  {
    10 + playerLevel * factor + Lookup(buffStats, key)
  }

  function Strength(playerLevel: int, buffStats: map<string, int>): int
  {
    AbilityScore(playerLevel, 2, buffStats, "strength")
  }

  function Dexterity(playerLevel: int, buffStats: map<string, int>): int
  {
    AbilityScore(playerLevel, 1, buffStats, "dexterity")
  }

  function Constitution(playerLevel: int, buffStats: map<string, int>): int
  {
    AbilityScore(playerLevel, 3, buffStats, "constitution")
  }

  /** Each player level adds 2 strength, 1 dexterity and 3 constitution; without buffs the scores start at 10. */
  lemma AbilityScoresPerLevel(playerLevel: int, buffStats: map<string, int>)
    ensures Strength(playerLevel + 1, buffStats) == Strength(playerLevel, buffStats) + 2
    ensures Dexterity(playerLevel + 1, buffStats) == Dexterity(playerLevel, buffStats) + 1
    ensures Constitution(playerLevel + 1, buffStats) == Constitution(playerLevel, buffStats) + 3
    ensures Strength(0, map[]) == 10 && Dexterity(0, map[]) == 10 && Constitution(0, map[]) == 10
  {
  }

  /** `Math.floor((strength - 10) / 2)`, also for a negative buff. */
  function StrMod(playerLevel: int, buffStats: map<string, int>): (m: int)
    ensures 2 * m <= Strength(playerLevel, buffStats) - 10 < 2 * m + 2
  {
    (Strength(playerLevel, buffStats) - 10) / 2
  }

  /** `Math.floor((constitution - 10) / 4)`, also for a negative buff. */
  function ConMod(playerLevel: int, buffStats: map<string, int>): (m: int)
    ensures 4 * m <= Constitution(playerLevel, buffStats) - 10 < 4 * m + 4
  {
    (Constitution(playerLevel, buffStats) - 10) / 4
  }

  /** `Math.max(1, rollDice(8) + strMod)`: at least one point, otherwise the roll plus the modifier. */
  function PlayerDamage(d8: int, strMod: int): (dmg: int)
    ensures dmg >= 1
    ensures dmg == d8 + strMod || (dmg == 1 && d8 + strMod < 1)
  {
    Max(1, d8 + strMod)
  }

  /** `Math.max(1, rollDice(enemyDmgDie) - conMod)`: constitution never lowers damage below one. */
  function EnemyDamage(roll: int, conMod: int): (dmg: int)
    ensures dmg >= 1
    ensures dmg == roll - conMod || (dmg == 1 && roll - conMod < 1)
  {
    Max(1, roll - conMod)
  }

  /** Each tier is at least as dangerous as the one below it, and an unknown or
      empty tier is tuned as medium. */
  lemma TierTableOrdered(unknown: string)
    requires unknown != "low" && unknown != "medium" && unknown != "high"
    ensures TierTuning("low") == Tuning(12, 3, 6)
    ensures TierTuning("medium") == Tuning(13, 5, 8)
    ensures TierTuning("high") == Tuning(14, 7, 10)
    ensures TierTuning(unknown) == TierTuning("medium") && TierTuning("") == TierTuning("medium")
    ensures TierTuning("low").ac <= TierTuning("medium").ac <= TierTuning("high").ac
    ensures TierTuning("low").atk <= TierTuning("medium").atk <= TierTuning("high").atk
    ensures TierTuning("low").dmg <= TierTuning("medium").dmg <= TierTuning("high").dmg
  {
  }

  /** For any level and any buffs, both damage formulas deal at least one point. */
  lemma DamageAtLeastOne(playerLevel: int, buffStats: map<string, int>, d8: int, enemyRoll: int)
    ensures PlayerDamage(d8, StrMod(playerLevel, buffStats)) >= 1
    ensures EnemyDamage(enemyRoll, ConMod(playerLevel, buffStats)) >= 1
  {
  }

  /** The level-scaling of AC and attack bonus is `floor(enemyLevel / 2)`; two
      levels always add exactly one point to each. */
  lemma LevelScaling(dangerLevel: string, enemyLevel: int)
    ensures EnemyAC(dangerLevel, enemyLevel + 2) == EnemyAC(dangerLevel, enemyLevel) + 1
    ensures EnemyAttackBonus(dangerLevel, enemyLevel + 2) == EnemyAttackBonus(dangerLevel, enemyLevel) + 1
    ensures EnemyDamageDie(dangerLevel) == TierTuning(dangerLevel).dmg
  {
    var a := EnemyAC(dangerLevel, enemyLevel);
    var b := EnemyAC(dangerLevel, enemyLevel + 2);
    assert 2 * (b - 1 - TierTuning(dangerLevel).ac) <= enemyLevel < 2 * (b - 1 - TierTuning(dangerLevel).ac) + 2;
  }

  // ---------------------------------------------------------------------------
  // One encounter

  datatype AttackResult = OutOfEnergy | Missed | Hit(damage: int)

  datatype DefenseResult = Dodged | Wounded(damage: int)

  /**
   * One mounted combat component. `playerHp` and `energy` are the parent's
   * values as the component sees them; the component writes them through the
   * parent's setters. `fired` records the `onVictory` / `onEnd` calls.
   */
  class Encounter {
    const playerLevel: int
    const buffStats: map<string, int>
    const dangerLevel: string
    var enemyLevel: int
    var playerHp: int
    var energy: int
    var enemyHp: int
    var isRolling: bool
    var notice: string
    var fired: seq<Callback>

    constructor (playerHp: int, energy: int, enemyLevel: int, playerLevel: int,
                 buffStats: map<string, int>, dangerLevel: string)
      ensures this.playerHp == playerHp && this.energy == energy
      ensures this.enemyLevel == enemyLevel && this.playerLevel == playerLevel
      ensures this.buffStats == buffStats && this.dangerLevel == dangerLevel
      ensures enemyHp == EnemyMaxHp(enemyLevel)
      ensures !isRolling && notice == "" && fired == []
    {
      this.playerHp := playerHp;
      this.energy := energy;
      this.enemyLevel := enemyLevel;
      this.playerLevel := playerLevel;
      this.buffStats := buffStats;
      this.dangerLevel := dangerLevel;
      enemyHp := EnemyMaxHp(enemyLevel);
      isRolling := false;
      notice := "";
      fired := [];
    }

    function AC(): int
      reads this
    {
      EnemyAC(dangerLevel, enemyLevel)
    }

    function AttackBonus(): int
      reads this
    {
      EnemyAttackBonus(dangerLevel, enemyLevel)
    }

    function DamageDie(): int
      reads this
    {
      EnemyDamageDie(dangerLevel)
    }

    /** The effect on `enemyLevel`: a new level discards the old enemy HP. */
    method ChangeEnemyLevel(level: int)
      modifies this
      ensures enemyLevel == level
      ensures enemyHp == if level != old(enemyLevel) then EnemyMaxHp(level) else old(enemyHp)
      ensures playerHp == old(playerHp) && energy == old(energy) && isRolling == old(isRolling)
      ensures notice == old(notice) && fired == old(fired)
    {
      if level != enemyLevel {
        enemyLevel := level;
        enemyHp := EnemyMaxHp(level);
      }
    }

    /** `playerAttack`: spend energy, roll to hit, deal damage, report a kill. */
    method PlayerAttack(d20: int, d8: int) returns (result: AttackResult)
      requires IsRoll(d20, 20) && IsRoll(d8, 8)
      modifies this
      ensures old(energy) < AttackCost ==>
        result == OutOfEnergy && notice == LowEnergyNotice && energy == old(energy)
      ensures old(energy) >= AttackCost ==>
        notice == old(notice) && energy == Max(0, old(energy) - AttackCost)
      ensures result.Hit? <==> old(energy) >= AttackCost && d20 + PlayerAttackBonus >= AC()
      ensures result.Hit? ==>
        && result.damage == PlayerDamage(d8, StrMod(playerLevel, buffStats))
        && enemyHp == old(enemyHp) - result.damage
        && fired == old(fired) + (if enemyHp <= 0 then [OnVictory, OnEnd(Victory)] else [])
      ensures !result.Hit? ==> enemyHp == old(enemyHp) && fired == old(fired)
      ensures playerHp == old(playerHp) && isRolling == old(isRolling) && enemyLevel == old(enemyLevel)
    {
      if energy < AttackCost {
        notice := LowEnergyNotice;
        return OutOfEnergy;
      }
      energy := Max(0, energy - AttackCost);
      var total := d20 + PlayerAttackBonus;
      if total >= EnemyAC(dangerLevel, enemyLevel) {
        var dmg := PlayerDamage(d8, StrMod(playerLevel, buffStats));
        var newHp := enemyHp - dmg;
        enemyHp := newHp;
        if newHp <= 0 {
          fired := fired + [OnVictory];
          fired := fired + [OnEnd(Victory)];
        }
        result := Hit(dmg);
      } else {
        result := Missed;
      }
    }

    /** `enemyAttack`: roll against the fixed class 15, wound the player, report a defeat. */
    method EnemyAttack(d20: int, roll: int) returns (result: DefenseResult)
      requires IsRoll(d20, 20) && IsRoll(roll, DamageDie())
      modifies this
      ensures result.Wounded? <==> d20 + AttackBonus() >= EnemyDifficultyClass
      ensures result.Wounded? ==>
        && result.damage == EnemyDamage(roll, ConMod(playerLevel, buffStats))
        && playerHp == old(playerHp) - result.damage
        && fired == old(fired) + (if playerHp <= 0 then [OnEnd(Defeat)] else [])
      ensures result.Dodged? ==> playerHp == old(playerHp) && fired == old(fired)
      ensures enemyHp == old(enemyHp) && energy == old(energy) && isRolling == old(isRolling)
      ensures notice == old(notice) && enemyLevel == old(enemyLevel)
    {
      var total := d20 + EnemyAttackBonus(dangerLevel, enemyLevel);
      if total >= EnemyDifficultyClass {
        var dmg := EnemyDamage(roll, ConMod(playerLevel, buffStats));
        var newHp := playerHp - dmg;
        playerHp := newHp;
        if newHp <= 0 {
          fired := fired + [OnEnd(Defeat)];
        }
        result := Wounded(dmg);
      } else {
        result := Dodged;
      }
    }

    /** `handleAttackClick` up to its first timer: take the rolling lock unless it is held. */
    method ClickAttack() returns (started: bool)
      modifies this
      ensures started == !old(isRolling)
      ensures isRolling
      ensures playerHp == old(playerHp) && enemyHp == old(enemyHp) && energy == old(energy)
      ensures notice == old(notice) && fired == old(fired) && enemyLevel == old(enemyLevel)
    {
      if isRolling {
        return false;
      }
      isRolling := true;
      started := true;
    }

    /** The first timer of an attack click: resolve the attack and release the lock. */
    method ResolveAttack(d20: int, d8: int) returns (result: AttackResult)
      requires IsRoll(d20, 20) && IsRoll(d8, 8)
      modifies this
      ensures old(energy) < AttackCost ==>
        result == OutOfEnergy && notice == LowEnergyNotice && energy == old(energy)
      ensures old(energy) >= AttackCost ==>
        notice == old(notice) && energy == Max(0, old(energy) - AttackCost)
      ensures result.Hit? <==> old(energy) >= AttackCost && d20 + PlayerAttackBonus >= AC()
      ensures result.Hit? ==>
        && result.damage == PlayerDamage(d8, StrMod(playerLevel, buffStats))
        && enemyHp == old(enemyHp) - result.damage
        && fired == old(fired) + (if enemyHp <= 0 then [OnVictory, OnEnd(Victory)] else [])
      ensures !result.Hit? ==> enemyHp == old(enemyHp) && fired == old(fired)
      ensures playerHp == old(playerHp) && !isRolling && enemyLevel == old(enemyLevel)
    {
      result := PlayerAttack(d20, d8);
      isRolling := false;
    }

    /**
     * The enemy's delayed counter-turn. The guard reads the HP values the
     * scheduling closure captured, which are passed in: the enemy attacks only
     * when both were positive.
     */
    method CounterAttack(guardEnemyHp: int, guardPlayerHp: int, d20: int, roll: int)
      returns (result: Option<DefenseResult>)
      requires IsRoll(d20, 20) && IsRoll(roll, DamageDie())
      modifies this
      ensures result.Some? <==> guardEnemyHp > 0 && guardPlayerHp > 0
      ensures result.Some? && result.value.Wounded? ==>
        && d20 + AttackBonus() >= EnemyDifficultyClass
        && result.value.damage == EnemyDamage(roll, ConMod(playerLevel, buffStats))
        && playerHp == old(playerHp) - result.value.damage
        && fired == old(fired) + (if playerHp <= 0 then [OnEnd(Defeat)] else [])
      ensures (result.None? || result.value.Dodged?) ==> playerHp == old(playerHp) && fired == old(fired)
      ensures result.Some? && result.value.Dodged? ==> d20 + AttackBonus() < EnemyDifficultyClass
      ensures enemyHp == old(enemyHp) && energy == old(energy) && isRolling == old(isRolling)
      ensures notice == old(notice) && enemyLevel == old(enemyLevel)
    {
      if guardEnemyHp > 0 && guardPlayerHp > 0 {
        var r := EnemyAttack(d20, roll);
        result := Some(r);
      } else {
        result := None;
      }
    }

    /** `handleRefocus` up to its timer: recover energy unless the rolling lock is held. */
    method Refocus() returns (started: bool)
      modifies this
      ensures started == !old(isRolling)
      ensures started ==> energy == Min(EnergyCap, old(energy) + RefocusGain) && notice == RefocusNotice
      ensures !started ==> energy == old(energy) && notice == old(notice)
      ensures old(energy) <= EnergyCap ==> old(energy) <= energy <= EnergyCap
      ensures playerHp == old(playerHp) && enemyHp == old(enemyHp) && isRolling == old(isRolling)
      ensures fired == old(fired) && enemyLevel == old(enemyLevel)
    {
      if isRolling {
        return false;
      }
      energy := Min(EnergyCap, energy + RefocusGain);
      notice := RefocusNotice;
      started := true;
    }

    /**
     * A whole attack click as its timers run it: lock, resolve, release, then the
     * enemy's counter-turn guarded by the HP values captured when the button was
     * clicked, before the attack's damage.
     */
    method AttackRound(d20: int, d8: int, enemyD20: int, enemyRoll: int)
      returns (attack: Option<AttackResult>, counter: Option<DefenseResult>)
      requires IsRoll(d20, 20) && IsRoll(d8, 8) && IsRoll(enemyD20, 20) && IsRoll(enemyRoll, DamageDie())
      modifies this
      ensures old(isRolling) ==> attack.None? && counter.None?
      ensures old(isRolling) ==>
        && playerHp == old(playerHp) && enemyHp == old(enemyHp) && energy == old(energy)
        && notice == old(notice) && fired == old(fired) && isRolling
      ensures !old(isRolling) ==> attack.Some? && !isRolling
      ensures !old(isRolling) ==>
        energy == (if old(energy) >= AttackCost then Max(0, old(energy) - AttackCost) else old(energy))
      ensures !old(isRolling) ==> notice == (if old(energy) < AttackCost then LowEnergyNotice else old(notice))
      ensures attack.Some? ==>
        (attack.value.Hit? <==> old(energy) >= AttackCost && d20 + PlayerAttackBonus >= AC())
      ensures counter.Some? <==> !old(isRolling) && old(enemyHp) > 0 && old(playerHp) > 0
      ensures counter.Some? && counter.value.Wounded? ==> playerHp == old(playerHp) - counter.value.damage
      ensures (counter.None? || counter.value.Dodged?) ==> playerHp == old(playerHp)
      ensures attack.Some? && attack.value.Hit? ==>
        && attack.value.damage == PlayerDamage(d8, StrMod(playerLevel, buffStats))
        && enemyHp == old(enemyHp) - attack.value.damage
      ensures attack.Some? && !attack.value.Hit? ==> enemyHp == old(enemyHp)
      ensures counter.Some? ==> (counter.value.Wounded? <==> enemyD20 + AttackBonus() >= EnemyDifficultyClass)
      ensures counter.Some? && counter.value.Wounded? ==>
        counter.value.damage == EnemyDamage(enemyRoll, ConMod(playerLevel, buffStats))
      ensures fired == old(fired)
        + (if attack.Some? && attack.value.Hit? && enemyHp <= 0 then [OnVictory, OnEnd(Victory)] else [])
        + (if counter.Some? && counter.value.Wounded? && playerHp <= 0 then [OnEnd(Defeat)] else [])
      ensures enemyLevel == old(enemyLevel)
    {
      var hpBefore, enemyHpBefore := playerHp, enemyHp;
      var started := ClickAttack();
      if !started {
        return None, None;
      }
      var a := ResolveAttack(d20, d8);
      attack := Some(a);
      counter := CounterAttack(enemyHpBefore, hpBefore, enemyD20, enemyRoll);
    }

    /**
     * The attack click with the counter-turn guard reading the HP values after
     * the attack: an enemy the attack killed does not strike back, so a round
     * ends the fight at most once.
     */
    method AttackRoundChecked(d20: int, d8: int, enemyD20: int, enemyRoll: int)
      returns (attack: Option<AttackResult>, counter: Option<DefenseResult>)
      requires IsRoll(d20, 20) && IsRoll(d8, 8) && IsRoll(enemyD20, 20) && IsRoll(enemyRoll, DamageDie())
      modifies this
      ensures old(isRolling) ==> attack.None? && counter.None?
      ensures old(isRolling) ==>
        && playerHp == old(playerHp) && enemyHp == old(enemyHp) && energy == old(energy)
        && notice == old(notice) && fired == old(fired) && isRolling
      ensures !old(isRolling) ==> attack.Some? && !isRolling
      ensures !old(isRolling) ==>
        energy == (if old(energy) >= AttackCost then Max(0, old(energy) - AttackCost) else old(energy))
      ensures !old(isRolling) ==> notice == (if old(energy) < AttackCost then LowEnergyNotice else old(notice))
      ensures attack.Some? ==>
        (attack.value.Hit? <==> old(energy) >= AttackCost && d20 + PlayerAttackBonus >= AC())
      ensures counter.Some? <==> !old(isRolling) && enemyHp > 0 && old(playerHp) > 0
      ensures counter.Some? && counter.value.Wounded? ==> playerHp == old(playerHp) - counter.value.damage
      ensures (counter.None? || counter.value.Dodged?) ==> playerHp == old(playerHp)
      ensures attack.Some? && attack.value.Hit? ==>
        && attack.value.damage == PlayerDamage(d8, StrMod(playerLevel, buffStats))
        && enemyHp == old(enemyHp) - attack.value.damage
      ensures attack.Some? && !attack.value.Hit? ==> enemyHp == old(enemyHp)
      ensures counter.Some? ==> (counter.value.Wounded? <==> enemyD20 + AttackBonus() >= EnemyDifficultyClass)
      ensures counter.Some? && counter.value.Wounded? ==>
        counter.value.damage == EnemyDamage(enemyRoll, ConMod(playerLevel, buffStats))
      ensures fired == old(fired)
        + (if attack.Some? && attack.value.Hit? && enemyHp <= 0 then [OnVictory, OnEnd(Victory)] else [])
        + (if counter.Some? && counter.value.Wounded? && playerHp <= 0 then [OnEnd(Defeat)] else [])
      ensures fired == old(fired) || fired == old(fired) + [OnVictory, OnEnd(Victory)]
        || fired == old(fired) + [OnEnd(Defeat)]
      ensures enemyLevel == old(enemyLevel)
    {
      var started := ClickAttack();
      if !started {
        return None, None;
      }
      var a := ResolveAttack(d20, d8);
      attack := Some(a);
      counter := CounterAttack(enemyHp, playerHp, enemyD20, enemyRoll);
    }

    /** A refocus click as its timer runs it: recover, then the enemy's turn. */
    method RefocusRound(enemyD20: int, enemyRoll: int) returns (counter: Option<DefenseResult>)
      requires IsRoll(enemyD20, 20) && IsRoll(enemyRoll, DamageDie())
      modifies this
      ensures old(isRolling) ==> counter.None? && energy == old(energy) && playerHp == old(playerHp)
      ensures old(isRolling) ==> notice == old(notice)
      ensures !old(isRolling) ==> energy == Min(EnergyCap, old(energy) + RefocusGain) && notice == RefocusNotice
      ensures counter.Some? <==> !old(isRolling) && old(enemyHp) > 0 && old(playerHp) > 0
      ensures counter.Some? ==> (counter.value.Wounded? <==> enemyD20 + AttackBonus() >= EnemyDifficultyClass)
      ensures counter.Some? && counter.value.Wounded? ==>
        && counter.value.damage == EnemyDamage(enemyRoll, ConMod(playerLevel, buffStats))
        && playerHp == old(playerHp) - counter.value.damage
      ensures (counter.None? || counter.value.Dodged?) ==> playerHp == old(playerHp)
      ensures fired == old(fired) + (if counter.Some? && counter.value.Wounded? && playerHp <= 0 then [OnEnd(Defeat)] else [])
      ensures enemyHp == old(enemyHp) && isRolling == old(isRolling) && enemyLevel == old(enemyLevel)
    {
      var hpBefore, enemyHpBefore := playerHp, enemyHp;
      var started := Refocus();
      if !started {
        return None;
      }
      counter := CounterAttack(enemyHpBefore, hpBefore, enemyD20, enemyRoll);
    }
  }

  /**
   * The component test's arithmetic: with every die at its maximum, enemy
   * level 0, player level 10 and a strength buff of 20, the first attack hits
   * and kills, firing `onVictory` and then `onEnd("승리")`.
   */
  method MaxRollsKillInOneAttack() returns (r: AttackResult, enemyHp: int, fired: seq<Callback>)
    ensures r == Hit(28) && enemyHp == -8
    ensures fired == [OnVictory, OnEnd(Victory)]
  {
    var e := new Encounter(30, 100, 0, 10, map["strength" := 20], "");
    assert e.AC() == 13 && StrMod(10, map["strength" := 20]) == 20;
    r := e.PlayerAttack(20, 8);
    enemyHp, fired := e.enemyHp, e.fired;
  }

  /**
   * With the guard reading the HP captured at the click, a killing blow is
   * still answered: the enemy at 20 HP dies to a 28-point hit, strikes back
   * anyway and takes the player's last point, so `onEnd` reports a victory
   * and then a defeat. Under `AttackRoundChecked` the same dice end the round
   * after the victory.
   */
  method KillingBlowStillCountered()
  {
    var buffs := map["strength" := 20];
    var e := new Encounter(1, 100, 0, 10, buffs, "");
    assert e.AC() == 13 && e.AttackBonus() == 5 && e.DamageDie() == 8;
    assert StrMod(10, buffs) == 20 && ConMod(10, buffs) == 7;
    var attack, counter := e.AttackRound(20, 8, 20, 8);
    assert attack == Some(Hit(28)) && e.enemyHp == -8;
    assert counter == Some(Wounded(1)) && e.playerHp == 0;
    assert e.fired == [OnVictory, OnEnd(Victory), OnEnd(Defeat)];

    var f := new Encounter(1, 100, 0, 10, buffs, "");
    assert f.AC() == 13 && f.DamageDie() == 8;
    var attack2, counter2 := f.AttackRoundChecked(20, 8, 20, 8);
    assert counter2 == None && f.playerHp == 1;
    assert f.fired == [OnVictory, OnEnd(Victory)];
  }
}
