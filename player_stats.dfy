/** The player's health, damage, invincibility window, health recovery and experience
    levelling (PlayerStats), and the order in which its stats are recomputed from the
    character's base, the passive items and the active buffs. */
module PlayerStats {
  import opened Common
  import opened GameManager

  /** PlayerStats.LevelRange: levels startLevel..endLevel raise the experience cap by
      experienceCapIncrease at each level-up. */
  datatype LevelRange = LevelRange(startLevel: int, endLevel: int, experienceCapIncrease: int)

  predicate InRange(level: int, r: LevelRange)
  {
    r.startLevel <= level <= r.endLevel
  }

  /** No range lowers the cap; with a positive starting cap, levelling then terminates. */
  predicate NonNegativeIncreases(ranges: seq<LevelRange>)
  {
    forall i :: 0 <= i < |ranges| ==> ranges[i].experienceCapIncrease >= 0
  }

  /** The cap increase for a level: that of the first range containing it, or 0 if none does. */
  function CapIncrease(level: int, ranges: seq<LevelRange>): (inc: int)
    ensures NonNegativeIncreases(ranges) ==> inc >= 0
  {
    if ranges == [] then 0
    else if InRange(level, ranges[0]) then ranges[0].experienceCapIncrease
    else CapIncrease(level, ranges[1..])
  }

  /** CapIncrease picks the first range that holds the level, and gives 0 when none does. */
  lemma {:induction false} CapIncreaseIsFirstMatch(level: int, ranges: seq<LevelRange>)
    ensures (forall i :: 0 <= i < |ranges| ==> !InRange(level, ranges[i])) ==> CapIncrease(level, ranges) == 0
    ensures forall i :: 0 <= i < |ranges| && InRange(level, ranges[i]) && (forall j :: 0 <= j < i ==> !InRange(level, ranges[j]))
              ==> CapIncrease(level, ranges) == ranges[i].experienceCapIncrease
  {
    if ranges != [] && !InRange(level, ranges[0]) {
      CapIncreaseIsFirstMatch(level, ranges[1..]);
      assert forall i :: 1 <= i < |ranges| ==> ranges[i] == ranges[1..][i - 1];
    }
  }

  /** The experience, level and cap that levelling works on. */
  datatype Progress = Progress(experience: int, level: int, cap: int)

  /** LevelUpChecker on values: while the experience reaches the cap, the level rises,
      the cap is paid and the cap grows by the increase for the new level. Returns the
      final progress and the number of level-ups. */
  function LevelUps(p: Progress, ranges: seq<LevelRange>): (Progress, nat)
    requires p.cap > 0 && NonNegativeIncreases(ranges)
    decreases if p.experience >= 0 then p.experience else 0
  {
    if p.experience >= p.cap then
      var next := Progress(p.experience - p.cap, p.level + 1, p.cap + CapIncrease(p.level + 1, ranges));
      var r := LevelUps(next, ranges);
      (r.0, r.1 + 1)
    else (p, 0)
  }

  /** Levelling always settles below the cap: the experience ends under the (still
      positive, never smaller) cap, the level rises by the number of level-ups, and no
      experience is lost below zero when it started non-negative. */
  lemma {:induction false} LevelUpsSettle(p: Progress, ranges: seq<LevelRange>)
    requires p.cap > 0 && NonNegativeIncreases(ranges)
    ensures LevelUps(p, ranges).0.experience < LevelUps(p, ranges).0.cap
    ensures LevelUps(p, ranges).0.cap >= p.cap
    ensures LevelUps(p, ranges).0.level == p.level + LevelUps(p, ranges).1
    ensures p.experience >= 0 ==> LevelUps(p, ranges).0.experience >= 0
    ensures LevelUps(p, ranges).1 == 0 <==> p.experience < p.cap
    decreases if p.experience >= 0 then p.experience else 0
  {
    if p.experience >= p.cap {
      var next := Progress(p.experience - p.cap, p.level + 1, p.cap + CapIncrease(p.level + 1, ranges));
      assert next.cap >= p.cap;
      LevelUpsSettle(next, ranges);
      assert LevelUps(p, ranges) == (LevelUps(next, ranges).0, LevelUps(next, ranges).1 + 1);
    }
  }

  /** A player's PlayerStats. Of the character stats only those the rules here read are
      kept: maximum health, armor and recovery. */
  class Player {
    var health: real
    var maxHealth: real
    var armor: real
    var recovery: real
    var invincibilityDuration: real
    var invincibilityTimer: real
    var isInvincible: bool
    var experience: int
    var level: int
    var experienceCap: int
    const levelRanges: seq<LevelRange>
    const gm: Manager

    ghost predicate Valid()
      reads this, gm
    {
      experienceCap > 0 && NonNegativeIncreases(levelRanges) && gm.Valid()
    }

    /** Awake and Start: full health, level 1, and the first range's increase as the cap. */
    constructor (maxHealth: real, armor: real, recovery: real, invincibilityDuration: real,
                 levelRanges: seq<LevelRange>, gm: Manager)
      requires |levelRanges| > 0
      ensures health == maxHealth && this.maxHealth == maxHealth && this.armor == armor
      ensures this.recovery == recovery && this.invincibilityDuration == invincibilityDuration
      ensures invincibilityTimer == 0.0 && !isInvincible
      ensures experience == 0 && level == 1 && experienceCap == levelRanges[0].experienceCapIncrease
      ensures this.levelRanges == levelRanges && this.gm == gm
      ensures levelRanges[0].experienceCapIncrease > 0 && NonNegativeIncreases(levelRanges) && gm.Valid() ==> Valid()
    {
      health := maxHealth;
      this.maxHealth := maxHealth;
      this.armor := armor;
      this.recovery := recovery;
      this.invincibilityDuration := invincibilityDuration;
      invincibilityTimer := 0.0;
      isInvincible := false;
      experience := 0;
      level := 1;
      experienceCap := levelRanges[0].experienceCapIncrease;
      this.levelRanges := levelRanges;
      this.gm := gm;
    }

    /** Kill: ends the game, recording the level reached, unless it is already over;
        so a second Kill changes nothing. */
    method Kill()
      requires gm.Valid()
      modifies gm, gm.save, gm.collectors
      ensures gm.Valid()
      ensures gm.IsGameOver()
      ensures old(gm.IsGameOver()) ==> unchanged(gm) && gm.save.coins == old(gm.save.coins)
      ensures !old(gm.IsGameOver()) ==> gm.levelReached == level && gm.previousState == old(gm.currentState)
      ensures !old(gm.IsGameOver()) ==> gm.save.coins == old(gm.save.coins) + old(PurseTotal(gm.collectors))
      ensures gm.stackedLevelUps == old(gm.stackedLevelUps)
    {
      if !gm.IsGameOver() {
        gm.AssignLevelReached(level);
        gm.GameOver();
      }
    }

    /** TakeDamage: ignored while invincible. Otherwise armor is taken off the damage; what
        remains, if positive, comes off health (and a player at or below zero is killed),
        and any hit, blocked or not, opens the invincibility window. */
    method TakeDamage(dmg: real)
      requires gm.Valid()
      modifies this, gm, gm.save, gm.collectors
      ensures gm.Valid()
      ensures old(isInvincible) ==> health == old(health) && invincibilityTimer == old(invincibilityTimer) && isInvincible && unchanged(gm)
      ensures !old(isInvincible) ==> isInvincible && invincibilityTimer == invincibilityDuration
      ensures !old(isInvincible) && dmg - armor > 0.0 ==> health == old(health) - (dmg - armor)
      ensures !old(isInvincible) && dmg - armor <= 0.0 ==> health == old(health) && unchanged(gm)
      ensures gm.IsGameOver() <==> old(gm.IsGameOver()) || (!old(isInvincible) && dmg - armor > 0.0 && health <= 0.0)
      ensures maxHealth == old(maxHealth) && armor == old(armor) && experience == old(experience) && level == old(level)
      ensures experienceCap == old(experienceCap)
    {
      if !isInvincible {
        var d := dmg - armor;
        if d > 0.0 {
          health := health - d;
          if health <= 0.0 {
            Kill();
          }
        }
        invincibilityTimer := invincibilityDuration;
        isInvincible := true;
      }
    }

    /** RestoreHealth: clamped healing. */
    method RestoreHealth(amount: real)
      modifies this`health
      ensures health == Restored(old(health), maxHealth, amount)
    {
      if health < maxHealth {
        health := health + amount;
        if health > maxHealth {
          health := maxHealth;
        }
      }
    }

    /** Recover: the per-frame regeneration, recovery per second times the frame time. */
    method Recover(dt: real)
      modifies this`health
      ensures health == Restored(old(health), maxHealth, recovery * dt)
    {
      if health < maxHealth {
        health := health + recovery * dt;
        if health > maxHealth {
          health := maxHealth;
        }
      }
    }

    /** Update: the invincibility timer runs down while positive; only a frame that finds
        it at or below zero clears the flag. Then health regenerates. */
    method Update(dt: real)
      modifies this
      ensures old(invincibilityTimer) > 0.0 ==> invincibilityTimer == old(invincibilityTimer) - dt && isInvincible == old(isInvincible)
      ensures old(invincibilityTimer) <= 0.0 ==> invincibilityTimer == old(invincibilityTimer) && !isInvincible
      ensures health == Restored(old(health), maxHealth, recovery * dt)
      ensures maxHealth == old(maxHealth) && armor == old(armor) && recovery == old(recovery)
      ensures experience == old(experience) && level == old(level) && experienceCap == old(experienceCap)
    {
      if invincibilityTimer > 0.0 {
        invincibilityTimer := invincibilityTimer - dt;
      } else if isInvincible {
        isInvincible := false;
      }
      Recover(dt);
    }

    /** The range lookup inside LevelUpChecker: the first range holding the level wins. */
    static method FindCapIncrease(level: int, ranges: seq<LevelRange>) returns (inc: int)
      ensures inc == CapIncrease(level, ranges)
    {
      inc := 0;
      var i := 0;
      while i < |ranges|
        invariant 0 <= i <= |ranges|
        invariant CapIncrease(level, ranges) == CapIncrease(level, ranges[i..])
      {
        if InRange(level, ranges[i]) {
          inc := ranges[i].experienceCapIncrease;
          return;
        }
        assert ranges[i..][1..] == ranges[i + 1..];
        i := i + 1;
      }
    }

    function CurrentProgress(): Progress
      reads this
    {
      Progress(experience, level, experienceCap)
    }

    /** LevelUpChecker: levels up while the experience reaches the cap, asking the game
        manager for one level-up screen per level. */
    method LevelUpChecker() returns (levelUps: nat)
      requires Valid()
      modifies this`experience, this`level, this`experienceCap, gm
      ensures Valid()
      ensures (CurrentProgress(), levelUps) == LevelUps(old(CurrentProgress()), levelRanges)
      ensures experience < experienceCap
      ensures gm.Pending() == old(gm.Pending()) + levelUps
      ensures gm.stopwatchTime == old(gm.stopwatchTime) && gm.levelEnded == old(gm.levelEnded)
    {
      LevelUpsSettle(CurrentProgress(), levelRanges);
      levelUps := 0;
      while experience >= experienceCap
        invariant Valid()
        invariant LevelUps(old(CurrentProgress()), levelRanges) == (LevelUps(CurrentProgress(), levelRanges).0, LevelUps(CurrentProgress(), levelRanges).1 + levelUps)
        invariant gm.Pending() == old(gm.Pending()) + levelUps
        invariant gm.stopwatchTime == old(gm.stopwatchTime) && gm.levelEnded == old(gm.levelEnded)
        decreases if experience >= 0 then experience else 0
      {
        level := level + 1;
        experience := experience - experienceCap;
        var inc := FindCapIncrease(level, levelRanges);
        experienceCap := experienceCap + inc;
        gm.StartLevelUp();
        levelUps := levelUps + 1;
      }
    }

    /** IncreaseExperience: adds the experience and levels up as far as it reaches. */
    method IncreaseExperience(amount: int) returns (levelUps: nat)
      requires Valid()
      modifies this`experience, this`level, this`experienceCap, gm
      ensures Valid()
      ensures (CurrentProgress(), levelUps) == LevelUps(Progress(old(experience) + amount, old(level), old(experienceCap)), levelRanges)
      ensures experience < experienceCap && level == old(level) + levelUps
      ensures gm.Pending() == old(gm.Pending()) + levelUps
    {
      experience := experience + amount;
      LevelUpsSettle(CurrentProgress(), levelRanges);
      levelUps := LevelUpChecker();
    }
  }

  /** BuffData.ModifierType with the buff's player modifier. */
  datatype BuffModifier<S> = Additive(modifier: S) | Multiplicative(modifier: S)

  /** Adds every present passive's boosts, in slot order. */
  function AddBoosts<S>(acc: S, passives: seq<Option<S>>, add: (S, S) -> S): S
    decreases |passives|
  {
    if passives == [] then acc
    else AddBoosts(if passives[0].Some? then add(acc, passives[0].value) else acc, passives[1..], add)
  }

  /** Applies the buffs in list order: additive ones are added, multiplicative ones
      multiplied straight into the running stats. */
  function ApplyBuffs<S>(acc: S, buffs: seq<BuffModifier<S>>, add: (S, S) -> S, mul: (S, S) -> S): S
    decreases |buffs|
  {
    if buffs == [] then acc
    else
      var next := match buffs[0]
        case Additive(m) => add(acc, m)
        case Multiplicative(m) => mul(acc, m);
      ApplyBuffs(next, buffs[1..], add, mul)
  }

  /** Applying two lists of buffs one after the other is applying their concatenation:
      the recomputation is a left-to-right pass whose order is the list order. */
  lemma {:induction false} ApplyBuffsConcat<S>(acc: S, b1: seq<BuffModifier<S>>, b2: seq<BuffModifier<S>>,
                                               add: (S, S) -> S, mul: (S, S) -> S)
    ensures ApplyBuffs(acc, b1 + b2, add, mul) == ApplyBuffs(ApplyBuffs(acc, b1, add, mul), b2, add, mul)
    decreases |b1|
  {
    if b1 != [] {
      assert (b1 + b2)[0] == b1[0];
      assert (b1 + b2)[1..] == b1[1..] + b2;
      var next := match b1[0]
        case Additive(m) => add(acc, m)
        case Multiplicative(m) => mul(acc, m);
      ApplyBuffsConcat(next, b1[1..], b2, add, mul);
    } else {
      assert b1 + b2 == b2;
    }
  }

  /** Empty passive slots contribute nothing: an empty slot anywhere in the list can be
      dropped without changing the boosts added. */
  lemma {:induction false} EmptySlotsIgnored<S>(acc: S, p1: seq<Option<S>>, p2: seq<Option<S>>, add: (S, S) -> S)
    ensures AddBoosts(acc, p1 + [None] + p2, add) == AddBoosts(acc, p1 + p2, add)
    decreases |p1|
  {
    if p1 != [] {
      assert (p1 + [None] + p2)[0] == (p1 + p2)[0] == p1[0];
      assert (p1 + [None] + p2)[1..] == p1[1..] + [None] + p2;
      assert (p1 + p2)[1..] == p1[1..] + p2;
      EmptySlotsIgnored(if p1[0].Some? then add(acc, p1[0].value) else acc, p1[1..], p2, add);
    } else {
      assert p1 + [None] + p2 == [None] + p2;
      assert ([None] + p2)[1..] == p2;
      assert p1 + p2 == p2;
    }
  }

  /** PlayerStats.RecalculateStats: from the base stats, add every passive's boosts, then
      apply the buffs in order, then multiply by the all-ones multiplier. The stat record
      and its operators are parameters (CharacterData.Stats is not part of this model). */
  method RecalculateStats<S>(base: S, passives: seq<Option<S>>, buffs: seq<BuffModifier<S>>,
                             add: (S, S) -> S, mul: (S, S) -> S, ones: S) returns (actual: S)
    ensures actual == mul(ApplyBuffs(AddBoosts(base, passives, add), buffs, add, mul), ones)
  {
    actual := base;
    var i := 0;
    while i < |passives|
      invariant 0 <= i <= |passives|
      invariant AddBoosts(actual, passives[i..], add) == AddBoosts(base, passives, add)
    {
      assert passives[i..][1..] == passives[i + 1..];
      if passives[i].Some? {
        actual := add(actual, passives[i].value);
      }
      i := i + 1;
    }
    var j := 0;
    while j < |buffs|
      invariant 0 <= j <= |buffs|
      invariant ApplyBuffs(actual, buffs[j..], add, mul) == ApplyBuffs(AddBoosts(base, passives, add), buffs, add, mul)
    {
      assert buffs[j..][1..] == buffs[j + 1..];
      match buffs[j] {
        case Additive(m) => actual := add(actual, m);
        case Multiplicative(m) => actual := mul(actual, m);
      }
      j := j + 1;
    }
    actual := mul(actual, ones);
  }
}
