/** Weapon stat records, their `+` composition, the per-level payload lookup of
    WeaponData, and the in-place state of one equipped weapon (level, stats, cooldown). */
module Weapon {
  import opened Common

  /** A Unity Rect: where projectiles may spawn. */
  datatype Rect = Rect(x: real, y: real, width: real, height: real)

  /** One buff a weapon applies on hit (EntityStats.BuffInfo): buff asset, variant, probability. */
  datatype BuffInfo = BuffInfo(buff: nat, variant: int, probability: real)

  /** Weapon.Stats. Asset references (prefabs, particle systems) are asset ids; a missing
      reference or a null string is `None`. `appliedBuffs == None` is a null array. */
  datatype Stats = Stats(
    name: Option<string>, description: Option<string>,
    projectilePrefab: Option<nat>, auraPrefab: Option<nat>,
    hitEffect: Option<nat>, procEffect: Option<nat>,
    spawnVariance: Rect,
    lifespan: real, damage: real, damageVariance: real, area: real, speed: real,
    cooldown: real, projectileInterval: real, knockback: real,
    number: int, piercing: int, maxInstances: int,
    appliedBuffs: Option<seq<BuffInfo>>)

  /** `new Weapon.Stats()`: every reference null, every number zero. */
  const EmptyStats: Stats := Stats(None, None, None, None, None, None, Rect(0.0, 0.0, 0.0, 0.0),
                                   0.0, 0.0, 0.0, 0.0, 0.0, 0.0, 0.0, 0.0, 0, 0, 0, None)

  /** C#'s `a ?? b`. */
  function Coalesce<T>(a: Option<T>, b: Option<T>): Option<T>
  {
    if a.Some? then a else b
  }

  function BuffsOr(s2: Option<seq<BuffInfo>>, s1: Option<seq<BuffInfo>>): Option<seq<BuffInfo>>
  {
    if s2.None? || |s2.value| <= 0 then s1 else s2
  }

  /** Weapon.Stats.operator +: numbers add; references come from the right operand when
      it has one; spawnVariance always from the right; maxInstances is not copied, so the
      fresh result keeps 0. */
  function Add(s1: Stats, s2: Stats): Stats
  {
    Stats(
      Coalesce(s2.name, s1.name), Coalesce(s2.description, s1.description),
      Coalesce(s2.projectilePrefab, s1.projectilePrefab), Coalesce(s2.auraPrefab, s1.auraPrefab),
      Coalesce(s2.hitEffect, s1.hitEffect), Coalesce(s2.procEffect, s1.procEffect),
      s2.spawnVariance,
      s1.lifespan + s2.lifespan, s1.damage + s2.damage, s1.damageVariance + s2.damageVariance,
      s1.area + s2.area, s1.speed + s2.speed, s1.cooldown + s2.cooldown,
      s1.projectileInterval + s2.projectileInterval, s1.knockback + s2.knockback,
      s1.number + s2.number, s1.piercing + s2.piercing, 0,
      BuffsOr(s2.appliedBuffs, s1.appliedBuffs))
  }

  /** The numeric part of a Stats record that `+` sums. */
  function Numbers(s: Stats): seq<real>
  {
    [s.lifespan, s.damage, s.damageVariance, s.area, s.speed, s.cooldown,
     s.projectileInterval, s.knockback, s.number as real, s.piercing as real]
  }

  /** `+` sums every numeric field, takes each reference from the right operand unless it is
      null there, spawnVariance always from the right, and the buff list from the right unless
      it is null or empty there. */
  lemma AddFields(s1: Stats, s2: Stats)
    ensures var r := Add(s1, s2);
      |Numbers(r)| == 10 &&
      (forall i :: 0 <= i < 10 ==> Numbers(r)[i] == Numbers(s1)[i] + Numbers(s2)[i]) &&
      r.name == (if s2.name.Some? then s2.name else s1.name) &&
      r.description == (if s2.description.Some? then s2.description else s1.description) &&
      r.projectilePrefab == (if s2.projectilePrefab.Some? then s2.projectilePrefab else s1.projectilePrefab) &&
      r.auraPrefab == (if s2.auraPrefab.Some? then s2.auraPrefab else s1.auraPrefab) &&
      r.spawnVariance == s2.spawnVariance &&
      (s2.appliedBuffs.Some? && |s2.appliedBuffs.value| > 0 ==> r.appliedBuffs == s2.appliedBuffs) &&
      (s2.appliedBuffs.None? || |s2.appliedBuffs.value| == 0 ==> r.appliedBuffs == s1.appliedBuffs) &&
      r.maxInstances == 0
  {
  }

  /** `+` is associative, so the running total of a weapon does not depend on how
      its level payloads are grouped. */
  lemma AddAssociative(a: Stats, b: Stats, c: Stats)
    ensures Add(Add(a, b), c) == Add(a, Add(b, c))
  {
  }

  /** Adding the empty record on the right (what an unconfigured level yields) keeps every
      number but resets spawnVariance and maxInstances to zero. */
  lemma AddEmptyOnRight(s: Stats)
    ensures Numbers(Add(s, EmptyStats)) == Numbers(s)
    ensures Add(s, EmptyStats).spawnVariance == Rect(0.0, 0.0, 0.0, 0.0)
    ensures Add(s, EmptyStats).name == s.name && Add(s, EmptyStats).maxInstances == 0
  {
  }

  /** The stats after adding the payloads in order, as repeated level-ups do. */
  function Accumulate(base: Stats, payloads: seq<Stats>): Stats
  {
    if payloads == [] then base else Add(Accumulate(base, payloads[..|payloads| - 1]), payloads[|payloads| - 1])
  }

  function Damages(payloads: seq<Stats>): seq<real>
  {
    seq(|payloads|, i requires 0 <= i < |payloads| => payloads[i].damage)
  }

  /** After any number of level-ups the damage is the base damage plus every payload's damage. */
  lemma {:induction false} AccumulatedDamage(base: Stats, payloads: seq<Stats>)
    ensures Accumulate(base, payloads).damage == base.damage + SumReals(Damages(payloads))
  {
    if payloads != [] {
      var init := payloads[..|payloads| - 1];
      AccumulatedDamage(base, init);
      assert Damages(payloads)[..|payloads| - 1] == Damages(init);
    }
  }

  /** Weapon.Stats.GetDamage: damage plus Random.Range(0, damageVariance), where the draw
      is the point `t` of the way from 0 to the variance. */
  function StatsDamage(s: Stats, t: real): (d: real)
    requires 0.0 <= t <= 1.0
    ensures s.damageVariance >= 0.0 ==> s.damage <= d <= s.damage + s.damageVariance
    ensures s.damageVariance < 0.0 ==> s.damage + s.damageVariance <= d <= s.damage
  {
    s.damage + t * s.damageVariance
  }

  /** WeaponData: the item's maximum level, the behaviour name, and its level tables. */
  datatype WeaponData = WeaponData(
    maxLevel: int, behaviour: string,
    baseStats: Stats, linearGrowth: seq<Stats>, randomGrowth: seq<Stats>)

  /** WeaponData.GetLevelData: level 1 (or lower) is the base record, the next levels come
      from the linear table, later ones from a random entry of the random table (index
      `pick`), and an empty record when both tables are exhausted. */
  function GetLevelData(data: WeaponData, level: int, pick: nat): (r: Stats)
    requires |data.randomGrowth| > 0 ==> pick < |data.randomGrowth|
    ensures level <= 1 ==> r == data.baseStats
    ensures level >= 2 && level - 2 < |data.linearGrowth| ==> r == data.linearGrowth[level - 2]
    ensures level >= 2 && level - 2 >= |data.linearGrowth| && |data.randomGrowth| > 0 ==> r in data.randomGrowth
    ensures level >= 2 && level - 2 >= |data.linearGrowth| && |data.randomGrowth| == 0 ==>
              r == EmptyStats && forall i :: 0 <= i < 10 ==> Numbers(r)[i] == 0.0
  {
    if level <= 1 then data.baseStats
    else if level - 2 < |data.linearGrowth| then data.linearGrowth[level - 2]
    else if |data.randomGrowth| > 0 then data.randomGrowth[pick]
    else EmptyStats
  }

  /** Item.CanLevelUp as written: `currentLevel <= maxLevel`. */
  predicate CanLevelUpAsWritten(currentLevel: int, maxLevel: int)
  {
    currentLevel <= maxLevel
  }

  /** The level an item reaches after a level-up attempt under the written guard. */
  function LevelAfterAsWritten(currentLevel: int, maxLevel: int): int
  {
    if CanLevelUpAsWritten(currentLevel, maxLevel) then currentLevel + 1 else currentLevel
  }

  /** Under the written guard an item already at its maximum level, whatever that is,
      is levelled one past it. */
  lemma AsWrittenPassesMaxLevel(maxLevel: int)
    ensures CanLevelUpAsWritten(maxLevel, maxLevel) && LevelAfterAsWritten(maxLevel, maxLevel) == maxLevel + 1
    ensures !CanLevelUpAsWritten(maxLevel + 1, maxLevel)
  {
  }

  /** The level after a number of level-up attempts under the written guard. */
  function LevelAfterAttemptsAsWritten(currentLevel: int, maxLevel: int, attempts: nat): int
    decreases attempts
  {
    if attempts == 0 then currentLevel
    else LevelAfterAttemptsAsWritten(LevelAfterAsWritten(currentLevel, maxLevel), maxLevel, attempts - 1)
  }

  /** With the written guard, repeated level-ups from a level within the cap climb one level
      per attempt and settle at exactly one past the maximum level. */
  lemma {:induction false} AsWrittenAttemptsSettlePastMax(currentLevel: int, maxLevel: int, attempts: nat)
    requires currentLevel <= maxLevel + 1
    decreases attempts
    ensures LevelAfterAttemptsAsWritten(currentLevel, maxLevel, attempts) ==
              if currentLevel + attempts <= maxLevel + 1 then currentLevel + attempts else maxLevel + 1
  {
    if attempts > 0 {
      AsWrittenAttemptsSettlePastMax(LevelAfterAsWritten(currentLevel, maxLevel), maxLevel, attempts - 1);
    }
  }

  /** Item.CanLevelUp as intended: an item levels only while below its maximum. */
  predicate CanLevelUp(currentLevel: int, maxLevel: int)
  {
    currentLevel < maxLevel
  }

  /** With the intended guard, repeated level-ups from a level within the cap never leave it. */
  lemma {:induction false} LevelUpsStayWithinMax(currentLevel: int, maxLevel: int, attempts: nat)
    requires currentLevel <= maxLevel
    decreases attempts
    ensures LevelAfterAttempts(currentLevel, maxLevel, attempts) <= maxLevel
  {
    if attempts > 0 {
      var next := if CanLevelUp(currentLevel, maxLevel) then currentLevel + 1 else currentLevel;
      LevelUpsStayWithinMax(next, maxLevel, attempts - 1);
    }
  }

  function LevelAfterAttempts(currentLevel: int, maxLevel: int, attempts: nat): int
    decreases attempts
  {
    if attempts == 0 then currentLevel
    else LevelAfterAttempts(if CanLevelUp(currentLevel, maxLevel) then currentLevel + 1 else currentLevel,
                            maxLevel, attempts - 1)
  }

  /** Unity's float epsilon (the smallest positive single). */
  const FloatEpsilon: real := 1.401298 / 1000000000000000000000000000000000000000000000.0

  /** Mathf.Approximately. */
  predicate Approximately(a: real, b: real)
  {
    var d := if b - a < 0.0 then a - b else b - a;
    var ma := if a < 0.0 then -a else a;
    var mb := if b < 0.0 then -b else b;
    d < MaxReal(0.000001 * MaxReal(ma, mb), FloatEpsilon * 8.0)
  }

  /** One equipped weapon: its data, level, accumulated stats and running cooldown. */
  class Weapon {
    const data: WeaponData
    var currentLevel: int
    var maxLevel: int
    var currentStats: Stats
    var currentCooldown: real

    /** Weapon.Initialise: level 1 with the base stats, then an initial ActivateCooldown. */
    constructor (data: WeaponData, ownerCooldown: real)
      ensures this.data == data && currentLevel == 1 && maxLevel == data.maxLevel
      ensures currentStats == data.baseStats
      ensures currentCooldown == data.baseStats.cooldown * ownerCooldown
    {
      this.data := data;
      currentLevel := 1;
      maxLevel := data.maxLevel;
      currentStats := data.baseStats;
      currentCooldown := 0.0;
      new;
      var _ := ActivateCooldown(false, ownerCooldown);
    }

    /** Weapon.DoLevelUp (the evolution attempts of Item.DoLevelUp are not part of this model):
        refuses once the written guard `currentLevel <= maxLevel` fails, otherwise moves to the
        next level and adds its payload; so a weapon at its maximum level still levels once. */
    method DoLevelUp(pick: nat) returns (ok: bool)
      requires |data.randomGrowth| > 0 ==> pick < |data.randomGrowth|
      modifies this
      ensures ok == CanLevelUpAsWritten(old(currentLevel), old(maxLevel))
      ensures currentLevel == LevelAfterAsWritten(old(currentLevel), old(maxLevel))
      ensures !ok ==> currentLevel == old(currentLevel) && currentStats == old(currentStats)
      ensures ok ==> currentLevel == old(currentLevel) + 1 &&
                     currentStats == Add(old(currentStats), GetLevelData(data, currentLevel, pick))
      ensures maxLevel == old(maxLevel) && currentCooldown == old(currentCooldown)
    {
      if !CanLevelUpAsWritten(currentLevel, maxLevel) {
        return false;
      }
      currentLevel := currentLevel + 1;
      currentStats := Add(currentStats, GetLevelData(data, currentLevel, pick));
      return true;
    }

    /** Weapon.CanAttack: never while the owner's might is (approximately) zero,
        otherwise exactly when the cooldown has run out. */
    function CanAttack(might: real): (r: bool)
      reads this
      ensures Approximately(might, 0.0) ==> !r
      ensures !Approximately(might, 0.0) ==> (r <==> currentCooldown <= 0.0)
    {
      if Approximately(might, 0.0) then false else currentCooldown <= 0.0
    }

    /** Weapon.ActivateCooldown: a strict call on a weapon still cooling down does nothing;
        otherwise the cooldown grows by one full period but is capped at one period. */
    method ActivateCooldown(strict: bool, ownerCooldown: real) returns (ok: bool)
      modifies this`currentCooldown
      ensures ok == !(strict && old(currentCooldown) > 0.0)
      ensures !ok ==> currentCooldown == old(currentCooldown)
      ensures ok ==> currentCooldown <= currentStats.cooldown * ownerCooldown
      ensures ok ==> currentCooldown == MinReal(currentStats.cooldown * ownerCooldown,
                                                old(currentCooldown) + currentStats.cooldown * ownerCooldown)
    {
      if strict && currentCooldown > 0.0 {
        return false;
      }
      var actualCooldown := currentStats.cooldown * ownerCooldown;
      currentCooldown := MinReal(actualCooldown, currentCooldown + actualCooldown);
      return true;
    }

    /** Weapon.GetDamage: the stats' damage roll scaled by the owner's might. */
    function GetDamage(t: real, might: real): (d: real)
      requires 0.0 <= t <= 1.0
      reads this
      ensures currentStats.damageVariance >= 0.0 && might >= 0.0 ==>
                currentStats.damage * might <= d <= (currentStats.damage + currentStats.damageVariance) * might
    {
      StatsDamage(currentStats, t) * might
    }

    /** Weapon.GetArea: the stats' area scaled by the owner's area. */
    function GetArea(ownerArea: real): (a: real)
      reads this
      ensures ownerArea == 1.0 ==> a == currentStats.area
      ensures currentStats.area >= 0.0 && ownerArea >= 1.0 ==> a >= currentStats.area
    {
      currentStats.area * ownerArea
    }
  }
}
