/** An enemy's stat record and its algebra (EnemyStats.Resistances and EnemyStats.Stats),
    the recomputation of its actual stats from curse, player levels and buffs, buff
    resistance, damage with the insta-kill dodge, healing, and the live-enemy counter. */
module EnemyStats {
  import opened Common

  /** Resistances to freeze, insta-kill and debuffs. */
  datatype Resistances = Resistances(freeze: real, kill: real, debuff: real)

  /** Mathf.Min(1, x). */
  function AtMostOne(x: real): real { MinReal(1.0, x) }

  predicate ResistancesAtMostOne(r: Resistances)
  {
    r.freeze <= 1.0 && r.kill <= 1.0 && r.debuff <= 1.0
  }

  /** Resistances * float: every component scaled, then capped at 1. */
  function ScaleResistances(r: Resistances, factor: real): (r': Resistances)
    ensures ResistancesAtMostOne(r')
    ensures r.freeze * factor <= 1.0 ==> r'.freeze == r.freeze * factor
    ensures r.kill * factor <= 1.0 ==> r'.kill == r.kill * factor
    ensures r.debuff * factor <= 1.0 ==> r'.debuff == r.debuff * factor
  {
    Resistances(AtMostOne(r.freeze * factor), AtMostOne(r.kill * factor), AtMostOne(r.debuff * factor))
  }

  /** Resistances + Resistances: component-wise and not capped. */
  function AddResistances(r: Resistances, r2: Resistances): Resistances
  {
    Resistances(r.freeze + r2.freeze, r.kill + r2.kill, r.debuff + r2.debuff)
  }

  /** Resistances * Resistances: component-wise product, each capped at 1. */
  function MulResistances(r1: Resistances, r2: Resistances): (r: Resistances)
    ensures ResistancesAtMostOne(r)
    ensures r1.freeze * r2.freeze <= 1.0 ==> r.freeze == r1.freeze * r2.freeze
    ensures r1.kill * r2.kill <= 1.0 ==> r.kill == r1.kill * r2.kill
    ensures r1.debuff * r2.debuff <= 1.0 ==> r.debuff == r1.debuff * r2.debuff
  {
    Resistances(AtMostOne(r1.freeze * r2.freeze), AtMostOne(r1.kill * r2.kill), AtMostOne(r1.debuff * r2.debuff))
  }

  /** Every component capped at 1. */
  function Capped(r: Resistances): Resistances
  {
    Resistances(AtMostOne(r.freeze), AtMostOne(r.kill), AtMostOne(r.debuff))
  }

  /** Multiplying resistances by all ones only caps them, and leaves resistances already
      at most 1 as they are; addition, by contrast, can push a resistance past 1. */
  lemma ResistanceOperators(r: Resistances, r2: Resistances)
    ensures MulResistances(r, Resistances(1.0, 1.0, 1.0)) == Capped(r)
    ensures ScaleResistances(r, 1.0) == Capped(r)
    ensures ResistancesAtMostOne(r) ==> Capped(r) == r
    ensures AddResistances(r, r2) == AddResistances(r2, r)
    ensures !ResistancesAtMostOne(AddResistances(Resistances(1.0, 1.0, 1.0), Resistances(0.5, 0.0, 0.0)))
  {
  }

  /** Stats.Boostable: the flags selecting which fields a boost scales. */
  datatype Boostable = Health | MoveSpeed | Damage | KnockbackMultiplier | ResistanceFlag

  datatype Stats = Stats(maxHealth: real, moveSpeed: real, damage: real, knockbackMultiplier: real,
                         resistances: Resistances, curseBoosts: set<Boostable>, levelBoosts: set<Boostable>)

  /** The base stats of a freshly created enemy. */
  const DefaultBase := Stats(10.0, 1.0, 3.0, 1.0, Resistances(0.0, 0.0, 0.0), {}, {})

  /** The starting multiplier of a recomputation: all ones, no flags. */
  const Ones := Stats(1.0, 1.0, 1.0, 1.0, Resistances(1.0, 1.0, 1.0), {}, {})

  /** Stats.Boost: scales exactly the flagged fields by the factor, except that the
      knockback multiplier is divided by it; the flags themselves are kept. */
  function Boost(s: Stats, factor: real, flags: set<Boostable>): (r: Stats)
    requires KnockbackMultiplier in flags ==> factor != 0.0
    ensures r.curseBoosts == s.curseBoosts && r.levelBoosts == s.levelBoosts
    ensures Health !in flags ==> r.maxHealth == s.maxHealth
    ensures MoveSpeed !in flags ==> r.moveSpeed == s.moveSpeed
    ensures Damage !in flags ==> r.damage == s.damage
    ensures KnockbackMultiplier !in flags ==> r.knockbackMultiplier == s.knockbackMultiplier
    ensures ResistanceFlag !in flags ==> r.resistances == s.resistances
    ensures KnockbackMultiplier in flags ==> r.knockbackMultiplier * factor == s.knockbackMultiplier
    ensures ResistanceFlag in flags ==> ResistancesAtMostOne(r.resistances)
  {
    Stats(
      if Health in flags then s.maxHealth * factor else s.maxHealth,
      if MoveSpeed in flags then s.moveSpeed * factor else s.moveSpeed,
      if Damage in flags then s.damage * factor else s.damage,
      if KnockbackMultiplier in flags then s.knockbackMultiplier / factor else s.knockbackMultiplier,
      if ResistanceFlag in flags then ScaleResistances(s.resistances, factor) else s.resistances,
      s.curseBoosts, s.levelBoosts)
  }

  /** Boosting by 1 changes nothing but the capping of flagged resistances, and an empty
      flag set changes nothing at all. */
  lemma BoostByOne(s: Stats, flags: set<Boostable>)
    ensures Boost(s, 1.0, flags) ==
      s.(resistances := if ResistanceFlag in flags then Capped(s.resistances) else s.resistances)
    ensures Boost(s, 5.0, {}) == s
  {
  }

  /** Stats * float: the curse boost, on the fields the record's curse flags select. */
  function CurseBoost(s: Stats, curse: real): Stats
    requires KnockbackMultiplier in s.curseBoosts ==> curse != 0.0
  {
    Boost(s, curse, s.curseBoosts)
  }

  /** Stats ^ float: the level boost, on the fields the record's level flags select. */
  function LevelBoost(s: Stats, level: real): Stats
    requires KnockbackMultiplier in s.levelBoosts ==> level != 0.0
  {
    Boost(s, level, s.levelBoosts)
  }

  /** Stats + Stats: every number added (resistances uncapped); the left operand's flags kept. */
  function AddStats(s1: Stats, s2: Stats): Stats
  {
    Stats(s1.maxHealth + s2.maxHealth, s1.moveSpeed + s2.moveSpeed, s1.damage + s2.damage,
          s1.knockbackMultiplier + s2.knockbackMultiplier, AddResistances(s1.resistances, s2.resistances),
          s1.curseBoosts, s1.levelBoosts)
  }

  /** Stats * Stats: every number multiplied (resistances capped); the left operand's flags kept. */
  function MulStats(s1: Stats, s2: Stats): Stats
  {
    Stats(s1.maxHealth * s2.maxHealth, s1.moveSpeed * s2.moveSpeed, s1.damage * s2.damage,
          s1.knockbackMultiplier * s2.knockbackMultiplier, MulResistances(s1.resistances, s2.resistances),
          s1.curseBoosts, s1.levelBoosts)
  }

  /** Multiplying by the all-ones record leaves every field as it was except the
      resistances, which are capped at 1. */
  lemma MulByOnes(s: Stats)
    ensures MulStats(s, Ones) == s.(resistances := Capped(s.resistances))
    ensures ResistancesAtMostOne(s.resistances) ==> MulStats(s, Ones) == s
  {
  }

  /** BuffData.ModifierType with the buff's enemy modifier. */
  datatype BuffModifier = Additive(modifier: Stats) | Multiplicative(modifier: Stats)

  /** The additive modifiers added in buff order. */
  function AddAdditives(acc: Stats, buffs: seq<BuffModifier>): Stats
    decreases |buffs|
  {
    if buffs == [] then acc
    else AddAdditives(if buffs[0].Additive? then AddStats(acc, buffs[0].modifier) else acc, buffs[1..])
  }

  /** The multiplicative modifiers multiplied together in buff order. */
  function Multiplier(acc: Stats, buffs: seq<BuffModifier>): Stats
    decreases |buffs|
  {
    if buffs == [] then acc
    else Multiplier(if buffs[0].Multiplicative? then MulStats(acc, buffs[0].modifier) else acc, buffs[1..])
  }

  /** The accumulated multiplier never has a resistance above 1 when it starts that way,
      whatever the buffs. */
  lemma {:induction false} MultiplierResistancesCapped(acc: Stats, buffs: seq<BuffModifier>)
    requires ResistancesAtMostOne(acc.resistances)
    ensures ResistancesAtMostOne(Multiplier(acc, buffs).resistances)
    decreases |buffs|
  {
    if buffs != [] {
      MultiplierResistancesCapped(if buffs[0].Multiplicative? then MulStats(acc, buffs[0].modifier) else acc, buffs[1..]);
    }
  }

  /** The stats after the curse and level boosts. */
  function BoostedBase(base: Stats, curse: real, level: int): Stats
    requires curse >= 1.0 && level >= 1
  {
    LevelBoost(CurseBoost(base, curse), level as real)
  }

  /** The actual stats: ((base * curse) ^ level), plus the additive modifiers in order,
      times the product of the multiplicative ones. */
  function ActualStats(base: Stats, curse: real, level: int, buffs: seq<BuffModifier>): Stats
    requires curse >= 1.0 && level >= 1
  {
    MulStats(AddAdditives(BoostedBase(base, curse, level), buffs), Multiplier(Ones, buffs))
  }

  /** With no buffs the recomputation is the boosted base with its resistances capped. */
  lemma NoBuffsOnlyCaps(base: Stats, curse: real, level: int)
    requires curse >= 1.0 && level >= 1
    ensures ActualStats(base, curse, level, []) ==
      BoostedBase(base, curse, level).(resistances := Capped(BoostedBase(base, curse, level).resistances))
  {
    MulByOnes(BoostedBase(base, curse, level));
  }

  /** The resistances of recomputed stats are never above 1, whatever the buffs. */
  lemma ActualResistancesCapped(base: Stats, curse: real, level: int, buffs: seq<BuffModifier>)
    ensures curse >= 1.0 && level >= 1 ==> ResistancesAtMostOne(ActualStats(base, curse, level, buffs).resistances)
  {
  }

  /** The buff application of EnemyStats.ApplyBuff: a freeze is shrugged off when its roll
      is at most the freeze resistance, a debuff when its roll is at most the debuff
      resistance; otherwise the generic buff application decides (its result is an input). */
  function BuffApplies(isFreeze: bool, isDebuff: bool, freezeRoll: real, debuffRoll: real,
                       r: Resistances, delegated: bool): (applied: bool)
    ensures isFreeze && freezeRoll <= r.freeze ==> !applied
    ensures isDebuff && debuffRoll <= r.debuff ==> !applied
    ensures !isFreeze && !isDebuff ==> applied == delegated
    ensures (isFreeze ==> freezeRoll > r.freeze) && (isDebuff ==> debuffRoll > r.debuff) ==> applied == delegated
    ensures applied ==> delegated
  {
    if isFreeze && freezeRoll <= r.freeze then false
    else if isDebuff && debuffRoll <= r.debuff then false
    else delegated
  }

  /** Resistance 1 stops every roll in [0, 1]; a negative resistance stops none. */
  lemma ResistanceExtremes(isFreeze: bool, isDebuff: bool, freezeRoll: real, debuffRoll: real, r: Resistances)
    requires 0.0 <= freezeRoll <= 1.0 && 0.0 <= debuffRoll <= 1.0
    ensures isFreeze && r.freeze >= 1.0 ==> !BuffApplies(isFreeze, isDebuff, freezeRoll, debuffRoll, r, true)
    ensures r.freeze < 0.0 && r.debuff < 0.0 ==> BuffApplies(isFreeze, isDebuff, freezeRoll, debuffRoll, r, true)
  {
  }

  /** An insta-kill is a hit whose damage equals the maximum health exactly; it is dodged
      when the roll falls below the kill resistance. */
  predicate DodgesInstaKill(dmg: real, maxHealth: real, killResistance: real, roll: real)
  {
    dmg == maxHealth && roll < killResistance
  }

  /** Health after a hit as the source computes it: the damage is subtracted before the
      dodge roll, so a dodged insta-kill still costs its full damage. */
  function HealthAfterHitAsWritten(health: real, dmg: real, maxHealth: real, killResistance: real, roll: real): real
  {
    health - dmg
  }

  /** Health after a hit as the dodge is meant to work: a dodged insta-kill takes nothing. */
  function HealthAfterHit(health: real, dmg: real, maxHealth: real, killResistance: real, roll: real): (h: real)
    ensures DodgesInstaKill(dmg, maxHealth, killResistance, roll) ==> h == health
    ensures !DodgesInstaKill(dmg, maxHealth, killResistance, roll) ==> h == HealthAfterHitAsWritten(health, dmg, maxHealth, killResistance, roll)
  {
    if DodgesInstaKill(dmg, maxHealth, killResistance, roll) then health else health - dmg
  }

  /** The kill check of the hit as written: it is reached only when no insta-kill was
      dodged, and kills when the health after the hit is at or below zero. */
  predicate KillsAsWritten(health: real, dmg: real, maxHealth: real, killResistance: real, roll: real)
  {
    !DodgesInstaKill(dmg, maxHealth, killResistance, roll)
    && HealthAfterHitAsWritten(health, dmg, maxHealth, killResistance, roll) <= 0.0
  }

  /** The kill check as the dodge is meant to work: on the health after the intended hit. */
  predicate Kills(health: real, dmg: real, maxHealth: real, killResistance: real, roll: real)
  {
    HealthAfterHit(health, dmg, maxHealth, killResistance, roll) <= 0.0
  }

  /** Every dodged insta-kill, as written, takes the whole maximum health off the enemy and
      yet does not kill it, whereas the intended dodge keeps its health; with a positive
      maximum health the written hit leaves strictly less health than the intended one. */
  lemma DodgedInstaKillStillHurts(health: real, maxHealth: real, killResistance: real, roll: real)
    requires DodgesInstaKill(maxHealth, maxHealth, killResistance, roll)
    ensures HealthAfterHitAsWritten(health, maxHealth, maxHealth, killResistance, roll) == health - maxHealth
    ensures !KillsAsWritten(health, maxHealth, maxHealth, killResistance, roll)
    ensures HealthAfterHit(health, maxHealth, maxHealth, killResistance, roll) == health
    ensures maxHealth > 0.0 ==>
              HealthAfterHitAsWritten(health, maxHealth, maxHealth, killResistance, roll)
              < HealthAfterHit(health, maxHealth, maxHealth, killResistance, roll)
  {
  }

  /** The intended outcome of a hit on a living enemy: a dodge neither costs health nor
      kills; any other hit kills exactly when the damage reaches the remaining health; and
      the intended kill decision is the written one, so the two differ only in health. */
  lemma HitOutcomeAsIntended(health: real, dmg: real, maxHealth: real, killResistance: real, roll: real)
    requires health > 0.0
    ensures DodgesInstaKill(dmg, maxHealth, killResistance, roll) ==>
              HealthAfterHit(health, dmg, maxHealth, killResistance, roll) == health
              && !Kills(health, dmg, maxHealth, killResistance, roll)
    ensures !DodgesInstaKill(dmg, maxHealth, killResistance, roll) ==>
              (Kills(health, dmg, maxHealth, killResistance, roll) <==> dmg >= health)
    ensures Kills(health, dmg, maxHealth, killResistance, roll) <==> KillsAsWritten(health, dmg, maxHealth, killResistance, roll)
  {
  }

  /** EnemyStats.count: the number of live enemies; creation (Awake) raises it and
      destruction (OnDestroy) lowers it. */
  class EnemyCounter {
    var count: int

    constructor ()
      ensures count == 0
    {
      count := 0;
    }

    method Spawned()
      modifies this
      ensures count == old(count) + 1
    {
      count := count + 1;
    }

    method Destroyed()
      modifies this
      ensures count == old(count) - 1
    {
      count := count - 1;
    }
  }

  class Enemy {
    var health: real
    var baseStats: Stats
    var actual: Stats
    var buffs: seq<BuffModifier>
    /** Whether the drop table was switched on (Kill). */
    var dropsActive: bool
    /** Whether the death fade was started (Kill). */
    var dying: bool
    /** The number of damage flashes and floating damage numbers shown. */
    var flashes: nat

    /** Awake and Start: counted as live, stats recomputed, health full. */
    constructor (base: Stats, buffs: seq<BuffModifier>, curse: real, level: int, counter: EnemyCounter)
      requires curse >= 1.0 && level >= 1
      modifies counter
      ensures counter.count == old(counter.count) + 1
      ensures baseStats == base && this.buffs == buffs
      ensures actual == ActualStats(base, curse, level, buffs) && health == actual.maxHealth
      ensures !dropsActive && !dying && flashes == 0
    {
      counter.Spawned();
      baseStats := base;
      this.buffs := buffs;
      dropsActive := false;
      dying := false;
      flashes := 0;
      new;
      RecalculateStats(curse, level);
      health := actual.maxHealth;
    }

    /** EnemyStats.RecalculateStats: boosts the base by the cumulative curse and level, adds
        the additive modifiers in buff order while multiplying the multiplicative ones into
        a separate all-ones multiplier, and applies that multiplier last. */
    method RecalculateStats(curse: real, level: int)
      requires curse >= 1.0 && level >= 1
      modifies this`actual
      ensures actual == ActualStats(baseStats, curse, level, buffs)
    {
      actual := BoostedBase(baseStats, curse, level);
      var multiplier := Ones;
      var i := 0;
      while i < |buffs|
        invariant 0 <= i <= |buffs|
        invariant AddAdditives(actual, buffs[i..]) == AddAdditives(BoostedBase(baseStats, curse, level), buffs)
        invariant Multiplier(multiplier, buffs[i..]) == Multiplier(Ones, buffs)
      {
        assert buffs[i..][1..] == buffs[i + 1..];
        match buffs[i] {
          case Additive(m) => actual := AddStats(actual, m);
          case Multiplicative(m) => multiplier := MulStats(multiplier, m);
        }
        i := i + 1;
      }
      actual := MulStats(actual, multiplier);
    }

    /** EnemyStats.ApplyBuff with its two rolls and the generic application's result. */
    function ApplyBuff(isFreeze: bool, isDebuff: bool, freezeRoll: real, debuffRoll: real, delegated: bool): bool
      reads this
    {
      BuffApplies(isFreeze, isDebuff, freezeRoll, debuffRoll, actual.resistances, delegated)
    }

    /** EnemyStats.Kill: switches the drops on and starts the death fade. */
    method Kill()
      modifies this`dropsActive, this`dying
      ensures dropsActive && dying
    {
      dropsActive := true;
      dying := true;
    }

    /** EnemyStats.TakeDamage as written: the damage always comes off health; an insta-kill
        (damage equal to the maximum health) dodged by the roll then skips the flash and the
        kill check. Otherwise a positive hit flashes and health at or below zero kills. */
    method TakeDamage(dmg: real, roll: real) returns (dodged: bool)
      modifies this`health, this`dropsActive, this`dying, this`flashes
      ensures dodged == DodgesInstaKill(dmg, actual.maxHealth, actual.resistances.kill, roll)
      ensures health == HealthAfterHitAsWritten(old(health), dmg, actual.maxHealth, actual.resistances.kill, roll)
      ensures dodged ==> flashes == old(flashes) && dropsActive == old(dropsActive) && dying == old(dying)
      ensures !dodged ==> flashes == old(flashes) + (if dmg > 0.0 then 1 else 0)
      ensures !dodged && health <= 0.0 ==> dropsActive && dying
      ensures KillsAsWritten(old(health), dmg, actual.maxHealth, actual.resistances.kill, roll) ==> dropsActive && dying
      ensures health > 0.0 ==> dropsActive == old(dropsActive) && dying == old(dying)
    {
      health := health - dmg;
      dodged := false;
      if dmg == actual.maxHealth {
        if roll < actual.resistances.kill {
          dodged := true;
          return;
        }
      }
      if dmg > 0.0 {
        flashes := flashes + 1;
      }
      if health <= 0.0 {
        Kill();
      }
    }

    /** EnemyStats.RestoreHealth: clamped healing. */
    method RestoreHealth(amount: real)
      modifies this`health
      ensures health == Restored(old(health), actual.maxHealth, amount)
    {
      if health < actual.maxHealth {
        health := health + amount;
        if health > actual.maxHealth {
          health := actual.maxHealth;
        }
      }
    }
  }
}
