/** Account-wide meta-progression: the persisted save record (coins and one level per
    upgrade category), the linear price list, per-category caps, purchasing, and the
    stat bonus the levels add to a character at the start of a run. */
module MetaUpgrades {

  /** MetaUpgradeManager.UpgradeType; each category raises the character stat of the same name. */
  datatype UpgradeType =
    MaxHealth | Recovery | Armor | MoveSpeed | Might | Area | Speed | Duration |
    Amount | Cooldown | Luck | Growth | Greed | Curse | Magnet | Revival

  const BaseCost: int := 100
  const CostPerLevel: int := 200

  /** The stat gained per level of each category (the *_PER_LEVEL constants). */
  function PerLevel(t: UpgradeType): real
  {
    match t
    case MaxHealth => 10.0
    case Recovery => 0.2
    case Armor => 0.1
    case MoveSpeed => 0.1
    case Might => 0.5
    case Area => 0.1
    case Speed => 0.1
    case Duration => 0.1
    case Amount => 1.0
    case Cooldown => 0.1
    case Luck => 0.1
    case Growth => 0.1
    case Greed => 0.1
    case Curse => 0.1
    case Magnet => 0.5
    case Revival => 1.0
  }

  /** MetaUpgradeManager.GetMaxLevel: the cap of each category. */
  function GetMaxLevel(t: UpgradeType): (m: int)
    ensures 1 <= m <= 15
    ensures t == MaxHealth ==> m == 15
    ensures t == Recovery ==> m == 5
    ensures t == Magnet ==> m == 3
    ensures t == Revival ==> m == 1
    ensures t !in {MaxHealth, Recovery, Magnet, Revival} ==> m == 10
  {
    match t
    case MaxHealth => 15
    case Recovery => 5
    case Magnet => 3
    case Revival => 1
    case _ => 10
  }

  /** The persisted record SaveManager.GameData as a value: coins and one level per category. */
  datatype SaveState = SaveState(coins: real, levels: map<UpgradeType, int>)
  {
    ghost predicate Complete() { forall t: UpgradeType :: t in levels }
    function Level(t: UpgradeType): int { if t in levels then levels[t] else 0 }
  }

  /** Every category is at or below its cap. */
  ghost predicate WithinCaps(s: SaveState)
  {
    forall t: UpgradeType :: s.Level(t) <= GetMaxLevel(t)
  }

  /** MetaUpgradeManager.GetNextLevelCost: 100 coins plus 200 per level already owned. */
  function NextLevelCost(s: SaveState, t: UpgradeType): int
  {
    BaseCost + s.Level(t) * CostPerLevel
  }

  /** Each further level costs strictly more than the one before it. */
  lemma CostStrictlyIncreases(s: SaveState, t: UpgradeType)
    ensures NextLevelCost(s.(levels := s.levels[t := s.Level(t) + 1]), t) == NextLevelCost(s, t) + CostPerLevel
    ensures NextLevelCost(s.(levels := s.levels[t := s.Level(t) + 1]), t) > NextLevelCost(s, t)
  {
  }

  /** MetaUpgradeManager.GetUpgradeValue: level times the category's per-level gain. */
  function UpgradeValue(s: SaveState, t: UpgradeType): real
  {
    s.Level(t) as real * PerLevel(t)
  }

  /** MetaUpgradeManager.TryPurchaseUpgrade on values: refused at the cap or when the coins
      do not cover the price; otherwise the price is paid and that one level rises. */
  function Purchase(s: SaveState, t: UpgradeType): (SaveState, bool)
  {
    var cost := NextLevelCost(s, t);
    if s.Level(t) >= GetMaxLevel(t) then (s, false)
    else if s.coins < cost as real then (s, false)
    else (SaveState(s.coins - cost as real, s.levels[t := s.Level(t) + 1]), true)
  }

  /** A purchase is refused exactly at the cap or when the coins do not cover the price,
      and a refused one changes nothing. One that goes through pays the price without going
      into debt and raises that one category by a level, never past its cap, leaving the
      others alone. */
  lemma PurchaseFacts(s: SaveState, t: UpgradeType)
    ensures var r := Purchase(s, t);
      (!r.1 <==> s.Level(t) >= GetMaxLevel(t) || s.coins < NextLevelCost(s, t) as real)
      && (!r.1 ==> r.0 == s)
      && (r.1 ==> r.0.coins == s.coins - NextLevelCost(s, t) as real && r.0.coins >= 0.0)
      && (r.1 ==> r.0.Level(t) == s.Level(t) + 1 && r.0.Level(t) <= GetMaxLevel(t))
      && (r.1 ==> forall u :: u != t ==> r.0.Level(u) == s.Level(u))
      && (s.Complete() ==> r.0.Complete())
  {
  }

  /** The record after trying each purchase in turn. */
  function PurchaseAll(s: SaveState, ts: seq<UpgradeType>): SaveState
    decreases |ts|
  {
    if ts == [] then s else PurchaseAll(Purchase(s, ts[0]).0, ts[1..])
  }

  /** Whatever the shopper tries, no category passes its cap and the coins never go
      negative (provided the record started that way). */
  lemma {:induction false} PurchasesKeepInvariants(s: SaveState, ts: seq<UpgradeType>)
    requires WithinCaps(s) && s.coins >= 0.0
    ensures WithinCaps(PurchaseAll(s, ts)) && PurchaseAll(s, ts).coins >= 0.0
    decreases |ts|
  {
    if ts != [] {
      var s' := Purchase(s, ts[0]).0;
      PurchaseFacts(s, ts[0]);
      assert WithinCaps(s') by {
        forall u: UpgradeType ensures s'.Level(u) <= GetMaxLevel(u) {
          if Purchase(s, ts[0]).1 && u == ts[0] {
          } else {
            assert s'.Level(u) == s.Level(u);
          }
        }
      }
      PurchasesKeepInvariants(s', ts[1..]);
    }
  }

  /** How many of the attempted purchases go through. */
  function Successes(s: SaveState, ts: seq<UpgradeType>): nat
    decreases |ts|
  {
    if ts == [] then 0
    else (if Purchase(s, ts[0]).1 then 1 else 0) + Successes(Purchase(s, ts[0]).0, ts[1..])
  }

  /** Levels never fall through purchasing, and every purchase that goes through costs
      at least the base price: the coins fall by at least 100 per level bought. */
  lemma {:induction false} PurchasesOnlyRaise(s: SaveState, ts: seq<UpgradeType>)
    requires forall t: UpgradeType :: s.Level(t) >= 0
    ensures forall t: UpgradeType :: PurchaseAll(s, ts).Level(t) >= s.Level(t)
    ensures PurchaseAll(s, ts).coins <= s.coins - (BaseCost * Successes(s, ts)) as real
    decreases |ts|
  {
    if ts != [] {
      var s' := Purchase(s, ts[0]).0;
      PurchaseFacts(s, ts[0]);
      assert forall t: UpgradeType :: s'.Level(t) >= s.Level(t) >= 0;
      PurchasesOnlyRaise(s', ts[1..]);
    }
  }

  /** MetaUpgradeManager.GetMetaStats: the stat bonus of the stored levels. A category
      contributes its level times its per-level gain when its level is positive, else nothing. */
  function MetaStats(s: SaveState): (bonus: map<UpgradeType, real>)
  {
    map t: UpgradeType | true :: if s.Level(t) > 0 then s.Level(t) as real * PerLevel(t) else 0.0
  }

  /** The bonus of each category is its upgrade value when the level is positive and zero
      otherwise; with no negative levels the two always agree. */
  lemma MetaStatsMatchUpgradeValue(s: SaveState, t: UpgradeType)
    ensures t in MetaStats(s)
    ensures s.Level(t) > 0 ==> MetaStats(s)[t] == UpgradeValue(s, t) && MetaStats(s)[t] > 0.0
    ensures s.Level(t) <= 0 ==> MetaStats(s)[t] == 0.0
    ensures s.Level(t) >= 0 ==> MetaStats(s)[t] == UpgradeValue(s, t)
  {
  }

  /** A fresh save (no levels) gives no bonus at all. */
  lemma FreshSaveGivesNoBonus(coins: real)
    ensures forall t: UpgradeType :: MetaStats(SaveState(coins, map[]))[t] == 0.0
  {
  }

  /** SaveManager.GameData: the persisted record, updated in place. */
  class GameData {
    var coins: real
    var levels: map<UpgradeType, int>

    constructor ()
      ensures coins == 0.0 && levels == map[]
    {
      coins := 0.0;
      levels := map[];
    }

    function State(): SaveState
      reads this
    {
      SaveState(coins, levels)
    }

    /** MetaUpgradeManager.GetLevel. */
    function GetLevel(t: UpgradeType): int
      reads this
    {
      State().Level(t)
    }

    /** MetaUpgradeManager.GetNextLevelCost. */
    function GetNextLevelCost(t: UpgradeType): (cost: int)
      reads this
      ensures GetLevel(t) >= 0 ==> cost >= BaseCost
    {
      NextLevelCost(State(), t)
    }

    /** MetaUpgradeManager.GetUpgradeValue. */
    function GetUpgradeValue(t: UpgradeType): real
      reads this
    {
      UpgradeValue(State(), t)
    }

    /** MetaUpgradeManager.GetMetaStats. */
    function GetMetaStats(): map<UpgradeType, real>
      reads this
    {
      MetaStats(State())
    }

    /** MetaUpgradeManager.TryPurchaseUpgrade (writing the file afterwards is not modelled). */
    method TryPurchaseUpgrade(t: UpgradeType) returns (ok: bool)
      modifies this
      ensures (State(), ok) == Purchase(old(State()), t)
      ensures !ok ==> coins == old(coins) && levels == old(levels)
      ensures ok ==> coins == old(coins) - old(GetNextLevelCost(t)) as real
    {
      ghost var s := State();
      var cost := GetNextLevelCost(t);
      if GetLevel(t) >= GetMaxLevel(t) {
        assert Purchase(s, t) == (s, false);
        return false;
      }
      if coins < cost as real {
        assert Purchase(s, t) == (s, false);
        return false;
      }
      var level := GetLevel(t);
      ghost var s' := SaveState(s.coins - cost as real, s.levels[t := s.Level(t) + 1]);
      assert Purchase(s, t) == (s', true);
      coins := coins - cost as real;
      levels := levels[t := level + 1];
      assert State() == s';
      return true;
    }
  }
}
