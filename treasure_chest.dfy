/** A treasure chest (TreasureChest): choosing a drop profile, sequentially by the number of
    chests already picked up or by a luck-weighted roll; the number of rewards; the reward
    actions (evolve, upgrade or give an item); the per-reward retry loop; and the pickup that
    opens the chest and advances the shared pickup counter. */
module TreasureChest {
  import opened Common
  import opened PlayerInventory

  /** TreasureChestDropProfile, reduced to what the chest reads. */
  datatype DropProfile = DropProfile(baseDropChance: real, luckScaling: real, noOfItems: int)

  datatype DropCountType = Sequential | RandomCount

  /** The flags of `possibleDrops`. */
  datatype DropType = NewPassive | NewWeapon | UpgradePassive | UpgradeWeapon | Evolution

  /** The reward actions Open may try. */
  datatype Action = TryEvolveWeapon | TryUpgradeWeapon | TryUpgradePassive | TryGiveWeapon | TryGivePassive

  /** The flag that allows an action. */
  function FlagOf(a: Action): DropType
  {
    match a
    case TryEvolveWeapon => Evolution
    case TryUpgradeWeapon => UpgradeWeapon
    case TryUpgradePassive => UpgradePassive
    case TryGiveWeapon => NewWeapon
    case TryGivePassive => NewPassive
  }

  /** The action list Open builds from the flags, in its fixed order: evolve, upgrade
      weapon, upgrade passive, new weapon, new passive. Each allowed action appears once. */
  function BaseActions(drops: set<DropType>): (r: seq<Action>)
    ensures forall a :: a in r <==> FlagOf(a) in drops
    ensures forall i, j :: 0 <= i < j < |r| ==> r[i] != r[j]
  {
    (if Evolution in drops then [TryEvolveWeapon] else [])
    + (if UpgradeWeapon in drops then [TryUpgradeWeapon] else [])
    + (if UpgradePassive in drops then [TryUpgradePassive] else [])
    + (if NewWeapon in drops then [TryGiveWeapon] else [])
    + (if NewPassive in drops then [TryGivePassive] else [])
  }

  /** Open falls back to the default sprite exactly when no drop type is allowed. */
  lemma NoActionsIffNoFlags(drops: set<DropType>)
    ensures BaseActions(drops) == [] <==> drops == {}
  {
    if drops != {} {
      var d :| d in drops;
      var a := match d
        case Evolution => TryEvolveWeapon
        case UpgradeWeapon => TryUpgradeWeapon
        case UpgradePassive => TryUpgradePassive
        case NewWeapon => TryGiveWeapon
        case NewPassive => TryGivePassive;
      assert a in BaseActions(drops);
    }
  }

  /** Mathf.Clamp on ints. */
  function Clamp(v: int, lo: int, hi: int): (r: int)
    requires lo <= hi
    ensures lo <= r <= hi
    ensures lo <= v <= hi ==> r == v
    ensures v < lo ==> r == lo
    ensures v > hi ==> r == hi
  {
    if v < lo then lo else if v > hi then hi else v
  }

  /** A profile's weight for a player's luck. */
  function Weight(p: DropProfile, luck: real): real
  {
    p.baseDropChance * (1.0 + p.luckScaling * (luck - 1.0))
  }

  /** The weights in the order the sort put the profiles in. */
  function SortedWeights(profiles: seq<DropProfile>, luck: real, order: seq<nat>): (ws: seq<real>)
    requires forall k :: 0 <= k < |order| ==> order[k] < |profiles|
    ensures |ws| == |order|
    ensures forall k :: 0 <= k < |order| ==> ws[k] == Weight(profiles[order[k]], luck)
  {
    seq(|order|, k requires 0 <= k < |order| => Weight(profiles[order[k]], luck))
  }

  /** What List.Sort hands back: every profile index once, in ascending weight. The sort is
      unstable, so among equal weights the order is not fixed, and it is an input here. */
  ghost predicate AscendingOrder(profiles: seq<DropProfile>, luck: real, order: seq<nat>)
  {
    |order| == |profiles|
    && (forall k :: 0 <= k < |order| ==> order[k] < |profiles|)
    && (forall i, j :: 0 <= i < j < |order| ==> order[i] != order[j])
    && (forall i, j :: 0 <= i < j < |order| ==> Weight(profiles[order[i]], luck) <= Weight(profiles[order[j]], luck))
  }

  /** The cumulative scan from position k: the first position whose running total exceeds
      the roll. */
  function PickFrom(ws: seq<real>, r: real, k: nat): (p: Option<nat>)
    requires k <= |ws|
    ensures p.Some? ==> k <= p.value < |ws| && r < SumReals(ws[..p.value + 1])
    ensures p.Some? ==> forall n :: k < n <= p.value ==> r >= SumReals(ws[..n])
    ensures p.None? ==> forall n :: k < n <= |ws| ==> r >= SumReals(ws[..n])
    decreases |ws| - k
  {
    if k == |ws| then None
    else if r < SumReals(ws[..k + 1]) then Some(k)
    else PickFrom(ws, r, k + 1)
  }

  function Pick(ws: seq<real>, r: real): Option<nat>
  {
    PickFrom(ws, r, 0)
  }

  /** A roll below the total weight always picks something. */
  lemma {:induction false} PickBelowTotal(ws: seq<real>, r: real, k: nat)
    requires k < |ws|
    ensures r < SumReals(ws) ==> PickFrom(ws, r, k).Some?
    decreases |ws| - k
  {
    if r >= SumReals(ws[..k + 1]) {
      if k + 1 < |ws| {
        PickBelowTotal(ws, r, k + 1);
      } else {
        assert ws[..k + 1] == ws;
      }
    }
  }

  /** A non-negative roll picks a position whose interval [total before, total through]
      contains it, so that position has a positive weight: a profile of weight 0 is never
      chosen. */
  lemma PickedIntervalHoldsRoll(ws: seq<real>, r: real)
    requires r >= 0.0 && Pick(ws, r).Some?
    ensures var k := Pick(ws, r).value;
            SumReals(ws[..k]) <= r < SumReals(ws[..k + 1]) && ws[k] > 0.0
  {
    var k := Pick(ws, r).value;
    assert ws[..k + 1][..k] == ws[..k];
    if k > 0 {
      assert r >= SumReals(ws[..k]);
    }
  }

  /** Random.Range(0, total) on floats, for the underlying draw u in [0, 1]. */
  function RangeRoll(u: real, total: real): (r: real)
    requires 0.0 <= u <= 1.0
    ensures total >= 0.0 ==> 0.0 <= r <= total
  {
    u * total
  }

  /** The random branch of GetNextDropProfile over the sorted weights: the total weight, a
      roll in [0, total], and the cumulative scan for the first running total above it. */
  method WeightedPick(ws: seq<real>, dice: Dice) returns (k: Option<nat>)
    modifies dice
    ensures k == Pick(ws, RangeRoll(dice.FractionAt(old(dice.next)), SumReals(ws)))
    ensures dice.next == old(dice.next) + 1
  {
    var totalWeight := TotalWeight(ws);
    var u := dice.Value();
    k := CumulativeScan(ws, RangeRoll(u, totalWeight));
  }

  /** The total-weight loop of the weighted pick. */
  method TotalWeight(ws: seq<real>) returns (totalWeight: real)
    ensures totalWeight == SumReals(ws)
  {
    totalWeight := 0.0;
    var i := 0;
    while i < |ws|
      invariant 0 <= i <= |ws|
      invariant totalWeight == SumReals(ws[..i])
    {
      assert ws[..i + 1][..i] == ws[..i];
      totalWeight := totalWeight + ws[i];
      i := i + 1;
    }
    assert ws[..i] == ws;
  }

  /** The cumulative loop of the weighted pick: the first position whose running total
      exceeds the roll. */
  method CumulativeScan(ws: seq<real>, r: real) returns (k: Option<nat>)
    ensures k == Pick(ws, r)
  {
    var cumulative := 0.0;
    var i := 0;
    while i < |ws|
      invariant 0 <= i <= |ws|
      invariant cumulative == SumReals(ws[..i])
      invariant Pick(ws, r) == PickFrom(ws, r, i)
    {
      assert ws[..i + 1][..i] == ws[..i];
      cumulative := cumulative + ws[i];
      if r < cumulative {
        return Some(i);
      }
      i := i + 1;
    }
    return None;
  }

  /** The static pickup counter shared by every chest. */
  class PickupTally {
    var totalPickups: int

    constructor ()
      ensures totalPickups == 0
    {
      totalPickups := 0;
    }
  }

  /** The success condition of each reward action for an inventory's slots and pools. */
  predicate Possible(a: Action, s: Stock, canEvolve: Item -> bool)
  {
    match a
    case TryEvolveWeapon => Selected(s.weaponSlots, canEvolve) != []
    case TryUpgradeWeapon => Selected(s.weaponSlots, ItemCanLevelUp) != []
    case TryUpgradePassive => Selected(s.passiveSlots, ItemCanLevelUp) != []
    case TryGiveWeapon => CountEmpty(s.weaponSlots) > 0 && Unowned(s.availableWeapons, s.weaponSlots) != []
    case TryGivePassive => CountEmpty(s.passiveSlots) > 0 && Unowned(s.availablePassives, s.passiveSlots) != []
  }

  /** Taking the element at `pick` out of a list leaves the rest of its multiset. */
  lemma RemoveAtMultiset(c: seq<Action>, pick: nat)
    requires pick < |c|
    ensures multiset(c[..pick] + c[pick + 1..]) + multiset{c[pick]} == multiset(c)
  {
    assert c == c[..pick] + [c[pick]] + c[pick + 1..];
  }

  /** TryEvolve<Weapon>: the first evolvable weapon. `canEvolve` says which items have an
      evolution whose attempt succeeds; the evolution itself is not part of this model. */
  method TryEvolve(inv: Inventory, canEvolve: Item -> bool) returns (r: Option<Item>)
    ensures r.None? <==> Selected(inv.weaponSlots, canEvolve) == []
    ensures r.Some? ==> Some(r.value) in inv.weaponSlots && canEvolve(r.value)
  {
    var evolvables := inv.GetEvolvables(Weapons, canEvolve);
    if |evolvables| == 0 {
      return None;
    }
    return Some(evolvables[0]);
  }

  /** TryUpgrade<T>: levels up a random item of the category that can still level up;
      none means nothing happens. */
  method TryUpgrade(inv: Inventory, c: Category, dice: Dice) returns (r: Option<Item>)
    requires inv.Valid() && c != Items
    modifies inv`weaponSlots, inv`passiveSlots, inv`recalculations, inv.gm, dice
    ensures inv.Valid()
    ensures r.None? <==> Selected(old(inv.SlotsOf(c)), ItemCanLevelUp) == []
    ensures r.None? ==> unchanged(inv) && unchanged(inv.gm)
    ensures r.Some? ==> Some(r.value) in old(inv.SlotsOf(c)) && ItemCanLevelUp(r.value)
    ensures r.Some? ==> inv.SlotsOf(c) == LevelledFirst(old(inv.SlotsOf(c)), r.value.data)
    ensures c == Weapons ==> inv.passiveSlots == old(inv.passiveSlots)
    ensures c == Passives ==> inv.weaponSlots == old(inv.weaponSlots)
  {
    var upgradables := inv.GetUpgradables(c);
    if |upgradables| == 0 {
      assert Selected(inv.SlotsOf(c), ItemCanLevelUp) == [];
      return None;
    }
    var k := dice.Range(|upgradables|);
    var t := upgradables[k];
    ghost var s := inv.SlotsOf(c);
    assert inv.SlotsFor(t.data.kind) == s by {
      var j :| 0 <= j < |s| && s[j] == Some(t);
    }
    var levelled := inv.LevelUp(t.data);
    return Some(t);
  }

  /** TryGive<T>: adds a random unowned item of the category, provided the category has a
      free slot and something is unowned; otherwise nothing happens. */
  method TryGive(inv: Inventory, c: Category, dice: Dice) returns (r: Option<ItemData>)
    requires inv.Valid() && c != Items
    modifies inv`weaponSlots, inv`passiveSlots, inv`recalculations, inv.gm, dice
    ensures inv.Valid()
    ensures r.None? <==> CountEmpty(old(inv.SlotsOf(c))) == 0 || Unowned(old(inv.AvailableOf(c)), old(inv.SlotsOf(c))) == []
    ensures r.None? ==> unchanged(inv) && unchanged(inv.gm)
    ensures r.Some? ==> r.value in Unowned(old(inv.AvailableOf(c)), old(inv.SlotsOf(c)))
    ensures r.Some? && (c == Passives || r.value.behaviourResolves) ==>
              FirstEmpty(old(inv.SlotsOf(c))).Some? &&
              inv.SlotsOf(c) == old(inv.SlotsOf(c))[FirstEmpty(old(inv.SlotsOf(c))).value := Some(Item(r.value, 1))]
  {
    var left := Inventory.GetSlotsLeft(inv.SlotsOf(c));
    if left <= 0 {
      return None;
    }
    var possibilities := inv.GetUnowned(c);
    if |possibilities| == 0 {
      return None;
    }
    var k := dice.Range(|possibilities|);
    var t := possibilities[k];
    assert t in multiset(possibilities);
    assert t in inv.AvailableOf(c);
    var added := inv.Add(t);
    return Some(t);
  }

  /** One reward action, reporting success. A failed action changes nothing. */
  method Perform(a: Action, inv: Inventory, dice: Dice, canEvolve: Item -> bool) returns (ok: bool)
    requires inv.Valid()
    modifies inv`weaponSlots, inv`passiveSlots, inv`recalculations, inv.gm, dice
    ensures inv.Valid()
    ensures ok == Possible(a, old(inv.Snapshot()), canEvolve)
    ensures !ok ==> unchanged(inv) && unchanged(inv.gm)
  {
    match a {
      case TryEvolveWeapon =>
        var r := TryEvolve(inv, canEvolve);
        ok := r.Some?;
      case TryUpgradeWeapon =>
        var r := TryUpgrade(inv, Weapons, dice);
        ok := r.Some?;
      case TryUpgradePassive =>
        var r := TryUpgrade(inv, Passives, dice);
        ok := r.Some?;
      case TryGiveWeapon =>
        var r := TryGive(inv, Weapons, dice);
        ok := r.Some?;
      case TryGivePassive =>
        var r := TryGive(inv, Passives, dice);
        ok := r.Some?;
    }
  }

  /** One reward slot of Open: random actions are tried, each failed one is dropped from
      the candidates, and the first success ends the slot. Every action is tried at most
      once; the slot fails only after all were tried, and then none of them was possible. */
  method OpenSlot(base: seq<Action>, inv: Inventory, dice: Dice, canEvolve: Item -> bool) returns (ok: bool, tried: seq<Action>)
    requires inv.Valid()
    modifies inv`weaponSlots, inv`passiveSlots, inv`recalculations, inv.gm, dice
    ensures inv.Valid()
    ensures multiset(tried) <= multiset(base)
    ensures ok ==> |tried| > 0 && Possible(tried[|tried| - 1], old(inv.Snapshot()), canEvolve)
    ensures ok ==> forall i :: 0 <= i < |tried| - 1 ==> !Possible(tried[i], old(inv.Snapshot()), canEvolve)
    ensures !ok ==> multiset(tried) == multiset(base)
    ensures !ok ==> forall a :: a in base ==> !Possible(a, old(inv.Snapshot()), canEvolve)
    ensures !ok ==> unchanged(inv) && unchanged(inv.gm)
  {
    ghost var stock := inv.Snapshot();
    var candidates := base;
    tried := [];
    ok := false;
    while |candidates| > 0
      invariant inv.Valid()
      invariant multiset(candidates) + multiset(tried) == multiset(base)
      invariant unchanged(inv) && unchanged(inv.gm)
      invariant inv.Snapshot() == stock
      invariant forall i :: 0 <= i < |tried| ==> !Possible(tried[i], stock, canEvolve)
      decreases |candidates|
    {
      var pick := dice.Range(|candidates|);
      var action := candidates[pick];
      var succeeded := Perform(action, inv, dice, canEvolve);
      RemoveAtMultiset(candidates, pick);
      ghost var before := tried;
      tried := tried + [action];
      assert multiset(tried) == multiset(before) + multiset{action};
      if succeeded {
        assert Possible(action, stock, canEvolve);
        assert forall i :: 0 <= i < |tried| - 1 ==> tried[i] == before[i];
        ok := true;
        return;
      }
      candidates := candidates[..pick] + candidates[pick + 1..];
    }
    assert multiset(candidates) == multiset{};
    NoneTriedNonePossible(base, tried, stock, canEvolve);
  }

  /** When every action was tried and none was possible, no action of the list is. */
  lemma NoneTriedNonePossible(base: seq<Action>, tried: seq<Action>, stock: Stock, canEvolve: Item -> bool)
    requires multiset(tried) == multiset(base)
    requires forall i :: 0 <= i < |tried| ==> !Possible(tried[i], stock, canEvolve)
    ensures forall a :: a in base ==> !Possible(a, stock, canEvolve)
  {
    forall a | a in base
      ensures !Possible(a, stock, canEvolve)
    {
      assert a in multiset(base);
      assert a in multiset(tried);
    }
  }

  class Chest {
    const possibleDrops: set<DropType>
    const dropCountType: DropCountType
    const dropProfiles: seq<DropProfile>
    var currentDropProfileIndex: int
    const tally: PickupTally
    /** How many times the default sprite was shown for a reward that could not be given. */
    var defaultsShown: nat
    /** gameObject.activeSelf. */
    var active: bool

    ghost predicate Valid()
      reads this, tally
    {
      0 <= currentDropProfileIndex
      && (|dropProfiles| > 0 ==> currentDropProfileIndex < |dropProfiles|)
      && tally.totalPickups >= 0
    }

    constructor (possibleDrops: set<DropType>, dropCountType: DropCountType, dropProfiles: seq<DropProfile>, tally: PickupTally)
      requires tally.totalPickups >= 0
      ensures Valid()
      ensures this.possibleDrops == possibleDrops && this.dropCountType == dropCountType
      ensures this.dropProfiles == dropProfiles && this.tally == tally
      ensures currentDropProfileIndex == 0 && defaultsShown == 0 && active
    {
      this.possibleDrops := possibleDrops;
      this.dropCountType := dropCountType;
      this.dropProfiles := dropProfiles;
      this.tally := tally;
      currentDropProfileIndex := 0;
      defaultsShown := 0;
      active := true;
    }

    /** The profile index sequential mode selects. */
    function SequentialIndex(totalPickups: int): (i: int)
      requires |dropProfiles| > 0
      ensures 0 <= i < |dropProfiles|
      ensures 0 <= totalPickups < |dropProfiles| ==> i == totalPickups
    {
      Clamp(totalPickups, 0, |dropProfiles| - 1)
    }

    /** The reward count in sequential mode for a given pickup total. */
    function SequentialRewardCount(totalPickups: int): int
    {
      if |dropProfiles| == 0 then 1 else dropProfiles[SequentialIndex(totalPickups)].noOfItems
    }

    /** GetNextDropProfile: none without profiles. Sequential mode clamps the pickup count
        into the profile range. Random mode weighs each profile by luck, sorts ascending,
        rolls in [0, total weight] and takes the first profile whose running total exceeds
        the roll; if none does, the current profile is kept. */
    method GetNextDropProfile(luck: real, order: seq<nat>, dice: Dice) returns (p: Option<DropProfile>)
      requires Valid()
      requires dropCountType == RandomCount ==> AscendingOrder(dropProfiles, luck, order)
      modifies this`currentDropProfileIndex, dice
      ensures Valid()
      ensures |dropProfiles| == 0 ==> p.None? && currentDropProfileIndex == old(currentDropProfileIndex) && dice.next == old(dice.next)
      ensures |dropProfiles| > 0 ==> p == Some(dropProfiles[currentDropProfileIndex])
      ensures |dropProfiles| > 0 && dropCountType == Sequential ==>
                currentDropProfileIndex == SequentialIndex(tally.totalPickups) && dice.next == old(dice.next)
      ensures |dropProfiles| > 0 && dropCountType == RandomCount ==>
                var ws := SortedWeights(dropProfiles, luck, order);
                var r := RangeRoll(dice.FractionAt(old(dice.next)), SumReals(ws));
                dice.next == old(dice.next) + 1 &&
                currentDropProfileIndex == match Pick(ws, r)
                                           case Some(k) => order[k]
                                           case None => old(currentDropProfileIndex)
    {
      if |dropProfiles| == 0 {
        return None;
      }
      match dropCountType {
        case Sequential =>
          currentDropProfileIndex := Clamp(tally.totalPickups, 0, |dropProfiles| - 1);
        case RandomCount =>
          var ws := SortedWeights(dropProfiles, luck, order);
          var k := WeightedPick(ws, dice);
          if k.Some? {
            currentDropProfileIndex := order[k.value];
            return Some(dropProfiles[order[k.value]]);
          }
      }
      return Some(dropProfiles[currentDropProfileIndex]);
    }

    /** GetRewardCount: the chosen profile's item count, 1 without profiles. */
    method GetRewardCount(luck: real, order: seq<nat>, dice: Dice) returns (count: int)
      requires Valid()
      requires dropCountType == RandomCount ==> AscendingOrder(dropProfiles, luck, order)
      modifies this`currentDropProfileIndex, dice
      ensures Valid()
      ensures |dropProfiles| == 0 ==> count == 1
      ensures |dropProfiles| > 0 ==> count == dropProfiles[currentDropProfileIndex].noOfItems
      ensures dropCountType == Sequential ==> count == SequentialRewardCount(tally.totalPickups)
    {
      var p := GetNextDropProfile(luck, order, dice);
      if p.Some? {
        return p.value.noOfItems;
      }
      return 1;
    }

    /** Open: with no allowed action the default sprite is shown once and nothing is given.
        Otherwise the reward count is drawn and each reward slot runs the retry loop; a slot
        where nothing could be given shows the default sprite. */
    method Open(inv: Inventory, luck: real, order: seq<nat>, dice: Dice, canEvolve: Item -> bool)
      returns (rewardCount: int, granted: nat)
      requires Valid() && inv.Valid()
      requires dropCountType == RandomCount ==> AscendingOrder(dropProfiles, luck, order)
      modifies this`currentDropProfileIndex, this`defaultsShown, inv`weaponSlots, inv`passiveSlots, inv`recalculations, inv.gm, dice
      ensures Valid() && inv.Valid()
      ensures possibleDrops == {} ==>
                rewardCount == 0 && granted == 0 && defaultsShown == old(defaultsShown) + 1 && unchanged(inv) && unchanged(inv.gm)
      ensures possibleDrops != {} ==>
                granted + (defaultsShown - old(defaultsShown)) == (if rewardCount > 0 then rewardCount else 0)
      ensures possibleDrops != {} && dropCountType == Sequential ==> rewardCount == SequentialRewardCount(tally.totalPickups)
      ensures defaultsShown >= old(defaultsShown)
    {
      var base := BaseActions(possibleDrops);
      NoActionsIffNoFlags(possibleDrops);
      if |base| == 0 {
        defaultsShown := defaultsShown + 1;
        return 0, 0;
      }
      rewardCount := GetRewardCount(luck, order, dice);
      granted := 0;
      var slot := 0;
      while slot < rewardCount
        invariant Valid() && inv.Valid()
        invariant 0 <= slot && (rewardCount > 0 ==> slot <= rewardCount) && (rewardCount <= 0 ==> slot == 0)
        invariant granted + (defaultsShown - old(defaultsShown)) == slot
        invariant defaultsShown >= old(defaultsShown)
      {
        var slotSucceeded, tried := OpenSlot(base, inv, dice, canEvolve);
        if slotSucceeded {
          granted := granted + 1;
        } else {
          defaultsShown := defaultsShown + 1;
        }
        slot := slot + 1;
      }
    }

    /** OnTriggerEnter2D: the chest draws a reward count and opens that many times (each
        Open drawing its own reward count again), deactivates, and advances the shared
        pickup counter, wrapping past the number of profiles. In sequential mode with some
        allowed action this runs count × count reward slots. */
    method PickUp(inv: Inventory, luck: real, order: seq<nat>, dice: Dice, canEvolve: Item -> bool)
      returns (opens: nat, slotsRun: int)
      requires Valid() && inv.Valid()
      requires dropCountType == RandomCount ==> AscendingOrder(dropProfiles, luck, order)
      modifies this`currentDropProfileIndex, this`defaultsShown, this`active, tally
      modifies inv`weaponSlots, inv`passiveSlots, inv`recalculations, inv.gm, dice
      ensures Valid() && inv.Valid()
      ensures !active
      ensures tally.totalPickups == (old(tally.totalPickups) + 1) % (|dropProfiles| + 1)
      ensures 0 <= tally.totalPickups <= |dropProfiles|
      ensures dropCountType == Sequential && possibleDrops != {} ==>
                var c := SequentialRewardCount(old(tally.totalPickups));
                opens == (if c > 0 then c else 0) && slotsRun == opens * opens
    {
      var rewardCount := GetRewardCount(luck, order, dice);
      opens := 0;
      slotsRun := 0;
      while opens < rewardCount
        invariant Valid() && inv.Valid()
        invariant tally.totalPickups == old(tally.totalPickups)
        invariant rewardCount > 0 ==> opens <= rewardCount
        invariant rewardCount <= 0 ==> opens == 0
        invariant dropCountType == Sequential && possibleDrops != {} ==> slotsRun == opens * rewardCount
      {
        var rolled, granted := Open(inv, luck, order, dice, canEvolve);
        slotsRun := slotsRun + (if rolled > 0 then rolled else 0);
        opens := opens + 1;
      }
      active := false;
      tally.totalPickups := (tally.totalPickups + 1) % (|dropProfiles| + 1);
    }
  }
}
