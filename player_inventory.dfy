/** The player's inventory (PlayerInventory): fixed lists of weapon and passive slots, the
    pools of items still offered as upgrades, adding into the first free slot, removal,
    levelling, free-slot counting and the filters that build upgrade and reward choices.
    Items sit in the slots as values: a slot holds an item's data and its level. */
module PlayerInventory {
  import opened Common
  import opened GameManager
  import Weapon

  datatype Kind = WeaponKind | PassiveKind

  /** ItemData (WeaponData or PassiveData). `behaviourResolves` says whether a weapon's
      behaviour type name resolves to a class (Type.GetType in Add). */
  datatype ItemData = ItemData(id: nat, kind: Kind, maxLevel: int, behaviourResolves: bool)

  /** An equipped item: its data and current level (its maximum level is the data's). */
  datatype Item = Item(data: ItemData, currentLevel: int)

  /** A slot list; `None` is an empty slot. */
  type Slots = seq<Option<Item>>

  /** The first empty slot, if any. */
  function FirstEmpty(slots: Slots): (r: Option<nat>)
    ensures r.Some? ==> r.value < |slots| && slots[r.value].None? && forall j :: 0 <= j < r.value ==> slots[j].Some?
    ensures r.None? ==> forall j :: 0 <= j < |slots| ==> slots[j].Some?
  {
    if slots == [] then None
    else if slots[0].None? then Some(0)
    else match FirstEmpty(slots[1..])
      case None => None
      case Some(k) => Some(k + 1)
  }

  /** The first slot holding an item of the given data, if any. */
  function Find(slots: Slots, data: ItemData): (r: Option<nat>)
    ensures r.Some? ==> r.value < |slots| && slots[r.value].Some? && slots[r.value].value.data == data
    ensures r.Some? ==> forall j :: 0 <= j < r.value ==> !(slots[j].Some? && slots[j].value.data == data)
    ensures r.None? ==> forall j :: 0 <= j < |slots| ==> !(slots[j].Some? && slots[j].value.data == data)
  {
    if slots == [] then None
    else if slots[0].Some? && slots[0].value.data == data then Some(0)
    else match Find(slots[1..], data)
      case None => None
      case Some(k) => Some(k + 1)
  }

  /** The number of empty slots. It never exceeds the number of slots, and it is zero
      exactly when no slot is empty. */
  function CountEmpty(slots: Slots): (n: nat)
    ensures n <= |slots|
    ensures n == 0 <==> FirstEmpty(slots).None?
    ensures n == |slots| <==> forall j :: 0 <= j < |slots| ==> slots[j].None?
  {
    if slots == [] then 0
    else
      var rest := CountEmpty(slots[1..]);
      assert forall j :: 1 <= j < |slots| ==> slots[j] == slots[1..][j - 1];
      (if slots[0].None? then 1 else 0) + rest
  }

  /** List<T>.Remove: the first occurrence of x is taken out, if there is one. */
  function RemoveFirst<T(==)>(xs: seq<T>, x: T): (r: seq<T>)
    ensures multiset(r) == multiset(xs) - multiset{x}
    ensures x !in xs ==> r == xs
    ensures forall y :: y in r ==> y in xs
    ensures |r| == if x in xs then |xs| - 1 else |xs|
  {
    if xs == [] then []
    else
      assert xs == [xs[0]] + xs[1..];
      if xs[0] == x then xs[1..]
      else [xs[0]] + RemoveFirst(xs[1..], x)
  }

  /** A list without repeats: every value occurs at most once. */
  ghost predicate Distinct(xs: seq<ItemData>)
  {
    forall y :: multiset(xs)[y] <= 1
  }

  /** In a list without repeats, removing x removes exactly x. */
  lemma RemoveFirstDistinct(xs: seq<ItemData>, x: ItemData, y: ItemData)
    requires Distinct(xs)
    ensures Distinct(RemoveFirst(xs, x))
    ensures y in RemoveFirst(xs, x) <==> y in xs && y != x
  {
    var r := RemoveFirst(xs, x);
    assert y in r <==> multiset(r)[y] > 0;
    assert y in xs <==> multiset(xs)[y] > 0;
    assert multiset(xs)[x] <= 1;
  }

  /** Whether some slot holds an item of this data. */
  predicate Holds(slots: Slots, data: ItemData)
  {
    exists j :: 0 <= j < |slots| && slots[j].Some? && slots[j].value.data == data
  }

  /** The first slot at which the removal loop stops: an empty slot (the written code
      dereferences its missing item) or one holding the data. */
  datatype Scan = EmptyAt(i: nat) | MatchAt(i: nat) | NoMatch

  function ScanForRemoval(slots: Slots, data: ItemData): (r: Scan)
    ensures r.EmptyAt? ==> r.i < |slots| && slots[r.i].None?
    ensures r.MatchAt? ==> r.i < |slots| && slots[r.i].Some? && slots[r.i].value.data == data
    ensures !r.NoMatch? ==> forall j :: 0 <= j < r.i ==> slots[j].Some? && slots[j].value.data != data
    ensures r.NoMatch? ==> forall j :: 0 <= j < |slots| ==> slots[j].Some? && slots[j].value.data != data
  {
    if slots == [] then NoMatch
    else if slots[0].None? then EmptyAt(0)
    else if slots[0].value.data == data then MatchAt(0)
    else match ScanForRemoval(slots[1..], data)
      case EmptyAt(k) => EmptyAt(k + 1)
      case MatchAt(k) => MatchAt(k + 1)
      case NoMatch => NoMatch
  }

  /** What Remove ends in: a boolean result, or a NullReferenceException. */
  datatype RemoveOutcome = Removed(found: bool) | NullReference

  /** Removal as intended: the first slot holding the data is cleared, skipping empty ones. */
  function ClearFirstMatch(slots: Slots, data: ItemData): (r: (Slots, bool))
    ensures r.1 <==> Holds(slots, data)
    ensures r.1 ==> Find(slots, data).Some? && r.0 == slots[Find(slots, data).value := None]
    ensures !r.1 ==> r.0 == slots
    ensures |r.0| == |slots|
  {
    match Find(slots, data)
    case None => (slots, false)
    case Some(k) => (slots[k := None], true)
  }

  /** The corrected removal takes one copy of the data out of the slots and touches no
      other slot. */
  lemma ClearFirstMatchRemovesOne(slots: Slots, data: ItemData)
    requires Holds(slots, data)
    ensures CountEmpty(ClearFirstMatch(slots, data).0) == CountEmpty(slots) + 1
    ensures forall j :: 0 <= j < |slots| && j != Find(slots, data).value ==> ClearFirstMatch(slots, data).0[j] == slots[j]
  {
    var k := Find(slots, data).value;
    CountEmptyUpdate(slots, k);
  }

  /** Emptying a full slot adds one empty slot. */
  lemma {:induction false} CountEmptyUpdate(slots: Slots, k: nat)
    requires k < |slots| && slots[k].Some?
    ensures CountEmpty(slots[k := None]) == CountEmpty(slots) + 1
  {
    if k > 0 {
      assert slots[k := None][1..] == slots[1..][k - 1 := None];
      CountEmptyUpdate(slots[1..], k - 1);
    } else {
      assert slots[k := None][1..] == slots[1..];
    }
  }

  /** The written removal loop against the intended one: they agree when no empty slot
      comes before the match, and an empty slot first makes the written one throw while
      the intended one still clears the item. */
  lemma {:induction false} RemovalAsWrittenVersusIntended(slots: Slots, data: ItemData)
    ensures ScanForRemoval(slots, data).MatchAt? ==>
              ClearFirstMatch(slots, data) == (slots[ScanForRemoval(slots, data).i := None], true)
    ensures ScanForRemoval(slots, data).NoMatch? ==> ClearFirstMatch(slots, data) == (slots, false)
  {
    if slots != [] && slots[0].Some? && slots[0].value.data != data {
      RemovalAsWrittenVersusIntended(slots[1..], data);
    }
  }

  /** Whenever an empty slot comes before the first slot holding the data, the written
      loop stops at that empty slot (and throws) while the intended removal clears the
      item; e.g. an empty first slot with the item in the second. */
  lemma EmptySlotBeforeMatch(slots: Slots, data: ItemData)
    requires Find(slots, data).Some? && FirstEmpty(slots).Some?
    requires FirstEmpty(slots).value < Find(slots, data).value
    ensures ScanForRemoval(slots, data) == EmptyAt(FirstEmpty(slots).value)
    ensures ClearFirstMatch(slots, data) == (slots[Find(slots, data).value := None], true)
  {
    ScanStopsAt(slots, data, FirstEmpty(slots).value);
  }

  /** The offer rule of ApplyUpgradeOptions for one candidate: an owned item while below
      its maximum level, an unowned one while its category has a free slot. */
  predicate Offerable(weaponSlots: Slots, passiveSlots: Slots, data: ItemData)
  {
    var slots := if data.kind == WeaponKind then weaponSlots else passiveSlots;
    match Find(slots, data)
    case Some(k) => slots[k].value.currentLevel < data.maxLevel
    case None => CountEmpty(slots) > 0
  }

  /** The candidates that pass the offer rule, in order. */
  function OfferableFrom(weaponSlots: Slots, passiveSlots: Slots, all: seq<ItemData>): (r: seq<ItemData>)
    ensures forall x :: x in r <==> x in all && Offerable(weaponSlots, passiveSlots, x)
    ensures |r| <= |all|
  {
    if all == [] then []
    else
      var rest := OfferableFrom(weaponSlots, passiveSlots, all[..|all| - 1]);
      assert all == all[..|all| - 1] + [all[|all| - 1]];
      if Offerable(weaponSlots, passiveSlots, all[|all| - 1]) then rest + [all[|all| - 1]] else rest
  }

  /** The luck roll for a fourth option: 1 - 1/luck must beat the roll. A luck of 0 makes
      1/luck infinite in single precision, so the roll never succeeds. */
  predicate ExtraItem(luck: real, roll: real)
  {
    luck != 0.0 && 1.0 - 1.0 / luck > roll
  }

  /** How many options the upgrade window is asked for. */
  function OptionCount(available: nat, luck: real, roll: real): (n: nat)
    ensures n == 4 <==> ExtraItem(luck, roll) || available < 4
    ensures n == 3 || n == 4
  {
    if ExtraItem(luck, roll) || available < 4 then 4 else 3
  }

  /** A luck between 0 and 1 never wins the extra option on a non-negative roll. */
  lemma LowLuckNeverExtra(luck: real, roll: real)
    requires 0.0 <= luck <= 1.0 && roll >= 0.0
    ensures !ExtraItem(luck, roll)
  {
    if luck != 0.0 {
      assert 1.0 / luck >= 1.0;
    }
  }

  /** One step of GetUnowned: an item found in a slot is struck from the list. */
  function StrikeOwned(list: seq<ItemData>, slot: Option<Item>): seq<ItemData>
  {
    if slot.Some? && slot.value.data in list then RemoveFirst(list, slot.value.data) else list
  }

  /** GetUnowned on values: the available list with every slot's item struck out. */
  function Unowned(list: seq<ItemData>, slots: Slots): (r: seq<ItemData>)
    ensures multiset(r) <= multiset(list)
    decreases |slots|
  {
    if slots == [] then list
    else Unowned(StrikeOwned(list, slots[0]), slots[1..])
  }

  /** Striking one slot's item from a list without repeats removes just that item. */
  lemma StrikeOwnedDistinct(list: seq<ItemData>, slot: Option<Item>, x: ItemData)
    requires Distinct(list)
    ensures Distinct(StrikeOwned(list, slot))
    ensures x in StrikeOwned(list, slot) <==> x in list && !(slot.Some? && slot.value.data == x)
  {
    if slot.Some? && slot.value.data in list {
      RemoveFirstDistinct(list, slot.value.data, x);
    }
  }

  /** A slot list holds an item exactly when its first slot or the rest does. */
  lemma HoldsSplit(slots: Slots, x: ItemData)
    requires slots != []
    ensures Holds(slots, x) <==> (slots[0].Some? && slots[0].value.data == x) || Holds(slots[1..], x)
  {
    if Holds(slots, x) {
      var j :| 0 <= j < |slots| && slots[j].Some? && slots[j].value.data == x;
      if j > 0 {
        assert slots[1..][j - 1] == slots[j];
      }
    }
    if Holds(slots[1..], x) {
      var j :| 0 <= j < |slots[1..]| && slots[1..][j].Some? && slots[1..][j].value.data == x;
      assert slots[j + 1] == slots[1..][j];
    }
  }

  /** With an available list without repeats, the unowned items are exactly the available
      ones that no slot holds. */
  lemma {:induction false} UnownedMembership(list: seq<ItemData>, slots: Slots, x: ItemData)
    requires Distinct(list)
    ensures Distinct(Unowned(list, slots))
    ensures x in Unowned(list, slots) <==> x in list && !Holds(slots, x)
    decreases |slots|
  {
    if slots != [] {
      StrikeOwnedDistinct(list, slots[0], x);
      UnownedMembership(StrikeOwned(list, slots[0]), slots[1..], x);
      HoldsSplit(slots, x);
    }
  }

  /** The items in the slots satisfying `keep`, in slot order. */
  function Selected(slots: Slots, keep: Item -> bool): (r: seq<Item>)
    ensures forall it :: it in r <==> Some(it) in slots && keep(it)
  {
    if slots == [] then []
    else
      var rest := Selected(slots[..|slots| - 1], keep);
      assert slots == slots[..|slots| - 1] + [slots[|slots| - 1]];
      var last := slots[|slots| - 1];
      if last.Some? && keep(last.value) then rest + [last.value] else rest
  }

  /** Item.CanLevelUp as written: `currentLevel <= maxLevel` (see Weapon.CanLevelUpAsWritten),
      so an item at its maximum level still counts as able to level up. */
  predicate ItemCanLevelUp(it: Item)
  {
    Weapon.CanLevelUpAsWritten(it.currentLevel, it.data.maxLevel)
  }

  /** The slots after levelling the item of the given data: the first slot holding the data
      gains one level when its item passes the level guard; otherwise nothing changes. */
  function LevelledFirst(slots: Slots, data: ItemData): (r: Slots)
    ensures |r| == |slots|
    ensures Find(slots, data).Some? && ItemCanLevelUp(slots[Find(slots, data).value].value) ==>
              var k := Find(slots, data).value;
              r == slots[k := Some(slots[k].value.(currentLevel := slots[k].value.currentLevel + 1))]
    ensures !(Find(slots, data).Some? && ItemCanLevelUp(slots[Find(slots, data).value].value)) ==> r == slots
  {
    match Find(slots, data)
    case None => slots
    case Some(k) =>
      var it := slots[k].value;
      if ItemCanLevelUp(it) then slots[k := Some(it.(currentLevel := it.currentLevel + 1))] else slots
  }

  /** Which slot lists and which pool a generic query covers: weapons, passives, or all
      items (passives first, then weapons). */
  datatype Category = Weapons | Passives | Items

  /** Weapon slots hold only weapons, passive slots only passives. */
  predicate WeaponsOnly(slots: Slots)
  {
    forall i :: 0 <= i < |slots| && slots[i].Some? ==> slots[i].value.data.kind == WeaponKind
  }

  predicate PassivesOnly(slots: Slots)
  {
    forall i :: 0 <= i < |slots| && slots[i].Some? ==> slots[i].value.data.kind == PassiveKind
  }

  /** The parts of an inventory the reward actions depend on. */
  datatype Stock = Stock(weaponSlots: Slots, passiveSlots: Slots, availableWeapons: seq<ItemData>, availablePassives: seq<ItemData>)

  /** The result of Add: the slot index (-1 for none) or an ArgumentOutOfRangeException. */
  datatype AddOutcome = SlotIndex(index: int) | IndexOutOfRange

  class Inventory {
    var weaponSlots: Slots
    var passiveSlots: Slots
    /** List<Slot>.Capacity of each slot list: the bound of Add's search loop. */
    const weaponCapacity: nat
    const passiveCapacity: nat
    var availableWeapons: seq<ItemData>
    var availablePassives: seq<ItemData>
    /** The number of times the player's stats were recomputed. */
    var recalculations: nat
    const gm: Manager

    /** Each slot list fits its capacity and holds only items of its own kind. */
    ghost predicate Valid()
      reads this, gm
    {
      |weaponSlots| <= weaponCapacity && |passiveSlots| <= passiveCapacity
      && WeaponsOnly(weaponSlots) && PassivesOnly(passiveSlots)
      && (forall x :: x in availableWeapons ==> x.kind == WeaponKind)
      && (forall x :: x in availablePassives ==> x.kind == PassiveKind)
      && gm.Valid()
    }

    constructor (weaponSlotCount: nat, passiveSlotCount: nat, weaponCapacity: nat, passiveCapacity: nat,
                 availableWeapons: seq<ItemData>, availablePassives: seq<ItemData>, gm: Manager)
      requires weaponSlotCount <= weaponCapacity && passiveSlotCount <= passiveCapacity && gm.Valid()
      requires forall x :: x in availableWeapons ==> x.kind == WeaponKind
      requires forall x :: x in availablePassives ==> x.kind == PassiveKind
      ensures Valid()
      ensures weaponSlots == seq(weaponSlotCount, _ => None) && passiveSlots == seq(passiveSlotCount, _ => None)
      ensures this.weaponCapacity == weaponCapacity && this.passiveCapacity == passiveCapacity
      ensures this.availableWeapons == availableWeapons && this.availablePassives == availablePassives
      ensures this.gm == gm && recalculations == 0
    {
      weaponSlots := seq(weaponSlotCount, _ => None);
      passiveSlots := seq(passiveSlotCount, _ => None);
      this.weaponCapacity := weaponCapacity;
      this.passiveCapacity := passiveCapacity;
      this.availableWeapons := availableWeapons;
      this.availablePassives := availablePassives;
      recalculations := 0;
      this.gm := gm;
    }

    function Snapshot(): Stock
      reads this
    {
      Stock(weaponSlots, passiveSlots, availableWeapons, availablePassives)
    }

    /** The slots searched for an item of this data's kind. */
    function SlotsFor(kind: Kind): Slots
      reads this
    {
      if kind == WeaponKind then weaponSlots else passiveSlots
    }

    /** Getslots / GetSlotsFor. */
    function SlotsOf(c: Category): Slots
      reads this
    {
      match c
      case Weapons => weaponSlots
      case Passives => passiveSlots
      case Items => passiveSlots + weaponSlots
    }

    /** GetAvailable. */
    function AvailableOf(c: Category): seq<ItemData>
      reads this
    {
      match c
      case Weapons => availableWeapons
      case Passives => availablePassives
      case Items => availablePassives + availableWeapons
    }

    /** PlayerInventory.Get: the first equipped item of this data, searched in the slots of
        its kind. */
    method Get(data: ItemData) returns (r: Option<Item>)
      ensures r.Some? <==> Holds(SlotsFor(data.kind), data)
      ensures r.Some? ==> r.value == SlotsFor(data.kind)[Find(SlotsFor(data.kind), data).value].value
      ensures r.Some? ==> r.value.data == data
    {
      var slots := SlotsFor(data.kind);
      var i := 0;
      while i < |slots|
        invariant 0 <= i <= |slots|
        invariant forall j :: 0 <= j < i ==> !(slots[j].Some? && slots[j].value.data == data)
      {
        if slots[i].Some? && slots[i].value.data == data {
          assert Find(slots, data) == Some(i);
          return slots[i];
        }
        i := i + 1;
      }
      return None;
    }

    /** GetSlotsLeft: counts the empty slots of a list. */
    static method GetSlotsLeft(slots: Slots) returns (count: nat)
      ensures count == CountEmpty(slots)
    {
      count := 0;
      var i := |slots|;
      while i > 0
        invariant 0 <= i <= |slots|
        invariant count == CountEmpty(slots[i..])
      {
        i := i - 1;
        assert slots[i..][1..] == slots[i + 1..];
        if slots[i].None? {
          count := count + 1;
        }
      }
    }

    /** Remove(WeaponData) as written: the data is first struck from the weapon pool when
        asked; then the slots are scanned, and the first slot that is empty or holds the
        data ends the scan: an empty slot throws, a match is cleared and reported. */
    method RemoveWeapon(data: ItemData, removeUpgradeAvailability: bool) returns (r: RemoveOutcome)
      modifies this`weaponSlots, this`availableWeapons
      ensures old(Valid()) ==> Valid()
      ensures availableWeapons == if removeUpgradeAvailability then RemoveFirst(old(availableWeapons), data) else old(availableWeapons)
      ensures ScanForRemoval(old(weaponSlots), data).EmptyAt? ==> r == NullReference && weaponSlots == old(weaponSlots)
      ensures ScanForRemoval(old(weaponSlots), data).MatchAt? ==>
                r == Removed(true) && weaponSlots == old(weaponSlots)[ScanForRemoval(old(weaponSlots), data).i := None]
      ensures ScanForRemoval(old(weaponSlots), data).NoMatch? ==> r == Removed(false) && weaponSlots == old(weaponSlots)
    {
      if removeUpgradeAvailability {
        availableWeapons := RemoveFirst(availableWeapons, data);
      }
      var i := 0;
      while i < |weaponSlots|
        invariant 0 <= i <= |weaponSlots|
        invariant weaponSlots == old(weaponSlots)
        invariant forall j :: 0 <= j < i ==> weaponSlots[j].Some? && weaponSlots[j].value.data != data
      {
        if weaponSlots[i].None? {
          assert ScanForRemoval(weaponSlots, data) == EmptyAt(i) by {
            ScanStopsAt(weaponSlots, data, i);
          }
          return NullReference;
        }
        if weaponSlots[i].value.data == data {
          assert ScanForRemoval(weaponSlots, data) == MatchAt(i) by {
            ScanStopsAt(weaponSlots, data, i);
          }
          weaponSlots := weaponSlots[i := None];
          return Removed(true);
        }
        i := i + 1;
      }
      return Removed(false);
    }

    /** Remove(PassiveData) as written: after striking the data from the passive pool when
        asked, it scans the WEAPON slots and reads each one's item as a passive. A weapon
        slot never holds a passive, so the first slot already dereferences nothing: with
        any weapon slot the call throws, with none it reports false. The passive slots are
        never touched. */
    method RemovePassive(data: ItemData, removeUpgradeAvailability: bool) returns (r: RemoveOutcome)
      modifies this`weaponSlots, this`availablePassives
      ensures old(Valid()) ==> Valid()
      ensures availablePassives == if removeUpgradeAvailability then RemoveFirst(old(availablePassives), data) else old(availablePassives)
      ensures WeaponsOnly(old(weaponSlots)) ==> r == (if |old(weaponSlots)| > 0 then NullReference else Removed(false))
      ensures WeaponsOnly(old(weaponSlots)) ==> weaponSlots == old(weaponSlots)
      ensures passiveSlots == old(passiveSlots)
    {
      if removeUpgradeAvailability {
        availablePassives := RemoveFirst(availablePassives, data);
      }
      var i := 0;
      while i < |weaponSlots|
        invariant 0 <= i <= |weaponSlots|
        invariant weaponSlots == old(weaponSlots)
        invariant forall j :: 0 <= j < i ==> weaponSlots[j].Some? && weaponSlots[j].value.data.kind == PassiveKind
      {
        // `weaponSlots[i].item as Passive`
        var p := if weaponSlots[i].Some? && weaponSlots[i].value.data.kind == PassiveKind then weaponSlots[i] else None;
        if p.None? {
          return NullReference;
        }
        if p.value.data == data {
          weaponSlots := weaponSlots[i := None];
          return Removed(true);
        }
        i := i + 1;
      }
      if |weaponSlots| > 0 {
        assert weaponSlots[0].value.data.kind == PassiveKind;
      }
      return Removed(false);
    }

    /** Add(WeaponData) / Add(PassiveData): searches up to the list's capacity for the first
        empty slot; an index past the list's length throws. With no empty slot it returns
        -1. A weapon whose behaviour does not resolve is not created (-1, nothing changes).
        Otherwise the item goes in at level 1, an open level-up screen is closed, and for a
        passive the player's stats are recomputed. */
    method Add(data: ItemData) returns (r: AddOutcome)
      requires Valid()
      modifies this`weaponSlots, this`passiveSlots, this`recalculations, gm
      ensures Valid()
      ensures var old_slots := old(SlotsFor(data.kind));
              var cap := if data.kind == WeaponKind then weaponCapacity else passiveCapacity;
              match FirstEmpty(old_slots)
              case Some(k) =>
                if data.kind == WeaponKind && !data.behaviourResolves then r == SlotIndex(-1) && SlotsFor(data.kind) == old_slots
                else r == SlotIndex(k) && SlotsFor(data.kind) == old_slots[k := Some(Item(data, 1))]
              case None =>
                SlotsFor(data.kind) == old_slots &&
                r == (if |old_slots| < cap then IndexOutOfRange else SlotIndex(-1))
      ensures data.kind == WeaponKind ==> passiveSlots == old(passiveSlots)
      ensures data.kind == PassiveKind ==> weaponSlots == old(weaponSlots)
      ensures recalculations == old(recalculations) + (if data.kind == PassiveKind && r.SlotIndex? && r.index >= 0 then 1 else 0)
      ensures !(r.SlotIndex? && r.index >= 0) || !old(gm.ChosingUpgrade()) ==> unchanged(gm)
      ensures r.SlotIndex? && r.index >= 0 && old(gm.ChosingUpgrade()) ==> gm.stackedLevelUps == (if old(gm.stackedLevelUps) > 0 then old(gm.stackedLevelUps) - 1 else 0)
      ensures availableWeapons == old(availableWeapons) && availablePassives == old(availablePassives)
    {
      var slots := SlotsFor(data.kind);
      var cap := if data.kind == WeaponKind then weaponCapacity else passiveCapacity;
      var slotNum := -1;
      var i := 0;
      while i < cap
        invariant 0 <= i <= cap
        invariant i <= |slots|
        invariant forall j :: 0 <= j < i ==> slots[j].Some?
      {
        if i >= |slots| {
          return IndexOutOfRange;
        }
        if slots[i].None? {
          slotNum := i;
          break;
        }
        i := i + 1;
      }
      if slotNum < 0 {
        assert |slots| == cap;
        return SlotIndex(-1);
      }
      assert FirstEmpty(slots) == Some(slotNum as nat);
      if data.kind == WeaponKind && !data.behaviourResolves {
        return SlotIndex(-1);
      }
      if data.kind == WeaponKind {
        weaponSlots := weaponSlots[slotNum := Some(Item(data, 1))];
      } else {
        passiveSlots := passiveSlots[slotNum := Some(Item(data, 1))];
      }
      if gm.ChosingUpgrade() {
        gm.EndLevelUp();
      }
      if data.kind == PassiveKind {
        recalculations := recalculations + 1;
      }
      return SlotIndex(slotNum);
    }

    /** LevelUp(ItemData): levels up the equipped item of this data. Fails when nothing of
        the data is equipped or the item cannot level up; otherwise the item's level rises
        by one, an open level-up screen is closed, and for a passive the player's stats are
        recomputed. (The item's stat payload is Weapon.DoLevelUp's concern.) */
    method LevelUp(data: ItemData) returns (ok: bool)
      requires Valid()
      modifies this`weaponSlots, this`passiveSlots, this`recalculations, gm
      ensures Valid()
      ensures var s := old(SlotsFor(data.kind));
              ok <==> Find(s, data).Some? && ItemCanLevelUp(s[Find(s, data).value].value)
      ensures var s := old(SlotsFor(data.kind));
              ok ==> SlotsFor(data.kind) == s[Find(s, data).value :=
                       Some(s[Find(s, data).value].value.(currentLevel := s[Find(s, data).value].value.currentLevel + 1))]
      ensures SlotsFor(data.kind) == LevelledFirst(old(SlotsFor(data.kind)), data)
      ensures !ok ==> weaponSlots == old(weaponSlots) && passiveSlots == old(passiveSlots) && unchanged(gm)
      ensures data.kind == WeaponKind ==> passiveSlots == old(passiveSlots)
      ensures data.kind == PassiveKind ==> weaponSlots == old(weaponSlots)
      ensures recalculations == old(recalculations) + (if ok && data.kind == PassiveKind then 1 else 0)
      ensures ok && !old(gm.ChosingUpgrade()) ==> unchanged(gm)
      ensures ok && old(gm.ChosingUpgrade()) && old(gm.stackedLevelUps) == 0 ==>
                gm.currentState == Gameplay && !gm.levelUpScreenActive && gm.stackedLevelUps == 0
      ensures ok && old(gm.ChosingUpgrade()) && old(gm.stackedLevelUps) > 0 ==>
                gm.currentState == GameState.LevelUp && gm.levelUpScreenActive && gm.stackedLevelUps == old(gm.stackedLevelUps) - 1
      ensures ok && old(gm.ChosingUpgrade()) && old(gm.levelUpScreenActive) ==> gm.Pending() == old(gm.Pending()) - 1
    {
      var item := Get(data);
      if item.None? {
        return false;
      }
      var k := Find(SlotsFor(data.kind), data).value;
      var it := item.value;
      if !ItemCanLevelUp(it) {
        return false;
      }
      if data.kind == WeaponKind {
        weaponSlots := weaponSlots[k := Some(it.(currentLevel := it.currentLevel + 1))];
      } else {
        passiveSlots := passiveSlots[k := Some(it.(currentLevel := it.currentLevel + 1))];
      }
      if gm.ChosingUpgrade() {
        gm.EndLevelUp();
      }
      if data.kind == PassiveKind {
        recalculations := recalculations + 1;
      }
      return true;
    }

    /** The filter loop of ApplyUpgradeOptions over the candidate list. */
    method CollectOfferable(all: seq<ItemData>) returns (offered: seq<ItemData>)
      ensures offered == OfferableFrom(weaponSlots, passiveSlots, all)
    {
      offered := [];
      var i := 0;
      while i < |all|
        invariant 0 <= i <= |all|
        invariant offered == OfferableFrom(weaponSlots, passiveSlots, all[..i])
      {
        assert all[..i + 1][..i] == all[..i];
        if Offerable(weaponSlots, passiveSlots, all[i]) {
          offered := offered + [all[i]];
        }
        i := i + 1;
      }
      assert all[..i] == all;
    }

    /** ApplyUpgradeOptions: filters weapons then passives from the pools by the offer rule.
        A non-empty choice goes to the upgrade window with 4 options when the luck roll wins
        or fewer than 4 are available, else 3; an empty one closes the level-up screen. */
    method ApplyUpgradeOptions(luck: real, roll: real) returns (offered: seq<ItemData>, optionCount: nat)
      requires Valid()
      modifies gm
      ensures Valid()
      ensures offered == OfferableFrom(old(weaponSlots), old(passiveSlots), old(availableWeapons) + old(availablePassives))
      ensures forall x :: x in offered ==> x in availableWeapons || x in availablePassives
      ensures |offered| > 0 ==> optionCount == OptionCount(|offered|, luck, roll) && unchanged(gm)
      ensures |offered| == 0 ==> optionCount == 0
      ensures |offered| == 0 && !old(gm.ChosingUpgrade()) ==> unchanged(gm)
    {
      offered := CollectOfferable(availableWeapons + availablePassives);
      if |offered| > 0 {
        optionCount := OptionCount(|offered|, luck, roll);
      } else {
        optionCount := 0;
        if gm.ChosingUpgrade() {
          gm.EndLevelUp();
        }
      }
    }

    /** GetUnowned: the pool of a category with every item found in its slots struck out. */
    method GetUnowned(c: Category) returns (list: seq<ItemData>)
      ensures list == Unowned(AvailableOf(c), SlotsOf(c))
      ensures multiset(list) <= multiset(AvailableOf(c))
      ensures Distinct(AvailableOf(c)) ==> forall x :: x in list <==> x in AvailableOf(c) && !Holds(SlotsOf(c), x)
    {
      var available := AvailableOf(c);
      if |available| == 0 {
        list := [];
        return;
      }
      list := available;
      var slots := SlotsOf(c);
      var i := 0;
      while i < |slots|
        invariant 0 <= i <= |slots|
        invariant Unowned(list, slots[i..]) == Unowned(available, slots)
      {
        assert slots[i..][1..] == slots[i + 1..];
        if slots[i].Some? && slots[i].value.data in list {
          list := RemoveFirst(list, slots[i].value.data);
        }
        i := i + 1;
      }
      forall x | Distinct(available)
        ensures x in list <==> x in available && !Holds(slots, x)
      {
        UnownedMembership(available, slots, x);
      }
    }

    /** The shared loop of GetUpgradables and GetEvolvables: the items of a category's
        slots that satisfy the test, in slot order. */
    method SelectItems(c: Category, keep: Item -> bool) returns (result: seq<Item>)
      ensures result == Selected(SlotsOf(c), keep)
      ensures forall it :: it in result <==> Some(it) in SlotsOf(c) && keep(it)
    {
      var slots := SlotsOf(c);
      result := [];
      var i := 0;
      while i < |slots|
        invariant 0 <= i <= |slots|
        invariant result == Selected(slots[..i], keep)
      {
        assert slots[..i + 1][..i] == slots[..i];
        if slots[i].Some? && keep(slots[i].value) {
          result := result + [slots[i].value];
        }
        i := i + 1;
      }
      assert slots[..i] == slots;
    }

    /** GetUpgradables: the equipped items that can still level up. */
    method GetUpgradables(c: Category) returns (result: seq<Item>)
      ensures result == Selected(SlotsOf(c), ItemCanLevelUp)
      ensures forall it :: it in result <==> Some(it) in SlotsOf(c) && ItemCanLevelUp(it)
    {
      result := SelectItems(c, ItemCanLevelUp);
    }

    /** GetEvolvables: the equipped items with an evolution available (which evolutions are
        available is an input: evolution is not part of this model). */
    method GetEvolvables(c: Category, canEvolve: Item -> bool) returns (result: seq<Item>)
      ensures result == Selected(SlotsOf(c), canEvolve)
      ensures forall it :: it in result <==> Some(it) in SlotsOf(c) && canEvolve(it)
    {
      result := SelectItems(c, canEvolve);
    }
  }

  /** The scan of the removal loop stops at the first slot that is empty or holds the data. */
  lemma {:induction false} ScanStopsAt(slots: Slots, data: ItemData, i: nat)
    requires i < |slots|
    requires forall j :: 0 <= j < i ==> slots[j].Some? && slots[j].value.data != data
    requires slots[i].None? || slots[i].value.data == data
    ensures ScanForRemoval(slots, data) == (if slots[i].None? then EmptyAt(i) else MatchAt(i))
  {
    if i > 0 {
      ScanStopsAt(slots[1..], data, i - 1);
    }
  }
}
