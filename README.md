# Roguelike rule core in Dafny

This project models the rule logic of a Unity "bullet-heaven" roguelike, written in C#, and proves properties of it. The engine plumbing is not modelled. The model covers:

- **Player inventory.** Fixed weapon and passive slot lists, first-free-slot allocation, removal, free-slot counting, level-ups, and the upgrade-pool filter.
- **Weapons.** The `Weapon.Stats` sum, per-level payload lookup (`WeaponData.GetLevelData`), level-up, attack readiness, damage and area, and the cooldown cap.
- **Enemy and player statistics.** Resistance and stat operators, curse and level boosting, buff layering, the insta-kill dodge roll, armour and the invincibility window, experience level ranges, and clamped healing.
- **Meta-progression.** Linear upgrade costs, per-category caps, the coin debit, and the conversion of levels into a stat bonus. Also the in-run coin purse and its transfer to the stash.
- **Game flow.**
  - The game manager's state machine: pause/resume, stacked level-up screens, the stopwatch and its end-of-level latch.
  - Both wave spawners, and the random event scheduler.
  - Treasure-chest drop profiles and the reward retry loop.
  - Drop tables, pickups, the enemy knockback gate and out-of-frame handling.
- **Small pure helpers.** The field-name prettifier, the property value formatter, and the movement-direction classifier.

There is one Dafny module per C# file:

| module | C# source |
|---|---|
| `PlayerInventory` | `Scripts/Player/PlayerInventory.cs` |
| `Weapon` | `Scripts/Weapons/Weapon.cs`, `Scripts/Weapons/WeaponData.cs` |
| `EnemyStats` | `Scripts/Enemy/EnemyStats.cs` |
| `PlayerStats` | `Scripts/Player/PlayerStats.cs` |
| `MetaUpgrades` | `Scripts/MetaUpgradeManager.cs` |
| `GameManager` | `Scripts/GameManager.cs` |
| `TreasureChest` | `Scripts/TreasureChest.cs` |
| `SpawnManager` | `Scripts/Spawning/SpawnManager.cs` |
| `Events` | `Scripts/Spawning/EventManager.cs`, `Scripts/Spawning/EventData.cs` |
| `DropRateManager` | `Scripts/DropRateManager.cs` |
| `PropertyDisplay` | `Scripts/UI/UIPropertyDisplay.cs` |
| `EnemyMovement` | `Scripts/Enemy/EnemyMovement.cs` |
| `PlayerCollector` | `Scripts/Player/PlayerCollector.cs` |
| `Pickups` | `Scripts/Pickups/Pickup.cs` |
| `EnemySpawner` | `Scripts/Enemy/EnemySpawner.cs` |
| `MapController` | `Scripts/Map/MapController.cs` |
| `Common` | shared helpers |

How the model is built:

- **Objects become classes.** Components whose fields the game updates in place are Dafny classes. Their methods carry `modifies` clauses, and their `ensures` tie the new state to pure specification functions. Lemmas about those functions state what the game promises.
- **Values become datatypes.** Value structs (resistances, stats, items, drop profiles) are datatypes. Floats are `real`.
- **Randomness is explicit.** A roll is either a parameter or is drawn from a `Common.Dice`, which models a fixed stream of draws. `Random.Range(0, n)` is `stream(next) % n`, and `Random.value` is a fraction in [0, 1].

Where a literal behaviour differs from what the comments suggest, the classes follow the code as written. For example, `Remove(PassiveData)` searches the weapon slots, and a dodged insta-kill still subtracts health. The intended behaviour is then proved beside it (see "## Findings"). Other literal behaviours are stated as they are:

- Event selection counts active events twice (`Events.CandidatesDoubleCount`).
- Higher luck lowers an event's chance (`Events.LuckOnlyLowersChance`).
- A chest pickup runs rewardCount² reward slots (`TreasureChest.Chest.PickUp`).

## Model

| member | source | states |
|---|---|---|
| PlayerInventory.FirstEmpty | Scripts/Player/PlayerInventory.cs:152-159 | the result is the lowest index of an empty slot; with none, every slot is occupied |
| PlayerInventory.Find | Scripts/Player/PlayerInventory.cs:82-91 | the result is the first slot holding that data, or no slot holds it |
| PlayerInventory.CountEmpty | Scripts/Player/PlayerInventory.cs:280-292 | the free-slot count never exceeds the list length; it is 0 iff there is no first empty slot, and equals the length iff every slot is empty |
| PlayerInventory.RemoveFirst | Scripts/Player/PlayerInventory.cs:97-98 | striking data from an availability list removes exactly one occurrence (as multisets) and leaves a list without it unchanged |
| PlayerInventory.RemoveFirstDistinct | Scripts/Player/PlayerInventory.cs:97-98 | on a list without duplicates, the result keeps no duplicates and contains exactly the other entries |
| PlayerInventory.ScanForRemoval | Scripts/Player/PlayerInventory.cs:99-110 | the removal loop as written stops at the first slot that is empty or matches, and every slot before it holds other data |
| PlayerInventory.ClearFirstMatch | Scripts/Player/PlayerInventory.cs:99-110 | intended removal: it succeeds iff some slot holds the data, clears exactly the first such slot, and keeps the length |
| PlayerInventory.ClearFirstMatchRemovesOne | Scripts/Player/PlayerInventory.cs:99-110 | a successful removal raises the free-slot count by one and leaves every other slot alone |
| PlayerInventory.RemovalAsWrittenVersusIntended | Scripts/Player/PlayerInventory.cs:99-110 | when the scan as written reaches a match or finds none, it agrees with the intended removal |
| PlayerInventory.EmptySlotBeforeMatch | Scripts/Player/PlayerInventory.cs:99-110 | for every slot list whose first empty slot comes before the first slot holding the data, the scan as written stops at that empty slot (the null dereference), while the intended removal clears the match |
| PlayerInventory.OfferableFrom | Scripts/Player/PlayerInventory.cs:300-324 | an option is offered iff it is available and is owned below its max level or is unowned with a free slot in its category |
| PlayerInventory.OptionCount | Scripts/Player/PlayerInventory.cs:327-337 | four options iff fewer than four are available or the luck roll succeeds, otherwise three |
| PlayerInventory.LowLuckNeverExtra | Scripts/Player/PlayerInventory.cs:327-332 | with luck between 0 and 1 (0 included) and a non-negative roll, the extra-option roll never succeeds |
| PlayerInventory.Unowned | Scripts/Player/PlayerInventory.cs:422-443 | the unowned list is a sub-multiset of the available list |
| PlayerInventory.UnownedMembership | Scripts/Player/PlayerInventory.cs:422-443 | on an available list without duplicates, an item is unowned iff it is available and no slot holds it |
| PlayerInventory.Selected | Scripts/Player/PlayerInventory.cs:445-462 | an item is selected iff it sits in a slot and satisfies the filter |
| PlayerInventory.LevelledFirst | Scripts/Player/PlayerInventory.cs:243-277 | levelling by data raises by one the level of the first slot holding the data when its item passes the written guard, and otherwise leaves the slots unchanged |
| PlayerInventory.Inventory.constructor | Scripts/Player/PlayerInventory.cs:41-50 | slots start empty with the given counts and capacities; the availability lists are the given ones |
| PlayerInventory.Inventory.Get | Scripts/Player/PlayerInventory.cs:62-91 | an item is returned iff a slot of its category holds that data, and it is the item in the first such slot |
| PlayerInventory.Inventory.GetSlotsLeft | Scripts/Player/PlayerInventory.cs:280-292 | the loop counts exactly the empty slots |
| PlayerInventory.Inventory.RemoveWeapon | Scripts/Player/PlayerInventory.cs:94-111 | the availability list loses the data when asked, even if no slot holds it; an empty slot before the match is the null-reference outcome; a match clears only that slot and returns true; otherwise it returns false |
| PlayerInventory.Inventory.RemovePassive | Scripts/Player/PlayerInventory.cs:115-131 | as written: the weapon slots are scanned, so the passive slots never change; with weapons only, any slot is the null-reference outcome and an empty list returns false |
| PlayerInventory.Inventory.Add | Scripts/Player/PlayerInventory.cs:147-240 | the item goes into the first empty slot of its category at level 1 and that index is returned; no free slot (or a weapon behaviour that does not resolve) gives -1 and changes no slot; an index past Count within Capacity is the out-of-range outcome; a passive recalculates stats; a successful add during an upgrade ends one level-up |
| PlayerInventory.Inventory.LevelUp | Scripts/Player/PlayerInventory.cs:243-277 | it succeeds iff the first slot holding the data has an item passing the written guard (level at most max level); that item's level rises by one and no other slot changes; a failure changes nothing; only passives recalculate stats; an open level-up choice is closed: with no stacked level-ups the game returns to gameplay with the screen shut, otherwise one stacked level-up reopens it, and an open screen leaves one pending level-up fewer |
| PlayerInventory.Inventory.CollectOfferable | Scripts/Player/PlayerInventory.cs:300-324 | the filtering loop builds exactly the offerable options |
| PlayerInventory.Inventory.ApplyUpgradeOptions | Scripts/Player/PlayerInventory.cs:295-340 | options come from the two availability lists filtered by offerability; the option count follows the luck rule, and is 0 when nothing is offerable |
| PlayerInventory.Inventory.GetUnowned | Scripts/Player/PlayerInventory.cs:422-443 | the loop returns the unowned list; with distinct entries, an item is in it iff available and not held |
| PlayerInventory.Inventory.SelectItems | Scripts/Player/PlayerInventory.cs:445-462 | the loop returns exactly the slotted items that satisfy the filter |
| PlayerInventory.Inventory.GetUpgradables | Scripts/Player/PlayerInventory.cs:454-462 | exactly the slotted items that pass the written level guard, items at their max level included |
| PlayerInventory.Inventory.GetEvolvables | Scripts/Player/PlayerInventory.cs:445-452 | exactly the slotted items that can evolve |
| Weapon.AddFields | Scripts/Weapons/Weapon.cs:30-52 | the sum adds all ten numeric fields; name, description and prefabs come from the right when present; spawn variance always from the right; buffs from the right only when non-empty |
| Weapon.AddAssociative | Scripts/Weapons/Weapon.cs:30-52 | the stats sum is associative |
| Weapon.AddEmptyOnRight | Scripts/Weapons/Weapon.cs:30-52 | adding the empty stats keeps every number and the name, but resets the spawn variance |
| Weapon.AccumulatedDamage | Scripts/Weapons/Weapon.cs:108 | after successive level-ups the damage is the base damage plus the sum of the payloads' damages |
| Weapon.StatsDamage | Scripts/Weapons/Weapon.cs:55-58 | a damage roll lies between damage and damage + variance |
| Weapon.GetLevelData | Scripts/Weapons/WeaponData.cs:18-33 | level ≤ 1 gives the base stats; level L within the linear table gives entry L−2; beyond it, an element of the random table, or empty stats (all zero) when that is empty |
| Weapon.AsWrittenPassesMaxLevel | Scripts/Weapons/Weapon.cs:102-108 | for every max level m, the guard as written (`CanLevelUp` in `Item.cs`, lines 105-108) lets an item at level m level up to m + 1, and stops it there |
| Weapon.AsWrittenAttemptsSettlePastMax | Scripts/Weapons/Weapon.cs:98-110 | with the written guard, repeated level-ups from a level within the cap rise one level per attempt and settle at exactly max level + 1 |
| Weapon.LevelUpsStayWithinMax | Scripts/Weapons/Weapon.cs:98-110 | with the intended guard, any number of level-up attempts never exceeds the max level |
| Weapon.Weapon.constructor | Scripts/Weapons/Weapon.cs:67-82 | a new weapon is level 1 with the base stats and a cooldown of base cooldown × owner cooldown |
| Weapon.Weapon.DoLevelUp | Scripts/Weapons/Weapon.cs:98-110 | it succeeds iff the written guard (level at most max level) holds, so a weapon at its max level still levels once; success raises the level by one and adds that level's payload; failure changes nothing |
| Weapon.Weapon.CanAttack | Scripts/Weapons/Weapon.cs:113-118 | false whenever might is approximately 0, otherwise true iff the cooldown has run out |
| Weapon.Weapon.ActivateCooldown | Scripts/Weapons/Weapon.cs:155-169 | a strict call during cooldown fails and changes nothing; otherwise the cooldown becomes min(full, current + full) and never exceeds the full cooldown |
| Weapon.Weapon.GetDamage | Scripts/Weapons/Weapon.cs:138-141 | the damage lies between damage × might and (damage + variance) × might |
| Weapon.Weapon.GetArea | Scripts/Weapons/Weapon.cs:144-147 | an owner area of 1 keeps the weapon area, and one at least 1 never shrinks it |
| EnemyStats.ScaleResistances | Scripts/Enemy/EnemyStats.cs:14-20 | scaling caps every component at 1 and is exact below the cap |
| EnemyStats.MulResistances | Scripts/Enemy/EnemyStats.cs:31-37 | the component-wise product caps every component at 1 and is exact below the cap |
| EnemyStats.ResistanceOperators | Scripts/Enemy/EnemyStats.cs:14-37 | multiplying by ones or scaling by 1 only caps; addition is commutative and not capped |
| EnemyStats.Boost | Scripts/Enemy/EnemyStats.cs:50-58 | only flagged fields change; the knockback multiplier is divided rather than multiplied; boosted resistances stay capped |
| EnemyStats.BoostByOne | Scripts/Enemy/EnemyStats.cs:50-58 | a factor of 1 only caps the resistances, and an empty flag set changes nothing |
| EnemyStats.MulByOnes | Scripts/Enemy/EnemyStats.cs:79-87 | multiplying stats by the all-ones multiplier only caps the resistances |
| EnemyStats.MultiplierResistancesCapped | Scripts/Enemy/EnemyStats.cs:156-170 | folding multiplicative buffs into a capped multiplier keeps its resistances capped |
| EnemyStats.NoBuffsOnlyCaps | Scripts/Enemy/EnemyStats.cs:139-171 | with no buffs, the actual stats are the curse- and level-boosted base with resistances capped |
| EnemyStats.ActualResistancesCapped | Scripts/Enemy/EnemyStats.cs:139-171 | after recalculation every resistance is at most 1 |
| EnemyStats.BuffApplies | Scripts/Enemy/EnemyStats.cs:124-136 | a freeze or debuff buff whose roll is within the resistance is refused; when every applicable roll beats its resistance, the base result decides exactly; the buff is never applied unless the base result applies it |
| EnemyStats.ResistanceExtremes | Scripts/Enemy/EnemyStats.cs:124-136 | a full freeze resistance refuses every freeze buff; negative resistances refuse nothing |
| EnemyStats.HealthAfterHit | Scripts/Enemy/EnemyStats.cs:173-188 | intended: a dodged insta-kill keeps health, and any other hit subtracts the damage |
| EnemyStats.DodgedInstaKillStillHurts | Scripts/Enemy/EnemyStats.cs:173-188 | every dodged insta-kill, as written, takes the whole max health off health and skips the kill check; the intended dodge keeps health, so with a positive max health the written health is strictly lower |
| EnemyStats.HitOutcomeAsIntended | Scripts/Enemy/EnemyStats.cs:173-202 | intended, for a living enemy: a dodge keeps health and does not kill; any other hit kills iff the damage reaches the health; the kill decision is the written one |
| EnemyStats.EnemyCounter.constructor | Scripts/Enemy/EnemyStats.cs:106 | the live-enemy count starts at 0 |
| EnemyStats.EnemyCounter.Spawned | Scripts/Enemy/EnemyStats.cs:109-112 | a spawned enemy raises the count by one |
| EnemyStats.EnemyCounter.Destroyed | Scripts/Enemy/EnemyStats.cs:283-286 | a destroyed enemy lowers the count by one |
| EnemyStats.Enemy.constructor | Scripts/Enemy/EnemyStats.cs:109-122 | a new enemy is counted and has full health of its recalculated stats |
| EnemyStats.Enemy.RecalculateStats | Scripts/Enemy/EnemyStats.cs:139-171 | the loops produce ((base × curse) ^ level), plus additive buffs in order, times the product of multiplicative buffs |
| EnemyStats.Enemy.Kill | Scripts/Enemy/EnemyStats.cs:244-250 | drops are activated and the enemy starts dying |
| EnemyStats.Enemy.TakeDamage | Scripts/Enemy/EnemyStats.cs:173-202 | as written: health always falls by the damage; a dodged insta-kill only skips the flash and the kill; health at 0 or below after an undodged hit switches the drops on and starts dying |
| EnemyStats.Enemy.RestoreHealth | Scripts/Enemy/EnemyStats.cs:224-234 | health rises by the amount, capped at max health, and is unchanged when already full |
| PlayerStats.CapIncrease | Scripts/Player/PlayerStats.cs:195-204 | with non-negative increases the cap increase is non-negative |
| PlayerStats.CapIncreaseIsFirstMatch | Scripts/Player/PlayerStats.cs:195-204 | the increase comes from the first range holding the level, or is 0 when none does |
| PlayerStats.LevelUpsSettle | Scripts/Player/PlayerStats.cs:189-210 | repeated level-ups end with experience below the cap, never lower the cap, add one level per level-up, and happen iff experience reached the cap |
| PlayerStats.Player.constructor | Scripts/Player/PlayerStats.cs:86-124 | a new player has full health, level 1, no experience, and the first range's cap; with a positive first cap increase, non-negative increases and a valid game manager the player is valid |
| PlayerStats.Player.Kill | Scripts/Player/PlayerStats.cs:262-269 | the game ends and the level is recorded once; a repeated kill changes nothing |
| PlayerStats.Player.TakeDamage | Scripts/Player/PlayerStats.cs:224-255 | while invincible nothing happens; otherwise health falls by damage − armour when positive, the invincibility window restarts, and the game ends iff health drops to 0 or below |
| PlayerStats.Player.RestoreHealth | Scripts/Player/PlayerStats.cs:272-285 | health rises by the amount, capped at max health, and is unchanged when already full |
| PlayerStats.Player.Recover | Scripts/Player/PlayerStats.cs:287-300 | health regenerates by recovery × dt with the same cap |
| PlayerStats.Player.Update | Scripts/Player/PlayerStats.cs:127-141 | the timer counts down while positive; invincibility is cleared only on a tick where it has run out; recovery applies |
| PlayerStats.Player.LevelUpChecker | Scripts/Player/PlayerStats.cs:189-210 | the recursion performs exactly the level-ups of the specification, ends below the cap, and queues one level-up screen each |
| PlayerStats.Player.IncreaseExperience | Scripts/Player/PlayerStats.cs:181-187 | the experience is added and then levelled up until below the cap |
| PlayerStats.ApplyBuffsConcat | Scripts/Player/PlayerStats.cs:163-175 | applying two buff lists in turn equals applying their concatenation, so buffs act in list order |
| PlayerStats.EmptySlotsIgnored | Scripts/Player/PlayerStats.cs:146-153 | an empty passive slot anywhere in the list adds nothing |
| PlayerStats.RecalculateStats | Scripts/Player/PlayerStats.cs:143-179 | the loops compute base plus passive boosts, then buffs in order, then the all-ones multiplier |
| MetaUpgrades.GetMaxLevel | Scripts/MetaUpgradeManager.cs:127-149 | the per-category cap: 15, 5, 3, 1 or 10 |
| MetaUpgrades.CostStrictlyIncreases | Scripts/MetaUpgradeManager.cs:151-155 | each extra level raises the next cost by exactly the per-level cost |
| MetaUpgrades.PurchaseFacts | Scripts/MetaUpgradeManager.cs:161-229 | a purchase fails and changes nothing at the cap or when coins fall short; on success coins drop by the cost and only that level rises by one |
| MetaUpgrades.PurchasesKeepInvariants | Scripts/MetaUpgradeManager.cs:161-229 | after any sequence of purchases every level is within its cap and coins stay non-negative |
| MetaUpgrades.PurchasesOnlyRaise | Scripts/MetaUpgradeManager.cs:161-229 | purchases never lower a level, and each success costs at least the base cost |
| MetaUpgrades.MetaStatsMatchUpgradeValue | Scripts/MetaUpgradeManager.cs:235-289 | each bonus is level × per-level value when the level is positive, and 0 otherwise |
| MetaUpgrades.FreshSaveGivesNoBonus | Scripts/MetaUpgradeManager.cs:235-289 | a save with no levels gives no bonus |
| MetaUpgrades.GameData.constructor | Scripts/MetaUpgradeManager.cs:77-100 | a fresh save has no coins and every level at 0 |
| MetaUpgrades.GameData.GetNextLevelCost | Scripts/MetaUpgradeManager.cs:151-155 | the cost is at least the base cost |
| MetaUpgrades.GameData.TryPurchaseUpgrade | Scripts/MetaUpgradeManager.cs:161-229 | the save changes exactly as the purchase specification says; coins drop by the cost on success |
| PlayerCollector.Collector.constructor | Scripts/Player/PlayerCollector.cs:20-24 | coins start at 0 |
| PlayerCollector.Collector.AddCoins | Scripts/Player/PlayerCollector.cs:35-40 | coins rise by exactly the amount, and the new total is returned |
| PlayerCollector.Collector.SaveCoinsToStash | Scripts/Player/PlayerCollector.cs:43-48 | all coins move to the stash, leaving the purse at 0, so stash + purse is conserved |
| Pickups.Pickup.constructor | Scripts/Pickups/Pickup.cs:8-29 | a new pickup has no target and the default lifespan |
| Pickups.Pickup.Collect | Scripts/Pickups/Pickup.cs:60-71 | the first collect sets target and speed, takes a positive lifespan, schedules destruction after max(0.01, lifespan) and returns true; later ones change nothing |
| Pickups.Pickup.OnDestroy | Scripts/Pickups/Pickup.cs:73-78 | with no target nothing happens; otherwise non-zero experience and health are granted |
| Pickups.OnTriggerEnter2D | Scripts/Player/PlayerCollector.cs:50-57 | touching a pickup collects it toward the player with the pull speed, only if it was not collected already |
| MapController.GetDirectionName | Scripts/Map/MapController.cs:71-117 | the result is always one of the eight direction names |
| MapController.ZeroIsDown | Scripts/Map/MapController.cs:95-112 | a zero vector gives "Down" |
| MapController.NameAgreesWithSigns | Scripts/Map/MapController.cs:71-117 | a name with Up means y > 0, Down y ≤ 0, Right x > 0 and Left x ≤ 0 |
| MapController.HorizontalIsPlainSide | Scripts/Map/MapController.cs:74-91 | horizontal-dominant movement with \|y\| ≤ 0.5 gives plain Right or Left |
| GameManager.GetCumulativeCurse | Scripts/GameManager.cs:74-84 | 1 without an instance, else max(1, 1 + Σ curse); always at least 1 |
| GameManager.GetCumulativeLevels | Scripts/GameManager.cs:87-96 | 1 without an instance, else max(1, Σ levels); always at least 1 |
| GameManager.StopwatchSplit | Scripts/GameManager.cs:326-327 | the displayed seconds are below 60, and minutes × 60 + seconds is the floor of the time |
| GameManager.Manager.constructor | Scripts/GameManager.cs:100-116 | the game starts in Gameplay with no stacked level-ups and the stopwatch at 0 |
| GameManager.Manager.ChangeState | Scripts/GameManager.cs:210-214 | the old state is remembered and the new one installed |
| GameManager.Manager.PauseGame | Scripts/GameManager.cs:215-223 | pausing remembers the state and stops time; pausing while paused changes nothing |
| GameManager.Manager.ResumeGame | Scripts/GameManager.cs:225-233 | resuming restores the remembered state and time; resuming while not paused changes nothing |
| GameManager.Manager.PauseThenResume | Scripts/GameManager.cs:215-233 | pause followed by resume restores the original state |
| GameManager.Manager.CheckForPauseAndResume | Scripts/GameManager.cs:235-248 | escape toggles between paused and the remembered state; without it nothing changes |
| GameManager.Manager.UpdateStopwatch | Scripts/GameManager.cs:304-322 | time advances, and the end-of-level block fires exactly when the limit is first reached, stopping the spawner |
| GameManager.Manager.TwoTicks | Scripts/GameManager.cs:304-322 | the end-of-level block never fires twice |
| GameManager.Manager.Update | Scripts/GameManager.cs:117-141 | the stopwatch runs only in Gameplay; the treasure-chest state freezes time; level-up stacking is untouched |
| GameManager.Manager.StartLevelUp | Scripts/GameManager.cs:333-347 | a level-up while the screen is open stacks one more; otherwise the screen opens and time stops; either way one more level-up is pending |
| GameManager.Manager.EndLevelUp | Scripts/GameManager.cs:349-360 | return to Gameplay; with stacked level-ups, one is consumed and the screen reopens; the pending count drops by one and never goes negative |
| GameManager.Manager.AssignLevelReached | Scripts/GameManager.cs:291-294 | the reached level is recorded |
| GameManager.Manager.GameOver | Scripts/GameManager.cs:257-278 | the state becomes GameOver, time stops, and every purse moves to the stash, so stash + purses is conserved |
| TreasureChest.BaseActions | Scripts/TreasureChest.cs:164-185 | an action is listed iff its drop type is allowed, and none is listed twice |
| TreasureChest.NoActionsIffNoFlags | Scripts/TreasureChest.cs:164-192 | the action list is empty iff no drop type is allowed |
| TreasureChest.Clamp | Scripts/TreasureChest.cs:42-47 | the result is within the bounds and equals the value when it already is |
| TreasureChest.SortedWeights | Scripts/TreasureChest.cs:53-61 | each profile's weight is its base chance scaled by luck, in the given ascending order |
| TreasureChest.PickFrom | Scripts/TreasureChest.cs:71-81 | the pick is the first profile whose running total exceeds the roll, or none when no total does |
| TreasureChest.PickBelowTotal | Scripts/TreasureChest.cs:71-81 | a roll below the total weight always picks a profile |
| TreasureChest.PickedIntervalHoldsRoll | Scripts/TreasureChest.cs:71-81 | the picked profile's cumulative interval contains the roll |
| TreasureChest.RangeRoll | Scripts/TreasureChest.cs:71 | the roll lies in [0, total] |
| TreasureChest.WeightedPick | Scripts/TreasureChest.cs:49-82 | the random pick equals the specification's pick for the drawn roll and consumes one draw |
| TreasureChest.TotalWeight | Scripts/TreasureChest.cs:64-67 | the loop sums the weights |
| TreasureChest.CumulativeScan | Scripts/TreasureChest.cs:72-81 | the cumulative loop picks exactly the specification's profile |
| TreasureChest.PickupTally.constructor | Scripts/TreasureChest.cs:19 | the pickup count starts at 0 |
| TreasureChest.TryEvolve | Scripts/TreasureChest.cs:96-115 | nothing is evolved iff no weapon can evolve; otherwise the result is an evolvable weapon |
| TreasureChest.TryUpgrade | Scripts/TreasureChest.cs:118-129 | nothing is upgraded iff no item of the category passes the written level guard, and then nothing changes; otherwise the result is such an item, the first slot of the category holding its data gains one level when that item passes the guard, and the other category is untouched |
| TreasureChest.TryGive | Scripts/TreasureChest.cs:133-146 | nothing is given iff there is no free slot or nothing unowned, and then nothing changes; otherwise the result is unowned |
| TreasureChest.Perform | Scripts/TreasureChest.cs:195-233 | an action succeeds iff it is possible in the current inventory, and a failure changes nothing |
| TreasureChest.OpenSlot | Scripts/TreasureChest.cs:195-233 | each action is tried at most once and the loop stops at the first success; if all fail, every allowed action was impossible and nothing changed |
| TreasureChest.NoneTriedNonePossible | Scripts/TreasureChest.cs:195-233 | having tried every action without success means none was possible |
| TreasureChest.Chest.constructor | Scripts/TreasureChest.cs:14-20 | a new chest starts at profile 0 and is active |
| TreasureChest.Chest.SequentialIndex | Scripts/TreasureChest.cs:42-47 | the index lies within the profiles and equals the pickup count when in range |
| TreasureChest.Chest.GetNextDropProfile | Scripts/TreasureChest.cs:32-85 | none without profiles; sequential mode clamps the pickup count; random mode takes the weighted pick and keeps the current profile when none is picked |
| TreasureChest.Chest.GetRewardCount | Scripts/TreasureChest.cs:88-93 | the chosen profile's item count, or 1 without profiles |
| TreasureChest.Chest.Open | Scripts/TreasureChest.cs:159-234 | with no allowed drop type the default sprite shows once and nothing is given; otherwise every reward slot either grants or shows the default sprite |
| TreasureChest.Chest.PickUp | Scripts/TreasureChest.cs:236-256 | the pickup count wraps modulo profiles + 1; in sequential mode rewardCount opens run rewardCount² slots |
| SpawnManager.WaveEndsWhenConditionsMet | Scripts/Spawning/SpawnManager.cs:102-117 | a wave ends unless its duration condition is unmet or its kill-all condition still has enemies |
| SpawnManager.CooldownIncrement | Scripts/Spawning/SpawnManager.cs:74-78 | the increment is the interval, divided by the curse when boosted, so it never exceeds the interval |
| SpawnManager.Spawner.constructor | Scripts/Spawning/SpawnManager.cs:5-15 | the spawner starts enabled at wave 0 with all counters at 0 |
| SpawnManager.Spawner.ActivateCooldown | Scripts/Spawning/SpawnManager.cs:74-78 | the timer rises by the cooldown increment |
| SpawnManager.Spawner.Update | Scripts/Spawning/SpawnManager.cs:26-71 | before the timer runs out only the duration grows; at wave end the index advances, counters reset and the spawner disables past the last wave; otherwise the wave spawn count and the live count rise together by the number spawned, which is 0 when spawning is barred |
| EnemySpawner.SpawnedWithinQuota | Scripts/Enemy/EnemySpawner.cs:85-116 | the wave's spawned total never exceeds its quota |
| EnemySpawner.SpawnPassFacts | Scripts/Enemy/EnemySpawner.cs:100-127 | a pass spawns at most one per unfinished group, keeps the per-group bound, and stops exactly when the alive cap is reached |
| EnemySpawner.Spawner.constructor | Scripts/Enemy/EnemySpawner.cs:45-49 | the spawner starts at wave 0 with no enemies alive |
| EnemySpawner.Spawner.CalculateWaveQuota | Scripts/Enemy/EnemySpawner.cs:85-93 | the quota is the sum of the groups' enemy counts |
| EnemySpawner.Spawner.SpawnEnemies | Scripts/Enemy/EnemySpawner.cs:100-127 | nothing happens at quota or at the cap; otherwise the group counts, the wave count and the alive count rise together as the pass says |
| EnemySpawner.Spawner.OnEnemyKilled | Scripts/Enemy/EnemySpawner.cs:130-139 | one fewer alive, and the cap flag clears when below the maximum |
| EnemySpawner.GroupLoop | Scripts/Enemy/EnemySpawner.cs:105-125 | the group loop computes exactly the specified pass |
| Events.LuckDivisor | Scripts/Spawning/EventData.cs:29 | the luck divisor is at least 1 |
| Events.LuckOnlyLowersChance | Scripts/Spawning/EventData.cs:23-32 | the effective chance never exceeds the probability and falls as luck rises |
| Events.LuckNeverHelps | Scripts/Spawning/EventData.cs:23-32 | an uncertain event passes only on rolls its bare probability would also pass |
| Events.ActiveOnesFacts | Scripts/Spawning/EventData.cs:15-20 | an event is active iff a manager exists and the elapsed time is past its start |
| Events.Candidates | Scripts/Spawning/EventManager.cs:88-96 | the candidates start with every event and hold no others |
| Events.ActiveOnesMultiset | Scripts/Spawning/EventManager.cs:88-96 | an active event appears as often among the active ones as among all events, and an inactive one never |
| Events.CandidatesDoubleCount | Scripts/Spawning/EventManager.cs:88-96 | each active event is counted twice among the candidates, each inactive one once |
| Events.Ticked | Scripts/Spawning/EventManager.cs:57-76 | a tick lowers duration and cooldown by dt, and a firing event's cooldown resets to its interval |
| Events.SurvivorsFacts | Scripts/Spawning/EventManager.cs:57-79 | expired events are removed, and the survivors are the ticked ones in order |
| Events.FiringFacts | Scripts/Spawning/EventManager.cs:68-75 | exactly the live events whose cooldown ran out fire |
| Events.FiredEventsSurvive | Scripts/Spawning/EventManager.cs:60-75 | a fired event stays running with its cooldown reset |
| Events.EventManager.constructor | Scripts/Spawning/EventManager.cs:27-33 | the first cooldown is the first-trigger delay when positive, else the trigger interval |
| Events.EventManager.CandidateList | Scripts/Spawning/EventManager.cs:88-96 | the loop builds exactly the candidate list |
| Events.EventManager.GetRandomEvent | Scripts/Spawning/EventManager.cs:82-105 | none iff there are no events; otherwise a member of the events |
| Events.EventManager.Trigger | Scripts/Spawning/EventManager.cs:37-51 | when the cooldown runs out, at most one event is added and the cooldown resets to the interval |
| Events.EventManager.Tick | Scripts/Spawning/EventManager.cs:57-79 | the running list becomes the survivors and exactly the firing events are activated, each at a valid player |
| Events.EventManager.TickOne | Scripts/Spawning/EventManager.cs:57-76 | one event expires, or ticks and activates when its cooldown ran out |
| Events.EventManager.Update | Scripts/Spawning/EventManager.cs:34-80 | trigger then tick: the running list and activations follow the specification |
| DropRateManager.Eligible | Scripts/DropRateManager.cs:27-33 | the eligible drops are exactly those with roll ≤ drop rate |
| DropRateManager.EligibleAntitone | Scripts/DropRateManager.cs:27-33 | a higher roll never makes more drops eligible, and one above every rate makes none eligible |
| DropRateManager.Dropper.constructor | Scripts/DropRateManager.cs:14-15 | a new manager has spawned nothing |
| DropRateManager.Dropper.PossibleDrops | Scripts/DropRateManager.cs:27-33 | the loop builds exactly the eligible list |
| DropRateManager.Dropper.OnDestroy | Scripts/DropRateManager.cs:17-42 | nothing drops when inactive or unloading; otherwise exactly one eligible drop spawns when any exists, and none otherwise |
| PropertyDisplay.ToUpper | Scripts/UI/UIPropertyDisplay.cs:98-101 | upper-casing keeps whitespace and non-letters |
| PropertyDisplay.PrettyLength | Scripts/UI/UIPropertyDisplay.cs:86-111 | the output length is the input length plus the inserted spaces |
| PropertyDisplay.PrettyPositions | Scripts/UI/UIPropertyDisplay.cs:86-111 | each input character lands, cased, after the spaces inserted so far, with a space before each inserted word start |
| PropertyDisplay.PrettyStartsUpper | Scripts/UI/UIPropertyDisplay.cs:98-101 | the first character is upper-cased |
| PropertyDisplay.PrettifyNames | Scripts/UI/UIPropertyDisplay.cs:86-111 | empty input gives null; otherwise the loop builds the prettified name |
| PropertyDisplay.NatToString | Scripts/UI/UIPropertyDisplay.cs:53 | a number renders as a non-empty string of digits |
| PropertyDisplay.NatToStringRoundTrip | Scripts/UI/UIPropertyDisplay.cs:53 | reading the digits back gives the number |
| PropertyDisplay.RoundHalfEven | Scripts/UI/UIPropertyDisplay.cs:41 | rounding lands within 0.5, goes to even on halves, and keeps integers |
| PropertyDisplay.PercentLineReadsBack | Scripts/UI/UIPropertyDisplay.cs:43-53 | the percent line is "-" iff the value is 0, starts with '+' iff positive, and reads back as the value |
| PropertyDisplay.ProcessName | Scripts/UI/UIPropertyDisplay.cs:24-28 | hidden fields leave the output unchanged; shown ones append the name and a newline |
| PropertyDisplay.ProcessNameAddsOneLine | Scripts/UI/UIPropertyDisplay.cs:24-28 | a shown name adds exactly one line |
| PropertyDisplay.ProcessValue | Scripts/UI/UIPropertyDisplay.cs:32-61 | hidden fields leave the output unchanged; ranged float fields append the percent line; others append the value text and a newline |
| PropertyDisplay.PercentLineIsOneLine | Scripts/UI/UIPropertyDisplay.cs:43-53 | the percent line is exactly one line |
| PropertyDisplay.RangedValueLine | Scripts/UI/UIPropertyDisplay.cs:38-54 | a ranged float renders round(v × 100 − 100) as a percent, and a value of 1 renders "-" |
| EnemyMovement.Exponent | Scripts/Enemy/EnemyMovement.cs:86-90 | the exponent is 0.5 iff both variance flags are set, else 1 |
| EnemyMovement.FrameDecision | Scripts/Enemy/EnemyMovement.cs:54-75 | an enemy is destroyed iff it is outside, in despawn mode and was not spawned outside; being inside is recognised as such |
| EnemyMovement.DespawnedIff | Scripts/Enemy/EnemyMovement.cs:54-75 | over a run of frames, a despawn-mode enemy is destroyed iff it is once outside after having been inside, or was not spawned outside |
| EnemyMovement.Mover.constructor | Scripts/Enemy/EnemyMovement.cs:25-35 | spawned-outside is whether the spawn point is outside the frame, and there is no knockback |
| EnemyMovement.Mover.Knockback | Scripts/Enemy/EnemyMovement.cs:77-96 | ignored during a running knockback or with no variance flag; otherwise velocity and duration are scaled only when flagged |
| EnemyMovement.Mover.HandleOutOfFrameAction | Scripts/Enemy/EnemyMovement.cs:54-75 | the decision moves the enemy to the edge, destroys it, or clears the spawned-outside flag |
| EnemyMovement.Mover.Update | Scripts/Enemy/EnemyMovement.cs:37-50 | during knockback the enemy drifts and the duration shrinks without moving on its own; otherwise it moves and the frame rule applies |
| Common.Restored | Scripts/Player/PlayerStats.cs:272-300 | healing never lowers health, caps at max health, and is a no-op when already full |

## Left out

- Engine plumbing is not part of this model: UI and editor code, animations, coroutines, particles, physics, camera and transforms, and audio. Visual effects are kept only as counters or flags (`flashes`, `defaultsShown`).
- `SaveManager` file and JSON I/O is not part of this model. Only the save record, coins plus one level per upgrade type, is modelled.
- `Random.value` and `Random.Range` are explicit rolls or draws from `Common.Dice`. `Mathf.Pow` is an uninterpreted function parameter. `GetDirectionName` takes an already normalised vector.
- Floats are unbounded reals and integers are unbounded. Single-precision rounding and 32-bit overflow are not modelled.
- `EntityStats`, `BuffData`, `Item`, `Passive` and `CharacterData.Stats` are not part of this model.
  - Buffs are given as lists.
  - The base `ApplyBuff` result is a `delegated` parameter.
  - Player stats are generic over the stats type, with its `+` and `*` as parameters.
  - Meta bonuses are a map from upgrade type to value.
- Evolution (`Item.CanEvolve`, `AttemptEvolution`) is an oracle `canEvolve`, and the evolve action only selects an evolvable weapon. The evolution attempts inside the base `Item.DoLevelUp` are not modelled.
- Items in slots are values, not objects, so aliasing is not modelled. A treasure-chest upgrade levels the first slot holding that data.
- `Type.GetType(data.behaviour)` reflection in `Add(WeaponData)` is a `behaviourResolves` flag on the weapon data.
- `Add(ItemData)`, `Remove(ItemData)` and `LevelUp(Item)` dispatch by the data's kind, so the kind selects the slot list. Data that is neither a weapon nor a passive is not representable.
- The inventory assumes a `GameManager` instance is present.
- The unstable sort of drop profiles by weight is a given order `order`, required to be ascending in weight.
- Exceptions caught inside `TreasureChest.Open` are not modelled. The unresolvable-weapon case appears as a failed give.
- `WaveData.GetSpawns`, `GetSpawnInterval` and `EventData.GetSpawnInterval` are inputs. `SpawnManager.GeneratePosition` and `IsWithinBoundaries` become the `within` and `edge` inputs. The `MoveTowards` step becomes a `walkedTo` input.
- The knockback overload `EnemyStats.TakeDamage(dmg, sourcePosition, ...)`, `OnCollisionStay2D` and the global buffs applied in `Start` are not modelled.
- `EnemySpawner.Update` and `BeginNextWave` timing and spawn positions are not modelled. Only the counters of `SpawnEnemies` and `OnEnemyKilled` are.
- `Pickup` movement and bobbing, `MapController` chunk spawning, and the map optimiser are not modelled.
- `GameManager` floating text, screens, and the reaper spawn are not modelled, nor is the killing of enemies at the end of the level. Only the spawner is switched off.
- `UIPropertyDisplay.GetProperties` reflection is not modelled. `AppendLine` is a `"\n"`. Float-to-text formatting is a parameter `floatText`. Character classes are ASCII.
- `Mathf.Round` is modelled as round-half-to-even.
- PlayerStats.Player.LevelUpChecker: requires a positive experience cap and non-negative cap increases. With a cap of 0 or below, or an increase that brings it there, the source's recursion never ends; that non-termination is not represented.
- PlayerInventory.Inventory.RemovePassive: the outcome is stated only when the weapon slots hold weapons only. A passive sitting in a weapon slot cannot arise through `Add`.
- SpawnManager.Spawner.Update: the number spawned is bounded by the spawn count rather than stated exactly. The admission check is re-evaluated before each spawn.
- TreasureChest.Chest.Open: the reward count is stated exactly only in sequential mode. In random mode it follows the weighted pick of `GetNextDropProfile`.

## Findings

| source | as written | input that shows it | evidently intended | confidence | as-written member | corrected member |
|---|---|---|---|---|---|---|
| Scripts/Weapons/Weapon.cs:102-108 | the guard `CanLevelUp` (`Item.cs`, lines 105-108) is `currentLevel <= maxLevel` | any item at its max level m (say 8 of 8) passes and levels to m + 1 | `currentLevel < maxLevel` | high, not executed | Weapon.AsWrittenPassesMaxLevel | Weapon.LevelUpsStayWithinMax |
| Scripts/Player/PlayerInventory.cs:99-110 | `Remove(WeaponData)` reads `data` of every slot up to the match, empty ones included | any weapon slots with an empty slot before the first W, e.g. [empty, W], and `Remove(W)`: null dereference at that empty slot | skip empty slots and clear the first slot holding W | high, not executed | PlayerInventory.EmptySlotBeforeMatch | PlayerInventory.ClearFirstMatchRemovesOne |
| Scripts/Player/PlayerInventory.cs:115-131 | `Remove(PassiveData)` scans `weaponSlots` | passive slots [P], weapon slots [W] and `Remove(P)`: the passive is never cleared | scan `passiveSlots` | high, not executed | PlayerInventory.Inventory.RemovePassive | PlayerInventory.ClearFirstMatch |
| Scripts/Enemy/EnemyStats.cs:173-188 | health is reduced before the insta-kill dodge roll | health 10, max health 10, kill resistance 0.5, roll 0.1, damage 10: the dodge succeeds but health drops to 0 | a dodged insta-kill leaves health untouched | medium, not executed | EnemyStats.DodgedInstaKillStillHurts | EnemyStats.HitOutcomeAsIntended |
