# RPG rules engine: characters, equipment, spells and progression

A Dafny model of the rules core of a small Unity role-playing game. It covers:

- **Equipment.** Up to four optional slots (staff, robe, ring, brooch) are collapsed into sums: damage reduction, MP regeneration bonus, and range bonus. A principle-gated damage bonus counts only for spells whose principle list contains the item's target principle.
- **Spells (`Magic`).** Each spell has a base damage, MP cost and range, and its own proficiency state machine (level, experience, next threshold). The final damage and final MP cost are derived from the proficiency level.
- **The player character.** Level, HP and MP with their caps, experience and gold. Level-ups, damage mitigation, healing, MP use, recovery and regeneration.
- **The game manager.** New-game defaults, the experience → level loop, the gold economy, the cast transaction (pay MP, then gain proficiency), the pause flag and the per-frame MP regeneration gate.

Files, one module each:

- `numeric.dfy` (`Numeric`): `Trunc` for C#'s `(int)` cast, `Ceil` for `Mathf.CeilToInt`, `Max`.
- `equipment.dfy` (`Equipments`): `PrincipleType`, `EquipmentType`, `Equipment`, the `Slot` type for a nullable slot, and the sums over equipped items.
- `magic.dfy` (`Magics`): the `Magic` class, the derived damage and cost, and the proficiency loop specified by `Settle`.
- `character.dfy` (`Characters`): the `Character` class and the value-level specifications of its updates (`HpAfterDamage`, `Capped`, `RegenAmount`, `Pay`).
- `game_manager.dfy` (`GameManagement`): the `GameManager` class and the level loop specified by `Advance`.

Modelling choices:

- Every float is an exact `real`. The `(int)` cast truncates toward zero (`Trunc`).
- `Mathf.Log` is a parameter `log: int -> real`. Lemmas about it assume `IsLogCurve(log)`: `log(1) = 0` and `log` is non-decreasing on positive arguments.
- `Character.GetRequiredExp` is called by the game manager but is not part of this model. It is a parameter `required: int -> int`, and the loop lemmas assume `PositiveCurve(required)`, i.e. every requirement is positive.
- A null equipment slot is `Slot.Empty`. A null spell or player reference is a nullable class type (`Magic?`, `Character?`).
- `Character`, `Magic` and `GameManager` are classes, because the game updates their fields in place. Each method's `modifies` clause names exactly the fields it writes.
- An item targeting `PrincipleType.None` matches any spell whose principle list contains `None`, because the game uses a plain `Contains` (Character.cs:75). `GatedBonus` keeps that behaviour.
- The game's code does not keep `0 ≤ currentHP ≤ maxHP` and `0 ≤ currentMP ≤ maxMP`. A negative heal or recovery can break them. So can a negative `UseMp` amount, and so can an MP regeneration whose summed bonus is below −1 or whose time step is negative. The model states the bounds as `VitalsInRange` and proves that each operation preserves them only for the inputs that keep them.

## Model

| member | source | states |
|---|---|---|
| `Characters.Character.constructor` | Assets/Scripts/Data/Character.cs:13-32 | a fresh character has the field initialisers' values: level 1, 100/100 HP, 100/100 MP, no experience, no gold, all slots empty, no spells |
| `Characters.Character.GetAllEquipments` | Assets/Scripts/Data/Character.cs:39-47 | the result is exactly the filled slots, in the order staff, robe, ring, brooch |
| `Equipments.PresentMembership` | Assets/Scripts/Data/Character.cs:39-47 | an item is in the collected list if and only if some slot holds it |
| `Equipments.PresentCons` | Assets/Scripts/Data/Character.cs:41-46 | collecting a slot list that starts with one slot gives that slot's zero or one item, followed by the items of the rest |
| `Equipments.PresentOfFour` | Assets/Scripts/Data/Character.cs:41-46 | collecting four slots is the concatenation of each slot's zero or one item, in slot order |
| `Equipments.SumAppend` | Assets/Scripts/Data/Character.cs:54 | a sum over two lists joined end to end is the sum of the two sums |
| `Equipments.SumOverSlots` | Assets/Scripts/Data/Character.cs:54 | the sum over the items collected from any list of slots equals the sum of the per-slot contributions, an empty slot contributing 0 |
| `Equipments.FourSlotTotal` | Assets/Scripts/Data/Character.cs:52-63 | for the four slots, the sum over the equipped items equals the four per-slot contributions added together |
| `Characters.Character.GetTotalDamageReduction` | Assets/Scripts/Data/Character.cs:52-55 | the total reduction is the sum of the damage reductions of the filled slots; it is 0 with no equipment and is not clamped |
| `Characters.Character.GetTotalMpRegenBonus` | Assets/Scripts/Data/Character.cs:60-63 | the total regeneration bonus is the sum of the bonuses of the filled slots; it is 0 with no equipment |
| `Characters.PrincipleMultiplier` | Assets/Scripts/Data/Character.cs:71-79 | the multiplier loop returns 1 plus the sum, over the given items, of the principle bonus of each item whose target principle is listed; an item that does not match adds nothing |
| `Characters.Character.GetFinalMagicDamage` | Assets/Scripts/Data/Character.cs:69-81 | the result is the spell's final damage × (1 + the sum of the principle bonuses of the equipped items whose target is listed by the spell); bonuses add to the multiplier and do not multiply each other |
| `Equipments.GatedSnoc` | Assets/Scripts/Data/Character.cs:72-79 | an item adds its principle bonus to the multiplier when the spell lists its target principle, and adds nothing otherwise |
| `Equipments.NoMatchNoBonus` | Assets/Scripts/Data/Character.cs:72-79 | when no item's target principle is listed by the spell, the gated bonus is 0, so the multiplier stays 1 |
| `Characters.Character.GetFinalMagicRange` | Assets/Scripts/Data/Character.cs:85-91 | the result is the base range × (1 + the range bonuses of the four slots added together, an empty slot adding 0), with no principle gating |
| `Characters.Character.LevelUp` | Assets/Scripts/Data/Character.cs:101-114 | the level rises by 1, max HP by 10 and max MP by 5; the frame leaves current HP and MP, experience and gold untouched; the vitals invariant is preserved |
| `Characters.EffectiveDamage` | Assets/Scripts/Data/Character.cs:121-124 | the damage that gets through is never negative: 0 when damage × (1 − reduction) ≤ 0, otherwise that product rounded down |
| `Characters.HpAfterDamage` | Assets/Scripts/Data/Character.cs:119-128 | HP after a hit is never negative and never above a non-negative HP before it; it is HP minus the effective damage when that is affordable, and 0 otherwise |
| `Characters.UnmitigatedDamage` | Assets/Scripts/Data/Character.cs:119-128 | with total reduction 0 and damage ≥ 0, HP becomes max(0, HP − damage) |
| `Characters.ThirtyPercentMitigation` | Assets/Scripts/Data/Character.cs:121-125 | a hit of 100 through a total reduction of 0.3 costs exactly 70 HP, stopping at 0 |
| `Characters.FullMitigation` | Assets/Scripts/Data/Character.cs:121-122 | with a summed reduction of 1 or more, a non-negative hit changes nothing except raising a negative HP to 0; it never heals |
| `Characters.Character.TakeDamage` | Assets/Scripts/Data/Character.cs:119-128 | the new HP is `HpAfterDamage` of the old HP, the damage and the equipment's total reduction; only HP changes, and the vitals invariant is preserved |
| `Characters.RegenAmount` | Assets/Scripts/Data/Character.cs:136-137 | with a bonus ≥ −1 and a non-negative time step, the regenerated amount is (1 + bonus) × seconds rounded down, and is never negative |
| `Characters.Character.RegenerateMpOverTime` | Assets/Scripts/Data/Character.cs:133-139 | MP rises by `RegenAmount` and stops at max MP; the vitals invariant is preserved for a bonus ≥ −1 and a non-negative time step |
| `Characters.Capped` | Assets/Scripts/Data/Character.cs:146-147 | a recovery yields current + amount when that fits under the cap, and the cap otherwise |
| `Characters.CappedKeepsRange` | Assets/Scripts/Data/Character.cs:170-173 | a non-negative recovery of a value within [0, cap] keeps it within [0, cap] and never lowers it |
| `Characters.Character.Heal` | Assets/Scripts/Data/Character.cs:144-150 | HP becomes min(HP + amount, max HP); a non-negative heal preserves the vitals invariant |
| `Characters.Pay` | Assets/Scripts/Data/Character.cs:157-164 | a spend is accepted if and only if the balance covers it, and then leaves balance − amount, which is never negative |
| `Characters.PayAtTen` | Assets/Scripts/Data/Character.cs:155-165 | a balance of 10 admits every spend from 0 to 10, leaving 10 − x, and refuses 11 |
| `Characters.Character.UseMp` | Assets/Scripts/Data/Character.cs:155-165 | returns true if and only if current MP ≥ amount; on true MP drops by exactly the amount; on false nothing changes |
| `Characters.Character.RecoverMp` | Assets/Scripts/Data/Character.cs:170-176 | MP becomes min(MP + amount, max MP); a non-negative recovery preserves the vitals invariant |
| `Magics.Magic.constructor` | Assets/Scripts/Data/Character.cs:227-250 | a spell as content defines it starts at proficiency level 0 with 0 experience and a threshold of 100 |
| `Magics.FinalDamageAt` | Assets/Scripts/Data/Character.cs:262-270 | the damage formula base × (1 + 0.05 ln(level + 1)): at proficiency level 0 it gives exactly the base damage, and for a non-negative base at any level ≥ 0 it never gives less than the base |
| `Magics.Magic.FinalDamage` | Assets/Scripts/Data/Character.cs:262-270 | a spell's final damage is never below its (non-negative) base damage, however much it has been practised |
| `Magics.Magic.FinalMpCost` | Assets/Scripts/Data/Character.cs:275-283 | a cast costs at least 1 MP, and for a non-negative base cost it never costs more than the unpractised cost max(1, base) |
| `Equipments.GatedBonus` | Assets/Scripts/Data/Character.cs:75-78 | an item contributes its principle bonus when its target principle is in the spell's list (a plain membership test, `None` included), and 0 otherwise |
| `Magics.FinalDamageAtLevelZero` | Assets/Scripts/Data/Character.cs:262-270 | at proficiency level 0 the final damage equals the base damage |
| `Magics.FinalDamageMonotone` | Assets/Scripts/Data/Character.cs:262-270 | for a non-negative base damage, the final damage never decreases as the proficiency level rises |
| `Magics.FinalMpCostAt` | Assets/Scripts/Data/Character.cs:275-283 | the final MP cost is always at least 1; it is the least integer that is ≥ 1 and ≥ base cost × (1 − 0.03 ln(level + 1)) |
| `Magics.FinalMpCostAtLevelZero` | Assets/Scripts/Data/Character.cs:275-283 | at proficiency level 0 the cost is max(1, base cost) |
| `Magics.FinalMpCostMonotone` | Assets/Scripts/Data/Character.cs:275-283 | for a non-negative base cost, the final MP cost never increases as the proficiency level rises |
| `Magics.Gain` | Assets/Scripts/Data/Character.cs:294 | in exact arithmetic one cast earns 10 + the player's level |
| `Magics.Grow` | Assets/Scripts/Data/Character.cs:303 | a non-negative threshold grows to ⌊6n/5⌋, so a positive threshold stays positive and never shrinks |
| `Magics.Settle` | Assets/Scripts/Data/Character.cs:298-306 | the level-up loop ends with experience below a positive threshold; the level and threshold never decrease, the experience never rises, and non-negative experience stays non-negative |
| `Magics.SettleStep` | Assets/Scripts/Data/Character.cs:298-303 | one turn of the loop (gain a level, pay the threshold, grow it), taken when the experience reaches a positive threshold, does not change where the loop ends |
| `Magics.SettleClosedForm` | Assets/Scripts/Data/Character.cs:298-306 | after k level-ups the threshold has grown k times, and the experience has paid exactly the k thresholds, each one the threshold in effect at that moment |
| `Magics.SettleLevelUpsAffordable` | Assets/Scripts/Data/Character.cs:298 | every level-up the loop performed was affordable: before the j-th one, the remaining experience reached the threshold then in effect |
| `Magics.SettleExactThreshold` | Assets/Scripts/Data/Character.cs:291-307 | from (level 0, exp 0, threshold 100), a gain of 100 gives (1, 0, 120) |
| `Magics.SettleTwoLevelUps` | Assets/Scripts/Data/Character.cs:291-307 | from the same start, a gain of 250 gives two level-ups: (2, 30, 144) |
| `Magics.Magic.AddProficiencyExp` | Assets/Scripts/Data/Character.cs:291-307 | the new proficiency is `Settle` of the old one plus the gain; it ends with experience below the threshold, the level never decreases, the spell invariant is preserved, and only the three proficiency fields change |
| `GameManagement.GameManager.constructor` | Assets/Scripts/Managers/GameManager.cs:16-19 | a manager starts with no player and not paused |
| `GameManagement.GameManager.InitializeGame` | Assets/Scripts/Managers/GameManager.cs:43-60 | acts only when there is no player: it then creates a fresh character with ID "player_001", level 1, 100/100 HP, 100/100 MP and 100 gold; an existing player is kept as is |
| `GameManagement.GameManager.ResetGame` | Assets/Scripts/Managers/GameManager.cs:216-219 | the player is always replaced by a fresh default character |
| `GameManagement.Advance` | Assets/Scripts/Managers/GameManager.cs:109-121 | given positive requirements, the level loop ends with experience below what the final level requires; the level never decreases and non-negative experience stays non-negative |
| `GameManagement.AdvanceClosedForm` | Assets/Scripts/Managers/GameManager.cs:111-117 | the loop's experience drop equals the sum of the requirements of the levels it left, each one taken at the level before the increment |
| `GameManagement.AdvanceLevelUpsAffordable` | Assets/Scripts/Managers/GameManager.cs:111-113 | on reaching each level it left, the remaining experience covered that level's requirement |
| `GameManagement.AdvanceOnFlatCurve` | Assets/Scripts/Managers/GameManager.cs:95-122 | with a flat requirement of 100, a level-1 character with no experience that gains 250 ends at level 3 with 50 experience left |
| `GameManagement.GameManager.CheckLevelUp` | Assets/Scripts/Managers/GameManager.cs:107-122 | the new level and experience are `Advance` of the old ones; with k level-ups, max HP rises by exactly 10k and max MP by exactly 5k |
| `GameManagement.GameManager.AddExperience` | Assets/Scripts/Managers/GameManager.cs:95-102 | the experience is added, then the level loop runs: the result is `Advance` of (level, exp + gain), with max HP and max MP rising by 10 and 5 per level gained |
| `GameManagement.GameManager.AddGold` | Assets/Scripts/Managers/GameManager.cs:136-140 | gold rises by exactly the amount |
| `GameManagement.GameManager.SpendGold` | Assets/Scripts/Managers/GameManager.cs:145-156 | returns true if and only if gold ≥ amount; on true gold drops by the amount; on false gold is unchanged |
| `GameManagement.GameManager.UseMagic` | Assets/Scripts/Managers/GameManager.cs:161-176 | a null spell returns false with no change; otherwise success holds if and only if MP covers the cost computed before the cast; on success MP drops by that cost, the spell gains proficiency once (per `Settle`), its cost never rises and its damage never falls; on failure MP and all three proficiency fields are unchanged |
| `GameManagement.GameManager.TogglePause` | Assets/Scripts/Managers/GameManager.cs:181-184 | the pause flag is flipped |
| `GameManagement.GameManager.Update` | Assets/Scripts/Managers/GameManager.cs:65-78 | MP changes only when the game is not paused, a player exists and MP is below its maximum; it then regenerates by `RegenAmount` up to the cap |
| `GameManagement.GameManager.RegenerateMp` | Assets/Scripts/Managers/GameManager.cs:83-90 | regeneration happens only while current MP is below max MP; otherwise MP is unchanged |

## Left out

- I/O and engine services are not modelled: `Debug.Log` messages, `OnLevelUp` (it only logs), `Time.timeScale` in `TogglePause`, and the singleton set-up in `Awake`/`DontDestroyOnLoad`.
- Scene loading is not modelled. `LoadScene`, `LoadSceneAsync` and the scene load at the end of `ResetGame` are engine calls and a coroutine.
- The debug key in `Update` that grants one level's worth of experience is not modelled: it is keyboard input.
- The frame time `Time.deltaTime` becomes the `deltaTime` parameter of `Update` and `RegenerateMp`.
- The UI display, the player controller and the scene controller only read the character or wrap engine services, and are not modelled.
- `Character.GetRequiredExp` is not part of this model. Its body is not in the source; it is the `required` parameter, assumed positive.
- `Mathf.Log` is not modelled exactly. It is the `log` parameter, assumed zero at 1 and non-decreasing.
- IEEE single-precision rounding is not modelled: every float is an exact real. As a result, `Gain` is exactly 10 + level, and `Grow` is exactly ⌊6n/5⌋. Float products such as `100 * (1 - 0.3f)` may round differently in the game.
- 32-bit integer overflow is not modelled: integers are unbounded.
- Cosmetic or unused data is not modelled: sprites and icons, `projectileSpeedBonus`, `form`, `effects`, `castTime`, `cooldown` and `baseSpeed`. No formula uses them.
- The commented-out status-effect code is not modelled.
- String fields that C# leaves null start as the empty string.
- `Magics.FinalDamageMonotone`: states only that damage is non-decreasing in the proficiency level. Strict concavity would need a concave logarithm, which `IsLogCurve` does not assume.
- `Magics.Magic.AddProficiencyExp`: requires a positive threshold. With a threshold ≤ 0 the source's loop need not terminate; every spell starts at 100 and the loop keeps the threshold positive.
- `GameManagement.GameManager.AddExperience`: requires a non-null player, as do `CheckLevelUp`, `AddGold`, `SpendGold`, `UseMagic` and `RegenerateMp`. The source dereferences the player without a check, so a null player would throw.
- `Characters.Character.GetFinalMagicDamage`: takes a non-null `Magic`, as does `Characters.Character.GetFinalMagicRange`. The source dereferences the spell (Character.cs:75, 80, 90) and would throw on null.
- `Characters.Character.VitalsInRange`: is not an enforced invariant. It is preserved only for non-negative heal, recovery and MP amounts. For `RegenerateMpOverTime` it is preserved only when the summed `mpRegenBonus` is at least −1 and the time step is non-negative. Otherwise the truncated amount (Character.cs:136-137) is negative and can push MP below 0. The source validates none of these inputs.
