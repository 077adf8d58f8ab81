# Pokémon battle engine — a verified Dafny model

This project models the core of a small turn-based Pokémon battle engine written in Python.
It covers:

- the data model: moves, Pokémon, trainers, held items and abilities;
- the battle resolver that plays one turn between two active Pokémon;
- the name normaliser and in-memory cache of the GUI's sprite manager.

There is one Dafny module per source file:

| file | module | form |
|---|---|---|
| `enums.dfy` | `Enums` | datatypes for the enumerations, the status value round trip |
| `move.dfy` | `Moves` | class `Move`, whose PP changes in place |
| `pokemon.dfy` | `Pokemons` | class `Pokemon`, whose HP, stages, status and volatile set change in place; `Value()` is the dataclass's field-wise equality |
| `trainer.dfy` | `Trainers` | class `Trainer`, whose party list and active pointer are reassigned |
| `item.dfy` | `Items` | pure: item records, the registry, lookup by display name |
| `ability.dfy` | `Abilities` | pure: ability records, the registry, Levitate's damage hook |
| `battle.dfy` | `Battles` | pure rules: the type chart, the damage formula, move ranking, move order, status ticks and replacement. Class `Battle` holds the turn counter, the log and the combatants, and plays a turn step by step |
| `sprite_manager.dfy` | `Sprites` | pure name normaliser and cache key; class `SpriteManager` holds the cache map |
| `common.dfy`, `text.dfy` | `Common`, `Text` | Option/Result, ASCII lowering, `str.replace`, decimal rendering |

Randomness is passed in as explicit draws.

- `DamageRolls` holds the critical-hit draw and the 0.85–1.0 spread.
- `MoveRolls` holds the accuracy draw, the stat-effect and status-effect draws, and the damage draws.
- `TurnRolls` holds the draws of a whole turn. The ranking draws of `_select_move` are a function from move position to `DamageRolls`.

The damage formula's floats are exact reals. `int(...)` of a non-negative damage is `.Floor`.

## Model

| member | source | states |
|---|---|---|
| `Enums.StatusFromValue` | pokemon_battle_system/enums.py:39-48 | a value `StatusCondition(value)` accepts is the value of the condition it returns |
| `Enums.StatusValueRoundTrip` | pokemon_battle_system/enums.py:39-48 | every status condition is recovered from its own value, NONE from None |
| `Moves.Move.constructor` | pokemon_battle_system/move.py:23-38 | every field is as given, except that PP above max PP is cut down to max PP; afterwards PP ≤ max PP |
| `Moves.Move.Use` | pokemon_battle_system/move.py:40-49 | succeeds exactly when PP is positive and then spends one PP; otherwise PP is unchanged; PP ≤ max PP is preserved |
| `Moves.Move.RestorePp` | pokemon_battle_system/move.py:51-60 | no amount refills to max PP; an amount adds to PP but never beyond max PP |
| `Moves.Move.GetEffectiveness` | pokemon_battle_system/move.py:62-73 | the placeholder answers 1.0 for every list of target types |
| `Moves.Move.IsSuperEffective` | pokemon_battle_system/move.py:62-77 | `get_effectiveness` is the constant 1.0, so no move is ever super effective |
| `Moves.Move.IsNotVeryEffective` | pokemon_battle_system/move.py:79-81 | with the constant 1.0 effectiveness no move is ever "not very effective" |
| `Moves.Move.HasNoEffect` | pokemon_battle_system/move.py:83-85 | with the constant 1.0 effectiveness no move ever has no effect |
| `Moves.Move.GetStabMultiplier` | pokemon_battle_system/move.py:87-96 | 1.5 exactly when the move's type equals one of the user's types ignoring case, 1.0 exactly otherwise |
| `Moves.StabNotDoubled` | pokemon_battle_system/move.py:87-96 | a user with two matching types still gets 1.5, not a compounded bonus |
| `Pokemons.InitialStages` | pokemon_battle_system/pokemon.py:62-70 | the seven stage names (attack … evasion), each at 0 |
| `Pokemons.ClampStage` | pokemon_battle_system/pokemon.py:208 | the result lies in −6..6, equals the input inside that range and saturates outside it |
| `Pokemons.ZeroStages` | pokemon_battle_system/pokemon.py:212-215 | the same stat names, every stage 0 |
| `Pokemons.ZeroStagesIdempotent` | pokemon_battle_system/pokemon.py:212-215 | resetting the stages twice is resetting them once |
| `Pokemons.Pokemon.constructor` | pokemon_battle_system/pokemon.py:35-70 | fields as given; max HP is `2*hp*level//100 + level + 10`; current HP starts at max HP; all stages start at 0 |
| `Pokemons.MaxHpAtLeastEleven` | pokemon_battle_system/pokemon.py:58 | a non-negative base HP at level ≥ 1 gives at least 11 max HP |
| `Pokemons.Pokemon.Attribute` | pokemon_battle_system/pokemon.py:85 | `getattr` gives a non-integer (a TypeError further on) exactly for the names of non-integer attributes and methods |
| `Pokemons.Pokemon.GetStat` | pokemon_battle_system/pokemon.py:72-102 | "hp" gives current HP; the result is an error exactly for non-integer attribute names; every other stat is at least 1 |
| `Pokemons.StageScaleMonotone` | pokemon_battle_system/pokemon.py:96-100 | raising a stage by one never lowers the stat |
| `Pokemons.StageScaleDirection` | pokemon_battle_system/pokemon.py:96-100 | positive stages never lower a stat, negative stages never raise it, stage 0 leaves it as it is |
| `Pokemons.StageTwoDoublesOrHalves` | pokemon_battle_system/pokemon.py:96-100 | stage +2 doubles a stat and stage −2 halves it (floor) |
| `Pokemons.Pokemon.TakeDamage` | pokemon_battle_system/pokemon.py:104-110 | HP becomes `max(0, min(hp - amount, max_hp))`; it stays within 0..max HP; non-negative damage never heals |
| `Pokemons.Pokemon.Heal` | pokemon_battle_system/pokemon.py:112-123 | HP becomes `min(max_hp, hp + amount)`; the return value is the actual change, between 0 and the amount for a non-negative amount |
| `Pokemons.FaintedMeansZeroHp` | pokemon_battle_system/pokemon.py:125-131 | with non-negative HP, fainted means exactly 0 HP |
| `Pokemons.Pokemon.IsFainted` | pokemon_battle_system/pokemon.py:125-131 | not fainted exactly when HP is above 0, the test the trainer's filters use |
| `Pokemons.Pokemon.GetTypes` | pokemon_battle_system/pokemon.py:145-154 | the primary type first, and the secondary type second exactly when it is non-empty |
| `Pokemons.Pokemon.HasType` | pokemon_battle_system/pokemon.py:133-143 | a primary-type match (ignoring case) always counts; with no secondary type only the primary type can match, even for an empty name |
| `Pokemons.HasTypeMatchesGetTypes` | pokemon_battle_system/pokemon.py:133-154 | `has_type` holds exactly when the name matches one of `get_types` ignoring case |
| `Pokemons.Pokemon.AddVolatileStatus` | pokemon_battle_system/pokemon.py:156-168 | reports whether the flag was absent; afterwards it is present and nothing else changed |
| `Pokemons.Pokemon.RemoveVolatileStatus` | pokemon_battle_system/pokemon.py:170-182 | reports whether the flag was present; afterwards it is absent and nothing else changed |
| `Pokemons.Pokemon.HasVolatileStatus` | pokemon_battle_system/pokemon.py:184-193 | membership of the flag in the volatile set; the toxic counter tag in that set never answers for a flag |
| `Pokemons.Pokemon.ModifyStatStage` | pokemon_battle_system/pokemon.py:195-210 | an unknown stat is a ValueError and changes nothing; otherwise the stage becomes the clamped sum and is returned; other stages are untouched; stages within ±6 stay within ±6 |
| `Pokemons.Pokemon.ResetStatStages` | pokemon_battle_system/pokemon.py:212-215 | every stage becomes 0, the stat names unchanged |
| `Pokemons.Pokemon.GetMove` | pokemon_battle_system/pokemon.py:217-240 | None exactly when `has_move` is false; otherwise the first move whose name matches ignoring case |
| `Pokemons.Pokemon.HasMove` | pokemon_battle_system/pokemon.py:231-240 | some move in the list has the name, ignoring case (`any` over the moves) |
| `Pokemons.AliveOthers` | pokemon_battle_system/battle.py:470 | keeps exactly the members with HP that are not equal to the given Pokémon, and nothing else |
| `Pokemons.AliveOthersSingle` | pokemon_battle_system/battle.py:470 | a one-member list keeps its member exactly when it has HP and is not equal to the given Pokémon |
| `Pokemons.AliveOthersConcat` | pokemon_battle_system/battle.py:470 | the filter of a joined list is the filter of each part, in order; with the one-member case this fixes order and multiplicity |
| `Pokemons.AliveOthersAt` | pokemon_battle_system/battle.py:470 | a surviving member sits right after the survivors of the members before it |
| `Pokemons.AliveOthersKeepsOrder` | pokemon_battle_system/battle.py:470 | of two surviving members, the earlier one in the list comes first in the result |
| `Pokemons.IndexOf` | pokemon_battle_system/trainer.py:87-88 | None exactly when no member is equal; otherwise the position of the first equal member |
| `Trainers.Trainer.constructor` | pokemon_battle_system/trainer.py:17-26 | fields as given; with no active Pokémon and a non-empty party, the first member becomes active |
| `Trainers.Trainer.SwitchPokemon` | pokemon_battle_system/trainer.py:28-42 | succeeds exactly for an index into the party whose member has HP, and then makes it active; otherwise nothing changes; a consistent trainer stays consistent |
| `Trainers.Trainer.HasUsablePokemon` | pokemon_battle_system/trainer.py:44-51 | false exactly when every party member has fainted |
| `Trainers.Trainer.GetAvailablePokemon` | pokemon_battle_system/trainer.py:53-63 | exactly the party members with HP that are not equal to the active one |
| `Trainers.Trainer.AvailableInPartyOrder` | pokemon_battle_system/trainer.py:53-63 | available members are listed in party order |
| `Trainers.Trainer.AvailableSplits` | pokemon_battle_system/trainer.py:53-63 | the list for the party is the list for its first k members followed by the list for the rest, so duplicates are kept |
| `Trainers.Trainer.UsableAndAvailable` | pokemon_battle_system/trainer.py:44-63 | an available bench member means the party is usable; when the active one is fainted or missing, usable means some member is available |
| `Trainers.Trainer.AddPokemon` | pokemon_battle_system/trainer.py:65-75 | appends only while the party has fewer than six members, and makes the new member active when none was; the party never grows past six |
| `Trainers.Trainer.RemovePokemon` | pokemon_battle_system/trainer.py:77-92 | removes the first equal member, or reports False and changes nothing; when the active one was equal, the new first member (or none) becomes active; consistency is preserved |
| `Trainers.RemoveAt` | pokemon_battle_system/trainer.py:88 | the list minus the element at one position, the others in order |
| `Items.Use` | pokemon_battle_system/item.py:36-45 | an item without `on_use` reports False; otherwise it reports whether it is consumed |
| `Items.CreateItem` | pokemon_battle_system/item.py:52-64 | name, description and consumed flag as given, and each of the nine callbacks as passed (None when not passed) |
| `Items.RegistryContents` | pokemon_battle_system/item.py:67-92 | the registry has exactly the keys life_orb, choice_band and focus_sash; only the Focus Sash is consumed; neither Life Orb nor Focus Sash has a use action |
| `Items.ItemKey` | pokemon_battle_system/item.py:103 | the lookup key has the name's length and no space |
| `Items.GetItem` | pokemon_battle_system/item.py:94-103 | finds an item exactly when the lowered, underscored name is a registry key, and then returns that entry |
| `Items.GetItemNormalises` | pokemon_battle_system/item.py:94-103 | lookup ignores letter case and treats spaces and underscores alike |
| `Items.TwoWordKey` | pokemon_battle_system/item.py:103 | a two-word name is looked up as the lowered words joined by an underscore |
| `Items.FocusSashKey` | pokemon_battle_system/item.py:103 | one example: "Focus Sash" is looked up as focus_sash |
| `Items.FocusSashByDisplayName` | pokemon_battle_system/item.py:79-103 | one example: the display name finds the Focus Sash |
| `Items.UnknownItemIsNone` | pokemon_battle_system/item.py:87-103 | every name whose key is none of the three registry keys finds nothing |
| `Items.LeftoversIsNone` | pokemon_battle_system/item.py:87-103 | one example: "Leftovers" is not in the registry |
| `Items.FocusSashOnHit` | pokemon_battle_system/item.py:82 | at full HP, a hit of at least the current HP is replaced by 1 damage; any other hit passes unchanged |
| `Items.FocusSashLeavesMoreThanOneHp` | pokemon_battle_system/item.py:81-82 | a 150-damage hit on a full 100-HP holder leaves 99 HP, not the 1 HP the description promises |
| `Items.FocusSashOnHitIntended` | pokemon_battle_system/item.py:81 | at full HP, a knock-out hit is cut so that exactly 1 HP remains; any other hit passes unchanged |
| `Items.FocusSashIntendedSurvives` | pokemon_battle_system/item.py:81 | a holder at full HP survives any single hit with at least 1 HP |
| `Abilities.CreateAbility` | pokemon_battle_system/ability.py:41-52 | name, description and each of the ten triggers as passed (None when not passed) |
| `Abilities.LevitateOnDamage` | pokemon_battle_system/ability.py:64 | a Ground move, in any letter case, deals 0; any other move deals its damage |
| `Abilities.LevitateIgnoresCase` | pokemon_battle_system/ability.py:64 | Levitate's hook gives the same result for a type name and its lowering |
| `Abilities.GetAbility` | pokemon_battle_system/ability.py:81-90 | finds an ability exactly when the lowered name is a registry key, and then returns that entry |
| `Abilities.RegistryKeys` | pokemon_battle_system/ability.py:74-79 | exactly the keys intimidate, levitate and speed_boost; Levitate carries the ground-immunity hook |
| `Abilities.GetAbilityIgnoresCase` | pokemon_battle_system/ability.py:90 | lookup ignores letter case |
| `Abilities.SpeedBoostNeedsUnderscore` | pokemon_battle_system/ability.py:67-90 | unlike items, the display name "Speed Boost" finds nothing, while "speed_boost" and "LEVITATE" do |
| `Battles.MultiplierValue` | pokemon_battle_system/battle.py:228-247 | every chart entry is 0, 0.5 or 2 |
| `Battles.TypeEffectiveness` | pokemon_battle_system/battle.py:249-258 | the effectiveness is one of 0, 0.25, 0.5, 1, 2 and 4 |
| `Battles.TypeEffectivenessIgnoresCase` | pokemon_battle_system/battle.py:249-258 | type names that agree after lowering give the same effectiveness |
| `Battles.TypeEffectivenessSymmetric` | pokemon_battle_system/battle.py:253-258 | swapping a defender's two types does not change the effectiveness |
| `Battles.UnknownMoveTypeIsNeutral` | pokemon_battle_system/battle.py:253-258 | a move type missing from the chart is neutral (1.0) against anything |
| `Battles.TypeEffectivenessDoubleWeakness` | pokemon_battle_system/battle.py:232 | one chart instance: Electric against a Water/Flying defender is 4.0 |
| `Battles.TypeEffectivenessImmunities` | pokemon_battle_system/battle.py:229-237 | two chart instances: Ground against Flying and Normal against Ghost are 0 |
| `Battles.EffectivenessMessages` | pokemon_battle_system/battle.py:261-266 | at most one message, and none exactly when the effectiveness is 1 |
| `Battles.NumericStat` | pokemon_battle_system/battle.py:189-194 | the stat the damage formula reads is at least 1 |
| `Battles.NumericStatIsGetStat` | pokemon_battle_system/pokemon.py:72-102 | the stat the battle reads is exactly what `get_stat` returns for that name |
| `Battles.Scaled` | pokemon_battle_system/battle.py:197-215 | the damage after STAB, effectiveness, critical hit and spread is at least 1 |
| `Battles.DamageValue` | pokemon_battle_system/battle.py:174-215 | a status move deals 0; any other move deals at least 1 |
| `Battles.ImmuneHitStillDealsOne` | pokemon_battle_system/battle.py:203-215 | a damaging move against an immune defender still deals 1, and 1 HP after truncation |
| `Battles.RankValue` | pokemon_battle_system/battle.py:154-162 | non-negative damage and effectiveness give a non-negative score |
| `Battles.MoveScore` | pokemon_battle_system/battle.py:149-162 | a move's ranking score is never negative |
| `Battles.StatusMoveScoresZero` | pokemon_battle_system/battle.py:154-162 | a status move scores 0, so it is never chosen over nothing |
| `Battles.DamagingMoveScores` | pokemon_battle_system/battle.py:154-166 | a damaging move scores above 0 exactly when the defender is not immune to it |
| `Battles.RankingAt` | pokemon_battle_system/battle.py:149-162 | a move is ranked exactly when it has PP left, and then with its score |
| `Battles.Best` | pokemon_battle_system/battle.py:146-166 | the chosen position, when there is one, is a position of the ranking |
| `Battles.BestIsFirstHighest` | pokemon_battle_system/battle.py:146-166 | the choice is the first move with the strictly highest positive score; there is none exactly when no score is above 0 |
| `Battles.FirstBestUnique` | pokemon_battle_system/battle.py:164-166 | at most one position is the first highest, so the choice is determined |
| `Battles.EffectiveSpeed` | pokemon_battle_system/battle.py:289-296 | the speed stat, halved and truncated under paralysis |
| `Battles.ParalysisOnlySlows` | pokemon_battle_system/battle.py:293-296 | paralysis never raises the speed used for ordering |
| `Battles.MoveOrder` | pokemon_battle_system/battle.py:270-308 | different priorities: the higher one first; equal priorities: the faster side first; equal speeds: side 1 first exactly when the coin draw is below 0.5 |
| `Battles.PriorityDecidesFirst` | pokemon_battle_system/battle.py:283-286 | with different priorities, the first Pokémon moves first exactly when its move has the higher priority |
| `Battles.SpeedDecidesOnEqualPriority` | pokemon_battle_system/battle.py:288-308 | with equal priorities and different speeds, the faster Pokémon moves first |
| `Battles.MoveOrderSwap` | pokemon_battle_system/battle.py:282-308 | apart from a speed tie, swapping the two sides swaps the order |
| `Battles.StatusAfter` | pokemon_battle_system/battle.py:403-405 | an existing status is never replaced |
| `Battles.FirstStatusWins` | pokemon_battle_system/battle.py:396-405 | after a first status lands, a second one changes nothing and logs nothing |
| `Battles.EffectOutcome` | pokemon_battle_system/battle.py:366-394 | the stat names are kept; stages within ±6 stay within ±6; an existing status is kept; a move without an effect changes and logs nothing |
| `Battles.BurnDamage` | pokemon_battle_system/battle.py:428 | burn and poison ticks deal at least 1 |
| `Battles.ToxicDamage` | pokemon_battle_system/battle.py:442 | a toxic tick deals at least 1 |
| `Battles.ToxicNonDecreasing` | pokemon_battle_system/battle.py:435-442 | each toxic tick deals at least as much as the one before |
| `Battles.ToxicStrictlyGrows` | pokemon_battle_system/battle.py:442 | from 16 max HP up, each toxic tick deals strictly more |
| `Battles.ToxicCanStall` | pokemon_battle_system/battle.py:442 | for every max HP below 16, the first two toxic ticks both deal exactly 1 HP |
| `Battles.Tick` | pokemon_battle_system/battle.py:426-444 | status never changes; no burn, poison or toxic means no change; toxic tags the Pokémon and starts or advances the counter |
| `Battles.TickNeverHeals` | pokemon_battle_system/battle.py:426-444 | HP stays within 0..current; burn, poison and toxic always take HP unless it is already 0 |
| `Battles.ToxicCounterCountsTicks` | pokemon_battle_system/battle.py:435-441 | from an untagged toxic Pokémon, n ticks leave the counter at n |
| `Battles.ToxicTicksEscalate` | pokemon_battle_system/battle.py:435-443 | each toxic tick's damage is at least the previous one's |
| `Battles.FirstMaxHp` | pokemon_battle_system/battle.py:475 | the first member with the highest base HP, as `max` with a key picks it |
| `Battles.SelectReplacement` | pokemon_battle_system/battle.py:459-475 | None exactly when no other member has HP; otherwise a team member with HP, not equal to the fainted one, with the highest base HP among them, and on a tie the first such in team order |
| `Battles.NoReplacementMeansTeamDown` | pokemon_battle_system/battle.py:459-475 | when a fainted Pokémon has no replacement, its whole team is fainted |
| `Battles.EndMessageOfFinishedBattle` | pokemon_battle_system/battle.py:477-487 | once a team is down, the message names the surviving team, or a draw exactly when both are down |
| `Battles.ResetStatus` | pokemon_battle_system/battle.py:55-57 | the fainted status is cleared and every other status is kept |
| `Battles.Battle.constructor` | pokemon_battle_system/battle.py:29-46 | clear weather, no terrain, turn 0, empty log, empty side conditions; every team member at full HP with zero stages and the fainted status cleared |
| `Battles.Battle.InitTeams` | pokemon_battle_system/battle.py:48-57 | every team member is at full HP with zero stages and the fainted status cleared; volatile flags and toxic counters are untouched |
| `Battles.Battle.ResetMember` | pokemon_battle_system/battle.py:52-57 | one combatant is at full HP with zero stages and the fainted status cleared |
| `Battles.Battle.LogMessage` | pokemon_battle_system/battle.py:489-496 | appends exactly the message to the log |
| `Battles.Battle.CalculateTypeEffectiveness` | pokemon_battle_system/battle.py:217-268 | returns the chart product for the defender's types and logs its message |
| `Battles.Battle.CalculateDamage` | pokemon_battle_system/battle.py:174-215 | returns the damage value for the given draws and logs the effectiveness and critical-hit messages |
| `Battles.Battle.RankMove` | pokemon_battle_system/battle.py:153-162 | returns the move's score and logs what ranking it logs |
| `Battles.Battle.ConsiderMove` | pokemon_battle_system/battle.py:149-166 | one loop step: the running choice becomes the best of the ranking one move further |
| `Battles.Battle.RankMoves` | pokemon_battle_system/battle.py:146-166 | the loop picks the first highest-scoring move with PP and logs every usable move's ranking |
| `Battles.Battle.SelectMove` | pokemon_battle_system/battle.py:135-172 | returns the first highest-scoring move with PP, or a new Struggle when no move scores above 0 |
| `Battles.Battle.ApplyStatusCondition` | pokemon_battle_system/battle.py:396-405 | only a Pokémon without a status takes the new one, and only then is it logged |
| `Battles.Battle.ApplyMoveEffects` | pokemon_battle_system/battle.py:366-394 | stages, status, log and error outcome are those of the effect rules for the given draws |
| `Battles.Battle.HandleStatusMove` | pokemon_battle_system/battle.py:352-364 | logs the use, then applies the effect rules |
| `Battles.Battle.Hit` | pokemon_battle_system/battle.py:334-350 | truncated damage is taken and logged with the HP bar, then the effect applies, then a faint is logged |
| `Battles.FilledCells` | pokemon_battle_system/pokemon.py:266-268 | the HP fraction of twenty cells rounded toward zero: between 0 and 20 for HP within 0..max, all 20 at full HP |
| `Battles.HpBar` | pokemon_battle_system/pokemon.py:257-280 | "[DEAD]" exactly when max HP is not positive; otherwise a bracketed bar opening with a colour code |
| `Battles.Battle.ExecuteMove` | pokemon_battle_system/battle.py:310-350 | nothing happens when either side is fainted; a miss logs only the use and the miss; a status move applies its effect; a damaging move hits |
| `Battles.Battle.StatusTick` | pokemon_battle_system/battle.py:426-444 | one Pokémon's HP, toxic tag and counter become those of one tick, with its log line |
| `Battles.Battle.EndOfTurnEffects` | pokemon_battle_system/battle.py:423-447 | each active Pokémon ticks once, in order; the same Pokémon passed twice ticks twice |
| `Battles.Battle.EndBattle` | pokemon_battle_system/battle.py:477-487 | appends the end message for the teams' current state |
| `Battles.Battle.IsBattleOver` | pokemon_battle_system/battle.py:449-457 | over exactly when every member of team 1 or every member of team 2 has fainted |
| `Battles.Battle.HandleWeatherEffects` | pokemon_battle_system/battle.py:407-416 | only sandstorm and hail log a line; no HP changes |
| `Battles.Battle.HandleTerrainEffects` | pokemon_battle_system/battle.py:418-421 | any terrain but none logs its line; no HP changes |
| `Battles.Battle.Act` | pokemon_battle_system/battle.py:112-114 | executing a move only appends to the log |
| `Battles.Battle.ExecuteBoth` | pokemon_battle_system/battle.py:109-114 | running the two moves of a turn only appends to the log |
| `Battles.Battle.OpenTurn` | pokemon_battle_system/battle.py:97-102 | the turn counter advances by one and the header, weather and terrain lines are logged in that order |
| `Battles.Battle.PlayMoves` | pokemon_battle_system/battle.py:104-114 | choosing and running both moves only appends to the log |
| `Battles.Battle.ReplaceIfFainted` | pokemon_battle_system/battle.py:120-130 | a healthy Pokémon stays active silently; a fainted one is logged and replaced by the selection rule; a replacement has HP and comes from the team; none means the team is down |
| `Battles.Battle.ReplaceFainted` | pokemon_battle_system/battle.py:119-130 | a continuing battle has two healthy active Pokémon from their own teams, keeping any that did not faint; a finished battle is over |
| `Battles.Battle.Turn` | pokemon_battle_system/battle.py:96-130 | one loop iteration: the turn counter advances and its header starts the turn's log; a continuing battle has two healthy active Pokémon, keeping any that did not faint; a finished battle is over |
| `Sprites.RewriteIsClean` | pokemon_battle_system/gui/sprite_manager.py:43-48 | a rewritten name has no upper-case letter, space, dot, colon or gender sign |
| `Sprites.RewriteKeepsClean` | pokemon_battle_system/gui/sprite_manager.py:43-48 | the rewrites leave a name that is already clean as it is |
| `Sprites.RewriteConcat` | pokemon_battle_system/gui/sprite_manager.py:43-48 | the rewrites act piece by piece: a name's rewrite is its pieces' rewrites joined |
| `Sprites.RewriteFemaleSign` | pokemon_battle_system/gui/sprite_manager.py:44 | ♀ becomes "-f" |
| `Sprites.RewriteMaleSign` | pokemon_battle_system/gui/sprite_manager.py:45 | ♂ becomes "-m" |
| `Sprites.RewriteSpace` | pokemon_battle_system/gui/sprite_manager.py:46 | a space becomes "-" |
| `Sprites.RewriteDropsPunctuation` | pokemon_battle_system/gui/sprite_manager.py:47-48 | dots and colons are deleted |
| `Sprites.RewriteUpper` | pokemon_battle_system/gui/sprite_manager.py:43 | an upper-case letter is lowered |
| `Sprites.SpecialKeepsClean` | pokemon_battle_system/gui/sprite_manager.py:51-68 | the special-name table maps clean names to clean names |
| `Sprites.SpecialSettled` | pokemon_battle_system/gui/sprite_manager.py:51-68 | looking a table result up again gives it back |
| `Sprites.SpecialPassesThrough` | pokemon_battle_system/gui/sprite_manager.py:51-68 | every name that is not one of the fourteen table keys passes unchanged |
| `Sprites.NormaliseUsesTable` | pokemon_battle_system/gui/sprite_manager.py:51-68 | only a table key is ever renamed; the five keys that rename map to their hyphenated spellings |
| `Sprites.Normalise` | pokemon_battle_system/gui/sprite_manager.py:43-68 | a normalised name has no upper-case letter, space, dot, colon or gender sign |
| `Sprites.CacheKey` | pokemon_battle_system/gui/sprite_manager.py:69 | the key is the normalised name, an underscore, then the sprite kind, and nothing more |
| `Sprites.NormaliseIdempotent` | pokemon_battle_system/gui/sprite_manager.py:43-68 | normalising twice is normalising once |
| `Sprites.CacheKeySeparatesKinds` | pokemon_battle_system/gui/sprite_manager.py:69 | two sprite kinds of one name never share a cache key |
| `Sprites.ScaleSprite` | pokemon_battle_system/gui/sprite_manager.py:164-169 | None gives None; a sprite within the size is returned itself, unchanged |
| `Sprites.ScaleSpriteMonotone` | pokemon_battle_system/gui/sprite_manager.py:164-169 | a sprite that fits a size fits every larger size |
| `Sprites.SpriteManager.constructor` | pokemon_battle_system/gui/sprite_manager.py:21-24 | the in-memory cache starts empty |
| `Sprites.SpriteManager.DownloadSprite` | pokemon_battle_system/gui/sprite_manager.py:92-151 | an unsupported sprite kind gives None and leaves the cache alone; a successful download is cached under the key and returned |
| `Sprites.SpriteManager.GetPokemonSprite` | pokemon_battle_system/gui/sprite_manager.py:31-90 | a cached key answers from the cache and changes nothing; otherwise a loadable file is cached and returned; failing that, an unsupported kind gives None, and a supported kind gives the download result, cached under the key when it succeeds and changing nothing when it fails; a returned sprite is the cache entry under its key; no other entry changes |

## Left out

- Floating point: the damage formula, multipliers and draws are exact reals. Rounding of Python floats is not modelled.
- Letter case: lowering is ASCII-only. Python's `str.lower` also lowers non-ASCII letters.
- Printing, colour output and `time.sleep` are not modelled. The log keeps the colorama escape codes that `log_message` records.
- `start_battle`, `_show_team_preview` and the two send-out lines of `_begin_battle` are not modelled.
- The `while` loop of `_begin_battle` is not modelled; `Battles.Battle.Turn` is one iteration of it. The battle ends after any number of turns, so there is no bound to state.
- The draws of `_select_move` are indexed by move position. Python draws them in sequence from one generator.
- Move effects are records with optional stat, stages, chance and status. An effect dictionary holding `None` values is not modelled.
- `getattr` on dunder and other dynamic attribute names is not modelled; only declared fields and methods are.
- `__str__` of every class and the percentage suffix of `get_hp_bar` are not modelled.
- The trainer's `battle_stats` field is not modelled. No operation reads it.
- Item and ability callbacks are named tags. Their lambdas call battle methods that do not exist (`damage`, `boost_stat`, `lower_stat`), and the battle never invokes a hook. Levitate's hook and the Focus Sash hook are modelled as functions.
- Weather and terrain only log; the source applies no weather or terrain damage either.
- `create_sample_battle` is not modelled; it is demo data.
- `_setup_cache_dir`, the PNG cache file, `requests.get`, `convert`/`convert_alpha` and `pygame.image.save` are not modelled. The file load and the download result are parameters. A surface is its width and height only.
- Sprites.ScaleSprite: the `smoothscale` branch (float ratio, pygame resampling) is not modelled and gives None; the None input and the sprite that already fits are stated in full.
- Sprites.SpriteManager.GetPokemonSprite: the download itself is passed in as its outcome; the URL that is fetched, the HTTP request and the cache file written to disk are not modelled.
- Battles.Battle.Act: only states that the log grows. ExecuteMove, which it wraps, states the full effect.
- Battles.Battle.ExecuteBoth: only states that the log grows. Which move runs first is MoveOrder's, and each move's effect is ExecuteMove's.
- Battles.Battle.PlayMoves: only states that the log grows. Move choice is SelectMove's.
- Battles.Battle.Turn: the turn's log is stated only as an extension that begins with the turn header. HP and stage changes are stated by the methods it calls, not by Turn.
- Battles.Battle.ReplaceFainted: the log is stated only as an extension; the lines appended are ReplaceIfFainted's.
- `Move.use` is never called by the battle, so PP is never spent during a battle; the model keeps Move objects out of a turn's frame.

## Findings

| source | as written | input that shows it | evidently intended | confidence | as-written member | corrected member |
|---|---|---|---|---|---|---|
| pokemon_battle_system/item.py:82 | `on_hit` returns 1 as the damage dealt when the holder is at full HP and the hit would knock it out | a holder at 100/100 HP hit for 150 takes 1 damage and keeps 99 HP | the description on line 81 says the holder survives with 1 HP, so the damage should be `current_hp - 1` | high; not executed | `Items.FocusSashOnHit`, `Items.FocusSashLeavesMoreThanOneHp` | `Items.FocusSashOnHitIntended`, `Items.FocusSashIntendedSurvives` |
