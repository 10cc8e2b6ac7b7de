# PokemonIA battle core in Dafny

This project models the core of a Pokémon Showdown battle bot. The model has three parts.

**The battle entities** (`teams.dfy`, `teams_properties.dfy`):
- A `Move` whose type, category and power arrive late from reference data.
- A `Pokemon` holding its slot names, its complete moves, its text stats and its active flag. It can derive an opponent's stats from base stats.
- A `SideBuffs` with five stat-stage counters.
- A `Team`: a roster of at most six Pokémon that keeps the active flag, lists switch candidates, receives reference data and reports what still has to be looked up.

**The turn-decision helpers** (`logic.dfy`):
- the speed comparison;
- the type multiplier, looked up in a type table;
- the damage estimate;
- the choice of the best of at most four castable moves;
- the opponent-threat maximum over probe moves.

**The battle room** (`room.dfy`):
- extraction of the fields of one team-request roster entry, with a proof that rendering an entry and extracting it again gives the entry back;
- construction of the own team from a sequence of entries;
- the turn counter and the `player`/`rated`/`tier`/`rule`/`win` bookkeeping of `Battle.update`.

Fields that the source keeps as text (stats, level, HP, power) stay `string`. Python's `int()`, `float()`, `str()`, `split`, `strip`, `replace(x, "")` and `lower` are modelled in `pystr.dfy`, on the inputs listed under "## Left out". A Python exception becomes the `Err` case of a `Result` (or an `Option<Exception>` for a method with no other result). A method that raises does so before it changes anything. `wrappers.dfy` holds `Option` and `Result`.

Where the source mutates objects (classes `Move`, `Pokemon`, `SideBuffs`, `Team`, `Battle`), the model is a class whose methods carry `modifies` clauses. Where it runs an accumulator loop (the type multiplier, the move choice, the threat, the team construction), the model is a method with a loop. Each of these methods is proved against a specification function. The properties are then proved about that function.

## Model

| member | source | states |
|---|---|---|
| Teams.Move.constructor | showdown/teams.py:489-517 | A new move keeps its name, id, target, disabled flag and PP. It has no type, category, power, accuracy or description and is not resolved. |
| Teams.Move.UpdateSmogonData | showdown/teams.py:519-525 | Sets type, power, accuracy, description and category from the record and marks the move resolved. Everything else is kept. |
| Teams.Castable | showdown/teams.py:399-405 | The castable moves are exactly the listed moves that are not disabled and have PP above 0, and there are no more of them than listed moves. |
| Teams.CastableSnoc | showdown/teams.py:402-404 | The castable moves keep list order: a further move is added at the end exactly when it is castable. |
| Teams.Pokemon.GetPossibleMoves | showdown/teams.py:399-405 | Returns the castable sublist of the complete moves, as characterised by `Castable` (the test is teams.py:527-531). |
| Teams.Pokemon.constructor | showdown/teams.py:134-212 | The stored id is the given id plus one, or none. The slot names are the four moves in order. The complete moves are empty. Base stats, types and abilities are empty. The Pokémon is unresolved. |
| Teams.Pokemon.UpdateSmogonData | showdown/teams.py:214-231 | Types, abilities and the six base stats come from the species record, and the Pokémon becomes resolved. Nothing else changes. |
| Teams.Pokemon.SetStatsEnemyPokemon | showdown/teams.py:233-256 | The six stats are replaced by the derived values written as text. It raises the first `int()` failure among the base stats and the level, and then changes nothing. |
| Teams.DerivedClosedForm | showdown/teams.py:244-249 | Derived HP is `((2*base+31)*lvl) div 100 + lvl + 27`. Every other derived stat is `((2*base+31)*lvl) div 100 + 22`. |
| Teams.DerivedStatMonotonic | showdown/teams.py:244-249 | A larger base stat never gives a smaller derived stat or HP at the same level. |
| TeamsProperties.DerivedHpExample | showdown/teams.py:244 | Base HP 78 at level 100 gives 314. |
| TeamsProperties.StoredStatsParse | showdown/teams.py:251-256 | Each stored derived stat parses back to the number derived from its base stat. |
| TeamsProperties.DerivedSpeedIs | showdown/teams.py:249 | The derived speed is the stat formula applied to the parsed base speed and level. |
| TeamsProperties.DerivedSpeedFollowsBaseSpeed | showdown/teams.py:233-256 | At equal levels, the Pokémon with the greater base speed gets a stored speed at least as large. |
| Teams.Pokemon.MakeActive | showdown/teams.py:267-269 | The Pokémon becomes active. |
| Teams.Pokemon.MakeInactive | showdown/teams.py:271-273 | The Pokémon becomes inactive. |
| Teams.Pokemon.GetName | showdown/teams.py:278-281 | Renames `EiscueNoice` to `Eiscue` (permanently) and returns the name; any other name is returned unchanged. |
| Teams.Pokemon.GetMove | showdown/teams.py:313-317 | Returns the first complete move carrying the name, or null when none does. |
| Teams.FirstIndex | showdown/teams.py:313-317 | The index found is the first occurrence of the name, and there is none exactly when the name is absent. |
| Teams.Missing | showdown/teams.py:370-381 | The names to resend are exactly the slot names absent from the known moves. |
| Teams.MissingSnoc | showdown/teams.py:375-381 | The names to resend keep slot order: a further slot name is added at the end exactly when it is unknown, repeats included. |
| Teams.MissingNoneKnown | showdown/teams.py:375-381 | When no slot name is known, all slot names are resent, in order and with their repeats. |
| Teams.SyncStatus | showdown/teams.py:361-397 | The check succeeds iff the counts agree, every complete move is resolved and the Pokémon is resolved, and then nothing is resent. On a count mismatch it resends the missing slot names. With equal counts it resends the name of the first unresolved move, or else the Pokémon's own name when the Pokémon is unresolved. |
| Teams.Pokemon.HasBeenUpdatedWithSmogon | showdown/teams.py:361-397 | Returns `SyncStatus` of the Pokémon's current state. |
| Teams.FirstFailure | showdown/teams.py:90-104 | The team check succeeds iff every member's check does. Otherwise it returns the first failing member's result. |
| Teams.FirstFailureAt | showdown/teams.py:93-98 | When member i is the first to fail, the team check returns member i's result. |
| Teams.FirstFailureAll | showdown/teams.py:103-104 | When every member passes, the team check returns `(True, [])`. |
| Teams.Team.CheckSmogonDataUpdate | showdown/teams.py:90-104 | Returns `FirstFailure` over the members' checks, in roster order. |
| Teams.Pokemon.UpdateMoveDataWithSmogon | showdown/teams.py:407-459 | Only appends to the complete moves, and every appended move is fresh. Their data becomes `Deliver` of the old data, and the complete moves stay distinct objects. |
| TeamsProperties.DeliverIgnoresOthers | showdown/teams.py:408-409 | A record named in no slot changes nothing. |
| TeamsProperties.DeliverKnown | showdown/teams.py:420-428 | On an active Pokémon that holds the move, only that move is resolved in place and the list keeps its length. |
| TeamsProperties.DeliverInactiveAppends | showdown/teams.py:447-459 | On an inactive Pokémon, each delivery appends one resolved move with the record's data, even when the move is already held. |
| TeamsProperties.InactiveDeliveryNotIdempotent | showdown/teams.py:447-459 | Delivering the same record twice to an inactive Pokémon grows the list by two, so it differs from one delivery. |
| TeamsProperties.DeliverMissing | showdown/teams.py:429-459 | A record for a move the Pokémon lacks appends one move when inactive and two when active. |
| TeamsProperties.DeliverAllActive | showdown/teams.py:429-459 | Delivering the first k slot records to an active Pokémon with no moves yields 2k resolved moves named exactly by those slots. |
| TeamsProperties.ActivePokemonNeverSynchronises | showdown/teams.py:429-459 | As written: after all its records arrive, an active Pokémon that held none of its moves has twice as many moves as slots. Its check fails and asks for nothing. |
| TeamsProperties.IntendedAgreesWhenInactive | showdown/teams.py:447-459 | The corrected delivery agrees with the written one on inactive Pokémon. |
| TeamsProperties.IntendedIgnoresOthers | showdown/teams.py:408-409 | The corrected delivery also ignores a record named in no slot. |
| TeamsProperties.IntendedMissing | showdown/teams.py:429-446 | The corrected delivery appends exactly one move for a missing move, active or not. |
| TeamsProperties.IntendedDeliverAllPrefix | showdown/teams.py:407-459 | After the first k slot records, the corrected delivery yields k resolved moves named by those slots. |
| TeamsProperties.IntendedDeliveriesSynchronise | showdown/teams.py:361-397 | After every slot record arrives, the corrected delivery gives one resolved move per slot. A resolved Pokémon then passes the check with nothing to resend. |
| Teams.Team.UpdateMovesWithSmogon | showdown/teams.py:106-108 | Each member's moves become `Deliver` of its own slot names and old moves. Member data is unchanged. Members and moves stay unshared. |
| Teams.Team.UpdatePokemonsWithSmogon | showdown/teams.py:110-130 | Every member is first renamed by `get_name`. Those whose name then matches the record ignoring case take the species data. Nothing else changes. |
| Teams.SpeciesVisitIdempotent | showdown/teams.py:110-130 | Delivering the same species record twice has the same effect as once. |
| Teams.SideBuffs.constructor | showdown/teams.py:575-580 | All five counters start at 0. |
| Teams.SideBuffs.RaiseStat | showdown/teams.py:582-592 | The counter named by the stat goes up by the parsed levels. An unparsable level raises and changes nothing. |
| Teams.SideBuffs.LowerStat | showdown/teams.py:594-604 | The counter named by the stat goes down by the parsed levels. An unparsable level raises and changes nothing. |
| Teams.SideBuffs.Reset | showdown/teams.py:606-611 | All five counters become 0. Repeating it therefore changes nothing. |
| TeamsProperties.BoostMovesOneCounter | showdown/teams.py:582-604 | For `atk`/`def`/`spa`/`spd`/`spe`, exactly that counter moves by ±levels and the other four are unchanged. |
| TeamsProperties.UnknownStatIgnored | showdown/teams.py:582-604 | Any other stat name leaves every counter as it was, even with an unparsable level. |
| TeamsProperties.RaiseThenLowerRestores | showdown/teams.py:582-604 | Raising then lowering the same stat by the same levels restores the counters. |
| Teams.Team.constructor | showdown/teams.py:7-11 | A new team has the given player, no members and fresh buffs at zero. |
| Teams.Team.RaiseStat | showdown/teams.py:17-19 | Forwards to the team's buffs with the same effect. |
| Teams.Team.LowerStat | showdown/teams.py:21-23 | Forwards to the team's buffs with the same effect. |
| Teams.Team.ResetBuffs | showdown/teams.py:25-27 | All five counters of the team's buffs become 0. |
| Teams.Team.AddPokemon | showdown/teams.py:43-45 | Appends while the roster has at most five members; a seventh add leaves the roster unchanged, so it never exceeds six. |
| Teams.Team.SetAllPokemonsToInactive | showdown/teams.py:29-31 | Every member becomes inactive, and nothing else about any member changes. |
| Teams.Team.MakePokemonActive | showdown/teams.py:33-36 | Exactly the members named like the argument, ignoring case, become active. The others keep their flag. |
| TeamsProperties.Reactivate | showdown/teams.py:29-36 | Deactivating all members then activating by name leaves the members' states equal to `Reactivated` of the old ones, with moves untouched. A member is then active iff its old name equals the argument ignoring case. If names are distinct ignoring case, at most one member is active. |
| TeamsProperties.ActiveIffNamed | showdown/teams.py:29-36 | After that pair of calls, a member is active iff its name equals the argument ignoring case. Everything else about it is unchanged. |
| TeamsProperties.AtMostOneActive | showdown/teams.py:261-265 | When member names are distinct ignoring case, at most one member is active afterwards. |
| Teams.Team.GetPokemon | showdown/teams.py:38-41 | Returns a member whose name matches ignoring case, or null exactly when no member matches. |
| Teams.Team.GetActivePokemon | showdown/teams.py:78-82 | Returns an active member, or null exactly when no member is active. |
| Teams.Team.GetPossiblePokemonSwitch | showdown/teams.py:71-76 | Returns `SwitchNames` of the old roster. Each member's only change is the `get_name` rename. |
| Teams.SwitchVisitStable | showdown/teams.py:278-281 | The rename is idempotent and changes neither eligibility nor the canonical name. |
| TeamsProperties.SwitchNamesAreInactiveMembers | showdown/teams.py:71-76 | As written, a name is offered iff it is the (renamed) name of an inactive member, since the HP test never fails. |
| TeamsProperties.FaintedMemberOffered | showdown/teams.py:74 | As written, an inactive member with HP text `"0"` is offered as a switch. |
| TeamsProperties.IntendedSwitchNames | showdown/teams.py:71-76 | Corrected: a name is offered iff it belongs to an inactive member whose HP does not parse to 0. |
| TeamsProperties.FaintedMemberNotOffered | showdown/teams.py:74 | Corrected: a member with HP `"0"` is never offered. |
| Logic.SpeedTie | showdown/logic.py:6-11 | True iff the first speed is at least the second. A speed that does not parse raises ValueError. |
| Logic.SpeedTieReflexive | showdown/logic.py:6-11 | A Pokémon always wins the tie against itself. |
| Logic.SpeedTieTotal | showdown/logic.py:6-11 | For any pair with numeric speeds, at least one direction holds. |
| Logic.RowScan | showdown/logic.py:37-39 | The row is the last one whose first cell is the move type, else 0. An empty row raises IndexError. |
| Logic.ColScan | showdown/logic.py:43-45 | The column is the last cell of row 0 equal to the type, else 0. A row 0 shorter than the table raises IndexError. |
| Logic.FindRow | showdown/logic.py:36-39 | The loop returns the row `RowScan` describes. |
| Logic.FindColumn | showdown/logic.py:42-45 | The loop returns the column `ColScan` describes. |
| Logic.Product | showdown/logic.py:40-46 | The product is defined iff every factor is. |
| Logic.ProductErrorSticks | showdown/logic.py:46 | Once a factor raises, the whole computation raises the same way. |
| Logic.MultiplierNoTypes | showdown/logic.py:40-47 | With no defender types, the multiplier is 1. |
| Logic.MultiplierAppend | showdown/logic.py:41-46 | One more defender type multiplies the result by that type's cell. |
| Logic.MultiplyStep | showdown/logic.py:41-46 | One loop pass extends the running product by the next type's cell, or raises what the whole product raises. |
| Logic.TypeMultiplicator | showdown/logic.py:32-47 | Returns the product over the defender's types of the cell at the move-type row and the type column, raising as the source does. |
| Logic.StabBonus | showdown/logic.py:67-70 | The same-type bonus is 1.5 iff the move type is one of the attacker's types, else 1. |
| Logic.RollIsDeterministic | showdown/logic.py:74 | The random roll is always 100, so the modifier is exactly the bonus times the multiplier. |
| Logic.HpPointsNonZero | showdown/logic.py:55-59 | The defender's HP in points is non-zero iff both its percentage and its maximum are. |
| Logic.StatusMoveDealsNothing | showdown/logic.py:72-76 | A status move deals 0 when the defender's HP is non-zero. |
| Logic.DamageNeedsHp | showdown/logic.py:55-76 | A damage estimate exists only when the defender's current and maximum HP parse to non-zero numbers. |
| Logic.DamageCalcul | showdown/logic.py:49-77 | Returns `Damage` of the two Pokémon and the move. |
| Logic.Best | showdown/logic.py:89-106 | The choice is defined iff every considered damage is. The damage returned is ≥ 0 and ≥ every considered damage. No move is chosen iff it is 0. A chosen move is the earliest with that greatest damage. |
| Logic.BestErrorSticks | showdown/logic.py:92-106 | Once a slot's damage raises, the selection raises the same way. |
| Logic.ConsiderSlot | showdown/logic.py:92-94 | One slot test computes the damage and keeps the strictly better move. |
| Logic.FillMoveset | showdown/logic.py:84-86 | Copies up to four moves into a four-slot array padded with null. A fifth move raises IndexError. |
| Logic.ScanSlot | showdown/logic.py:92-106 | One slot test extends the best-so-far over the next slot, or raises what the whole selection raises. |
| Logic.ScanMoveset | showdown/logic.py:89-108 | The four slot tests return `Best` of the moves' candidates. |
| Logic.ChooseAmong | showdown/logic.py:84-108 | Returns the selection over the given moves, or IndexError for more than four. |
| Logic.SelectMove | showdown/logic.py:80-108 | Returns the selection over the attacker's castable moves against the defender. |
| Logic.MaxThreat | showdown/logic.py:112-125 | The threat is defined iff every probe damage is. It is ≥ 0 and ≥ every probe damage, and a non-zero threat is one of them. |
| Logic.MaxThreatErrorSticks | showdown/logic.py:119-120 | Once a probe raises, the threat raises the same way. |
| Logic.ProbeType | showdown/logic.py:114-120 | Builds both probes for a type and returns their damages with pokemon2 attacking pokemon1. |
| Logic.ThreatStep | showdown/logic.py:113-124 | One loop pass extends the maximum over the next type's probes, or raises what the whole threat raises. |
| Logic.ThreatWithoutTypes | showdown/logic.py:110-125 | An attacker with no types is no threat: 0. |
| Logic.AssertOpponentPokemonThreat | showdown/logic.py:110-125 | Returns `Threat`, the maximum of 0 and all probe damages of pokemon2's types against pokemon1. |
| Room.Battle.constructor | showdown/room.py:188-201 | A new battle has no rules, players, tier, winner or loser, is neither rated nor ended, and has no own team. |
| Room.Battle.AddTurn | showdown/room.py:203-204 | The turn counter goes up by exactly 1 and nothing else changes. |
| Room.Battle.Update | showdown/room.py:286-305 | The battle fields become `Updated` of the old ones. On an exception they are left unchanged. |
| Room.RatedOnlySetsFlag | showdown/room.py:291-292 | `rated` sets the flag and nothing else. |
| Room.TierStoresId | showdown/room.py:293-294 | `tier` stores the identifier form of its parameter and nothing else. |
| Room.RuleAppends | showdown/room.py:295-296 | `rule` appends its parameter to the rules and nothing else. |
| Room.PlayerRecordedOnlyForSides | showdown/room.py:286-290 | `player` changes something only for id p1 or p2 with a non-empty name. It then records that player and nothing else. |
| Room.WinAlwaysEnds | showdown/room.py:297-305 | With both players known, `win` always ends the battle, even when no name matches. |
| Room.WinRecordsMatchingPlayer | showdown/room.py:297-305 | The first matching player wins and the other loses. With no match, only `ended` changes. |
| Room.WinWithoutPlayersRaises | showdown/room.py:299 | `win` before the first player is known raises AttributeError. |
| Room.OtherInputsIgnored | showdown/room.py:286-305 | Any other message kind leaves the battle fields alone. |
| Room.ExtractFields | showdown/room.py:214-240 | Extraction raises IndexError iff the entry has fewer than 15 fields or its condition has no `/`. The gender is present iff there are exactly 19 fields. |
| Room.NameRoundTrip | showdown/room.py:219 | The name is read back from the `details` field. |
| Room.LevelRoundTrip | showdown/room.py:220 | The level is read back from field 2 with quotes and `L` removed. |
| Room.GenderRoundTrip | showdown/room.py:237-238 | The gender is read back from field 3. |
| Room.ConditionRoundTrip | showdown/room.py:216 | The condition field splits into the current and maximum HP, around `/`. |
| Room.ActiveRoundTrip | showdown/room.py:217-223 | `active` is true iff the activity field reads `true`. |
| Room.AttackRoundTrip | showdown/room.py:224 | The attack is read back from the field opening the stats object. |
| Room.StatRoundTrip | showdown/room.py:225-227 | Each middle stat is read back from its field. |
| Room.SpeedRoundTrip | showdown/room.py:228 | The speed is read back with the closing brace removed. |
| Room.FirstMoveRoundTrip | showdown/room.py:229 | The first move is read back with the quotes and opening bracket removed. |
| Room.MoveRoundTrip | showdown/room.py:230-231 | The middle moves are read back with the quotes removed. |
| Room.LastMoveRoundTrip | showdown/room.py:232 | The last move is read back with the closing bracket removed. |
| Room.TextRoundTrip | showdown/room.py:233-235 | Ability, base ability and item are read back from their fields. |
| Room.ExtractFieldsOf | showdown/room.py:214-240 | Fields that read back to an entry's parts, at the source's offsets, extract to exactly that entry. |
| Room.ExtractRender | showdown/room.py:214-240 | Rendering an entry with plain values and extracting it gives the entry back. |
| Room.Scan | showdown/room.py:213-246 | The entries taken are the extracted prefix before the first failure, which is reported. Without a failure all entries are taken. |
| Room.ScanErrorSticks | showdown/room.py:213-246 | Once an entry fails, later entries make no difference. |
| Room.BuiltSnoc | showdown/teams.py:43-45 | Adding the member for the next entry keeps the roster equal to the first six entries' members. |
| Room.ReceiveEntries | showdown/room.py:213-246 | The roster holds one member per extracted entry before the first failure, in entry order, truncated to six. The entry at position i has id i+1. The failure is returned. |
| Room.Battle.UpdateOwnTeam | showdown/room.py:206-246 | The own team is a fresh team for `p2` with buffs at zero. It holds the members `ReceiveEntries` describes, and the first extraction failure is returned. |

## Left out

- Floating point: `damage_calcul` is modelled with exact reals, and `int()` of a real truncates toward zero. Binary rounding of `0.4`, `/100` and the multipliers is not modelled.
- `type_table` reads a file. The table is a parameter of `TypeMultiplicator`, `DamageCalcul`, `SelectMove` and `AssertOpponentPokemonThreat`. Its cells are text, and `float()` of a cell is modelled by `ParseFloat`, with a failure raising ValueError.
- The regex segmentation at the top of `update_own_team` (showdown/room.py:208-209) is not modelled. `UpdateOwnTeam` takes the already segmented entries. The commented-out move parsing is not modelled.
- `Room.update` of the base room (user list, title) is not modelled. The `user` and `utils` modules are not part of this model: `name_matches` and `name_to_id` are parameters of `Update`, and players are stored by name.
- Async client commands, timers, replay saving, `make_decicion` (randomness) and the bot loop in `main.py` are not modelled: they are network and I/O. `print`/`self_print`, the `Condition`/`Status` enums and `battle_parsing.py` are not part of this model.
- Logic.ConsiderSlot: `select_move` computes the damage of a slot twice when it improves. The model computes it once, since the computation is deterministic.
- Teams.Team.UpdateMovesWithSmogon: requires that no Pokémon and no move object is shared between members. Delivery appends, so a shared object would receive the record more than once.
- Room.Battle.UpdateOwnTeam: does not state that the new members are fresh objects (only that they are distinct and share no moves).
- Room.Battle.Update: the `player` branch stores the name instead of a `User` object.
- Stat derivation: teams.py:244 adds `lvl+10` to HP inside the truncation, as the game's HP formula does, and 17 after it. The model follows it, so base HP 78 at level 100 gives 314.
- Teams.Pokemon.GetPossibleMoves: its ensures names `Castable`, whose own ensures state membership in both directions; the order is stated separately by `Teams.CastableSnoc`.
- PyStr.Lower: folds only the ASCII letters A-Z, while Python's `lower()` folds every Unicode letter. This affects `has_name` (teams.py:261-265) and with it `make_pokemon_active`, `get_pokemon` and `update_pokemons_with_smogon`.
- PyStr.IsSpace: holds only for the six ASCII blanks. `str.strip()` and `int()` also skip `\x1c`-`\x1f`, `\x85`, `\xa0` and the other Unicode spaces. This affects every `strip()` in room.py:216-235.
- PyStr.ParseInt: accepts only an optional sign and ASCII decimal digits. `int()` also accepts underscores between digits (`1_000`) and non-ASCII decimal digits. This affects every `int()` in logic.py:55-73, teams.py:236-242 and teams.py:582-604.
- PyStr.ParseFloat: accepts only an optional sign and decimal digits with at most one point. `float()` also accepts exponents, `inf`, `nan`, underscores and non-ASCII digits. This affects the type-table cells (logic.py:46).
- Teams.Move.constructor: takes `disabled` as a `bool` and `currentPp` as an `int`, without the `None` defaults of teams.py:490-494. Every call in the modelled code passes `False` and 8 or 10 (teams.py:436, 449; logic.py:114, 116).

## Findings

| source | as written | input that shows it | evidently intended | confidence | as-written member | corrected member |
|---|---|---|---|---|---|---|
| showdown/teams.py:429-459 | For an active Pokémon missing the delivered move, the temporary fix appends a new move, and the inactive-or-trapping branch then appends a second one | An active Pokémon with slot names `[a]` and no complete moves, given the record for `a`: it ends with two moves, the count check fails forever and nothing is asked again | Append exactly one resolved move per missing move | not executed | TeamsProperties.ActivePokemonNeverSynchronises | TeamsProperties.IntendedDeliveriesSynchronise |
| showdown/teams.py:74 | `get_current_hp()` returns text and is compared with the integer 0, so the test is always true | An inactive member whose HP text is `"0"` is offered as a switch | Offer only members whose HP is not 0 | not executed | TeamsProperties.FaintedMemberOffered | TeamsProperties.FaintedMemberNotOffered |
