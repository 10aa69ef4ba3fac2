# stratezhka game rules in Dafny

This project models the rules core of stratezhka, a hotseat turn-based strategy game:

- the game engine (`GameEngine`), with its players, buildings, turn counter, current player and game phase
  (setup, planning, executing);
- the snapshot constructors that turn catalog templates into buildings, units, map cells, researches and
  resources;
- the reducer of the game context, which replays one action on an engine loaded with the current state;
- the rules of the building action menu, which decide which units and technologies a building offers.

## Layout

Modules follow the source files:

| file | module | models |
|---|---|---|
| `js.dfy` | `Js` | `Option`, grid positions, cost lines, and JavaScript truthiness with the `\|\|` / `??` defaults |
| `building.dfy`, `unit.dfy`, `cell.dfy`, `research.dfy`, `resource.dfy` | `Buildings`, `Units`, `Cells`, `Researches`, `Resources` | the five snapshot constructors, each a function from a template of optional fields to a record |
| `rules.dfy` | `Rules` | the game state as a value (what `getState` returns) and every engine action as a function of it; these are the reference definitions |
| `engine.dfy` | `Engine` | class `GameEngine`, whose fields the actions reassign, with the source's loops; each method is proved to reach exactly the state its `Rules` function gives |
| `placement.dfy` | `Placement` | what `placeBuilding` and `placeStartingCity` guarantee |
| `turns.dfy` | `Turns` | what ending turns and resolving a turn guarantee, including a whole round of turns |
| `game_context.dfy` | `GameContext` | `gameReducer`, and the invariant it keeps across every action |
| `action_menu.dfy` | `ActionMenu` | `canResearch`, the build lists and the button rules |

## Modelling choices

- **Defaults.** A template field is `Option<T>`, where `None` means the key is missing.
  - `x || d` replaces `None` and also a falsy value: `0`, `""` or `false`.
  - `x ?? d` replaces only `None`.
  - Arrays and objects are always truthy, so only a missing one is replaced.
- **Players.** Player ids equal their positions in the list (`PlayersIndexed`).
  - `placeBuilding` and `resolveTurn` look players up by id, while `endTurnForCurrentPlayer` indexes them by position; with this condition the two agree.
  - `WellFormed` bundles this condition with two more: the current player is one of the players, and some player has not finished the turn. `GameContext.ReducerKeepsInvariant` shows that every action preserves `WellFormed`.
- **Dice roll.** The roll in `resolveTurn` is a parameter `rolls: (int, string) -> int`, indexed by player position and resource id.
  - Each (player, resource) pair gets one roll, as in the source.
  - `RollsInRange` requires every roll to lie in 1..10.
- **Instance ids.** The time-based instance id of a new building is a parameter `freshId`.
- **Crash and NaN cases.** What would make the source throw, or write `NaN` into a holding, is a precondition. Each one is stated only at the stage where the source reaches it (`ChecksDefined` and `PlacementDefined` for `placeBuilding`, `ResolveDefined` and `EndTurnDefined` for ending a turn).
  - Throwing in `placeBuilding`: a found template with no cost list; a player id that names no player, but only when the cost list has a line to check; a cell outside the grid, once affordability passes; a tile name that is not in the tileset, once ownership passes and only when one of the four positioning flags is set, since the terrain rule reads the tile only behind such a flag.
  - `NaN` in `placeBuilding`: a cost resource missing from the player's holdings compares false in the affordability loop, so that check is modelled as written (`Unaffordable`); only after every check has passed must the player exist and hold a key for every cost resource, because paying would turn the missing ones into `NaN`.
  - Throwing in `resolveTurn`: the cell under a mining building outside the grid.
  - `NaN` in `resolveTurn`: a mined resource id that is not a key of the player's holdings.
- **Errors.** Each engine error message is one constructor of `EngineError`. The amount and resource id of "Not enough resources" are kept.

Behaviour of the code that the model keeps as written:

- `placeBuilding` does not look at the game phase.
- `placeStartingCity` does not check that the cell lies on the map.
- The `Building` constructor does not copy `shallow_water_positioned`. The placement terrain check reads that flag from the template, never from a building.
- The terrain check never reads `air_positioned` (`Placement.TerrainIgnoresAir`).
- A building with a truthy `canMine` counts every resource id listed on its cell, even when `canMine` names one resource (`Turns.MiningIgnoresNamedResource`).
- Affordability is checked cost line by cost line, but deductions add up. A template that lists one resource twice can therefore drive a holding below zero (`Placement.DuplicateCostLinesOverdraw`). No holding goes negative once a template's cost lines name distinct resources (`Placement.PlaceBuildingKeepsResourcesNonNegative`).
- The invariant the reducer keeps says that some player has not finished, not that the player to move has not. Ending player 0's turn in a two-player setup passes to player 1, whose starting city then ends setup with player 0 to move although finished (`GameContext.MoverMayHaveFinished`). `placeStartingCity` does not clear the flags.
- `switchToNextPlayer` loops forever when every player has finished. The model requires some unfinished player, which every reachable state has.

## Model

| member | source | states |
|---|---|---|
| Buildings.NewBuilding | src/gameLogic/Building.js:8-43 | id, type, owner, position are the arguments. hp equals max_hp, which is the template's non-zero max_hp or 1. Turns to build equal build_time, which is the template's non-zero value or 1. attack defaults to 0 and defense to 1, so a defense of 0 becomes 1. The bonuses and the action override default to 0. canMine is kept only when truthy. isRoad and four positioned flags default to false. The build queue starts empty and the other lists default to empty. The name defaults to "Unnamed Building". alreadyBuiltCostModifier keeps an explicit 0 and only a missing value becomes 1. |
| Units.NewUnit | src/gameLogic/Unit.js:10-101 | id, type, owner, position are the arguments. hp equals max_hp, and turns to build equal build_time, each the template's non-zero value or 1. The bonuses and carried hp start at 0 whatever the template says. attack, defense and max attack distance fall back to 1; movement radius, min attack distance and carrier capability fall back to 0. Traversing and carry flags are true only for an explicit true. cost and requiresResearch default to empty. |
| Cells.NewCell | src/gameLogic/Cell.js:9-35 | position and type are the arguments. entities start empty and there is no owner. Four passability flags are copied verbatim, missing included. shallow_water_passable defaults to false. consumes_movement keeps 0 and only a missing value becomes 1. |
| Researches.NewResearch | src/gameLogic/Research.js:7-14 | the type id is the template's. cost and requiresResearch default to empty. The name is never empty: a missing or empty name becomes "Unnamed Research". The description defaults to "". |
| Resources.NewResource | src/gameLogic/Resource.js:7-17 | the type id is the template's. The name becomes "Unnamed Resource" when missing or empty. The texture is copied verbatim. canBeOn defaults to empty and possibility to the empty map. The description defaults to "". |
| Rules.BuildingTemplateOf | src/gameLogic/GameEngine.js:67-68 | a found template is in the building set with the requested type id; nothing is found iff no template has that id |
| Rules.TileNamed | src/gameLogic/GameEngine.js:78 | a found tile is in the tileset with the cell's tile name; nothing is found iff no tile has that name |
| Rules.FirstUnaffordable | src/gameLogic/GameEngine.js:71-75 | none iff every cost line is covered; otherwise the first uncovered line |
| Rules.NextUnfinished | src/gameLogic/GameEngine.js:171-178 | the result is the first unfinished player strictly after the current one in cyclic order |
| Rules.NextUnfinishedFrom | src/gameLogic/GameEngine.js:172-175 | scanning forward from a given offset past finished players reaches the next unfinished player |
| Rules.NextUnfinishedUnique | src/gameLogic/GameEngine.js:171-178 | that player is unique |
| Rules.OnlyUnfinishedKeepsTurn | src/gameLogic/GameEngine.js:171-178 | when the current player is the only unfinished one, the turn comes back to it |
| Rules.CheckPlacement | src/gameLogic/GameEngine.js:65-116 | "type not found" exactly for a type missing from the catalog; passing every check needs a known template, a covered cost and a cell on the grid. `Placement.PlaceBuildingAcceptedIff` states when every check passes, and `Placement.PlaceBuildingRejections` which error each failing check reports, in their order. |
| Rules.PlaceBuilding | src/gameLogic/GameEngine.js:65-130 | refused exactly when a check fails, with that check's error; accepted, it appends one building and keeps the number of players. `Placement.PlaceBuildingEffect` states the new state in full. |
| Rules.PlaceStartingCity | src/gameLogic/GameEngine.js:132-151 | the only refusals are "not setup" and "cell occupied"; accepted, one city is appended and the players are untouched. `Placement.PlaceStartingCityOutcome` states the phase and turn changes. |
| Rules.SwitchToNextPlayer | src/gameLogic/GameEngine.js:171-178 | only the player to move changes, to the next unfinished player in cyclic order |
| Rules.MarkFinished | src/gameLogic/GameEngine.js:154-159 | the same number of players; only the flag at the current position is raised and nothing else changes |
| Rules.Mined | src/gameLogic/GameEngine.js:184-196 | the reference definition of `resourceSources`: every resource id listed on the cell of each mining building of the player, one entry per listing. It has no contract of its own; its meaning is stated by `Engine.CountMinedResources` (the loop counts exactly its entries), `Engine.NothingMinedWithoutBuildings` (no mining building, nothing mined), `Turns.ListingsAddUp` (listings add up across buildings) and `Turns.MiningIgnoresNamedResource` (a truthy canMine takes whatever the cell lists). |
| Rules.Yield | src/gameLogic/GameEngine.js:198-201 | the yield keeps the resource keys. `Turns.ResolveTurnGains` bounds each gain and `Engine.YieldOfNothing` shows nothing mined changes nothing. |
| Rules.ResolveTurn | src/gameLogic/GameEngine.js:180-212 | the same players in order, by id, each keeping its resource keys. `Turns.ResolveTurnResets` and `Turns.ResolveTurnGains` state the rest. |
| Rules.EndTurnForCurrentPlayer | src/gameLogic/GameEngine.js:153-169 | the players stay the same (same count and ids), and the player to move is one of them |
| Placement.PlaceBuildingAcceptedIff | src/gameLogic/GameEngine.js:65-116 | a placement is accepted iff every check passes. The checks, in order: the type is known, every cost line is covered, the ownership/adjacency rule holds, the terrain matches, and no stacking conflict exists. |
| Placement.PlaceBuildingRejections | src/gameLogic/GameEngine.js:66-115 | which error a refusal reports, the first failing check winning: an unknown type gives "type not found"; the first uncovered cost line gives "not enough" with its amount and id; a road with no friendly city or road within distance 1 (the cell included) is refused, with the adjacency error once the cost is covered; past the cost, a non-road, non-city building on a cell without a building of the player gives "not owner"; past ownership, a terrain mismatch gives its error; past terrain, the stacking errors come in the order city on city, road on road, one non-road building per tile. |
| Placement.PlaceBuildingEffect | src/gameLogic/GameEngine.js:118-129 | success appends exactly one building, of the acting player, of the requested type, on the cell: the `Building` constructor's snapshot of the template with the fresh id. That player's holding of each resource drops by the cost charged for it and keeps its keys. Other players and all other state are unchanged. |
| Placement.CostOfDistinct | src/gameLogic/GameEngine.js:119-122 | with distinct ids, the amount charged for a resource is its one line's amount or 0 |
| Placement.DeductedNonNegative | src/gameLogic/GameEngine.js:71-122 | paying covered cost lines with distinct ids leaves every holding non-negative |
| Placement.PlaceBuildingKeepsResourcesNonNegative | src/gameLogic/GameEngine.js:65-129 | with distinct cost ids, an accepted placement leaves no player with a negative holding |
| Placement.DuplicateCostLinesOverdraw | src/gameLogic/GameEngine.js:71-122 | two cost lines of 5 wood pass the per-line check against 5 wood and leave -5 |
| Placement.PlaceBuildingKeepsStacking | src/gameLogic/GameEngine.js:108-127 | accepted placements keep at most one city, one road and one other building per cell |
| Placement.AppendKeepsStacking | src/gameLogic/GameEngine.js:109-115 | appending a building that clashes with nothing on its cell keeps the stacking invariant |
| Placement.TerrainIgnoresAir | src/gameLogic/GameEngine.js:98-106 | the terrain check does not depend on air_positioned, and fails whatever the tile when none of the four other flags is set |
| Placement.StartingCityTemplate | src/gameLogic/GameEngine.js:4-28 | the city every player starts with is the core template snapshotted: named "City", land-only, non-road, mining, free, 100 hp, attack 0, defense 10, defense bonus 1, build time 1, cost modifier 1.5; its terrain rule accepts exactly land-passable tiles |
| Placement.PlaceStartingCityOutcome | src/gameLogic/GameEngine.js:132-151 | refused outside setup, then on any occupied cell. Accepted iff in setup and the cell is free. Success appends one mining, non-road city of the current player on the cell, with hp 100 and defense 10. The turn then passes to the next player; after the last one the phase becomes planning with player 0. |
| Placement.PlaceStartingCityKeepsStacking | src/gameLogic/GameEngine.js:132-140 | a starting city keeps the stacking invariant |
| Placement.SetupRound | src/gameLogic/GameEngine.js:132-151 | placing one city per remaining player on distinct free cells succeeds throughout. The k-th new city is a city of player c + k on the k-th cell, and setup ends in planning with player 0. |
| Engine.InitialState | src/gameLogic/GameEngine.js:32-48 | the players are those `InitializePlayers` gives (one unfinished player per setting, ids kept, zero of every resource); no buildings or units; turn 1, setup phase, player 0 to move; the given map |
| Engine.InitialResources | src/gameLogic/GameEngine.js:51 | a key for every resource type of the set, each with quantity 0 |
| Engine.InitializePlayers | src/gameLogic/GameEngine.js:50-61 | each player keeps its id and name and gets its color, an unfinished turn, zero of every resource and no completed research |
| Engine.InitialStateWellFormed | src/gameLogic/GameEngine.js:32-61 | a new game with players numbered 0 to n-1 is well-formed, has no stacking conflict and has no negative holding |
| Engine.FindUnaffordable | src/gameLogic/GameEngine.js:71-75 | the affordability loop returns the first uncovered cost line, or none |
| Engine.DeductCosts | src/gameLogic/GameEngine.js:119-122 | the deduction loop subtracts from each resource the sum of the cost lines naming it |
| Engine.FindNextUnfinished | src/gameLogic/GameEngine.js:172-175 | the while loop terminates when some player is unfinished and stops at the next unfinished player |
| Engine.CountMinedResources | src/gameLogic/GameEngine.js:184-196 | the sources map has a key exactly for each id listed under the player's mining buildings, valued by its number of listings, duplicates counted |
| Engine.CountListings | src/gameLogic/GameEngine.js:192-194 | counting one cell's listings adds them to the tally |
| Engine.AddYields | src/gameLogic/GameEngine.js:198-201 | each source id gains count × its roll, every other holding stays, and the keys stay |
| Engine.NothingMinedWithoutBuildings | src/gameLogic/GameEngine.js:184-196 | a player with no mining building, in particular one owning no building, mines nothing |
| Engine.ResolvePlayer | src/gameLogic/GameEngine.js:183-204 | a player's resources after the yield step are the reference yield, also when it owns no building |
| Engine.GameEngine.constructor | src/gameLogic/GameEngine.js:32-48 | turn 1, the setup phase, player 0, no units or buildings, and the initialized players |
| Engine.GameEngine.PlaceBuilding | src/gameLogic/GameEngine.js:65-130 | the result and the new state are those of `Rules.PlaceBuilding`, and a refusal changes nothing |
| Engine.GameEngine.PlaceStartingCity | src/gameLogic/GameEngine.js:132-151 | the result and the new state are those of `Rules.PlaceStartingCity`, and a refusal changes nothing |
| Engine.GameEngine.SwitchToNextPlayer | src/gameLogic/GameEngine.js:171-178 | only the current player changes, to the next unfinished one |
| Engine.GameEngine.ResolveTurn | src/gameLogic/GameEngine.js:180-212 | the new state is `Rules.ResolveTurn` of the old state |
| Engine.GameEngine.EndTurnForCurrentPlayer | src/gameLogic/GameEngine.js:153-169 | the new state is `Rules.EndTurnForCurrentPlayer` of the old state |
| Turns.EndTurnOutcome | src/gameLogic/GameEngine.js:153-169 | the current player is marked finished. If that was the last one, the turn resolves: the next turn, player 0, planning, and all flags cleared. Otherwise the turn and phase stay and the next unfinished player moves. Buildings, units and the map never change. |
| Turns.EndTurnHandsOver | src/gameLogic/GameEngine.js:161-167 | when some player is still unfinished, ending a turn only marks and hands over |
| Turns.ResolveTurnGains | src/gameLogic/GameEngine.js:189-201 | with rolls in 1..10, each holding gains between its source count and ten times that count, so nothing decreases and no key is lost |
| Turns.ResolveKeepsNonNegative | src/gameLogic/GameEngine.js:198-201 | resolution keeps holdings non-negative |
| Turns.ResolveTurnResets | src/gameLogic/GameEngine.js:206-209 | afterwards every flag is false, player 0 moves, the turn is one higher and the phase is planning. Players change only in their holdings, and buildings, units and map are unchanged. |
| Turns.EndTurnKeepsWellFormed | src/gameLogic/GameEngine.js:153-178 | ending a turn keeps the state well-formed |
| Turns.EndTurns | src/gameLogic/GameEngine.js:153-169 | repeated turn ends keep the number of players, and the player to move is one of them |
| Turns.EndTurnsPartway | src/gameLogic/GameEngine.js:153-178 | starting from player 0 with nobody finished, after k < n turn ends players 0..k-1 have finished and player k moves |
| Turns.EndTurnMidRound | src/gameLogic/GameEngine.js:153-178 | in a round begun at player 0 with nobody finished, ending player j's turn (j + 1 < n) marks j finished and hands over to player j + 1, changing nothing else |
| Turns.EndTurnEndsRound | src/gameLogic/GameEngine.js:153-165 | ending the turn of player n - 1 in such a round sets the executing phase and resolves the turn with every player marked finished |
| Turns.EndTurnsWithinRound | src/gameLogic/GameEngine.js:153-178 | m further turn ends from position j that stay inside the round arrive at position j + m |
| Turns.EndTurnsFinishRound | src/gameLogic/GameEngine.js:153-212 | the turn ends left in the round from position j end in the resolution of the fully finished round |
| Turns.EndTurnsLast | src/gameLogic/GameEngine.js:153-212 | from player 0 with nobody finished, the n-th turn end is the resolution of the round with every player finished |
| Turns.EndTurnRound | src/gameLogic/GameEngine.js:153-212 | n turn ends from player 0 resolve the turn exactly once, at the n-th; every player then gains the yield of its own buildings |
| Turns.ListingsAddUp | src/gameLogic/GameEngine.js:188-201 | iron listed once under one mining building and twice under another gives three sources, gaining 3 × one roll |
| Turns.MiningIgnoresNamedResource | src/gameLogic/GameEngine.js:190-194 | a building whose canMine names iron collects the gold its cell lists and no iron |
| GameContext.GameReducer | src/context/GameContext.js:7-51 | rebuilds an engine from the state and runs the one engine method the action names, `PLACE_BUILDING` acting for the current player. The result is the reference reduction. |
| GameContext.Reduce | src/context/GameContext.js:7-51 | the static data never changes, and a notified error leaves the state as it was |
| GameContext.ReduceOutcome | src/context/GameContext.js:27-50 | static data never changes. A notified error leaves the state as it was, and an unknown action changes nothing. Only the two placements can be refused, and a building placement notifies exactly the first failing check. |
| GameContext.InitialStateInvariant | src/gameLogic/GameEngine.js:32-61 | a new game satisfies the invariant the reducer keeps |
| GameContext.ReducerKeepsInvariant | src/context/GameContext.js:26-50 | with distinct cost ids and rolls in 1..10, every action keeps the invariant. It consists of: ids equal positions, the player to move is one of the players, some player has not finished, the stacking rule holds, no holding is negative, and every building is a city or of a type the catalog lists. |
| GameContext.MoverMayHaveFinished | src/context/GameContext.js:28-36 | END_TURN then PLACE_STARTING_CITY from a fresh two-player setup keeps the invariant yet ends in planning with player 0 to move although player 0 has finished |
| GameContext.StartingCityKeepsInvariant | src/context/GameContext.js:28-30 | placing a starting city, accepted or refused, keeps the invariant |
| GameContext.BuildingKeepsInvariant | src/context/GameContext.js:31-33 | with distinct cost ids, placing a building, accepted or refused, keeps the invariant |
| GameContext.PlaceBuildingKeepsWellFormed | src/gameLogic/GameEngine.js:118-129 | an accepted placement keeps the ids, the player to move and an unfinished player |
| GameContext.EndTurnKeepsInvariant | src/context/GameContext.js:34-36 | with rolls in 1..10, ending a turn keeps the invariant |
| ActionMenu.CompletedSet | src/components/ActionMenu/ActionMenu.js:7 | the set holds exactly the completed research ids |
| ActionMenu.CanResearch | src/components/ActionMenu/ActionMenu.js:9-15 | true when no requirement is given; otherwise true iff every required id is completed |
| ActionMenu.AllIn | src/components/ActionMenu/ActionMenu.js:14 | `every` over the requirement list: true iff each id is in the set |
| ActionMenu.CanResearchMonotone | src/components/ActionMenu/ActionMenu.js:14 | completing more research never turns true into false |
| ActionMenu.Keep | src/components/ActionMenu/ActionMenu.js:17-18 | the filter keeps exactly the elements satisfying the predicate and is no longer than its input |
| ActionMenu.KeepAppend | src/components/ActionMenu/ActionMenu.js:17-18 | filtering distributes over concatenation, so order is kept |
| ActionMenu.BuildableUnits | src/components/ActionMenu/ActionMenu.js:17 | exactly the unit templates whose type id the building's canBuild lists |
| ActionMenu.ResearchableTechs | src/components/ActionMenu/ActionMenu.js:18 | exactly the research templates whose type id the building's can_research lists |
| ActionMenu.BuildListsKeepOrder | src/components/ActionMenu/ActionMenu.js:17-18 | both lists follow the catalog's order |
| ActionMenu.UnitButtonEnabled | src/components/ActionMenu/ActionMenu.js:32-34 | enabled iff canResearch holds of the unit, i.e. every required id is completed |
| ActionMenu.TechButtonEnabled | src/components/ActionMenu/ActionMenu.js:48-52 | enabled iff the requirements are completed and the technology itself is not; never enabled for a completed technology |
| ActionMenu.CompletingResearch | src/components/ActionMenu/ActionMenu.js:48-52 | completing a technology disables its own button and keeps every enabled unit button enabled |

## Left out

- `generatePlayerColors`: takes floating-point hues and formats strings. The colors are a constructor parameter instead.
- `console.log` and `console.error` are output only.
- The notification callback of the reducer: the error it would be sent is returned, not sent.
- `Math.random()` in the yield roll is the `rolls` parameter.
- `Date.now() + Math.random()` instance ids are the `freshId` parameter.
- The JSON deep copy of the map: Dafny values already have value semantics.
- JavaScript coercion with `undefined` and `NaN` beyond the affordability compare: a cost resource missing at payment, a mined resource missing at resolution, an unknown tile name and a cell off the grid are preconditions, not behaviour.
- Rules.PlacementDefined: `placeBuilding` for a player id that names no player is a precondition when the cost list is not empty, and again once every check has passed. The source would crash on `player.resources` in both cases.
- Rules.PlacementDefined: a found template without a cost list is a precondition. The source would throw when it loops over the list.
- Error message text: each message is one `EngineError` constructor, with the amount and id of the resource shortfall kept.
- Numbers are integers. Fractional template values are not modelled, except the `real` modifier `alreadyBuiltCostModifier`.
- `getState` is the class function `Engine.GameEngine.State`, which every method's contract is stated through. It returns the fields as they are and has no contract of its own.
- Engine.InitializePlayers: a player setting is reduced to its id and name. Any other field the settings carry is not modelled.
- `GameProvider`, the JSX of the action menu, and the rest of the user interface are rendering and React wiring.
- The asset editors and the asset-loading contexts are file and ZIP input/output.
