# After Humanity: the game rules as a Dafny model

This project models the rule core of the browser game "After Humanity: The End is You". It covers:

- **Seeded generation.** The seedable Mulberry32 generator, the world seed it derives, and the 24×16 tile map. The map gets walls, then resources, then one forced terminal.
- **The game page as a state machine** (`Game.Step`). Every key press, pointer action, toolbar button, timer tick and dialog choice is an event. This covers build-mode transitions, movement with one-shot resource pickup, placing and dismantling buildings, the daily yield, the moral choice, rerolling and starting a new run.
  - `Game.Step` is the corrected page. It pays the daily yield on day ticks only, and it delivers the canvas's pointer events to the page's hover, click and right-click handlers.
  - The page as written differs in both respects; see "## Findings". `YieldOnRebuild.StepAsWritten` re-runs the yield on every building change. `CanvasUnwired.StepShipped` drops the pointer events, because the canvas component never attaches the handlers it is given.
- **The building catalogue.** The four building kinds with their costs and declared effects, and the record of a placed building.

Modules follow the program's structure:

| file | module | what |
|---|---|---|
| `opt.dfy` | `Opt` | `Option` |
| `rng.dfy` | `Rng` | Mulberry32 as a closed-form stream, the stepwise generator, `Math.floor(rnd() * n)`, the 0.08 and 0.06 thresholds |
| `buildings.dfy` | `Buildings` | `BuildingId`, catalogue entries, `PlacedBuilding`, `BUILDING_CATALOG`, `BUILDING_LIST`, refund, rotation |
| `tiles.dfy` | `Tiles` | the grid type, cell writes, tile counting |
| `mapgen.dfy` | `MapGen` | `buildMap` |
| `world.dfy` | `World` | `generateWorldSeed` |
| `engine.dfy` | `Engine` | the game state and the rule handlers: placement, dismantling, movement, daily yield, moral choice |
| `game.dfy` | `Game` | events, the page's handlers and `Step` |
| `invariant.dfy` | `Invariant` | the state invariant and its preservation by each handler |
| `reachable.dfy` | `Reachable` | every reachable state is valid |
| `properties.dfy` | `Properties` | properties relating several calls |
| `finding.dfy` | `YieldOnRebuild` | the daily yield that re-runs on every building change |
| `unwired.dfy` | `CanvasUnwired` | the pointer handlers the canvas never receives |

How the source's numbers become Dafny terms:

- **Draws.** A call of the generator returns `u / 2^32` for a 32-bit `u`. The model keeps the integer `u` (a `Draw`) and computes every floating-point use exactly:
  - `Math.floor(rnd() * n)` is `(u * n) / 2^32`.
  - `rnd() < 0.08` is `u < 343597384`, the `wall` threshold of `MapGen.SourceOdds`.
  - `rnd() < 0.06` is `u < 257698038`, its `resource` threshold.
- **Bit operations.** `Math.imul`, `^`, `|` and `>>>` are bv32 operations.
- **Draw order.** The world seed and the map both read the stream of `Mulberry32(worldSeed)` from its first draw, as the source seeds a fresh generator in each.
- **Building ids.** They come from a counter (`nextId`) in place of the source's clock-and-random strings.
- **Timers and UI callbacks** are events the caller sends.
- **Screen-specific events.** An event the current screen cannot deliver changes nothing. For example, the dialog's two buttons act only while the dialog is open (`Game.OnChoice`), and the toolbar acts only during a run.

Behaviour modelled as written, although it may look surprising:

- **Reroll Seed** replaces only the seed and its map. The meters and resources shown during the run remain those of the seed drawn first (`Game.OnReroll`).
- **The map memo** is rebuilt only when the seed number changes (`Game.MapFor`), so pickups stay collected if a new run draws the same number.
- **The forced terminal** may overwrite a wall or a resource.
- **The daily yield** hard-codes the farm and raincatcher ids rather than reading the catalogue's effects.

## Model

| member | source | states |
|---|---|---|
| Rng.Next | src/pages/Index.tsx:13 | Each call advances the generator's accumulator by 0x6D2B79F5. |
| Rng.TakeAt | src/pages/Index.tsx:11-17 | The i-th of n successive calls sees the accumulator seed + (i+1)·0x6D2B79F5, whatever output function is applied to it. |
| Rng.TakeMatchesStream | src/pages/Index.tsx:11-17 | Calling the stateful generator n times yields exactly the first n values of the closed-form Mulberry32 stream. |
| Rng.Scaled | src/pages/Index.tsx:60 | `Math.floor(rnd() * n)` is an index below n, and it is the unique r with r·2^32 ≤ u·n < (r+1)·2^32. |
| Buildings.Catalog | src/game/buildings.ts:22-27 | Each catalogue entry carries its own key as its id, and every building costs some scrap. |
| Buildings.CatalogCosts | src/game/buildings.ts:22-27 | Wall costs 1, farm 3, raincatcher 3 and turret 5. |
| Buildings.CatalogEffects | src/game/buildings.ts:22-27 | A wall declares no effect; a farm declares +1 food, a raincatcher +1 water and a turret +2 defense, and nothing else. |
| Buildings.ListIndex | src/game/buildings.ts:29 | Every id has a position in the building list, and the entry there has that id. |
| Buildings.BuildingListIsCatalog | src/game/buildings.ts:29 | The list has four entries, each equal to the catalogue's entry for its id and at its id's position. Every catalogue entry appears in it. |
| Buildings.Refund | src/pages/Index.tsx:169 | The refund is half the cost rounded down: twice the refund is at most the cost and falls short by less than 2. |
| Buildings.RefundBelowCost | src/pages/Index.tsx:168-169 | Dismantling returns less than the price paid: 0, 1, 1 and 2 scrap for wall, farm, raincatcher and turret. |
| Buildings.Rotate | src/pages/Index.tsx:221 | R advances the rotation by one from 0, 1 and 2, and returns to 0 exactly from 3. |
| Buildings.RotateCycle | src/pages/Index.tsx:221 | Four presses of R restore the rotation, and two or three never do. |
| Tiles.Write | src/pages/Index.tsx:254 | Writing a cell sets that cell and leaves every other cell as it was. |
| MapGen.WallPass | src/pages/Index.tsx:93-95 | After the first pass every cell is wall or floor, and cell (x, y) is a wall exactly when draw y·24+x passes the wall test. |
| MapGen.SprinkleCursor | src/pages/Index.tsx:96-101 | The resource pass consumes exactly one draw per floor cell, and none for other cells. |
| MapGen.SprinkleFrame | src/pages/Index.tsx:96-101 | The resource pass only turns floors into resources, and leaves every cell before its start as it was. |
| MapGen.SprinkleResource | src/pages/Index.tsx:96-101 | A floor cell becomes a resource exactly when the draw after one draw per earlier floor cell passes the resource test. |
| MapGen.SprinkleCell | src/pages/Index.tsx:92-101 | After the resource pass a cell is never a terminal. It is a wall exactly when it was one, and a resource exactly when it was a floor and its resource draw passes. |
| MapGen.ResourcePass | src/pages/Index.tsx:92-101 | After the first two passes every cell is a wall exactly when its wall draw passes, and a resource exactly when its wall draw fails and its resource draw passes. The next draw is the terminal's row draw. |
| MapGen.TerminalCell | src/pages/Index.tsx:102-103 | The terminal's row and column, drawn after the two passes, are always inside the map. |
| MapGen.BuildMap | src/pages/Index.tsx:90-105 | The drawn terminal cell holds the terminal. Every other cell is not a terminal and is a wall exactly when its wall draw passes. It is a resource exactly when its wall draw fails and the resource draw it consumes passes. That draw comes after the 384 wall draws and one draw per earlier floor cell. |
| MapGen.OneTerminal | src/pages/Index.tsx:102-104 | Every generated map holds exactly one terminal. |
| MapGen.GameMap | src/pages/Index.tsx:138 | The map of any world seed has exactly one terminal. |
| World.Pick | src/pages/Index.tsx:60 | A pick is always an element of the array picked from. |
| World.Range | src/pages/Index.tsx:62-69 | `base + Math.floor(rnd() * span)` lies in [base, base + span). |
| World.DeriveWorld | src/pages/Index.tsx:57-82 | The seed is kept. Resources are in range: food and water 15–34, scrap 5–29, med 2–9, ammo 8–37. Both meters are 40–60. The three picks come from their lists. |
| World.GenerateWorldSeed | src/pages/Index.tsx:57-82 | A generated world keeps its seed number, starts with non-negative resources and has both meters in [0, 100]. |
| World.RangeBoundsAttained | src/pages/Index.tsx:62-69 | The range ends are reached: the lowest draw gives the lower bound, and the highest draw gives 34, 29, 9, 37 and 60. |
| Engine.FindBuilding | src/pages/Index.tsx:142 | The lookup finds nothing exactly when no building stands at the cell. Otherwise it returns the first building there. |
| Engine.CanPlaceAt | src/pages/Index.tsx:143-149 | A cell is placeable exactly when it is in bounds, is a floor and holds no building. |
| Engine.PlaceSelectedAt | src/pages/Index.tsx:150-164 | Without a selection, a placeable cell or enough scrap, nothing changes. Otherwise exactly one building is appended, with a fresh id and the current rotation, and the cost is debited. Nothing else changes. |
| Engine.RemoveId | src/pages/Index.tsx:170 | The filter keeps exactly the buildings whose id differs: every kept building is from the list and has another id, and every building with another id is kept. |
| Engine.RemoveIdAppend | src/pages/Index.tsx:170 | Filtering a concatenation filters each part and concatenates the results. |
| Engine.RemoveIdAt | src/pages/Index.tsx:170 | With distinct ids, filtering out building k's id removes exactly building k and keeps the others in order. |
| Engine.DismantleAt | src/pages/Index.tsx:165-173 | On an empty cell nothing changes. Otherwise half the first building's cost is refunded, rounded down, and with distinct ids exactly that building is removed. Nothing else changes. |
| Engine.Target | src/pages/Index.tsx:247-248 | A step moves one cell in its direction, up decreasing y, and stays put at the map edge. The target is always inside the map. |
| Engine.Move | src/pages/Index.tsx:246-262 | Walls and buildings block without any change. Otherwise the player moves to the target. A resource there becomes floor and pays +1 food, water and scrap. A terminal opens the dilemma. Only the target cell can change, from resource to floor. Nothing else changes. |
| Engine.CountKind | src/pages/Index.tsx:271-272 | The count of a kind is at most the number of buildings, and it is zero exactly when no building has that kind. |
| Engine.DailyYield | src/pages/Index.tsx:269-277 | Before the run or on day 0 nothing changes. Otherwise food grows by the number of farms and water by the number of raincatchers, and nothing else changes. |
| Engine.Choose | src/pages/Index.tsx:279-289 | The dialog closes. Sharing sets morality to min(100, m+6), survival to max(0, s−3), food to max(0, f−2) and water to max(0, w−1). Refusing sets morality to max(0, m−6) and survival to min(100, s+4) and keeps the resources. Nothing else changes, and meters in [0, 100] stay there. |
| Game.DirOf | src/pages/Index.tsx:233-244 | Arrow keys and WASD map to the four directions, each direction exactly from its two keys. |
| Game.Initial | src/pages/Index.tsx:110-139 | The first screen holds the drawn seed, its resources, meters and map, on day 0. The player is at (2, 2) with nothing built, build mode off, no selection, no ghost, rotation 0 and the dialog closed. |
| Game.ResetRun | src/pages/Index.tsx:291-305 | A new run returns to the seed screen on day 0, at (2, 2), with the new seed, its resources and meters, and the memoised map. Nothing is built, and build mode, selection, ghost and rotation are reset. |
| Game.OnKey | src/pages/Index.tsx:197-266 | Keys do nothing before the run. B toggles build mode and changes nothing else. Entering keeps the ghost and any existing selection, and selects a wall when none was selected. Leaving drops the ghost and keeps the selection. In build mode, Escape leaves and drops the ghost, R rotates, X dismantles at the ghost if there is one, and other keys do nothing. Outside build mode a movement key is exactly a move and other keys do nothing. |
| Game.OnHover | src/pages/Index.tsx:175-183 | In build mode the ghost follows the pointer's cell; otherwise nothing changes. |
| Game.OnCanvasClick | src/pages/Index.tsx:184-189 | In build mode with a ghost, a click is exactly a placement attempt at the ghost; otherwise nothing changes. |
| Game.OnContextMenu | src/pages/Index.tsx:190-194 | In build mode a right click clears the selection and nothing else; otherwise nothing changes. |
| Game.OnToolbarSelect | src/pages/Index.tsx:400-403 | During a run, an affordable kind becomes selected and build mode is on. Otherwise nothing changes. Only the selection and build mode can change. |
| Game.OnToolbarToggle | src/pages/Index.tsx:398 | During a run the toolbar button flips build mode. Before the run, when the toolbar is not shown, it does nothing. Only build mode can change. |
| Game.OnDayTick | src/pages/Index.tsx:127-135 | During a run a day tick advances the day by one and pays one food per farm and one water per raincatcher. Nothing else changes. Before the run it does nothing. |
| Game.OnDilemma | src/pages/Index.tsx:130 | The dilemma timer and button leave the dialog open exactly when it was already open or a run is on. Only the dialog flag can change. |
| Game.OnDismiss | src/pages/Index.tsx:411 | Closing the dialog changes nothing but the dialog flag. |
| Game.OnStart | src/pages/Index.tsx:334 | Start Run leaves the page in a run and changes nothing else. |
| Game.OnReroll | src/pages/Index.tsx:337 | Before the run, a reroll installs the newly drawn seed and its memoised map and changes nothing else. During a run it does nothing. |
| Game.OnNewRun | src/pages/Index.tsx:393 | During a run, New Run returns to the seed screen on day 0 with the new seed, its resources, meters and memoised map. The player is at (2, 2) with nothing built, build mode off, no selection or ghost and rotation 0. Otherwise it does nothing. |
| Game.OnChoice | src/pages/Index.tsx:411-421 | The dialog's buttons make exactly the moral choice while the dialog is open, and nothing otherwise. |
| Invariant.InitialValid | src/pages/Index.tsx:110-139 | The first screen satisfies the invariant: player in bounds, buildings on floor, not stacked, with fresh distinct ids, a non-negative ledger and meters in [0, 100]. |
| Invariant.PlacePreservesValid | src/pages/Index.tsx:150-164 | Placing keeps the invariant, because the new cell is free floor, the id is fresh and scrap covers the cost. |
| Invariant.DismantlePreservesValid | src/pages/Index.tsx:165-173 | Dismantling keeps the invariant. |
| Invariant.MovePreservesValid | src/pages/Index.tsx:246-262 | Moving keeps the invariant: buildings stay on floor because only resource cells change. |
| Invariant.ResetPreservesValid | src/pages/Index.tsx:291-305 | A new run satisfies the invariant. |
| Invariant.RerollPreservesValid | src/pages/Index.tsx:337 | A reroll keeps the invariant, because nothing is built before the run. |
| Invariant.DayTickPreservesValid | src/pages/Index.tsx:269-277 | A day tick keeps the invariant. |
| Invariant.YieldPreservesValid | src/pages/Index.tsx:269-277 | The daily-yield effect keeps the invariant whenever it runs. |
| Invariant.ChoicePreservesValid | src/pages/Index.tsx:279-289 | A moral choice keeps the invariant. |
| Reachable.StepPreservesValid | src/pages/Index.tsx:141-305 | Every event keeps the invariant. |
| Reachable.RunPreservesValid | src/pages/Index.tsx:141-305 | Any sequence of events keeps the invariant. |
| Reachable.ReachableValid | src/pages/Index.tsx:110-305 | Every state reachable from the first screen is valid: no building on a wall, resource or terminal, no two on one cell, no negative counter. |
| Properties.PlaceThenDismantle | src/pages/Index.tsx:150-173 | Dismantling what was just placed restores the building list and leaves the player short by cost minus refund, which is always positive. |
| Properties.DismantleEmptyCell | src/pages/Index.tsx:165-167 | Dismantling a cell with no building changes nothing. |
| Properties.StepKeepsFloor | src/pages/Index.tsx:249-256 | Within a run no event turns a floor cell into anything else. |
| Properties.RunKeepsFloor | src/pages/Index.tsx:249-256 | Within a run no sequence of events turns a floor cell into anything else. |
| Properties.PickupIsOneShot | src/pages/Index.tsx:252-256 | Entering a resource pays +1 food, water and scrap and leaves floor. However the run continues, entering that cell again pays nothing. |
| Properties.BuildModeIgnoresMovement | src/pages/Index.tsx:212-231 | In build mode no key other than B moves the player or changes the map. |
| Properties.StepKeepsMeters | src/pages/Index.tsx:279-289 | Every event keeps the meters in [0, 100]. |
| Properties.MetersStayInRange | src/pages/Index.tsx:279-289 | Any sequence of events, such as a thousand shares in a row, keeps the meters in [0, 100]. |
| Properties.ChoiceExamples | src/pages/Index.tsx:279-289 | From (50, 50, 10 food, 10 water), sharing gives (56, 47, 8, 9) and refusing gives (44, 54, 10, 10). |
| Properties.DayTickExample | src/pages/Index.tsx:269-277 | With two farms and a raincatcher, a day tick pays 2 food and 1 water. |
| YieldOnRebuild.StepAsWritten | src/pages/Index.tsx:269-277 | As written, a change of the building list during a run past day 0 pays one food per farm and one water per raincatcher again. Otherwise the step is the corrected one, and only food and water ever differ from it. |
| YieldOnRebuild.StepAsWrittenPreservesValid | src/pages/Index.tsx:269-277 | The page as written keeps the invariant on every event. |
| YieldOnRebuild.RunAsWrittenPreservesValid | src/pages/Index.tsx:141-305 | The page as written keeps the invariant over any sequence of events. |
| YieldOnRebuild.ReachableAsWrittenValid | src/pages/Index.tsx:110-305 | Every state the page as written can reach is valid. |
| YieldOnRebuild.PlacingPaysYieldAsWritten | src/pages/Index.tsx:277 | On day 1 with one farm, placing a wall pays a second food as written. The corrected step pays nothing. |
| YieldOnRebuild.FoodAndWaterOnlyFromTicksPickupsAndChoices | src/pages/Index.tsx:268-277 | In the corrected model food and water change only on a day tick, a pickup, a moral choice or a new run. Building, dismantling and UI events never touch them. |
| CanvasUnwired.StepShipped | src/components/MapCanvas.tsx:7-15 | As shipped, hover, click and right click change nothing. Every other event is handled as in the corrected page. |
| CanvasUnwired.StepShippedNothingBuilt | src/pages/Index.tsx:141-305 | Without pointer events no event sets a ghost, so none places or removes a building. |
| CanvasUnwired.ShippedNeverBuilds | src/pages/Index.tsx:110-374 | As shipped, no sequence of events from the first screen ever places a building. |
| CanvasUnwired.HoverThenClickPlaces | src/pages/Index.tsx:175-189 | With the handlers wired, hovering a placeable cell in build mode and clicking appends the selected building there. The shipped page ignores both events. |

## Left out

- React plumbing is not modelled: state hooks, effects, the 15 s and 25 s intervals and their cleanup. Timers become the `DayTick` and `DilemmaTick` events, and StrictMode double invocation is not modelled.
- Rendering, toasts, the dialog's markup and the canvas drawing (`src/components/MapCanvas.tsx`, `src/components/Meter.tsx`) are presentation only.
- The pointer-to-cell conversion of the mouse-move handler (Index.tsx:177-181) uses the canvas geometry in floating point. `Hover` receives the cell already converted. `Game.Step` delivers `Hover`, `Click` and `RightClick` to the page's handlers as if the canvas forwarded them (see "## Findings").
- The dialog's own Escape handling and its `onOpenChange` are reduced to the `DismissDialog` event.
- `Math.random()` for the top-level seed is not modelled. The entropy value is an `EntropySeed` parameter of `RerollSeed`, `NewRun` and `Initial`.
- Building ids built from `Date.now()` and `Math.random()` are replaced by the counter `nextId`. Distinctness of ids is proved from the counter, whereas the source relies on the clock and a random suffix.
- The zombie density's float formatting is not modelled: `Number((0.1 + rnd() * 0.5).toFixed(2))` is floating-point arithmetic with decimal rounding, and nothing consumes the value. The model keeps only its draw (`densityDraw`), so the draw order is still exact.
- Rng.Next: the accumulator is an unbounded `nat`. The source's JavaScript number is exact only below 2^53, i.e. for about 4.9 million calls of one generator. The game makes at most about 800.
- Engine.DismantleAt: the removal of exactly one building is stated only under distinct ids. The source filters by id and relies on unique id strings. `Invariant` proves distinct ids for every reachable state.
- Engine.Choose: the meter and ledger bounds are stated for meters in [0, 100] and non-negative food and water, which every reachable state has (`Reachable.ReachableValid`).

## Findings

| source | as written | input that shows it | evidently intended | confidence | as-written member | corrected member |
|---|---|---|---|---|---|---|
| src/pages/Index.tsx:277 | The daily-yield effect lists `placedBuildings` among its dependencies. It therefore re-runs and pays the farm and raincatcher yields again whenever a building is placed or dismantled after day 0. | Day 1, one farm, build mode with a wall selected and the ghost on free floor. A click places the wall and food rises by 1 without a new day. This needs the canvas's pointer events, which the shipped page drops (next row); once the canvas forwards them, the extra pay follows. | Yields are paid once per day tick, which is what the effect's comment says it is for. | not executed | YieldOnRebuild.PlacingPaysYieldAsWritten | YieldOnRebuild.FoodAndWaterOnlyFromTicksPickupsAndChoices |
| src/components/MapCanvas.tsx:7-15 | The page passes `onMouseMove`, `onClick` and `onContextMenu` to the map canvas (Index.tsx:372-374), but the component takes only the map, player, tile size, class and label, and attaches no listener to its canvas. Hover, click and right click never reach the page, so no ghost is ever set and nothing can be built or dismantled. | Any run: start it, enter build mode with B, move the pointer over a free floor cell and click. No building appears (`CanvasUnwired.HoverThenClickPlaces`: the shipped page leaves the state unchanged). | The canvas forwards the three handlers, so hovering sets the ghost and a click places the selected building there. | not executed | CanvasUnwired.ShippedNeverBuilds | CanvasUnwired.HoverThenClickPlaces |
