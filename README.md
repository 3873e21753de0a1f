# FireHero: the simulation and economy engine, in Dafny

FireHero is a browser and Telegram mini-app game. Its grid has 25
buildings, and a building catches fire at random. The player taps burning
buildings to spray water on them and earns coins for each fire put out.
Coins buy two upgrades:

- the pump raises the click power;
- the tank raises the water capacity.

Water regenerates over time. It can also be refilled by hand or spent on
a rain that puts out every fire at once.

This project models the engine of `script.js`, in four modules:

- `Balance` (balance.dfy): the tuning table (`CONFIG`) and the formulas
  the controller evaluates inline. These are the price curve, click
  power, reward, damage, water top-up, burned percentage and the choice
  of the cell a new fire lands on. It also holds the level tables, both
  as the code reads them and corrected.
- `Cells` (cells.dfy): the grid as a sequence of hit points (0 is safe,
  above 0 is burning). It defines how many cells burn and which are safe,
  as the frame's two `filter` calls compute them.
- `Reactive` (reactive.dfy): the `GameState` store, a class holding:
  - the record of top-level fields and their enumeration order;
  - the listeners of each field;
  - the log of every listener call.

  Writes go through the proxy trap, which notifies the written field's
  listeners. `Load` shallow-merges a saved record (`Object.assign`) and
  then notifies every field once. `Save` lists the record's members. The
  module proves that a save followed by a load restores the record and
  its key order.
- `Controller` (controller.dfy): the `GameController` class. It holds the
  store, the cells (an `array<int>` of hit points) and the previous
  frame's timestamp. Its methods are the player actions (click, rain,
  refill, buy), the logic of one animation frame, and the steps those are
  made of. Each method states its new state in full: the record, the
  cells and the exact sequence of listener calls.

Values are exact: water and coins are `real`s, prices are whole
numbers, and `Math.floor` is `.Floor`. The two random draws of a frame
are parameters in [0, 1). The frame timestamp and the clock reading that
the store's constructor records in `lastSave` are parameters too.

The model follows the code: buying a tank sets the capacity to 100 plus
the new level's table entry, and loading replaces the `upgrades` object
whole.

The economy's invariant is `Controller.Solvent` (`Sane()` on the
controller):

- water lies between 0 and the capacity;
- coins are not negative;
- the capacity is at most what the tank level provides.

Every player action and the frame tick preserve it.

## Model

| member | source | states |
|---|---|---|
| Balance.Price | script.js:385 | the price of level `lvl` is floor(base * growth^lvl) and never below the base price (100 for the pump, 250 for the tank) |
| Balance.PriceStep | script.js:13-15 | each level costs strictly more than the previous one, for both growth factors |
| Balance.PriceStrictlyIncreasing | script.js:13-15 | for any two levels, the higher one costs strictly more |
| Balance.PriceAtLevelOne | script.js:383-387 | from the starting level 1, the next pump costs 160 coins and the next tank costs 375 |
| Balance.PumpBonusAsWritten | script.js:259 | the pump table as the click handler indexes it: defined exactly for levels 0 to 5, with a bonus between 0 and 100, and nothing (NaN) beyond |
| Balance.PumpReadMonotone | script.js:19 | where the click handler's read is defined, a higher level never reads a smaller bonus |
| Balance.PumpBonus | script.js:19 | the corrected bonus: it agrees with the table wherever the table is defined, and gives the last row beyond it |
| Balance.ClickPower | script.js:259 | click power lies between 20 and 120; wherever the table is defined it is the code's value, the table entry plus 20, and beyond level 5 it is the top power, 120 |
| Balance.ClickPowerMonotone | script.js:19 | a higher pump level never gives less click power |
| Balance.TankBonusAsWritten | script.js:391 | the tank table as the shop indexes it after `++`: the `\|\| 5` fallback only catches level 0, and nothing (NaN capacity) is read beyond level 5 |
| Balance.TankBonus | script.js:20 | the corrected bonus: it agrees with the shop's read for levels 1 to 5, and gives the last row beyond them |
| Balance.TankBonusMonotone | script.js:20 | a higher tank level never gives a smaller bonus |
| Balance.Reward | script.js:284 | the reward is 10 + 2 * pump level: at least 10, and always even |
| Balance.Hit | script.js:260 | hit points after a click are never negative, reach 0 exactly when the power covers them, and otherwise fall by the power |
| Balance.TopUp | script.js:323-324 | a full tank is left alone; otherwise water rises by the amount, capped at the capacity |
| Balance.BurnedPercent | script.js:341 | the burned percentage is 4 per burning cell: 0 exactly when nothing burns and 100 exactly when all 25 cells burn |
| Balance.SpreadIndex | script.js:347 | floor(draw * count) is a valid index among the safe cells |
| Balance.AfterClicksValue | script.js:252-268 | after n clicks with enough water, a burning cell stands at max(0, hp - n * power) |
| Balance.RewardPaidOnce | script.js:266-267 | clicks on one fire pay exactly one reward, on the click that puts it out, and none while it still burns |
| Balance.FreshFireAtPumpOne | script.js:259-267 | at pump level 1 (power 25), a fresh fire is at 50 after two clicks and out after four, and six clicks pay one reward |
| Cells.Burning | script.js:340 | the burning count is at most the number of cells |
| Cells.SafeIndices | script.js:345 | every listed index is a valid index of a safe cell, and the list is strictly increasing (grid order) |
| Cells.SafeIndicesComplete | script.js:345 | every safe cell is listed |
| Cells.BurningAndSafePartition | script.js:340-345 | with no negative hit points, burning cells plus safe cells are the whole grid |
| Cells.IgniteAddsOne | script.js:290-291 | lighting a safe cell adds exactly one burning cell |
| Cells.AllSafeNoneBurning | script.js:311-317 | a grid of cells all at 0 has nothing burning |
| Reactive.Defaults | script.js:36-43 | the default record holds exactly the six default fields, listed once each in declaration order |
| Reactive.DispatchReachesOnlyField | script.js:66-70 | notifying a field calls each of its listeners once, in subscription order, with the value, and calls no listener of any other field |
| Reactive.ReplayNotifiesEachKeyOnce | script.js:78 | replaying distinct keys makes exactly one notification per key, carrying that key's value, and none for other fields |
| Reactive.ReplayWithoutListeners | script.js:78 | with nobody subscribed, the replay after a load calls nobody |
| Reactive.SnapshotLists | script.js:82 | the save lists the keys in enumeration order, each with its value |
| Reactive.AssignKeepsKeysListed | script.js:75 | after `Object.assign`, the order still lists the record's keys once each |
| Reactive.AssignKeepsUnsaved | script.js:75 | a key the save does not mention keeps its default value |
| Reactive.AssignTakesLastSaved | script.js:75 | a key the save mentions takes the value of its last mention |
| Reactive.AssignSnapshotAt | script.js:75 | merging a saved record over defaults, key by key: saved keys take the saved value, other default keys keep theirs, nothing else appears |
| Reactive.SaveLoadRoundTrip | script.js:72-83 | loading what was saved restores every field, provided the defaults have no key the save lacks |
| Reactive.SaveLoadKeepsOrder | script.js:75-78 | loading what was saved also restores the enumeration order, when that order starts with the default keys |
| Reactive.MergeIsShallow | script.js:41-75 | for every save whose last `upgrades` member is an object, the loaded `upgrades` is exactly that object, so a default level the save omits is lost |
| Reactive.GameState.constructor | script.js:34-56 | the store starts with the default record and order, no listeners and no calls |
| Reactive.GameState.Subscribe | script.js:61-64 | the callback is appended to the field's listeners, creating the list if needed |
| Reactive.GameState.Notify | script.js:66-70 | the call log grows by exactly the field's dispatch |
| Reactive.GameState.Set | script.js:49-55 | the trap stores the value, appends a new key to the order, keeps the record's keys listed, and then notifies that field |
| Reactive.GameState.SetNested | script.js:389 | an in-place write inside a field's object changes that entry only and notifies nobody |
| Reactive.GameState.Load | script.js:72-79 | the record becomes the shallow merge of a parsed save (unchanged when there is no save or it is corrupt), and every field is then notified once in enumeration order |
| Reactive.GameState.NotifyAll | script.js:78 | the call log grows by one dispatch per key, in enumeration order |
| Reactive.GameState.Save | script.js:81-83 | the save lists every field of the record exactly once, with its current value, in enumeration order |
| Controller.DefaultsSolvent | script.js:36-43 | the default record has the shape the controller expects and satisfies the economy's invariant |
| Controller.PurchaseEffect | script.js:383-392 | a purchase debits the price, raises that level by one, leaves the other level and the water alone, and resets the capacity for a tank; when the coins cover the price it keeps the economy solvent |
| Controller.BoughtTimes | script.js:387-389 | n purchases in a row keep the record shaped and raise the bought level by exactly n |
| Controller.PumpPastTable | script.js:389 | from the default record, four pump purchases reach level 5, whose table read is defined, and the fifth reaches level 6, where it yields nothing |
| Controller.TankPastTable | script.js:389-391 | from the default record, four tank purchases reach level 5, which reads 1000, and the fifth reaches level 6, where the read yields nothing |
| Controller.CoinTotalValue | script.js:311-317 | n rewards of r each, from a start of s, leave s + n * r coins, never fewer than s |
| Controller.GameController.constructor | script.js:161-199 | a new controller has 25 safe cells (`generateGrid`), timestamp 0, and a store holding the defaults with the save merged over them, in the merged key order (`store.load()`); the load's replay calls nobody, and with no save, or a corrupt one, the economy is solvent |
| Controller.GameController.CountBurning | script.js:340 | the loop counts exactly the burning cells |
| Controller.GameController.SafeCells | script.js:345 | the loop lists exactly the safe cells, in grid order |
| Controller.GameController.StartFire | script.js:290-291 | the chosen cell goes to 100 hit points and no other cell changes |
| Controller.GameController.ClearFire | script.js:281-288 | coins rise by the reward at the current pump level, with one coin notification |
| Controller.GameController.HandleCellClick | script.js:252-279 | a safe cell, or less than 5 water, changes nothing; otherwise water falls by 5, the cell takes the click power, and a cell put out pays its reward, each write notified in order; solvency is kept |
| Controller.GameController.ActivateRain | script.js:298-307 | the rain is scheduled exactly when water is at least 50, and then costs 50 water |
| Controller.GameController.DouseCell | script.js:311-316 | a burning cell goes to 0 and pays its reward; a safe cell is left alone; no other cell changes |
| Controller.GameController.DouseAll | script.js:311-317 | every cell ends at 0, and coins grow by one reward per burning cell with one notification each, in grid order |
| Controller.GameController.RainLands | script.js:309-318 | the landed rain leaves every cell at 0, adds burning count * reward coins, and keeps solvency |
| Controller.GameController.ManualRefill | script.js:322-327 | water rises by 15, capped at the capacity, and is notified only if the tank was not full |
| Controller.GameController.RegenerateWater | script.js:334-337 | water rises by 20 per elapsed second, capped at the capacity, and is notified only if the tank was not full |
| Controller.GameController.PublishBurned | script.js:339-341 | returns the burning count and publishes its percentage |
| Controller.GameController.SpreadFire | script.js:343-350 | when the roll falls under 0.015, fewer than 25 cells burn and some cell is safe, the safe cell the draw picks catches fire; otherwise nothing changes |
| Controller.GameController.Tick | script.js:330-351 | one frame regenerates water, publishes the burned percentage of the grid as it stood, maybe spreads the fire, records the timestamp, and keeps solvency |
| Controller.GameController.Pay | script.js:387-389 | the first step of a purchase: the record becomes `Paid` of the old one (price debited, level raised in place), with one coin notification and no notification for the level |
| Controller.GameController.Purchase | script.js:387-392 | a covered purchase makes the record exactly `Bought` of the old one, notifying coins (and the capacity for a tank, read from the raised level) but not the level; solvency is kept |
| Controller.GameController.BuyUpgrade | script.js:383-399 | with fewer coins than the price nothing changes; otherwise the purchase goes through as `Purchase` states; solvency is kept |

## Findings

| source | as written | input that shows it | evidently intended | confidence | as-written member | corrected member |
|---|---|---|---|---|---|---|
| script.js:389-391 | `CONFIG.levels.tank[this.state.upgrades[id] \|\| 5]`: the fallback is on the index, and nothing caps the level | the fifth tank purchase from level 1 (coins at least 1898) makes the level 6; the table read is undefined and `maxWater` becomes NaN, so regeneration and refill stop for good | past the table, the last row (1000) applies | high (not executed) | Controller.TankPastTable | Balance.TankBonus |
| script.js:259 | `CONFIG.levels.pump[this.state.upgrades.pump] + 20`, with nothing capping the level | at pump level 6, reached by five purchases from level 1, the click power is NaN; the clicked cell's hit points become NaN, so it is neither burning nor safe and can never be cleared | past the table, the last row (100) applies | medium (not executed) | Controller.PumpPastTable | Balance.PumpBonus |

## Left out

- Rendering and effects are not modelled: `FXManager` (canvas particles, floating text), `Haptic`, the Telegram WebApp calls, the DOM data bindings, the shop and leaderboard markup, navigation and the loader. Listeners are opaque ids, and their calls are logged instead of run.
- The autosave step of the frame (script.js:353-356) is not modelled, because it reads `Date.now()`. Neither is the forced save after a purchase (script.js:395), which writes to `localStorage`. `Save` gives the members such a save would write.
- `localStorage` and `JSON.parse` are not modelled. `Load` takes the slot's outcome as a `Saved` value: nothing stored, text that does not parse, or the parsed members in text order.
- Reactive.GameState.Load: a save that parses to any value other than a plain object (a number, a string, an array, `null`) is treated as no save. JavaScript's `Object.assign` would copy a string's characters or an array's items under their indices as keys.
- Reactive.GameState.Load: `Object.keys` lists integer-like keys first, in numeric order. The model lists every key in insertion order, which is exact for the game's own fields.
- Floating point is not modelled: water, coins and prices are exact rationals, so rounding in `Math.pow` and in the `dt` arithmetic is not.
- Timers are not modelled: the rain's one-second `setTimeout` and its 50 ms particle interval. The rain is split into `ActivateRain`, which pays and schedules, and `RainLands`, which runs when the timer fires. The model does not say what happens between the two.
- Controller.GameController.Tick: requires that the frame timestamp does not go backwards, as `requestAnimationFrame` guarantees.
- Controller methods require the record to have the default fields with the default shapes (`Shaped`): numbers for coins, water and capacity, and whole-number levels. A loaded save that breaks this (for example a level stored as text) is outside the model.
- Balance.ClickPower: uses the corrected level tables (see Findings); beyond level 5 it does not reproduce the NaN that the code computes at script.js:259, and gives power 120.
- Controller.Bought: uses the corrected level tables (see Findings); beyond level 5 it does not reproduce the NaN that the code computes at script.js:391, and sets the capacity from row 5.
- Controller.PurchaseEffect: uses the corrected level tables (see Findings); beyond level 5 it does not reproduce the NaN that the code computes at script.js:391, and states the capacity from row 5.
- Controller.GameController.HandleCellClick: uses the corrected level tables (see Findings); beyond level 5 it does not reproduce the NaN that the code computes at script.js:259, and hits with power 120.
- Controller.GameController.Purchase: uses the corrected level tables (see Findings); beyond level 5 it does not reproduce the NaN that the code computes at script.js:391, and sets the capacity from row 5.
- Controller.GameController.BuyUpgrade: uses the corrected level tables (see Findings); beyond level 5 it does not reproduce the NaN that the code computes at script.js:391, and sets the capacity from row 5.
- Controller.GameController.constructor: the data bindings that `init()` subscribes before loading (script.js:184) are not modelled, so the store has no listeners and the load's replay calls nobody. The constructor promises the economy's invariant only when no save parses, since a save may hold any values. Starting the frame loop and hiding the loader (script.js:193-199) are not modelled.
- The `lastSave` timestamp's updates are not modelled, since they belong only to the autosave.
