# ChemLab Tycoon production core, in Dafny

This project models the resource and production core of the ChemLab Tycoon browser game.
That core has three parts:

- **The inventory.** One store maps each chemical id to a stored amount. A single capacity
  bounds the sum of all amounts (the load). Adds are all-or-nothing, removals prune entries
  that reach 0, and the capacity only grows.
- **The machines.** Each placed machine is a five-state machine: Idle, Processing,
  Blocked_Input, Blocked_Output and No_Recipe. On every tick it draws the inputs of its recipe
  from the shared inventory, counts down the recipe's duration, and deposits the outputs. When
  the outputs do not fit, it parks in Blocked_Output and retries on later ticks.
- **The catalogues.** Three constant tables list the chemicals (prices), the machine types
  (costs) and the recipes (which machine type, inputs, outputs, duration).

Files, one module each:

- `results.dfy` (`Results`): `Option` and `Result`. A lookup that throws in the game returns `Err(message)` here.
- `chemicals.dfy`, `machines.dfy`, `recipes.dfy`: the catalogues and their lookups.
- `inventory.dfy` (`Inventory`): the store's meaning on map values (`AmountOf`, `Sum`, `Deposit`,
  `Withdraw`, `CanAdd`, `CanRemove`, `StoreValid`). It also holds the class `Inventory`, which
  keeps the map and the capacity in fields and is proved against those definitions.
- `machine_instance.dfy` (`MachineInstance`): the status datatype and the specification of one
  tick, `Step` on a `Snapshot` (status, timer, store contents). It also holds the class
  `MachineInstance`, whose `Update` and `FinishProcessing` run the source's loops through the
  `Inventory` object's methods and are proved equal to `Step` and `Finish`.
- `machine_properties.dfy` (`MachineProperties`): lemmas about `Step` over one tick and over
  many (`Run`), plus two scenarios (a Mixer producing Product B, and
  a Mixer blocked by a full store).

Modelling choices:

- Status names follow Dafny style: `BlockedInput`, `BlockedOutput` and `NoRecipe` stand for
  the source's `Blocked_Input`, `Blocked_Output` and `No_Recipe`.
- A recipe's inputs and outputs are sequences of (id, amount) pairs. The order is the order a
  `for...in` loop visits the keys of the source's object literals.
- The timer is a `real` number of seconds, and `update` takes `deltaMS: real`. A tick lowers
  the timer by exactly `deltaMS / 1000`.
- The source's `MachineInstance` constructor throws on an unknown machine type. This is
  modelled by the static method `Create`, which returns `Err` with the source's message. The
  Dafny constructor is the part after the type lookup has succeeded.
- The load is the ghost function `Sum`. `GetCurrentLoad` computes it with a loop, entry by entry.

Two behaviours the code has that an atomic reading would not:

- **Inputs.** The code removes inputs one by one without rollback (src/MachineInstance.ts:128-135;
  its own console.error at :132 calls a refused removal an inconsistency). A refused removal
  keeps the earlier ones (`ConsumeStopsAtFirstRefusal`). For a
  recipe with distinct, positive amounts that refusal cannot happen after a passed pre-check
  (`ConsumeSucceedsIff`, `StepStartsWhenInputsAvailable`).
- **Outputs.** A refused output keeps the earlier outputs, and each retry restarts from the
  first output (src/MachineInstance.ts:177-181; `DepositStopsAtFirstRefusal`). The
  outputs before the refused one are therefore added again as long as they fit, so they can be
  produced more than once for a single run (`RetryRepeatsEarlierOutputs`). Every catalogued recipe has a single output, so the game
  never sees this.

## Model

| member | source | states |
|---|---|---|
| `Chemicals.GetChemicalData` | src/data/Chemicals.ts:53-58 | succeeds iff the id is a key of the catalogue; the returned record's id is the requested id; an unknown id yields the source's error message |
| `Chemicals.PricesNonNegative` | src/data/Chemicals.ts:20-44 | every catalogued chemical has buyCost >= 0 and sellPrice >= 0 |
| `Chemicals.TradeRestrictions` | src/data/Chemicals.ts:22-43 | Products B and C have buyCost 0 (not purchasable); Raw Chemical A has sellPrice 0 (not sellable) |
| `Machines.GetMachineTypeData` | src/data/Machines.ts:39-44 | succeeds iff the id is a key of the catalogue; the returned record's id is the requested id; otherwise the source's error message |
| `Machines.MachineCosts` | src/data/Machines.ts:18-31 | a Mixer costs 100, a Heater 300, and every catalogued type has a positive cost |
| `Recipes.FilterByMachine` | src/data/Recipes.ts:49-51 | the result is a subsequence of the input (original order kept) holding each recipe of the given type exactly as often as the input does and nothing else; its first element is the earliest match |
| `Recipes.GetRecipesForMachine` | src/data/Recipes.ts:49-51 | the result keeps the table's order, and a recipe is in it iff it is in the table and runs on the given machine type |
| `Recipes.FirstRecipeIsEarliest` | src/data/Recipes.ts:24-51 | element 0 of a non-empty result is the first recipe of the table with that machine type |
| `Recipes.RecipesPerMachine` | src/data/Recipes.ts:24-51 | Mixer yields exactly 'Mix A to B', Heater exactly 'Heat B to C', every other type the empty sequence |
| `Recipes.CatalogueWellFormed` | src/data/Recipes.ts:24-42 | every recipe has positive input and output amounts, distinct keys and a positive processing time |
| `Inventory.SumRemove` | src/Inventory.ts:40-47 | the load is the same whichever entry the summation starts from |
| `Inventory.SumNonNegative` | src/Inventory.ts:40-47 | with positive entries the load is never negative |
| `Inventory.DepositEffect` | src/Inventory.ts:79-82 | a deposit raises the chemical's amount by exactly n, leaves every other amount alone and raises the load by n |
| `Inventory.WithdrawEffect` | src/Inventory.ts:109-116 | an accepted removal lowers the chemical's amount by exactly n, leaves the others alone, lowers the load by n, deletes the entry exactly when it reaches 0, keeps all entries positive |
| `Inventory.DepositKeepsValid` | src/Inventory.ts:65-86 | an accepted add preserves load <= capacity and positive entries |
| `Inventory.WithdrawKeepsValid` | src/Inventory.ts:95-120 | an accepted removal preserves load <= capacity and positive entries |
| `Inventory.AddRemoveRoundTrip` | src/Inventory.ts:65-120 | after adding n of a chemical, removing n of it is accepted and restores the store exactly, so every amount and the load |
| `Inventory.Inventory.constructor` | src/Inventory.ts:23-34 | the store starts empty with load 0; a negative capacity is clamped to 0; the invariant holds |
| `Inventory.Inventory.GetCurrentLoad` | src/Inventory.ts:40-47 | the accumulating loop returns the load (sum of all stored amounts) |
| `Inventory.Inventory.WouldExceedCapacity` | src/Inventory.ts:54-56 | true iff load + amount > capacity |
| `Inventory.Inventory.AddChemical` | src/Inventory.ts:65-86 | accepted iff amount > 0 and load + amount <= capacity; if refused nothing changes; if accepted that chemical rises by exactly amount, every other amount and the capacity stay, the load rises by amount; the invariant is kept |
| `Inventory.Inventory.RemoveChemical` | src/Inventory.ts:95-120 | accepted iff amount > 0 and the stored amount >= amount; if refused nothing changes; if accepted that chemical drops by exactly amount, its entry is deleted when it reaches 0, other amounts and the capacity stay; the invariant is kept |
| `Inventory.Inventory.GetAmount` | src/Inventory.ts:127-129 | 0 for an absent id; under the invariant, positive exactly for ids with an entry |
| `Inventory.Inventory.HasEnough` | src/Inventory.ts:137-139 | true iff the amount asked for is <= 0 or the stored entry holds at least that much |
| `Inventory.Inventory.IsFull` | src/Inventory.ts:145-147 | true iff load >= capacity, which under the invariant means load == capacity |
| `Inventory.Inventory.GetCapacity` | src/Inventory.ts:153-155 | the capacity is non-negative and bounds the load |
| `Inventory.Inventory.GetLoad` | src/Inventory.ts:162-164 | returns the load, which lies between 0 and the capacity |
| `Inventory.Inventory.GetStoredChemicals` | src/Inventory.ts:173-175 | the copy lists exactly the chemicals with a positive amount, each with its amount |
| `Inventory.Inventory.IncreaseCapacity` | src/Inventory.ts:182-190 | refused iff the increase is <= 0; otherwise the capacity grows by exactly that much; the store is untouched and the invariant is kept |
| `MachineInstance.InitialRecipe` | src/MachineInstance.ts:60-69 | absent iff no recipe of the table runs on the type; otherwise a recipe of that type and the earliest such in the table |
| `MachineInstance.MachineInstance.constructor` | src/MachineInstance.ts:45-69 | the machine gets the first recipe for its type and is Idle, or gets none and is No_Recipe; the timer starts at 0 |
| `MachineInstance.MachineInstance.Create` | src/MachineInstance.ts:52-57 | fails with the source's message iff the machine type is unknown; otherwise a fresh machine with the looked-up type record, the initial recipe, the initial status and timer 0 |
| `MachineInstance.MachineInstance.Update` | src/MachineInstance.ts:113-167 | the new status, timer and store contents are `Step` of the old ones; the capacity is unchanged and the store's invariant is kept |
| `MachineInstance.MachineInstance.FinishProcessing` | src/MachineInstance.ts:170-190 | the new status, timer and store contents are `Finish` of the old ones; the capacity is unchanged and the store's invariant is kept |
| `MachineProperties.ConsumeStopsAtFirstRefusal` | src/MachineInstance.ts:128-135 | sequential removal either removes every input, or stops at a refused input with the earlier removals kept |
| `MachineProperties.DepositStopsAtFirstRefusal` | src/MachineInstance.ts:176-181 | sequential deposit either adds every output, or stops at a refused output with the earlier adds kept |
| `MachineProperties.ConsumeSucceedsIff` | src/MachineInstance.ts:121-135 | with distinct ids, every removal is accepted iff all amounts are positive and the pre-check holds |
| `MachineProperties.DepositSucceedsIff` | src/MachineInstance.ts:176-182 | every add is accepted iff all amounts are positive and the outputs together fit in the remaining capacity |
| `MachineProperties.WithdrawAllAmounts` | src/MachineInstance.ts:129-131 | removing well-formed, available inputs lowers each chemical by exactly its amount in the recipe |
| `MachineProperties.DepositAllAmounts` | src/MachineInstance.ts:177-179 | depositing outputs raises each chemical by exactly its amount in the recipe and the load by their total |
| `MachineProperties.ConsumeKeepsValid` | src/MachineInstance.ts:128-135 | consuming inputs keeps load <= capacity and positive entries |
| `MachineProperties.DepositKeepsStoreValid` | src/MachineInstance.ts:176-181 | depositing outputs keeps load <= capacity and positive entries |
| `MachineProperties.StepKeepsStoreValid` | src/MachineInstance.ts:113-167 | a tick keeps the store's invariant |
| `MachineProperties.InitialConsistent` | src/MachineInstance.ts:49-69 | a new machine has No_Recipe exactly when it has no recipe, and timer 0 |
| `MachineProperties.StepKeepsConsistent` | src/MachineInstance.ts:113-190 | for a recipe with positive duration a tick keeps: No_Recipe iff no recipe, timer > 0 while Processing, timer 0 otherwise (so Blocked_Output always retries) |
| `MachineProperties.StepFromIdle` | src/MachineInstance.ts:117-149 | in Idle or Blocked_Input: an input short leaves the store and timer alone and sets Idle; all inputs removed gives Processing with the recipe's duration; a refused removal gives Blocked_Input with earlier removals kept |
| `MachineProperties.StepStartsWhenInputsAvailable` | src/MachineInstance.ts:121-140 | for a well-formed recipe with all inputs available, the tick removes exactly each input amount and starts Processing with the recipe's duration |
| `MachineProperties.StepCountsDown` | src/MachineInstance.ts:152-157 | in Processing the timer drops by deltaMS / 1000; while it stays positive nothing else changes |
| `MachineProperties.FinishOutcome` | src/MachineInstance.ts:170-190 | the timer becomes 0; Idle with every output added iff the outputs are positive and fit together; otherwise Blocked_Output with the outputs before the refused one kept |
| `MachineProperties.StepFinishesRun` | src/MachineInstance.ts:152-157 | when the timer reaches <= 0 the tick finishes the run, ending in Idle iff the outputs fit |
| `MachineProperties.StepRetriesBlockedOutput` | src/MachineInstance.ts:160-166 | in Blocked_Output every tick retries the outputs and leaves for Idle iff they fit, else stays Blocked_Output |
| `MachineProperties.RunNoRecipe` | src/MachineInstance.ts:114 | a machine in No_Recipe never leaves it and never touches the store, over any sequence of ticks |
| `MachineProperties.RunKeepsInvariants` | src/MachineInstance.ts:113-190 | over any sequence of ticks the store stays valid and the machine state consistent |
| `MachineProperties.RunCountsDown` | src/MachineInstance.ts:152-157 | non-negative ticks adding up to less than the remaining time only lower the timer by their sum / 1000 |
| `MachineProperties.KnownTypesStartIdle` | src/MachineInstance.ts:52-69 | every catalogued machine type has a recipe and starts Idle: Mixer with 'Mix A to B', Heater with 'Heat B to C' |
| `MachineProperties.MixerProducesProductB` | src/MachineInstance.ts:113-190 | a Mixer with one Raw Chemical A: the first tick consumes it and starts a 5 s run; after 5000 ms more it is Idle and the store holds one Product B |
| `MachineProperties.MixerBlockedWhileFull` | src/MachineInstance.ts:160-187 | a Mixer whose run ends with the store full of Product B is Blocked_Output, stays there while full, and the tick after room frees deposits and goes Idle |
| `MachineProperties.RetryRepeatsEarlierOutputs` | src/MachineInstance.ts:160-187 | each retry restarts from the first output, so the outputs before the refused one are added again as long as they fit: with two outputs that never fit together at capacity 2, one retry adds a second unit of the first output, and once that no longer fits a retry changes nothing |

## Left out

- Rendering: sprites, text, colours, `updateVisualState` and `getSprite` draw through a graphics library whose code is not part of this model. Their calls do not change the modelled state.
- Logging: `console.log`, `warn` and `error` calls have no effect on state.
- The game shell, the UI manager and the entry point (src/GameManager.ts, src/UIManager.ts, src/main.ts). They only set up the page, the buttons and an empty ticker. Buying, selling and placing exist there only as commented-out stubs, so there is no currency logic to model.
- The frame scheduler: `Update` is called with any `deltaMS`; the per-frame fan-out over all machines is not modelled.
- Floating point: amounts and capacities are unbounded integers, recipe durations are integers, and the timer and `deltaMS` are exact reals. JavaScript's rounding of large or fractional numbers is not modelled, and neither are non-integer amounts, which the source's comments rule out.
- Inherited object keys: the catalogue lookups treat only the literal keys as present. In JavaScript, an id such as "toString" also finds a member inherited from `Object.prototype`, so the lookup would not throw. The model does not capture that.
- The `position` argument of the `MachineInstance` constructor only places the sprite, so it is left out.
- The chemical `icon` field is commented out in every catalogue entry, so it is left out. The machine types' `spritePath` is kept as data.
