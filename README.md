# StepOwl game core in Dafny

StepOwl is a step-counting game. The phone's step sensor drives a quest loop:
the player picks one of three offered quests, walks the quest's number of
steps past the reading at which it started, and claims its reward item. The
item lands in a ten-slot inventory, where items of the same name stack. After
every change the whole game state is saved as a JSON record and loaded again
when the app starts.

This project models that core, `GameViewModel` and the data it is built from:

- `item_data.dfy` (`ItemModel`): the four rarity tiers with their weights,
  labels and stored names; the `ItemData` stack; the fixed `Items` table.
- `quest_data.dfy` (`QuestModel`): the `QuestData` record. Only
  `isCompleted` ever changes, and only by building a copy.
- `inventory_data.dfy` (`InventoryModel`): the `InventoryData` list wrapper
  and the empty default inventory.
- `quests.dfy` (`Quests`): the constant catalog of eight quest templates.
- `selection.dfy` (`Selection`): the weighted linear-scan pick, stated as
  "the first template whose running weight sum reaches the draw". It also
  defines the three offers `generateNewQuests` builds.
- `json.dfy` (`Json`): saved games as a tree of JSON values, plus the
  org.json accessors the loader uses.
- `game_state.dfy` (`GameStates`): the `GameState` record and the invariants
  the operations keep.
- `persistence.dfy` (`Persistence`): the save format and the decoder as
  functions, with round-trip lemmas.
- `game_view_model.dfy` (`ViewModel`): the class `GameViewModel`. Its fields
  are `gameState`, `currentSensorSteps`, `initialSessionSteps` and `prefs`,
  which is the stored save slot. There is one method per operation.

Randomness and identifiers are parameters. A draw `r` stands for
`Random.nextDouble() * totalWeight`. An `ids` entry stands for a
`UUID.randomUUID()` string. Every operation that makes offers takes three of
each. Step readings and weights are `real`. The code only subtracts, compares
and adds them, and every weight sum of the catalog is exact in binary floating
point too.

The invariant `GameStates.Valid` has four parts:
- at most ten stacks;
- pairwise distinct stack names;
- either an active quest and no offers, or no active quest and three offers;
- the active quest's reward always fits, because there is a free slot or a
  stack of the same name.

Every operation keeps it. `selectQuest`'s guard sets up the last part, and
only `claimReward` changes the inventory. So from a valid state,
`claimReward`'s "full inventory, new name" branch, where nothing happens and
the quest stays active, can never be reached
(`ViewModel.GameViewModel.ClaimReward`, last ensures). It can be reached only
from a saved game that was edited by hand. `ViewModel.RoseScenario` is a
client of the contracts: it starts from two roses and a completed rose quest,
and after a claim there is one stack of three roses and three new offers.

Three points of the code shape the persistence lemmas:
- `questToJson` does not write the reward's quantity, and `jsonToQuest` reads
  it back as 1 (GameViewModel.kt:304-309, 320). So loading what was saved
  gives back the saved state exactly only when every quest's reward is a
  stack of one (`Persistence.StateRoundTrip`,
  `Persistence.StateRoundTripExact`). The offers the game makes always are.
- A load that fails leaves the state as it was: the exception is caught
  before anything is assigned (GameViewModel.kt:290-292). That state is the
  default one only while the app is starting up.
- `ItemData.id` is declared `Int`, but `generateNewQuests` builds reward items
  without one (GameViewModel.kt:181), and the loader reads ids with
  `getString` (GameViewModel.kt:258, 317). The model treats the id as an
  opaque string that is carried through unchanged. Reward items of generated
  offers get the empty string (`Selection.UnsetItemId`).

## Model

| member | source | states |
|---|---|---|
| `ItemModel.RarityWeights` | app/src/main/java/pt/iade/games/stepowl/Data/ItemData.kt:8-13 | every tier weight is positive, and the weights fall strictly: COMMON 30 > UNCOMMON 15 > RARE 5 > LEGENDARY 0.5 |
| `ItemModel.RarityLabels` | app/src/main/java/pt/iade/games/stepowl/Data/ItemData.kt:9-12 | each tier has its own display label: Comum, Incomum, Raro, Lendário |
| `ItemModel.RarityFromName` | app/src/main/java/pt/iade/games/stepowl/ViewModels/GameViewModel.kt:260 | `Rarity.valueOf` yields a tier exactly when the string is that tier's constant name, and fails for any other string |
| `ItemModel.RarityNameRoundTrip` | app/src/main/java/pt/iade/games/stepowl/ViewModels/GameViewModel.kt:221 | a tier stored by its name is read back as the same tier |
| `ItemModel.ItemWithId` | app/src/main/java/pt/iade/games/stepowl/Data/ItemData.kt:27-38 | every id from 0 to 9 belongs to some entry of the item table |
| `ItemModel.ItemsTable` | app/src/main/java/pt/iade/games/stepowl/Data/ItemData.kt:27-38 | the table's ids are pairwise distinct and are exactly 0 to 9, and its item names are pairwise distinct |
| `Quests.PoolTiers` | app/src/main/java/pt/iade/games/stepowl/Components/Quests.kt:14-35 | the catalog is non-empty, with 8 templates: 3 COMMON, 3 RARE, 2 LEGENDARY and no UNCOMMON (those entries are commented out) |
| `Quests.PoolStepTargets` | app/src/main/java/pt/iade/games/stepowl/Components/Quests.kt:16-34 | every template has a positive step target: 50 for COMMON, 500 for RARE, 1000 or 10000 for LEGENDARY |
| `Quests.PoolNamesDistinct` | app/src/main/java/pt/iade/games/stepowl/Components/Quests.kt:16-34 | no two templates reward items of the same name |
| `Selection.PrefixWeightIncreasing` | app/src/main/java/pt/iade/games/stepowl/ViewModels/GameViewModel.kt:194-198 | the running sum `currentSum` never falls and rises strictly with each template, because every weight is positive |
| `Selection.PickFrom` | app/src/main/java/pt/iade/games/stepowl/ViewModels/GameViewModel.kt:196-203 | the scan from position k stops at the first template whose running sum is at least the draw; if none qualifies it falls back to the first template |
| `Selection.FirstCoverIsPicked` | app/src/main/java/pt/iade/games/stepowl/ViewModels/GameViewModel.kt:196-201 | conversely, the first template whose running sum reaches the draw is the one picked |
| `Selection.FallbackUnreachable` | app/src/main/java/pt/iade/games/stepowl/ViewModels/GameViewModel.kt:202-203 | for a draw below the total weight, some template is reached, so the `pool.first()` fallback is never used |
| `Selection.PickInterval` | app/src/main/java/pt/iade/games/stepowl/ViewModels/GameViewModel.kt:191-204 | for a draw in [0, total), template i is picked exactly when the draw lies in (sum before i, sum through i]. That interval is as wide as i's weight: the inverse-CDF sampler, proved in both directions |
| `Selection.PoolTotalWeight` | app/src/main/java/pt/iade/games/stepowl/ViewModels/GameViewModel.kt:192 | the catalog's weights add up to 3·30 + 3·5 + 2·0.5 = 106 |
| `Selection.OffersShape` | app/src/main/java/pt/iade/games/stepowl/ViewModels/GameViewModel.kt:173-188 | there are exactly 3 offers. Each one copies a catalog template's description, steps, item name and tier, starts not completed, rewards a stack of one and carries its own fresh id. For draws in [0, 106) each template is the one whose weight interval holds the draw |
| `Selection.OfferFrom` | app/src/main/java/pt/iade/games/stepowl/ViewModels/GameViewModel.kt:178-183 | the quest built from a template copies its description, step target and tier, starts not completed, carries the given id, and rewards a stack of one of the template's item in the template's tier |
| `Selection.Offers` | app/src/main/java/pt/iade/games/stepowl/ViewModels/GameViewModel.kt:173-185 | exactly three quests, quest k carrying id k, not completed, rewarding a stack of one in the quest's own tier |
| `Selection.OffersDistinct` | app/src/main/java/pt/iade/games/stepowl/Data/QuestData.kt:7-9 | QuestData equality includes the id, so offers with distinct ids are distinct values even when they come from the same template |
| `Json.Truncate` | app/src/main/java/pt/iade/games/stepowl/ViewModels/GameViewModel.kt:261 | reading a stored number within `Int`'s 32-bit range as an `Int` truncates toward zero |
| `Json.TruncateInt` | app/src/main/java/pt/iade/games/stepowl/ViewModels/GameViewModel.kt:326 | a stored integer (target steps, quantity) reads back unchanged |
| `GameStates.IndexOfName` | app/src/main/java/pt/iade/games/stepowl/ViewModels/GameViewModel.kt:136 | `indexOfFirst` gives -1 exactly when no stack has the name; otherwise it gives the first stack with that name |
| `Persistence.DecodeAll` | app/src/main/java/pt/iade/games/stepowl/ViewModels/GameViewModel.kt:252-280 | a stored array decodes exactly when every element does, and the result keeps the elements' order one for one |
| `Persistence.ItemToJson` | app/src/main/java/pt/iade/games/stepowl/ViewModels/GameViewModel.kt:217-224 | an inventory stack is written as an object with exactly the keys id, name, rarity and quantity |
| `Persistence.JsonToItem` | app/src/main/java/pt/iade/games/stepowl/ViewModels/GameViewModel.kt:255-262 | a stored stack decodes exactly when it is an object whose id and name are strings and whose rarity is a tier's name; the quantity read is the stored number truncated, or 1 when absent |
| `Persistence.ItemReencodes` | app/src/main/java/pt/iade/games/stepowl/ViewModels/GameViewModel.kt:255-262 | writing a decoded stack again reproduces the stored id, name and rarity entries |
| `Persistence.QuestToJson` | app/src/main/java/pt/iade/games/stepowl/ViewModels/GameViewModel.kt:296-312 | writes id, description, targetSteps, rarity, isCompleted and the reward's id, name and rarity, not its quantity |
| `Persistence.JsonToQuest` | app/src/main/java/pt/iade/games/stepowl/ViewModels/GameViewModel.kt:314-331 | a stored quest decodes exactly when it is an object with a well-formed rewardItem object, string id and description, numeric targetSteps, a tier name and a boolean isCompleted; the reward is a stack of one and the target is the stored number truncated |
| `Persistence.QuestReencodes` | app/src/main/java/pt/iade/games/stepowl/ViewModels/GameViewModel.kt:296-331 | writing a decoded quest again reproduces the stored id, description, rarity and isCompleted entries and the reward's id, name and rarity |
| `Persistence.DecodeAllExtend` | app/src/main/java/pt/iade/games/stepowl/ViewModels/GameViewModel.kt:254-264 | decoding one more array element appends its value to what was decoded so far |
| `Persistence.DecodeAllStops` | app/src/main/java/pt/iade/games/stepowl/ViewModels/GameViewModel.kt:254-264 | the first element that fails to decode makes the whole array fail with that element's error |
| `Persistence.EncodeState` | app/src/main/java/pt/iade/games/stepowl/ViewModels/GameViewModel.kt:210-242 | the saved record is an object, and it holds an activeQuest entry exactly when a quest is active |
| `Persistence.DecodeState` | app/src/main/java/pt/iade/games/stepowl/ViewModels/GameViewModel.kt:244-293 | a record loads exactly when it is an object, every inventory element is a valid stack, a present activeQuest is a valid quest and every offer is a valid quest; the loaded steps are the stored number or 0, and the inventory, active quest and offers match the stored ones in count and presence |
| `Persistence.LoadInto` | app/src/main/java/pt/iade/games/stepowl/ViewModels/GameViewModel.kt:244-293 | an empty slot or a record that does not decode leaves the current state; otherwise the state is the decoded record |
| `Persistence.ItemRoundTrip` | app/src/main/java/pt/iade/games/stepowl/ViewModels/GameViewModel.kt:217-224 | an inventory stack, quantity included, is read back exactly as it was saved |
| `Persistence.QuestRoundTrip` | app/src/main/java/pt/iade/games/stepowl/ViewModels/GameViewModel.kt:296-331 | `jsonToQuest(questToJson(q))` is q, except that the reward comes back as a stack of one, because its quantity is not written |
| `Persistence.ItemWithoutQuantity` | app/src/main/java/pt/iade/games/stepowl/ViewModels/GameViewModel.kt:261 | a stored stack that has no quantity entry reads back as a stack of one |
| `Persistence.StateRoundTrip` | app/src/main/java/pt/iade/games/stepowl/ViewModels/GameViewModel.kt:210-293 | loading what `saveGame` wrote gives back every field: the steps at quest start, the inventory in order, the active quest or its absence, and the offers in order. The one exception is that quest rewards come back as stacks of one |
| `Persistence.StateRoundTripExact` | app/src/main/java/pt/iade/games/stepowl/ViewModels/GameViewModel.kt:210-293 | when every quest's reward is a stack of one, loading what was saved gives back exactly the saved state |
| `Persistence.LoadFailureKeepsState` | app/src/main/java/pt/iade/games/stepowl/ViewModels/GameViewModel.kt:246-292 | a stored record that is not an object, or whose inventory holds a non-object, leaves the state as it was: the exception is caught before anything is assigned |
| `ViewModel.GameViewModel.constructor` | app/src/main/java/pt/iade/games/stepowl/ViewModels/GameViewModel.kt:45-53 | `init` loads the stored game. If that leaves no active quest and no offers, it makes three offers and saves. With nothing loaded, the invariant holds. A slot written by saving a valid state whose rewards are stacks of one is restored exactly |
| `ViewModel.GameViewModel.UpdateSteps` | app/src/main/java/pt/iade/games/stepowl/ViewModels/GameViewModel.kt:56-65 | the reading becomes current, and the session baseline is set only while it is still negative. The active quest becomes completed, and is saved, exactly when it was not completed and the reading minus its start reaches its target. Otherwise nothing changes. A completed quest never reverts, and the invariant is kept |
| `ViewModel.GameViewModel.CheckQuestProgress` | app/src/main/java/pt/iade/games/stepowl/ViewModels/GameViewModel.kt:68-81 | marks the active quest completed and saves, exactly when the steps since its start reach its target and it was not yet completed; otherwise the state and the slot stay the same |
| `ViewModel.GameViewModel.SelectQuest` | app/src/main/java/pt/iade/games/stepowl/ViewModels/GameViewModel.kt:84-98 | nothing changes exactly when the inventory has 10 or more stacks and none shares the reward's name. Otherwise the quest becomes active, the offers are emptied and the start becomes the current reading. The inventory is never touched, and the invariant is kept |
| `ViewModel.GameViewModel.CancelQuest` | app/src/main/java/pt/iade/games/stepowl/ViewModels/GameViewModel.kt:101-111 | with no active quest nothing changes. Otherwise the quest is cleared, the start resets to 0 and exactly three fresh offers appear. The inventory is unchanged and the invariant is kept |
| `ViewModel.GameViewModel.DebugForceCompleteQuest` | app/src/main/java/pt/iade/games/stepowl/ViewModels/GameViewModel.kt:114-126 | with no active quest nothing changes. Otherwise the start moves back to the current reading minus the target, so the steps taken equal the target exactly, and the quest is completed. Offers and inventory are unchanged |
| `ViewModel.GameViewModel.ClaimReward` | app/src/main/java/pt/iade/games/stepowl/ViewModels/GameViewModel.kt:129-170 | with no completed active quest nothing changes. If a stack has the reward's name, only the first such stack grows by exactly 1. Otherwise, below 10 stacks, the reward is appended as a stack of one. Either way the quest is cleared and three offers appear. When full with a new name nothing changes. From a valid state the quest is always cleared |
| `ViewModel.GameViewModel.GenerateNewQuests` | app/src/main/java/pt/iade/games/stepowl/ViewModels/GameViewModel.kt:173-188 | the offers become the three quests built from the draws and ids (see `Selection.OffersShape`), nothing else in the state changes, and the state is saved |
| `ViewModel.GameViewModel.PickRandomQuestTemplate` | app/src/main/java/pt/iade/games/stepowl/ViewModels/GameViewModel.kt:191-204 | the running-sum loop returns the first template whose running sum reaches the draw, or the first template, so always a catalog member |
| `ViewModel.GameViewModel.SaveGame` | app/src/main/java/pt/iade/games/stepowl/ViewModels/GameViewModel.kt:210-242 | the slot holds the encoded current state (the record `Persistence.StateRoundTrip` decodes) |
| `ViewModel.GameViewModel.LoadGame` | app/src/main/java/pt/iade/games/stepowl/ViewModels/GameViewModel.kt:244-293 | an empty slot, or a record that fails to decode anywhere, leaves the state untouched. Otherwise the state becomes the decoded record |
| `ViewModel.DecodeArray` | app/src/main/java/pt/iade/games/stepowl/ViewModels/GameViewModel.kt:251-280 | the element-by-element decoding loop gives the same result as decoding the whole array, failing at the first bad element |
| `ViewModel.StackKeepsNamesDistinct` | app/src/main/java/pt/iade/games/stepowl/ViewModels/GameViewModel.kt:141-145 | adding one to a stack changes no name, so stack names stay pairwise distinct and the same names are present |

## Left out

- The Android UI, sensor registration, permissions, toasts and the HTTP
  inventory sync (MainActivity.kt, Components/Inventory.kt, server/main.js)
  are not part of this model. They are UI glue and asynchronous network and
  database I/O. `clearInventory`, which MainActivity.kt calls, does not exist
  in GameViewModel.kt and is not modelled.
- Shared-preferences I/O and the JSON text syntax are left out. The slot is
  the field `prefs`, holding a `Json` tree. `apply()`'s asynchronous commit and
  `saveGame`'s catch branch are left out too: with exact numbers no save can
  fail.
- org.json coercions are left out: reading a number through `getString`, or
  `"true"` through `getBoolean`, and so on. Each accessor accepts only the kind
  of value the encoder writes, and a `get` on another kind is a decode failure.
- Floating point is left out. Steps and weights are exact reals, so Float
  rounding of large step counts and NaN readings are not modelled.
- `Random.nextDouble()` and `UUID.randomUUID()` become parameters. The model
  proves which template each draw selects and the width of each template's
  interval. It does not prove that sampling frequencies converge, which is a
  probabilistic statement.
- Selection.OffersDistinct: offers are distinct only when the injected ids
  are. The uniqueness of random UUIDs is assumed by the caller, not proved.
- Json.Truncate: stored numbers outside `Int`'s 32-bit range are not
  modelled. There `intValue()` keeps the low 32 bits of an integer literal and
  saturates a double, while the model truncates toward zero with no bound.
  The encoder writes only `Int` values, so no saved game holds such a number.
- ViewModel.GameViewModel.ClaimReward: does not model 32-bit `Int`
  wrap-around of `quantity + 1`. That needs more than two billion claims of one
  item.
- ViewModel.GameViewModel.ClaimReward: `newItem.quantity = 1` writes through
  the active quest's own reward object. The model builds a copy instead. The
  quest is dropped straight after, so no reader can tell the difference.
- ViewModel.GameViewModel.PickRandomQuestTemplate: it takes the catalog and
  the already-scaled draw as parameters instead of reading `Quests.pool` and
  calling `Random`. `GenerateNewQuests` passes the catalog.
- `currentSensorSteps` has a public setter, but no code in the modelled core
  writes it except `updateSteps`. Outside writes are not modelled.
- `Log.e`/`Log.i` logging is left out.
