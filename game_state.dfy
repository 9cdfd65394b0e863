/**
  The game state the view model holds (the `GameState` data class in
  ViewModels/GameViewModel.kt) and the invariants its operations keep.
 */
module GameStates {
  import opened Wrappers
  import opened ItemModel
  import opened QuestModel
  import opened InventoryModel

  /**
    The whole game: inventory, the active quest if any, the offers on the
    table, and the sensor reading at which the active quest started.
   */
  datatype GameState = GameState(
    inventoryData: InventoryData,
    activeQuest: Option<QuestData>,
    availableQuests: seq<QuestData>,
    stepsAtQuestStart: real)

  /** The state before anything is loaded or generated. */
  const DefaultState: GameState := GameState(EmptyInventory, None, [], 0.0)

  /** Most stacks the inventory holds. */
  const Capacity: nat := 10

  /** How many offers are made at a time. */
  const OfferCount: nat := 3

  predicate HasName(items: seq<ItemData>, name: string) {
    exists k | 0 <= k < |items| :: items[k].name == name
  }

  /** `indexOfFirst { it.name == name }`: the first stack called `name`, or -1. */
  function IndexOfName(items: seq<ItemData>, name: string): (r: int)
    ensures -1 <= r < |items|
    ensures r == -1 <==> !HasName(items, name)
    ensures r != -1 ==> items[r].name == name && forall k | 0 <= k < r :: items[k].name != name
  {
    if items == [] then -1
    else if items[0].name == name then 0
    else
      var r := IndexOfName(items[1..], name);
      assert forall k | 0 <= k < |items| - 1 :: items[1..][k] == items[k + 1];
      if r == -1 then -1 else r + 1
  }

  predicate NamesDistinct(items: seq<ItemData>) {
    forall i, j | 0 <= i < j < |items| :: items[i].name != items[j].name
  }

  /**
    The active quest's reward can be taken: there is a free slot, or a stack
    of the same name to add to.
   */
  predicate Claimable(s: GameState) {
    s.activeQuest.Some? ==>
      |s.inventoryData.items| < Capacity || HasName(s.inventoryData.items, s.activeQuest.value.rewardItem.name)
  }

  /**
    What the operations keep: at most ten stacks with distinct names; either
    a quest is active and nothing is offered, or none is and three quests are
    offered; and an active quest can always be claimed.
   */
  predicate Valid(s: GameState) {
    && |s.inventoryData.items| <= Capacity
    && NamesDistinct(s.inventoryData.items)
    && ((s.activeQuest.Some? && s.availableQuests == []) ||
        (s.activeQuest.None? && |s.availableQuests| == OfferCount))
    && Claimable(s)
  }

  /** Every quest in the state, active and offered, rewards a stack of one. */
  predicate RewardsAreSingle(s: GameState) {
    && (s.activeQuest.Some? ==> s.activeQuest.value.rewardItem.quantity == 1)
    && forall q | q in s.availableQuests :: q.rewardItem.quantity == 1
  }
}
