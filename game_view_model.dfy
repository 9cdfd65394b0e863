/**
  The view model of ViewModels/GameViewModel.kt: the quest, reward and
  inventory state machine. Randomness is injected: each operation that makes
  offers takes the three scaled draws (`draws`, each standing for
  `Random.nextDouble() * totalWeight`) and the three fresh quest identifiers
  (`ids`, standing for `UUID.randomUUID()`) it uses. The app's shared-preferences slot
  for the saved game is the field `prefs`.
 */
module ViewModel {
  import opened Wrappers
  import opened ItemModel
  import opened QuestModel
  import opened InventoryModel
  import opened Quests
  import opened Json
  import opened GameStates
  import opened Persistence
  import opened Selection

  /** The active quest is not yet completed and `reading` is at least its target past its start. */
  predicate Reaches(s: GameState, reading: real) {
    && s.activeQuest.Some?
    && !s.activeQuest.value.isCompleted
    && reading - s.stepsAtQuestStart >= s.activeQuest.value.targetSteps as real
  }

  /** `selectQuest` turns `quest` down: the inventory is full and has no stack to add its reward to. */
  predicate RejectsQuest(s: GameState, quest: QuestData) {
    |s.inventoryData.items| >= Capacity && !HasName(s.inventoryData.items, quest.rewardItem.name)
  }

  /** `claimReward` has something to hand out. */
  predicate HasCompletedQuest(s: GameState) {
    s.activeQuest.Some? && s.activeQuest.value.isCompleted
  }

  class GameViewModel {
    var gameState: GameState
    /** Latest raw reading of the step sensor (steps since the device booted). */
    var currentSensorSteps: real
    /** First reading of the session; negative until one arrives. */
    var initialSessionSteps: real
    /** The saved game under the slot's fixed key, if one was ever written. */
    var prefs: Option<Json>

    /**
      `init`: load what `stored` holds, and make three offers when that
      leaves the player with neither an active quest nor offers.
     */
    constructor (stored: Option<Json>, draws: seq<real>, ids: seq<string>)
      requires |draws| == OfferCount && |ids| == OfferCount
      ensures currentSensorSteps == 0.0 && initialSessionSteps == -1.0
      ensures var loaded := LoadInto(stored, DefaultState);
        if loaded.activeQuest.None? && loaded.availableQuests == [] then
          gameState == loaded.(availableQuests := Offers(draws, ids)) && prefs == Some(EncodeState(gameState))
        else
          gameState == loaded && prefs == stored
      ensures LoadInto(stored, DefaultState) == DefaultState ==> Valid(gameState)
      ensures forall s :: stored == Some(EncodeState(s)) && Valid(s) && RewardsAreSingle(s) ==> gameState == s
    {
      gameState := DefaultState;
      currentSensorSteps := 0.0;
      initialSessionSteps := -1.0;
      prefs := stored;
      new;
      LoadGame();
      if gameState.availableQuests == [] && gameState.activeQuest.None? {
        GenerateNewQuests(draws, ids);
      }
      forall s | stored == Some(EncodeState(s)) && Valid(s) && RewardsAreSingle(s) ensures gameState == s {
        StateRoundTripExact(s);
      }
    }

    /**
      A new sensor reading: the first one of the session becomes the baseline,
      the reading becomes current, and the active quest is checked.
     */
    method UpdateSteps(sensorValue: real)
      modifies this
      ensures initialSessionSteps == if old(initialSessionSteps) < 0.0 then sensorValue else old(initialSessionSteps)
      ensures currentSensorSteps == sensorValue
      ensures Reaches(old(gameState), sensorValue) ==>
        && gameState == old(gameState).(activeQuest := Some(old(gameState).activeQuest.value.(isCompleted := true)))
        && prefs == Some(EncodeState(gameState))
      ensures !Reaches(old(gameState), sensorValue) ==> gameState == old(gameState) && prefs == old(prefs)
      ensures HasCompletedQuest(old(gameState)) ==> HasCompletedQuest(gameState)
      ensures old(Valid(gameState)) ==> Valid(gameState)
    {
      if initialSessionSteps < 0.0 {
        initialSessionSteps := sensorValue;
      }
      currentSensorSteps := sensorValue;
      CheckQuestProgress(sensorValue);
    }

    /**
      Marks the active quest completed, and saves, exactly when the steps taken
      since it started reach its target and it was not completed yet.
     */
    method CheckQuestProgress(currentTotalSensorValue: real)
      modifies this
      ensures currentSensorSteps == old(currentSensorSteps) && initialSessionSteps == old(initialSessionSteps)
      ensures Reaches(old(gameState), currentTotalSensorValue) ==>
        && gameState == old(gameState).(activeQuest := Some(old(gameState).activeQuest.value.(isCompleted := true)))
        && prefs == Some(EncodeState(gameState))
      ensures !Reaches(old(gameState), currentTotalSensorValue) ==> gameState == old(gameState) && prefs == old(prefs)
      ensures HasCompletedQuest(old(gameState)) ==> HasCompletedQuest(gameState)
      ensures old(Valid(gameState)) ==> Valid(gameState)
    {
      if gameState.activeQuest.None? {
        return;
      }
      var active := gameState.activeQuest.value;
      var stepsDoneInQuest := currentTotalSensorValue - gameState.stepsAtQuestStart;
      if stepsDoneInQuest >= active.targetSteps as real && !active.isCompleted {
        var updatedQuest := active.(isCompleted := true);
        gameState := gameState.(activeQuest := Some(updatedQuest));
        SaveGame();
      }
    }

    /**
      Accepts `quest` unless the inventory is full and holds no stack of its
      reward: the quest becomes active from the current reading, the offers go.
     */
    method SelectQuest(quest: QuestData)
      modifies this
      ensures RejectsQuest(old(gameState), quest) ==> unchanged(this)
      ensures !RejectsQuest(old(gameState), quest) ==>
        && gameState == old(gameState).(activeQuest := Some(quest), availableQuests := [], stepsAtQuestStart := currentSensorSteps)
        && prefs == Some(EncodeState(gameState))
      ensures currentSensorSteps == old(currentSensorSteps) && initialSessionSteps == old(initialSessionSteps)
      ensures gameState.inventoryData == old(gameState.inventoryData)
      ensures old(Valid(gameState)) ==> Valid(gameState)
    {
      var isStackable := HasName(gameState.inventoryData.items, quest.rewardItem.name);
      if |gameState.inventoryData.items| >= 10 && !isStackable {
        return;
      }
      gameState := gameState.(activeQuest := Some(quest), availableQuests := [], stepsAtQuestStart := currentSensorSteps);
      SaveGame();
    }

    /** Gives up the active quest, if any: its start resets to 0 and three new offers appear. */
    method CancelQuest(draws: seq<real>, ids: seq<string>)
      requires |draws| == OfferCount && |ids| == OfferCount
      modifies this
      ensures old(gameState).activeQuest.None? ==> unchanged(this)
      ensures old(gameState).activeQuest.Some? ==>
        && gameState == old(gameState).(activeQuest := None, stepsAtQuestStart := 0.0, availableQuests := Offers(draws, ids))
        && prefs == Some(EncodeState(gameState))
      ensures currentSensorSteps == old(currentSensorSteps) && initialSessionSteps == old(initialSessionSteps)
      ensures gameState.inventoryData == old(gameState.inventoryData)
      ensures old(Valid(gameState)) ==> Valid(gameState)
    {
      if gameState.activeQuest.Some? {
        gameState := gameState.(activeQuest := None, stepsAtQuestStart := 0.0);
        GenerateNewQuests(draws, ids);
        SaveGame();
      }
    }

    /**
      Completes the active quest, if any, by moving its start back so that
      the steps taken equal its target.
     */
    method DebugForceCompleteQuest()
      modifies this
      ensures old(gameState).activeQuest.None? ==> unchanged(this)
      ensures old(gameState).activeQuest.Some? ==>
        && gameState == old(gameState).(
             stepsAtQuestStart := currentSensorSteps - old(gameState).activeQuest.value.targetSteps as real,
             activeQuest := Some(old(gameState).activeQuest.value.(isCompleted := true)))
        && currentSensorSteps - gameState.stepsAtQuestStart == gameState.activeQuest.value.targetSteps as real
        && HasCompletedQuest(gameState)
        && prefs == Some(EncodeState(gameState))
      ensures currentSensorSteps == old(currentSensorSteps) && initialSessionSteps == old(initialSessionSteps)
      ensures gameState.inventoryData == old(gameState.inventoryData)
      ensures gameState.availableQuests == old(gameState.availableQuests)
      ensures old(Valid(gameState)) ==> Valid(gameState)
    {
      if gameState.activeQuest.None? {
        return;
      }
      var active := gameState.activeQuest.value;
      var newStartSteps := currentSensorSteps - active.targetSteps as real;
      var completedQuest := active.(isCompleted := true);
      gameState := gameState.(stepsAtQuestStart := newStartSteps, activeQuest := Some(completedQuest));
      SaveGame();
    }

    /**
      Hands out the reward of a completed active quest: one more in the first
      stack of the same name, or a new stack of one at the end when there is
      room; then the quest goes and three new offers appear. With a full
      inventory and no such stack nothing happens.
     */
    method ClaimReward(draws: seq<real>, ids: seq<string>)
      requires |draws| == OfferCount && |ids| == OfferCount
      modifies this
      ensures !HasCompletedQuest(old(gameState)) ==> unchanged(this)
      ensures HasCompletedQuest(old(gameState)) ==>
        var items, reward := old(gameState).inventoryData.items, old(gameState).activeQuest.value.rewardItem;
        var i := IndexOfName(items, reward.name);
        && (i != -1 ==>
              && |gameState.inventoryData.items| == |items|
              && gameState.inventoryData.items[i] == items[i].(quantity := items[i].quantity + 1)
              && (forall k | 0 <= k < |items| && k != i :: gameState.inventoryData.items[k] == items[k])
              && gameState.activeQuest.None?
              && gameState.availableQuests == Offers(draws, ids)
              && gameState.stepsAtQuestStart == old(gameState).stepsAtQuestStart
              && prefs == Some(EncodeState(gameState)))
        && (i == -1 && |items| < Capacity ==>
              && gameState.inventoryData.items == items + [reward.(quantity := 1)]
              && gameState.activeQuest.None?
              && gameState.availableQuests == Offers(draws, ids)
              && gameState.stepsAtQuestStart == old(gameState).stepsAtQuestStart
              && prefs == Some(EncodeState(gameState)))
        && (i == -1 && |items| >= Capacity ==> unchanged(this))
      ensures currentSensorSteps == old(currentSensorSteps) && initialSessionSteps == old(initialSessionSteps)
      ensures old(Valid(gameState)) ==> Valid(gameState)
      ensures old(Valid(gameState)) && HasCompletedQuest(old(gameState)) ==> gameState.activeQuest.None?
    {
      if gameState.activeQuest.None? {
        return;
      }
      var active := gameState.activeQuest.value;
      if !active.isCompleted {
        return;
      }
      var rewardName := active.rewardItem.name;
      var existingItemIndex := IndexOfName(gameState.inventoryData.items, rewardName);
      if existingItemIndex != -1 {
        var currentList := gameState.inventoryData.items;
        var existingItem := currentList[existingItemIndex];
        currentList := currentList[existingItemIndex := existingItem.(quantity := existingItem.quantity + 1)];
        gameState := gameState.(inventoryData := InventoryData(currentList), activeQuest := None);
        GenerateNewQuests(draws, ids);
        SaveGame();
        StackKeepsNamesDistinct(old(gameState.inventoryData.items), existingItemIndex);
      } else if |gameState.inventoryData.items| < 10 {
        var newItem := active.rewardItem.(quantity := 1);
        var newInventoryList := gameState.inventoryData.items + [newItem];
        gameState := gameState.(inventoryData := InventoryData(newInventoryList), activeQuest := None);
        GenerateNewQuests(draws, ids);
        SaveGame();
      }
    }

    /** Replaces the offers with three quests made from `draws` and `ids`, and saves. */
    method GenerateNewQuests(draws: seq<real>, ids: seq<string>)
      requires |draws| == OfferCount && |ids| == OfferCount
      modifies this
      ensures gameState == old(gameState).(availableQuests := Offers(draws, ids))
      ensures prefs == Some(EncodeState(gameState))
      ensures currentSensorSteps == old(currentSensorSteps) && initialSessionSteps == old(initialSessionSteps)
    {
      var newQuests: seq<QuestData> := [];
      var k := 0;
      while k < 3
        invariant 0 <= k <= 3
        invariant |newQuests| == k
        invariant newQuests == Offers(draws, ids)[..k]
        invariant unchanged(this)
      {
        var template := PickRandomQuestTemplate(Pool, draws[k]);
        OffersPrefix(draws, ids, k, template);
        newQuests := newQuests + [OfferFrom(template, ids[k])];
        k := k + 1;
      }
      assert Offers(draws, ids)[..3] == Offers(draws, ids);
      gameState := gameState.(availableQuests := newQuests);
      SaveGame();
    }

    /**
      Weighted choice by linear scan over `pool` (the game passes the quest
      catalog). `randomValue` is the draw `Random.nextDouble() * totalWeight`.
      The result is the first template whose running weight sum reaches the
      draw, or the first template when none does.
     */
    method PickRandomQuestTemplate(pool: seq<QuestTemplate>, randomValue: real) returns (t: QuestTemplate)
      requires 0 < |pool|
      ensures t == pool[PickIndex(pool, randomValue)]
      ensures t in pool
    {
      var currentSum := 0.0;
      var i := 0;
      while i < |pool|
        invariant 0 <= i <= |pool|
        invariant currentSum == PrefixWeight(pool, i)
        invariant forall j | 0 <= j < i :: !Covers(pool, randomValue, j)
      {
        currentSum := currentSum + pool[i].rarity.Weight();
        if randomValue <= currentSum {
          assert Covers(pool, randomValue, i);
          t := pool[i];
          FirstCoverIsPicked(pool, randomValue, i);
          return;
        }
        i := i + 1;
      }
      t := pool[0];
    }

    /** `saveGame`: writes the encoded state to the slot. */
    method SaveGame()
      modifies this`prefs
      ensures prefs == Some(EncodeState(gameState))
    {
      var items := gameState.inventoryData.items;
      var invArray: seq<Json> := [];
      var i := 0;
      while i < |items|
        invariant 0 <= i <= |items|
        invariant invArray == EncodeItems(items[..i])
      {
        invArray := invArray + [ItemToJson(items[i])];
        i := i + 1;
      }
      assert items[..|items|] == items;
      var json := map["stepsAtQuestStart" := JNumber(gameState.stepsAtQuestStart), "inventory" := JArray(invArray)];
      if gameState.activeQuest.Some? {
        json := json["activeQuest" := QuestToJson(gameState.activeQuest.value)];
      }
      var quests := gameState.availableQuests;
      var questsArray: seq<Json> := [];
      i := 0;
      while i < |quests|
        invariant 0 <= i <= |quests|
        invariant questsArray == EncodeQuests(quests[..i])
      {
        questsArray := questsArray + [QuestToJson(quests[i])];
        i := i + 1;
      }
      assert quests[..|quests|] == quests;
      json := json["availableQuests" := JArray(questsArray)];
      prefs := Some(JObject(json));
    }

    /**
      `loadGame`: replaces the state with the stored one; an empty slot or a
      record that fails to decode leaves the state as it was.
     */
    method LoadGame()
      modifies this`gameState
      ensures gameState == LoadInto(prefs, old(gameState))
    {
      if prefs.None? {
        return;
      }
      var stored := prefs.value;
      if !stored.JObject? {
        return;
      }
      var json := stored.fields;
      var savedStepsAtStart := OptDouble(json, "stepsAtQuestStart", 0.0);

      var loadedItems := DecodeArray(OptArray(json, "inventory"), JsonToItem);
      if loadedItems.Failure? {
        return;
      }

      var loadedActiveQuest: Option<QuestData> := None;
      if "activeQuest" in json {
        var quest := JsonToQuest(json["activeQuest"]);
        if quest.Failure? {
          return;
        }
        loadedActiveQuest := Some(quest.value);
      }

      var loadedAvailableQuests := DecodeArray(OptArray(json, "availableQuests"), JsonToQuest);
      if loadedAvailableQuests.Failure? {
        return;
      }

      gameState := GameState(InventoryData(loadedItems.value), loadedActiveQuest, loadedAvailableQuests.value, savedStepsAtStart);
    }
  }

  /**
    The loops of `loadGame` over a stored array: decode the elements in order
    and stop at the first that fails, as the thrown exception leaves the loop.
   */
  method DecodeArray<T>(js: seq<Json>, decode: Json -> Result<T, JsonError>) returns (r: Result<seq<T>, JsonError>)
    ensures r == DecodeAll(js, decode)
  {
    var decoded: seq<T> := [];
    var i := 0;
    while i < |js|
      invariant 0 <= i <= |js|
      invariant DecodeAll(js[..i], decode) == Success(decoded)
    {
      var x := decode(js[i]);
      if x.Failure? {
        DecodeAllStops(js, decode, i);
        return Failure(x.error);
      }
      DecodeAllExtend(js, decode, i, decoded);
      decoded := decoded + [x.value];
      i := i + 1;
    }
    assert js[..|js|] == js;
    return Success(decoded);
  }

  /** Adding one to a stack changes no name, so names stay pairwise distinct. */
  lemma StackKeepsNamesDistinct(items: seq<ItemData>, i: nat)
    requires i < |items|
    ensures var updated := items[i := items[i].(quantity := items[i].quantity + 1)];
      (NamesDistinct(items) ==> NamesDistinct(updated)) && (forall name :: HasName(updated, name) <==> HasName(items, name))
  {
    var updated := items[i := items[i].(quantity := items[i].quantity + 1)];
    forall name ensures HasName(updated, name) <==> HasName(items, name) {
      if HasName(items, name) {
        var k :| 0 <= k < |items| && items[k].name == name;
        assert updated[k].name == name;
      }
      if HasName(updated, name) {
        var k :| 0 <= k < |updated| && updated[k].name == name;
        assert items[k].name == name;
      }
    }
  }

  /** A saved game: two roses, and a completed quest rewarding a rose. */
  function RoseSave(): GameState {
    GameState(
      InventoryData([ItemData("5", "Rose", Rare, 2)]),
      Some(QuestData("q1", "Pick some Flowers!", 500, ItemData("", "Rose", Rare, 1), Rare, true)),
      [],
      120.0)
  }

  lemma RoseSaveValid()
    ensures Valid(RoseSave()) && RewardsAreSingle(RoseSave())
    ensures IndexOfName(RoseSave().inventoryData.items, "Rose") == 0
  {
  }

  /**
    A client of the contracts: loading `RoseSave` and claiming leaves one
    stack of three roses, no active quest and three fresh offers.
   */
  method RoseScenario(draws: seq<real>, ids: seq<string>)
    requires |draws| == OfferCount && |ids| == OfferCount
  {
    RoseSaveValid();
    var vm := new GameViewModel(Some(EncodeState(RoseSave())), draws, ids);
    assert vm.gameState == RoseSave();
    vm.ClaimReward(draws, ids);
    assert vm.gameState.inventoryData.items == [ItemData("5", "Rose", Rare, 3)];
    assert vm.gameState.activeQuest.None?;
    assert |vm.gameState.availableQuests| == 3;
  }
}
