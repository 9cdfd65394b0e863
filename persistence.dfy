/**
  The saved-game codec of ViewModels/GameViewModel.kt: `saveGame`'s record
  layout, `questToJson`, `jsonToQuest` and `loadGame`'s decoding, as
  functions between `GameState` and `Json`.
 */
module Persistence {
  import opened Wrappers
  import opened ItemModel
  import opened QuestModel
  import opened InventoryModel
  import opened Json
  import opened GameStates

  /** `key` holds a string. */
  predicate StringAt(o: map<string, Json>, key: string) {
    key in o && o[key].JString?
  }

  /** `key` holds the constant name of a rarity tier. */
  predicate RarityNameAt(o: map<string, Json>, key: string) {
    StringAt(o, key) && RarityFromName(o[key].s).Some?
  }

  /** Every entry of `m` is stored in `o` under the same key. */
  predicate Agrees(m: map<string, Json>, o: map<string, Json>) {
    forall key | key in m :: key in o && o[key] == m[key]
  }

  /** The records `jsonToItem`-style decoding accepts: string id and name, a known tier name. */
  predicate ItemRecord(o: map<string, Json>) {
    StringAt(o, "id") && StringAt(o, "name") && RarityNameAt(o, "rarity")
  }

  /**
    The records `jsonToQuest` accepts: a reward object holding an item record,
    string id and description, a numeric step target, a known tier name and a
    boolean completion flag.
   */
  predicate QuestRecord(o: map<string, Json>) {
    && "rewardItem" in o && o["rewardItem"].JObject? && ItemRecord(o["rewardItem"].fields)
    && StringAt(o, "id") && StringAt(o, "description")
    && "targetSteps" in o && o["targetSteps"].JNumber?
    && RarityNameAt(o, "rarity")
    && "isCompleted" in o && o["isCompleted"].JBool?
  }

  /** An inventory stack as `saveGame` writes it, quantity included. */
  function ItemToJson(item: ItemData): (j: Json)
    ensures j.JObject? && j.fields.Keys == {"id", "name", "rarity", "quantity"}
  {
    JObject(map[
      "id" := JString(item.id),
      "name" := JString(item.name),
      "rarity" := JString(item.rarity.Name()),
      "quantity" := JNumber(item.quantity as real)])
  }

  function RarityAt(o: map<string, Json>, key: string): (r: Result<Rarity, JsonError>)
    ensures r.Success? ==> key in o && o[key] == JString(r.value.Name())
  {
    var name :- GetString(o, key);
    match RarityFromName(name)
    case Some(t) => Success(t)
    case None => Failure(UnknownRarity(name))
  }

  /** An inventory stack as `loadGame` reads it; a missing quantity reads as 1. */
  function JsonToItem(j: Json): (r: Result<ItemData, JsonError>)
    ensures r.Success? <==> j.JObject? && ItemRecord(j.fields)
    ensures r.Success? ==> r.value.quantity == OptInt(j.fields, "quantity", 1)
  {
    if !j.JObject? then Failure(NotAnObject)
    else
      var o := j.fields;
      var id :- GetString(o, "id");
      var name :- GetString(o, "name");
      var rarity :- RarityAt(o, "rarity");
      Success(ItemData(id, name, rarity, OptInt(o, "quantity", 1)))
  }

  /** `questToJson`: the reward's quantity is not written. */
  function QuestToJson(q: QuestData): (j: Json)
    ensures j.JObject? && j.fields.Keys == {"id", "description", "targetSteps", "rarity", "isCompleted", "rewardItem"}
    ensures j.fields["rewardItem"].JObject? && j.fields["rewardItem"].fields.Keys == {"id", "name", "rarity"}
  {
    JObject(map[
      "id" := JString(q.id),
      "description" := JString(q.description),
      "targetSteps" := JNumber(q.targetSteps as real),
      "rarity" := JString(q.rarity.Name()),
      "isCompleted" := JBool(q.isCompleted),
      "rewardItem" := JObject(map[
        "id" := JString(q.rewardItem.id),
        "name" := JString(q.rewardItem.name),
        "rarity" := JString(q.rewardItem.rarity.Name())])])
  }

  /** `jsonToQuest`: the reward is read back as a stack of one. */
  function JsonToQuest(j: Json): (r: Result<QuestData, JsonError>)
    ensures r.Success? <==> j.JObject? && QuestRecord(j.fields)
    ensures r.Success? ==>
      && r.value.rewardItem.quantity == 1
      && r.value.targetSteps == Truncate(j.fields["targetSteps"].n)
  {
    if !j.JObject? then Failure(NotAnObject)
    else
      var o := j.fields;
      var itemObj :- GetObject(o, "rewardItem");
      var itemId :- GetString(itemObj, "id");
      var itemName :- GetString(itemObj, "name");
      var itemRarity :- RarityAt(itemObj, "rarity");
      var id :- GetString(o, "id");
      var description :- GetString(o, "description");
      var targetSteps :- GetInt(o, "targetSteps");
      var rarity :- RarityAt(o, "rarity");
      var isCompleted :- GetBoolean(o, "isCompleted");
      Success(QuestData(id, description, targetSteps, ItemData(itemId, itemName, itemRarity, 1), rarity, isCompleted))
  }

  /**
    Decodes every element with `decode`; fails as soon as one element does,
    as the loops in `loadGame` throw out of the whole load.
   */
  function DecodeAll<T>(js: seq<Json>, decode: Json -> Result<T, JsonError>): (r: Result<seq<T>, JsonError>)
    ensures r.Success? <==> forall k | 0 <= k < |js| :: decode(js[k]).Success?
    ensures r.Success? ==> |r.value| == |js| && forall k | 0 <= k < |js| :: r.value[k] == decode(js[k]).value
  {
    if js == [] then Success([])
    else
      var x :- decode(js[0]);
      var rest :- DecodeAll(js[1..], decode);
      assert forall k | 1 <= k < |js| :: js[k] == js[1..][k - 1];
      Success([x] + rest)
  }

  /** Decoding one more element extends the decoded prefix by that element's value. */
  lemma DecodeAllExtend<T>(js: seq<Json>, decode: Json -> Result<T, JsonError>, i: nat, xs: seq<T>)
    requires i < |js| && DecodeAll(js[..i], decode) == Success(xs) && decode(js[i]).Success?
    ensures DecodeAll(js[..i + 1], decode) == Success(xs + [decode(js[i]).value])
  {
    var ys := js[..i + 1];
    assert forall k | 0 <= k < i :: ys[k] == js[..i][k];
    assert forall k | 0 <= k < |ys| :: decode(ys[k]).Success?;
    assert DecodeAll(ys, decode).value == xs + [decode(js[i]).value];
  }

  /** The first element that does not decode makes the whole array fail with its error. */
  lemma {:induction false} DecodeAllStops<T>(js: seq<Json>, decode: Json -> Result<T, JsonError>, i: nat)
    requires i < |js| && DecodeAll(js[..i], decode).Success? && decode(js[i]).Failure?
    ensures DecodeAll(js, decode) == Failure(decode(js[i]).error)
  {
    if i > 0 {
      var prefix, tail := js[..i], js[1..][..i - 1];
      assert prefix[0] == js[0];
      assert forall k | 0 <= k < i - 1 :: tail[k] == prefix[k + 1];
      assert forall k | 0 <= k < i - 1 :: decode(tail[k]).Success?;
      DecodeAllStops(js[1..], decode, i - 1);
    }
  }

  function EncodeItems(items: seq<ItemData>): seq<Json> {
    seq(|items|, k requires 0 <= k < |items| => ItemToJson(items[k]))
  }

  function EncodeQuests(quests: seq<QuestData>): seq<Json> {
    seq(|quests|, k requires 0 <= k < |quests| => QuestToJson(quests[k]))
  }

  /**
    The record `saveGame` stores: "activeQuest" is present only when a quest
    is active.
   */
  function EncodeState(s: GameState): (j: Json)
    ensures j.JObject? && ("activeQuest" in j.fields <==> s.activeQuest.Some?)
  {
    var base := map[
      "stepsAtQuestStart" := JNumber(s.stepsAtQuestStart),
      "inventory" := JArray(EncodeItems(s.inventoryData.items))];
    var withActive := if s.activeQuest.Some? then base["activeQuest" := QuestToJson(s.activeQuest.value)] else base;
    JObject(withActive["availableQuests" := JArray(EncodeQuests(s.availableQuests))])
  }

  /** The active quest `loadGame` reads: none unless the key is present. */
  function DecodeActive(o: map<string, Json>): Result<Option<QuestData>, JsonError> {
    if "activeQuest" in o then
      var q :- JsonToQuest(o["activeQuest"]);
      Success(Some(q))
    else Success(None)
  }

  /** The state `loadGame` rebuilds from a stored record, or why it cannot. */
  function DecodeState(j: Json): (r: Result<GameState, JsonError>)
    ensures r.Success? <==>
      && j.JObject?
      && (forall k | 0 <= k < |OptArray(j.fields, "inventory")| :: JsonToItem(OptArray(j.fields, "inventory")[k]).Success?)
      && ("activeQuest" in j.fields ==> JsonToQuest(j.fields["activeQuest"]).Success?)
      && (forall k | 0 <= k < |OptArray(j.fields, "availableQuests")| :: JsonToQuest(OptArray(j.fields, "availableQuests")[k]).Success?)
    ensures r.Success? ==>
      && r.value.stepsAtQuestStart == OptDouble(j.fields, "stepsAtQuestStart", 0.0)
      && |r.value.inventoryData.items| == |OptArray(j.fields, "inventory")|
      && (r.value.activeQuest.Some? <==> "activeQuest" in j.fields)
      && |r.value.availableQuests| == |OptArray(j.fields, "availableQuests")|
  {
    if !j.JObject? then Failure(NotAnObject)
    else
      var o := j.fields;
      var steps := OptDouble(o, "stepsAtQuestStart", 0.0);
      var items :- DecodeAll(OptArray(o, "inventory"), JsonToItem);
      var active :- DecodeActive(o);
      var offers :- DecodeAll(OptArray(o, "availableQuests"), JsonToQuest);
      Success(GameState(InventoryData(items), active, offers, steps))
  }

  /**
    The state after `loadGame` runs on `current` with slot contents `stored`:
    nothing stored or a record that does not decode leaves `current` as it was.
   */
  function LoadInto(stored: Option<Json>, current: GameState): (s: GameState)
    ensures stored.None? || DecodeState(stored.value).Failure? ==> s == current
    ensures stored.Some? && DecodeState(stored.value).Success? ==> DecodeState(stored.value) == Success(s)
  {
    match stored
    case None => current
    case Some(j) =>
      match DecodeState(j)
      case Success(s) => s
      case Failure(_) => current
  }

  /** The quest with its reward reset to a stack of one, which is all a saved quest keeps. */
  function WithSingleReward(q: QuestData): QuestData {
    q.(rewardItem := q.rewardItem.(quantity := 1))
  }

  /** The offers with every reward reset to a stack of one. */
  function WithSingleRewards(qs: seq<QuestData>): seq<QuestData> {
    seq(|qs|, k requires 0 <= k < |qs| => WithSingleReward(qs[k]))
  }

  /** An inventory stack survives a save and a load exactly. */
  lemma ItemRoundTrip(item: ItemData)
    ensures JsonToItem(ItemToJson(item)) == Success(item)
  {
    RarityNameRoundTrip(item.rarity);
    TruncateInt(item.quantity);
  }

  /** A quest survives a save and a load except that its reward comes back as a stack of one. */
  lemma QuestRoundTrip(q: QuestData)
    ensures JsonToQuest(QuestToJson(q)) == Success(WithSingleReward(q))
  {
    RarityNameRoundTrip(q.rarity);
    RarityNameRoundTrip(q.rewardItem.rarity);
    TruncateInt(q.targetSteps);
  }

  /**
    Saving a stack that was loaded writes back the stored id, name and tier
    name unchanged.
   */
  lemma ItemReencodes(j: Json)
    requires JsonToItem(j).Success?
    ensures Agrees(ItemToJson(JsonToItem(j).value).fields - {"quantity"}, j.fields)
  {
  }

  /**
    Saving a quest that was loaded writes back every stored entry the encoder
    writes, except the step target, which was truncated to an integer; its
    reward writes back the stored id, name and tier name.
   */
  lemma QuestReencodes(j: Json)
    requires JsonToQuest(j).Success?
    ensures Agrees(QuestToJson(JsonToQuest(j).value).fields - {"targetSteps", "rewardItem"}, j.fields)
    ensures Agrees(QuestToJson(JsonToQuest(j).value).fields["rewardItem"].fields, j.fields["rewardItem"].fields)
  {
  }

  /** A stored stack without a "quantity" entry reads back as a stack of one. */
  lemma ItemWithoutQuantity(id: string, name: string, t: Rarity)
    ensures JsonToItem(JObject(map["id" := JString(id), "name" := JString(name), "rarity" := JString(t.Name())]))
      == Success(ItemData(id, name, t, 1))
  {
  }

  /**
    Loading what was saved gives back the state field for field, the order
    of the inventory and the offers included, except that every quest's
    reward comes back as a stack of one.
   */
  lemma StateRoundTrip(s: GameState)
    ensures DecodeState(EncodeState(s)) == Success(s.(
      activeQuest := if s.activeQuest.Some? then Some(WithSingleReward(s.activeQuest.value)) else None,
      availableQuests := WithSingleRewards(s.availableQuests)))
  {
    var items := s.inventoryData.items;
    var offers := s.availableQuests;
    var o := EncodeState(s).fields;
    assert OptDouble(o, "stepsAtQuestStart", 0.0) == s.stepsAtQuestStart;
    assert OptArray(o, "inventory") == EncodeItems(items);
    assert OptArray(o, "availableQuests") == EncodeQuests(offers);
    forall k | 0 <= k < |items| ensures JsonToItem(EncodeItems(items)[k]) == Success(items[k]) {
      ItemRoundTrip(items[k]);
    }
    var decodedItems := DecodeAll(EncodeItems(items), JsonToItem);
    assert decodedItems.Success? && decodedItems.value == items;
    forall k | 0 <= k < |offers| ensures JsonToQuest(EncodeQuests(offers)[k]) == Success(WithSingleReward(offers[k])) {
      QuestRoundTrip(offers[k]);
    }
    var decodedOffers := DecodeAll(EncodeQuests(offers), JsonToQuest);
    var expectedOffers := WithSingleRewards(offers);
    assert decodedOffers.Success? && decodedOffers.value == expectedOffers;
    var expectedActive := if s.activeQuest.Some? then Some(WithSingleReward(s.activeQuest.value)) else None;
    if s.activeQuest.Some? {
      assert o["activeQuest"] == QuestToJson(s.activeQuest.value);
      QuestRoundTrip(s.activeQuest.value);
    } else {
      assert "activeQuest" !in o;
    }
    assert DecodeActive(o) == Success(expectedActive);
    assert DecodeState(EncodeState(s)) ==
      Success(GameState(InventoryData(items), expectedActive, expectedOffers, s.stepsAtQuestStart));
  }

  /** When every quest rewards a stack of one, loading what was saved gives back exactly the saved state. */
  lemma StateRoundTripExact(s: GameState)
    requires RewardsAreSingle(s)
    ensures DecodeState(EncodeState(s)) == Success(s)
  {
    StateRoundTrip(s);
    var active := if s.activeQuest.Some? then Some(WithSingleReward(s.activeQuest.value)) else None;
    assert active == s.activeQuest;
    assert WithSingleRewards(s.availableQuests) == s.availableQuests;
    assert s.(activeQuest := active, availableQuests := WithSingleRewards(s.availableQuests)) == s;
  }

  /** A stored record that is not an object, or whose inventory holds a non-object, leaves the state as it was. */
  lemma LoadFailureKeepsState(j: Json, current: GameState)
    requires !j.JObject? || (exists k | 0 <= k < |OptArray(j.fields, "inventory")| :: !OptArray(j.fields, "inventory")[k].JObject?)
    ensures LoadInto(Some(j), current) == current
  {
  }
}
