/** Quest instances, offered or active (Data/QuestData.kt). */
module QuestModel {
  import opened ItemModel

  /**
    One quest. Every field but `isCompleted` is fixed at construction; the
    flag changes only by building a copy. Equality is structural over all
    fields, the id included.
   */
  datatype QuestData = QuestData(
    id: string,
    description: string,
    targetSteps: int,
    rewardItem: ItemData,
    rarity: Rarity,
    isCompleted: bool)

  /**
    A quest built without an explicit flag; `id` stands for the fresh
    identifier the caller draws.
   */
  function NewQuest(id: string, description: string, targetSteps: int, rewardItem: ItemData, rarity: Rarity): QuestData {
    QuestData(id, description, targetSteps, rewardItem, rarity, false)
  }
}
