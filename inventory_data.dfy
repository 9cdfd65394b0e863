/**
  The player's inventory (Data/InventoryData.kt): an ordered, immutable list
  of item stacks. The type itself bounds neither its length nor repeated
  names; the view model keeps both.
 */
module InventoryModel {
  import opened ItemModel

  datatype InventoryData = InventoryData(items: seq<ItemData>)

  /** The inventory a fresh game starts with. */
  const EmptyInventory: InventoryData := InventoryData([])
}
