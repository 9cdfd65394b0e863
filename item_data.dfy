/**
  Rarity tiers, item stacks and the fixed item table of the game
  (Data/ItemData.kt).
 */
module ItemModel {
  import opened Wrappers

  /** The four tiers an item or a quest belongs to. */
  datatype Rarity = Common | Uncommon | Rare | Legendary
  {
    /** Relative selection weight of the tier; weights are not percentages. */
    function Weight(): real {
      match this
      case Common => 30.0
      case Uncommon => 15.0
      case Rare => 5.0
      case Legendary => 0.5
    }

    /** Display label shown to the player. */
    function Label(): string {
      match this
      case Common => "Comum"
      case Uncommon => "Incomum"
      case Rare => "Raro"
      case Legendary => "Lendário"
    }

    /** The enum constant's name, which saved games store. */
    function Name(): string {
      match this
      case Common => "COMMON"
      case Uncommon => "UNCOMMON"
      case Rare => "RARE"
      case Legendary => "LEGENDARY"
    }
  }

  /** `Rarity.valueOf`: the tier whose constant name is exactly `s`, if any. */
  function RarityFromName(s: string): (r: Option<Rarity>)
    ensures forall t: Rarity :: t.Name() == s ==> r == Some(t)
    ensures r.Some? ==> r.value.Name() == s
  {
    if s == "COMMON" then Some(Common)
    else if s == "UNCOMMON" then Some(Uncommon)
    else if s == "RARE" then Some(Rare)
    else if s == "LEGENDARY" then Some(Legendary)
    else None
  }

  /** Reading back a stored tier name gives back the tier. */
  lemma RarityNameRoundTrip(t: Rarity)
    ensures RarityFromName(t.Name()) == Some(t)
  {
  }

  /** Every weight is positive and the weights fall strictly from tier to tier. */
  lemma RarityWeights()
    ensures forall t: Rarity :: t.Weight() > 0.0
    ensures Common.Weight() > Uncommon.Weight() > Rare.Weight() > Legendary.Weight()
  {
  }

  /** Every tier has its own label, and each label is one of the four Portuguese names. */
  lemma RarityLabels()
    ensures forall t: Rarity, u: Rarity :: t.Label() == u.Label() ==> t == u
    ensures Common.Label() == "Comum" && Uncommon.Label() == "Incomum"
    ensures Rare.Label() == "Raro" && Legendary.Label() == "Lendário"
  {
  }

  /**
    A stack of one item. `id` is carried through as an opaque value: saved
    games read it back as a string.
   */
  datatype ItemData = ItemData(id: string, name: string, rarity: Rarity, quantity: int)

  /** An item built without a quantity starts as a stack of one. */
  function NewItem(id: string, name: string, rarity: Rarity): ItemData {
    ItemData(id, name, rarity, 1)
  }

  /** The fixed table of known items, each with a display name and a numeric id. */
  datatype Items =
    | Dandelion | Graveto | Migalha | Folha | MapaVelho
    | Recibo | BotaSuja | AmuletoDePrata | Osso | CoroaDourada
  {
    function ItemName(): string {
      match this
      case Dandelion => "Dandelion"
      case Graveto => "Graveto"
      case Migalha => "Migalha"
      case Folha => "Folha"
      case MapaVelho => "Mapa Velho"
      case Recibo => "Recibo"
      case BotaSuja => "Bota Suja"
      case AmuletoDePrata => "Amuleto de Prata"
      case Osso => "Osso"
      case CoroaDourada => "Coroa Dourada"
    }

    function Id(): int {
      match this
      case Dandelion => 8
      case Graveto => 1
      case Migalha => 2
      case Folha => 3
      case MapaVelho => 4
      case Recibo => 5
      case BotaSuja => 6
      case AmuletoDePrata => 7
      case Osso => 0
      case CoroaDourada => 9
    }
  }

  /** The item with table id `n`, for `0 <= n < 10`. */
  function ItemWithId(n: int): (t: Items)
    requires 0 <= n < 10
    ensures t.Id() == n
  {
    if n == 0 then Osso
    else if n == 1 then Graveto
    else if n == 2 then Migalha
    else if n == 3 then Folha
    else if n == 4 then MapaVelho
    else if n == 5 then Recibo
    else if n == 6 then BotaSuja
    else if n == 7 then AmuletoDePrata
    else if n == 8 then Dandelion
    else CoroaDourada
  }

  /** The table's ids are pairwise distinct and are exactly 0 to 9; its names are pairwise distinct. */
  lemma ItemsTable()
    ensures forall t: Items, u: Items :: t.Id() == u.Id() ==> t == u
    ensures forall t: Items :: 0 <= t.Id() < 10
    ensures forall n :: 0 <= n < 10 ==> ItemWithId(n).Id() == n
    ensures forall t: Items, u: Items :: t.ItemName() == u.ItemName() ==> t == u
  {
  }
}
