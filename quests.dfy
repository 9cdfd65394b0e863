/** The constant catalog of quest templates (Components/Quests.kt). */
module Quests {
  import opened ItemModel

  /** A catalog entry: what to do, how many steps, which item it rewards, and its tier. */
  datatype QuestTemplate = QuestTemplate(description: string, steps: int, itemName: string, rarity: Rarity)

  /** The pool offers are drawn from, in catalog order. The UNCOMMON entries are disabled in the catalog. */
  const Pool: seq<QuestTemplate> := [
    QuestTemplate("Daily Stroll", 50, "Dandelion", Common),
    QuestTemplate("Find the Herbs!", 50, "White Lily", Common),
    QuestTemplate("A walk in the Park!!", 50, "Sunflower", Common),
    QuestTemplate("Go Mining!", 500, "Crystal Purple", Rare),
    QuestTemplate("Pick some Flowers!", 500, "Rose", Rare),
    QuestTemplate("Lets go fishing!", 500, "Pearl", Rare),
    QuestTemplate("Rob the Fairy!", 1000, "Fairy Dust", Legendary),
    QuestTemplate("THE NELIO QUEST! Get the gold Dust!", 10000, "Gold Dust", Legendary)
  ]

  /** How many templates of `pool` belong to tier `t`. */
  function CountTier(pool: seq<QuestTemplate>, t: Rarity): (n: nat)
    ensures n <= |pool|
    ensures n == 0 <==> forall i | 0 <= i < |pool| :: pool[i].rarity != t
  {
    if pool == [] then 0
    else (if pool[0].rarity == t then 1 else 0) + CountTier(pool[1..], t)
  }

  /** Counting from position `k` adds template `k` to the count from `k + 1`. */
  lemma CountTierStep(pool: seq<QuestTemplate>, k: nat, t: Rarity)
    requires k < |pool|
    ensures CountTier(pool[k..], t) == (if pool[k].rarity == t then 1 else 0) + CountTier(pool[k + 1..], t)
  {
    assert pool[k..][1..] == pool[k + 1..];
  }

  /** 1 when template `q` belongs to tier `t`, else 0. */
  function InTier(q: QuestTemplate, t: Rarity): nat {
    if q.rarity == t then 1 else 0
  }

  /** The count over eight templates, written out. */
  lemma CountTierOfEight(pool: seq<QuestTemplate>, t: Rarity)
    requires |pool| == 8
    ensures CountTier(pool, t) == InTier(pool[0], t) + InTier(pool[1], t) + InTier(pool[2], t) + InTier(pool[3], t)
      + InTier(pool[4], t) + InTier(pool[5], t) + InTier(pool[6], t) + InTier(pool[7], t)
  {
    assert pool[0..] == pool && pool[8..] == [];
    CountTierStep(pool, 0, t);
    CountTierStep(pool, 1, t);
    CountTierStep(pool, 2, t);
    CountTierStep(pool, 3, t);
    CountTierStep(pool, 4, t);
    CountTierStep(pool, 5, t);
    CountTierStep(pool, 6, t);
    CountTierStep(pool, 7, t);
  }

  /** The pool is non-empty: 3 common, 3 rare and 2 legendary templates, no uncommon one. */
  lemma PoolTiers()
    ensures |Pool| == 8
    ensures CountTier(Pool, Common) == 3 && CountTier(Pool, Uncommon) == 0
    ensures CountTier(Pool, Rare) == 3 && CountTier(Pool, Legendary) == 2
  {
    CountTierOfEight(Pool, Common);
    CountTierOfEight(Pool, Uncommon);
    CountTierOfEight(Pool, Rare);
    CountTierOfEight(Pool, Legendary);
  }

  /** Every step target is positive and fixed by tier: 50, 500, and 1000 or 10000. */
  lemma PoolStepTargets()
    ensures forall t | t in Pool :: t.steps > 0
    ensures forall t | t in Pool :: t.rarity == Common ==> t.steps == 50
    ensures forall t | t in Pool :: t.rarity == Rare ==> t.steps == 500
    ensures forall t | t in Pool :: t.rarity == Legendary ==> t.steps == 1000 || t.steps == 10000
  {
  }

  /** No two templates reward an item of the same name. */
  lemma PoolNamesDistinct()
    ensures forall i, j | 0 <= i < j < |Pool| :: Pool[i].itemName != Pool[j].itemName
  {
  }
}
