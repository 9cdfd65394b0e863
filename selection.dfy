/**
  Weighted choice of quest templates and the offers built from them
  (pickRandomQuestTemplate and generateNewQuests in GameViewModel.kt).
  The random number is a parameter: a draw `r` stands for
  `Random.nextDouble() * totalWeight`, a value in [0, TotalWeight(Pool)),
  and is compared against running sums of the weights.
 */
module Selection {
  import opened ItemModel
  import opened QuestModel
  import opened Quests

  /** Sum of the weights of the first `n` templates. */
  function PrefixWeight(pool: seq<QuestTemplate>, n: nat): real
    requires n <= |pool|
  {
    if n == 0 then 0.0 else PrefixWeight(pool, n - 1) + pool[n - 1].rarity.Weight()
  }

  /** Sum of all weights (`sumOf { it.rarity.weight }`). */
  function TotalWeight(pool: seq<QuestTemplate>): real {
    PrefixWeight(pool, |pool|)
  }

  /** Template `j` is reached once the running sum through it is at least `r`. */
  predicate Covers(pool: seq<QuestTemplate>, r: real, j: nat)
    requires j < |pool|
  {
    r <= PrefixWeight(pool, j + 1)
  }

  /** Running sums never fall, and rise strictly at every step, as every weight is positive. */
  lemma {:induction false} PrefixWeightIncreasing(pool: seq<QuestTemplate>, i: nat, j: nat)
    requires i <= j <= |pool|
    ensures PrefixWeight(pool, i) <= PrefixWeight(pool, j)
    ensures i < j ==> PrefixWeight(pool, i) < PrefixWeight(pool, j)
  {
    if i < j {
      PrefixWeightIncreasing(pool, i, j - 1);
      assert pool[j - 1].rarity.Weight() > 0.0;
    }
  }

  /**
    The index the linear scan stops at when it starts at `k`: the first
    `j >= k` that covers `r`, or 0 (the `pool.first()` fallback) when none does.
   */
  function PickFrom(pool: seq<QuestTemplate>, r: real, k: nat): (i: nat)
    requires 0 < |pool| && k <= |pool|
    ensures i < |pool|
    ensures (exists j | k <= j < |pool| :: Covers(pool, r, j)) ==>
      k <= i && Covers(pool, r, i) && forall j | k <= j < i :: !Covers(pool, r, j)
    ensures (forall j | k <= j < |pool| :: !Covers(pool, r, j)) ==> i == 0
    decreases |pool| - k
  {
    if k == |pool| then 0
    else if Covers(pool, r, k) then k
    else PickFrom(pool, r, k + 1)
  }

  /** The index `pickRandomQuestTemplate` selects for the scaled draw `r`. */
  function PickIndex(pool: seq<QuestTemplate>, r: real): (i: nat)
    requires 0 < |pool|
    ensures i < |pool|
  {
    PickFrom(pool, r, 0)
  }

  /** Conversely, the first template that covers `r` is the one picked. */
  lemma FirstCoverIsPicked(pool: seq<QuestTemplate>, r: real, i: nat)
    requires i < |pool| && Covers(pool, r, i)
    requires forall j | 0 <= j < i :: !Covers(pool, r, j)
    ensures PickIndex(pool, r) == i
  {
  }

  /**
    For a scaled draw inside [0, TotalWeight), the fallback is never taken:
    some template covers `r`, and the one picked is the first that does.
   */
  lemma FallbackUnreachable(pool: seq<QuestTemplate>, r: real)
    requires 0 < |pool| && r < TotalWeight(pool)
    ensures Covers(pool, r, PickIndex(pool, r))
    ensures forall j | 0 <= j < PickIndex(pool, r) :: !Covers(pool, r, j)
  {
    assert Covers(pool, r, |pool| - 1);
  }

  /**
    Inverse-CDF view of the pick: for a draw in [0, TotalWeight), template `i`
    is chosen exactly when `r` lies in (PrefixWeight(i), PrefixWeight(i + 1)]
    (the left end open except for the first template), an interval as wide
    as template `i`'s weight.
   */
  lemma PickInterval(pool: seq<QuestTemplate>, r: real, i: nat)
    requires i < |pool| && 0.0 <= r < TotalWeight(pool)
    ensures PickIndex(pool, r) == i <==>
      (i == 0 || PrefixWeight(pool, i) < r) && r <= PrefixWeight(pool, i + 1)
  {
    FallbackUnreachable(pool, r);
    var p := PickIndex(pool, r);
    if p == i && i > 0 {
      assert !Covers(pool, r, i - 1);
    }
    if (i == 0 || PrefixWeight(pool, i) < r) && r <= PrefixWeight(pool, i + 1) {
      assert Covers(pool, r, i);
      if p < i {
        PrefixWeightIncreasing(pool, p + 1, i);
        assert false;
      }
      if p > i {
        assert false;
      }
    }
  }

  /** The catalog's weights sum to 3 * 30 + 3 * 5 + 2 * 0.5 = 106. */
  lemma PoolTotalWeight()
    ensures TotalWeight(Pool) == 106.0
  {
    assert PrefixWeight(Pool, 1) == 30.0;
    assert PrefixWeight(Pool, 2) == 60.0;
    assert PrefixWeight(Pool, 3) == 90.0;
    assert PrefixWeight(Pool, 4) == 95.0;
    assert PrefixWeight(Pool, 5) == 100.0;
    assert PrefixWeight(Pool, 6) == 105.0;
    assert PrefixWeight(Pool, 7) == 105.5;
  }

  /** The template the catalog yields for the draw `r`. */
  function TemplateFor(r: real): QuestTemplate {
    Pool[PickIndex(Pool, r)]
  }

  /**
    Reward items of generated offers are built without an id; the model gives
    them this one.
   */
  const UnsetItemId: string := ""

  /**
    The offer built from template `t` with fresh identifier `id`: the
    template's quest, not yet completed, rewarding a fresh stack of one of
    the template's item.
   */
  function OfferFrom(t: QuestTemplate, id: string): (q: QuestData)
    ensures q.id == id && !q.isCompleted
    ensures q.description == t.description && q.targetSteps == t.steps && q.rarity == t.rarity
    ensures q.rewardItem.name == t.itemName && q.rewardItem.rarity == t.rarity && q.rewardItem.quantity == 1
  {
    NewQuest(id, t.description, t.steps, NewItem(UnsetItemId, t.itemName, t.rarity), t.rarity)
  }

  /**
    The three offers made from draws `draws` and fresh identifiers `ids`:
    offer k is built from the catalog template draw k selects and carries
    identifier k.
   */
  function Offers(draws: seq<real>, ids: seq<string>): (qs: seq<QuestData>)
    requires |draws| == 3 && |ids| == 3
    ensures |qs| == 3
    ensures forall k | 0 <= k < 3 ::
      && qs[k].id == ids[k] && !qs[k].isCompleted
      && qs[k].rewardItem.quantity == 1 && qs[k].rewardItem.rarity == qs[k].rarity
  {
    seq(3, k requires 0 <= k < 3 => OfferFrom(TemplateFor(draws[k]), ids[k]))
  }

  /** A prefix one longer is the shorter prefix and the next element. */
  lemma PrefixExtend<T>(s: seq<T>, k: nat)
    requires k < |s|
    ensures s[..k + 1] == s[..k] + [s[k]]
  {
  }

  /** The offers made so far grow by the offer built from the template draw `k` picks. */
  lemma OffersPrefix(draws: seq<real>, ids: seq<string>, k: nat, t: QuestTemplate)
    requires |draws| == 3 && |ids| == 3 && k < 3
    requires t == Pool[PickIndex(Pool, draws[k])]
    ensures Offers(draws, ids)[..k + 1] == Offers(draws, ids)[..k] + [OfferFrom(t, ids[k])]
  {
    var qs := Offers(draws, ids);
    assert qs[k] == OfferFrom(t, ids[k]);
    PrefixExtend(qs, k);
  }

  /**
    There are exactly three offers. Each copies the description, step target,
    reward name and tier of a template of the pool, starts not completed,
    rewards a stack of one, and carries its own fresh identifier. For a draw
    in [0, 106) the template is the one whose weight interval holds the draw.
   */
  lemma OffersShape(draws: seq<real>, ids: seq<string>)
    requires |draws| == 3 && |ids| == 3
    ensures |Offers(draws, ids)| == 3
    ensures forall k | 0 <= k < 3 ::
      var q, t := Offers(draws, ids)[k], TemplateFor(draws[k]);
      && t in Pool
      && q.id == ids[k]
      && q.description == t.description && q.targetSteps == t.steps
      && q.rewardItem.name == t.itemName && q.rarity == t.rarity && q.rewardItem.rarity == t.rarity
      && q.rewardItem.quantity == 1 && !q.isCompleted
    ensures forall k | 0 <= k < 3 && 0.0 <= draws[k] < 106.0 ::
      var i := PickIndex(Pool, draws[k]);
      TemplateFor(draws[k]) == Pool[i] && (i == 0 || PrefixWeight(Pool, i) < draws[k]) && draws[k] <= PrefixWeight(Pool, i + 1)
  {
  }

  /**
    Offers are distinct values whenever their identifiers are, even when two
    of them come from the same template.
   */
  lemma OffersDistinct(draws: seq<real>, ids: seq<string>)
    requires |draws| == 3 && |ids| == 3
    requires ids[0] != ids[1] && ids[0] != ids[2] && ids[1] != ids[2]
    ensures forall i, j | 0 <= i < j < 3 :: Offers(draws, ids)[i] != Offers(draws, ids)[j]
  {
    var qs := Offers(draws, ids);
    assert qs[0].id == ids[0] && qs[1].id == ids[1] && qs[2].id == ids[2];
    forall i, j | 0 <= i < j < 3 ensures qs[i] != qs[j] {
      assert i == 0 || i == 1;
      assert j == 1 || j == 2;
    }
  }
}
