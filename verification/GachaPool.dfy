// GachaPool: items by rarity, each with a weight, and a weighted draw by cumulative sums. The random engine
// is an argument: the answer it gives when asked for a number in a range.
module GachaPools {

  datatype GachaItem = GachaItem(id: int, rarity: int, weight: int)

  datatype DrawError = RarityEmpty | InvalidTotalWeight | NothingDrawable

  datatype Drawn<+T> = Got(value: T) | Failed(error: DrawError)

  type PoolItems = map<int, seq<GachaItem>>

  function ItemsOf(pool: PoolItems, rarity: int): seq<GachaItem> {
    if rarity in pool then pool[rarity] else []
  }

  predicate Offers(pool: PoolItems, rarity: int) {
    ItemsOf(pool, rarity) != []
  }

  // Every item sits under its own rarity.
  ghost predicate Sorted(pool: PoolItems) {
    forall rarity, i :: rarity in pool && 0 <= i < |pool[rarity]| ==> pool[rarity][i].rarity == rarity
  }

  function Total(items: seq<GachaItem>): int {
    if items == [] then 0 else items[0].weight + Total(items[1..])
  }

  // The answer of the random engine, which is any number of the range asked for. An argument outside the
  // range, which the engine never gives, stands for its upper end.
  function RandInt(lo: int, hi: int, answer: int): (r: int)
    requires lo <= hi
    ensures lo <= r <= hi && (lo <= answer <= hi ==> r == answer)
  {
    if lo <= answer <= hi then answer else hi
  }

  // The entry that the random value r selects: the first whose cumulative weight reaches r, else the last.
  function Pick(items: seq<GachaItem>, r: int): (i: nat)
    requires items != []
    ensures i < |items|
  {
    if r <= items[0].weight || |items| == 1 then 0 else 1 + Pick(items[1..], r - items[0].weight)
  }

  function DrawFrom(pool: PoolItems, rarity: int, answer: int): Drawn<GachaItem> {
    var items := ItemsOf(pool, rarity);
    if items == [] then Failed(RarityEmpty)
    else if Total(items) <= 0 then Failed(InvalidTotalWeight)
    else Got(items[Pick(items, RandInt(1, Total(items), answer))])
  }

  // ---------------------------------------------------------------- sums

  // The cumulative weight after the first k entries.
  function Cumulative(items: seq<GachaItem>, k: nat): int
    requires k <= |items|
  {
    Total(items[..k])
  }

  lemma {:induction false} TotalAppend(items: seq<GachaItem>, item: GachaItem)
    ensures Total(items + [item]) == Total(items) + item.weight
  {
    if items == [] {
      assert items + [item] == [item];
    } else {
      assert (items + [item])[1..] == items[1..] + [item];
      TotalAppend(items[1..], item);
    }
  }

  lemma CumulativeStep(items: seq<GachaItem>, k: nat)
    requires k < |items|
    ensures Cumulative(items, k + 1) == Cumulative(items, k) + items[k].weight
  {
    assert items[..k + 1] == items[..k] + [items[k]];
    TotalAppend(items[..k], items[k]);
  }

  lemma CumulativeTail(items: seq<GachaItem>, k: nat)
    requires items != [] && 0 < k <= |items|
    ensures Cumulative(items, k) == items[0].weight + Cumulative(items[1..], k - 1)
  {
    assert items[..k][1..] == items[1..][..k - 1];
  }

  lemma {:induction false} CumulativeGrows(items: seq<GachaItem>, j: nat, k: nat)
    requires j <= k <= |items| && forall i :: 0 <= i < |items| ==> items[i].weight >= 0
    ensures Cumulative(items, j) <= Cumulative(items, k)
  {
    if j < k {
      CumulativeGrows(items, j, k - 1);
      CumulativeStep(items, k - 1);
    }
  }

  // ---------------------------------------------------------------- the selected entry

  // With r at most the total, the scan stops at the first entry whose cumulative weight reaches r: the
  // fall-through is never taken, whatever the weights are.
  lemma {:induction false} ScanStops(items: seq<GachaItem>, r: int)
    requires items != [] && r <= Total(items)
    ensures var i := Pick(items, r);
            r <= Cumulative(items, i + 1) && forall k :: 0 < k <= i ==> Cumulative(items, k) < r
  {
    var i := Pick(items, r);
    assert items[..|items|] == items;
    if r <= items[0].weight || |items| == 1 {
      CumulativeTail(items, 1);
    } else {
      ScanStops(items[1..], r - items[0].weight);
      CumulativeTail(items, i + 1);
      forall k | 0 < k <= i ensures Cumulative(items, k) < r {
        CumulativeTail(items, k);
      }
    }
  }

  // The random values that select entry i.
  ghost function Selecting(items: seq<GachaItem>, i: nat): set<int>
    requires items != []
  {
    set r: int | 1 <= r <= Total(items) && Pick(items, r) == i
  }

  // The integers above lo and up to hi.
  ghost function Interval(lo: int, hi: int): (s: set<int>)
    requires lo <= hi
    ensures |s| == hi - lo && forall r :: r in s <==> lo < r <= hi
    decreases hi - lo
  {
    if lo == hi then {} else Interval(lo, hi - 1) + {hi}
  }

  // A random value selects one of the first k entries exactly when it is at most their cumulative weight.
  lemma PickedBefore(items: seq<GachaItem>, r: int, k: nat)
    requires k <= |items| && items != [] && 1 <= r <= Total(items)
    requires forall i :: 0 <= i < |items| ==> items[i].weight >= 0
    ensures Pick(items, r) < k <==> r <= Cumulative(items, k)
  {
    ScanStops(items, r);
    var i := Pick(items, r);
    if i < k { CumulativeGrows(items, i + 1, k); }
  }

  // Entry i is selected by exactly as many random values as its weight says.
  lemma ShareIsWeight(items: seq<GachaItem>, i: nat)
    requires i < |items| && forall k :: 0 <= k < |items| ==> items[k].weight >= 0
    ensures |Selecting(items, i)| == items[i].weight
  {
    var lo, hi := Cumulative(items, i), Cumulative(items, i + 1);
    CumulativeStep(items, i);
    CumulativeGrows(items, 0, i);
    CumulativeGrows(items, i + 1, |items|);
    assert items[..|items|] == items;
    forall r: int | 1 <= r <= Total(items) ensures Pick(items, r) == i <==> lo < r <= hi {
      PickedBefore(items, r, i);
      PickedBefore(items, r, i + 1);
    }
    assert Selecting(items, i) == Interval(lo, hi);
  }

  // The draw honours every weight of a pool if and only if no weight is negative.
  lemma SharesAreWeightsExactly(items: seq<GachaItem>)
    requires items != []
    ensures (forall i :: 0 <= i < |items| ==> |Selecting(items, i)| == items[i].weight)
       <==> (forall i :: 0 <= i < |items| ==> items[i].weight >= 0)
  {
    if forall i :: 0 <= i < |items| ==> items[i].weight >= 0 {
      forall i | 0 <= i < |items| ensures |Selecting(items, i)| == items[i].weight {
        ShareIsWeight(items, i);
      }
    } else {
      var k :| 0 <= k < |items| && items[k].weight < 0;
      assert |Selecting(items, k)| != items[k].weight;
    }
  }

  // ---------------------------------------------------------------- the drawn item

  ghost predicate Weighable(items: seq<GachaItem>) {
    forall i :: 0 <= i < |items| ==> items[i].weight >= 0
  }

  // The answer lies in the stretch of the total that belongs to entry i.
  predicate Hits(items: seq<GachaItem>, i: nat, answer: int) {
    i < |items| && Cumulative(items, i) < answer <= Cumulative(items, i + 1)
  }

  // The answer of the engine decides the entry: the draw gives the one in whose stretch it lies.
  lemma DrawnEntry(pool: PoolItems, rarity: int, answer: int, i: nat)
    requires Weighable(ItemsOf(pool, rarity)) && Hits(ItemsOf(pool, rarity), i, answer)
    ensures DrawFrom(pool, rarity, answer) == Got(ItemsOf(pool, rarity)[i])
  {
    var items := ItemsOf(pool, rarity);
    assert items[..|items|] == items;
    CumulativeGrows(items, 0, i);
    CumulativeGrows(items, i + 1, |items|);
    PickedBefore(items, answer, i);
    PickedBefore(items, answer, i + 1);
  }

  // Every answer in the range lies in the stretch of some entry.
  lemma {:induction false} SomeEntryHit(items: seq<GachaItem>, answer: int, k: nat) returns (i: nat)
    requires k <= |items| && 1 <= answer <= Cumulative(items, k)
    ensures i < k && Hits(items, i, answer)
  {
    if k == 0 {
      assert false;
    } else if answer <= Cumulative(items, k - 1) {
      i := SomeEntryHit(items, answer, k - 1);
    } else {
      i := k - 1;
    }
  }

  // The weights of all entries equal to item.
  function WeightOf(items: seq<GachaItem>, item: GachaItem): int {
    if items == [] then 0
    else WeightOf(items[..|items| - 1], item) + if items[|items| - 1] == item then item.weight else 0
  }

  // The answers in 1..k for which the draw yields the item.
  ghost function Yielding(pool: PoolItems, rarity: int, item: GachaItem, k: nat): set<int> {
    set answer: int | 1 <= answer <= k && DrawFrom(pool, rarity, answer) == Got(item)
  }

  lemma YieldingNext(pool: PoolItems, rarity: int, item: GachaItem, lo: nat, hi: nat, drawn: GachaItem)
    requires lo <= hi && forall answer: int :: lo < answer <= hi ==> DrawFrom(pool, rarity, answer) == Got(drawn)
    ensures |Yielding(pool, rarity, item, hi)|
         == |Yielding(pool, rarity, item, lo)| + if drawn == item then hi - lo else 0
  {
    var below, last := Yielding(pool, rarity, item, lo), if drawn == item then Interval(lo, hi) else {};
    assert Yielding(pool, rarity, item, hi) == below + last;
    assert below !! last;
  }

  lemma {:induction false} YieldingUpTo(pool: PoolItems, rarity: int, item: GachaItem, k: nat)
    requires var items := ItemsOf(pool, rarity); Weighable(items) && k <= |items|
    ensures var items := ItemsOf(pool, rarity);
            && Cumulative(items, k) >= 0
            && |Yielding(pool, rarity, item, Cumulative(items, k))| == WeightOf(items[..k], item)
  {
    var items := ItemsOf(pool, rarity);
    if k == 0 {
      assert items[..0] == [];
      assert Yielding(pool, rarity, item, 0) == {};
    } else {
      YieldingUpTo(pool, rarity, item, k - 1);
      CumulativeStep(items, k - 1);
      assert items[..k][..k - 1] == items[..k - 1];
      forall answer: int | Cumulative(items, k - 1) < answer <= Cumulative(items, k)
        ensures DrawFrom(pool, rarity, answer) == Got(items[k - 1])
      {
        DrawnEntry(pool, rarity, answer, k - 1);
      }
      YieldingNext(pool, rarity, item, Cumulative(items, k - 1), Cumulative(items, k), items[k - 1]);
    }
  }

  // Of the answers in 1..total, exactly as many yield an item as its entries weigh.
  lemma YieldIsWeight(pool: PoolItems, rarity: int, item: GachaItem)
    requires Weighable(ItemsOf(pool, rarity))
    ensures Total(ItemsOf(pool, rarity)) >= 0
    ensures |Yielding(pool, rarity, item, Total(ItemsOf(pool, rarity)))| == WeightOf(ItemsOf(pool, rarity), item)
  {
    var items := ItemsOf(pool, rarity);
    assert items[..|items|] == items;
    YieldingUpTo(pool, rarity, item, |items|);
  }

  lemma DrawnRarity(pool: PoolItems, rarity: int, answer: int)
    requires Sorted(pool)
    ensures DrawFrom(pool, rarity, answer).Got? ==> DrawFrom(pool, rarity, answer).value.rarity == rarity
    ensures DrawFrom(pool, rarity, answer).Got? <==> Offers(pool, rarity) && Total(ItemsOf(pool, rarity)) > 0
    ensures DrawFrom(pool, rarity, answer) == Failed(RarityEmpty) <==> !Offers(pool, rarity)
  {
  }

  // ---------------------------------------------------------------- the class

  class GachaPool {
    var rarityItems: map<int, seq<GachaItem>>
    var rarityWeight: map<int, int>

    // The stored total of each rarity is the sum of its weights.
    ghost predicate Valid()
      reads this
    {
      && Sorted(rarityItems)
      && rarityWeight.Keys == rarityItems.Keys
      && forall rarity :: rarity in rarityItems ==> rarityWeight[rarity] == Total(rarityItems[rarity])
    }

    constructor ()
      ensures Valid() && rarityItems == map[]
    {
      rarityItems, rarityWeight := map[], map[];
    }

    method AddItem(item: GachaItem)
      requires Valid()
      modifies this
      ensures Valid()
      ensures rarityItems == old(rarityItems)[item.rarity := ItemsOf(old(rarityItems), item.rarity) + [item]]
    {
      var items := if item.rarity in rarityItems then rarityItems[item.rarity] else [];
      var weight := if item.rarity in rarityWeight then rarityWeight[item.rarity] else 0;
      TotalAppend(items, item);
      rarityItems := rarityItems[item.rarity := items + [item]];
      rarityWeight := rarityWeight[item.rarity := weight + item.weight];
    }

    method DrawByRarity(rarity: int, answer: int) returns (res: Drawn<GachaItem>)
      requires Valid()
      ensures res == DrawFrom(rarityItems, rarity, answer)
      ensures Weighable(ItemsOf(rarityItems, rarity)) ==>
                forall i: nat :: Hits(ItemsOf(rarityItems, rarity), i, answer) ==>
                  res == Got(ItemsOf(rarityItems, rarity)[i])
    {
      if Weighable(ItemsOf(rarityItems, rarity)) {
        forall i: nat | Hits(ItemsOf(rarityItems, rarity), i, answer)
          ensures DrawFrom(rarityItems, rarity, answer) == Got(ItemsOf(rarityItems, rarity)[i])
        {
          DrawnEntry(rarityItems, rarity, answer, i);
        }
      }
      if rarity !in rarityItems || rarityItems[rarity] == [] {
        return Failed(RarityEmpty);
      }
      var items := rarityItems[rarity];
      var totalWeight := if rarity in rarityWeight then rarityWeight[rarity] else 0;
      if totalWeight <= 0 {
        return Failed(InvalidTotalWeight);
      }
      var r := RandInt(1, totalWeight, answer);
      var cumulative := 0;
      for k := 0 to |items|
        invariant k < |items| ==> Pick(items, r) == k + Pick(items[k..], r - cumulative)
        invariant k == |items| ==> Pick(items, r) == |items| - 1
      {
        cumulative := cumulative + items[k].weight;
        if r <= cumulative {
          return Got(items[k]);
        }
        assert items[k..][1..] == items[k + 1..];
      }
      res := Got(items[|items| - 1]);
    }

    method HasRarity(rarity: int) returns (found: bool)
      ensures found == Offers(rarityItems, rarity)
    {
      found := rarity in rarityItems && rarityItems[rarity] != [];
    }
  }
}
