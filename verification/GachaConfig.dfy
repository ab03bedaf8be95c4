// GachaPoolManager::LoadConfig: the pool that one entry of the configuration file builds.
module GachaConfigs {
  import opened Wrappers
  import opened GachaPools
  import opened GachaHistories
  import opened GachaDraws

  // The item ids of one group; a field that is missing or not a list has none.
  datatype Group = Group(five: seq<int>, four: seq<int>, three: seq<int>)

  // Either an explicit item list, or the groups all_items, up_items and standard_items that are present.
  datatype PoolConfig =
    | Listed(items: seq<GachaItem>)
    | Tiered(all: Option<Group>, up: Option<Group>, std: Option<Group>)
  {
    function All(): Group requires Tiered? { OrEmpty(all) }
    function Up(): Group requires Tiered? { OrEmpty(up) }
    function Std(): Group requires Tiered? { OrEmpty(std) }
    predicate HasUpFormat() requires Tiered? { up.Some? || std.Some? }
  }

  function OrEmpty(g: Option<Group>): Group {
    if g.Some? then g.value else Group([], [], [])
  }

  const DEFAULT_THREE_STARS := [3001, 3002, 3003]

  function Weighted(ids: seq<int>, rarity: int, weight: int): seq<GachaItem> {
    seq(|ids|, i requires 0 <= i < |ids| => GachaItem(ids[i], rarity, weight))
  }

  // The items of one rarity, in the order they are drawn from. Three-star entries of the UP group do not count.
  function Configured(c: PoolConfig, rarity: int): seq<GachaItem>
    requires c.Tiered?
  {
    if rarity == 5 then
      Weighted(c.All().five, 5, 100) + (Weighted(c.Up().five, 5, 800) + Weighted(c.Std().five, 5, 200))
    else if rarity == 4 then
      Weighted(c.All().four, 4, 100) + (Weighted(c.Up().four, 4, 700) + Weighted(c.Std().four, 4, 300))
    else if rarity == 3 then
      var own := Weighted(c.All().three, 3, 100) + Weighted(c.Std().three, 3, 100);
      if own == [] && c.HasUpFormat() then Weighted(DEFAULT_THREE_STARS, 3, 100) else own
    else []
  }

  // Exactly those items, each under its rarity.
  ghost predicate BuiltFrom(pool: PoolItems, c: PoolConfig)
    requires c.Tiered?
  {
    Sorted(pool) && forall rarity :: ItemsOf(pool, rarity) == Configured(c, rarity)
  }

  // ---------------------------------------------------------------- building

  function Extend(pool: PoolItems, rarity: int, extra: seq<GachaItem>): PoolItems {
    if extra == [] then pool else pool[rarity := ItemsOf(pool, rarity) + extra]
  }

  method AddRarityItems(pool: GachaPool, ids: seq<int>, rarity: int, weight: int)
    requires pool.Valid()
    modifies pool
    ensures pool.Valid()
    ensures pool.rarityItems == Extend(old(pool.rarityItems), rarity, Weighted(ids, rarity, weight))
  {
    ghost var items := Weighted(ids, rarity, weight);
    for i := 0 to |ids|
      invariant pool.Valid()
      invariant pool.rarityItems == Extend(old(pool.rarityItems), rarity, items[..i])
    {
      pool.AddItem(GachaItem(ids[i], rarity, weight));
      ExtendNext(old(pool.rarityItems), rarity, items[..i], items[i]);
      assert items[..i + 1] == items[..i] + [items[i]];
    }
    assert items[..|ids|] == items;
  }

  lemma ExtendNext(pool: PoolItems, rarity: int, extra: seq<GachaItem>, item: GachaItem)
    ensures var p := Extend(pool, rarity, extra);
            p[rarity := ItemsOf(p, rarity) + [item]] == Extend(pool, rarity, extra + [item])
  {
    var p := Extend(pool, rarity, extra);
    assert ItemsOf(p, rarity) == ItemsOf(pool, rarity) + extra;
    assert ItemsOf(pool, rarity) + extra + [item] == ItemsOf(pool, rarity) + (extra + [item]);
    assert p[rarity := ItemsOf(p, rarity) + [item]] == pool[rarity := ItemsOf(p, rarity) + [item]];
  }

  lemma ExtendAt(pool: PoolItems, rarity: int, extra: seq<GachaItem>, k: int)
    ensures ItemsOf(Extend(pool, rarity, extra), k)
      == if k == rarity then ItemsOf(pool, k) + extra else ItemsOf(pool, k)
  {
  }

  // The groups in the order they are read.
  function AllGroup(g: Group): PoolItems {
    Extend(Extend(Extend(map[], 5, Weighted(g.five, 5, 100)),
                  4, Weighted(g.four, 4, 100)),
           3, Weighted(g.three, 3, 100))
  }

  function ExtendTwice(pool: PoolItems, rarity: int, first: seq<GachaItem>, second: seq<GachaItem>): PoolItems {
    Extend(Extend(pool, rarity, first), rarity, second)
  }

  function UpFives(pool: PoolItems, up: Group, std: Group): PoolItems {
    ExtendTwice(pool, 5, Weighted(up.five, 5, 800), Weighted(std.five, 5, 200))
  }

  function UpFours(pool: PoolItems, up: Group, std: Group): PoolItems {
    ExtendTwice(pool, 4, Weighted(up.four, 4, 700), Weighted(std.four, 4, 300))
  }

  function WithDefaults(pool: PoolItems): PoolItems {
    if Offers(pool, 3) then pool else Extend(pool, 3, Weighted(DEFAULT_THREE_STARS, 3, 100))
  }

  function UpGroups(pool: PoolItems, up: Group, std: Group): PoolItems {
    WithDefaults(Extend(UpFours(UpFives(pool, up, std), up, std), 3, Weighted(std.three, 3, 100)))
  }

  method BuildTiered(c: PoolConfig) returns (pool: GachaPool)
    requires c.Tiered?
    ensures fresh(pool) && pool.Valid() && BuiltFrom(pool.rarityItems, c)
  {
    pool := new GachaPool();
    if c.all.Some? {
      AddRarityItems(pool, c.all.value.five, 5, 100);
      AddRarityItems(pool, c.all.value.four, 4, 100);
      AddRarityItems(pool, c.all.value.three, 3, 100);
    }
    assert pool.rarityItems == AllGroup(c.All());
    if c.up.Some? || c.std.Some? {
      var up, std := OrEmpty(c.up), OrEmpty(c.std);
      AddRarityItems(pool, up.five, 5, 800);
      AddRarityItems(pool, std.five, 5, 200);
      AddRarityItems(pool, up.four, 4, 700);
      AddRarityItems(pool, std.four, 4, 300);
      AddRarityItems(pool, std.three, 3, 100);
      var hasThree := pool.HasRarity(3);
      if !hasThree {
        AddRarityItems(pool, DEFAULT_THREE_STARS, 3, 100);
      }
    }
    forall rarity ensures ItemsOf(pool.rarityItems, rarity) == Configured(c, rarity) {
      GroupsAsConfigured(c, rarity);
    }
  }

  lemma GroupsAsConfigured(c: PoolConfig, rarity: int)
    requires c.Tiered?
    ensures var all := AllGroup(c.All());
            ItemsOf(if c.HasUpFormat() then UpGroups(all, c.Up(), c.Std()) else all, rarity) == Configured(c, rarity)
  {
    var all, up, std := AllGroup(c.All()), c.Up(), c.Std();
    AllGroupAt(c.All(), rarity);
    UpGroupsAt(all, up, std, rarity);
    AllGroupAt(c.All(), 3);
    if !c.HasUpFormat() {
      assert Configured(c, rarity) == ItemsOf(all, rarity);
    }
  }

  lemma AllGroupAt(g: Group, rarity: int)
    ensures ItemsOf(AllGroup(g), rarity) == match rarity
                                            case 5 => Weighted(g.five, 5, 100)
                                            case 4 => Weighted(g.four, 4, 100)
                                            case 3 => Weighted(g.three, 3, 100)
                                            case _ => []
  {
  }

  lemma ExtendTwiceAt(pool: PoolItems, rarity: int, first: seq<GachaItem>, second: seq<GachaItem>, k: int)
    ensures ItemsOf(ExtendTwice(pool, rarity, first, second), k)
         == if k == rarity then ItemsOf(pool, k) + (first + second) else ItemsOf(pool, k)
  {
    ExtendAt(pool, rarity, first, k);
    ExtendAt(Extend(pool, rarity, first), rarity, second, k);
    assert ItemsOf(pool, rarity) + first + second == ItemsOf(pool, rarity) + (first + second);
  }

  lemma UpGroupsAt(pool: PoolItems, up: Group, std: Group, rarity: int)
    ensures ItemsOf(UpGroups(pool, up, std), rarity)
         == match rarity
            case 5 => ItemsOf(pool, 5) + (Weighted(up.five, 5, 800) + Weighted(std.five, 5, 200))
            case 4 => ItemsOf(pool, 4) + (Weighted(up.four, 4, 700) + Weighted(std.four, 4, 300))
            case 3 => var own := ItemsOf(pool, 3) + Weighted(std.three, 3, 100);
                      if own == [] then Weighted(DEFAULT_THREE_STARS, 3, 100) else own
            case _ => ItemsOf(pool, rarity)
  {
    var fives := UpFives(pool, up, std);
    var fours := UpFours(fives, up, std);
    var listed := Extend(fours, 3, Weighted(std.three, 3, 100));
    ExtendTwiceAt(pool, 5, Weighted(up.five, 5, 800), Weighted(std.five, 5, 200), rarity);
    ExtendTwiceAt(fives, 4, Weighted(up.four, 4, 700), Weighted(std.four, 4, 300), rarity);
    ExtendAt(fours, 3, Weighted(std.three, 3, 100), rarity);
    ExtendAt(listed, 3, Weighted(DEFAULT_THREE_STARS, 3, 100), rarity);
  }

  method BuildListed(items: seq<GachaItem>) returns (pool: GachaPool)
    ensures fresh(pool) && pool.Valid()
    ensures forall rarity :: ItemsOf(pool.rarityItems, rarity) == OfRarity(items, rarity)
  {
    pool := new GachaPool();
    for i := 0 to |items|
      invariant fresh(pool) && pool.Valid()
      invariant forall rarity :: ItemsOf(pool.rarityItems, rarity) == OfRarity(items[..i], rarity)
    {
      assert items[..i + 1][..i] == items[..i];
      pool.AddItem(items[i]);
    }
    assert items[..|items|] == items;
  }

  function OfRarity(items: seq<GachaItem>, rarity: int): seq<GachaItem> {
    if items == [] then []
    else OfRarity(items[..|items| - 1], rarity)
         + if items[|items| - 1].rarity == rarity then [items[|items| - 1]] else []
  }

  // A listed pool offers every listed item under its rarity as often as it is listed, and nothing else,
  lemma {:induction false} ListedCount(items: seq<GachaItem>, item: GachaItem, rarity: int)
    ensures multiset(OfRarity(items, rarity))[item] == if item.rarity == rarity then multiset(items)[item] else 0
  {
    if items != [] {
      var k := |items| - 1;
      ListedCount(items[..k], item, rarity);
      assert items == items[..k] + [items[k]];
    }
  }

  // in the order of the list.
  lemma {:induction false} ListedInOrder(first: seq<GachaItem>, rest: seq<GachaItem>, rarity: int)
    ensures OfRarity(first + rest, rarity) == OfRarity(first, rarity) + OfRarity(rest, rarity)
  {
    if rest == [] {
      assert first + rest == first;
    } else {
      var k := |rest| - 1;
      assert (first + rest)[..|first + rest| - 1] == first + rest[..k];
      ListedInOrder(first, rest[..k], rarity);
    }
  }

  // ---------------------------------------------------------------- totals

  lemma {:induction false} TotalConcat(a: seq<GachaItem>, b: seq<GachaItem>)
    ensures Total(a + b) == Total(a) + Total(b)
  {
    if a == [] {
      assert a + b == b;
    } else {
      assert (a + b)[1..] == a[1..] + b;
      TotalConcat(a[1..], b);
    }
  }

  lemma {:induction false} TotalWeighted(ids: seq<int>, rarity: int, weight: int)
    ensures Total(Weighted(ids, rarity, weight)) == weight * |ids|
  {
    if ids != [] {
      assert Weighted(ids, rarity, weight)[1..] == Weighted(ids[1..], rarity, weight);
      TotalWeighted(ids[1..], rarity, weight);
    }
  }

  lemma {:induction false} TotalPositive(items: seq<GachaItem>)
    requires items != [] && forall i :: 0 <= i < |items| ==> items[i].weight > 0
    ensures Total(items) > 0
  {
    if |items| > 1 { TotalPositive(items[1..]); }
  }

  // ---------------------------------------------------------------- every tiered pool that draws

  lemma PositiveTotals(pool: PoolItems, c: PoolConfig, rarity: int)
    requires c.Tiered? && BuiltFrom(pool, c) && Offers(pool, rarity)
    ensures Total(ItemsOf(pool, rarity)) > 0
  {
    TotalPositive(Configured(c, rarity));
  }

  // An up/standard pool always draws, and so does a pool of all_items with a three-star.
  lemma TieredDrawable(pool: PoolItems, c: PoolConfig)
    requires c.Tiered? && BuiltFrom(pool, c) && (c.HasUpFormat() || c.All().three != [])
    ensures Drawable(pool)
  {
    assert Offers(pool, 3);
    forall rarity | 3 <= rarity <= 5 && Offers(pool, rarity) ensures Total(ItemsOf(pool, rarity)) > 0 {
      PositiveTotals(pool, c, rarity);
    }
  }

  // Whatever the pity and the dice, a tiered pool yields an item if and only if it has the up/standard format
  // or lists a three-star.
  lemma TieredDrawsExactly(pool: PoolItems, c: PoolConfig)
    requires c.Tiered? && BuiltFrom(pool, c)
    ensures (forall h, d :: DrawOne(h, pool, d).Drew?) <==> c.HasUpFormat() || c.All().three != []
  {
    DrawableExactly(pool);
    if c.HasUpFormat() || c.All().three != [] {
      TieredDrawable(pool, c);
    } else {
      assert !Offers(pool, 3);
    }
  }

  // A request on an up/standard pool returns exactly as many items as it asks for: ten for a ten-draw.
  lemma UpPoolDrawsAll(pool: PoolItems, c: PoolConfig, h: History, dice: seq<Dice>)
    requires c.Tiered? && BuiltFrom(pool, c) && c.HasUpFormat()
    ensures DrawMany(h, pool, dice).complete && |DrawMany(h, pool, dice).items| == |dice|
  {
    TieredDrawable(pool, c);
    DrawableDrawsAll(h, pool, dice);
  }

  // ---------------------------------------------------------------- the shares

  function Groups(all: seq<int>, up: seq<int>, std: seq<int>,
                  rarity: int, upWeight: nat, stdWeight: nat): seq<GachaItem> {
    Weighted(all, rarity, 100) + (Weighted(up, rarity, upWeight) + Weighted(std, rarity, stdWeight))
  }

  lemma ThreeGroups(all: seq<int>, up: seq<int>, std: seq<int>, rarity: int, upWeight: nat, stdWeight: nat)
    ensures var items := Groups(all, up, std, rarity, upWeight, stdWeight);
            && |items| == |all| + |up| + |std| && Weighable(items)
            && Total(items) == 100 * |all| + upWeight * |up| + stdWeight * |std|
            && Cumulative(items, |all|) == 100 * |all|
            && Cumulative(items, |all| + |up|) == 100 * |all| + upWeight * |up|
  {
    var a, u, s := Weighted(all, rarity, 100), Weighted(up, rarity, upWeight), Weighted(std, rarity, stdWeight);
    TotalConcat(a, u + s);
    TotalConcat(u, s);
    TotalConcat(a, u);
    TotalWeighted(all, rarity, 100);
    TotalWeighted(up, rarity, upWeight);
    TotalWeighted(std, rarity, stdWeight);
    assert (a + (u + s))[..|a|] == a && (a + (u + s))[..|a| + |u|] == a + u;
  }

  // The answers of the engine for which the draw yields one of the given items.
  ghost function Drawing(pool: PoolItems, rarity: int, group: seq<GachaItem>): set<int> {
    set answer: int | 1 <= answer <= Total(ItemsOf(pool, rarity))
                      && DrawFrom(pool, rarity, answer).Got? && DrawFrom(pool, rarity, answer).value in group
  }

  // An answer hits an entry below k exactly when it is at most the cumulative weight there.
  lemma HitBelow(items: seq<GachaItem>, i: nat, answer: int, k: nat)
    requires Weighable(items) && Hits(items, i, answer) && k <= |items|
    ensures i < k <==> answer <= Cumulative(items, k)
  {
    if i < k { CumulativeGrows(items, i + 1, k); } else { CumulativeGrows(items, k, i); }
  }

  // The entries of one weight, behind skip others, take a stretch of the answers.
  lemma GroupShare(pool: PoolItems, rarity: int, skip: nat, group: seq<GachaItem>, lo: int, hi: int)
    requires var items := ItemsOf(pool, rarity);
             && Weighable(items) && skip + |group| <= |items| && items[skip..skip + |group|] == group
             && (forall i :: 0 <= i < |items| && !(skip <= i < skip + |group|) ==> items[i] !in group)
             && lo == Cumulative(items, skip) && hi == Cumulative(items, skip + |group|)
    ensures lo <= hi && Drawing(pool, rarity, group) == Interval(lo, hi) && |Drawing(pool, rarity, group)| == hi - lo
  {
    var items, end := ItemsOf(pool, rarity), skip + |group|;
    CumulativeGrows(items, 0, skip);
    CumulativeGrows(items, skip, end);
    CumulativeGrows(items, end, |items|);
    assert items[..|items|] == items;
    forall answer: int | 1 <= answer <= Total(items)
      ensures answer in Drawing(pool, rarity, group) <==> lo < answer <= hi
    {
      var i := SomeEntryHit(items, answer, |items|);
      DrawnEntry(pool, rarity, answer, i);
      HitBelow(items, i, answer, skip);
      HitBelow(items, i, answer, end);
      if skip <= i < end { assert items[i] == group[i - skip]; }
    }
    assert Drawing(pool, rarity, group) == Interval(lo, hi);
  }

  lemma UpGroupShare(pool: PoolItems, rarity: int, all: seq<int>, up: seq<int>, std: seq<int>,
                     upWeight: nat, stdWeight: nat)
    requires ItemsOf(pool, rarity) == Groups(all, up, std, rarity, upWeight, stdWeight)
    requires upWeight != 100 && upWeight != stdWeight
    ensures Total(ItemsOf(pool, rarity)) == 100 * |all| + upWeight * |up| + stdWeight * |std|
    ensures 100 * |all| <= 100 * |all| + upWeight * |up|
    ensures Drawing(pool, rarity, Weighted(up, rarity, upWeight))
         == Interval(100 * |all|, 100 * |all| + upWeight * |up|)
    ensures |Drawing(pool, rarity, Weighted(up, rarity, upWeight))| == upWeight * |up|
  {
    var items, group := ItemsOf(pool, rarity), Weighted(up, rarity, upWeight);
    ThreeGroups(all, up, std, rarity, upWeight, stdWeight);
    assert items[|all|..|all| + |up|] == group;
    forall i | 0 <= i < |items| && !(|all| <= i < |all| + |up|) ensures items[i] !in group {
      assert items[i].weight == if i < |all| then 100 else stdWeight;
    }
    GroupShare(pool, rarity, |all|, group, 100 * |all|, 100 * |all| + upWeight * |up|);
  }

  // With a all_items, u UP and s standard five-stars, exactly 800u of the 100a + 800u + 200s answers draw an UP
  // item: 100a + 1 to 100a + 800u.
  lemma UpShare(pool: PoolItems, c: PoolConfig)
    requires c.Tiered? && BuiltFrom(pool, c)
    ensures var a, u, s := |c.All().five|, |c.Up().five|, |c.Std().five|;
            && Total(ItemsOf(pool, 5)) == 100 * a + 800 * u + 200 * s
            && Drawing(pool, 5, Weighted(c.Up().five, 5, 800)) == Interval(100 * a, 100 * a + 800 * u)
            && |Drawing(pool, 5, Weighted(c.Up().five, 5, 800))| == 800 * u
  {
    assert ItemsOf(pool, 5) == Groups(c.All().five, c.Up().five, c.Std().five, 5, 800, 200);
    UpGroupShare(pool, 5, c.All().five, c.Up().five, c.Std().five, 800, 200);
  }

  // UP items take 80% of the five-stars, as the configuration comment says, exactly when u == s + a / 2.
  lemma UpIsEightyPercentExactly(pool: PoolItems, c: PoolConfig)
    requires c.Tiered? && BuiltFrom(pool, c)
    ensures var a, u, s := |c.All().five|, |c.Up().five|, |c.Std().five|;
            100 * |Drawing(pool, 5, Weighted(c.Up().five, 5, 800))| == 80 * Total(ItemsOf(pool, 5))
            <==> 2 * u == 2 * s + a
  {
    UpShare(pool, c);
  }

  lemma FourStarUpShare(pool: PoolItems, c: PoolConfig)
    requires c.Tiered? && BuiltFrom(pool, c)
    ensures var a, u, s := |c.All().four|, |c.Up().four|, |c.Std().four|;
            && Total(ItemsOf(pool, 4)) == 100 * a + 700 * u + 300 * s
            && Drawing(pool, 4, Weighted(c.Up().four, 4, 700)) == Interval(100 * a, 100 * a + 700 * u)
            && |Drawing(pool, 4, Weighted(c.Up().four, 4, 700))| == 700 * u
  {
    assert ItemsOf(pool, 4) == Groups(c.All().four, c.Up().four, c.Std().four, 4, 700, 300);
    UpGroupShare(pool, 4, c.All().four, c.Up().four, c.Std().four, 700, 300);
  }

  // And 70% of the four-stars exactly when u == s + a / 3.
  lemma FourStarUpIsSeventyPercentExactly(pool: PoolItems, c: PoolConfig)
    requires c.Tiered? && BuiltFrom(pool, c)
    ensures var a, u, s := |c.All().four|, |c.Up().four|, |c.Std().four|;
            100 * |Drawing(pool, 4, Weighted(c.Up().four, 4, 700))| == 70 * Total(ItemsOf(pool, 4))
            <==> 3 * u == 3 * s + a
  {
    FourStarUpShare(pool, c);
  }

  // The ids of the three-stars: those of all_items, then the standard ones; the defaults if an up/standard pool
  // has none.
  function ThreeStarIds(c: PoolConfig): seq<int>
    requires c.Tiered?
  {
    var own := c.All().three + c.Std().three;
    if own == [] && c.HasUpFormat() then [3001, 3002, 3003] else own
  }

  // All three-stars are equally likely: each has a hundred answers, in the order of the configuration.
  lemma ThreeStarsAlike(pool: PoolItems, c: PoolConfig, k: nat, answer: int)
    requires c.Tiered? && BuiltFrom(pool, c)
    ensures Total(ItemsOf(pool, 3)) == 100 * |ThreeStarIds(c)|
    ensures k < |ThreeStarIds(c)| && 100 * k < answer <= 100 * k + 100 ==>
              DrawFrom(pool, 3, answer) == Got(GachaItem(ThreeStarIds(c)[k], 3, 100))
  {
    var ids := ThreeStarIds(c);
    assert Weighted(c.All().three, 3, 100) + Weighted(c.Std().three, 3, 100)
        == Weighted(c.All().three + c.Std().three, 3, 100);
    assert ItemsOf(pool, 3) == Weighted(ids, 3, 100);
    TotalWeighted(ids, 3, 100);
    if k < |ids| && 100 * k < answer <= 100 * k + 100 {
      TotalWeighted(ids[..k], 3, 100);
      TotalWeighted(ids[..k + 1], 3, 100);
      assert Weighted(ids, 3, 100)[..k] == Weighted(ids[..k], 3, 100);
      assert Weighted(ids, 3, 100)[..k + 1] == Weighted(ids[..k + 1], 3, 100);
      DrawnEntry(pool, 3, answer, k);
    }
  }
}
