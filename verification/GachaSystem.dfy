// PitySystem and GachaSystem: the rarity roll, the fallback, single and ten draws. Random values are
// arguments, so every statement holds for all of them.
module GachaDraws {
  import opened GachaPools
  import opened GachaHistories

  const HARD_PITY := 89

  function FiveStarProbability(pity: int): real {
    if pity < 75 then 0.006 else 0.006 + (pity - 74) as real * 0.06
  }

  function RollRarity(pity: int, roll: real): int {
    if pity >= HARD_PITY then 5
    else if roll < FiveStarProbability(pity) then 5
    else if roll < 0.051 then 4
    else 3
  }

  // The roll, band by band: 0.006 for a five-star up to pity 74, then 0.06 more with every draw, certain from 89 on.
  lemma RollExactly(pity: int, roll: real)
    ensures RollRarity(pity, roll) == 5
       <==> pity >= 89 || roll < 0.006 || (75 <= pity && roll < 0.006 + 0.06 * (pity - 74) as real)
    ensures RollRarity(pity, roll) == 3
       <==> pity < 89 && roll >= 0.051 && (75 <= pity ==> roll >= 0.006 + 0.06 * (pity - 74) as real)
    ensures 3 <= RollRarity(pity, roll) <= 5
  {
    if pity >= 75 { assert (pity - 74) as real >= 1.0; }
  }

  // Four stars come only before the soft pity: from 75 on the five-star band covers the four-star band.
  lemma FourStarBand(pity: int, roll: real)
    ensures RollRarity(pity, roll) == 4 <==> pity < 75 && 0.006 <= roll < 0.051
  {
    if pity >= 75 { assert (pity - 74) as real >= 1.0; }
  }

  // A longer run never turns a five-star roll into less.
  lemma PityOnlyHelps(pity: int, longer: int, roll: real)
    requires pity <= longer && RollRarity(pity, roll) == 5
    ensures RollRarity(longer, roll) == 5
  {
    if pity >= 75 { assert (longer - 74) as real >= (pity - 74) as real; }
    if pity < 75 <= longer { assert (longer - 74) as real >= 1.0; }
  }

  // A five-star is certain, whatever the roll, exactly from the hard pity on: the soft pity never makes it so.
  lemma CertainExactly(pity: int)
    ensures (forall roll :: 0.0 <= roll < 1.0 ==> RollRarity(pity, roll) == 5) <==> pity >= HARD_PITY
  {
    if pity < HARD_PITY {
      var roll := 0.95;
      assert pity >= 75 ==> (pity - 74) as real <= 14.0;
      assert RollRarity(pity, roll) != 5;
    }
  }

  // ---------------------------------------------------------------- draws

  // One roll of the pity engine and one answer for the weighted draw.
  datatype Dice = Dice(roll: real, answer: int)

  datatype Draw = Drew(item: GachaItem, after: History) | NoDraw(error: DrawError)

  function Fallback(pool: PoolItems, rarity: int): (r: int)
    ensures r <= rarity && (r >= 3 ==> Offers(pool, r))
    ensures forall k {:trigger Offers(pool, k)} :: r < k <= rarity && k >= 3 ==> !Offers(pool, k)
    decreases rarity
  {
    if rarity >= 3 && !Offers(pool, rarity) then Fallback(pool, rarity - 1) else rarity
  }

  // DrawOnceFromPool: the history records the draw only when it succeeds.
  function DrawOne(h: History, pool: PoolItems, d: Dice): Draw {
    var rarity := Fallback(pool, RollRarity(h.pity, d.roll));
    if rarity < 3 then NoDraw(NothingDrawable)
    else
      match DrawFrom(pool, rarity, d.answer)
      case Failed(e) => NoDraw(e)
      case Got(item) => Drew(item, RecordOn(h, item.rarity))
  }

  // The draw gives the entry of the reached rarity that the answer hits, and records that rarity.
  lemma DrawOneHits(h: History, pool: PoolItems, d: Dice, i: nat)
    requires Sorted(pool)
    requires var k := Fallback(pool, RollRarity(h.pity, d.roll));
             k >= 3 && Weighable(ItemsOf(pool, k)) && Hits(ItemsOf(pool, k), i, d.answer)
    ensures var k := Fallback(pool, RollRarity(h.pity, d.roll));
            DrawOne(h, pool, d) == Drew(ItemsOf(pool, k)[i], RecordOn(h, k))
  {
    DrawnEntry(pool, Fallback(pool, RollRarity(h.pity, d.roll)), d.answer, i);
  }

  // No draw for want of any rarity to fall back to, exactly when the pool offers none from three stars up to the roll.
  lemma NothingDrawableExactly(h: History, pool: PoolItems, d: Dice)
    ensures DrawOne(h, pool, d) == NoDraw(NothingDrawable)
       <==> forall k :: 3 <= k <= RollRarity(h.pity, d.roll) ==> !Offers(pool, k)
  {
    var rolled := RollRarity(h.pity, d.roll);
    var reached := Fallback(pool, rolled);
    if reached >= 3 {
      assert Offers(pool, reached);
    } else {
      forall k | 3 <= k <= rolled ensures !Offers(pool, k) { }
    }
  }

  // On a pool that offers five-stars of positive weight, the roll alone decides about a five-star.
  lemma FiveStarExactly(h: History, pool: PoolItems, d: Dice)
    requires Sorted(pool) && Total(ItemsOf(pool, 5)) > 0
    ensures DrawOne(h, pool, d).Drew? && DrawOne(h, pool, d).item.rarity == 5
       <==> h.pity >= 89 || d.roll < 0.006 || (75 <= h.pity && d.roll < 0.006 + 0.06 * (h.pity - 74) as real)
  {
    RollExactly(h.pity, d.roll);
    assert Offers(pool, 5);
    DrawnRarity(pool, Fallback(pool, RollRarity(h.pity, d.roll)), d.answer);
  }

  // The items drawn, and recorded, before the first failure.
  datatype Draws = Draws(after: History, items: seq<GachaItem>, complete: bool)

  // A request of |dice| draws: it stops at the first draw that fails, and keeps the records made before.
  function DrawMany(h: History, pool: PoolItems, dice: seq<Dice>): Draws {
    if dice == [] then Draws(h, [], true)
    else NextDraw(DrawMany(h, pool, dice[..|dice| - 1]), pool, dice[|dice| - 1])
  }

  function NextDraw(before: Draws, pool: PoolItems, d: Dice): Draws {
    if !before.complete then before
    else
      match DrawOne(before.after, pool, d)
      case NoDraw(_) => before.(complete := false)
      case Drew(item, after) => Draws(after, before.items + [item], true)
  }

  // A request draws for all its dice, or for those before the first draw that fails.
  lemma {:induction false} ItemsAreCounted(h: History, pool: PoolItems, dice: seq<Dice>)
    ensures var draws := DrawMany(h, pool, dice);
            if draws.complete then |draws.items| == |dice|
            else |draws.items| < |dice| && DrawOne(draws.after, pool, dice[|draws.items|]).NoDraw?
  {
    if dice != [] { ItemsAreCounted(h, pool, dice[..|dice| - 1]); }
  }

  lemma TakeTwice(dice: seq<Dice>, n: nat, i: nat)
    requires i <= n <= |dice|
    ensures dice[..n][..i] == dice[..i]
  {
  }

  // Item i is what the dice i draw from the history that the draws before it leave.
  lemma {:induction false} EachDrawHasItsDice(h: History, pool: PoolItems, dice: seq<Dice>, i: nat)
    requires i < |DrawMany(h, pool, dice).items|
    ensures i < |dice|
    ensures DrawOne(DrawMany(h, pool, dice[..i]).after, pool, dice[i])
         == Drew(DrawMany(h, pool, dice).items[i], DrawMany(h, pool, dice[..i + 1]).after)
    decreases |dice|
  {
    var n := |dice| - 1;
    var shorter := dice[..n];
    var before := DrawMany(h, pool, shorter);
    ItemsAreCounted(h, pool, dice);
    ItemsAreCounted(h, pool, shorter);
    NextKeepsItems(before, pool, dice[n]);
    if i < |before.items| {
      EachDrawHasItsDice(h, pool, shorter, i);
      TakeTwice(dice, n, i);
      TakeTwice(dice, n, i + 1);
    } else {
      assert i == n && dice[..i] == shorter && dice[..i + 1] == dice;
    }
  }

  lemma NextKeepsItems(before: Draws, pool: PoolItems, d: Dice)
    ensures before.items <= NextDraw(before, pool, d).items
    ensures NextDraw(before, pool, d).items != before.items ==>
              var after := NextDraw(before, pool, d);
              && |after.items| == |before.items| + 1
              && DrawOne(before.after, pool, d) == Drew(after.items[|before.items|], after.after)
  {
  }

  // A player's requests one after the other; each may meet a different pool, or a reloaded one.
  datatype Request = Request(pool: PoolItems, dice: seq<Dice>)

  // What all the requests together drew, and the history they leave.
  function Play(h: History, requests: seq<Request>): (History, seq<GachaItem>) {
    if requests == [] then (h, [])
    else
      var last := |requests| - 1;
      var (before, items) := Play(h, requests[..last]);
      var draws := DrawMany(before, requests[last].pool, requests[last].dice);
      (draws.after, items + draws.items)
  }

  function Rarities(items: seq<GachaItem>): seq<int> {
    seq(|items|, i requires 0 <= i < |items| => items[i].rarity)
  }

  // ---------------------------------------------------------------- the history is the log

  lemma RecordNext(h: History, log: seq<int>, rarity: int)
    ensures RecordAll(h, log + [rarity]) == RecordOn(RecordAll(h, log), rarity)
  {
    assert (log + [rarity])[..|log|] == log;
  }

  lemma {:induction false} DrawsRecordLog(h: History, pool: PoolItems, dice: seq<Dice>)
    ensures DrawMany(h, pool, dice).after == RecordAll(h, Rarities(DrawMany(h, pool, dice).items))
  {
    if dice != [] {
      var before := DrawMany(h, pool, dice[..|dice| - 1]);
      DrawsRecordLog(h, pool, dice[..|dice| - 1]);
      NextRecords(h, before, pool, dice[|dice| - 1]);
    }
  }

  lemma NextRecords(h: History, before: Draws, pool: PoolItems, d: Dice)
    requires before.after == RecordAll(h, Rarities(before.items))
    ensures var draws := NextDraw(before, pool, d); draws.after == RecordAll(h, Rarities(draws.items))
  {
    var draw := DrawOne(before.after, pool, d);
    if before.complete && draw.Drew? {
      assert Rarities(before.items + [draw.item]) == Rarities(before.items) + [draw.item.rarity];
      RecordNext(h, Rarities(before.items), draw.item.rarity);
    }
  }

  lemma {:induction false} RecordAllPity(h: History, log: seq<int>)
    ensures RecordAll(h, log).pity == Pity(h.pity, log)
  {
    if log != [] { RecordAllPity(h, log[..|log| - 1]); }
  }

  lemma {:induction false} RecordAllAppend(h: History, a: seq<int>, b: seq<int>)
    ensures RecordAll(h, a + b) == RecordAll(RecordAll(h, a), b)
  {
    if b == [] {
      assert a + b == a;
    } else {
      assert (a + b)[..|a + b| - 1] == a + b[..|b| - 1];
      RecordAllAppend(h, a, b[..|b| - 1]);
    }
  }

  // Failed requests included, the history is what recording the drawn rarities one by one gives.
  lemma {:induction false} PlayRecordsLog(h: History, requests: seq<Request>)
    ensures Play(h, requests).0 == RecordAll(h, Rarities(Play(h, requests).1))
  {
    if requests != [] {
      var last := |requests| - 1;
      var (before, items) := Play(h, requests[..last]);
      var draws := DrawMany(before, requests[last].pool, requests[last].dice);
      PlayRecordsLog(h, requests[..last]);
      DrawsRecordLog(before, requests[last].pool, requests[last].dice);
      RecordAllAppend(h, Rarities(items), Rarities(draws.items));
      assert Rarities(items + draws.items) == Rarities(items) + Rarities(draws.items);
    }
  }

  // ---------------------------------------------------------------- hard pity

  predicate Within(pity: int) { 0 <= pity <= HARD_PITY }

  ghost predicate PityBounded(start: int, log: seq<int>) {
    forall k {:trigger log[..k]} :: 0 <= k <= |log| ==> Within(Pity(start, log[..k]))
  }

  lemma BoundedNext(start: int, log: seq<int>, rarity: int)
    requires PityBounded(start, log) && (rarity == 5 || Pity(start, log) < HARD_PITY)
    ensures PityBounded(start, log + [rarity])
  {
    var longer := log + [rarity];
    assert log[..|log|] == log;
    forall k | 0 <= k <= |longer| ensures Within(Pity(start, longer[..k])) {
      if k <= |log| {
        assert longer[..k] == log[..k];
      } else {
        assert longer[..k] == longer && longer[..|log|] == log;
      }
    }
  }

  // At the hard pity the next record is a five-star.
  lemma OneDrawBounded(h: History, pool: PoolItems, d: Dice)
    requires Sorted(pool) && Offers(pool, 5) && DrawOne(h, pool, d).Drew?
    ensures DrawOne(h, pool, d).item.rarity == 5 || h.pity < HARD_PITY
  {
    DrawnRarity(pool, Fallback(pool, RollRarity(h.pity, d.roll)), d.answer);
  }

  lemma {:induction false} ManyDrawsBounded(start: int, log: seq<int>, h: History, pool: PoolItems, dice: seq<Dice>)
    requires Sorted(pool) && Offers(pool, 5)
    requires PityBounded(start, log) && Pity(start, log) == h.pity
    ensures PityBounded(start, log + Rarities(DrawMany(h, pool, dice).items))
  {
    if dice == [] {
      assert log + [] == log;
    } else {
      var before, d := DrawMany(h, pool, dice[..|dice| - 1]), dice[|dice| - 1];
      ManyDrawsBounded(start, log, h, pool, dice[..|dice| - 1]);
      DrawsRecordLog(h, pool, dice[..|dice| - 1]);
      RecordAllPity(h, Rarities(before.items));
      PityAppend(start, log, Rarities(before.items));
      NextBounded(start, log, before, pool, d);
    }
  }

  lemma NextBounded(start: int, log: seq<int>, before: Draws, pool: PoolItems, d: Dice)
    requires Sorted(pool) && Offers(pool, 5)
    requires var all := log + Rarities(before.items); PityBounded(start, all) && Pity(start, all) == before.after.pity
    ensures PityBounded(start, log + Rarities(NextDraw(before, pool, d).items))
  {
    var draw := DrawOne(before.after, pool, d);
    if before.complete && draw.Drew? {
      OneDrawBounded(before.after, pool, d);
      BoundedNext(start, log + Rarities(before.items), draw.item.rarity);
      assert log + Rarities(before.items + [draw.item]) == log + Rarities(before.items) + [draw.item.rarity];
    }
  }

  ghost predicate FiveStarPools(requests: seq<Request>) {
    forall i :: 0 <= i < |requests| ==> Sorted(requests[i].pool) && Offers(requests[i].pool, 5)
  }

  lemma {:induction false} PlayBounded(h: History, requests: seq<Request>)
    requires Within(h.pity) && FiveStarPools(requests)
    ensures PityBounded(h.pity, Rarities(Play(h, requests).1))
  {
    if requests != [] {
      var last := |requests| - 1;
      var (before, items) := Play(h, requests[..last]);
      var draws := DrawMany(before, requests[last].pool, requests[last].dice);
      PlayBounded(h, requests[..last]);
      PlayRecordsLog(h, requests[..last]);
      RecordAllPity(h, Rarities(items));
      ManyDrawsBounded(h.pity, Rarities(items), before, requests[last].pool, requests[last].dice);
      assert Rarities(items + draws.items) == Rarities(items) + Rarities(draws.items);
    }
  }

  // The 90 draws from position i on.
  function Window(log: seq<int>, i: nat): seq<int>
    requires i + HARD_PITY < |log|
  {
    log[i..i + HARD_PITY + 1]
  }

  ghost predicate FiveInEveryNinety(log: seq<int>) {
    forall i: nat :: i + HARD_PITY < |log| ==> 5 in Window(log, i)
  }

  lemma BoundedHasFives(start: int, log: seq<int>)
    requires PityBounded(start, log)
    ensures FiveInEveryNinety(log)
  {
    forall i: nat | i + HARD_PITY < |log| ensures 5 in Window(log, i) {
      var window := Window(log, i);
      assert log[..i + HARD_PITY + 1] == log[..i] + window;
      assert Within(Pity(start, log[..i]));
      PityAppend(start, log[..i], window);
      if 5 !in window { PityWithoutFive(Pity(start, log[..i]), window); }
    }
  }

  // Over any requests on pools that hold a five-star, failed ones included: the counter never passes 89, and
  // every 90 consecutive recorded draws contain a five-star.
  lemma HardPity(h: History, requests: seq<Request>)
    requires Within(h.pity) && FiveStarPools(requests)
    ensures Within(Play(h, requests).0.pity)
    ensures FiveInEveryNinety(Rarities(Play(h, requests).1))
  {
    var log := Rarities(Play(h, requests).1);
    PlayBounded(h, requests);
    PlayRecordsLog(h, requests);
    RecordAllPity(h, log);
    assert log[..|log|] == log;
    BoundedHasFives(h.pity, log);
  }

  // ---------------------------------------------------------------- pools that always draw

  // Three stars are offered, and whatever rarity is offered has a positive total weight.
  ghost predicate Drawable(pool: PoolItems) {
    && Sorted(pool)
    && Offers(pool, 3)
    && forall rarity {:trigger Offers(pool, rarity)} ::
         3 <= rarity <= 5 && Offers(pool, rarity) ==> Total(ItemsOf(pool, rarity)) > 0
  }

  // The draw gives the rolled rarity, or the next lower one the pool offers.
  lemma DrawableDraws(h: History, pool: PoolItems, d: Dice)
    requires Drawable(pool)
    ensures DrawOne(h, pool, d).Drew?
    ensures var rolled, got := RollRarity(h.pity, d.roll), DrawOne(h, pool, d).item.rarity;
            3 <= got <= rolled && Offers(pool, got) && forall k :: got < k <= rolled ==> !Offers(pool, k)
  {
    var rolled := RollRarity(h.pity, d.roll);
    assert Offers(pool, 3);
    assert 3 <= Fallback(pool, rolled) <= 5;
    DrawnRarity(pool, Fallback(pool, rolled), d.answer);
  }

  // Drawable pools are exactly those on which no draw ever fails, whatever the pity and the dice.
  lemma DrawableExactly(pool: PoolItems)
    requires Sorted(pool)
    ensures (forall h, d :: DrawOne(h, pool, d).Drew?) <==> Drawable(pool)
  {
    if Drawable(pool) {
      forall h, d ensures DrawOne(h, pool, d).Drew? { DrawableDraws(h, pool, d); }
    } else {
      var bad := if Offers(pool, 5) && Total(ItemsOf(pool, 5)) <= 0 then 5
                 else if Offers(pool, 4) && Total(ItemsOf(pool, 4)) <= 0 then 4 else 3;
      var h, d := EMPTY, Dice(if bad == 5 then 0.0 else if bad == 4 then 0.02 else 0.5, 1);
      assert RollRarity(h.pity, d.roll) == bad;
      assert bad == 3 && !Offers(pool, 3) ==> Fallback(pool, 3) == 2;
      assert DrawOne(h, pool, d).NoDraw?;
    }
  }

  lemma {:induction false} DrawableDrawsAll(h: History, pool: PoolItems, dice: seq<Dice>)
    requires Drawable(pool)
    ensures DrawMany(h, pool, dice).complete && |DrawMany(h, pool, dice).items| == |dice|
    ensures forall i :: 0 <= i < |dice| ==> Offers(pool, DrawMany(h, pool, dice).items[i].rarity)
  {
    if dice != [] {
      var before := DrawMany(h, pool, dice[..|dice| - 1]);
      DrawableDrawsAll(h, pool, dice[..|dice| - 1]);
      DrawableDraws(before.after, pool, dice[|dice| - 1]);
    }
  }

  // A drawable pool keeps the 90-draw promise exactly when it offers a five-star.
  lemma HardPityExactly(pool: PoolItems)
    requires Drawable(pool)
    ensures (forall dice :: FiveInEveryNinety(Rarities(DrawMany(EMPTY, pool, dice).items))) <==> Offers(pool, 5)
  {
    if Offers(pool, 5) {
      forall dice ensures FiveInEveryNinety(Rarities(DrawMany(EMPTY, pool, dice).items)) {
        var log := Rarities(DrawMany(EMPTY, pool, dice).items);
        ManyDrawsBounded(0, [], EMPTY, pool, dice);
        assert [] + log == log;
        BoundedHasFives(0, log);
      }
    } else {
      var dice := seq(HARD_PITY + 1, _ => Dice(0.5, 1));
      var items := DrawMany(EMPTY, pool, dice).items;
      DrawableDrawsAll(EMPTY, pool, dice);
      assert Window(Rarities(items), 0) == Rarities(items);
      assert 5 !in Rarities(items);
      assert !FiveInEveryNinety(Rarities(items));
    }
  }

  // ---------------------------------------------------------------- the methods

  method DrawOnceFromPool(history: GachaHistory, pool: GachaPool, d: Dice) returns (res: Drawn<GachaItem>)
    requires pool.Valid()
    modifies history
    ensures match DrawOne(old(history.Value()), pool.rarityItems, d)
            case Drew(item, after) => res == Got(item) && history.Value() == after
            case NoDraw(e) => res == Failed(e) && history.Value() == old(history.Value())
  {
    var rarity := RollRarity(history.pityCount, d.roll);
    var actualRarity := rarity;
    var offered := pool.HasRarity(actualRarity);
    while actualRarity >= 3 && !offered
      invariant offered == Offers(pool.rarityItems, actualRarity)
      invariant Fallback(pool.rarityItems, rarity) == Fallback(pool.rarityItems, actualRarity)
      decreases actualRarity
      modifies {}
    {
      actualRarity := actualRarity - 1;
      offered := pool.HasRarity(actualRarity);
    }
    if actualRarity < 3 {
      return Failed(NothingDrawable);
    }
    res := pool.DrawByRarity(actualRarity, d.answer);
    if res.Got? {
      history.Record(res.value.rarity);
    }
  }

  // DrawTen; the caller sees either all the items or the failure, and the history keeps what it recorded.
  method DrawTen(history: GachaHistory, pool: GachaPool, dice: seq<Dice>) returns (res: Drawn<seq<GachaItem>>)
    requires pool.Valid() && |dice| == 10
    modifies history
    ensures var draws := DrawMany(old(history.Value()), pool.rarityItems, dice);
            && history.Value() == draws.after
            && res.Got? == draws.complete && (res.Got? ==> res.value == draws.items && |res.value| == 10)
            && (res.Failed? ==> FailsNext(draws, pool.rarityItems, dice, res.error))
  {
    var results := [];
    for i := 0 to 10
      invariant DrawMany(old(history.Value()), pool.rarityItems, dice[..i]) == Draws(history.Value(), results, true)
      invariant |results| == i
    {
      assert dice[..i + 1][..i] == dice[..i];
      var one := DrawOnceFromPool(history, pool, dice[i]);
      if one.Failed? {
        ghost var draws := DrawMany(old(history.Value()), pool.rarityItems, dice[..i + 1]);
        assert FailsNext(draws, pool.rarityItems, dice, one.error);
        FailureStays(old(history.Value()), pool.rarityItems, dice, i + 1);
        return Failed(one.error);
      }
      results := results + [one.value];
    }
    assert dice[..10] == dice;
    res := Got(results);
  }

  // The next draw is the one that fails.
  predicate FailsNext(draws: Draws, pool: PoolItems, dice: seq<Dice>, error: DrawError) {
    |draws.items| < |dice| && DrawOne(draws.after, pool, dice[|draws.items|]) == NoDraw(error)
  }

  lemma {:induction false} FailureStays(h: History, pool: PoolItems, dice: seq<Dice>, k: nat)
    requires k <= |dice| && !DrawMany(h, pool, dice[..k]).complete
    ensures DrawMany(h, pool, dice) == DrawMany(h, pool, dice[..k])
    decreases |dice|
  {
    if k == |dice| {
      assert dice[..k] == dice;
    } else {
      assert dice[..|dice| - 1][..k] == dice[..k];
      FailureStays(h, pool, dice[..|dice| - 1], k);
    }
  }
}
