// What draws do to the balance and the items of a player while saves run beside them: nobody pays more than he
// has, no value appears or vanishes, and the inventory is the items drawn.
module SaveValues {
  import opened Counting
  import opened Runs
  import opened SavePipeline
  import opened SaveInvariant

  // ---------------------------------------------------------------- one handler

  // The charge is 160 for every draw asked for, made or still to be made, until the items are granted.
  predicate ChargeFits(pc: Handler) {
    match pc
    case Drawing(left, items, cost) => left > 0 && cost == 160 * (left + |items|) && (cost == 160 || cost == 1600)
    case Recorded(left, items, cost) => items != [] && cost == 160 * (left + |items|) && (cost == 160 || cost == 1600)
    case Granting(items, cost) => 160 * |items| <= cost && (cost == 160 || cost == 1600)
    case Granted(items, cost) => 160 * |items| < cost && (cost == 160 || cost == 1600)
    case MarkingCurrency(cost) => cost == 160 || cost == 1600
    case _ => true
  }

  // What a handler has taken from the balance and not yet turned into items.
  function WorthOf(pc: Handler): nat {
    match pc
    case Drawing(_, _, cost) => cost
    case Recorded(_, _, cost) => cost
    case Granting(items, _) => 160 * |items|
    case Granted(items, _) => 160 * |items|
    case _ => 0
  }

  function ItemsOf(pc: Handler): seq<int> {
    match pc
    case Drawing(_, items, _) => items
    case Recorded(_, items, _) => items
    case Granting(items, _) => items
    case Granted(items, _) => items
    case _ => []
  }

  function HeldOf(pc: Handler, item: int): nat {
    multiset(ItemsOf(pc))[item]
  }

  lemma EffectFits(mem: Values, pc: Handler, e: Event)
    requires ChargeFits(pc)
    ensures ChargeFits(HandlerEffect(mem, pc, e).next)
  {
  }

  // The event is one the handler can take, as far as its items matter.
  predicate Suits(pc: Handler, e: Event) {
    && (e.Draw? || e.Refund? ==> pc.Drawing?)
    && (e.Serialize? ==> pc.Granting? && pc.items == [])
  }

  lemma EffectConserves(mem: Values, pc: Handler, e: Event)
    requires ChargeFits(pc) && Suits(pc, e)
    ensures var x := HandlerEffect(mem, pc, e);
            x.mem.currency + 160 * |x.mem.inventory| + WorthOf(x.next)
            == mem.currency + 160 * |mem.inventory| + WorthOf(pc)
  {
  }

  lemma EffectStaysPositive(mem: Values, pc: Handler, e: Event)
    requires mem.currency >= 0
    ensures HandlerEffect(mem, pc, e).mem.currency >= 0
  {
  }

  lemma DrawMoves(mem: Values, pc: Handler, e: Event)
    requires e.Draw? && pc.Drawing?
    ensures var x := HandlerEffect(mem, pc, e);
            x.mem == mem && multiset(ItemsOf(x.next)) == multiset(ItemsOf(pc)) + multiset{e.item}
  {
  }

  lemma GrantMoves(mem: Values, pc: Handler, e: Event)
    requires e.Grant? && pc.Granting? && pc.items != []
    ensures var x := HandlerEffect(mem, pc, e);
            x.mem.inventory + multiset(ItemsOf(x.next)) == mem.inventory + multiset(ItemsOf(pc))
  {
    assert pc.items == [pc.items[0]] + pc.items[1..];
  }

  lemma NothingMoves(mem: Values, pc: Handler, e: Event)
    requires Suits(pc, e) && !e.Draw? && !e.Grant?
    ensures var x := HandlerEffect(mem, pc, e);
            x.mem.inventory == mem.inventory && ItemsOf(x.next) == if e.Refund? then [] else ItemsOf(pc)
  {
  }

  // Items come from draws, and go into the inventory one by one, or are given up by a refund.
  lemma EffectMovesItems(mem: Values, pc: Handler, e: Event, item: int)
    requires Suits(pc, e)
    ensures var x := HandlerEffect(mem, pc, e);
            x.mem.inventory[item] + HeldOf(x.next, item)
            == mem.inventory[item] + HeldOf(pc, item) + (if e.Draw? && e.item == item then 1 else 0)
               - if e.Refund? then HeldOf(pc, item) else 0
  {
    var x := HandlerEffect(mem, pc, e);
    if e.Draw? {
      DrawMoves(mem, pc, e);
    } else if e.Grant? && pc.Granting? && pc.items != [] {
      GrantMoves(mem, pc, e);
      assert (x.mem.inventory + multiset(ItemsOf(x.next)))[item] == (mem.inventory + multiset(ItemsOf(pc)))[item];
    } else if !e.Grant? {
      NothingMoves(mem, pc, e);
    }
  }

  // A charge takes 160 for each draw and starts with none made, or is refused and changes nothing.
  lemma SpendsExactly(s: State, h: nat, ten: bool)
    requires Enabled(s, Spend(h, ten))
    ensures var n, t := if ten then 10 else 1, Step(s, Spend(h, ten));
            && t.db == s.db && t.hist == s.hist && t.dirty == s.dirty && t.worker == s.worker
            && if s.mem.currency >= 160 * n then
                 && t.mem == s.mem.(currency := s.mem.currency - 160 * n)
                 && t.handlers == s.handlers[h := Drawing(n, [], 160 * n)]
               else t.mem == s.mem && t.handlers == s.handlers
  {
  }

  // The bits a handler sets: for the history after each record, for the inventory after each grant and at the
  // end, for the balance only once the reply is made.
  lemma MarksExactly(s: State, e: Event)
    requires HandlerEnabled(s, e)
    ensures Enabled(s, e)
    ensures Step(s, e).dirty == s.dirty + match e
                                          case MarkDraw(_) => {Draws}
                                          case MarkGrant(_) => {Inventory}
                                          case MarkPaid(_) => {Currency}
                                          case MarkItems(_) => {Inventory}
                                          case _ => {}
  {
  }

  // ---------------------------------------------------------------- steps

  ghost predicate ChargesInv(s: State) {
    forall h {:trigger s.handlers[h]} :: 0 <= h < |s.handlers| ==> ChargeFits(s.handlers[h])
  }

  // No balance is negative: in memory, in the open transaction, in the database.
  predicate Solvent(s: State) {
    s.mem.currency >= 0 && s.db.currency >= 0 && (s.worker.Running? ==> s.worker.staged.currency >= 0)
  }

  function Worths(): Handler -> nat {
    (pc: Handler) => WorthOf(pc)
  }

  function Held(item: int): Handler -> nat {
    (pc: Handler) => HeldOf(pc, item)
  }

  function Total(mem: Values, handlers: seq<Handler>): int {
    mem.currency + 160 * |mem.inventory| + Sum(Worths(), handlers)
  }

  // Who is a handler's step and who is not.
  lemma OthersLeaveValues(s: State, e: Event)
    requires Enabled(s, e) && !HandlerEnabled(s, e)
    ensures Step(s, e).mem == s.mem && Step(s, e).handlers == s.handlers
  {
  }

  lemma HandlersTakeSteps(s: State, e: Event)
    requires HandlerEnabled(s, e)
    ensures Enabled(s, e) && Step(s, e) == HandlerStep(s, e)
    ensures var x := HandlerEffect(s.mem, s.handlers[e.h], e);
            Step(s, e).mem == x.mem && Step(s, e).handlers == s.handlers[e.h := x.next]
  {
  }

  lemma StepKeepsCharges(s: State, e: Event)
    requires Enabled(s, e) && ChargesInv(s)
    ensures ChargesInv(Step(s, e))
  {
    if HandlerEnabled(s, e) {
      HandlersTakeSteps(s, e);
      EffectFits(s.mem, s.handlers[e.h], e);
    } else {
      OthersLeaveValues(s, e);
    }
  }

  lemma StepStaysSolvent(s: State, e: Event)
    requires Enabled(s, e) && Solvent(s)
    ensures Solvent(Step(s, e))
  {
    if HandlerEnabled(s, e) { EffectStaysPositive(s.mem, s.handlers[e.h], e); }
  }

  lemma UpdateConserves(mem: Values, handlers: seq<Handler>, h: nat, e: Event)
    requires h < |handlers| && ChargeFits(handlers[h]) && Suits(handlers[h], e)
    ensures var x := HandlerEffect(mem, handlers[h], e); Total(x.mem, handlers[h := x.next]) == Total(mem, handlers)
  {
    var x := HandlerEffect(mem, handlers[h], e);
    EffectConserves(mem, handlers[h], e);
    SumUpdate(Worths(), handlers, h, x.next);
  }

  lemma StepConserves(s: State, e: Event)
    requires Enabled(s, e) && ChargesInv(s)
    ensures Total(Step(s, e).mem, Step(s, e).handlers) == Total(s.mem, s.handlers)
  {
    if HandlerEnabled(s, e) {
      HandlersTakeSteps(s, e);
      UpdateConserves(s.mem, s.handlers, e.h, e);
    } else {
      OthersLeaveValues(s, e);
    }
  }

  // How often a step has drawn the item, less what it gave up of it.
  function Yield(s: State, e: Event, item: int): int {
    if e.Draw? && e.item == item then 1
    else if e.Refund? && e.h < |s.handlers| then 0 - HeldOf(s.handlers[e.h], item)
    else 0
  }

  lemma UpdateMovesItems(mem: Values, handlers: seq<Handler>, h: nat, e: Event, item: int)
    requires h < |handlers| && Suits(handlers[h], e)
    ensures var x := HandlerEffect(mem, handlers[h], e);
            x.mem.inventory[item] + Sum(Held(item), handlers[h := x.next])
            == mem.inventory[item] + Sum(Held(item), handlers) + (if e.Draw? && e.item == item then 1 else 0)
               - if e.Refund? then HeldOf(handlers[h], item) else 0
  {
    var x := HandlerEffect(mem, handlers[h], e);
    EffectMovesItems(mem, handlers[h], e, item);
    SumUpdate(Held(item), handlers, h, x.next);
  }

  lemma StepMovesItems(s: State, e: Event, item: int)
    requires Enabled(s, e)
    ensures Step(s, e).mem.inventory[item] + Sum(Held(item), Step(s, e).handlers)
         == s.mem.inventory[item] + Sum(Held(item), s.handlers) + Yield(s, e, item)
  {
    if HandlerEnabled(s, e) {
      HandlersTakeSteps(s, e);
      UpdateMovesItems(s.mem, s.handlers, e.h, e, item);
    } else {
      OthersLeaveValues(s, e);
    }
  }

  // ---------------------------------------------------------------- runs

  lemma {:induction false} RunKeepsCharges(s0: State, events: seq<Event>)
    requires Initial(s0) && Legal(s0, events)
    ensures ChargesInv(Exec(s0, events))
  {
    if events != [] {
      RunKeepsCharges(s0, Init(events));
      StepKeepsCharges(Exec(s0, Init(events)), Last(events));
    }
  }

  // From a balance that is not negative no balance ever becomes so, in memory, in a transaction or in the database.
  lemma {:induction false} NeverOverdrawn(s0: State, events: seq<Event>)
    requires Initial(s0) && Legal(s0, events) && s0.mem.currency >= 0
    ensures Solvent(Exec(s0, events))
  {
    if events != [] {
      NeverOverdrawn(s0, Init(events));
      StepStaysSolvent(Exec(s0, Init(events)), Last(events));
    }
  }

  // A charge is 160 for every draw made or still to be made, over every run, until its items are granted.
  lemma ChargeIsTheDraws(s0: State, events: seq<Event>, h: nat)
    requires Initial(s0) && Legal(s0, events) && h < |Exec(s0, events).handlers|
    ensures var pc := Exec(s0, events).handlers[h];
            && (pc.Drawing? || pc.Recorded? ==> pc.cost == 160 * (pc.left + |pc.items|))
            && (pc.Drawing? || pc.Recorded? || pc.Granting? || pc.Granted? || pc.MarkingCurrency? ==>
                  pc.cost == 160 || pc.cost == 1600)
  {
    RunKeepsCharges(s0, events);
    assert ChargeFits(Exec(s0, events).handlers[h]);
  }

  // The balance in memory, 160 for every item there and what the handlers carry never change together: whatever
  // saves fail, no draw is free and a refund gives back exactly the charge.
  lemma {:induction false} ValueIsConserved(s0: State, events: seq<Event>)
    requires Initial(s0) && Legal(s0, events)
    ensures Total(Exec(s0, events).mem, Exec(s0, events).handlers) == s0.mem.currency + 160 * |s0.mem.inventory|
  {
    if events == [] {
      SumZero(Worths(), s0.handlers);
    } else {
      RunKeepsCharges(s0, Init(events));
      ValueIsConserved(s0, Init(events));
      StepConserves(Exec(s0, Init(events)), Last(events));
    }
  }

  function Yielded(s0: State, events: seq<Event>, item: int): int
    requires Legal(s0, events)
  {
    if events == [] then 0
    else Yielded(s0, Init(events), item) + Yield(Exec(s0, Init(events)), Last(events), item)
  }

  // The inventory in memory gains every item drawn and not refunded, once, but for those still to be granted.
  lemma {:induction false} InventoryIsTheDraws(s0: State, events: seq<Event>, item: int)
    requires Initial(s0) && Legal(s0, events)
    ensures Exec(s0, events).mem.inventory[item] + Sum(Held(item), Exec(s0, events).handlers)
         == s0.mem.inventory[item] + Yielded(s0, events, item)
  {
    if events == [] {
      SumZero(Held(item), s0.handlers);
    } else {
      InventoryIsTheDraws(s0, Init(events), item);
      StepMovesItems(Exec(s0, Init(events)), Last(events), item);
    }
  }

  // ---------------------------------------------------------------- a request on its own

  // What a handler leaves alone.
  predicate Aside(s: State, t: State, h: nat)
    requires h < |s.handlers|
  {
    && |t.handlers| == |s.handlers| && t.handlers == s.handlers[h := t.handlers[h]]
    && t.db == s.db && t.worker == s.worker && t.savers == s.savers && t.queue == s.queue && t.saving == s.saving
  }

  // One step of handler h: what it makes of its own values, of the log and of the bits.
  lemma Moves(s0: State, s: State, e: Event) returns (t: State)
    requires Reaches(s0, s) && HandlerEnabled(s, e)
    ensures Reaches(s0, t) && Aside(s, t, e.h)
    ensures var x := HandlerEffect(s.mem, s.handlers[e.h], e);
            && t.mem == x.mem && t.handlers[e.h] == x.next && t.dirty == s.dirty + x.mark
            && (x.drawn == [] ==> t.hist == s.hist) && (x.drawn != [] ==> t.hist.log == s.hist.log + [x.drawn[0]])
  {
    HandlersTakeSteps(s, e);
    Take(s0, s, e);
    t := HandlerStep(s, e);
  }

  lemma OneDraw(s0: State, s: State, h: nat, item: int, rarity: int) returns (t: State)
    requires Reaches(s0, s) && h < |s.handlers| && s.handlers[h].Drawing? && s.handlers[h].left > 0
    ensures Reaches(s0, t) && Aside(s, t, h) && t.mem == s.mem && t.dirty == s.dirty + {Draws}
    ensures t.hist.log == s.hist.log + [rarity]
    ensures var Drawing(left, got, cost) := s.handlers[h];
            t.handlers[h] == if left == 1 then Granting(got + [item], cost) else Drawing(left - 1, got + [item], cost)
  {
    var recorded := Moves(s0, s, Draw(h, item, rarity));
    t := Moves(s0, recorded, MarkDraw(h));
  }

  lemma FirstAndRest(before: seq<int>, xs: seq<int>)
    requires xs != []
    ensures before + [xs[0]] + xs[1..] == before + xs
    ensures |xs| == 1 ==> before + [xs[0]] == before + xs
  {
  }

  lemma {:induction false} DrawsFinish(s0: State, s: State, h: nat, items: seq<int>, rarities: seq<int>)
    returns (t: State)
    requires Reaches(s0, s) && h < |s.handlers| && s.handlers[h].Drawing? && s.handlers[h].left == |items| > 0
    requires |rarities| == |items|
    ensures Reaches(s0, t) && Aside(s, t, h) && t.mem == s.mem && t.dirty == s.dirty + {Draws}
    ensures t.handlers[h] == Granting(s.handlers[h].items + items, s.handlers[h].cost)
    ensures t.hist.log == s.hist.log + rarities
    decreases |items|
  {
    t := OneDraw(s0, s, h, items[0], rarities[0]);
    var got, log := s.handlers[h].items, s.hist.log;
    FirstAndRest(got, items);
    FirstAndRest(log, rarities);
    if |items| > 1 { t := DrawsFinish(s0, t, h, items[1..], rarities[1..]); }
  }

  lemma OneGrant(s0: State, s: State, h: nat) returns (t: State)
    requires Reaches(s0, s) && h < |s.handlers| && s.handlers[h].Granting? && s.handlers[h].items != []
    ensures Reaches(s0, t) && Aside(s, t, h) && t.hist == s.hist && t.dirty == s.dirty + {Inventory}
    ensures var Granting(items, cost) := s.handlers[h];
            && t.handlers[h] == Granting(items[1..], cost)
            && t.mem == s.mem.(inventory := s.mem.inventory + multiset{items[0]})
  {
    var given := Moves(s0, s, Grant(h));
    t := Moves(s0, given, MarkGrant(h));
  }

  lemma FirstGranted(inventory: multiset<int>, items: seq<int>)
    requires items != []
    ensures inventory + multiset{items[0]} + multiset(items[1..]) == inventory + multiset(items)
  {
    assert items == [items[0]] + items[1..];
  }

  lemma {:induction false} GrantsFinish(s0: State, s: State, h: nat) returns (t: State)
    requires Reaches(s0, s) && h < |s.handlers| && s.handlers[h].Granting?
    ensures Reaches(s0, t) && Aside(s, t, h) && t.hist == s.hist
    ensures t.handlers[h] == Granting([], s.handlers[h].cost)
    ensures t.mem == s.mem.(inventory := s.mem.inventory + multiset(s.handlers[h].items))
    ensures t.dirty == s.dirty + if s.handlers[h].items == [] then {} else {Inventory}
    decreases |s.handlers[h].items|
  {
    var items := s.handlers[h].items;
    if items == [] {
      t := s;
    } else {
      FirstGranted(s.mem.inventory, items);
      t := OneGrant(s0, s, h);
      t := GrantsFinish(s0, t, h);
    }
  }

  lemma ReplyFinishes(s0: State, s: State, h: nat) returns (t: State)
    requires Reaches(s0, s) && h < |s.handlers| && s.handlers[h].Granting? && s.handlers[h].items == []
    ensures Reaches(s0, t) && Aside(s, t, h) && t.handlers[h].Free? && t.mem == s.mem && t.hist == s.hist
    ensures t.dirty == s.dirty + {Currency, Inventory}
  {
    t := Moves(s0, s, Serialize(h, true));
    t := Moves(s0, t, MarkPaid(h));
    t := Moves(s0, t, MarkItems(h));
  }

  // From the charge on.
  lemma PaidFinishes(s0: State, s: State, h: nat, items: seq<int>, rarities: seq<int>) returns (t: State)
    requires Reaches(s0, s) && h < |s.handlers| && s.handlers[h].Drawing? && s.handlers[h].items == []
    requires s.handlers[h].left == |items| == |rarities| > 0
    ensures Reaches(s0, t) && Aside(s, t, h) && t.handlers[h].Free? && t.dirty == s.dirty + ALL
    ensures t.mem == s.mem.(inventory := s.mem.inventory + multiset(items)) && t.hist.log == s.hist.log + rarities
  {
    t := DrawsFinish(s0, s, h, items, rarities);
    assert [] + items == items;
    t := GrantsFinish(s0, t, h);
    t := ReplyFinishes(s0, t, h);
    assert s.dirty + {Draws} + {Inventory} + {Currency, Inventory} == s.dirty + ALL;
  }

  // A whole request with nothing in between, wherever the savers stand: one or ten draws are paid, recorded,
  // granted and marked, and the handler is free again.
  lemma RequestFinishes(s: State, h: nat, ten: bool, items: seq<int>, rarities: seq<int>) returns (t: State)
    requires h < |s.handlers| && s.handlers[h].Free? && |items| == |rarities| == (if ten then 10 else 1)
    requires s.mem.currency >= 160 * |items|
    ensures Reaches(s, t) && Aside(s, t, h) && t.handlers == s.handlers && t.dirty == s.dirty + ALL
    ensures t.mem == Values(s.mem.currency - 160 * |items|, s.mem.inventory + multiset(items))
    ensures t.hist.log == s.hist.log + rarities
  {
    assert Reaches(s, s) by { assert Legal(s, []) && Exec(s, []) == s; }
    var charged := Moves(s, s, Spend(h, ten));
    t := PaidFinishes(s, charged, h, items, rarities);
    assert t.handlers[h] == s.handlers[h];
  }
}
