// The write-behind pipeline of one player object: draw handlers change it and set dirty bits, savers take the
// saving bit and the dirty bits and queue a save, the database worker runs each as one transaction. Every access
// that another thread can fall between is a step. Currency and inventory are written whole; the draw history goes
// through the incremental save of HistoryPersistence, which is a part of this machine.
module SavePipeline {
  import opened Runs
  import opened GachaHistories
  import H = HistoryPersistence
  import Wallets

  datatype Comp = Currency | Inventory | Draws

  // What is written whole: the same shape in memory, in the open transaction and in the committed database.
  datatype Values = Values(currency: int, inventory: multiset<int>)

  const ALL: set<Comp> := {Currency, Inventory, Draws}

  // A thread in AsyncSavePlayer.
  datatype Saver = Ready | Marked(force: bool) | Holding(flags: set<Comp>)

  // The database worker: PlayerSaver::Save works through todo, then COMMIT, then ClearSaving.
  datatype Worker =
    | Waiting
    | Popped(flags: set<Comp>)
    | Running(flags: set<Comp>, todo: seq<Comp>, staged: Values)
    | Clearing

  // A thread in HandleGacha or HandleGachaTen, from the charge on; items are drawn and not yet granted.
  datatype Handler =
    | Free
    | Drawing(left: nat, items: seq<int>, cost: nat)
    | Recorded(left: nat, items: seq<int>, cost: nat)
    | Granting(items: seq<int>, cost: nat)
    | Granted(items: seq<int>, cost: nat)
    | MarkingCurrency(cost: nat)
    | MarkingInventory

  // Who answers for the saving bit. A history variable: no step depends on it.
  datatype Owner = Nobody | BySaver(i: nat) | InQueue | ByWorker

  // History variables about the currency. Per handler: whether a transaction has written the currency since its
  // charge, and whether that was committed. And the change by charges that have ended, marked or given up, which
  // no transaction has read (late) or which only the open one has (read).
  datatype Seen = Unsaved | Written | Saved
  datatype Net = Net(paid: int, stray: int)
  datatype Book = Book(seen: seq<Seen>, late: Net, read: Net)

  // loaded counts the draws that were read back when the object was created.
  datatype State = State(
    mem: Values, loaded: nat, hist: H.State, dirty: set<Comp>, saving: bool, handlers: seq<Handler>,
    savers: seq<Saver>, queue: seq<set<Comp>>, worker: Worker, db: Values, owner: Owner, book: Book)

  datatype Event =
    | TryMark(i: nat, force: bool) | Fetch(i: nat) | Submit(i: nat)
    | Pop | Start(ok: bool) | Write(ok: bool) | Scan | Insert(ok: bool) | Advance | Commit(ok: bool) | Clear
    | Spend(h: nat, ten: bool) | Draw(h: nat, item: int, rarity: int) | MarkDraw(h: nat) | Refund(h: nat)
    | Grant(h: nat) | MarkGrant(h: nat) | Serialize(h: nat, ok: bool) | MarkPaid(h: nat) | MarkItems(h: nat)

  // ---------------------------------------------------------------- savers

  predicate SaverEnabled(s: State, e: Event) {
    match e
    case TryMark(i, _) => i < |s.savers| && s.savers[i].Ready?
    case Fetch(i) => i < |s.savers| && s.savers[i].Marked?
    case Submit(i) => i < |s.savers| && s.savers[i].Holding?
    case _ => false
  }

  // AsyncSavePlayer: the compare-exchange of the saving bit, the exchange of the dirty bits, the push.
  function SaverStep(s: State, e: Event): State
    requires SaverEnabled(s, e)
  {
    match e
    case TryMark(i, force) =>
      if s.saving then s else s.(saving := true, savers := s.savers[i := Marked(force)], owner := BySaver(i))
    case Fetch(i) =>
      s.(dirty := {}, savers := s.savers[i := Holding(s.dirty + if s.savers[i].force then ALL else {})])
    case Submit(i) =>
      var flags, savers := s.savers[i].flags, s.savers[i := Ready];
      if flags == {} then s.(saving := false, savers := savers, owner := Nobody)
      else s.(queue := s.queue + [flags], savers := savers, owner := InQueue)
  }

  // ---------------------------------------------------------------- the worker

  function Plan(flags: set<Comp>): seq<Comp> {
    (if Currency in flags then [Currency] else [])
    + (if Inventory in flags then [Inventory] else [])
    + if Draws in flags then [Draws] else []
  }

  predicate AtDraws(w: Worker) {
    w.Running? && w.todo != [] && w.todo[0] == Draws
  }

  predicate WorkerEnabled(s: State, e: Event) {
    match e
    case Pop => s.worker.Waiting? && s.queue != []
    case Start(_) => s.worker.Popped?
    case Write(_) => s.worker.Running? && s.worker.todo != [] && s.worker.todo[0] != Draws
    case Scan => AtDraws(s.worker) && H.Enabled(s.hist, H.Begin)
    case Insert(ok) => AtDraws(s.worker) && H.Enabled(s.hist, H.Insert(ok))
    case Advance => AtDraws(s.worker) && H.Enabled(s.hist, H.Mark)
    case Commit(_) => s.worker.Running? && s.worker.todo == []
    case Clear => s.worker.Clearing?
    case _ => false
  }

  function Copy(from: Values, to: Values, c: Comp): Values {
    match c
    case Currency => to.(currency := from.currency)
    case Inventory => to.(inventory := from.inventory)
    case Draws => to
  }

  function WithSeen(seen: seq<Seen>, from: Seen, to: Seen): seq<Seen> {
    seq(|seen|, i requires 0 <= i < |seen| => if seen[i] == from then to else seen[i])
  }

  const NONE := Net(0, 0)

  function Plus(a: Net, b: Net): Net {
    Net(a.paid + b.paid, a.stray + b.stray)
  }

  // The open transaction reads the currency.
  function NoteRead(book: Book): Book {
    Book(WithSeen(book.seen, Unsaved, Written), NONE, Plus(book.late, book.read))
  }

  function NoteCommit(book: Book): Book {
    Book(WithSeen(book.seen, Written, Saved), book.late, NONE)
  }

  // A failed save gives up the payments it had fetched, unless the currency is marked again.
  function NoteAbort(book: Book, marked: bool): Book {
    var all := Plus(book.late, book.read);
    Book(WithSeen(book.seen, Written, Unsaved), if marked then all else Net(0, all.paid + all.stray), NONE)
  }

  // A failed statement rolls the transaction back; the fetched bits are not put back.
  function Abort(s: State): State
    requires s.worker.Popped? || s.worker.Running?
  {
    s.(worker := Clearing,
       book := if Currency in s.worker.flags then NoteAbort(s.book, Currency in s.dirty) else s.book)
  }

  // COMMIT of the history rows, if the transaction has any.
  function CommitRows(h: H.State, ok: bool): H.State {
    if h.save.Committing? then H.Step(h, H.Commit(ok)) else h
  }

  function Committed(s: State): Values
    requires s.worker.Running?
  {
    Values(if Currency in s.worker.flags then s.worker.staged.currency else s.db.currency,
           if Inventory in s.worker.flags then s.worker.staged.inventory else s.db.inventory)
  }

  function WriteStep(s: State): State
    requires WorkerEnabled(s, Write(true))
  {
    var c := s.worker.todo[0];
    s.(worker := s.worker.(todo := s.worker.todo[1..], staged := Copy(s.mem, s.worker.staged, c)),
       book := if c == Currency then NoteRead(s.book) else s.book)
  }

  function ScanStep(s: State): State
    requires WorkerEnabled(s, Scan)
  {
    var hist := H.Step(s.hist, H.Begin);
    s.(hist := hist, worker := if hist.save.Committing? then s.worker.(todo := s.worker.todo[1..]) else s.worker)
  }

  function CommitStep(s: State, ok: bool): State
    requires WorkerEnabled(s, Commit(ok))
  {
    var t := s.(hist := CommitRows(s.hist, ok));
    if ok then t.(worker := Clearing, db := Committed(s),
                   book := if Currency in s.worker.flags then NoteCommit(s.book) else s.book)
    else Abort(t)
  }

  function WorkerStep(s: State, e: Event): State
    requires WorkerEnabled(s, e)
  {
    match e
    case Pop => s.(queue := s.queue[1..], worker := Popped(s.queue[0]), owner := ByWorker)
    case Start(ok) => if ok then s.(worker := Running(s.worker.flags, Plan(s.worker.flags), s.db)) else Abort(s)
    case Write(ok) => if ok then WriteStep(s) else Abort(s)
    case Scan => ScanStep(s)
    case Insert(ok) =>
      var t := s.(hist := H.Step(s.hist, H.Insert(ok)));
      if ok then t else Abort(t)
    case Advance => s.(hist := H.Step(s.hist, H.Mark), worker := s.worker.(todo := s.worker.todo[1..]))
    case Commit(ok) => CommitStep(s, ok)
    case Clear => s.(worker := Waiting, saving := false, owner := Nobody)
  }

  // ---------------------------------------------------------------- handlers

  predicate HandlerEnabled(s: State, e: Event) {
    match e
    case Spend(h, _) => h < |s.handlers| && s.handlers[h].Free?
    case Draw(h, _, _) => h < |s.handlers| && s.handlers[h].Drawing? && s.handlers[h].left > 0
    case MarkDraw(h) => h < |s.handlers| && s.handlers[h].Recorded?
    case Refund(h) => h < |s.handlers| && s.handlers[h].Drawing? && s.handlers[h].left > 0
    case Grant(h) => h < |s.handlers| && s.handlers[h].Granting? && s.handlers[h].items != []
    case MarkGrant(h) => h < |s.handlers| && s.handlers[h].Granted?
    case Serialize(h, _) => h < |s.handlers| && s.handlers[h].Granting? && s.handlers[h].items == []
    case MarkPaid(h) => h < |s.handlers| && s.handlers[h].MarkingCurrency?
    case MarkItems(h) => h < |s.handlers| && s.handlers[h].MarkingInventory?
    case _ => false
  }

  // What the handler does to memory, the rarity it records, the bit it sets, and where it goes.
  datatype Effect = Effect(mem: Values, drawn: seq<int>, mark: set<Comp>, next: Handler)

  function HandlerEffect(mem: Values, pc: Handler, e: Event): Effect {
    match (e, pc)
    case (Spend(_, ten), Free) =>
      var n := if ten then 10 else 1;
      if mem.currency >= Wallets.DRAW_COST * n then
        Effect(mem.(currency := mem.currency - Wallets.DRAW_COST * n), [], {}, Drawing(n, [], Wallets.DRAW_COST * n))
      else Effect(mem, [], {}, Free)
    case (Draw(_, item, rarity), Drawing(left, items, cost)) =>
      Effect(mem, [rarity], {}, Recorded(if left > 0 then left - 1 else 0, items + [item], cost))
    case (MarkDraw(_), Recorded(left, items, cost)) =>
      Effect(mem, [], {Draws}, if left > 0 then Drawing(left, items, cost) else Granting(items, cost))
    case (Refund(_), Drawing(_, _, cost)) => Effect(mem.(currency := mem.currency + cost), [], {}, Free)
    case (Grant(_), Granting(items, cost)) =>
      if items == [] then Effect(mem, [], {}, pc)
      else Effect(mem.(inventory := mem.inventory + multiset{items[0]}), [], {}, Granted(items[1..], cost))
    case (MarkGrant(_), Granted(items, cost)) => Effect(mem, [], {Inventory}, Granting(items, cost))
    case (Serialize(_, ok), Granting(_, cost)) => Effect(mem, [], {}, if ok then MarkingCurrency(cost) else Free)
    case (MarkPaid(_), MarkingCurrency(_)) => Effect(mem, [], {Currency}, MarkingInventory)
    case (MarkItems(_), MarkingInventory) => Effect(mem, [], {Inventory}, Free)
    case _ => Effect(mem, [], {}, pc)
  }

  function SeenOf(book: Book, h: nat): Seen {
    if h < |book.seen| then book.seen[h] else Saved
  }

  // The charge of a handler and its end, as the book has it.
  function NoteHandler(book: Book, h: nat, pc: Handler, e: Event): Book {
    match (e, pc)
    case (Spend(_, _), _) => if h < |book.seen| then book.(seen := book.seen[h := Unsaved]) else book
    case (MarkPaid(_), MarkingCurrency(cost)) =>
      (match SeenOf(book, h)
       case Unsaved => book.(late := Plus(book.late, Net(0 - cost, 0)))
       case Written => book.(read := Plus(book.read, Net(0 - cost, 0)))
       case Saved => book)
    case (Serialize(_, ok), Granting(_, cost)) =>
      if ok then book
      else
        (match SeenOf(book, h)
         case Unsaved => book.(late := Plus(book.late, Net(0, 0 - cost)))
         case Written => book.(read := Plus(book.read, Net(0, 0 - cost)))
         case Saved => book)
    case (Refund(_), Drawing(_, _, cost)) =>
      (match SeenOf(book, h)
       case Unsaved => book
       case Written => book.(late := Plus(book.late, Net(0, cost)), read := Plus(book.read, Net(0, 0 - cost)))
       case Saved => book.(late := Plus(book.late, Net(0, cost))))
    case _ => book
  }

  function HandlerStep(s: State, e: Event): State
    requires HandlerEnabled(s, e)
  {
    var pc := s.handlers[e.h];
    var x := HandlerEffect(s.mem, pc, e);
    s.(mem := x.mem, hist := if x.drawn == [] then s.hist else H.Step(s.hist, H.Draw(x.drawn[0])),
       dirty := s.dirty + x.mark, handlers := s.handlers[e.h := x.next], book := NoteHandler(s.book, e.h, pc, e))
  }

  // ---------------------------------------------------------------- runs

  predicate Enabled(s: State, e: Event) {
    SaverEnabled(s, e) || WorkerEnabled(s, e) || HandlerEnabled(s, e)
  }

  function Step(s: State, e: Event): State
    requires Enabled(s, e)
  {
    if SaverEnabled(s, e) then SaverStep(s, e)
    else if WorkerEnabled(s, e) then WorkerStep(s, e)
    else HandlerStep(s, e)
  }

  // A player object just loaded: memory and database agree, nothing runs. The draws read back are in the database
  // already, so this object has none of its own and has stored none.
  predicate Initial(s: State) {
    && s.mem == s.db && s.hist == H.Start(s.hist.log) && s.loaded == |s.hist.log|
    && s.dirty == {} && !s.saving && s.queue == [] && s.worker.Waiting? && s.owner.Nobody?
    && s.book == Book(seq(|s.handlers|, _ => Saved), NONE, NONE)
    && (forall i :: 0 <= i < |s.savers| ==> s.savers[i].Ready?)
    && forall h :: 0 <= h < |s.handlers| ==> s.handlers[h].Free?
  }

  predicate Legal(s: State, events: seq<Event>)
    decreases |events|, 0
  {
    events == [] || (Legal(s, Init(events)) && Enabled(Exec(s, Init(events)), Last(events)))
  }

  function Exec(s: State, events: seq<Event>): State
    requires Legal(s, events)
    decreases |events|, 1
  {
    if events == [] then s else Step(Exec(s, Init(events)), Last(events))
  }

  ghost predicate Reaches(s: State, t: State) {
    exists events :: Legal(s, events) && Exec(s, events) == t
  }

  lemma Take(s: State, t: State, e: Event)
    requires Reaches(s, t) && Enabled(t, e)
    ensures Reaches(s, Step(t, e))
  {
    var events :| Legal(s, events) && Exec(s, events) == t;
    assert Init(events + [e]) == events;
    assert Legal(s, events + [e]) && Exec(s, events + [e]) == Step(t, e);
  }

  // ---------------------------------------------------------------- what is covered

  // Memory and the committed database agree: the values are equal; every draw of this object is in the table,
  // once and in order.
  predicate Same(s: State, c: Comp) {
    match c
    case Currency => s.mem.currency == s.db.currency
    case Inventory => s.mem.inventory == s.db.inventory
    case Draws => After(s.hist.table, s.loaded) == After(H.Numbered(s.hist.log), s.loaded)
  }

  function Owes(pc: Handler): set<Comp> {
    match pc
    case Free | MarkingInventory => {}
    case Drawing(_, _, _) | Granting(_, _) | MarkingCurrency(_) => {Currency}
    case Recorded(_, _, _) => {Currency, Draws}
    case Granted(_, _) => {Currency, Inventory}
  }

  ghost predicate HandlerOwes(handlers: seq<Handler>, c: Comp) {
    exists h {:trigger handlers[h]} :: 0 <= h < |handlers| && c in Owes(handlers[h])
  }

  // The component belongs to a save that has fetched it and has not committed it: in AsyncSavePlayer, in a
  // queued save, or in the popped save or open transaction of the worker.
  ghost predicate InSave(s: State, c: Comp) {
    || (exists i {:trigger s.savers[i]} :: 0 <= i < |s.savers| && s.savers[i].Holding? && c in s.savers[i].flags)
    || (exists k {:trigger s.queue[k]} :: 0 <= k < |s.queue| && c in s.queue[k])
    || ((s.worker.Popped? || s.worker.Running?) && c in s.worker.flags)
  }

  // Something knows that the component may differ from the database.
  ghost predicate Known(s: State, c: Comp) {
    c in s.dirty || InSave(s, c) || HandlerOwes(s.handlers, c)
  }

  // A difference that nothing knows of is forgotten.
  ghost predicate Covered(s: State, c: Comp) {
    Same(s, c) || Known(s, c)
  }
}
