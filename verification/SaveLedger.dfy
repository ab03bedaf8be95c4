// The books of the currency: memory and database differ by the charges no committed transaction has read, and by
// the charges given up since. They turn "forgotten" into a question about refunds, replies and commits.
module SaveLedger {
  import H = HistoryPersistence
  import opened SavePipeline
  import opened SaveInvariant

  // The charge that the handler has not marked yet.
  function OpenCost(pc: Handler): nat {
    match pc
    case Free | MarkingInventory => 0
    case Drawing(_, _, cost) => cost
    case Recorded(_, _, cost) => cost
    case Granting(_, cost) => cost
    case Granted(_, cost) => cost
    case MarkingCurrency(cost) => cost
  }

  // The charge, if it is of that kind: read by no transaction, by the open one only, or by a committed one.
  function OpenOf(pc: Handler, was: Seen, kind: Seen): nat {
    if was == kind then OpenCost(pc) else 0
  }

  // All open charges of a kind.
  function OpenSum(handlers: seq<Handler>, seen: seq<Seen>, kind: Seen): nat
    requires |handlers| == |seen|
  {
    if handlers == [] then 0 else OpenOf(handlers[0], seen[0], kind) + OpenSum(handlers[1..], seen[1..], kind)
  }

  // now is the balance in memory, base the committed one, last the one that a transaction last read: the open
  // transaction, if it has (open), else the last committed one. In between lie the charges that are open, unsaved
  // or written, and those that have ended.
  predicate Balanced(now: int, last: int, base: int, open: bool, unsaved: nat, written: nat, book: Book) {
    && now == last + book.late.paid + book.late.stray - unsaved
    && last == base + book.read.paid + book.read.stray - written
    && (!open ==> last == base && book.read == NONE && written == 0)
  }

  function LastRead(w: Worker, db: Values): int {
    if Done(w, Currency) then w.staged.currency else db.currency
  }

  ghost predicate Books(now: int, last: int, base: int, open: bool, handlers: seq<Handler>, book: Book) {
    && |handlers| == |book.seen|
    && Balanced(now, last, base, open,
                OpenSum(handlers, book.seen, Unsaved), OpenSum(handlers, book.seen, Written), book)
  }

  ghost predicate BooksInv(s: State) {
    Books(s.mem.currency, LastRead(s.worker, s.db), s.db.currency, Done(s.worker, Currency), s.handlers, s.book)
  }

  // A marked payment that nothing has read is still in a bit or in a save that will read it.
  ghost predicate PaidInv(s: State) {
    s.book.late.paid != 0 ==> Currency in s.dirty || (Currency in Pending(s) && !Done(s.worker, Currency))
  }

  // The changes given up that no committed transaction has read.
  function Stray(book: Book): int {
    book.late.stray + book.read.stray
  }

  // ---------------------------------------------------------------- sums

  lemma {:induction false} OpenUpdate(handlers: seq<Handler>, seen: seq<Seen>, kind: Seen,
                                      h: nat, pc: Handler, was: Seen)
    requires h < |handlers| == |seen|
    ensures OpenSum(handlers[h := pc], seen[h := was], kind) + OpenOf(handlers[h], seen[h], kind)
         == OpenSum(handlers, seen, kind) + OpenOf(pc, was, kind)
  {
    if h == 0 {
      assert handlers[0 := pc][1..] == handlers[1..] && seen[0 := was][1..] == seen[1..];
    } else {
      assert handlers[h := pc][1..] == handlers[1..][h - 1 := pc] && seen[h := was][1..] == seen[1..][h - 1 := was];
      OpenUpdate(handlers[1..], seen[1..], kind, h - 1, pc, was);
    }
  }

  lemma {:induction false} OpenMoves(handlers: seq<Handler>, seen: seq<Seen>, from: Seen, to: Seen)
    requires |handlers| == |seen| && from != to
    ensures var after := WithSeen(seen, from, to);
            && OpenSum(handlers, after, from) == 0
            && OpenSum(handlers, after, to) == OpenSum(handlers, seen, to) + OpenSum(handlers, seen, from)
            && forall kind :: kind != from && kind != to ==>
                 OpenSum(handlers, after, kind) == OpenSum(handlers, seen, kind)
  {
    if handlers != [] {
      assert WithSeen(seen, from, to)[1..] == WithSeen(seen[1..], from, to);
      OpenMoves(handlers[1..], seen[1..], from, to);
    }
  }

  lemma {:induction false} OpenAt(handlers: seq<Handler>, seen: seq<Seen>, kind: Seen, h: nat)
    requires h < |handlers| == |seen|
    ensures OpenOf(handlers[h], seen[h], kind) <= OpenSum(handlers, seen, kind)
  {
    if h > 0 { OpenAt(handlers[1..], seen[1..], kind, h - 1); }
  }

  lemma {:induction false} OpenNone(handlers: seq<Handler>, seen: seq<Seen>, kind: Seen)
    requires |handlers| == |seen| && !HandlerOwes(handlers, Currency)
    ensures OpenSum(handlers, seen, kind) == 0
  {
    if handlers != [] {
      assert handlers[0] in handlers;
      assert forall i :: 0 <= i < |handlers[1..]| ==> handlers[1..][i] == handlers[i + 1];
      OpenNone(handlers[1..], seen[1..], kind);
    }
  }

  // ---------------------------------------------------------------- the worker

  lemma BooksRead(now: int, base: int, handlers: seq<Handler>, book: Book)
    requires Books(now, base, base, false, handlers, book)
    ensures Books(now, now, base, true, handlers, NoteRead(book))
  {
    OpenMoves(handlers, book.seen, Unsaved, Written);
  }

  lemma BooksCommit(now: int, last: int, base: int, handlers: seq<Handler>, book: Book)
    requires Books(now, last, base, true, handlers, book)
    ensures Books(now, last, last, false, handlers, NoteCommit(book))
  {
    OpenMoves(handlers, book.seen, Written, Saved);
  }

  lemma BooksAbort(now: int, last: int, base: int, open: bool, handlers: seq<Handler>, book: Book, marked: bool)
    requires Books(now, last, base, open, handlers, book)
    ensures Books(now, base, base, false, handlers, NoteAbort(book, marked))
  {
    OpenMoves(handlers, book.seen, Written, Unsaved);
  }

  lemma WriteBalances(s: State)
    requires ShapeInv(s) && BooksInv(s) && WorkerEnabled(s, Write(true))
    ensures BooksInv(WriteStep(s))
  {
    var t := WriteStep(s);
    DoneNext(s.worker, t.worker, Currency);
    if s.worker.todo[0] == Currency {
      assert !Done(s.worker, Currency);
      BooksRead(s.mem.currency, s.db.currency, s.handlers, s.book);
      assert t.book == NoteRead(s.book) && LastRead(t.worker, t.db) == s.mem.currency;
    } else {
      assert t.book == s.book && LastRead(t.worker, t.db) == LastRead(s.worker, s.db);
    }
  }

  lemma AbortBalances(s: State)
    requires BooksInv(s) && (s.worker.Popped? || s.worker.Running?)
    ensures BooksInv(Abort(s))
  {
    var t := Abort(s);
    if Currency in s.worker.flags {
      BooksAbort(s.mem.currency, LastRead(s.worker, s.db), s.db.currency, Done(s.worker, Currency), s.handlers, s.book,
                 Currency in s.dirty);
    }
    assert LastRead(t.worker, t.db) == s.db.currency;
  }

  lemma CommitBalances(s: State)
    requires BooksInv(s) && WorkerEnabled(s, Commit(true))
    ensures BooksInv(CommitStep(s, true))
  {
    var t := CommitStep(s, true);
    assert Done(s.worker, Currency) <==> Currency in s.worker.flags;
    if Currency in s.worker.flags {
      BooksCommit(s.mem.currency, s.worker.staged.currency, s.db.currency, s.handlers, s.book);
    }
    assert LastRead(t.worker, t.db) == t.db.currency;
  }

  // A step that leaves the books and what was read alone.
  lemma BooksFrame(s: State, t: State)
    requires BooksInv(s) && t.handlers == s.handlers && t.book == s.book && t.mem == s.mem && t.db == s.db
    requires LastRead(t.worker, t.db) == LastRead(s.worker, s.db)
    requires Done(t.worker, Currency) == Done(s.worker, Currency)
    ensures BooksInv(t)
  {
  }

  lemma ScanBalances(s: State)
    requires ShapeInv(s) && BooksInv(s) && WorkerEnabled(s, Scan)
    ensures BooksInv(ScanStep(s))
  {
    DoneNext(s.worker, s.worker.(todo := s.worker.todo[1..]), Currency);
    BooksFrame(s, ScanStep(s));
  }

  lemma AdvanceBalances(s: State)
    requires ShapeInv(s) && BooksInv(s) && WorkerEnabled(s, Advance)
    ensures BooksInv(WorkerStep(s, Advance))
  {
    DoneNext(s.worker, s.worker.(todo := s.worker.todo[1..]), Currency);
    BooksFrame(s, WorkerStep(s, Advance));
  }

  lemma StartBalances(s: State, ok: bool)
    requires BooksInv(s) && WorkerEnabled(s, Start(ok))
    ensures BooksInv(WorkerStep(s, Start(ok)))
  {
    if ok {
      assert Currency in Plan(s.worker.flags) <==> Currency in s.worker.flags;
      BooksFrame(s, WorkerStep(s, Start(ok)));
    } else {
      AbortBalances(s);
    }
  }

  lemma WorkerBalances(s: State, e: Event)
    requires ShapeInv(s) && BooksInv(s) && WorkerEnabled(s, e)
    ensures BooksInv(WorkerStep(s, e))
  {
    match e
    case Start(ok) => StartBalances(s, ok);
    case Write(ok) => if ok { WriteBalances(s); } else { AbortBalances(s); }
    case Scan => ScanBalances(s);
    case Insert(ok) => InsertBalances(s, ok);
    case Advance => AdvanceBalances(s);
    case Commit(ok) => if ok { CommitBalances(s); } else { RollbackBalances(s); }
    case Pop => BooksFrame(s, WorkerStep(s, Pop));
    case Clear => BooksFrame(s, WorkerStep(s, Clear));
  }

  lemma InsertBalances(s: State, ok: bool)
    requires BooksInv(s) && WorkerEnabled(s, Insert(ok))
    ensures BooksInv(WorkerStep(s, Insert(ok)))
  {
    var t := s.(hist := H.Step(s.hist, H.Insert(ok)));
    BooksFrame(s, t);
    if !ok { AbortBalances(t); }
  }

  lemma RollbackBalances(s: State)
    requires BooksInv(s) && WorkerEnabled(s, Commit(false))
    ensures BooksInv(CommitStep(s, false))
  {
    var t := s.(hist := CommitRows(s.hist, false));
    BooksFrame(s, t);
    AbortBalances(t);
  }

  // ---------------------------------------------------------------- handlers

  // The part of a handler step that concerns the currency: d is the change of the balance.
  ghost predicate Posted(d: int, pc: Handler, next: Handler, book: Book, h: nat, book': Book)
    requires h < |book.seen| == |book'.seen|
  {
    var was, now := book.seen[h], book'.seen[h];
    && book'.seen == book.seen[h := now]
    && d + book.late.paid + book.late.stray + OpenOf(next, now, Unsaved)
       == book'.late.paid + book'.late.stray + OpenOf(pc, was, Unsaved)
    && book'.read.paid + book'.read.stray + OpenOf(pc, was, Written)
       == book.read.paid + book.read.stray + OpenOf(next, now, Written)
    && (OpenOf(pc, was, Written) == 0 ==> book'.read == book.read && OpenOf(next, now, Written) == 0)
  }

  lemma EffectPosts(mem: Values, pc: Handler, e: Event, book: Book, h: nat)
    requires h < |book.seen| && (e.Spend? ==> pc.Free?)
    ensures var x, book' := HandlerEffect(mem, pc, e), NoteHandler(book, h, pc, e);
            |book'.seen| == |book.seen| && Posted(x.mem.currency - mem.currency, pc, x.next, book, h, book')
  {
    assert book.seen[h := book.seen[h]] == book.seen;
  }

  lemma BooksPosted(now: int, d: int, last: int, base: int, open: bool, handlers: seq<Handler>, book: Book,
                    h: nat, next: Handler, book': Book)
    requires Books(now, last, base, open, handlers, book)
    requires h < |handlers| && |book'.seen| == |book.seen| && Posted(d, handlers[h], next, book, h, book')
    ensures Books(now + d, last, base, open, handlers[h := next], book')
  {
    OpenUpdate(handlers, book.seen, Unsaved, h, next, book'.seen[h]);
    OpenUpdate(handlers, book.seen, Written, h, next, book'.seen[h]);
    OpenAt(handlers, book.seen, Written, h);
  }

  lemma HandlerBalances(s: State, e: Event)
    requires BooksInv(s) && HandlerEnabled(s, e)
    ensures BooksInv(HandlerStep(s, e))
  {
    var pc := s.handlers[e.h];
    var x, book := HandlerEffect(s.mem, pc, e), NoteHandler(s.book, e.h, pc, e);
    EffectPosts(s.mem, pc, e, s.book, e.h);
    BooksPosted(s.mem.currency, x.mem.currency - s.mem.currency, LastRead(s.worker, s.db), s.db.currency,
                Done(s.worker, Currency), s.handlers, s.book, e.h, x.next, book);
    var t := HandlerStep(s, e);
    assert t.mem == x.mem && t.handlers == s.handlers[e.h := x.next] && t.book == book;
  }

  // ---------------------------------------------------------------- marked payments

  lemma SaverKeepsPaid(s: State, e: Event)
    requires TokenInv(s) && PaidInv(s) && SaverEnabled(s, e)
    ensures PaidInv(SaverStep(s, e))
  {
  }

  lemma AbortKeepsPaid(s: State)
    requires TokenInv(s) && PaidInv(s) && (s.worker.Popped? || s.worker.Running?)
    ensures PaidInv(Abort(s))
  {
  }

  // A step of the worker that leaves the late payments and the bits alone, and the fetched components its own.
  lemma PaidFrame(s: State, t: State)
    requires TokenInv(s) && PaidInv(s)
    requires t.owner == s.owner && t.dirty == s.dirty && t.book.late.paid == s.book.late.paid
    requires s.worker.Running? && t.worker.Running? && t.worker.flags == s.worker.flags
    requires Done(t.worker, Currency) ==> Done(s.worker, Currency)
    ensures PaidInv(t)
  {
  }

  lemma WriteKeepsPaid(s: State)
    requires TokenInv(s) && ShapeInv(s) && PaidInv(s) && WorkerEnabled(s, Write(true))
    ensures PaidInv(WriteStep(s))
  {
    DoneNext(s.worker, WriteStep(s).worker, Currency);
    if s.worker.todo[0] != Currency { PaidFrame(s, WriteStep(s)); }
  }

  lemma NextKeepsPaid(s: State, t: State)
    requires TokenInv(s) && ShapeInv(s) && PaidInv(s) && AtDraws(s.worker)
    requires t == s.(hist := t.hist, worker := t.worker)
    requires t.worker == s.worker || t.worker == s.worker.(todo := s.worker.todo[1..])
    ensures PaidInv(t)
  {
    DoneNext(s.worker, s.worker.(todo := s.worker.todo[1..]), Currency);
    PaidFrame(s, t);
  }

  lemma StartKeepsPaid(s: State)
    requires TokenInv(s) && PaidInv(s) && WorkerEnabled(s, Start(true))
    ensures PaidInv(WorkerStep(s, Start(true)))
  {
    assert Currency in Plan(s.worker.flags) <==> Currency in s.worker.flags;
  }

  lemma CommitKeepsPaid(s: State, ok: bool)
    requires TokenInv(s) && PaidInv(s) && WorkerEnabled(s, Commit(ok))
    ensures PaidInv(CommitStep(s, ok))
  {
    if !ok { AbortKeepsPaid(s.(hist := CommitRows(s.hist, false))); }
  }

  lemma WorkerKeepsPaid(s: State, e: Event)
    requires TokenInv(s) && ShapeInv(s) && PaidInv(s) && WorkerEnabled(s, e)
    ensures PaidInv(WorkerStep(s, e))
  {
    match e
    case Pop =>
    case Start(ok) => if ok { StartKeepsPaid(s); } else { AbortKeepsPaid(s); }
    case Write(ok) => if ok { WriteKeepsPaid(s); } else { AbortKeepsPaid(s); }
    case Scan => NextKeepsPaid(s, ScanStep(s));
    case Insert(ok) => InsertKeepsPaid(s, ok);
    case Advance => NextKeepsPaid(s, WorkerStep(s, Advance));
    case Commit(ok) => CommitKeepsPaid(s, ok);
    case Clear =>
  }

  lemma InsertKeepsPaid(s: State, ok: bool)
    requires TokenInv(s) && ShapeInv(s) && PaidInv(s) && WorkerEnabled(s, Insert(ok))
    ensures PaidInv(WorkerStep(s, Insert(ok)))
  {
    var t := s.(hist := H.Step(s.hist, H.Insert(ok)));
    NextKeepsPaid(s, t);
    if !ok { AbortKeepsPaid(t); }
  }

  // Only a mark makes a payment, and it sets the bit.
  lemma EffectPays(mem: Values, pc: Handler, e: Event, book: Book, h: nat)
    ensures NoteHandler(book, h, pc, e).late.paid == book.late.paid || Currency in HandlerEffect(mem, pc, e).mark
  {
  }

  lemma HandlerKeepsPaid(s: State, e: Event)
    requires PaidInv(s) && HandlerEnabled(s, e)
    ensures PaidInv(HandlerStep(s, e))
  {
    EffectPays(s.mem, s.handlers[e.h], e, s.book, e.h);
  }
}
