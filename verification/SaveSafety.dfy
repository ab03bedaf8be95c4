// What the pipeline guarantees over whole runs, and exactly when it forgets a change.
module SaveSafety {
  import opened Runs
  import opened GachaHistories
  import H = HistoryPersistence
  import opened SavePipeline
  import opened SaveInvariant
  import opened SaveLedger

  // Whoever owes the currency has charged something.
  ghost predicate CostInv(s: State) {
    forall h {:trigger s.handlers[h]} :: 0 <= h < |s.handlers| && Currency in Owes(s.handlers[h]) ==>
      OpenCost(s.handlers[h]) > 0
  }

  ghost predicate Inv(s: State) {
    TokenInv(s) && ShapeInv(s) && HistInv(s) && RestInv(s) && BooksInv(s) && PaidInv(s) && CostInv(s)
  }

  // ---------------------------------------------------------------- every run keeps it

  lemma StepKeepsCosts(s: State, e: Event)
    requires CostInv(s) && Enabled(s, e)
    ensures CostInv(Step(s, e))
  {
  }

  lemma StepKeepsBooks(s: State, e: Event)
    requires TokenInv(s) && ShapeInv(s) && BooksInv(s) && PaidInv(s) && Enabled(s, e)
    ensures BooksInv(Step(s, e)) && PaidInv(Step(s, e))
  {
    if SaverEnabled(s, e) {
      BooksFrame(s, SaverStep(s, e));
      SaverKeepsPaid(s, e);
    } else if WorkerEnabled(s, e) {
      WorkerBalances(s, e);
      WorkerKeepsPaid(s, e);
    } else {
      HandlerBalances(s, e);
      HandlerKeepsPaid(s, e);
    }
  }

  lemma StepKeeps(s: State, e: Event)
    requires Inv(s) && Enabled(s, e) && |Step(s, e).hist.log| + 1 < SEQ_LIMIT
    ensures Inv(Step(s, e))
  {
    StepKeepsToken(s, e);
    StepKeepsShape(s, e);
    StepKeepsHist(s, e);
    StepKeepsRest(s, e);
    StepKeepsBooks(s, e);
    StepKeepsCosts(s, e);
  }

  lemma InitialHolds(s: State)
    requires Initial(s) && |s.hist.log| + 1 < SEQ_LIMIT
    ensures Inv(s) && forall c :: Same(s, c)
  {
    H.StartHolds(s.hist.log, s.loaded);
    OpenNone(s.handlers, s.book.seen, Unsaved);
    OpenNone(s.handlers, s.book.seen, Written);
    H.TailAbove(s.hist.log, 0, s.loaded);
    assert H.Numbered(s.hist.log)[0..] == H.Numbered(s.hist.log);
  }

  lemma {:induction false} RunKeeps(s: State, events: seq<Event>)
    requires Initial(s) && Legal(s, events) && |Exec(s, events).hist.log| + 1 < SEQ_LIMIT
    ensures Inv(Exec(s, events)) && Exec(s, events).loaded == s.loaded
    ensures s.hist.log <= Exec(s, events).hist.log
  {
    if events == [] {
      InitialHolds(s);
    } else {
      var before, e := Exec(s, Init(events)), Last(events);
      LogGrows(before, e);
      RunKeeps(s, Init(events));
      StepKeeps(before, e);
    }
  }

  lemma LogGrows(s: State, e: Event)
    requires Enabled(s, e)
    ensures s.hist.log <= Step(s, e).hist.log && Step(s, e).loaded == s.loaded
  {
    HistoryStep(s, e);
  }

  // ---------------------------------------------------------------- one save at a time

  predicate Outstanding(s: State, o: Owner) {
    match o
    case Nobody => false
    case BySaver(i) => i < |s.savers| && !s.savers[i].Ready?
    case InQueue => s.queue != []
    case ByWorker => !s.worker.Waiting?
  }

  lemma {:induction false} RunKeepsToken(s: State, events: seq<Event>)
    requires Initial(s) && Legal(s, events)
    ensures TokenInv(Exec(s, events))
  {
    if events != [] {
      RunKeepsToken(s, Init(events));
      StepKeepsToken(Exec(s, Init(events)), Last(events));
    }
  }

  // The saving bit is set exactly while one save is outstanding, and two never coexist.
  lemma OneSave(s0: State, events: seq<Event>)
    requires Initial(s0) && Legal(s0, events)
    ensures var s := Exec(s0, events);
            && (s.saving <==> exists o :: Outstanding(s, o))
            && (forall o, o' :: Outstanding(s, o) && Outstanding(s, o') ==> o == o')
            && |s.queue| <= 1
  {
    RunKeepsToken(s0, events);
    var s := Exec(s0, events);
    if s.saving { assert Outstanding(s, s.owner); }
  }

  // ---------------------------------------------------------------- when memory and database agree

  // A currency that nothing knows of differs exactly by the changes given up and not saved since.
  lemma CurrencyExactly(s: State)
    requires Inv(s) && !Known(s, Currency)
    ensures Same(s, Currency) <==> Stray(s.book) == 0
  {
    PendingIsInSave(s, Currency);
    OpenNone(s.handlers, s.book.seen, Unsaved);
  }

  // With no save of it running, every draw above base is stored exactly when none is missing below the watermark
  // and none is behind it.
  lemma StoredExactly(h: H.State, base: nat)
    requires H.Inv(h) && h.save.Idle? && base <= |h.log|
    ensures After(h.table, base) == After(H.Numbered(h.log), base)
       <==> H.Whole(h, base) && |h.log| <= Max(h.history.persistedSeq, base)
  {
    var mark := h.history.persistedSeq;
    assert h.table + H.Marked(h) == h.table;
    H.RowsAbove(h.log, h.table, base, mark);
    H.TailAbove(h.log, 0, base);
    assert H.Numbered(h.log)[0..] == H.Numbered(h.log);
    assert |H.Numbered(h.log)[base..]| == |h.log| - base;
    if mark < base { assert After(h.table, base) == []; }
  }

  lemma DrawsExactly(s: State)
    requires Inv(s) && !Known(s, Draws)
    ensures Same(s, Draws) <==> H.Whole(s.hist, s.loaded) && |s.hist.log| <= Max(s.hist.history.persistedSeq, s.loaded)
  {
    StoredExactly(s.hist, s.loaded);
  }

  // ---------------------------------------------------------------- the steps that forget

  // Somebody else than handler h knows of the currency.
  ghost predicate OthersKnow(s: State, h: nat) {
    || Currency in s.dirty
    || InSave(s, Currency)
    || exists k :: 0 <= k < |s.handlers| && k != h && Currency in Owes(s.handlers[k])
  }

  // A failed statement forgets what its save had fetched, if it differs from the database and is neither marked
  // again nor owed by a handler.
  ghost predicate FailForgets(s: State, c: Comp) {
    && (s.worker.Popped? || s.worker.Running?) && c in s.worker.flags
    && !MarkedOrOwed(s, c) && !Same(s, c)
  }

  // A successful COMMIT forgets a charge given up after the transaction had read the balance, and draws that
  // some step of the history's save has lost before; never items.
  ghost predicate CommitForgets(s: State, c: Comp) {
    && s.worker.Running? && c in s.worker.flags && !MarkedOrOwed(s, c)
    && match c
       case Currency => s.book.late.stray != 0
       case Inventory => false
       case Draws => !H.Whole(s.hist, s.loaded)
  }

  // A refund forgets when a committed transaction has read the balance since the charge; a reply that does not
  // serialize, when none has. Strays of earlier such steps that nothing has saved since add up with it.
  ghost predicate Forgets(s: State, e: Event, c: Comp)
    requires Enabled(s, e)
  {
    match e
    case Start(ok) => !ok && FailForgets(s, c)
    case Write(ok) => !ok && FailForgets(s, c)
    case Insert(ok) => !ok && FailForgets(s, c)
    case Commit(ok) => if ok then CommitForgets(s, c) else FailForgets(s, c)
    case Refund(h) =>
      c == Currency && !OthersKnow(s, h)
      && Stray(s.book) + (if SeenOf(s.book, h) == Saved then OpenCost(s.handlers[h]) else 0) != 0
    case Serialize(h, ok) =>
      c == Currency && !ok && !OthersKnow(s, h)
      && Stray(s.book) - (if SeenOf(s.book, h) == Saved then 0 else OpenCost(s.handlers[h])) != 0
    case _ => false
  }

  lemma SaverCovers(s: State, e: Event, c: Comp)
    requires TokenInv(s) && SaverEnabled(s, e) && Covered(s, c)
    ensures Covered(SaverStep(s, e), c)
  {
    var s' := SaverStep(s, e);
    SaverKeepsToken(s, e);
    PendingIsInSave(s, c);
    PendingIsInSave(s', c);
  }

  // Steps of the worker inside a transaction change neither memory nor the database.
  lemma QuietStepCovers(s: State, e: Event, c: Comp)
    requires Inv(s) && WorkerEnabled(s, e) && Covered(s, c)
    requires e.Pop? || e.Scan? || e.Advance? || e.Clear? || ((e.Start? || e.Write? || e.Insert?) && e.ok)
    ensures Covered(WorkerStep(s, e), c)
  {
    var s' := WorkerStep(s, e);
    WorkerKeepsToken(s, e);
    PendingIsInSave(s, c);
    PendingIsInSave(s', c);
    assert s'.hist.table == s.hist.table && s'.hist.log == s.hist.log;
  }

  lemma FailCovers(s: State, e: Event, c: Comp)
    requires Inv(s) && WorkerEnabled(s, e) && Covered(s, c)
    requires (e.Start? || e.Write? || e.Insert? || e.Commit?) && !e.ok
    ensures !Covered(WorkerStep(s, e), c) <==> FailForgets(s, c)
  {
    var s' := WorkerStep(s, e);
    WorkerKeepsToken(s, e);
    PendingIsInSave(s, c);
    PendingIsInSave(s', c);
    assert s'.hist.table == s.hist.table && s'.hist.log == s.hist.log;
  }

  lemma CommitCovers(s: State, c: Comp)
    requires Inv(s) && WorkerEnabled(s, Commit(true)) && Covered(s, c) && Inv(CommitStep(s, true))
    ensures !Covered(CommitStep(s, true), c) <==> CommitForgets(s, c)
  {
    var s' := CommitStep(s, true);
    PendingIsInSave(s, c);
    PendingIsInSave(s', c);
    if c in s.worker.flags {
      if !MarkedOrOwed(s, c) { CommitForgetsExactly(s, c); }
    } else {
      assert Same(s', c) <==> Same(s, c);
    }
  }

  lemma CommitForgetsExactly(s: State, c: Comp)
    requires Inv(s) && WorkerEnabled(s, Commit(true)) && Inv(CommitStep(s, true))
    requires c in s.worker.flags && !MarkedOrOwed(s, c)
    ensures !Same(CommitStep(s, true), c) <==> CommitForgets(s, c)
  {
    var s' := CommitStep(s, true);
    PendingIsInSave(s', c);
    match c {
      case Currency => CurrencyExactly(s');
      case Inventory =>
      case Draws =>
        DrawsExactly(s');
        H.CommitKeeps(s.hist, true, s.loaded);
    }
  }

  // What a handler gives up is booked as stray.
  lemma StrayAfter(book: Book, h: nat, pc: Handler, e: Event)
    requires h < |book.seen| && GivesUp(e) && (e.Refund? ==> pc.Drawing?) && (e.Serialize? ==> pc.Granting?)
    ensures Stray(NoteHandler(book, h, pc, e))
         == if e.Refund? then Stray(book) + (if SeenOf(book, h) == Saved then OpenCost(pc) else 0)
            else Stray(book) - if SeenOf(book, h) == Saved then 0 else OpenCost(pc)
  {
  }

  lemma GiveUpCovers(s: State, e: Event)
    requires Inv(s) && HandlerEnabled(s, e) && GivesUp(e) && Inv(HandlerStep(s, e))
    ensures !Covered(HandlerStep(s, e), Currency) <==> Forgets(s, e, Currency)
  {
    var s', pc := HandlerStep(s, e), s.handlers[e.h];
    OwedByNext(s.handlers, e.h, HandlerEffect(s.mem, pc, e).next, Currency);
    PendingIsInSave(s, Currency);
    PendingIsInSave(s', Currency);
    assert Known(s', Currency) <==> OthersKnow(s, e.h);
    StrayAfter(s.book, e.h, pc, e);
    if !Known(s', Currency) { CurrencyExactly(s'); }
  }

  lemma HandlerCovers(s: State, e: Event, c: Comp)
    requires Inv(s) && HandlerEnabled(s, e) && Covered(s, c) && !(c == Currency && GivesUp(e)) && Inv(HandlerStep(s, e))
    ensures Covered(HandlerStep(s, e), c)
  {
    var s' := HandlerStep(s, e);
    StillMarked(s, e, c);
    PendingIsInSave(s, c);
    PendingIsInSave(s', c);
    HandlerKeepsTable(s, e);
  }

  lemma HandlerKeepsTable(s: State, e: Event)
    requires HandlerEnabled(s, e)
    ensures HandlerStep(s, e).hist.table == s.hist.table
  {
  }

  // In every reachable state these steps, and no others, forget a change that was covered.
  lemma ForgetsExactly(s: State, e: Event, c: Comp)
    requires Inv(s) && Enabled(s, e) && Covered(s, c) && |Step(s, e).hist.log| + 1 < SEQ_LIMIT
    ensures !Covered(Step(s, e), c) <==> Forgets(s, e, c)
  {
    StepKeeps(s, e);
    if SaverEnabled(s, e) {
      SaverCovers(s, e, c);
    } else if WorkerEnabled(s, e) {
      WorkerCovers(s, e, c);
    } else if c == Currency && GivesUp(e) {
      GiveUpCovers(s, e);
    } else {
      HandlerCovers(s, e, c);
    }
  }

  lemma WorkerCovers(s: State, e: Event, c: Comp)
    requires Inv(s) && WorkerEnabled(s, e) && Covered(s, c) && Inv(WorkerStep(s, e))
    ensures !Covered(WorkerStep(s, e), c) <==> Forgets(s, e, c)
  {
    if (e.Start? || e.Write? || e.Insert? || e.Commit?) && !e.ok {
      FailCovers(s, e, c);
    } else if e.Commit? {
      CommitCovers(s, c);
    } else {
      QuietStepCovers(s, e, c);
    }
  }

  // ---------------------------------------------------------------- dirty cover

  ghost predicate NeverForgets(s0: State, events: seq<Event>, c: Comp)
    requires Legal(s0, events)
  {
    events == [] || (NeverForgets(s0, Init(events), c) && !Forgets(Exec(s0, Init(events)), Last(events), c))
  }

  ghost predicate AlwaysCovered(s0: State, events: seq<Event>, c: Comp)
    requires Legal(s0, events)
  {
    Covered(Exec(s0, events), c) && (events == [] || AlwaysCovered(s0, Init(events), c))
  }

  // Dirty cover, over every interleaving: in all states of a run memory that differs from the committed database
  // has its bit set, or belongs to the outstanding save, or to a handler between change and mark, if and only if
  // no step of the run is one of those that forget.
  lemma {:induction false} DirtyCoverExactly(s0: State, events: seq<Event>, c: Comp)
    requires Initial(s0) && Legal(s0, events) && |Exec(s0, events).hist.log| + 1 < SEQ_LIMIT
    ensures AlwaysCovered(s0, events, c) <==> NeverForgets(s0, events, c)
  {
    if events == [] {
      InitialHolds(s0);
    } else {
      var s, e := Exec(s0, Init(events)), Last(events);
      LogGrows(s, e);
      DirtyCoverExactly(s0, Init(events), c);
      RunKeeps(s0, Init(events));
      if AlwaysCovered(s0, Init(events), c) {
        assert Covered(s, c);
        ForgetsExactly(s, e, c);
      }
    }
  }

  ghost predicate Quiet(s: State) {
    && !s.saving && s.dirty == {}
    && forall h {:trigger s.handlers[h]} :: 0 <= h < |s.handlers| ==> Owes(s.handlers[h]) == {}
  }

  // Once nothing is dirty, saving or half done, the database holds the component, unless a step forgot it.
  lemma QuietMeansSaved(s0: State, events: seq<Event>, c: Comp)
    requires Initial(s0) && Legal(s0, events) && |Exec(s0, events).hist.log| + 1 < SEQ_LIMIT
    requires Quiet(Exec(s0, events)) && NeverForgets(s0, events, c)
    ensures Same(Exec(s0, events), c)
  {
    DirtyCoverExactly(s0, events, c);
    RunKeepsToken(s0, events);
    PendingIsInSave(Exec(s0, events), c);
  }
}
