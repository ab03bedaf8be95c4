// What every step of the pipeline keeps: one outstanding save, the shape of its history part, and that what the
// open transaction holds is what memory holds unless a bit or a handler says otherwise.
module SaveInvariant {
  import opened GachaHistories
  import H = HistoryPersistence
  import opened SavePipeline

  // ---------------------------------------------------------------- the saving bit is a token

  ghost predicate SaversAct(savers: seq<Saver>, owner: Owner) {
    forall i {:trigger savers[i]} :: 0 <= i < |savers| ==> (!savers[i].Ready? <==> owner == BySaver(i))
  }

  ghost predicate TokenInv(s: State) {
    && SaversAct(s.savers, s.owner)
    && (s.owner.BySaver? ==> s.owner.i < |s.savers|)
    && |s.queue| == (if s.owner.InQueue? then 1 else 0)
    && (!s.worker.Waiting? <==> s.owner.ByWorker?)
    && (s.saving <==> !s.owner.Nobody?)
  }

  lemma StepKeepsToken(s: State, e: Event)
    requires TokenInv(s) && Enabled(s, e)
    ensures TokenInv(Step(s, e))
  {
    if SaverEnabled(s, e) {
      SaverKeepsToken(s, e);
    } else if WorkerEnabled(s, e) {
      WorkerKeepsToken(s, e);
    }
  }

  lemma SaverKeepsToken(s: State, e: Event)
    requires TokenInv(s) && SaverEnabled(s, e)
    ensures TokenInv(SaverStep(s, e))
  {
  }

  lemma WorkerKeepsToken(s: State, e: Event)
    requires TokenInv(s) && WorkerEnabled(s, e)
    ensures TokenInv(WorkerStep(s, e))
  {
  }

  // The components the outstanding save has fetched and not yet committed.
  function Pending(s: State): set<Comp> {
    match s.owner
    case Nobody => {}
    case BySaver(i) => if i < |s.savers| && s.savers[i].Holding? then s.savers[i].flags else {}
    case InQueue => if s.queue != [] then s.queue[0] else {}
    case ByWorker => if s.worker.Popped? || s.worker.Running? then s.worker.flags else {}
  }

  lemma PendingIsInSave(s: State, c: Comp)
    requires TokenInv(s)
    ensures c in Pending(s) <==> InSave(s, c)
  {
    if c in Pending(s) {
      match s.owner {
        case Nobody =>
        case BySaver(i) => assert c in s.savers[i].flags;
        case InQueue => assert c in s.queue[0];
        case ByWorker =>
      }
    }
  }

  // ---------------------------------------------------------------- the shape of a transaction

  // What is left to write was fetched, each component once, and the history comes last.
  predicate Planned(flags: set<Comp>, todo: seq<Comp>) {
    && (forall i {:trigger todo[i]} :: 0 <= i < |todo| ==> todo[i] in flags)
    && (Draws in flags && todo != [] ==> todo[|todo| - 1] == Draws)
    && forall i, j {:trigger todo[i], todo[j]} :: 0 <= i < j < |todo| ==> todo[i] != todo[j]
  }

  // The open transaction has written the component.
  predicate Done(w: Worker, c: Comp) {
    w.Running? && c in w.flags && c !in w.todo
  }

  predicate ShapeInv(s: State) {
    && (s.worker.Running? ==> Planned(s.worker.flags, s.worker.todo))
    && match s.hist.save
       case Idle => !Done(s.worker, Draws)
       case Inserting(_, _) => AtDraws(s.worker)
       case Committing => Done(s.worker, Draws)
  }

  lemma DoneNext(w: Worker, next: Worker, c: Comp)
    requires w.Running? && w.todo != [] && Planned(w.flags, w.todo)
    requires next.Running? && next.flags == w.flags && next.todo == w.todo[1..]
    ensures Planned(next.flags, next.todo)
    ensures Done(next, c) <==> Done(w, c) || c == w.todo[0]
    ensures w.todo[0] == Draws ==> next.todo == []
  {
    assert w.todo == [w.todo[0]] + w.todo[1..];
    assert w.todo[0] in w.flags;
    assert forall i :: 0 <= i < |w.todo[1..]| ==> w.todo[1..][i] == w.todo[i + 1];
  }

  lemma StepKeepsShape(s: State, e: Event)
    requires TokenInv(s) && ShapeInv(s) && H.Inv(s.hist) && Enabled(s, e)
    ensures ShapeInv(Step(s, e))
  {
    if !SaverEnabled(s, e) && WorkerEnabled(s, e) { WorkerKeepsShape(s, e); }
  }

  lemma WorkerKeepsShape(s: State, e: Event)
    requires TokenInv(s) && ShapeInv(s) && H.Inv(s.hist) && WorkerEnabled(s, e)
    ensures ShapeInv(WorkerStep(s, e))
  {
    match e
    case Write(ok) => if ok { DoneNext(s.worker, WriteStep(s).worker, Draws); }
    case Scan => ScanKeepsShape(s);
    case Advance => DoneNext(s.worker, s.worker.(todo := s.worker.todo[1..]), Draws);
    case Commit(ok) => assert s.worker.todo == [];
    case _ =>
  }

  lemma ScanKeepsShape(s: State)
    requires TokenInv(s) && ShapeInv(s) && WorkerEnabled(s, Scan)
    ensures ShapeInv(ScanStep(s))
  {
    if ScanStep(s).hist.save.Committing? { DoneNext(s.worker, ScanStep(s).worker, Draws); }
  }

  // ---------------------------------------------------------------- the history part

  ghost predicate HistInv(s: State) {
    H.Inv(s.hist) && s.loaded <= |s.hist.log|
  }

  // The history part of a step, if it has one.
  function HistoryEvents(s: State, e: Event): seq<H.Event>
    requires Enabled(s, e)
  {
    match e
    case Scan => [H.Begin]
    case Insert(ok) => [H.Insert(ok)]
    case Advance => [H.Mark]
    case Commit(ok) => if s.hist.save.Committing? then [H.Commit(ok)] else []
    case Draw(_, _, rarity) => [H.Draw(rarity)]
    case _ => []
  }

  // The history of the pipeline takes exactly these steps of the incremental save.
  lemma HistoryStep(s: State, e: Event)
    requires Enabled(s, e)
    ensures var es := HistoryEvents(s, e);
            && (es == [] ==> Step(s, e).hist == s.hist)
            && (es != [] ==> es == [es[0]] && H.Enabled(s.hist, es[0]) && Step(s, e).hist == H.Step(s.hist, es[0]))
    ensures Step(s, e).loaded == s.loaded
  {
  }

  lemma StepKeepsHist(s: State, e: Event)
    requires HistInv(s) && Enabled(s, e) && |Step(s, e).hist.log| + 1 < SEQ_LIMIT
    ensures HistInv(Step(s, e)) && s.hist.log <= Step(s, e).hist.log
  {
    HistoryStep(s, e);
    var es := HistoryEvents(s, e);
    if es != [] { H.StepKeeps(s.hist, es[0], s.loaded); }
  }

  // ---------------------------------------------------------------- what the open transaction holds

  ghost predicate MarkedOrOwed(s: State, c: Comp) {
    c in s.dirty || HandlerOwes(s.handlers, c)
  }

  // A charge is given up by a refund and by a reply that does not serialize.
  predicate GivesUp(e: Event) {
    e.Refund? || (e.Serialize? && !e.ok)
  }

  // A handler owes what it changes, and stops owing only what it marks, or a charge it gives up.
  lemma EffectOwed(mem: Values, pc: Handler, e: Event, c: Comp)
    ensures var x := HandlerEffect(mem, pc, e);
            && (c in Owes(pc) ==> c in Owes(x.next) || c in x.mark || (c == Currency && GivesUp(e)))
            && (x.mem.inventory != mem.inventory ==> Inventory in Owes(x.next))
            && (x.drawn != [] ==> Draws in Owes(x.next))
            && (x.mem.currency != mem.currency ==> Currency in Owes(x.next) || e.Refund?)
  {
  }

  lemma OwedByNext(handlers: seq<Handler>, h: nat, next: Handler, c: Comp)
    requires h < |handlers|
    ensures HandlerOwes(handlers[h := next], c) <==>
      c in Owes(next) || exists k :: 0 <= k < |handlers| && k != h && c in Owes(handlers[k])
  {
    var after := handlers[h := next];
    assert after[h] == next;
    if k :| 0 <= k < |handlers| && k != h && c in Owes(handlers[k]) { assert after[k] == handlers[k]; }
  }

  lemma StillMarked(s: State, e: Event, c: Comp)
    requires HandlerEnabled(s, e)
    ensures var s' := HandlerStep(s, e);
            && (MarkedOrOwed(s, c) ==> MarkedOrOwed(s', c) || (c == Currency && GivesUp(e)))
            && (s'.mem.inventory != s.mem.inventory ==> MarkedOrOwed(s', Inventory))
            && (s'.hist.log != s.hist.log ==> MarkedOrOwed(s', Draws))
            && (s'.mem.currency != s.mem.currency ==> MarkedOrOwed(s', Currency) || e.Refund?)
  {
    var pc := s.handlers[e.h];
    var next := HandlerEffect(s.mem, pc, e).next;
    EffectOwed(s.mem, pc, e, c);
    OwedByNext(s.handlers, e.h, next, c);
    OwedByNext(s.handlers, e.h, next, Inventory);
    OwedByNext(s.handlers, e.h, next, Draws);
    OwedByNext(s.handlers, e.h, next, Currency);
    EffectOwed(s.mem, pc, e, Inventory);
  }

  ghost predicate ItemsInv(s: State) {
    Done(s.worker, Inventory) ==> s.worker.staged.inventory == s.mem.inventory || MarkedOrOwed(s, Inventory)
  }

  // The last draw that the running save will have passed.
  function Reach(h: H.State): nat {
    if h.save.Inserting? && h.save.snapshot != [] then h.save.snapshot[|h.save.snapshot| - 1].number
    else h.history.persistedSeq
  }

  ghost predicate DrawsInv(s: State) {
    s.hist.save.Idle? || |s.hist.log| <= Reach(s.hist) || MarkedOrOwed(s, Draws)
  }

  ghost predicate RestInv(s: State) {
    ItemsInv(s) && DrawsInv(s)
  }

  lemma SaverKeepsRest(s: State, e: Event)
    requires TokenInv(s) && ShapeInv(s) && RestInv(s) && SaverEnabled(s, e)
    ensures RestInv(SaverStep(s, e))
  {
  }

  lemma WriteKeepsItems(s: State)
    requires ShapeInv(s) && ItemsInv(s) && WorkerEnabled(s, Write(true))
    ensures ItemsInv(WriteStep(s))
  {
    DoneNext(s.worker, WriteStep(s).worker, Inventory);
  }

  // A snapshot reaches the end of the log.
  lemma SnapshotReaches(h: H.State)
    requires H.Inv(h) && h.save.Idle?
    ensures Reach(H.Step(h, H.Begin)) == |h.log|
  {
    H.UnpersistedIsTail(h.log, h.history.persistedSeq);
  }

  // The watermark goes where the snapshot reaches.
  lemma MarkReaches(h: H.State)
    requires H.Inv(h) && H.Enabled(h, H.Mark)
    ensures Reach(H.Step(h, H.Mark)) == Reach(h)
  {
    var u := h.save.snapshot;
    var from := u[0].number - 1;
    assert u[|u| - 1] == H.Numbered(h.log)[from..from + |u|][|u| - 1];
  }

  lemma WorkerKeepsRest(s: State, e: Event)
    requires TokenInv(s) && ShapeInv(s) && RestInv(s) && H.Inv(s.hist) && WorkerEnabled(s, e)
    ensures RestInv(WorkerStep(s, e))
  {
    match e
    case Write(ok) => if ok { WriteKeepsItems(s); }
    case Scan => ScanKeepsRest(s);
    case Advance => AdvanceKeepsRest(s);
    case _ =>
  }

  lemma ScanKeepsRest(s: State)
    requires TokenInv(s) && ShapeInv(s) && RestInv(s) && H.Inv(s.hist) && WorkerEnabled(s, Scan)
    ensures RestInv(ScanStep(s))
  {
    SnapshotReaches(s.hist);
    DoneNext(s.worker, s.worker.(todo := s.worker.todo[1..]), Inventory);
  }

  lemma AdvanceKeepsRest(s: State)
    requires TokenInv(s) && ShapeInv(s) && RestInv(s) && H.Inv(s.hist) && WorkerEnabled(s, Advance)
    ensures RestInv(WorkerStep(s, Advance))
  {
    MarkReaches(s.hist);
    DoneNext(s.worker, s.worker.(todo := s.worker.todo[1..]), Inventory);
  }

  lemma HandlerKeepsRest(s: State, e: Event)
    requires RestInv(s) && HandlerEnabled(s, e) && H.Inv(s.hist)
    ensures RestInv(HandlerStep(s, e))
  {
    StillMarked(s, e, Inventory);
    StillMarked(s, e, Draws);
  }

  lemma StepKeepsRest(s: State, e: Event)
    requires TokenInv(s) && ShapeInv(s) && RestInv(s) && H.Inv(s.hist) && Enabled(s, e)
    ensures RestInv(Step(s, e))
  {
    if SaverEnabled(s, e) {
      SaverKeepsRest(s, e);
    } else if WorkerEnabled(s, e) {
      WorkerKeepsRest(s, e);
    } else {
      HandlerKeepsRest(s, e);
    }
  }
}
