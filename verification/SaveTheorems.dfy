// The history inside the pipeline, runs in which nothing is given up, and each way to forget a charge by itself.
module SaveTheorems {
  import opened Runs
  import opened GachaHistories
  import H = HistoryPersistence
  import opened SavePipeline
  import opened SaveInvariant
  import opened SaveLedger
  import opened SaveSafety

  // ---------------------------------------------------------------- the history of a run

  function HistoryRun(s0: State, events: seq<Event>): seq<H.Event>
    requires Legal(s0, events)
  {
    if events == [] then [] else HistoryRun(s0, Init(events)) + HistoryEvents(Exec(s0, Init(events)), Last(events))
  }

  // What the pipeline does to the history is a run of the incremental save.
  lemma {:induction false} HistoryIsARun(s0: State, events: seq<Event>)
    requires Initial(s0) && Legal(s0, events)
    ensures H.Legal(s0.hist.log, HistoryRun(s0, events))
    ensures H.Exec(s0.hist.log, HistoryRun(s0, events)) == Exec(s0, events).hist
  {
    if events != [] {
      var s, e := Exec(s0, Init(events)), Last(events);
      HistoryIsARun(s0, Init(events));
      HistoryStep(s, e);
      var es, before := HistoryEvents(s, e), HistoryRun(s0, Init(events));
      if es == [] {
        assert before + es == before;
      } else {
        H.Then(s0.hist.log, before, es[0], Step(s, e).hist);
      }
    }
  }

  // Of the draws made by this object, those stored, those at the COMMIT and those unpersisted are together all,
  // in order, if and only if no step of the history's save has lost one and the ring holds those behind the
  // watermark. Dirty bits do not enter: they say when the unpersisted ones will be looked at.
  lemma DrawsKeptExactly(s0: State, events: seq<Event>)
    requires Initial(s0) && Legal(s0, events) && |Exec(s0, events).hist.log| + 1 < SEQ_LIMIT
    ensures H.Legal(s0.hist.log, HistoryRun(s0, events))
    ensures var s, base := Exec(s0, events), s0.loaded;
            && base <= |s.hist.log|
            && (After(s.hist.table + H.Marked(s.hist), base) + After(Unpersisted(s.hist.history), base)
                == H.Numbered(s.hist.log)[base..]
                <==> H.LossFree(s0.hist.log, HistoryRun(s0, events), base)
                     && |s.hist.log| - Max(s.hist.history.persistedSeq, base) <= MAX_HISTORY)
  {
    HistoryIsARun(s0, events);
    H.NothingLostExactly(s0.hist.log, HistoryRun(s0, events));
  }

  // However saves fail, no draw is stored twice, and the rows are draws in recording order.
  lemma DrawsStoredOnce(s0: State, events: seq<Event>)
    requires Initial(s0) && Legal(s0, events) && |Exec(s0, events).hist.log| + 1 < SEQ_LIMIT
    ensures H.RowsOf(Exec(s0, events).hist.log, Exec(s0, events).hist.table, |Exec(s0, events).hist.log|)
  {
    HistoryIsARun(s0, events);
    H.CommittedOnce(s0.hist.log, HistoryRun(s0, events));
  }

  // A lost draw is lost for good: no later save brings memory and database together again.
  lemma LostDrawsStayLost(s: State, e: Event)
    requires Inv(s) && Enabled(s, e) && !H.Whole(s.hist, s.loaded) && |Step(s, e).hist.log| + 1 < SEQ_LIMIT
    ensures !H.Whole(Step(s, e).hist, s.loaded) && !Same(Step(s, e), Draws)
  {
    StepKeeps(s, e);
    HistoryStep(s, e);
    var es, t := HistoryEvents(s, e), Step(s, e);
    if es != [] { H.StepKeeps(s.hist, es[0], s.loaded); }
    if Same(t, Draws) { SameIsWhole(t.hist, t.loaded); }
  }

  lemma SameIsWhole(h: H.State, base: nat)
    requires H.Inv(h) && base <= |h.log| && After(h.table, base) == After(H.Numbered(h.log), base)
    ensures H.Whole(h, base)
  {
    H.AfterConcat(h.table, H.Marked(h), base);
    H.RowsAbove(h.log, h.table + H.Marked(h), base, h.history.persistedSeq);
    H.TailAbove(h.log, 0, base);
    assert H.Numbered(h.log)[0..] == H.Numbered(h.log);
    assert |H.Numbered(h.log)[base..]| == |h.log| - base;
  }

  // ---------------------------------------------------------------- runs in which nothing is given up

  predicate Fails(e: Event) {
    match e
    case Start(ok) => !ok
    case Write(ok) => !ok
    case Insert(ok) => !ok
    case Commit(ok) => !ok
    case _ => GivesUp(e)
  }

  lemma NoStray(s: State, e: Event)
    requires Enabled(s, e) && !Fails(e) && s.book.late.stray == 0 && s.book.read.stray == 0
    ensures Step(s, e).book.late.stray == 0 && Step(s, e).book.read.stray == 0
  {
  }

  lemma {:induction false} NothingStrays(s0: State, events: seq<Event>)
    requires Initial(s0) && Legal(s0, events) && forall e :: e in events ==> !Fails(e)
    ensures Exec(s0, events).book.late.stray == 0 && Exec(s0, events).book.read.stray == 0
  {
    if events != [] {
      assert Last(events) in events && forall x :: x in Init(events) ==> x in events;
      NothingStrays(s0, Init(events));
      NoStray(Exec(s0, Init(events)), Last(events));
    }
  }

  lemma CleanStep(s: State, e: Event, c: Comp)
    requires Enabled(s, e) && !Fails(e) && s.book.late.stray == 0 && H.Whole(s.hist, s.loaded)
    ensures !Forgets(s, e, c)
  {
  }

  // Every statement succeeds, no charge is given up and the save of the history loses no draw: then no step
  // forgets anything.
  lemma {:induction false} CleanRunsForgetNothing(s0: State, events: seq<Event>, c: Comp)
    requires Initial(s0) && Legal(s0, events) && |Exec(s0, events).hist.log| + 1 < SEQ_LIMIT
    requires forall e :: e in events ==> !Fails(e)
    requires H.Legal(s0.hist.log, HistoryRun(s0, events)) && H.LossFree(s0.hist.log, HistoryRun(s0, events), s0.loaded)
    ensures NeverForgets(s0, events, c)
  {
    if events != [] {
      var s, e := Exec(s0, Init(events)), Last(events);
      assert e in events && forall x :: x in Init(events) ==> x in events;
      LogGrows(s, e);
      LossFreeBefore(s0.hist.log, HistoryRun(s0, Init(events)), HistoryEvents(s, e), s0.loaded);
      CleanRunsForgetNothing(s0, Init(events), c);
      NothingStrays(s0, Init(events));
      StaysWhole(s0, Init(events));
      CleanStep(s, e, c);
    }
  }

  lemma StaysWhole(s0: State, events: seq<Event>)
    requires Initial(s0) && Legal(s0, events) && |Exec(s0, events).hist.log| + 1 < SEQ_LIMIT
    requires H.Legal(s0.hist.log, HistoryRun(s0, events)) && H.LossFree(s0.hist.log, HistoryRun(s0, events), s0.loaded)
    ensures H.Whole(Exec(s0, events).hist, Exec(s0, events).loaded)
  {
    HistoryIsARun(s0, events);
    RunKeeps(s0, events);
    H.RunKeeps(s0.hist.log, HistoryRun(s0, events), s0.loaded);
  }

  lemma LossFreeBefore(loaded: seq<int>, before: seq<H.Event>, es: seq<H.Event>, base: nat)
    requires |es| <= 1 && H.Legal(loaded, before + es) && H.LossFree(loaded, before + es, base)
    ensures H.Legal(loaded, before) && H.LossFree(loaded, before, base)
  {
    if es == [] {
      assert before + es == before;
    } else {
      assert Init(before + es) == before;
    }
  }

  // After such a run, with nothing dirty, saving or half done, the database holds the whole player.
  lemma CleanRunsSaveAll(s0: State, events: seq<Event>)
    requires Initial(s0) && Legal(s0, events) && |Exec(s0, events).hist.log| + 1 < SEQ_LIMIT
    requires forall e :: e in events ==> !Fails(e)
    requires H.Legal(s0.hist.log, HistoryRun(s0, events)) && H.LossFree(s0.hist.log, HistoryRun(s0, events), s0.loaded)
    requires Quiet(Exec(s0, events))
    ensures var s := Exec(s0, events);
            s.mem == s.db && After(s.hist.table, s0.loaded) == After(H.Numbered(s.hist.log), s0.loaded)
  {
    forall c ensures Same(Exec(s0, events), c) {
      CleanRunsForgetNothing(s0, events, c);
      QuietMeansSaved(s0, events, c);
    }
    RunKeeps(s0, events);
    var s := Exec(s0, events);
    assert Same(s, Currency) && Same(s, Inventory) && Same(s, Draws);
  }

  // ---------------------------------------------------------------- charges given up

  // With no stray change before: a refund leaves the database short if and only if a save has committed the
  // balance since the charge, and no bit, save or other handler will have it written again.
  lemma RefundForgetsExactly(s: State, h: nat)
    requires Inv(s) && Enabled(s, Refund(h)) && Stray(s.book) == 0 && |Step(s, Refund(h)).hist.log| + 1 < SEQ_LIMIT
    ensures !Covered(Step(s, Refund(h)), Currency) <==> SeenOf(s.book, h) == Saved && !OthersKnow(s, h)
  {
    StepKeeps(s, Refund(h));
    GiveUpCovers(s, Refund(h));
    assert Currency in Owes(s.handlers[h]);
  }

  // A reply that does not serialize leaves the charge unsaved if and only if none has, and nothing will have it
  // written.
  lemma UnserializedForgetsExactly(s: State, h: nat)
    requires Inv(s) && Enabled(s, Serialize(h, false)) && Stray(s.book) == 0
    requires |Step(s, Serialize(h, false)).hist.log| + 1 < SEQ_LIMIT
    ensures !Covered(Step(s, Serialize(h, false)), Currency) <==> SeenOf(s.book, h) != Saved && !OthersKnow(s, h)
  {
    StepKeeps(s, Serialize(h, false));
    GiveUpCovers(s, Serialize(h, false));
    assert Currency in Owes(s.handlers[h]);
  }

  // A failed statement forgets a component if and only if its save had fetched it, nothing marks or owes it
  // again, and it differs from the database.
  lemma FailedSaveForgetsExactly(s: State, e: Event, c: Comp)
    requires Inv(s) && WorkerEnabled(s, e) && Covered(s, c) && Fails(e)
    ensures !Covered(Step(s, e), c)
       <==> c in s.worker.flags && c !in s.dirty && !HandlerOwes(s.handlers, c) && !Same(s, c)
  {
    FailCovers(s, e, c);
  }
}
