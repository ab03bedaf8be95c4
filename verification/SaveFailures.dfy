// Runs that forget: each of the conditions that SaveSafety gives is met by some run of every new player who can
// pay for a draw.
module SaveFailures {
  import opened Runs
  import opened GachaHistories
  import H = HistoryPersistence
  import opened SavePipeline
  import opened SaveSafety
  import Wallets

  const COST := Wallets.DRAW_COST

  // A new player with enough for a draw, a handler and a saver.
  ghost predicate NewPlayer(s: State) {
    Initial(s) && s.hist.log == [] && s.mem.currency >= COST && |s.handlers| > 0 && |s.savers| > 0
  }

  function Handling(t: State, pc: Handler): State
    requires |t.handlers| > 0
  {
    t.(handlers := t.handlers[0 := pc])
  }

  function Seeing(t: State, x: Seen): Book
    requires |t.book.seen| > 0
  {
    t.book.(seen := t.book.seen[0 := x])
  }

  // ---------------------------------------------------------------- one handler

  function Charged(s: State): State
    requires |s.handlers| > 0 && |s.book.seen| > 0
  {
    Handling(s, Drawing(1, [], COST)).(mem := s.mem.(currency := s.mem.currency - COST), book := Seeing(s, Unsaved))
  }

  lemma Charge(s: State)
    requires NewPlayer(s)
    ensures Reaches(s, Charged(s))
  {
    assert Legal(s, []) && Exec(s, []) == s;
    Take(s, s, Spend(0, false));
    assert HandlerStep(s, Spend(0, false)) == Charged(s);
  }

  function Drawn(s: State): State
    requires |s.handlers| > 0 && |s.book.seen| > 0
  {
    Handling(Charged(s), Granting([7], COST)).(hist := H.Step(s.hist, H.Draw(3)), dirty := s.dirty + {Draws})
  }

  lemma DrawOne(s: State)
    requires NewPlayer(s)
    ensures Reaches(s, Drawn(s))
  {
    Charge(s);
    var t := Charged(s);
    var recorded := Handling(t, Recorded(0, [7], COST)).(hist := H.Step(s.hist, H.Draw(3)));
    assert [] + [7] == [7];
    Take(s, t, Draw(0, 7, 3));
    assert HandlerStep(t, Draw(0, 7, 3)) == recorded;
    Take(s, recorded, MarkDraw(0));
    assert HandlerStep(recorded, MarkDraw(0)) == Drawn(s);
  }

  function Granted(s: State): State
    requires |s.handlers| > 0 && |s.book.seen| > 0
  {
    Handling(Drawn(s), Granting([], COST)).(
      mem := Charged(s).mem.(inventory := s.mem.inventory + multiset{7}), dirty := s.dirty + {Draws} + {Inventory})
  }

  lemma GrantOne(s: State)
    requires NewPlayer(s)
    ensures Reaches(s, Granted(s))
  {
    DrawOne(s);
    var t := Drawn(s);
    var given := Handling(t, Handler.Granted([], COST)).(mem := Granted(s).mem);
    assert [7][1..] == [];
    Take(s, t, Grant(0));
    assert HandlerStep(t, Grant(0)) == given;
    Take(s, given, MarkGrant(0));
    assert HandlerStep(given, MarkGrant(0)) == Granted(s);
  }

  // ---------------------------------------------------------------- one saver

  function Queued(t: State, flags: set<Comp>): State {
    t.(dirty := {}, saving := true, queue := [flags], owner := InQueue)
  }

  // Saver 0 takes the bit and queues what is dirty.
  lemma QueueSave(s: State, t: State, force: bool, flags: set<Comp>)
    requires Reaches(s, t) && |t.savers| > 0 && t.savers[0].Ready? && !t.saving && t.queue == []
    requires flags == (t.dirty + if force then ALL else {}) && flags != {}
    ensures Reaches(s, Queued(t, flags))
  {
    var marked := t.(saving := true, savers := t.savers[0 := Saver.Marked(force)], owner := BySaver(0));
    Take(s, t, TryMark(0, force));
    var fetched := marked.(dirty := {}, savers := t.savers[0 := Holding(flags)]);
    Take(s, marked, Fetch(0));
    assert SaverStep(marked, Fetch(0)) == fetched;
    Take(s, fetched, Submit(0));
    assert t.savers[0 := Ready] == t.savers;
    assert SaverStep(fetched, Submit(0)) == Queued(t, flags);
  }

  function Rested(t: State): State {
    t.(queue := [], worker := Waiting, saving := false, owner := Nobody)
  }

  lemma FailStart(s: State, t: State, flags: set<Comp>)
    requires Reaches(s, t) && t.queue == [flags] && t.worker.Waiting? && Currency !in flags
    ensures Reaches(s, Rested(t))
  {
    var popped := t.(queue := [], worker := Popped(flags), owner := ByWorker);
    Take(s, t, Pop);
    assert WorkerStep(t, Pop) == popped;
    var failed := popped.(worker := Clearing);
    Take(s, popped, Start(false));
    assert WorkerStep(popped, Start(false)) == failed;
    Take(s, failed, Clear);
    assert WorkerStep(failed, Clear) == Rested(t);
  }

  // ---------------------------------------------------------------- a failed save

  lemma OneDrawUnsaved(h: H.State)
    requires h == H.Start(h.log) && h.log == []
    ensures var g := H.Step(h, H.Draw(3)); After(g.table, 0) != After(H.Numbered(g.log), 0)
  {
    var g := H.Step(h, H.Draw(3));
    assert H.Numbered(g.log) == [GachaRecord(1, 3)];
    assert After(H.Numbered(g.log), 0) == [GachaRecord(1, 3)];
  }

  // A save that fails at its first statement forgets the recorded draw.
  lemma FailedSaveForgets(s: State)
    requires NewPlayer(s)
    ensures exists t :: Reaches(s, t) && !Covered(t, Draws)
  {
    DrawOne(s);
    var t := Drawn(s);
    assert t.dirty == {Draws};
    QueueSave(s, t, false, {Draws});
    FailStart(s, Queued(t, {Draws}), {Draws});
    OneDrawUnsaved(s.hist);
    NothingKnown(s, Rested(Queued(t, {Draws})), Draws);
  }

  // With threads and queue at rest, only a handler can know.
  lemma NothingKnown(s: State, t: State, c: Comp)
    requires Initial(s) && t.savers == s.savers && t.queue == [] && t.worker.Waiting? && c !in t.dirty
    requires |t.handlers| == |s.handlers| > 0 && c !in Owes(t.handlers[0])
    requires forall h :: 0 < h < |s.handlers| ==> t.handlers[h] == s.handlers[h]
    ensures !Known(t, c)
  {
  }

  // ---------------------------------------------------------------- a reply that does not serialize

  // No save is needed: the charge is never marked.
  lemma UnserializedReplyForgets(s: State)
    requires NewPlayer(s)
    ensures exists t :: Reaches(s, t) && !Covered(t, Currency)
  {
    GrantOne(s);
    var t, e := Granted(s), Serialize(0, false);
    assert HandlerEnabled(t, e);
    Take(s, t, e);
    NothingKnown(s, HandlerStep(t, e), Currency);
  }

  // ---------------------------------------------------------------- a refund after a save

  // The transaction of a forced save has read the charged balance.
  function Read(t: State): State {
    t.(queue := [], owner := ByWorker, worker := Running(ALL, [Inventory, Draws], t.db.(currency := t.mem.currency)),
       book := NoteRead(t.book))
  }

  lemma ReadBalance(s: State, t: State)
    requires Reaches(s, t) && t.queue == [ALL] && t.worker.Waiting?
    ensures Reaches(s, Read(t))
  {
    var popped := t.(queue := [], worker := Popped(ALL), owner := ByWorker);
    Take(s, t, Pop);
    assert WorkerStep(t, Pop) == popped;
    var started := popped.(worker := Running(ALL, [Currency, Inventory, Draws], t.db));
    assert Plan(ALL) == [Currency, Inventory, Draws];
    Take(s, popped, Start(true));
    assert WorkerStep(popped, Start(true)) == started;
    Take(s, started, Write(true));
    assert WriteStep(started) == Read(t);
  }

  lemma NothingToScan(h: H.State)
    requires h == H.Start(h.log) && h.log == []
    ensures H.Enabled(h, H.Begin) && H.Step(h, H.Begin).save.Committing?
    ensures H.Step(H.Step(h, H.Begin), H.Commit(true)) == h
  {
    assert h.table + [] == h.table;
  }

  // The transaction has written everything, with no draw to store, and is about to COMMIT.
  function Scanned(t: State, staged: Values): State
    requires H.Enabled(t.hist, H.Begin)
  {
    t.(hist := H.Step(t.hist, H.Begin), worker := Running(ALL, [], staged.(inventory := t.mem.inventory)))
  }

  lemma ScanRest(s: State, t: State, staged: Values)
    requires Reaches(s, t) && t.worker == Running(ALL, [Inventory, Draws], staged)
    requires t.hist == H.Start(t.hist.log) && t.hist.log == []
    ensures H.Enabled(t.hist, H.Begin) && Reaches(s, Scanned(t, staged))
  {
    var written := t.(worker := Running(ALL, [Draws], staged.(inventory := t.mem.inventory)));
    Take(s, t, Write(true));
    assert WriteStep(t) == written;
    NothingToScan(t.hist);
    Take(s, written, Scan);
    assert [Draws][1..] == [];
    assert ScanStep(written) == Scanned(t, staged);
  }

  function Stored(t: State, staged: Values): State {
    Rested(t).(db := staged.(inventory := t.mem.inventory), book := NoteCommit(t.book))
  }

  lemma CommitRest(s: State, t: State, staged: Values)
    requires t.queue == [] && t.hist == H.Start(t.hist.log) && t.hist.log == []
    requires H.Enabled(t.hist, H.Begin) && Reaches(s, Scanned(t, staged))
    ensures Reaches(s, Stored(t, staged))
  {
    NothingToScan(t.hist);
    var scanned := Scanned(t, staged);
    var committed := t.(worker := Clearing, db := staged.(inventory := t.mem.inventory), book := NoteCommit(t.book));
    Take(s, scanned, Commit(true));
    assert CommitStep(scanned, true) == committed;
    Take(s, committed, Clear);
  }

  lemma SaveCharged(s: State)
    requires NewPlayer(s)
    ensures Reaches(s, Read(Queued(Charged(s), ALL)))
  {
    Charge(s);
    assert Charged(s).dirty + ALL == ALL;
    QueueSave(s, Charged(s), true, ALL);
    ReadBalance(s, Queued(Charged(s), ALL));
  }

  // At rest, with the handler through.
  lemma AtRest(s: State, t: State)
    requires Initial(s) && !t.saving && t.dirty == {}
    requires |t.handlers| == |s.handlers| > 0 && t.handlers[0].Free?
    requires forall h :: 0 < h < |s.handlers| ==> t.handlers[h] == s.handlers[h]
    ensures Quiet(t)
  {
  }

  // The refund of handler 0, wherever the save stands.
  lemma RefundStep(t: State, balance: int)
    requires |t.handlers| > 0 && t.handlers[0] == Drawing(1, [], COST) && t.mem.currency == balance - COST
    ensures HandlerEnabled(t, Refund(0)) && !SaverEnabled(t, Refund(0)) && !WorkerEnabled(t, Refund(0))
    ensures var u := HandlerStep(t, Refund(0));
            u == t.(mem := t.mem.(currency := balance), handlers := t.handlers[0 := Free], book := u.book)
  {
  }

  // What the charge has left of the state.
  lemma ChargedState(s: State)
    requires NewPlayer(s)
    ensures var t := Read(Queued(Charged(s), ALL));
            && t.handlers == s.handlers[0 := Drawing(1, [], COST)] && t.mem == s.mem.(currency := s.mem.currency - COST)
            && t.worker == Running(ALL, [Inventory, Draws], s.mem.(currency := s.mem.currency - COST))
            && t.hist == s.hist && t.queue == [] && t.dirty == {} && t.savers == s.savers
  {
  }

  // A save between the charge and the refund, with no failed statement: the database keeps the charge, and
  // nothing will correct it.
  lemma RefundRace(s: State)
    requires NewPlayer(s)
    ensures exists t :: Reaches(s, t) && Quiet(t) && t.mem == s.mem && t.db.currency == s.mem.currency - COST
  {
    SaveCharged(s);
    ChargedState(s);
    var t := Read(Queued(Charged(s), ALL));
    ScanRest(s, t, t.worker.staged);
    CommitRest(s, t, t.worker.staged);
    RefundStored(s, Stored(t, t.worker.staged));
  }

  lemma RefundStored(s: State, t: State)
    requires NewPlayer(s) && Reaches(s, t) && !t.saving && t.dirty == {}
    requires t.handlers == s.handlers[0 := Drawing(1, [], COST)]
    requires t.mem == s.mem.(currency := s.mem.currency - COST) && t.db.currency == s.mem.currency - COST
    ensures exists u :: Reaches(s, u) && Quiet(u) && u.mem == s.mem && u.db.currency == s.mem.currency - COST
  {
    RefundStep(t, s.mem.currency);
    Take(s, t, Refund(0));
    AtRest(s, HandlerStep(t, Refund(0)));
  }

  // A refund inside the transaction: its COMMIT stores the charge that has been given back.
  lemma CommitRace(s: State)
    requires NewPlayer(s)
    ensures exists t, u :: Reaches(s, t) && t.worker.Running? && t.handlers == s.handlers && t.mem == s.mem
              && Reaches(t, u) && Quiet(u) && u.mem == s.mem && u.db.currency == s.mem.currency - COST
  {
    SaveCharged(s);
    ChargedState(s);
    RefundInside(s, Read(Queued(Charged(s), ALL)));
  }

  // The transaction t has read the charged balance; u is where the refund leads.
  lemma RefundInside(s: State, t: State)
    requires NewPlayer(s) && Reaches(s, t)
    requires t.handlers == s.handlers[0 := Drawing(1, [], COST)] && t.mem == s.mem.(currency := s.mem.currency - COST)
    requires t.worker == Running(ALL, [Inventory, Draws], s.mem.(currency := s.mem.currency - COST))
    requires t.hist == s.hist && t.queue == [] && t.dirty == {} && t.savers == s.savers
    ensures exists t, u :: Reaches(s, t) && t.worker.Running? && t.handlers == s.handlers && t.mem == s.mem
              && Reaches(t, u) && Quiet(u) && u.mem == s.mem && u.db.currency == s.mem.currency - COST
  {
    RefundStep(t, s.mem.currency);
    Take(s, t, Refund(0));
    var u := HandlerStep(t, Refund(0));
    assert u.handlers == s.handlers;
    CommitLate(u, t.worker.staged);
    AtRest(s, Stored(u, t.worker.staged));
    assert Reaches(s, u) && Reaches(u, Stored(u, t.worker.staged));
  }

  lemma CommitLate(t: State, staged: Values)
    requires t.worker == Running(ALL, [Inventory, Draws], staged) && t.queue == []
    requires t.hist == H.Start(t.hist.log) && t.hist.log == []
    ensures Reaches(t, Stored(t, staged))
  {
    assert Legal(t, []) && Exec(t, []) == t;
    ScanRest(t, t, staged);
    CommitRest(t, t, staged);
  }
}
