// The pipeline as an object: the player's fields, the threads, the queue and the database, with one method per
// step, and the uninterrupted AsyncSavePlayer and SavePlayerTask::Execute.
module SaveRuntime {
  import opened GachaHistories
  import H = HistoryPersistence
  import opened SavePipeline
  import opened SaveInvariant
  import opened SaveSafety
  import opened SaveValues

  class Pipeline {
    var mem: Values
    const saver: H.HistorySaver
    var dirtyFlags: set<Comp>
    var saving: bool
    var handlers: seq<Handler>
    var savers: seq<Saver>
    var queue: seq<set<Comp>>
    var worker: Worker
    var db: Values
    ghost var owner: Owner
    ghost var book: Book
    ghost const loaded: nat

    ghost function Value(): State
      reads this, saver, saver.history
    {
      State(mem, loaded, saver.Value(), dirtyFlags, saving, handlers, savers, queue, worker, db, owner, book)
    }

    ghost predicate Valid()
      reads this, saver, saver.history
    {
      Inv(Value()) && |saver.log| + 1 < SEQ_LIMIT
    }

    // A player whose values were read from the database and whose history was replayed from it.
    constructor (values: Values, history: H.HistorySaver, handlerCount: nat, saverCount: nat)
      requires history.Value() == H.Start(history.log) && |history.log| + 1 < SEQ_LIMIT
      ensures Initial(Value()) && Valid() && mem == values && saver == history
      ensures |handlers| == handlerCount && |savers| == saverCount
    {
      mem, db, dirtyFlags, saving, queue, worker := values, values, {}, false, [], Waiting;
      loaded, saver := |history.log|, history;
      handlers, savers := seq(handlerCount, _ => Free), seq(saverCount, _ => Ready);
      owner, book := Nobody, Book(seq(handlerCount, _ => Saved), NONE, NONE);
      new;
      InitialHolds(Value());
    }

    // ---------------------------------------------------------------- AsyncSavePlayer

    method TryMarkSaving(i: nat, force: bool) returns (won: bool)
      requires Valid() && i < |savers| && savers[i].Ready?
      modifies this
      ensures Valid() && Value() == Step(old(Value()), TryMark(i, force)) && won == !old(saving)
    {
      StepKeeps(Value(), TryMark(i, force));
      won := !saving;
      if won {
        saving := true;
        savers := savers[i := Marked(force)];
        owner := BySaver(i);
      }
    }

    method FetchDirtyFlags(i: nat) returns (flags: set<Comp>)
      requires Valid() && i < |savers| && savers[i].Marked?
      modifies this
      ensures Valid() && Value() == Step(old(Value()), Fetch(i)) && savers[i] == Holding(flags)
    {
      StepKeeps(Value(), Fetch(i));
      flags := dirtyFlags + if savers[i].force then ALL else {};
      dirtyFlags := {};
      savers := savers[i := Holding(flags)];
    }

    method Submit(i: nat)
      requires Valid() && i < |savers| && savers[i].Holding?
      modifies this
      ensures Valid() && Value() == Step(old(Value()), Event.Submit(i))
    {
      StepKeeps(Value(), Event.Submit(i));
      var flags := savers[i].flags;
      savers := savers[i := Ready];
      if flags == {} {
        saving, owner := false, Nobody;
      } else {
        queue, owner := queue + [flags], InQueue;
      }
    }

    // ---------------------------------------------------------------- SavePlayerTask and PlayerSaver

    method PopTask()
      requires Valid() && WorkerEnabled(Value(), Pop)
      modifies this
      ensures Valid() && Value() == Step(old(Value()), Pop)
    {
      StepKeeps(Value(), Pop);
      worker, queue, owner := Popped(queue[0]), queue[1..], ByWorker;
    }

    method StartTransaction(ok: bool)
      requires Valid() && WorkerEnabled(Value(), Start(ok))
      modifies this
      ensures Valid() && Value() == Step(old(Value()), Start(ok))
    {
      StepKeeps(Value(), Start(ok));
      if ok {
        worker := Running(worker.flags, Plan(worker.flags), db);
      } else {
        Rollback();
      }
    }

    // ROLLBACK of the values; the fetched bits stay cleared.
    method Rollback()
      requires worker.Popped? || worker.Running?
      modifies this
      ensures Value() == Abort(old(Value()))
    {
      if Currency in worker.flags {
        book := NoteAbort(book, Currency in dirtyFlags);
      }
      worker := Clearing;
    }

    // SaveCurrency or SaveInventory.
    method WriteNext(ok: bool)
      requires Valid() && WorkerEnabled(Value(), Write(ok))
      modifies this
      ensures Valid() && Value() == Step(old(Value()), Write(ok))
    {
      StepKeeps(Value(), Write(ok));
      if ok {
        var c := worker.todo[0];
        worker := Running(worker.flags, worker.todo[1..], Copy(mem, worker.staged, c));
        if c == Currency {
          book := NoteRead(book);
        }
      } else {
        Rollback();
      }
    }

    // GetUnpersisted of SaveGachaHistory.
    method ScanHistory()
      requires Valid() && WorkerEnabled(Value(), Scan)
      modifies this, saver
      ensures Valid() && Value() == Step(old(Value()), Scan)
    {
      StepKeeps(Value(), Scan);
      saver.StartTransaction();
      if saver.save.Committing? {
        worker := Running(worker.flags, worker.todo[1..], worker.staged);
      }
    }

    method InsertRows(ok: bool)
      requires Valid() && WorkerEnabled(Value(), Insert(ok))
      modifies this, saver
      ensures Valid() && Value() == Step(old(Value()), Insert(ok))
    {
      StepKeeps(Value(), Insert(ok));
      saver.InsertBatch(ok);
      if !ok {
        Rollback();
      }
    }

    // MarkPersisted of SaveGachaHistory, before the COMMIT.
    method AdvanceWatermark()
      requires Valid() && WorkerEnabled(Value(), Advance)
      modifies this, saver, saver.history
      ensures Valid() && Value() == Step(old(Value()), Advance)
    {
      StepKeeps(Value(), Advance);
      saver.Mark();
      worker := Running(worker.flags, worker.todo[1..], worker.staged);
    }

    method CommitTransaction(ok: bool)
      requires Valid() && WorkerEnabled(Value(), Commit(ok))
      modifies this, saver
      ensures Valid() && Value() == Step(old(Value()), Commit(ok))
    {
      StepKeeps(Value(), Commit(ok));
      SendCommit(ok);
    }

    method SendCommit(ok: bool)
      requires WorkerEnabled(Value(), Commit(ok))
      modifies this, saver
      ensures Value() == CommitStep(old(Value()), ok)
    {
      if saver.save.Committing? {
        saver.Commit(ok);
      }
      if ok {
        var staged, flags := worker.staged, worker.flags;
        if Currency in flags {
          db := db.(currency := staged.currency);
          book := NoteCommit(book);
        }
        if Inventory in flags {
          db := db.(inventory := staged.inventory);
        }
        worker := Clearing;
      } else {
        Rollback();
      }
    }

    method ClearSaving()
      requires Valid() && WorkerEnabled(Value(), Clear)
      modifies this
      ensures Valid() && Value() == Step(old(Value()), Clear)
    {
      StepKeeps(Value(), Clear);
      worker, saving, owner := Waiting, false, Nobody;
    }

    // ---------------------------------------------------------------- handlers

    // One access of a draw handler.
    method Handle(e: Event)
      requires Valid() && HandlerEnabled(Value(), e) && |saver.log| + 2 < SEQ_LIMIT
      modifies this, saver, saver.history
      ensures Valid() && Value() == Step(old(Value()), e)
      ensures old(mem.currency) >= 0 ==> mem.currency >= 0
      ensures e.Spend? ==>
                var n := if e.ten then 10 else 1;
                if old(mem.currency) >= 160 * n then
                  && mem == old(mem).(currency := old(mem.currency) - 160 * n)
                  && handlers == old(handlers)[e.h := Drawing(n, [], 160 * n)]
                else mem == old(mem) && handlers == old(handlers)
    {
      StepKeeps(Value(), e);
      if e.Spend? { SpendsExactly(Value(), e.h, e.ten); }
      if mem.currency >= 0 { EffectStaysPositive(mem, handlers[e.h], e); }
      Access(e);
    }

    method Access(e: Event)
      requires HandlerEnabled(Value(), e)
      modifies this, saver, saver.history
      ensures Value() == HandlerStep(old(Value()), e)
    {
      var pc := handlers[e.h];
      var x := HandlerEffect(mem, pc, e);
      if x.drawn != [] {
        saver.Record(x.drawn[0]);
      }
      mem := x.mem;
      dirtyFlags := dirtyFlags + x.mark;
      handlers := handlers[e.h := x.next];
      book := NoteHandler(book, e.h, pc, e);
    }

    // ---------------------------------------------------------------- uninterrupted

    method AsyncSavePlayer(i: nat, force: bool)
      requires Valid() && i < |savers| && savers[i].Ready?
      modifies this
      ensures Valid() && mem == old(mem) && db == old(db) && savers == old(savers) && handlers == old(handlers)
      ensures worker == old(worker)
      ensures var flags := old(dirtyFlags) + if force then ALL else {};
              if old(saving) || flags == {} then
                dirtyFlags == old(dirtyFlags) && queue == old(queue) && saving == old(saving)
              else
                dirtyFlags == {} && queue == [flags] && saving
    {
      var won := TryMarkSaving(i, force);
      if !won {
        return;
      }
      var flags := FetchDirtyFlags(i);
      Submit(i);
      assert savers == old(savers);
    }

    method WriteOne(c: Comp, ok: bool)
      requires Valid() && worker.Running? && worker.todo != [] && worker.todo[0] == c && c != Draws
      modifies this
      ensures Valid() && Value() == old(Value()).(worker := worker, book := book)
      ensures var w := old(worker);
              worker == if ok then Running(w.flags, w.todo[1..], Copy(mem, w.staged, c)) else Clearing
    {
      WriteNext(ok);
    }

    // SaveCurrency and SaveInventory, if their bits were fetched.
    method WriteValues(first: bool, second: bool) returns (success: bool)
      requires Valid() && worker.Running? && worker.todo == Plan(worker.flags) && worker.staged == db
      modifies this
      ensures Valid() && Value() == old(Value()).(worker := worker, book := book)
      ensures var flags := old(worker.flags);
              worker == if success then Running(flags, if Draws in flags then [Draws] else [], Fetched(flags, mem, db))
                         else Clearing
    {
      var flags := worker.flags;
      PlanShape(flags);
      if Currency in flags {
        WriteOne(Currency, first);
        if !first {
          return false;
        }
      }
      if Inventory in flags {
        WriteOne(Inventory, second);
        if !second {
          return false;
        }
      }
      success := true;
    }

    // SaveGachaHistory: the snapshot, the batches, the watermark.
    method WriteHistory(answers: nat -> bool) returns (success: bool)
      requires Valid() && worker.Running? && worker.todo == [Draws] && saver.save.Idle?
      modifies this, saver, saver.history
      ensures Valid() && mem == old(mem) && db == old(db) && queue == old(queue) && dirtyFlags == old(dirtyFlags)
      ensures handlers == old(handlers) && saver.table == old(saver.table)
      ensures if success then
                worker == Running(old(worker.flags), [], old(worker.staged))
                && saver.save.Committing? && saver.staged == Unpersisted(old(saver.history.Value()))
              else
                worker.Clearing? && saver.save.Idle? && saver.history.Value() == old(saver.history.Value())
    {
      ScanHistory();
      if saver.save.Inserting? {
        ghost var snapshot := saver.save.snapshot;
        success := InsertSnapshot(answers);
        if !success {
          return;
        }
        AdvanceWatermark();
      }
      success := true;
    }

    method InsertSnapshot(answers: nat -> bool) returns (success: bool)
      requires Valid() && AtDraws(worker) && saver.save.Inserting? && saver.save.current == 0 && saver.staged == []
      modifies this, saver
      ensures Valid() && mem == old(mem) && db == old(db) && queue == old(queue) && dirtyFlags == old(dirtyFlags)
      ensures handlers == old(handlers) && saver.table == old(saver.table)
      ensures var snapshot := old(saver.save.snapshot);
              if success then
                worker == old(worker) && saver.save == H.Inserting(snapshot, |snapshot|) && saver.staged == snapshot
              else worker.Clearing? && saver.save.Idle?
    {
      ghost var snapshot := saver.save.snapshot;
      var k := 0;
      while saver.save.Inserting? && saver.save.current < |saver.save.snapshot|
        invariant Valid() && mem == old(mem) && db == old(db) && queue == old(queue) && dirtyFlags == old(dirtyFlags)
        invariant handlers == old(handlers) && saver.table == old(saver.table)
        invariant saver.history.Value() == old(saver.history.Value())
        invariant if saver.save.Inserting? then
                    worker == old(worker) && saver.save.snapshot == snapshot && saver.save.current <= |snapshot|
                    && saver.staged == snapshot[..saver.save.current]
                  else worker.Clearing? && saver.save.Idle?
        decreases if saver.save.Inserting? then |snapshot| + 1 - saver.save.current else 0
      {
        ghost var current := saver.save.current;
        InsertRows(answers(k));
        if saver.save.Inserting? {
          assert snapshot[..current] + snapshot[current..saver.save.current] == snapshot[..saver.save.current];
        }
        k := k + 1;
      }
      success := saver.save.Inserting?;
    }

    // The save is taken from the queue and the transaction opened.
    method Open(starts: bool)
      requires Valid() && WorkerEnabled(Value(), Pop)
      modifies this
      ensures Valid() && |old(queue)| == 1 && queue == [] && owner == ByWorker
      ensures Value() == old(Value()).(worker := worker, book := book, queue := queue, owner := owner)
      ensures var flags := old(queue)[0]; worker == if starts then Running(flags, Plan(flags), db) else Clearing
    {
      assert |queue| == 1;
      PopTask();
      StartTransaction(starts);
    }

    method Close(commits: bool)
      requires Valid() && worker.Running? && worker.todo == []
      modifies this, saver
      ensures Valid() && worker.Waiting? && !saving
      ensures Value() == old(Value()).(worker := worker, saving := saving, owner := owner, book := book,
                                       db := db, hist := saver.Value())
      ensures db == if commits then Fetched(old(worker.flags), old(worker.staged), old(db)) else old(db)
      ensures saver.table == old(saver.table) + if commits && old(saver.save.Committing?) then old(saver.staged) else []
    {
      CommitTransaction(commits);
      ClearSaving();
    }

    // SavePlayerTask::Execute with nothing in between. On success the database has memory's balance and items, if
    // fetched, and every unpersisted draw behind its rows; on failure it is unchanged, and only a failed COMMIT may
    // have moved the watermark. The saving bit is cleared either way, the fetched bits stay cleared.
    method Execute(starts: bool, first: bool, second: bool, answers: nat -> bool, commits: bool) returns (success: bool)
      requires Valid() && WorkerEnabled(Value(), Pop)
      modifies this, saver, saver.history
      ensures Valid() && worker.Waiting? && !saving && queue == []
      ensures mem == old(mem) && handlers == old(handlers) && dirtyFlags == old(dirtyFlags)
      ensures var flags := old(queue)[0];
              if success then
                && db == Fetched(flags, mem, old(db))
                && saver.table == old(saver.table)
                   + if Draws in flags then Unpersisted(old(saver.history.Value())) else []
              else
                && db == old(db) && saver.table == old(saver.table)
                && (commits ==> saver.history.Value() == old(saver.history.Value()))
    {
      Open(starts);
      success := starts;
      if success {
        success := WriteValues(first, second);
      }
      if success && worker.todo != [] {
        success := WriteHistory(answers);
      }
      if success {
        Close(commits);
        success := commits;
      } else {
        ClearSaving();
      }
    }
  }

  // The database with memory's values of the fetched components.
  function Fetched(flags: set<Comp>, mem: Values, db: Values): Values {
    Values(if Currency in flags then mem.currency else db.currency,
           if Inventory in flags then mem.inventory else db.inventory)
  }

  lemma PlanShape(flags: set<Comp>)
    ensures var rest := if Draws in flags then [Draws] else [];
            && (Currency in flags ==> Plan(flags) != [] && Plan(flags)[0] == Currency)
            && (var tail := if Currency in flags then Plan(flags)[1..] else Plan(flags);
                if Inventory in flags then tail != [] && tail[0] == Inventory && tail[1..] == rest else tail == rest)
  {
  }
}
