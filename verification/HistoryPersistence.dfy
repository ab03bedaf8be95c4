// PlayerSaver::SaveGachaHistory beside a game thread that goes on recording: snapshot, inserts in batches,
// watermark, COMMIT. The two threads interleave at these steps, and any statement may fail.
module HistoryPersistence {
  import opened GachaHistories
  import opened Runs

  const BATCH_SIZE := 100

  // The database keeps only the rarity of a row; its number says which draw it came from.
  datatype Save = Idle | Inserting(snapshot: seq<GachaRecord>, current: nat) | Committing

  // log is every draw ever recorded, table the committed rows, staged the rows of the open transaction.
  datatype State = State(log: seq<int>, history: History, table: seq<GachaRecord>, staged: seq<GachaRecord>, save: Save)

  // A player object whose history was filled by replaying loaded draws; a new player has none.
  function Start(loaded: seq<int>): State {
    State(loaded, RecordAll(EMPTY, loaded), [], [], Idle)
  }

  datatype Event = Draw(rarity: int) | Begin | Insert(ok: bool) | Mark | Commit(ok: bool)

  predicate Enabled(s: State, e: Event) {
    match e
    case Draw(_) => true
    case Begin => s.save.Idle?
    case Insert(_) => s.save.Inserting? && s.save.current < |s.save.snapshot|
    case Mark => s.save.Inserting? && s.save.current >= |s.save.snapshot| > 0
    case Commit(_) => s.save.Committing?
  }

  function Step(s: State, e: Event): State
    requires Enabled(s, e)
  {
    match e
    case Draw(rarity) => s.(log := s.log + [rarity], history := RecordOn(s.history, rarity))
    case Begin =>
      var unsaved := Unpersisted(s.history);
      s.(staged := [], save := if unsaved == [] then Committing else Inserting(unsaved, 0))
    case Insert(ok) =>
      var end := Min(s.save.current + BATCH_SIZE, |s.save.snapshot|);
      if ok then s.(staged := s.staged + s.save.snapshot[s.save.current..end], save := s.save.(current := end))
      else s.(staged := [], save := Idle)
    case Mark => s.(history := MarkOn(s.history, s.save.snapshot[|s.save.snapshot| - 1].number), save := Committing)
    case Commit(ok) => s.(table := if ok then s.table + s.staged else s.table, staged := [], save := Idle)
  }

  predicate Legal(loaded: seq<int>, events: seq<Event>)
    decreases |events|, 0
  {
    events == [] || (Legal(loaded, Init(events)) && Enabled(Exec(loaded, Init(events)), Last(events)))
  }

  function Exec(loaded: seq<int>, events: seq<Event>): State
    requires Legal(loaded, events)
    decreases |events|, 1
  {
    if events == [] then Start(loaded) else Step(Exec(loaded, Init(events)), Last(events))
  }

  // Rows that the watermark already counts but COMMIT has not stored yet.
  function Marked(s: State): seq<GachaRecord> {
    if s.save.Committing? then s.staged else []
  }

  // The log with its numbers.
  function Numbered(log: seq<int>): seq<GachaRecord> {
    seq(|log|, i requires 0 <= i < |log| => GachaRecord(i + 1, log[i]))
  }

  // What the database sees of rows.
  function Rarities(rows: seq<GachaRecord>): seq<int> {
    seq(|rows|, i requires 0 <= i < |rows| => rows[i].rarity)
  }

  // The two ways to lose draws numbered above base: a failed COMMIT, and a watermark that passes draws which had
  // already left the ring when the snapshot was taken.
  predicate Loses(s: State, e: Event, base: nat)
    requires Enabled(s, e)
  {
    match e
    case Commit(ok) => !ok && After(s.staged, base) != []
    case Mark => s.save.snapshot[0].number > Max(s.history.persistedSeq, base) + 1
    case _ => false
  }

  predicate LossFree(loaded: seq<int>, events: seq<Event>, base: nat)
    requires Legal(loaded, events)
  {
    || events == []
    || (LossFree(loaded, Init(events), base) && !Loses(Exec(loaded, Init(events)), Last(events), base))
  }

  // ---------------------------------------------------------------- invariant

  ghost predicate HistoryInv(s: State) {
    && s.history.persistedSeq <= |s.log|
    && s.history == History(Newest(s.log), Pity(0, s.log), |s.log| + 1, s.history.persistedSeq)
  }

  // Consecutive draws of the log.
  ghost predicate Slice(log: seq<int>, records: seq<GachaRecord>, from: nat) {
    from + |records| <= |log| && records == Numbered(log)[from..from + |records|]
  }

  ghost predicate SaveInv(s: State) {
    && (s.save.Inserting? ==>
         && s.save.current <= |s.save.snapshot|
         && s.staged == s.save.snapshot[..s.save.current]
         && s.save.snapshot != []
         && s.save.snapshot[0].number > s.history.persistedSeq
         && Slice(s.log, s.save.snapshot, s.save.snapshot[0].number - 1))
    && (s.save.Idle? ==> s.staged == [])
  }

  ghost predicate Rising(rows: seq<GachaRecord>) {
    forall i, j {:trigger rows[i], rows[j]} :: 0 <= i < j < |rows| ==> rows[i].number < rows[j].number
  }

  // Every row is a recorded draw below the watermark, in recording order, none twice.
  ghost predicate RowsOf(log: seq<int>, rows: seq<GachaRecord>, mark: nat) {
    && mark <= |log|
    && (forall i {:trigger rows[i]} :: 0 <= i < |rows| ==>
          1 <= rows[i].number <= mark && rows[i].rarity == log[rows[i].number - 1])
    && Rising(rows)
  }

  ghost predicate TableInv(s: State) {
    RowsOf(s.log, s.table + Marked(s), s.history.persistedSeq)
  }

  ghost predicate Inv(s: State) {
    HistoryInv(s) && SaveInv(s) && TableInv(s)
  }

  // No draw above base and below the watermark is missing.
  predicate Whole(s: State, base: nat) {
    |After(s.table + Marked(s), base)| == Max(s.history.persistedSeq - base, 0)
  }

  lemma NumberedGrows(log: seq<int>, rarity: int)
    ensures Numbered(log + [rarity]) == Numbered(log) + [GachaRecord(|log| + 1, rarity)]
  {
  }

  lemma NewestIsNumbered(log: seq<int>)
    ensures Newest(log) == Numbered(log)[Dropped(log)..]
  {
  }

  // The first of count draws that is behind the watermark and still in the ring.
  function FirstKept(count: nat, mark: nat): (first: nat)
    requires mark <= count
    ensures mark <= first <= count
  {
    if count - mark > MAX_HISTORY then count - MAX_HISTORY else mark
  }

  lemma DropTwice(rows: seq<GachaRecord>, i: nat, k: nat)
    requires i + k <= |rows|
    ensures rows[i..][k..] == rows[i + k..]
  {
  }

  // What is unpersisted is the log behind the watermark, as far as the ring still holds it.
  lemma UnpersistedIsTail(log: seq<int>, mark: nat)
    requires mark <= |log|
    ensures After(Newest(log), mark) == Numbered(log)[FirstKept(|log|, mark)..]
  {
    var ring, from := Newest(log), Dropped(log);
    AfterIsSuffix(ring, from + 1, mark);
    NewestIsNumbered(log);
    DropTwice(Numbered(log), from, if mark < from then 0 else mark - from);
  }

  lemma {:induction false} AfterAll(rows: seq<GachaRecord>, base: nat)
    requires forall i :: 0 <= i < |rows| ==> rows[i].number > base
    ensures After(rows, base) == rows
  {
    if rows != [] {
      assert forall i :: 0 <= i < |rows[1..]| ==> rows[1..][i] == rows[i + 1];
      AfterAll(rows[1..], base);
      assert rows == [rows[0]] + rows[1..];
    }
  }

  // In rising rows those above base are the last ones.
  lemma {:induction false} AfterRising(rows: seq<GachaRecord>, base: nat) returns (k: nat)
    requires Rising(rows)
    ensures k <= |rows| && After(rows, base) == rows[k..]
    ensures forall i :: 0 <= i < k ==> rows[i].number <= base
    ensures forall i :: k <= i < |rows| ==> rows[i].number > base
  {
    if rows == [] {
      k := 0;
    } else if rows[0].number > base {
      k := 0;
      AfterAll(rows, base);
    } else {
      var rest := rows[1..];
      assert forall i :: 0 <= i < |rest| ==> rest[i] == rows[i + 1];
      var j := AfterRising(rest, base);
      k := j + 1;
      forall i | k <= i < |rows| ensures rows[i].number > base { assert rows[i] == rest[i - 1]; }
      forall i | 0 <= i < k ensures rows[i].number <= base { if i > 0 { assert rows[i] == rest[i - 1]; } }
    }
  }

  lemma RowsUpTo(log: seq<int>, rows: seq<GachaRecord>, base: nat, mark: nat)
    requires RowsOf(log, rows, mark) && forall i :: 0 <= i < |rows| ==> rows[i].number > base
    ensures |rows| <= Max(mark - base, 0)
    ensures |rows| == mark - base ==> rows == Numbered(log)[base..mark]
  {
    forall i | 0 <= i < |rows| ensures base + i < rows[i].number <= mark - (|rows| - 1 - i) {
      RowNumber(log, rows, base, mark, i);
      RowRoom(log, rows, mark, i);
    }
    if |rows| > 0 { assert base < rows[0].number; }
  }

  lemma {:induction false} RowNumber(log: seq<int>, rows: seq<GachaRecord>, base: nat, mark: nat, i: nat)
    requires RowsOf(log, rows, mark) && i < |rows| && rows[0].number > base
    ensures base + i < rows[i].number
  {
    if i > 0 { RowNumber(log, rows, base, mark, i - 1); }
  }

  lemma {:induction false} RowRoom(log: seq<int>, rows: seq<GachaRecord>, mark: nat, i: nat)
    requires RowsOf(log, rows, mark) && i < |rows|
    ensures rows[i].number <= mark - (|rows| - 1 - i)
    decreases |rows| - i
  {
    if i + 1 < |rows| { RowRoom(log, rows, mark, i + 1); }
  }

  // There are at most as many rows above base as draws, and then they are these draws.
  lemma RowsAbove(log: seq<int>, rows: seq<GachaRecord>, base: nat, mark: nat)
    requires RowsOf(log, rows, mark)
    ensures |After(rows, base)| <= Max(mark - base, 0)
    ensures base <= mark && |After(rows, base)| == mark - base ==> After(rows, base) == Numbered(log)[base..mark]
  {
    var k := AfterRising(rows, base);
    var above := rows[k..];
    assert forall i :: 0 <= i < |above| ==> above[i] == rows[k + i];
    RowsUpTo(log, above, base, mark);
  }

  lemma {:induction false} AfterConcat(a: seq<GachaRecord>, b: seq<GachaRecord>, base: nat)
    ensures After(a + b, base) == After(a, base) + After(b, base)
  {
    if a == [] {
      assert a + b == b;
    } else {
      assert (a + b)[1..] == a[1..] + b;
      AfterConcat(a[1..], b, base);
      var first := if a[0].number > base then [a[0]] else [];
      assert first + (After(a[1..], base) + After(b, base)) == first + After(a[1..], base) + After(b, base);
    }
  }

  // Of consecutive draws those above base are counted.
  lemma AfterSlice(log: seq<int>, records: seq<GachaRecord>, from: nat, base: nat)
    requires Slice(log, records, from)
    ensures After(records, base) == records[Min(Max(base - from, 0), |records|)..]
  {
    AfterIsSuffix(records, from + 1, base);
  }

  lemma RowsExtend(log: seq<int>, rows: seq<GachaRecord>, mark: nat, more: seq<GachaRecord>, from: nat)
    requires RowsOf(log, rows, mark) && mark <= from && Slice(log, more, from)
    ensures RowsOf(log, rows + more, from + |more|)
  {
    var all := rows + more;
    forall i | 0 <= i < |all|
      ensures 1 <= all[i].number <= from + |more| && all[i].rarity == log[all[i].number - 1]
    {
      if i >= |rows| { assert all[i] == Numbered(log)[from..from + |more|][i - |rows|]; }
    }
    forall i, j | 0 <= i < j < |all| ensures all[i].number < all[j].number {
      if j >= |rows| {
        assert all[j] == Numbered(log)[from..from + |more|][j - |rows|];
        if i >= |rows| { assert all[i] == Numbered(log)[from..from + |more|][i - |rows|]; }
      }
    }
  }

  lemma RowsShrink(log: seq<int>, rows: seq<GachaRecord>, more: seq<GachaRecord>, mark: nat)
    requires RowsOf(log, rows + more, mark)
    ensures RowsOf(log, rows, mark)
  {
    var all := rows + more;
    forall i | 0 <= i < |rows| ensures 1 <= rows[i].number <= mark && rows[i].rarity == log[rows[i].number - 1] {
      assert all[i] == rows[i];
    }
    forall i, j | 0 <= i < j < |rows| ensures rows[i].number < rows[j].number {
      assert all[i] == rows[i] && all[j] == rows[j];
    }
  }

  // ---------------------------------------------------------------- each step keeps it

  lemma HistoryGrows(log: seq<int>, h: History, rarity: int)
    requires h == History(Newest(log), Pity(0, log), |log| + 1, h.persistedSeq) && |log| + 2 < SEQ_LIMIT
    ensures var longer := log + [rarity];
            RecordOn(h, rarity) == History(Newest(longer), Pity(0, longer), |longer| + 1, h.persistedSeq)
  {
    var longer := log + [rarity];
    assert longer[..|longer| - 1] == log;
    NewestStep(longer);
  }

  lemma SliceGrows(log: seq<int>, records: seq<GachaRecord>, from: nat, rarity: int)
    requires Slice(log, records, from)
    ensures Slice(log + [rarity], records, from)
  {
    NumberedGrows(log, rarity);
  }

  lemma RowsGrow(log: seq<int>, rows: seq<GachaRecord>, mark: nat, rarity: int)
    requires RowsOf(log, rows, mark)
    ensures RowsOf(log + [rarity], rows, mark)
  {
  }

  lemma DrawKeeps(s: State, rarity: int)
    requires Inv(s) && |s.log| + 2 < SEQ_LIMIT
    ensures Inv(Step(s, Draw(rarity)))
  {
    HistoryGrows(s.log, s.history, rarity);
    RowsGrow(s.log, s.table + Marked(s), s.history.persistedSeq, rarity);
    if s.save.Inserting? { SliceGrows(s.log, s.save.snapshot, s.save.snapshot[0].number - 1, rarity); }
  }

  // A tail of the log behind the watermark is a snapshot to insert.
  lemma TailIsSlice(log: seq<int>, mark: nat, from: nat)
    requires mark <= from < |log|
    ensures var tail := Numbered(log)[from..];
            tail[0].number == from + 1 > mark && Slice(log, tail, tail[0].number - 1)
  {
  }

  lemma UnpersistedIsSlice(s: State)
    requires HistoryInv(s)
    ensures var unsaved := Unpersisted(s.history);
            unsaved != [] ==>
              unsaved[0].number > s.history.persistedSeq && Slice(s.log, unsaved, unsaved[0].number - 1)
  {
    var mark := s.history.persistedSeq;
    UnpersistedIsTail(s.log, mark);
    if Unpersisted(s.history) != [] { TailIsSlice(s.log, mark, FirstKept(|s.log|, mark)); }
  }

  lemma BeginKeeps(s: State)
    requires Inv(s) && Enabled(s, Begin)
    ensures Inv(Step(s, Begin))
  {
    UnpersistedIsSlice(s);
    assert s.table + [] == s.table;
  }

  lemma InsertKeeps(s: State, ok: bool)
    requires Inv(s) && Enabled(s, Insert(ok))
    ensures Inv(Step(s, Insert(ok)))
  {
    var end := Min(s.save.current + BATCH_SIZE, |s.save.snapshot|);
    assert s.save.snapshot[..s.save.current] + s.save.snapshot[s.save.current..end] == s.save.snapshot[..end];
  }

  lemma MarkCounts(log: seq<int>, rows: seq<GachaRecord>, mark: nat, more: seq<GachaRecord>, from: nat, base: nat)
    requires RowsOf(log, rows, mark) && mark <= from && Slice(log, more, from) && more != []
    ensures |After(rows + more, base)| == Max(from + |more| - base, 0)
       <==> |After(rows, base)| == Max(mark - base, 0) && from <= Max(mark, base)
  {
    AfterConcat(rows, more, base);
    AfterSlice(log, more, from, base);
    RowsAbove(log, rows, base, mark);
  }

  lemma MarkKeeps(s: State, base: nat)
    requires Inv(s) && Enabled(s, Mark)
    ensures Inv(Step(s, Mark))
    ensures Whole(Step(s, Mark), base) <==> Whole(s, base) && !Loses(s, Mark, base)
  {
    var u := s.save.snapshot;
    var from := u[0].number - 1;
    assert s.staged == u && s.table + [] == s.table;
    assert u[|u| - 1] == Numbered(s.log)[from..from + |u|][|u| - 1];
    assert Step(s, Mark).history.persistedSeq == from + |u|;
    RowsExtend(s.log, s.table, s.history.persistedSeq, u, from);
    MarkCounts(s.log, s.table, s.history.persistedSeq, u, from, base);
  }

  lemma CommitKeeps(s: State, ok: bool, base: nat)
    requires Inv(s) && Enabled(s, Commit(ok))
    ensures Inv(Step(s, Commit(ok)))
    ensures Whole(Step(s, Commit(ok)), base) <==> Whole(s, base) && !Loses(s, Commit(ok), base)
  {
    assert s.table + s.staged + [] == s.table + s.staged && s.table + [] == s.table;
    RowsShrink(s.log, s.table, s.staged, s.history.persistedSeq);
    RowsAbove(s.log, s.table + s.staged, base, s.history.persistedSeq);
    AfterConcat(s.table, s.staged, base);
  }

  lemma StepKeeps(s: State, e: Event, base: nat)
    requires Inv(s) && Enabled(s, e) && |Step(s, e).log| + 1 < SEQ_LIMIT
    ensures Inv(Step(s, e)) && (Whole(Step(s, e), base) <==> Whole(s, base) && !Loses(s, e, base))
  {
    match e
    case Draw(rarity) => DrawKeeps(s, rarity);
    case Begin => BeginKeeps(s);
    case Insert(ok) => InsertKeeps(s, ok);
    case Mark => MarkKeeps(s, base);
    case Commit(ok) => CommitKeeps(s, ok, base);
  }

  lemma StartHolds(loaded: seq<int>, base: nat)
    requires |loaded| + 1 < SEQ_LIMIT
    ensures Inv(Start(loaded)) && Whole(Start(loaded), base)
  {
    RingIsNewest(loaded);
  }

  lemma {:induction false} RunKeeps(loaded: seq<int>, events: seq<Event>, base: nat)
    requires Legal(loaded, events) && |Exec(loaded, events).log| + 1 < SEQ_LIMIT
    ensures Inv(Exec(loaded, events)) && (Whole(Exec(loaded, events), base) <==> LossFree(loaded, events, base))
    ensures loaded <= Exec(loaded, events).log
  {
    if events == [] {
      StartHolds(loaded, base);
    } else {
      RunKeeps(loaded, Init(events), base);
      StepKeeps(Exec(loaded, Init(events)), Last(events), base);
    }
  }

  // ---------------------------------------------------------------- theorems

  // Whatever fails and however the threads interleave, the committed rows are recorded draws, in recording
  // order, and no draw is stored twice.
  lemma CommittedOnce(loaded: seq<int>, events: seq<Event>)
    requires Legal(loaded, events) && |Exec(loaded, events).log| + 1 < SEQ_LIMIT
    ensures RowsOf(Exec(loaded, events).log, Exec(loaded, events).table, |Exec(loaded, events).log|)
  {
    RunKeeps(loaded, events, 0);
    var s := Exec(loaded, events);
    RowsShrink(s.log, s.table, Marked(s), s.history.persistedSeq);
  }

  // What is unpersisted above base.
  lemma TailAbove(log: seq<int>, from: nat, base: nat)
    requires from <= |log| && base <= |log|
    ensures After(Numbered(log)[from..], base) == Numbered(log)[Max(from, base)..]
  {
    var tail := Numbered(log)[from..];
    AfterSlice(log, tail, from, base);
    assert tail[Min(Max(base - from, 0), |tail|)..] == Numbered(log)[Max(from, base)..];
  }

  lemma RowsAndTail(log: seq<int>, rows: seq<GachaRecord>, mark: nat, from: nat, base: nat)
    requires RowsOf(log, rows, mark) && mark <= from <= |log| && base <= |log|
    ensures After(rows, base) + Numbered(log)[Max(from, base)..] == Numbered(log)[base..]
       <==> |After(rows, base)| == Max(mark - base, 0) && from <= Max(mark, base)
  {
    var above := After(rows, base);
    RowsAbove(log, rows, base, mark);
    assert |above + Numbered(log)[Max(from, base)..]| == |above| + |log| - Max(from, base);
    if base <= mark && |above| == mark - base && from <= mark {
      assert above + Numbered(log)[mark..] == Numbered(log)[base..];
    }
  }

  // Of the draws above base, those committed, those at the COMMIT and those unpersisted are together all, in
  // order, if and only if none below the watermark is missing and the ring still holds every one behind it.
  lemma KeptExactly(s: State, base: nat)
    requires Inv(s) && base <= |s.log|
    ensures After(s.table + Marked(s), base) + After(Unpersisted(s.history), base) == Numbered(s.log)[base..]
       <==> Whole(s, base) && |s.log| - Max(s.history.persistedSeq, base) <= MAX_HISTORY
  {
    var mark := s.history.persistedSeq;
    var from := FirstKept(|s.log|, mark);
    UnpersistedIsTail(s.log, mark);
    TailAbove(s.log, from, base);
    RowsAndTail(s.log, s.table + Marked(s), mark, from, base);
  }

  // The draws of this player object that were not loaded are all kept, in that sense, exactly when no step of
  // the run has lost one and the ring holds those behind the watermark.
  lemma NothingLostExactly(loaded: seq<int>, events: seq<Event>)
    requires Legal(loaded, events) && |Exec(loaded, events).log| + 1 < SEQ_LIMIT
    ensures var s, base := Exec(loaded, events), |loaded|;
            && base <= |s.log|
            && (After(s.table + Marked(s), base) + After(Unpersisted(s.history), base) == Numbered(s.log)[base..]
                <==> LossFree(loaded, events, base) && |s.log| - Max(s.history.persistedSeq, base) <= MAX_HISTORY)
  {
    RunKeeps(loaded, events, |loaded|);
    KeptExactly(Exec(loaded, events), |loaded|);
  }

  lemma AllAboveZero(s: State)
    requires Inv(s)
    ensures After(s.table + Marked(s), 0) == s.table + Marked(s)
    ensures After(Unpersisted(s.history), 0) == Unpersisted(s.history)
  {
    AfterAll(s.table + Marked(s), 0);
    UnpersistedIsTail(s.log, s.history.persistedSeq);
    AfterAll(Unpersisted(s.history), 0);
  }

  // At most 1000 unpersisted draws at any time.
  predicate Bounded(loaded: seq<int>, events: seq<Event>)
    requires Legal(loaded, events)
  {
    && |Exec(loaded, events).log| - Exec(loaded, events).history.persistedSeq <= MAX_HISTORY
    && (events == [] || Bounded(loaded, Init(events)))
  }

  // The running snapshot starts right behind the watermark.
  ghost predicate Gapless(s: State) {
    s.save.Inserting? && s.save.snapshot != [] ==> s.save.snapshot[0].number == s.history.persistedSeq + 1
  }

  lemma StepGapless(s: State, e: Event)
    requires Inv(s) && Gapless(s) && Enabled(s, e) && e != Commit(false)
    requires |s.log| - s.history.persistedSeq <= MAX_HISTORY
    ensures Gapless(Step(s, e)) && !Loses(s, e, 0)
  {
    UnpersistedIsTail(s.log, s.history.persistedSeq);
  }

  lemma {:induction false} BoundedSnapshots(loaded: seq<int>, events: seq<Event>)
    requires Legal(loaded, events) && Bounded(loaded, events) && Commit(false) !in events
    requires |Exec(loaded, events).log| + 1 < SEQ_LIMIT
    ensures LossFree(loaded, events, 0) && Gapless(Exec(loaded, events))
  {
    if events != [] {
      assert Last(events) in events && forall e :: e in Init(events) ==> e in events;
      BoundedSnapshots(loaded, Init(events));
      RunKeeps(loaded, Init(events), 0);
      StepGapless(Exec(loaded, Init(events)), Last(events));
    }
  }

  // With at most 1000 unpersisted draws at any time and no failed COMMIT, nothing is ever lost: failed inserts
  // roll back and draws that arrive between snapshot and watermark are not skipped. Loaded draws are in the
  // table once more.
  lemma BoundedRunsLoseNothing(loaded: seq<int>, events: seq<Event>)
    requires Legal(loaded, events) && Bounded(loaded, events) && Commit(false) !in events
    requires |Exec(loaded, events).log| + 1 < SEQ_LIMIT
    ensures var s := Exec(loaded, events); s.table + Marked(s) + Unpersisted(s.history) == Numbered(s.log)
  {
    BoundedSnapshots(loaded, events);
    RunKeeps(loaded, events, 0);
    KeptExactly(Exec(loaded, events), 0);
    AllAboveZero(Exec(loaded, events));
  }

  // ---------------------------------------------------------------- two runs that lose draws

  lemma Then(loaded: seq<int>, events: seq<Event>, e: Event, s: State)
    requires Legal(loaded, events) && Enabled(Exec(loaded, events), e) && Step(Exec(loaded, events), e) == s
    ensures Legal(loaded, events + [e]) && Exec(loaded, events + [e]) == s
  {
    assert Init(events + [e]) == events;
  }

  const REC := GachaRecord(1, 5)
  const ONE_DRAW := State([5], History([REC], 0, 2, 0), [], [], Idle)
  const ONE_MARKED := State([5], History([REC], 0, 2, 1), [], [REC], Committing)

  lemma DrawAndInsert()
    ensures exists events :: Legal([], events)
              && Exec([], events) == ONE_DRAW.(staged := [REC], save := Inserting([REC], 1))
  {
    assert After([REC], 0) == [REC];
    var e1 := [] + [Draw(5)];
    Then([], [], Draw(5), ONE_DRAW);
    Then([], e1, Begin, ONE_DRAW.(save := Inserting([REC], 0)));
    Then([], e1 + [Begin], Insert(true), ONE_DRAW.(staged := [REC], save := Inserting([REC], 1)));
  }

  // One failed COMMIT after the watermark: the draw is neither stored nor unpersisted.
  lemma FailedCommitLosesDraw()
    ensures exists events :: Legal([], events) && var s := Exec([], events);
              |s.log| == 1 && s.table + Marked(s) + Unpersisted(s.history) == []
  {
    DrawAndInsert();
    var events :| Legal([], events) && Exec([], events) == ONE_DRAW.(staged := [REC], save := Inserting([REC], 1));
    Then([], events, Mark, ONE_MARKED);
    var s := ONE_MARKED.(staged := [], save := Idle);
    Then([], events + [Mark], Commit(false), s);
    assert After([REC], 1) == [];
    assert Exec([], events + [Mark] + [Commit(false)]) == s;
  }

  // No statement of the run fails.
  predicate Succeeds(events: seq<Event>) {
    Insert(false) !in events && Commit(false) !in events
  }

  lemma {:induction false} DrawsOnly(n: nat) returns (events: seq<Event>)
    ensures Legal([], events) && Succeeds(events)
    ensures var s := Exec([], events); |s.log| == n && s.save.Idle? && s.history.persistedSeq == 0
  {
    if n == 0 {
      events := [];
    } else {
      var before := DrawsOnly(n - 1);
      Then([], before, Draw(3), Step(Exec([], before), Draw(3)));
      events := before + [Draw(3)];
    }
  }

  lemma {:induction false} InsertsFinish(events: seq<Event>) returns (more: seq<Event>)
    requires Legal([], events) && Succeeds(events)
    requires var s := Exec([], events); s.save.Inserting? && s.save.current <= |s.save.snapshot|
    ensures Legal([], more) && Succeeds(more)
    ensures var s := Exec([], events);
            Exec([], more) == s.(staged := Exec([], more).staged,
                                  save := Inserting(s.save.snapshot, |s.save.snapshot|))
    decreases |Exec([], events).save.snapshot| - Exec([], events).save.current
  {
    var s := Exec([], events);
    if s.save.current == |s.save.snapshot| {
      more := events;
    } else {
      Then([], events, Insert(true), Step(s, Insert(true)));
      more := InsertsFinish(events + [Insert(true)]);
    }
  }

  // 1001 draws before a save in which every statement succeeds: the first draw is lost.
  lemma OverflowLosesDraw()
    ensures exists events :: Legal([], events) && Succeeds(events) && var s := Exec([], events);
              s.save.Idle? && |s.log| == MAX_HISTORY + 1 && s.table + Unpersisted(s.history) != Numbered(s.log)
  {
    var draws := DrawsOnly(MAX_HISTORY + 1);
    RunKeeps([], draws, 0);
    var s := Exec([], draws);
    UnpersistedIsTail(s.log, 0);
    var snapshot := Unpersisted(s.history);
    assert |snapshot| == MAX_HISTORY && snapshot[0].number == 2;
    Then([], draws, Begin, s.(staged := [], save := Inserting(snapshot, 0)));
    var inserted := InsertsFinish(draws + [Begin]);
    var t := Exec([], inserted);
    assert Loses(t, Mark, 0);
    Then([], inserted, Mark, Step(t, Mark));
    var marked := inserted + [Mark];
    Then([], marked, Commit(true), Step(Exec([], marked), Commit(true)));
    var events := marked + [Commit(true)];
    assert Init(events) == marked && Init(marked) == inserted;
    assert !LossFree([], marked, 0) && !LossFree([], events, 0);
    RunKeeps([], events, 0);
    var u := Exec([], events);
    KeptExactly(u, 0);
    AllAboveZero(u);
    assert u.table + Marked(u) == u.table;
  }

  // ---------------------------------------------------------------- the class

  // The player's history, the open transaction and the table, with one method per step.
  class HistorySaver {
    const history: GachaHistory
    var table: seq<GachaRecord>
    var staged: seq<GachaRecord>
    var save: Save
    ghost var log: seq<int>

    ghost function Value(): State
      reads this, history
    {
      State(log, history.Value(), table, staged, save)
    }

    // loaded is the history that was read back, none for a new player.
    constructor (loaded: GachaHistory, ghost draws: seq<int>)
      requires loaded.Value() == RecordAll(EMPTY, draws)
      ensures Value() == Start(draws) && history == loaded
    {
      history := loaded;
      table, staged, save, log := [], [], Idle, draws;
    }

    method Record(rarity: int)
      modifies this, history
      ensures Value() == Step(old(Value()), Draw(rarity))
    {
      history.Record(rarity);
      log := log + [rarity];
    }

    method StartTransaction()
      requires save.Idle?
      modifies this
      ensures Value() == Step(old(Value()), Begin)
    {
      var unpersisted := history.GetUnpersisted();
      staged := [];
      save := if unpersisted == [] then Committing else Inserting(unpersisted, 0);
    }

    // One INSERT of at most BATCH_SIZE rows; a failure rolls the transaction back.
    method InsertBatch(ok: bool)
      requires Enabled(Value(), Insert(ok))
      modifies this
      ensures Value() == Step(old(Value()), Insert(ok))
      ensures var left := |old(save.snapshot)| - old(save.current);
              |staged| == if ok then |old(staged)| + (if left > 100 then 100 else left) else 0
    {
      var Inserting(snapshot, current) := save;
      var batchEnd := Min(current + BATCH_SIZE, |snapshot|);
      if ok {
        var rows := [];
        for i := current to batchEnd
          invariant rows == snapshot[current..i]
        {
          rows := rows + [snapshot[i]];
        }
        staged := staged + rows;
        save := Inserting(snapshot, batchEnd);
      } else {
        staged, save := [], Idle;
      }
    }

    method Mark()
      requires Enabled(Value(), Event.Mark)
      modifies this, history
      ensures Value() == Step(old(Value()), Event.Mark)
    {
      history.MarkPersisted(save.snapshot[|save.snapshot| - 1].number);
      save := Committing;
    }

    method Commit(ok: bool)
      requires save.Committing?
      modifies this
      ensures Value() == Step(old(Value()), Event.Commit(ok))
    {
      if ok {
        table := table + staged;
      }
      staged, save := [], Idle;
    }

    // The batch loop, nothing in between: every row of the snapshot is staged once and in order, or none stays.
    method InsertAll(answers: nat -> bool) returns (statements: nat)
      requires save.Inserting? && save.current == 0 && staged == []
      modifies this
      ensures table == old(table) && log == old(log)
      ensures var snapshot := old(save.snapshot);
              if save.Inserting? then
                && save == Inserting(snapshot, |snapshot|) && staged == snapshot
                && 100 * statements < |snapshot| + 100 <= 100 * statements + 100
              else save.Idle? && staged == []
    {
      ghost var snapshot := save.snapshot;
      statements := 0;
      while save.Inserting? && save.current < |save.snapshot|
        invariant table == old(table) && log == old(log)
        invariant save.Inserting? ==>
          save.snapshot == snapshot && save.current <= |snapshot| && staged == snapshot[..save.current]
        invariant save.Inserting? ==> save.current == Min(100 * statements, |snapshot|)
        invariant save.Inserting? && statements > 0 ==> 100 * (statements - 1) < |snapshot|
        invariant !save.Inserting? ==> save.Idle? && staged == []
        decreases if save.Inserting? then |snapshot| + 1 - save.current else 0
      {
        ghost var current := save.current;
        InsertBatch(answers(statements));
        if save.Inserting? { assert snapshot[..current] + snapshot[current..save.current] == snapshot[..save.current]; }
        statements := statements + 1;
      }
    }

    // A whole save with nothing in between stores every unpersisted record and leaves none, or stores nothing;
    // the watermark moves only if every INSERT succeeded.
    method Save(answers: nat -> bool, commits: bool) returns (success: bool)
      requires save.Idle? && Rising(history.history)
      modifies this, history
      ensures save.Idle? && staged == []
      ensures table == old(table) + if success then Unpersisted(old(history.Value())) else []
      ensures success ==> Unpersisted(history.Value()) == []
      ensures !success && commits ==> history.Value() == old(history.Value())
    {
      StartTransaction();
      if save.Inserting? {
        var _ := InsertAll(answers);
        if save.Idle? {
          return false;
        }
        LastIsGreatest(history.history, history.persistedSeq);
        Mark();
      }
      Commit(commits);
      success := commits;
    }
  }

  // In a ring with growing numbers, the last unpersisted record leaves nothing behind it.
  lemma {:induction false} LastIsGreatest(records: seq<GachaRecord>, mark: nat)
    requires forall i, j {:trigger records[i], records[j]} ::
               0 <= i < j < |records| ==> records[i].number < records[j].number
    requires After(records, mark) != []
    ensures var pending := After(records, mark);
            pending[|pending| - 1].number > mark && After(records, pending[|pending| - 1].number) == []
  {
    var last := |records| - 1;
    var older, rec := records[..last], records[last];
    assert records == older + [rec];
    AfterAppend(older, rec, mark);
    if rec.number > mark {
      AfterNothing(records, rec.number);
    } else {
      AfterNothing(older, mark);
    }
  }
}
