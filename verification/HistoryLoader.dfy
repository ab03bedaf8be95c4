// PlayerLoader::LoadGachaHistory: the newest rows of the history table, replayed oldest first into the history
// of a new player object.
module HistoryLoading {
  import opened GachaHistories
  import opened GachaDraws
  import P = HistoryPersistence

  const MAX_LOAD := 500

  // The answer of the query on a table that holds log, oldest row first: newest first, at most MAX_LOAD rows.
  function NewestRows(log: seq<int>): seq<int> {
    seq(Min(|log|, MAX_LOAD), i requires 0 <= i < |log| => log[|log| - 1 - i])
  }

  function LastRows(log: seq<int>): seq<int> {
    log[|log| - Min(|log|, MAX_LOAD)..]
  }

  method LoadGachaHistory(log: seq<int>) returns (history: GachaHistory)
    ensures fresh(history) && history.Value() == RecordAll(EMPTY, LastRows(log))
  {
    var rows := NewestRows(log);
    var rarities := [];
    for i := 0 to |rows|
      invariant rarities == rows[..i]
    {
      rarities := rarities + [rows[i]];
    }
    history := new GachaHistory();
    ghost var replayed := LastRows(log);
    for i := |rarities| downto 0
      invariant fresh(history) && history.Value() == RecordAll(EMPTY, replayed[..|rarities| - i])
    {
      RecordNext(EMPTY, replayed[..|rarities| - i - 1], rarities[i]);
      assert replayed[..|rarities| - i] == replayed[..|rarities| - i - 1] + [rarities[i]];
      history.Record(rarities[i]);
    }
    assert replayed[..|rarities|] == replayed;
  }

  // The loaded counter is the trailing run of the whole table, cut at 500.
  lemma LoadedPity(log: seq<int>)
    ensures RecordAll(EMPTY, LastRows(log)).pity == Min(Pity(0, log), 500)
  {
    var older, newer := log[..|log| - Min(|log|, MAX_LOAD)], LastRows(log);
    RecordAllPity(EMPTY, newer);
    assert log == older + newer;
    PityAppend(0, older, newer);
    PityAtLeast(0, older);
    if 5 in newer {
      PityWithFive(0, newer);
      PityWithFive(Pity(0, older), newer);
    } else {
      PityWithoutFive(0, newer);
      PityWithoutFive(Pity(0, older), newer);
    }
  }

  lemma {:induction false} PityAtLeast(start: int, log: seq<int>)
    requires start >= 0
    ensures 0 <= Pity(start, log) <= start + |log|
  {
    if log != [] { PityAtLeast(start, log[..|log| - 1]); }
  }

  // The loaded counter is right exactly when the trailing run is at most 500 draws long.
  lemma LoadedPityExactly(log: seq<int>)
    ensures RecordAll(EMPTY, LastRows(log)).pity == Pity(0, log) <==> Pity(0, log) <= 500
  {
    LoadedPity(log);
  }

  // Hence for every table that keeps the 90-draw promise, and the player goes on within the bound.
  lemma LoadedPityOfPlayedLog(log: seq<int>)
    requires FiveInEveryNinety(log)
    ensures RecordAll(EMPTY, LastRows(log)).pity == Pity(0, log) && Within(Pity(0, log))
  {
    LoadedPity(log);
    PityAtLeast(0, log);
    if |log| > HARD_PITY {
      var i := |log| - HARD_PITY - 1;
      var last := Window(log, i);
      assert log == log[..i] + last;
      PityAppend(0, log[..i], last);
      PityWithFive(Pity(0, log[..i]), last);
    }
  }

  // Rows read back count as unpersisted.
  lemma ReloadedRowsAreUnpersisted(log: seq<int>)
    ensures Unpersisted(RecordAll(EMPTY, LastRows(log))) == Newest(LastRows(log)) == P.Numbered(LastRows(log))
    ensures |Unpersisted(RecordAll(EMPTY, LastRows(log)))| == Min(|log|, MAX_LOAD)
  {
    RingIsNewest(LastRows(log));
    AfterIsSuffix(Newest(LastRows(log)), 1, 0);
  }

  // A login followed by a save of the history, with no draw in between: on success the table has the rows that
  // were read a second time, in order and behind all it had.
  method ReloadAndSave(stored: seq<int>, answers: nat -> bool, commits: bool)
    returns (saver: P.HistorySaver, success: bool)
    ensures stored + P.Rarities(saver.table) == stored + if success then LastRows(stored) else []
  {
    var history := LoadGachaHistory(stored);
    RingIsNewest(LastRows(stored));
    ReloadedRowsAreUnpersisted(stored);
    saver := new P.HistorySaver(history, LastRows(stored));
    success := saver.Save(answers, commits);
    assert P.Rarities(P.Numbered(LastRows(stored))) == LastRows(stored);
  }
}
