// GachaHistory: the bounded, sequence-numbered record of draws, its pity counter and its persisted watermark.
module GachaHistories {

  const MAX_HISTORY := 1000
  const SEQ_LIMIT := 0x1_0000_0000  // uint32_t sequence numbers wrap here

  datatype GachaRecord = GachaRecord(number: nat, rarity: int)

  datatype History = History(records: seq<GachaRecord>, pity: int, nextSeq: nat, persistedSeq: nat)

  const EMPTY := History([], 0, 1, 0)

  function Min(a: int, b: int): int {
    if a <= b then a else b
  }

  function Max(a: int, b: int): int {
    if a <= b then b else a
  }

  function Trim(records: seq<GachaRecord>): seq<GachaRecord> {
    if |records| > MAX_HISTORY then records[1..] else records
  }

  function RecordOn(h: History, rarity: int): History {
    History(Trim(h.records + [GachaRecord(h.nextSeq, rarity)]),
            if rarity == 5 then 0 else h.pity + 1,
            (h.nextSeq + 1) % SEQ_LIMIT,
            h.persistedSeq)
  }

  function After(records: seq<GachaRecord>, mark: nat): seq<GachaRecord> {
    if records == [] then []
    else (if records[0].number > mark then [records[0]] else []) + After(records[1..], mark)
  }

  function Unpersisted(h: History): seq<GachaRecord> {
    After(h.records, h.persistedSeq)
  }

  function MarkOn(h: History, number: nat): History {
    if number > h.persistedSeq then h.(persistedSeq := number) else h
  }

  function RecordAll(h: History, log: seq<int>): History {
    if log == [] then h else RecordOn(RecordAll(h, log[..|log| - 1]), log[|log| - 1])
  }

  // ---------------------------------------------------------------- pity

  // The length of the run of draws since the last five-star, on top of a run of length start.
  function Pity(start: int, log: seq<int>): int {
    if log == [] then start
    else if log[|log| - 1] == 5 then 0
    else 1 + Pity(start, log[..|log| - 1])
  }

  lemma {:induction false} PityAppend(start: int, a: seq<int>, b: seq<int>)
    ensures Pity(start, a + b) == Pity(Pity(start, a), b)
  {
    if b == [] {
      assert a + b == a;
    } else {
      assert (a + b)[..|a + b| - 1] == a + b[..|b| - 1];
      PityAppend(start, a, b[..|b| - 1]);
    }
  }

  lemma {:induction false} PityWithoutFive(start: int, log: seq<int>)
    requires 5 !in log
    ensures Pity(start, log) == start + |log|
  {
    if log != [] { PityWithoutFive(start, log[..|log| - 1]); }
  }

  lemma {:induction false} PityWithFive(start: int, log: seq<int>)
    requires 5 in log
    ensures 0 <= Pity(start, log) < |log| && Pity(start, log) == Pity(0, log)
  {
    if log[|log| - 1] != 5 {
      assert log == log[..|log| - 1] + [log[|log| - 1]];
      PityWithFive(start, log[..|log| - 1]);
    }
  }

  // ---------------------------------------------------------------- the ring

  // The number of the record before the ring's first.
  function Dropped(log: seq<int>): nat {
    if |log| > MAX_HISTORY then |log| - MAX_HISTORY else 0
  }

  // The newest MAX_HISTORY entries of a log, numbered from 1.
  function Newest(log: seq<int>): seq<GachaRecord> {
    seq(|log| - Dropped(log), i requires 0 <= i < |log| - Dropped(log) =>
      GachaRecord(Dropped(log) + i + 1, log[Dropped(log) + i]))
  }

  // From an empty history, as long as the numbers have not wrapped, the ring is the newest part of the log.
  lemma {:induction false} RingIsNewest(log: seq<int>)
    requires |log| + 1 < SEQ_LIMIT
    ensures RecordAll(EMPTY, log) == History(Newest(log), Pity(0, log), |log| + 1, 0)
    ensures |Newest(log)| == Min(|log|, 1000)
  {
    if log == [] {
      assert Newest(log) == [];
    } else {
      var k := |log| - 1;
      RingIsNewest(log[..k]);
      NewestStep(log);
    }
  }

  lemma NewestStep(log: seq<int>)
    requires log != []
    ensures Newest(log) == Trim(Newest(log[..|log| - 1]) + [GachaRecord(|log|, log[|log| - 1])])
  {
    var older, all := log[..|log| - 1], Newest(log[..|log| - 1]) + [GachaRecord(|log|, log[|log| - 1])];
    forall i | 0 <= i < |all| ensures all[i] == GachaRecord(Dropped(older) + i + 1, log[Dropped(older) + i]) { }
  }

  // ---------------------------------------------------------------- the watermark

  lemma {:induction false} AfterNothing(records: seq<GachaRecord>, mark: nat)
    requires forall i :: 0 <= i < |records| ==> records[i].number <= mark
    ensures After(records, mark) == []
  {
    if records != [] {
      assert forall i :: 0 <= i < |records[1..]| ==> records[1..][i] == records[i + 1];
      AfterNothing(records[1..], mark);
    }
  }

  // In a ring with consecutive numbers the unpersisted records are a suffix.
  lemma {:induction false} AfterIsSuffix(records: seq<GachaRecord>, first: nat, mark: nat)
    requires forall i :: 0 <= i < |records| ==> records[i].number == first + i
    ensures var k := if mark < first then 0 else if mark - first + 1 > |records| then |records| else mark - first + 1;
            After(records, mark) == records[k..]
  {
    if records != [] {
      var rest := records[1..];
      assert forall i :: 0 <= i < |rest| ==> rest[i] == records[i + 1];
      AfterIsSuffix(rest, first + 1, mark);
      if mark < first { assert [records[0]] + rest == records; }
    }
  }

  lemma {:induction false} AfterAppend(records: seq<GachaRecord>, rec: GachaRecord, mark: nat)
    ensures After(records + [rec], mark) == After(records, mark) + if rec.number > mark then [rec] else []
  {
    if records == [] {
      assert records + [rec] == [rec];
    } else {
      assert (records + [rec])[1..] == records[1..] + [rec];
      AfterAppend(records[1..], rec, mark);
      var first, rest := if records[0].number > mark then [records[0]] else [], After(records[1..], mark);
      assert first + (rest + [rec]) == first + rest + [rec];
    }
  }

  // After 2^32 - 1 draws, all persisted, the number wraps to 0 and no later draw is ever found unpersisted.
  lemma {:induction false} WrapHidesRecords(h: History, log: seq<int>)
    requires h.nextSeq == 0 && h.persistedSeq == SEQ_LIMIT - 1
    requires forall i :: 0 <= i < |h.records| ==> h.records[i].number < SEQ_LIMIT
    ensures Unpersisted(RecordAll(h, log)) == []
  {
    NumbersStaySmall(h, log);
    AfterNothing(RecordAll(h, log).records, h.persistedSeq);
  }

  lemma {:induction false} NumbersStaySmall(h: History, log: seq<int>)
    requires h.nextSeq < SEQ_LIMIT && forall i :: 0 <= i < |h.records| ==> h.records[i].number < SEQ_LIMIT
    ensures var r := RecordAll(h, log);
            && r.nextSeq < SEQ_LIMIT && r.persistedSeq == h.persistedSeq
            && forall i :: 0 <= i < |r.records| ==> r.records[i].number < SEQ_LIMIT
  {
    if log != [] { NumbersStaySmall(h, log[..|log| - 1]); }
  }

  // ---------------------------------------------------------------- the class

  class GachaHistory {
    var history: seq<GachaRecord>
    var pityCount: int
    var nextSeq: nat
    var persistedSeq: nat
    var ownerDirty: bool  // the owner's GACHA_HISTORY bit

    function Value(): History
      reads this
    {
      History(history, pityCount, nextSeq, persistedSeq)
    }

    constructor ()
      ensures Value() == EMPTY && !ownerDirty
    {
      history, pityCount, nextSeq, persistedSeq, ownerDirty := [], 0, 1, 0, false;
    }

    method Record(rarity: int)
      modifies this
      ensures Value() == RecordOn(old(Value()), rarity) && ownerDirty
    {
      var rec := GachaRecord(nextSeq, rarity);
      nextSeq := (nextSeq + 1) % SEQ_LIMIT;
      history := history + [rec];
      if |history| > MAX_HISTORY {
        history := history[1..];
      }
      if rarity == 5 {
        pityCount := 0;
      } else {
        pityCount := pityCount + 1;
      }
      ownerDirty := true;
    }

    method GetUnpersisted() returns (result: seq<GachaRecord>)
      ensures result == Unpersisted(Value())
    {
      result := [];
      for i := 0 to |history|
        invariant result == After(history[..i], persistedSeq)
      {
        assert history[..i + 1] == history[..i] + [history[i]];
        AfterAppend(history[..i], history[i], persistedSeq);
        if history[i].number > persistedSeq {
          result := result + [history[i]];
        }
      }
      assert history[..|history|] == history;
    }

    method MarkPersisted(number: nat)
      modifies this`persistedSeq
      ensures Value() == MarkOn(old(Value()), number) && persistedSeq == Max(old(persistedSeq), number)
    {
      if number > persistedSeq {
        persistedSeq := number;
      }
    }
  }
}
