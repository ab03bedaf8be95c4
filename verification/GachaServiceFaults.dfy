// The bound on paid draws cannot be improved: whatever the kind of fault, k of them can cost k draws more than one.
module GachaServiceFaults {
  import opened Runs
  import opened Wallets
  import opened Wrappers
  import opened GachaServices

  datatype Fault = NoConnection | Expiry | NoReply | NoStore

  // The event is no fault, or one of that kind.
  predicate Only(e: Event, f: Fault) {
    match e
    case Lock(_, answer) => answer.Degraded? ==> f.NoConnection?
    case Expire(_) => f.Expiry?
    case Serialize(_, ok) => !ok ==> f.NoReply?
    case Save(_, ok, _) => !ok ==> f.NoStore?
    case _ => true
  }

  // A run with no other kind of fault leads from s to t.
  ghost predicate Reaches(s: State, t: State, f: Fault) {
    exists events :: Legal(s, events) && Exec(s, events) == t && forall e :: e in events ==> Only(e, f)
  }

  lemma Next(s: State, t: State, e: Event, u: State, f: Fault)
    requires Reaches(s, t, f) && Enabled(t, e) && Step(t, e) == u && Only(e, f)
    ensures Reaches(s, u, f)
  {
    var events :| Legal(s, events) && Exec(s, events) == t && forall e :: e in events ==> Only(e, f);
    assert Init(events + [e]) == events;
    assert Legal(s, events + [e]) && Exec(s, events + [e]) == u;
  }

  const TRACE := "t"
  const NEW := Request(TRACE, 1, [], Arrived)
  const DRAWN := Request(TRACE, 1, [7], Adding([7]))

  // The request after a draw that was paid and whose key was freed again.
  function Ended(f: Fault): Request {
    Request(TRACE, 1, [7], Done(if f.NoReply? then Failed else Success))
  }

  // Which requests end, with their key free, before the next begins.
  predicate Frees(f: Fault) {
    f.NoReply? || f.NoStore?
  }

  // n requests with one trace, the first i of them paid. Each but the first has met a fault before its own start,
  // or each has met one at its end.
  function Retried(f: Fault, n: nat, i: nat): State
    requires i <= n
  {
    State(if i == 0 || Frees(f) then map[] else map[TRACE := Processing],
          DRAW_COST * (n - i),
          multiset{}[7 := if Frees(f) then i else 0],
          seq(n, j => if j >= i then NEW else if Frees(f) then Ended(f) else DRAWN),
          multiset{}[TRACE := if Frees(f) then i else if i == 0 then 0 else i - 1])
  }

  // ---------------------------------------------------------------- one request

  // Request r, with its key in place, pays and draws without touching anything else.
  function Paid(s: State, r: nat): State
    requires r < |s.requests| && s.currency >= DRAW_COST
  {
    s.(currency := s.currency - DRAW_COST, requests := s.requests[r := DRAWN])
  }

  lemma PayAndDraw(s: State, t: State, r: nat, f: Fault)
    requires Reaches(s, t, f) && r < |t.requests| && t.requests[r] == NEW.(pc := Paying)
    requires t.redis == map[TRACE := Processing] && t.currency >= DRAW_COST
    ensures Reaches(s, Paid(t, r), f)
  {
    var drawing := t.(currency := t.currency - DRAW_COST, requests := t.requests[r := NEW.(pc := Drawing)]);
    Next(s, t, Spend(r), drawing, f);
    var drawn := drawing.(requests := drawing.requests[r := DRAWN]);
    Next(s, drawing, Draw(r, Some([7])), drawn, f);
    assert drawing.requests[r := DRAWN] == t.requests[r := DRAWN];
  }

  function Locked(s: State, r: nat): State
    requires r < |s.requests|
  {
    s.(redis := map[TRACE := Processing], requests := s.requests[r := NEW.(pc := Paying)])
  }

  // A free key is taken.
  lemma LockFree(s: State, t: State, r: nat, f: Fault)
    requires Reaches(s, t, f) && r < |t.requests| && t.requests[r] == NEW && t.redis == map[]
    ensures Reaches(s, Locked(t, r), f)
  {
    assert map[][TRACE := Processing] == map[TRACE := Processing];
    Next(s, t, Lock(r, Answered), Locked(t, r), f);
  }

  // A key that is taken does not help when it cannot be seen or has expired.
  lemma LockAgain(s: State, t: State, r: nat, f: Fault)
    requires Reaches(s, t, f) && r < |t.requests| && t.requests[r] == NEW
    requires t.redis == map[TRACE := Processing] && !Frees(f)
    ensures Reaches(s, Locked(t, r).(faults := t.faults + multiset{TRACE}), f)
  {
    var u := Locked(t, r).(faults := t.faults + multiset{TRACE});
    if f.NoConnection? {
      Next(s, t, Lock(r, Degraded), u, f);
    } else {
      var expired := t.(redis := map[], faults := t.faults + multiset{TRACE});
      assert map[TRACE := Processing] - {TRACE} == map[];
      Next(s, t, Expire(TRACE), expired, f);
      LockFree(s, expired, r, f);
    }
  }

  function Freed(s: State, r: nat, f: Fault): State
    requires r < |s.requests|
  {
    s.(redis := map[], inventory := s.inventory + multiset{7}, requests := s.requests[r := Ended(f)],
       faults := s.faults + multiset{TRACE})
  }

  // Granted, and then the reply is lost: the key is freed although the draw is paid.
  lemma LoseReply(s: State, t: State, r: nat, f: Fault)
    requires Reaches(s, t, f) && r < |t.requests| && t.requests[r] == DRAWN
    requires t.redis == map[TRACE := Processing] && Frees(f)
    ensures Reaches(s, Freed(t, r, f), f)
  {
    assert [7][1..] == [];
    var granted := t.(inventory := t.inventory + multiset{7}, requests := t.requests[r := DRAWN.(pc := Adding([]))]);
    Next(s, t, Grant(r), granted, f);
    FailReply(s, granted, r, f);
    assert granted.requests[r := Ended(f)] == t.requests[r := Ended(f)];
  }

  lemma FailReply(s: State, t: State, r: nat, f: Fault)
    requires Reaches(s, t, f) && r < |t.requests| && t.requests[r] == DRAWN.(pc := Adding([]))
    requires t.redis == map[TRACE := Processing] && Frees(f)
    ensures Reaches(s, t.(redis := map[], requests := t.requests[r := Ended(f)],
                          faults := t.faults + multiset{TRACE}), f)
  {
    var unlocking := t.(requests := t.requests[r := DRAWN.(pc := Unlocking(Ended(f).pc.reply))],
                        faults := t.faults + multiset{TRACE});
    if f.NoReply? {
      Next(s, t, Serialize(r, false), unlocking, f);
    } else {
      var saving := t.(requests := t.requests[r := DRAWN.(pc := Saving)]);
      Next(s, t, Serialize(r, true), saving, f);
      assert saving.requests[r := unlocking.requests[r]] == unlocking.requests;
      Next(s, saving, Save(r, false, false), unlocking, f);
    }
    FreeKey(s, unlocking, r, f);
    assert unlocking.requests[r := Ended(f)] == t.requests[r := Ended(f)];
  }

  lemma FreeKey(s: State, t: State, r: nat, f: Fault)
    requires Reaches(s, t, f) && r < |t.requests| && t.redis == map[TRACE := Processing]
    requires t.requests[r] == DRAWN.(pc := Unlocking(Ended(f).pc.reply))
    ensures Reaches(s, t.(redis := map[], requests := t.requests[r := Ended(f)]), f)
  {
    assert map[TRACE := Processing] - {TRACE} == map[];
    Next(s, t, Unlock(r, true), t.(redis := map[], requests := t.requests[r := Ended(f)]), f);
  }

  // ---------------------------------------------------------------- all of them

  lemma Retry(f: Fault, n: nat, i: nat)
    requires i < n && Reaches(Retried(f, n, 0), Retried(f, n, i), f)
    ensures Reaches(Retried(f, n, 0), Retried(f, n, i + 1), f)
  {
    var s, t := Retried(f, n, 0), Retried(f, n, i);
    assert t.requests[i] == NEW;
    if Frees(f) {
      LockFree(s, t, i, f);
      PayAndDraw(s, Locked(t, i), i, f);
      LoseReply(s, Paid(Locked(t, i), i), i, f);
      FreedIsNext(f, n, i);
    } else if i == 0 {
      LockFree(s, t, i, f);
      PayAndDraw(s, Locked(t, i), i, f);
      PaidIsNext(f, n, i, Locked(t, i));
    } else {
      LockAgain(s, t, i, f);
      var locked := Locked(t, i).(faults := t.faults + multiset{TRACE});
      PayAndDraw(s, locked, i, f);
      PaidIsNext(f, n, i, locked);
    }
  }

  lemma FreedIsNext(f: Fault, n: nat, i: nat)
    requires i < n && Frees(f)
    ensures Freed(Paid(Locked(Retried(f, n, i), i), i), i, f) == Retried(f, n, i + 1)
  {
    var t := Retried(f, n, i);
    assert t.requests[i := NEW.(pc := Paying)][i := DRAWN][i := Ended(f)] == Retried(f, n, i + 1).requests;
    assert t.inventory + multiset{7} == Retried(f, n, i + 1).inventory;
    assert t.faults + multiset{TRACE} == Retried(f, n, i + 1).faults;
  }

  lemma PaidIsNext(f: Fault, n: nat, i: nat, locked: State)
    requires i < n && !Frees(f)
    requires var t := Retried(f, n, i);
             locked == Locked(t, i).(faults := if i == 0 then t.faults else t.faults + multiset{TRACE})
    ensures Paid(locked, i) == Retried(f, n, i + 1)
  {
    var t := Retried(f, n, i);
    assert t.requests[i := NEW.(pc := Paying)][i := DRAWN] == Retried(f, n, i + 1).requests;
    assert locked.faults == Retried(f, n, i + 1).faults;
  }

  lemma {:induction false} Retries(f: Fault, n: nat, i: nat)
    requires i <= n
    ensures Reaches(Retried(f, n, 0), Retried(f, n, i), f)
  {
    if i == 0 {
      assert Legal(Retried(f, n, 0), []) && Exec(Retried(f, n, 0), []) == Retried(f, n, 0);
    } else {
      Retries(f, n, i - 1);
      Retry(f, n, i - 1);
    }
  }

  // k faults, and k + 1 requests paid.
  function Final(f: Fault, k: nat): State {
    if Frees(f) then Paid(Locked(Retried(f, k + 1, k), k), k) else Retried(f, k + 1, k + 1)
  }

  lemma FinalReached(f: Fault, k: nat)
    ensures Reaches(Retried(f, k + 1, 0), Final(f, k), f)
  {
    if Frees(f) {
      var s, t := Retried(f, k + 1, 0), Retried(f, k + 1, k);
      Retries(f, k + 1, k);
      LockFree(s, t, k, f);
      PayAndDraw(s, Locked(t, k), k, f);
    } else {
      Retries(f, k + 1, k + 1);
    }
  }

  lemma FinalPaid(f: Fault, k: nat)
    ensures var t := Final(f, k);
            && |t.requests| == k + 1 && t.faults[TRACE] == k
            && forall r :: 0 <= r < |t.requests| ==> t.requests[r].trace == TRACE && t.requests[r].Granted()
  {
    var t := Final(f, k);
    forall r | 0 <= r < |t.requests| ensures t.requests[r].trace == TRACE && t.requests[r].Granted() {
      assert t.requests[r] == if Frees(f) && r < k then Ended(f) else DRAWN;
    }
  }

  lemma StartIsInitial(f: Fault, n: nat)
    ensures Initial(Retried(f, n, 0))
  {
    assert Retried(f, n, 0).faults == multiset{};
  }

  // For every kind of fault and every number k of them, a run with these faults alone in which all k + 1 requests
  // of one trace are paid and drawn.
  lemma BoundIsTight(f: Fault, k: nat)
    ensures exists s, t :: Initial(s) && Reaches(s, t, f) && |t.requests| == k + 1 && t.faults[TRACE] == k
              && forall r :: 0 <= r < |t.requests| ==> t.requests[r].trace == TRACE && t.requests[r].Granted()
  {
    StartIsInitial(f, k + 1);
    FinalReached(f, k);
    FinalPaid(f, k);
  }
}
