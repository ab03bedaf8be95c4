// The service as an object: Redis, the player's balance and inventory, the requests; one method per step, and
// the two handlers run without interruption.
module GachaServers {
  import opened Wrappers
  import opened Wallets
  import opened GachaServices
  import opened GachaServiceSafety

  // What the outside does to one request.
  datatype Script = Script(
    answer: Answer, looks: bool, outcome: Option<seq<int>>, serializes: bool,
    saves: bool, saveApplied: bool, unlocks: bool)

  class GachaServer {
    var redis: map<string, Entry>
    const currency: Currency
    const inventory: Inventory
    var requests: seq<Request>
    ghost var faults: multiset<string>

    ghost function Value(): State
      reads this, currency, inventory
    {
      State(redis, currency.value, inventory.contents, requests, faults)
    }

    ghost predicate Valid()
      reads this, currency, inventory
    {
      currency.Valid() && inventory.Valid()
    }

    constructor (balance: nat, arrived: seq<Request>)
      requires balance < U64 && Initial(State(map[], balance, multiset{}, arrived, multiset{}))
      ensures Valid() && fresh(currency) && fresh(inventory)
      ensures Value() == State(map[], balance, multiset{}, arrived, multiset{})
    {
      redis, requests, faults := map[], arrived, multiset{};
      currency := new Currency(balance);
      inventory := new Inventory();
    }

    // SETNX of CheckAndLock.
    method Lock(r: nat, answer: Answer)
      requires Valid() && Enabled(Value(), Event.Lock(r, answer))
      modifies this
      ensures Valid() && Value() == Step(old(Value()), Event.Lock(r, answer))
    {
      ghost var after := Step(Value(), Event.Lock(r, answer));
      var q := requests[r];
      var isNew := q.trace != "" && answer.Answered? && q.trace !in redis;
      if q.trace == "" || answer.Degraded? || isNew {
        requests := requests[r := q.(pc := Paying)];
      } else {
        requests := requests[r := q.(pc := Checking)];
      }
      if q.trace != "" && answer.Degraded? {
        faults := faults + multiset{q.trace};
      }
      if isNew || (q.trace != "" && answer == Unanswered(true) && q.trace !in redis) {
        redis := redis[q.trace := Processing];
      }
      assert Value() == after;
    }

    // GET of CheckAndLock.
    method Look(r: nat, ok: bool)
      requires Valid() && Enabled(Value(), Event.Look(r, ok))
      modifies this
      ensures Valid() && Value() == Step(old(Value()), Event.Look(r, ok))
    {
      ghost var after := Step(Value(), Event.Look(r, ok));
      var q := requests[r];
      if ok && q.trace in redis && redis[q.trace].Saved? {
        requests := requests[r := q.(pc := Done(Completed(redis[q.trace].payload)))];
      } else {
        requests := requests[r := q.(pc := Done(InProgress))];
      }
      assert Value() == after;
    }

    method Spend(r: nat)
      requires Valid() && Enabled(Value(), Event.Spend(r))
      modifies this, currency
      ensures Valid() && Value() == Step(old(Value()), Event.Spend(r))
    {
      ghost var after := Step(Value(), Event.Spend(r));
      var q := requests[r];
      var ok, _ := currency.Spend(q.Cost(), []);
      requests := requests[r := q.(pc := if ok then Drawing else Unlocking(Insufficient))];
      assert Value() == after;
    }

    method Draw(r: nat, outcome: Option<seq<int>>)
      requires Valid() && Enabled(Value(), Event.Draw(r, outcome))
      modifies this
      ensures Valid() && Value() == Step(old(Value()), Event.Draw(r, outcome))
    {
      ghost var after := Step(Value(), Event.Draw(r, outcome));
      var q := requests[r];
      match outcome {
        case Some(items) => requests := requests[r := q.(items := items, pc := Adding(items))];
        case None => requests := requests[r := q.(pc := Refunding)];
      }
      assert Value() == after;
    }

    method Refund(r: nat)
      requires Valid() && Enabled(Value(), Event.Refund(r))
      modifies this, currency
      ensures Valid() && Value() == Step(old(Value()), Event.Refund(r))
    {
      ghost var after := Step(Value(), Event.Refund(r));
      var q := requests[r];
      currency.Add(q.Cost());
      requests := requests[r := q.(pc := Unlocking(Failed))];
      assert Value() == after;
    }

    method Grant(r: nat)
      requires Valid() && Enabled(Value(), Event.Grant(r))
      modifies this, inventory
      ensures Valid() && Value() == Step(old(Value()), Event.Grant(r))
    {
      ghost var after := Step(Value(), Event.Grant(r));
      var q := requests[r];
      inventory.AddItem(q.pc.left[0], 1);
      assert inventory.contents == old(inventory.contents) + multiset{q.pc.left[0]};
      requests := requests[r := q.(pc := Adding(q.pc.left[1..]))];
      assert Value() == after;
    }

    method Serialize(r: nat, ok: bool)
      requires Valid() && Enabled(Value(), Event.Serialize(r, ok))
      modifies this
      ensures Valid() && Value() == Step(old(Value()), Event.Serialize(r, ok))
    {
      ghost var after := Step(Value(), Event.Serialize(r, ok));
      var q := requests[r];
      if ok {
        requests := requests[r := q.(pc := Saving)];
      } else {
        requests := requests[r := q.(pc := Unlocking(Failed))];
        faults := faults + multiset{q.trace};
      }
      assert Value() == after;
    }

    method SaveResult(r: nat, ok: bool, applied: bool)
      requires Valid() && Enabled(Value(), Event.Save(r, ok, applied))
      modifies this
      ensures Valid() && Value() == Step(old(Value()), Event.Save(r, ok, applied))
    {
      ghost var after := Step(Value(), Event.Save(r, ok, applied));
      var q := requests[r];
      if q.trace != "" && applied {
        redis := redis[q.trace := Saved(q.items)];
      }
      if q.trace == "" || ok {
        requests := requests[r := q.(pc := Done(Success))];
      } else {
        requests := requests[r := q.(pc := Unlocking(Success))];
        faults := faults + multiset{q.trace};
      }
      assert Value() == after;
    }

    method Unlock(r: nat, applied: bool)
      requires Valid() && Enabled(Value(), Event.Unlock(r, applied))
      modifies this
      ensures Valid() && Value() == Step(old(Value()), Event.Unlock(r, applied))
    {
      ghost var after := Step(Value(), Event.Unlock(r, applied));
      var q := requests[r];
      if q.trace != "" && applied {
        redis := redis - {q.trace};
      }
      requests := requests[r := q.(pc := Done(q.pc.reply))];
      assert Value() == after;
    }

    method Expire(t: string)
      requires Valid() && t in redis
      modifies this
      ensures Valid() && Value() == Step(old(Value()), Event.Expire(t))
    {
      ghost var after := Step(Value(), Event.Expire(t));
      redis := redis - {t};
      faults := faults + multiset{t};
      assert Value() == after;
    }

    // Any one step of any request, with what all of them keep.
    method Take(e: Event)
      requires Valid() && Inv(Value()) && Total(Value()) < U64 && Enabled(Value(), e)
      modifies this, currency, inventory
      ensures Valid() && Inv(Value()) && Value() == Step(old(Value()), e) && Total(Value()) == old(Total(Value()))
    {
      StepKeeps(Value(), e);
      StepConserves(Value(), e);
      match e {
        case Lock(r, answer) => Lock(r, answer);
        case Look(r, ok) => Look(r, ok);
        case Spend(r) => Spend(r);
        case Draw(r, outcome) => Draw(r, outcome);
        case Refund(r) => Refund(r);
        case Grant(r) => Grant(r);
        case Serialize(r, ok) => Serialize(r, ok);
        case Save(r, ok, applied) => SaveResult(r, ok, applied);
        case Unlock(r, applied) => Unlock(r, applied);
        case Expire(t) => Expire(t);
      }
    }

    // ---------------------------------------------------------------- uninterrupted

    method CheckAndLock(r: nat, answer: Answer, looks: bool)
      requires Valid() && r < |requests| && requests[r].pc.Arrived?
      modifies this
      ensures Valid()
      ensures |requests| == |old(requests)| && requests == old(requests)[r := old(requests)[r].(pc := requests[r].pc)]
      ensures requests[r].pc == if FirstTime(old(redis), requests[r].trace, answer) then Paying
                                else Done(Refusal(old(redis), requests[r].trace, looks))
      ensures redis == if Takes(old(redis), requests[r].trace, answer) then old(redis)[requests[r].trace := Processing]
                       else old(redis)
      ensures answer.Answered? ==> faults == old(faults)
      ensures answer.Answered? && looks ==> Locked(old(redis), redis, requests[r])
    {
      Lock(r, answer);
      if requests[r].pc.Checking? {
        Look(r, looks);
      }
    }

    // The loop over the drawn items: each goes into the inventory once.
    method AddItems(r: nat)
      requires Valid() && r < |requests| && requests[r].pc.Adding?
      modifies this, inventory
      ensures Valid()
      ensures Value() == AfterGrants(old(Value()), r, |old(requests)[r].pc.left|)
    {
      ghost var s := Value();
      StartGrants(s, r);
      for k := 0 to |requests[r].pc.left|
        invariant Valid() && Value() == AfterGrants(s, r, k)
      {
        NextGrant(s, r, k);
        Grant(r);
      }
    }

    // The charge and the draw; a draw that fails is refunded.
    method Charge(r: nat, outcome: Option<seq<int>>)
      requires Valid() && r < |requests| && requests[r].pc.Paying?
      requires outcome.Some? ==> |outcome.value| == requests[r].draws
      modifies this, currency
      ensures Valid() && redis == old(redis) && |requests| == |old(requests)|
      ensures var q := old(requests)[r];
              if old(currency.value) >= q.Cost() && outcome.Some? then
                && requests == old(requests)[r := q.(items := outcome.value, pc := Adding(outcome.value))]
                && currency.value == old(currency.value) - q.Cost()
              else
                && requests == old(requests)[r := q.(pc := Unlocking(PayReply(old(currency.value), q, outcome, true)))]
                && currency.value == old(currency.value)
    {
      Spend(r);
      if requests[r].pc.Drawing? {
        Draw(r, outcome);
        if outcome.None? {
          Refund(r);
        }
      }
    }

    // From the charge to the end.
    method PayAndDraw(r: nat, c: Script)
      requires Valid() && r < |requests| && requests[r].pc.Paying? && Fits(requests[r], c)
      modifies this, currency, inventory
      ensures Valid()
      ensures |requests| == |old(requests)| && requests == old(requests)[r := requests[r]] && requests[r].pc.Done?
      ensures Concluded(old(Value()), Value(), old(requests)[r], requests[r], c)
      ensures Clean(c) ==> Settled(old(Value()), Value(), old(requests)[r], c)
    {
      ghost var q := requests[r];
      Charge(r, c.outcome);
      if requests[r].pc.Adding? {
        assert Draws(old(currency.value), q, c.outcome);
        Deliver(r, c);
        assert requests[r] == q.(items := c.outcome.value, pc := Done(if c.serializes then Success else Failed));
      } else {
        assert !Draws(old(currency.value), q, c.outcome);
        Refuse(r, c.unlocks);
        assert requests[r] == q.(pc := Done(PayReply(old(currency.value), q, c.outcome, true)));
      }
      assert requests == old(requests)[r := requests[r]];
      assert Concluded(old(Value()), Value(), q, requests[r], c);
      if Clean(c) { ConcludedSettles(old(Value()), Value(), old(requests)[r], requests[r], c); }
    }

    // Nothing was charged, or it was given back: the key is freed, and the request told why.
    method Refuse(r: nat, unlocks: bool)
      requires Valid() && r < |requests| && requests[r].pc.Unlocking?
      modifies this
      ensures Valid() && requests == old(requests)[r := old(requests)[r].(pc := Done(old(requests)[r].pc.reply))]
      ensures var t := old(requests)[r].trace; redis == if unlocks && t != "" then old(redis) - {t} else old(redis)
    {
      Unlock(r, unlocks);
    }

    // The reply, and its store under the key.
    method ReplyAndStore(r: nat, c: Script)
      requires Valid() && r < |requests| && requests[r].pc == Adding([]) && (c.saves ==> c.saveApplied)
      modifies this
      ensures Valid() && |requests| == |old(requests)|
      ensures requests == old(requests)[r := old(requests)[r].(pc := requests[r].pc)]
      ensures requests[r].pc == if !c.serializes then Unlocking(Failed)
                                else if c.saves || requests[r].trace == "" then Done(Success) else Unlocking(Success)
      ensures var q := requests[r];
              redis == if c.serializes && c.saveApplied && q.trace != "" then old(redis)[q.trace := Saved(q.items)]
                       else old(redis)
    {
      Serialize(r, c.serializes);
      if c.serializes {
        SaveResult(r, c.saves, c.saveApplied);
      }
    }

    method Finish(r: nat, c: Script)
      requires Valid() && r < |requests| && requests[r].pc == Adding([]) && (c.saves ==> c.saveApplied)
      modifies this
      ensures Valid()
      ensures |requests| == |old(requests)| && requests[r].pc.Done?
      ensures requests == old(requests)[r := old(requests)[r].(pc := requests[r].pc)]
      ensures requests[r].pc == Done(if c.serializes then Success else Failed)
      ensures var q := requests[r];
              redis == if q.trace == "" then old(redis)
                       else if c.serializes && c.saves then old(redis)[q.trace := Saved(q.items)]
                       else if c.unlocks then old(redis) - {q.trace}
                       else if c.serializes && c.saveApplied then old(redis)[q.trace := Saved(q.items)]
                       else old(redis)
    {
      ReplyAndStore(r, c);
      if requests[r].pc.Unlocking? {
        Unlock(r, c.unlocks);
      }
    }

    // From the paid draw to the end.
    method Deliver(r: nat, c: Script)
      requires Valid() && r < |requests| && requests[r].pc == Adding(requests[r].items) && (c.saves ==> c.saveApplied)
      modifies this, inventory
      ensures Valid() && |requests| == |old(requests)|
      ensures requests == old(requests)[r := old(requests)[r].(pc := Done(if c.serializes then Success else Failed))]
      ensures inventory.contents == old(inventory.contents) + multiset(old(requests)[r].items)
      ensures var q := old(requests)[r];
              redis == if q.trace == "" then old(redis)
                       else if c.serializes && c.saves then old(redis)[q.trace := Saved(q.items)]
                       else if c.unlocks then old(redis) - {q.trace}
                       else if c.serializes && c.saveApplied then old(redis)[q.trace := Saved(q.items)]
                       else old(redis)
    {
      ghost var items := requests[r].items;
      assert items[..|items|] == items && items[|items|..] == [];
      AddItems(r);
      assert redis == old(redis);
      assert requests == old(requests)[r := old(requests)[r].(pc := Adding([]))];
      Finish(r, c);
    }

    // HandleGacha and HandleGachaTen, whatever fails: the reply, the balance, the items and the key. If nothing
    // fails, a known trace is answered from its key and a new one is settled.
    method Handle(r: nat, c: Script)
      requires Valid() && r < |requests| && requests[r].pc.Arrived? && Fits(requests[r], c)
      modifies this, currency, inventory
      ensures Valid()
      ensures |requests| == |old(requests)| && requests == old(requests)[r := requests[r]] && requests[r].pc.Done?
      ensures var q := old(requests)[r];
              var locked := if Takes(old(redis), q.trace, c.answer) then old(redis)[q.trace := Processing]
                            else old(redis);
              if FirstTime(old(redis), q.trace, c.answer) then
                Concluded(old(Value()).(redis := locked), Value(), q, requests[r], c)
              else
                && requests[r] == q.(pc := Done(Refusal(old(redis), q.trace, c.looks))) && redis == locked
                && currency.value == old(currency.value) && inventory.contents == old(inventory.contents)
      ensures var q := old(requests)[r];
              Clean(c) ==>
                if q.trace in old(redis) && q.trace != "" then
                  && requests[r].pc.reply == ReplayOf(old(redis)[q.trace])
                  && Value() == old(Value()).(requests := requests)
                else Settled(old(Value()), Value(), q, c)
    {
      CheckAndLock(r, c.answer, c.looks);
      if requests[r].pc.Paying? {
        PayAndDraw(r, c);
      }
    }
  }

  // The outcome is one a draw can have.
  predicate Fits(q: Request, c: Script) {
    (c.outcome.Some? ==> |c.outcome.value| == q.draws) && (c.saves ==> c.saveApplied)
  }

  // Redis answers and the reply serializes.
  predicate Clean(c: Script) {
    c.answer.Answered? && c.looks && c.serializes && c.saves && c.unlocks
  }

  // Who is let through: requests without a trace, without a connection, and the first to take the key.
  predicate FirstTime(before: map<string, Entry>, trace: string, answer: Answer) {
    trace == "" || answer.Degraded? || (answer.Answered? && trace !in before)
  }

  predicate Takes(before: map<string, Entry>, trace: string, answer: Answer) {
    trace != "" && trace !in before && (answer.Answered? || answer == Unanswered(true))
  }

  // What everybody else is told.
  function Refusal(before: map<string, Entry>, trace: string, looks: bool): Reply {
    if looks && trace in before && before[trace].Saved? then Completed(before[trace].payload) else InProgress
  }

  // A draw is made when the balance covers 160 for each item and the pool yields them.
  predicate Draws(balance: nat, q: Request, outcome: Option<seq<int>>) {
    balance >= 160 * q.draws && outcome.Some?
  }

  // What a request that was let through is told.
  function PayReply(balance: nat, q: Request, outcome: Option<seq<int>>, serializes: bool): Reply {
    if balance < 160 * q.draws then Insufficient
    else if outcome.None? || !serializes then Failed
    else Success
  }

  // And what it leaves: charged and granted if it draws, the key with the reply if that could be stored, else freed.
  predicate Concluded(before: State, after: State, q: Request, done: Request, c: Script) {
    && done.trace == q.trace && done.draws == q.draws
    && done.pc == Done(PayReply(before.currency, q, c.outcome, c.serializes))
    && if Draws(before.currency, q, c.outcome) then
         && done.items == c.outcome.value
         && after.currency == before.currency - 160 * q.draws
         && after.inventory == before.inventory + multiset(c.outcome.value)
         && after.redis ==
            if q.trace == "" then before.redis
            else if c.serializes && c.saves then before.redis[q.trace := Saved(c.outcome.value)]
            else if c.unlocks then before.redis - {q.trace}
            else if c.serializes && c.saveApplied then before.redis[q.trace := Saved(c.outcome.value)]
            else before.redis
       else
         && done.items == q.items
         && after.currency == before.currency && after.inventory == before.inventory
         && after.redis == if c.unlocks && q.trace != "" then before.redis - {q.trace} else before.redis
  }

  // How a key that is taken answers.
  function ReplayOf(entry: Entry): Reply {
    if entry.Saved? then Completed(entry.payload) else InProgress
  }

  // After CheckAndLock with Redis answering: the key is taken if it was free, else it is untouched and answers.
  predicate Locked(before: map<string, Entry>, after: map<string, Entry>, q: Request) {
    if q.trace == "" then q.pc.Paying? && after == before
    else if q.trace !in before then q.pc.Paying? && after == before[q.trace := Processing]
    else q.pc == Done(ReplayOf(before[q.trace])) && after == before
  }

  // The request is paid for, granted and its reply stored; or nothing is charged and the key is free again.
  predicate Settled(before: State, after: State, q: Request, c: Script) {
    if before.currency >= q.Cost() && c.outcome.Some? then
      && after.currency == before.currency - q.Cost()
      && after.inventory == before.inventory + multiset(c.outcome.value)
      && after.redis == if q.trace == "" then before.redis else before.redis[q.trace := Saved(c.outcome.value)]
    else
      && after.currency == before.currency
      && after.inventory == before.inventory
      && after.redis == if q.trace == "" then before.redis else before.redis - {q.trace}
  }

  lemma ConcludedSettles(before: State, after: State, q: Request, done: Request, c: Script)
    requires Clean(c) && Concluded(before, after, q, done, c)
    ensures Settled(before, after, q, c)
  {
  }

  // The state with the first k of the items that r has left in the inventory.
  ghost function AfterGrants(s: State, r: nat, k: nat): State
    requires r < |s.requests| && s.requests[r].pc.Adding? && k <= |s.requests[r].pc.left|
  {
    var q := s.requests[r];
    s.(inventory := s.inventory + multiset(q.pc.left[..k]),
       requests := s.requests[r := q.(pc := Adding(q.pc.left[k..]))])
  }

  lemma StartGrants(s: State, r: nat)
    requires r < |s.requests| && s.requests[r].pc.Adding?
    ensures AfterGrants(s, r, 0) == s
  {
    var left := s.requests[r].pc.left;
    assert left[..0] == [] && left[0..] == left;
  }

  lemma NextGrant(s: State, r: nat, k: nat)
    requires r < |s.requests| && s.requests[r].pc.Adding? && k < |s.requests[r].pc.left|
    ensures Enabled(AfterGrants(s, r, k), Grant(r)) && Step(AfterGrants(s, r, k), Grant(r)) == AfterGrants(s, r, k + 1)
  {
    var left := s.requests[r].pc.left;
    assert left[..k + 1] == left[..k] + [left[k]];
    assert left[k..][1..] == left[k + 1..] && left[k..][0] == left[k];
  }
}
