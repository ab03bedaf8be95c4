// What the decisions of a thread depend on: whether a post passes, how large a batch gets, when a worker rests,
// where nodes come from and go. And the whole of it: a worker that serves an actor with nobody in between.
module ActorServing {
  import opened Wrappers
  import opened ActorModel
  import opened ActorNodes
  import opened ActorChains
  import opened ActorConsumer
  import opened ActorInvariant
  import opened ActorSafety
  import opened ActorTheorems
  import opened ActorBackpressure
  import opened ActorScheduling

  // ---------------------------------------------------------------- posting

  // The capacity check of a post: from 2048 on the post tries again without its job, below it goes on with what it
  // has.
  lemma ChecksExactly(s: State, p: nat)
    requires Enabled(s, Produce(p)) && s.producers[p].Checking?
    ensures var pc, t := s.producers[p], Step(s, Produce(p)).producers[p];
            if s.load.sizes[pc.a] >= 2048 then
              t == Checking(pc.a, Parcel(pc.parcel.sender, pc.parcel.posted, pc.parcel.retries + 1, None))
            else t == Acquiring(pc.a, pc.parcel)
  {
  }

  // ---------------------------------------------------------------- batches

  // The budget that a worker chooses by the size it reads.
  lemma BudgetExactly(s: State, w: nat, start: nat)
    requires Enabled(s, Work(w, start)) && s.workers[w].Got?
    ensures var a := s.workers[w].a; var n := s.load.sizes[a];
            Step(s, Work(w, start)) == SetWorker(s, w, Opening(a, if n < 64 then 64 else if n < 128 then 128
                                                                  else if n < 512 then 256 else 512))
  {
  }

  predicate Budgeted(max: nat) {
    max == 64 || max == 128 || max == 256 || max == 512
  }

  // A batch in the making stays within the budget, and no batch has more than 512 parcels.
  predicate WithinBudget(pc: Worker) {
    match pc
    case Opening(_, max) => Budgeted(max)
    case Looping(_, max, _, _, batch) => Budgeted(max) && |batch| <= max
    case Spinning(_, max, _, batch) => Budgeted(max) && |batch| < max
    case Freeing(_, max, _, _, batch, _) => Budgeted(max) && |batch| <= max
    case Closing(_, _, batch) => |batch| <= 512
    case Running(_, batch, _) => |batch| <= 512
    case _ => true
  }

  ghost predicate BudgetInv(s: State) {
    forall w {:trigger s.workers[w]} :: 0 <= w < |s.workers| ==> WithinBudget(s.workers[w])
  }

  lemma StepKeepsBudget(s: State, e: Event)
    requires Enabled(s, e) && BudgetInv(s)
    ensures BudgetInv(Step(s, e))
  {
    match e {
      case Begin(_, _, _) =>
      case Produce(p) =>
      case Work(w, start) => WorkerKeepsBudget(s, w, start);
    }
  }

  lemma WorkerKeepsBudget(s: State, w: nat, start: nat)
    requires WellFormed(s) && w < |s.workers| && WithinBudget(s.workers[w])
    ensures var t := WorkerStep(s, w, start); t.workers == s.workers[w := t.workers[w]] && WithinBudget(t.workers[w])
  {
    if s.workers[w].Holds() && !s.workers[w].Requeueing? {
      BatchKeepsBudget(s, w);
    } else if s.workers[w].Stealing? && s.workers[w].i < |s.ready.queues| {
      assert Steal(s, w) == StealFrom(s, w, Victim(s.workers[w].start, s.workers[w].i, |s.ready.queues|));
    }
  }

  lemma BatchKeepsBudget(s: State, w: nat)
    requires WellFormed(s) && w < |s.workers| && s.workers[w].Holds() && !s.workers[w].Requeueing?
    requires WithinBudget(s.workers[w])
    ensures var t := BatchStep(s, w); t.workers == s.workers[w := t.workers[w]] && WithinBudget(t.workers[w])
  {
    if s.workers[w].Freeing? {
      ReleaseKeepsBudget(s, w);
    } else if s.workers[w].Looping? {
      LoopKeepsBudget(s, w);
    }
  }

  lemma ReleaseKeepsBudget(s: State, w: nat)
    requires WellFormed(s) && w < |s.workers| && s.workers[w].Freeing? && WithinBudget(s.workers[w])
    ensures var t := FreeOld(s, w); t.workers == s.workers[w := t.workers[w]] && WithinBudget(t.workers[w])
  {
  }

  lemma LoopKeepsBudget(s: State, w: nat)
    requires WellFormed(s) && w < |s.workers| && s.workers[w].Looping? && WithinBudget(s.workers[w])
    ensures var t := Loop(s, w); t.workers == s.workers[w := t.workers[w]] && WithinBudget(t.workers[w])
  {
  }

  lemma {:induction false} RunKeepsBudget(trace: seq<State>, events: seq<Event>)
    requires IsRun(trace, events)
    ensures BudgetInv(trace[|events|])
    decreases |events|
  {
    var k := |events|;
    assert Goes(trace, events, k);
    if k > 0 {
      PrefixIsRun(trace, events, k - 1);
      RunKeepsBudget(trace[..k], events[..k - 1]);
      StepKeepsBudget(trace[k - 1], events[k - 1]);
    }
  }

  lemma BatchesAreBounded(s: State, w: nat)
    requires Reachable(s) && w < |s.workers|
    ensures WithinBudget(s.workers[w])
  {
    var trace, events :| IsRun(trace, events) && trace[|events|] == s;
    RunKeepsBudget(trace, events);
  }

  // A batch ends for one of two reasons: the budget is used up, or the head has no link and is the tail.
  lemma BatchEndsExactly(s: State, w: nat, start: nat)
    requires Enabled(s, Work(w, start)) && s.workers[w].Looping?
    ensures var pc := s.workers[w];
            Step(s, Work(w, start)).workers[w].Closing?
            <==> |pc.batch| >= pc.max || (pc.next == None && pc.head == s.mail.tails[pc.a])
  {
  }

  // ---------------------------------------------------------------- looking for work, and resting

  // After the bit is cleared: with no job counted the worker is done and touches neither bit nor queue, else it
  // tries for the bit again.
  lemma RestsExactly(s: State, w: nat, start: nat)
    requires Live(s) && w < |s.workers| && s.workers[w].Rechecking?
    ensures var a := s.workers[w].a;
            Step(s, Work(w, start)) == SetWorker(s, w, if s.load.sizes[a] == 0 then Local else Retrying(a))
  {
    SizeIsExact(s, s.workers[w].a);
  }

  // A worker whose wait ends starts over with its own shard.
  lemma WakesExactly(s: State, w: nat, start: nat)
    requires Enabled(s, Work(w, start)) && s.workers[w].Waiting?
    ensures Step(s, Work(w, start)) == SetWorker(s, w, Local)
  {
  }

  // A batch starts empty at head_ with the link read there, and every parcel taken is followed by the link read next.
  lemma ReadsLinks(s: State, w: nat, start: nat)
    requires Enabled(s, Work(w, start))
    ensures var pc, t := s.workers[w], Step(s, Work(w, start)).workers[w];
            && (pc.Opening? ==> t.batch == [] && t.head == s.mail.heads[pc.a] && t.next == s.nodes.Next(t.head))
            && (t.Freeing? ==>
                  t.head == pc.next.value && t.batch == pc.batch + [s.nodes.Item(t.head)]
                  && t.next == s.nodes.Next(t.head) && t.spent == pc.head)
  {
    if s.workers[w].Stealing? && s.workers[w].i < |s.ready.queues| {
      assert Steal(s, w) == StealFrom(s, w, Victim(s.workers[w].start, s.workers[w].i, |s.ready.queues|));
    }
  }

  // A worker serves its own shard first; with that empty it turns thief if there is another shard, else it waits.
  lemma SeeksExactly(s: State, w: nat, start: nat)
    requires Enabled(s, Work(w, start)) && s.workers[w].Local?
    ensures var t := Step(s, Work(w, start));
            if s.ready.queues[w] != [] then
              && t.workers[w] == Got(s.ready.queues[w][0])
              && t.ready.queues == s.ready.queues[w := s.ready.queues[w][1..]]
            else t == SetWorker(s, w, if |s.workers| > 1 then Stealing(start, 0) else Waiting)
  {
  }

  // ---------------------------------------------------------------- the node pool

  // A node is created only when the thread's cache and the stack are both empty; else the last one released to the
  // cache, or else to the stack, is used again.
  lemma ReusesExactly(s: State, p: nat)
    requires Live(s) && p < |s.producers| && s.producers[p].Acquiring?
    ensures var t, cache := Step(s, Produce(p)), s.pool.caches[p];
            var n := t.producers[p].node;
            if cache != [] then
              n == cache[|cache| - 1] && t.pool == s.pool.(caches := s.pool.caches[p := cache[..|cache| - 1]])
            else if s.pool.stack != [] then
              n == s.pool.stack[0] && t.pool.caches == s.pool.caches && t.pool.created == s.pool.created
              && t.pool.stack == s.pool.stack[1..]
            else
              n == s.pool.created && t.pool == s.pool.(created := s.pool.created + 1)
  {
    ReachableIsSafe(s);
  }

  ghost predicate CachesBounded(s: State) {
    forall t {:trigger s.pool.caches[t]} :: 0 <= t < |s.pool.caches| ==> |s.pool.caches[t]| <= 64
  }

  lemma StepKeepsCaches(s: State, e: Event)
    requires Enabled(s, e) && CachesBounded(s)
    ensures CachesBounded(Step(s, e))
  {
    match e {
      case Begin(_, _, _) =>
      case Produce(p) =>
      case Work(w, start) =>
        if s.workers[w].Stealing? && s.workers[w].i < |s.ready.queues| {
          assert Steal(s, w) == StealFrom(s, w, Victim(s.workers[w].start, s.workers[w].i, |s.ready.queues|));
        }
    }
  }

  lemma {:induction false} RunKeepsCaches(trace: seq<State>, events: seq<Event>)
    requires IsRun(trace, events)
    ensures CachesBounded(trace[|events|])
    decreases |events|
  {
    var k := |events|;
    assert Goes(trace, events, k);
    if k > 0 {
      PrefixIsRun(trace, events, k - 1);
      RunKeepsCaches(trace[..k], events[..k - 1]);
      StepKeepsCaches(trace[k - 1], events[k - 1]);
    }
  }

  // In every reachable state a cache has at most 64 nodes, and the node a consumer leaves behind goes to the stack
  // exactly when the cache of its thread is full.
  lemma ReleasesExactly(s: State, w: nat, start: nat)
    requires Live(s) && w < |s.workers| && s.workers[w].Freeing?
    ensures var t, c, n := Step(s, Work(w, start)), s.CacheOf(w), s.workers[w].spent;
            && |s.pool.caches[c]| <= 64
            && t.pool.caches == (if |s.pool.caches[c]| == 64 then s.pool.caches
                                 else s.pool.caches[c := s.pool.caches[c] + [n]])
            && t.pool.stack == if |s.pool.caches[c]| == 64 then [n] + s.pool.stack else s.pool.stack
  {
    var trace, events :| IsRun(trace, events) && trace[|events|] == s;
    RunKeepsCaches(trace, events);
  }

  // ---------------------------------------------------------------- a worker on its own

  function Least(a: int, b: int): int {
    if a <= b then a else b
  }

  // A pop keeps its budget, and neither schedules nor runs anything.
  lemma PopStays(s: State, w: nat, a: nat)
    requires WellFormed(s) && Popping(s, w, a) && !s.workers[w].Closing?
    ensures var s' := WorkerStep(s, w, 0);
            && s'.ready == s.ready && s'.mail.done == s.mail.done
            && s'.workers[w].InPop() && (!s'.workers[w].Closing? ==> s'.workers[w].max == s.workers[w].max)
  {
  }

  // A batch that is closed has taken all there is, or its budget.
  lemma ClosedCounts(s: State, w: nat, a: nat)
    requires Live(s) && Calm(s) && Popping(s, w, a) && s.workers[w].Looping?
    requires WorkerStep(s, w, 0).workers[w].Closing?
    ensures |WorkerStep(s, w, 0).workers[w].batch| == Least(s.workers[w].max, s.load.sizes[a])
  {
    ReachableIsSafe(s);
    SizeIsExact(s, a);
    BatchesAreBounded(s, w);
    assert s.load.reserved[a] == {};
    assert Consumer(s.ready, s.workers, a) == s.workers[w];
    assert ConsumerKnows(s.mail, s.nodes, s.load.taken, s.workers[w], a);
    assert Distinct(s.mail.chains[a]);
  }

  // While no post is past its capacity check, PopBatch takes as many parcels as the budget allows and the size says.
  lemma {:induction false} PopFinishes(s: State, w: nat, a: nat) returns (r: State)
    requires Live(s) && Calm(s) && Popping(s, w, a) && s.load.sizes[a] > 0
    ensures Live(r) && r.producers == s.producers && r.keys == s.keys && r.ready == s.ready
    ensures w < |r.workers| && r.workers[w].Running? && r.workers[w].a == a && r.workers[w].i == 0
    ensures var n, pc := |r.workers[w].batch|, s.workers[w];
            && n == (if pc.Closing? then |pc.batch| else Least(pc.max, s.load.sizes[a]))
            && r.load.sizes[a] == s.load.sizes[a] - n
    ensures r.mail.order == s.mail.order && r.mail.done == s.mail.done
    decreases BatchRank(s.workers[w])
  {
    ReachableCloses(s, Work(w, 0));
    if s.workers[w].Closing? {
      r := Close(s, w);
    } else {
      BatchAdvances(s, w, a);
      PopStays(s, w, a);
      if s.workers[w].Looping? && WorkerStep(s, w, 0).workers[w].Closing? { ClosedCounts(s, w, a); }
      r := PopFinishes(WorkerStep(s, w, 0), w, a);
    }
  }

  lemma RunAdvances(s: State, w: nat)
    requires Live(s) && w < |s.workers| && s.workers[w].Running?
    ensures var pc, s' := s.workers[w], RunTask(s, w);
            && pc.i <= |pc.batch| && pc.a < |s.keys|
            && s'.producers == s.producers && s'.keys == s.keys && s'.load == s.load && s'.ready == s.ready
            && s'.mail.order == s.mail.order
            && if pc.i < |pc.batch| then
                 && s'.workers[w] == Running(pc.a, pc.batch, pc.i + 1)
                 && s'.mail.done == s.mail.done[pc.a := s.mail.done[pc.a] + [pc.batch[pc.i]]]
               else s'.workers[w] == Clearing(pc.a) && s'.mail.done == s.mail.done
  {
    ReachableIsSafe(s);
    assert Consumer(s.ready, s.workers, s.workers[w].a) == s.workers[w];
    assert ConsumerKnows(s.mail, s.nodes, s.load.taken, s.workers[w], s.workers[w].a);
  }

  // The rest of a batch runs in order, and then the bit is cleared.
  lemma {:induction false} RunFinishes(s: State, w: nat) returns (r: State)
    requires Live(s) && w < |s.workers| && s.workers[w].Running?
    ensures var pc := s.workers[w];
            && pc.i <= |pc.batch| && pc.a < |s.keys|
            && Live(r) && w < |r.workers| && r.workers[w] == Rechecking(pc.a)
            && r.producers == s.producers && r.keys == s.keys && r.load == s.load && r.mail.order == s.mail.order
            && r.mail.done == s.mail.done[pc.a := s.mail.done[pc.a] + pc.batch[pc.i..]]
            && r.ready.queues == s.ready.queues && r.ready.bits == s.ready.bits[pc.a := false]
    decreases if s.workers[w].i <= |s.workers[w].batch| then |s.workers[w].batch| - s.workers[w].i else 0
  {
    RunAdvances(s, w);
    BatchCloses(s, w);
    var pc, s1 := s.workers[w], RunTask(s, w);
    if pc.i < |pc.batch| {
      r := RunFinishes(s1, w);
      var done, rest := s.mail.done[pc.a], pc.batch[pc.i + 1..];
      assert done + [pc.batch[pc.i]] + rest == done + pc.batch[pc.i..];
    } else {
      BatchCloses(s1, w);
      r := Clear(s1, w);
      assert s.mail.done[pc.a] + pc.batch[pc.i..] == s.mail.done[pc.a];
    }
  }

  // After the re-check of an actor with jobs left its bit is won again, and it goes back to its own shard or is
  // dropped.
  lemma RecheckFinishes(s: State, w: nat, a: nat) returns (r: State)
    requires Live(s) && w < |s.workers| && s.workers[w] == Rechecking(a) && a < |s.keys|
    requires !s.ready.bits[a] && s.load.sizes[a] >= 0
    ensures Live(r) && w < |r.workers| && r.workers[w] == Local && r.keys == s.keys && r.producers == s.producers
    ensures r.mail == s.mail && r.load == s.load
    ensures if s.load.sizes[a] == 0 then r.ready == s.ready
            else if Overfull(s, a) then r.ready.holder[a] == Dropped && r.ready.queues == s.ready.queues
            else var q := s.keys[a] % |s.ready.queues|;
                 r.ready.bits[a] && r.ready.queues == s.ready.queues[q := s.ready.queues[q] + [a]]
  {
    SeekCloses(s, w, 0);
    r := Recheck(s, w);
    if s.load.sizes[a] > 0 {
      SeekCloses(r, w, 0);
      r := Retry(r, w);
      SeekCloses(r, w, 0);
      r := Requeue(r, w);
    }
  }

  lemma DoneIsPrefix(s: State, a: nat)
    requires Live(s) && a < |s.keys|
    ensures |s.mail.done[a]| <= |s.mail.order[a]| && s.mail.done[a] == s.mail.order[a][..|s.mail.done[a]|]
  {
    TasksInExchangeOrder(s, a);
    var rest := Pending(Consumer(s.ready, s.workers, a)) + Parcels(s.nodes, Rest(s.mail.chains[a]));
    assert s.mail.order[a] == s.mail.done[a] + rest;
  }

  function BudgetOf(size: int): nat {
    if size < 64 then 64 else if size < 128 then 128 else if size < 512 then 256 else 512
  }

  // ActorSystem::Worker on an actor it got, with no post past its check: the next jobs in exchange order run, as
  // many as the budget allows and the size says. If that was all the actor rests unmarked, else it is queued again.
  lemma ServeFinishes(s: State, w: nat, a: nat) returns (r: State)
    requires Live(s) && Calm(s) && w < |s.workers| && s.workers[w] == Got(a) && a < |s.keys| && s.load.sizes[a] > 0
    ensures Live(r) && w < |r.workers| && r.workers[w] == Local && r.keys == s.keys && r.producers == s.producers
    ensures var n := Least(BudgetOf(s.load.sizes[a]), s.load.sizes[a]);
            && r.load.sizes[a] == s.load.sizes[a] - n && r.mail.order == s.mail.order
            && |s.mail.done[a]| + n <= |s.mail.order[a]|
            && r.mail.done[a] == s.mail.order[a][..|s.mail.done[a]| + n]
            && if s.load.sizes[a] == n then !r.ready.bits[a] && r.ready.queues == s.ready.queues
               else if Overfull(s, a) then r.ready.holder[a] == Dropped && r.ready.queues == s.ready.queues
               else var q := s.keys[a] % |s.ready.queues|;
                    r.ready.bits[a] && r.ready.queues == s.ready.queues[q := s.ready.queues[q] + [a]]
  {
    BatchCloses(s, w);
    var s1 := ReadSize(s, w);
    var s2 := PopFinishes(s1, w, a);
    var s3 := RunFinishes(s2, w);
    r := RecheckFinishes(s3, w, a);
    DoneIsPrefix(r, a);
  }
}
