// Safety of the actor runtime over whole runs.
module ActorSafety {
  import opened ActorModel
  import opened ActorTokens
  import opened ActorLoad
  import opened ActorNodes
  import opened ActorChains
  import opened ActorConsumer
  import opened ActorInvariant
  import opened ActorProducers
  import opened ActorWorkers

  // A run: any scheduler choices, from any initial state.
  ghost predicate IsRun(trace: seq<State>, events: seq<Event>) {
    |trace| == |events| + 1 && forall i: nat :: i <= |events| ==> Goes(trace, events, i)
  }

  // State i is initial, or what event i - 1 makes of the state before.
  ghost predicate Goes(trace: seq<State>, events: seq<Event>, i: nat)
    requires i < |trace| == |events| + 1
  {
    if i == 0 then Initial(trace[0])
    else Enabled(trace[i - 1], events[i - 1]) && trace[i] == Step(trace[i - 1], events[i - 1])
  }

  ghost predicate Reachable(s: State) {
    exists trace, events :: IsRun(trace, events) && trace[|events|] == s
  }

  lemma InitialHolds(s: State)
    requires Initial(s)
    ensures Inv(s)
  {
    InitialMail(s);
    InitialPlaces(s);
  }

  lemma InitialMail(s: State)
    requires Initial(s)
    ensures QueueInv(s.mail, s.nodes, s.producers) && ConsumerInv(s.mail, s.nodes, s.load.taken, s.ready, s.workers)
  {
    forall a: nat | a < |s.mail.chains|
      ensures ConsumerKnows(s.mail, s.nodes, s.load.taken, Consumer(s.ready, s.workers, a), a)
    {
      assert s.mail.chains[a] == [a];
    }
  }

  lemma InitialPlaces(s: State)
    requires Initial(s)
    ensures PlaceInv(s.pool, s.place, s.producers, s.workers, s.mail.chains) && StackInv(s.pool, s.nodes)
  {
  }

  lemma StepKeeps(s: State, e: Event)
    requires Inv(s) && Enabled(s, e)
    ensures Inv(Step(s, e))
  {
    match e {
      case Begin(p, a, t) => IdleProducerKeeps(s, p, Post(s, p, a, t).producers[p]);
      case Produce(p) => ProducerStepKeeps(s, p);
      case Work(w, start) => WorkerStepKeeps(s, w, start);
    }
  }

  lemma {:induction false} RunsAreSafe(trace: seq<State>, events: seq<Event>)
    requires IsRun(trace, events)
    ensures Inv(trace[|events|])
    decreases |events|
  {
    var k := |events|;
    assert Goes(trace, events, k);
    if k == 0 {
      InitialHolds(trace[0]);
    } else {
      PrefixIsRun(trace, events, k - 1);
      RunsAreSafe(trace[..k], events[..k - 1]);
      StepKeeps(trace[k - 1], events[k - 1]);
    }
  }

  lemma PrefixIsRun(trace: seq<State>, events: seq<Event>, k: nat)
    requires IsRun(trace, events) && k <= |events|
    ensures IsRun(trace[..k + 1], events[..k])
  {
    var trace', events' := trace[..k + 1], events[..k];
    forall i: nat | i <= k ensures Goes(trace', events', i) {
      assert Goes(trace, events, i);
    }
  }

  lemma ReachableIsSafe(s: State)
    requires Reachable(s)
    ensures Inv(s)
  {
    var trace, events :| IsRun(trace, events) && trace[|events|] == s;
    RunsAreSafe(trace, events);
  }

  lemma RunExtends(trace: seq<State>, events: seq<Event>, e: Event)
    requires IsRun(trace, events) && Enabled(trace[|events|], e)
    ensures IsRun(trace + [Step(trace[|events|], e)], events + [e])
  {
    var trace', events' := trace + [Step(trace[|events|], e)], events + [e];
    forall i: nat | i <= |events'| ensures Goes(trace', events', i) {
      if i <= |events| { assert Goes(trace, events, i); }
    }
  }

  lemma InitialIsReachable(s: State)
    requires Initial(s)
    ensures Reachable(s)
  {
    var none: seq<Event> := [];
    assert IsRun([s], none) && [s][|none|] == s;
  }

  lemma ReachableCloses(s: State, e: Event)
    requires Reachable(s) && Enabled(s, e)
    ensures Reachable(Step(s, e))
  {
    var trace, events :| IsRun(trace, events) && trace[|events|] == s;
    RunExtends(trace, events, e);
    var trace', events' := trace + [Step(s, e)], events + [e];
    assert IsRun(trace', events') && trace'[|events'|] == Step(s, e);
  }

  // A state of the runtime: what all theorems about it speak of.
  ghost predicate Live(s: State) {
    WellFormed(s) && Reachable(s)
  }

  // The same, access by access: where a thread stands decides which access comes next.
  lemma ProducerCloses(s: State, p: nat)
    requires Live(s) && p < |s.producers|
    ensures s.producers[p].Checking? ==> Live(CheckSize(s, p))
    ensures s.producers[p].Acquiring? ==> Live(AcquireNode(s, p))
    ensures s.producers[p].Reserving? ==> Live(Reserve(s, p))
    ensures s.producers[p].Exchanging? ==> Live(Exchange(s, p))
    ensures s.producers[p].Linking? ==> Live(Link(s, p))
    ensures s.producers[p].Scheduling? ==> Live(TrySchedule(s, p))
    ensures s.producers[p].Enqueueing? ==> Live(Enqueue(s, p))
  {
    if !s.producers[p].Free? { ReachableCloses(s, Produce(p)); }
  }

  lemma BatchCloses(s: State, w: nat)
    requires Live(s) && w < |s.workers|
    ensures s.workers[w].Got? ==> Live(ReadSize(s, w))
    ensures s.workers[w].Opening? ==> Live(Open(s, w))
    ensures s.workers[w].Looping? ==> Live(Loop(s, w))
    ensures s.workers[w].Spinning? ==> Live(Spin(s, w))
    ensures s.workers[w].Freeing? ==> Live(FreeOld(s, w))
    ensures s.workers[w].Closing? ==> Live(Close(s, w))
    ensures s.workers[w].Running? ==> Live(RunTask(s, w))
    ensures s.workers[w].Clearing? ==> Live(Clear(s, w))
  {
    ReachableCloses(s, Work(w, 0));
  }

  lemma SeekCloses(s: State, w: nat, start: nat)
    requires Live(s) && w < |s.workers|
    ensures s.workers[w].Local? ==> Live(PopLocal(s, w, start))
    ensures s.workers[w].Stealing? ==> Live(Steal(s, w))
    ensures s.workers[w].Waiting? ==> Live(Wake(s, w))
    ensures s.workers[w].Rechecking? ==> Live(Recheck(s, w))
    ensures s.workers[w].Retrying? ==> Live(Retry(s, w))
    ensures s.workers[w].Requeueing? ==> Live(Requeue(s, w))
  {
    ReachableCloses(s, Work(w, start));
  }
}
