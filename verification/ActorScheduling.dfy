// The ready queues: first in, first out, each actor in its own shard's; when a schedule request is dropped, when
// none ever is, and what a dropped one costs.
module ActorScheduling {
  import opened Wrappers
  import opened ActorModel
  import opened ActorTokens
  import opened ActorLoad
  import opened ActorNodes
  import opened ActorChains
  import opened ActorConsumer
  import opened ActorInvariant
  import opened ActorSafety
  import opened ActorTheorems
  import opened ActorBackpressure

  // ---------------------------------------------------------------- one step of the ready queues

  // A producer or a worker is about to put actor a into its ready queue.
  predicate Schedules(s: State, e: Event, a: nat)
    requires Enabled(s, e)
  {
    match e
    case Begin(_, _, _) => false
    case Produce(p) => s.producers[p] == Enqueueing(a)
    case Work(w, _) => s.workers[w] == Requeueing(a)
  }

  // The queue of the actor's shard already holds more than 10000 actors, or there is no shard.
  predicate Overfull(s: State, a: nat)
    requires WellFormed(s) && a < |s.keys|
  {
    |s.ready.queues| == 0 || |s.ready.queues[s.keys[a] % |s.ready.queues|]| > 10000
  }

  lemma ProducerQueues(s: State, p: nat)
    requires WellFormed(s) && p < |s.producers| && !s.producers[p].Free?
    ensures var r := ProducerStep(s, p).ready;
            if s.producers[p].Enqueueing? then r == Schedule(s.ready, s.keys[s.producers[p].a], s.producers[p].a)
            else r.queues == s.ready.queues
  {
  }

  lemma ProducerHolders(s: State, p: nat, a: nat)
    requires WellFormed(s) && p < |s.producers| && !s.producers[p].Free? && !s.producers[p].Enqueueing? && a < |s.keys|
    ensures ProducerStep(s, p).ready.holder[a] == s.ready.holder[a]
         || ProducerStep(s, p).ready.holder[a] == AtProducer(p)
  {
  }

  // The queue from which a worker takes the front.
  predicate TakesFrom(s: State, w: nat, q: nat)
    requires WellFormed(s) && w < |s.workers|
  {
    && q < |s.ready.queues| && s.ready.queues[q] != []
    && match s.workers[w]
       case Local => q == w
       case Stealing(start, i) => q != w && i < |s.ready.queues| && q == Victim(start, i, |s.ready.queues|)
       case _ => false
  }

  lemma WorkerQueues(s: State, w: nat, start: nat)
    requires WellFormed(s) && w < |s.workers|
    ensures var r := WorkerStep(s, w, start).ready;
            if s.workers[w].Requeueing? then r == Schedule(s.ready, s.keys[s.workers[w].a], s.workers[w].a)
            else
              && (forall q: nat :: TakesFrom(s, w, q) ==> r.queues == s.ready.queues[q := s.ready.queues[q][1..]])
              && ((forall q: nat :: !TakesFrom(s, w, q)) ==> r.queues == s.ready.queues)
  {
    match s.workers[w] {
      case Local => assert s.ready.queues[w] != [] ==> TakesFrom(s, w, w);
      case Stealing(first, i) =>
        if i < |s.ready.queues| {
          var v := Victim(first, i, |s.ready.queues|);
          assert Steal(s, w) == StealFrom(s, w, v);
          assert v != w && s.ready.queues[v] != [] ==> TakesFrom(s, w, v);
        }
      case _ =>
    }
  }

  lemma WorkerHolders(s: State, w: nat, start: nat, a: nat)
    requires WellFormed(s) && w < |s.workers| && !s.workers[w].Requeueing? && a < |s.keys|
    ensures var h := WorkerStep(s, w, start).ready.holder[a];
            h == s.ready.holder[a] || h == AtWorker(w) || h == Nobody
  {
    match s.workers[w] {
      case Stealing(first, i) =>
        if i < |s.ready.queues| { assert Steal(s, w) == StealFrom(s, w, Victim(first, i, |s.ready.queues|)); }
      case _ =>
    }
  }

  // A request to schedule a puts it at the end of its own shard's queue, or is dropped exactly when that queue
  // holds more than 10000 actors; no other step drops it.
  lemma DropsExactly(s: State, e: Event, a: nat)
    requires Enabled(s, e) && a < |s.keys| && s.ready.holder[a] != Dropped
    ensures Step(s, e).ready.holder[a] == Dropped <==> Schedules(s, e, a) && Overfull(s, a)
    ensures Schedules(s, e, a) && !Overfull(s, a) ==>
              var q := s.keys[a] % |s.ready.queues|;
              Step(s, e).ready.queues == s.ready.queues[q := s.ready.queues[q] + [a]]
    ensures Schedules(s, e, a) && Overfull(s, a) ==> Step(s, e).ready.queues == s.ready.queues
  {
    match e {
      case Begin(_, _, _) =>
      case Produce(p) =>
        if s.producers[p].Enqueueing? { ProducerQueues(s, p); } else { ProducerHolders(s, p, a); }
      case Work(w, start) =>
        if s.workers[w].Requeueing? { WorkerQueues(s, w, start); } else { WorkerHolders(s, w, start, a); }
    }
  }

  // Actor a goes to the end of the queue q.
  predicate Appends(s: State, e: Event, q: nat, a: nat)
    requires Enabled(s, e) && q < |s.ready.queues| && q < |Step(s, e).ready.queues|
  {
    && a < |s.keys| && Schedules(s, e, a) && q == s.keys[a] % |s.ready.queues|
    && Step(s, e).ready.queues[q] == s.ready.queues[q] + [a]
  }

  // A ready queue is first in, first out: a step leaves it alone, appends one actor of its shard, or takes its front.
  lemma QueuesAreFifo(s: State, e: Event, q: nat)
    requires Enabled(s, e) && q < |s.ready.queues|
    ensures |Step(s, e).ready.queues| == |s.ready.queues|
    ensures var before, after := s.ready.queues[q], Step(s, e).ready.queues[q];
            || after == before
            || (e.Work? && TakesFrom(s, e.w, q) && after == before[1..])
            || (exists a :: Appends(s, e, q, a))
  {
    match e {
      case Begin(_, _, _) =>
      case Produce(p) =>
        ProducerQueues(s, p);
        if s.producers[p].Enqueueing? && Step(s, e).ready.queues[q] != s.ready.queues[q] {
          assert Appends(s, e, q, s.producers[p].a);
        }
      case Work(w, start) =>
        WorkerQueues(s, w, start);
        if s.workers[w].Requeueing? && Step(s, e).ready.queues[q] != s.ready.queues[q] {
          assert Appends(s, e, q, s.workers[w].a);
        }
    }
  }

  // ---------------------------------------------------------------- runs of the ready queues

  // Every queued actor is in the queue of its own shard.
  ghost predicate AtHome(s: State)
    requires WellFormed(s)
  {
    forall q, i {:trigger s.ready.queues[q][i]} ::
      0 <= q < |s.ready.queues| && 0 <= i < |s.ready.queues[q]| ==>
        q == s.keys[s.ready.queues[q][i]] % |s.ready.queues|
  }

  ghost predicate NoDrops(s: State)
    requires WellFormed(s)
  {
    forall a {:trigger s.ready.holder[a]} :: 0 <= a < |s.keys| ==> s.ready.holder[a] != Dropped
  }

  // So few actors that no ready queue overflows, with all others in it.
  predicate Few(s: State) {
    |s.keys| <= 10001 && |s.workers| > 0
  }

  ghost predicate ReadyInv(s: State) {
    WellFormed(s) && AtHome(s) && (Few(s) ==> NoDrops(s))
  }

  lemma StepStaysHome(s: State, e: Event)
    requires Enabled(s, e) && AtHome(s)
    ensures AtHome(Step(s, e))
  {
    var s' := Step(s, e);
    forall q: nat, i | q < |s'.ready.queues| && 0 <= i < |s'.ready.queues[q]|
      ensures q == s'.keys[s'.ready.queues[q][i]] % |s'.ready.queues|
    {
      QueueStaysHome(s, e, q, i);
    }
  }

  lemma QueueStaysHome(s: State, e: Event, q: nat, i: nat)
    requires Enabled(s, e) && AtHome(s) && q < |Step(s, e).ready.queues| && i < |Step(s, e).ready.queues[q]|
    ensures Step(s, e).keys == s.keys && |Step(s, e).ready.queues| == |s.ready.queues|
    ensures q == s.keys[Step(s, e).ready.queues[q][i]] % |s.ready.queues|
  {
    var s' := Step(s, e);
    StepSizes(s, e);
    QueuesAreFifo(s, e, q);
    if s'.ready.queues[q] == s.ready.queues[q] {
      assert s.ready.queues[q][i] == s'.ready.queues[q][i];
    } else if e.Work? && TakesFrom(s, e.w, q) && s'.ready.queues[q] == s.ready.queues[q][1..] {
      assert s.ready.queues[q][i + 1] == s'.ready.queues[q][i];
    } else {
      var a :| Appends(s, e, q, a);
      if i < |s.ready.queues[q]| { assert s.ready.queues[q][i] == s'.ready.queues[q][i]; }
    }
  }

  lemma StepSizes(s: State, e: Event)
    requires Enabled(s, e)
    ensures Step(s, e).keys == s.keys && |Step(s, e).workers| == |s.workers|
    ensures |Step(s, e).ready.queues| == |s.ready.queues|
  {
    match e {
      case Begin(_, _, _) =>
      case Produce(p) =>
      case Work(w, start) => WorkerQueues(s, w, start);
    }
  }

  // Distinct numbers below n, with one of them missing, are fewer than n.
  lemma DistinctFit(xs: seq<nat>, n: nat, a: nat)
    requires (forall i, j {:trigger xs[i], xs[j]} :: 0 <= i < j < |xs| ==> xs[i] != xs[j])
    requires a < n && (forall i {:trigger xs[i]} :: 0 <= i < |xs| ==> xs[i] < n && xs[i] != a)
    ensures |xs| < n
  {
    DistinctCard(xs);
    assert |Elements(xs) + {a}| == |xs| + 1;
    RangeCard(Elements(xs) + {a}, n);
  }

  ghost function Elements(xs: seq<nat>): (s: set<nat>)
    ensures forall x :: x in s <==> x in xs
  {
    set x: nat | x in xs
  }

  lemma {:induction false} DistinctCard(xs: seq<nat>)
    requires forall i, j {:trigger xs[i], xs[j]} :: 0 <= i < j < |xs| ==> xs[i] != xs[j]
    ensures |Elements(xs)| == |xs|
  {
    if xs == [] {
      assert Elements(xs) == {};
    } else {
      var k := |xs| - 1;
      DistinctCard(xs[..k]);
      assert xs[k] !in xs[..k];
      assert Elements(xs) == Elements(xs[..k]) + {xs[k]};
    }
  }

  // An actor that is in no queue leaves room in every queue.
  lemma QueueHasRoom(s: State, a: nat)
    requires Live(s) && Few(s) && a < |s.keys| && !s.ready.holder[a].AtQueue?
    ensures !Overfull(s, a)
  {
    ReachableIsSafe(s);
    DistinctFit(s.ready.queues[s.keys[a] % |s.ready.queues|], |s.keys|, a);
  }

  lemma StepNeverDrops(s: State, e: Event)
    requires Live(s) && Few(s) && NoDrops(s) && Enabled(s, e)
    ensures NoDrops(Step(s, e))
  {
    StepSizes(s, e);
    forall a: nat | a < |s.keys| ensures Step(s, e).ready.holder[a] != Dropped {
      DropsExactly(s, e, a);
      if Schedules(s, e, a) {
        ReachableIsSafe(s);
        QueueHasRoom(s, a);
      }
    }
  }

  lemma {:induction false} RunKeepsReady(trace: seq<State>, events: seq<Event>)
    requires IsRun(trace, events)
    ensures ReadyInv(trace[|events|])
    decreases |events|
  {
    var k := |events|;
    assert Goes(trace, events, k);
    if k > 0 {
      var s, e := trace[k - 1], events[k - 1];
      PrefixIsRun(trace, events, k - 1);
      RunKeepsReady(trace[..k], events[..k - 1]);
      assert IsRun(trace[..k], events[..k - 1]) && trace[..k][|events[..k - 1]|] == s;
      StepStaysHome(s, e);
      StepSizes(s, e);
      if Few(s) { StepNeverDrops(s, e); }
    }
  }

  lemma ReachableIsReady(s: State)
    requires Reachable(s)
    ensures ReadyInv(s)
  {
    var trace, events :| IsRun(trace, events) && trace[|events|] == s;
    RunKeepsReady(trace, events);
  }

  // ---------------------------------------------------------------- theorems

  // Whoever posts and wherever it was stolen, an actor only ever waits in the queue of its own shard.
  lemma QueuedAtHome(s: State, q: nat, a: nat)
    requires Live(s) && q < |s.ready.queues| && a in s.ready.queues[q]
    ensures a < |s.keys| && q == s.keys[a] % |s.ready.queues|
  {
    ReachableIsReady(s);
    var i :| 0 <= i < |s.ready.queues[q]| && s.ready.queues[q][i] == a;
  }

  // With at most 10001 actors no request is ever dropped, since a queue holds each actor at most once,
  lemma NothingDropped(s: State, a: nat)
    requires Live(s) && |s.keys| <= 10001 && |s.workers| > 0 && a < |s.keys|
    ensures s.ready.holder[a] != Dropped
  {
    ReachableIsReady(s);
  }

  // so a positive size always has somebody left to act on it,
  lemma NoLostWakeupOfFew(s: State, a: nat)
    requires Live(s) && |s.keys| <= 10001 && |s.workers| > 0 && a < |s.keys| && s.load.sizes[a] > 0
    ensures || (exists h :: ActsOn(s, h, a) && h != Dropped)
            || (exists p :: 0 <= p < |s.producers| && ProducerPromises(s.producers[p], a))
            || (exists w :: 0 <= w < |s.workers| && WorkerPromises(s.workers[w], a))
  {
    NothingDropped(s, a);
    NoLostWakeup(s, a);
  }

  // and at rest every actor has run everything posted to it.
  lemma QuiescentMeansAllDone(s: State)
    requires Live(s) && |s.keys| <= 10001 && |s.workers| > 0
    requires forall p :: 0 <= p < |s.producers| ==> s.producers[p].Free?
    requires forall w :: 0 <= w < |s.workers| ==> s.workers[w].Idle()
    requires forall q :: 0 <= q < |s.ready.queues| ==> s.ready.queues[q] == []
    ensures s.mail.done == s.mail.order
  {
    forall a: nat | a < |s.keys| ensures s.mail.done[a] == s.mail.order[a] {
      NothingDropped(s, a);
      QuiescentMeansDone(s, a);
    }
  }

  // ---------------------------------------------------------------- the bound is sharp

  // Every thread rests.
  ghost predicate AtRest(s: State) {
    && (forall p :: 0 <= p < |s.producers| ==> s.producers[p].Free?)
    && (forall w :: 0 <= w < |s.workers| ==> s.workers[w].Idle())
  }

  // A whole post to an unmarked, empty actor.
  lemma PostWakes(s: State, p: nat, a: nat) returns (r: State)
    requires Live(s) && p < |s.producers| && s.producers[p].Free? && a < |s.keys|
    requires s.load.sizes[a] == 0 && !s.ready.bits[a]
    ensures Live(r) && r.keys == s.keys && r.workers == s.workers && r.producers == s.producers
    ensures r.load.sizes == s.load.sizes[a := 1] && r.ready.bits == s.ready.bits[a := true]
    ensures if Overfull(s, a) then r.ready.holder[a] == Dropped && r.ready.queues == s.ready.queues
            else var q := s.keys[a] % |s.ready.queues|;
                 r.ready.queues == s.ready.queues[q := s.ready.queues[q] + [a]]
  {
    ReachableCloses(s, Begin(p, a, 0));
    r := PostFinishes(Post(s, p, a, 0), p, a);
  }

  // k actors wait in the queue, and those from k on are unmarked and empty.
  ghost predicate Filled(s: State, q: nat, k: nat) {
    && Live(s) && q < |s.ready.queues| && |s.ready.queues[q]| == k
    && forall a :: k <= a < |s.keys| ==> s.load.sizes[a] == 0 && !s.ready.bits[a]
  }

  lemma OneMore(s: State, p: nat, q: nat, a: nat) returns (r: State)
    requires Filled(s, q, a) && p < |s.producers| && s.producers[p].Free? && a < |s.keys| && a <= 10000
    requires s.keys[a] % |s.ready.queues| == q
    ensures Filled(r, q, a + 1) && r.keys == s.keys && r.workers == s.workers && r.producers == s.producers
  {
    r := PostWakes(s, p, a);
  }

  // Posts to the actors 0 to k - 1, all of one shard, put them in its queue while no worker looks.
  lemma {:induction false} QueueFills(s: State, p: nat, q: nat, k: nat) returns (r: State)
    requires Initial(s) && p < |s.producers| && q < |s.workers| && k <= |s.keys| && k <= 10001
    requires forall a :: 0 <= a < k ==> s.keys[a] % |s.workers| == q
    ensures Filled(r, q, k) && r.keys == s.keys && r.workers == s.workers && r.producers == s.producers
  {
    if k == 0 {
      r := s;
      InitialIsReachable(s);
    } else {
      var s1 := QueueFills(s, p, q, k - 1);
      r := OneMore(s1, p, q, k - 1);
    }
  }

  // With 10002 actors on one shard a run loses a wake-up: all threads rest, the last actor has a job, is marked as
  // scheduled, and nobody will act on it.
  lemma FullQueueLosesWakeup(s: State, p: nat, q: nat) returns (r: State)
    requires Initial(s) && p < |s.producers| && q < |s.workers| && |s.keys| > 10001
    requires forall a :: 0 <= a <= 10001 ==> s.keys[a] % |s.workers| == q
    ensures Live(r) && |r.keys| == |s.keys| && AtRest(r)
    ensures r.load.sizes[10001] == 1 && r.ready.bits[10001] && r.ready.holder[10001] == Dropped
  {
    var s1 := QueueFills(s, p, q, 10001);
    r := PostWakes(s1, p, 10001);
  }

  // A dropped request is never made up for: the actor stays marked and runs nothing any more.
  lemma DroppedForGood(s: State, e: Event, a: nat)
    requires Live(s) && Enabled(s, e) && a < |s.keys| && s.ready.holder[a] == Dropped
    ensures Step(s, e).ready.holder[a] == Dropped && Step(s, e).mail.done[a] == s.mail.done[a]
  {
    ReachableIsSafe(s);
    match e {
      case Begin(_, _, _) =>
      case Produce(p) => ProducerSparesDropped(s, p, a);
      case Work(w, start) => WorkerSparesDropped(s, w, start, a);
    }
  }

  lemma ProducerSparesDropped(s: State, p: nat, a: nat)
    requires Inv(s) && p < |s.producers| && !s.producers[p].Free? && a < |s.keys| && s.ready.holder[a] == Dropped
    ensures var t := ProducerStep(s, p); t.ready.holder[a] == Dropped && t.mail.done[a] == s.mail.done[a]
  {
  }

  lemma WorkerSparesDropped(s: State, w: nat, start: nat, a: nat)
    requires Inv(s) && w < |s.workers| && a < |s.keys| && s.ready.holder[a] == Dropped
    ensures var t := WorkerStep(s, w, start); t.ready.holder[a] == Dropped && t.mail.done[a] == s.mail.done[a]
  {
    assert s.workers[w].Holds() ==> s.workers[w].a != a;
    if s.workers[w].Idle() {
      assert forall q :: 0 <= q < |s.ready.queues| && s.ready.queues[q] != [] ==> s.ready.queues[q][0] != a;
      SeekerSpares(s, w, start, a);
    } else {
      ServerSpares(s, w, start, a);
    }
  }

  lemma SeekerSpares(s: State, w: nat, start: nat, a: nat)
    requires WellFormed(s) && w < |s.workers| && a < |s.keys| && s.workers[w].Idle()
    requires forall q :: 0 <= q < |s.ready.queues| && s.ready.queues[q] != [] ==> s.ready.queues[q][0] != a
    ensures var t := WorkerStep(s, w, start); t.ready.holder[a] == s.ready.holder[a] && t.mail == s.mail
  {
    if s.workers[w].Stealing? && s.workers[w].i < |s.ready.queues| {
      assert Steal(s, w) == StealFrom(s, w, Victim(s.workers[w].start, s.workers[w].i, |s.ready.queues|));
    }
  }

  lemma ServerSpares(s: State, w: nat, start: nat, a: nat)
    requires WellFormed(s) && w < |s.workers| && a < |s.keys| && !s.workers[w].Idle()
    requires s.ready.bits[a] && (s.workers[w].Holds() ==> s.workers[w].a != a)
    ensures var t := WorkerStep(s, w, start);
            t.ready.holder[a] == s.ready.holder[a] && t.mail.done[a] == s.mail.done[a]
  {
  }
}
