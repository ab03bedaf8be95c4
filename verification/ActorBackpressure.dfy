// Post promises not to drop a task silently, yet a post that meets a full mailbox delivers an empty function.
// The mailbox really does fill up: a run ends with such a function in the queue.
module ActorBackpressure {
  import opened Wrappers
  import opened ActorModel
  import opened ActorChains
  import opened ActorSafety
  import opened ActorTheorems

  // ---------------------------------------------------------------- a post on its own

  function Rank(pc: Producer): nat {
    match pc
    case Free => 0
    case Enqueueing(_) => 1
    case Scheduling(_) => 2
    case Linking(_, _, _, _) => 3
    case Exchanging(_, _, _, _) => 4
    case Reserving(_, _, _) => 5
    case Acquiring(_, _) => 6
    case Checking(_, _) => 7
  }

  // What the rest of a post still adds to the size,
  function Owed(pc: Producer): nat {
    if Rank(pc) >= 5 then 1 else 0
  }

  // to the exchange order,
  function Carried(pc: Producer): seq<Parcel> {
    if Rank(pc) >= 4 then [pc.parcel] else []
  }

  // and what it makes of bits and queues.
  function Woken(ready: Ready, p: nat, key: nat, a: nat): Ready
    requires a < |ready.bits| == |ready.holder|
  {
    if ready.bits[a] then ready else Schedule(Win(ready, a, AtProducer(p)), key, a)
  }

  function Outlook(s: State, p: nat): Ready
    requires WellFormed(s) && p < |s.producers|
  {
    match s.producers[p]
    case Free => s.ready
    case Enqueueing(a) => Schedule(s.ready, s.keys[a], a)
    case Scheduling(a) => Woken(s.ready, p, s.keys[a], a)
    case Linking(a, _, _, wasEmpty) => if wasEmpty then Woken(s.ready, p, s.keys[a], a) else s.ready
    case Exchanging(a, _, _, wasEmpty) => if wasEmpty then Woken(s.ready, p, s.keys[a], a) else s.ready
    case Reserving(a, _, _) => if s.load.sizes[a] == 0 then Woken(s.ready, p, s.keys[a], a) else s.ready
    case Acquiring(a, _) => if s.load.sizes[a] == 0 then Woken(s.ready, p, s.keys[a], a) else s.ready
    case Checking(a, _) => if s.load.sizes[a] == 0 then Woken(s.ready, p, s.keys[a], a) else s.ready
  }

  ghost predicate OnlyProducer(s: State, s': State, p: nat)
    requires p < |s.producers|
  {
    && s'.keys == s.keys && s'.workers == s.workers
    && |s'.producers| == |s.producers| && s'.producers == s.producers[p := s'.producers[p]]
  }

  lemma PostAdvances(s: State, p: nat, a: nat)
    requires WellFormed(s) && p < |s.producers| && !s.producers[p].Free? && s.producers[p].a == a
    requires s.producers[p].Checking? ==> s.load.sizes[a] < MAX_MAILBOX
    ensures var s' := ProducerStep(s, p);
            && OnlyProducer(s, s', p)
            && Rank(s'.producers[p]) < Rank(s.producers[p]) && !s'.producers[p].Checking?
            && (!s'.producers[p].Free? ==> s'.producers[p].a == a)
            && s'.load.sizes[a] + Owed(s'.producers[p]) == s.load.sizes[a] + Owed(s.producers[p])
            && s'.load.sizes == s.load.sizes[a := s'.load.sizes[a]]
            && s'.mail.order[a] + Carried(s'.producers[p]) == s.mail.order[a] + Carried(s.producers[p])
  {
  }

  lemma OutlookStays(s: State, p: nat)
    requires WellFormed(s) && p < |s.producers| && !s.producers[p].Free?
    requires s.producers[p].Checking? ==> s.load.sizes[s.producers[p].a] < MAX_MAILBOX
    ensures Outlook(ProducerStep(s, p), p) == Outlook(s, p)
  {
  }

  lemma {:induction false} PostFinishes(s: State, p: nat, a: nat) returns (r: State)
    requires Live(s) && p < |s.producers| && a < |s.keys|
    requires !s.producers[p].Free? ==> s.producers[p].a == a
    requires s.producers[p].Checking? ==> s.load.sizes[a] < MAX_MAILBOX
    ensures Live(r) && OnlyProducer(s, r, p) && r.producers[p].Free? && r.ready == Outlook(s, p)
    ensures r.load.sizes == s.load.sizes[a := s.load.sizes[a] + Owed(s.producers[p])]
    ensures r.mail.order[a] == s.mail.order[a] + Carried(s.producers[p])
    decreases Rank(s.producers[p])
  {
    if s.producers[p].Free? {
      r := s;
    } else {
      PostAdvances(s, p, a);
      OutlookStays(s, p);
      ReachableCloses(s, Produce(p));
      r := PostFinishes(ProducerStep(s, p), p, a);
    }
  }

  // One producer alone fills the mailbox of a, post by post; the first post wakes the actor.
  lemma {:induction false} MailboxFills(s: State, p: nat, a: nat, t: Task, n: nat) returns (r: State)
    requires Initial(s) && p < |s.producers| && a < |s.keys| && n <= 2048
    ensures Live(r) && r.keys == s.keys && r.workers == s.workers && r.producers == s.producers
    ensures r.load.sizes[a] == |r.mail.order[a]| == n
    ensures r.ready == if n == 0 then s.ready else Woken(s.ready, p, s.keys[a], a)
  {
    if n == 0 {
      r := s;
      InitialIsReachable(s);
    } else {
      var s1 := MailboxFills(s, p, a, t, n - 1);
      ReachableCloses(s1, Begin(p, a, t));
      r := PostFinishes(Post(s1, p, a, t), p, a);
    }
  }

  // From every initial state with a producer: a post of task t loses t.
  lemma FullMailboxLosesTask(s: State, p: nat, a: nat, t: Task) returns (r: State)
    requires Initial(s) && p < |s.producers| && a < |s.keys|
    ensures Live(r) && r.keys == s.keys && r.workers == s.workers
    ensures r.producers == s.producers[p := Checking(a, Parcel(p, t, 1, None))]
    ensures r.load.sizes[a] == |r.mail.order[a]| == 2048 && r.ready == Woken(s.ready, p, s.keys[a], a)
  {
    var s1 := MailboxFills(s, p, a, t, 2048);
    ReachableCloses(s1, Begin(p, a, t));
    r := Post(s1, p, a, t);
    ReachableCloses(r, Produce(p));
    r := CheckSize(r, p);
  }

  // ---------------------------------------------------------------- a batch on its own

  // No post is under way past its capacity check.
  ghost predicate Calm(s: State) {
    forall q :: 0 <= q < |s.producers| ==> s.producers[q].Free? || s.producers[q].Checking?
  }

  // Worker w is popping from a, and will take something: it has, or its budget and the size allow it to.
  ghost predicate Popping(s: State, w: nat, a: nat) {
    && w < |s.workers| && a < |s.keys|
    && (s.workers[w].Opening? || s.workers[w].InPop()) && s.workers[w].a == a
    && (!s.workers[w].Closing? ==> s.workers[w].max > 0)
    && (s.workers[w].Closing? || s.workers[w].Freeing? ==> s.workers[w].batch != [])
  }

  function BatchRank(pc: Worker): nat {
    match pc
    case Opening(_, max) => 4 * max + 4
    case Looping(_, max, _, next, batch) =>
      if |batch| >= max then 1 else 4 * (max - |batch|) + (if next.Some? then 1 else 3)
    case Spinning(_, max, _, batch) => if |batch| >= max then 2 else 4 * (max - |batch|) + 2
    case Freeing(_, max, _, _, batch, _) => if |batch| >= max then 4 else 4 * (max - |batch|) + 4
    case _ => 0
  }

  lemma NextIsLinked(s: State, w: nat)
    requires Live(s) && Calm(s) && w < |s.workers| && s.workers[w].Spinning?
    ensures s.nodes.Next(s.workers[w].head).Some?
  {
    SpinIsServed(s, w);
  }

  // An actor of positive size has a node behind the head.
  lemma HeadIsNotTail(s: State, w: nat, a: nat)
    requires Live(s) && Calm(s) && Popping(s, w, a) && s.workers[w].Looping? && s.workers[w].batch == []
    requires s.load.sizes[a] > 0
    ensures s.workers[w].head != s.mail.tails[a]
  {
    ReachableIsSafe(s);
    SizeIsExact(s, a);
    assert s.load.reserved[a] == {};
    assert Consumer(s.ready, s.workers, a) == s.workers[w];
    assert ConsumerKnows(s.mail, s.nodes, s.load.taken, s.workers[w], a);
    assert |s.mail.chains[a]| >= 2;
  }

  lemma BatchAdvances(s: State, w: nat, a: nat)
    requires Live(s) && Calm(s) && Popping(s, w, a) && !s.workers[w].Closing? && s.load.sizes[a] > 0
    ensures var s' := WorkerStep(s, w, 0);
            && Popping(s', w, a) && BatchRank(s'.workers[w]) < BatchRank(s.workers[w])
            && s'.producers == s.producers && s'.keys == s.keys
            && s'.load.sizes == s.load.sizes && s'.mail.order == s.mail.order
  {
    if s.workers[w].Spinning? { NextIsLinked(s, w); }
    if s.workers[w].Looping? && s.workers[w].batch == [] { HeadIsNotTail(s, w, a); }
  }

  // While no post is under way, a worker that pops gets to the end of its batch and lowers the size.
  lemma {:induction false} BatchFinishes(s: State, w: nat, a: nat) returns (r: State)
    requires Live(s) && Calm(s) && Popping(s, w, a) && s.load.sizes[a] > 0
    ensures Live(r) && r.producers == s.producers && r.keys == s.keys
    ensures r.load.sizes[a] < s.load.sizes[a] && r.mail.order == s.mail.order
    decreases BatchRank(s.workers[w])
  {
    ReachableCloses(s, Work(w, 0));
    if s.workers[w].Closing? {
      r := Close(s, w);
    } else {
      BatchAdvances(s, w, a);
      r := BatchFinishes(WorkerStep(s, w, 0), w, a);
    }
  }

  // ---------------------------------------------------------------- the empty function

  // The worker of the shard takes the actor from its ready queue and starts to pop.
  lemma WorkerStarts(s: State, w: nat, a: nat) returns (r: State)
    requires Live(s) && w < |s.workers| && s.workers[w].Local? && a < |s.keys| && s.ready.queues[w] == [a]
    ensures Live(r) && Popping(r, w, a) && r.producers == s.producers && r.keys == s.keys
    ensures r.load.sizes == s.load.sizes && r.mail.order == s.mail.order
  {
    SeekCloses(s, w, 0);
    var s1 := PopLocal(s, w, 0);
    BatchCloses(s1, w);
    r := ReadSize(s1, w);
  }

  // From every initial state with a producer and a worker: the job posted after 2048 others is not dropped,
  // but its place in the queue is taken by an empty function.
  lemma EmptyFunctionIsEnqueued(s: State, p: nat, a: nat, t: Task) returns (r: State)
    requires Initial(s) && p < |s.producers| && a < |s.keys| && |s.workers| > 0
    ensures Reachable(r) && a < |r.mail.order| && |r.mail.order[a]| == 2049
    ensures r.mail.order[a][2048] == Parcel(p, t, 1, None)
  {
    var w := s.keys[a] % |s.workers|;
    var full := FullMailboxLosesTask(s, p, a, t);
    var popping := WorkerStarts(full, w, a);
    var drained := BatchFinishes(popping, w, a);
    r := PostFinishes(drained, p, a);
  }
}
