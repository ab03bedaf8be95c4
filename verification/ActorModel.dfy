// The actor runtime as a state machine: one step per atomic access of Mailbox.h, Actor.cpp and
// ActorSystem.cpp, over any number of actors, producers, workers and shards, all mailboxes sharing one
// node pool. Interleavings are sequentially consistent; a pool operation is one step.
module ActorModel {
  import opened Wrappers

  type Node = nat
  type Task = nat

  const MAX_MAILBOX := 2048
  const MAX_QUEUE_SIZE := 10000
  const LOCAL_CACHE_SIZE := 64

  // What travels in a node: the producer that posted, the job it was asked to post, how often that post
  // met a full mailbox, and the std::function that is left to run (None once it has been moved from).
  datatype Parcel = Parcel(sender: nat, posted: Task, retries: nat, task: Option<Task>)

  const EMPTY_PARCEL := Parcel(0, 0, 0, None)

  // ---------------------------------------------------------------- program counters

  datatype Producer =
    | Free
    | Checking(a: nat, parcel: Parcel)
    | Acquiring(a: nat, parcel: Parcel)
    | Reserving(a: nat, parcel: Parcel, node: Node)
    | Exchanging(a: nat, parcel: Parcel, node: Node, wasEmpty: bool)
    | Linking(a: nat, node: Node, prev: Node, wasEmpty: bool)
    | Scheduling(a: nat)
    | Enqueueing(a: nat)

  datatype Worker =
    | Local
    | Stealing(start: nat, i: nat)
    | Waiting
    | Got(a: nat)
    | Opening(a: nat, max: nat)
    | Looping(a: nat, max: nat, head: Node, next: Option<Node>, batch: seq<Parcel>)
    | Spinning(a: nat, max: nat, head: Node, batch: seq<Parcel>)
    | Freeing(a: nat, max: nat, head: Node, next: Option<Node>, batch: seq<Parcel>, spent: Node)
    | Closing(a: nat, head: Node, batch: seq<Parcel>)
    | Running(a: nat, batch: seq<Parcel>, i: nat)
    | Clearing(a: nat)
    | Rechecking(a: nat)
    | Retrying(a: nat)
    | Requeueing(a: nat)
  {
    predicate Idle() { Local? || Stealing? || Waiting? }

    // Inside PopBatch with a head of its own, not yet written back to head_.
    predicate InPop() { Looping? || Spinning? || Freeing? || Closing? }

    // Answerable for the scheduled bit of its actor: from the ready-queue pop to the clearing of the bit,
    // and again from a won re-check to the requeue.
    predicate Holds() { Got? || Opening? || InPop() || Running? || Clearing? || Requeueing? }
  }

  // ---------------------------------------------------------------- the state

  // Auxiliary values that no access of the program reads: who answers for a scheduled bit, where a node is.
  datatype Holder = Nobody | AtProducer(p: nat) | AtQueue(q: nat) | AtWorker(w: nat) | Dropped

  datatype Place = InCache(t: nat) | InStack | WithProducer(p: nat) | WithWorker(w: nat) | InChain(a: nat)

  // The nodes. One absent from next has a null next link, one absent from item was never filled.
  datatype Nodes = Nodes(next: map<Node, Node>, item: map<Node, Parcel>)
  {
    function Next(n: Node): Option<Node> {
      if n in next then Some(next[n]) else None
    }

    function Item(n: Node): Parcel {
      if n in item then item[n] else EMPTY_PARCEL
    }
  }

  // The node pool: one cache per thread, the global head, the number of nodes created by new.
  // History: the nodes on the global stack.
  datatype Pool = Pool(caches: seq<seq<Node>>, top: Option<Node>, created: nat, stack: seq<Node>)

  // Per actor: head_ and tail_. History: the nodes from the consumer's head to the tail in exchange order,
  // all parcels in exchange order, how many of those the consumer took, those executed, and per producer where
  // its last exchange came in that order.
  datatype Mail = Mail(heads: seq<Node>, tails: seq<Node>, chains: seq<seq<Node>>,
                       order: seq<seq<Parcel>>, popped: seq<nat>, done: seq<seq<Parcel>>, at: seq<nat>)

  // Per actor: approx_size_. History: the producers past the capacity check, the producers past the
  // increment and before the exchange, and the number of nodes taken and not subtracted.
  datatype Load = Load(sizes: seq<int>, passed: seq<set<nat>>, reserved: seq<set<nat>>, taken: seq<nat>)

  // Per actor: is_scheduled_; per shard: the ready queue. History: the holder of each bit.
  datatype Ready = Ready(bits: seq<bool>, queues: seq<seq<nat>>, holder: seq<Holder>)

  // keys are the routing keys of the actors; place is the history of the node pool.
  datatype State = State(keys: seq<nat>, nodes: Nodes, pool: Pool, place: map<Node, Place>,
                         mail: Mail, load: Load, ready: Ready, producers: seq<Producer>, workers: seq<Worker>)
  {
    // Worker w uses the pool cache behind those of the producers.
    function CacheOf(w: nat): nat { |producers| + w }
  }

  // One worker and one ready queue per shard, one pool cache per thread, one entry per actor in each table,
  // and every actor a thread or a ready queue names exists.
  ghost predicate WellFormed(s: State) {
    && |s.keys| == |s.mail.heads| == |s.mail.tails| == |s.mail.chains|
    && |s.keys| == |s.mail.order| == |s.mail.popped| == |s.mail.done|
    && |s.keys| == |s.load.sizes| == |s.load.passed| == |s.load.reserved| == |s.load.taken|
    && |s.keys| == |s.ready.bits| == |s.ready.holder|
    && |s.workers| == |s.ready.queues|
    && |s.pool.caches| == |s.producers| + |s.workers| && |s.mail.at| == |s.producers|
    && (forall p :: 0 <= p < |s.producers| && !s.producers[p].Free? ==> s.producers[p].a < |s.keys|)
    && (forall w :: 0 <= w < |s.workers| && !s.workers[w].Idle() ==> s.workers[w].a < |s.keys|)
    && (forall q, i :: 0 <= q < |s.ready.queues| && 0 <= i < |s.ready.queues[q]| ==> s.ready.queues[q][i] < |s.keys|)
  }

  // Actor a starts with its own dummy node, numbered a.
  ghost predicate Initial(s: State) {
    && WellFormed(s)
    && (forall p :: 0 <= p < |s.producers| ==> s.producers[p].Free?)
    && (forall w :: 0 <= w < |s.workers| ==> s.workers[w] == Local)
    && (forall q :: 0 <= q < |s.ready.queues| ==> s.ready.queues[q] == [])
    && (forall t :: 0 <= t < |s.pool.caches| ==> s.pool.caches[t] == [])
    && s.nodes == Nodes(map[], map[])
    && s.pool == Pool(s.pool.caches, None, |s.keys|, [])
    && s.place == (map n: nat | n < |s.keys| :: InChain(n))
    && (forall a :: 0 <= a < |s.keys| ==>
          && s.mail.heads[a] == s.mail.tails[a] == a && s.mail.chains[a] == [a]
          && s.mail.order[a] == s.mail.done[a] == [] && s.mail.popped[a] == 0
          && s.load.sizes[a] == s.load.taken[a] == 0 && s.load.passed[a] == s.load.reserved[a] == {}
          && !s.ready.bits[a] && s.ready.holder[a] == Nobody)
  }

  // ---------------------------------------------------------------- ObjectPool

  // ObjectPool::Acquire on thread t: local cache, then global stack, then a new node.
  function Acquire(pool: Pool, nodes: Nodes, t: nat): (Pool, Node)
    requires t < |pool.caches|
  {
    if pool.caches[t] != [] then
      var k := |pool.caches[t]| - 1;
      (pool.(caches := pool.caches[t := pool.caches[t][..k]]), pool.caches[t][k])
    else if pool.top.Some? then
      (pool.(top := nodes.Next(pool.top.value), stack := if pool.stack == [] then [] else pool.stack[1..]),
       pool.top.value)
    else
      (pool.(created := pool.created + 1), pool.created)
  }

  // ObjectPool::Release of node n on thread t goes into the local cache while it has room,
  predicate CacheHasRoom(pool: Pool, t: nat)
    requires t < |pool.caches|
  {
    |pool.caches[t]| < LOCAL_CACHE_SIZE
  }

  function Cached(pool: Pool, t: nat, n: Node): Pool
    requires t < |pool.caches|
  {
    pool.(caches := pool.caches[t := pool.caches[t] + [n]])
  }

  // and else onto the global stack, by a write to the next link of the node.
  function Stacked(pool: Pool, n: Node): Pool {
    pool.(top := Some(n), stack := [n] + pool.stack)
  }

  function SetNext(nodes: Nodes, n: Node, to: Option<Node>): Nodes {
    nodes.(next := if to.Some? then nodes.next[n := to.value] else nodes.next - {n})
  }

  // ---------------------------------------------------------------- ActorSystem::Schedule

  // A request that meets a full ready queue is dropped, and the actor stays marked as scheduled.
  function Schedule(ready: Ready, key: nat, a: nat): Ready
    requires a < |ready.holder|
  {
    if |ready.queues| == 0 || |ready.queues[key % |ready.queues|]| > MAX_QUEUE_SIZE then
      ready.(holder := ready.holder[a := Dropped])
    else
      var q := key % |ready.queues|;
      ready.(queues := ready.queues[q := ready.queues[q] + [a]], holder := ready.holder[a := AtQueue(q)])
  }

  // Winning the compare-exchange of TrySchedule.
  function Win(ready: Ready, a: nat, winner: Holder): Ready
    requires a < |ready.holder| == |ready.bits|
  {
    ready.(bits := ready.bits[a := true], holder := ready.holder[a := winner])
  }

  function Dequeue(ready: Ready, q: nat, w: nat): Ready
    requires q < |ready.queues| && ready.queues[q] != [] && ready.queues[q][0] < |ready.holder|
  {
    ready.(queues := ready.queues[q := ready.queues[q][1..]], holder := ready.holder[ready.queues[q][0] := AtWorker(w)])
  }

  // ---------------------------------------------------------------- what the steps do to a mailbox and its size

  ghost predicate MailShape(m: Mail) {
    |m.heads| == |m.tails| == |m.chains| == |m.order| == |m.popped| == |m.done|
  }

  function Append(m: Mail, a: nat, n: Node, parcel: Parcel): Mail
    requires MailShape(m) && a < |m.chains|
  {
    m.(tails := m.tails[a := n], chains := m.chains[a := m.chains[a] + [n]],
       order := m.order[a := m.order[a] + [parcel]],
       at := if parcel.sender < |m.at| then m.at[parcel.sender := |m.order[a]|] else m.at)
  }

  function Rest(chain: seq<Node>): seq<Node> {
    if chain == [] then [] else chain[1..]
  }

  function Advance(m: Mail, a: nat): Mail
    requires MailShape(m) && a < |m.chains|
  {
    m.(chains := m.chains[a := Rest(m.chains[a])], popped := m.popped[a := m.popped[a] + 1])
  }

  function Executed(m: Mail, a: nat, parcel: Parcel): Mail
    requires MailShape(m) && a < |m.chains|
  {
    m.(done := m.done[a := m.done[a] + [parcel]])
  }

  ghost predicate LoadShape(l: Load) {
    |l.sizes| == |l.passed| == |l.reserved| == |l.taken|
  }

  function Pass(l: Load, a: nat, p: nat): Load
    requires LoadShape(l) && a < |l.sizes|
  {
    l.(passed := l.passed[a := l.passed[a] + {p}])
  }

  function Increment(l: Load, a: nat, p: nat): Load
    requires LoadShape(l) && a < |l.sizes|
  {
    l.(sizes := l.sizes[a := l.sizes[a] + 1],
       passed := l.passed[a := l.passed[a] - {p}], reserved := l.reserved[a := l.reserved[a] + {p}])
  }

  function Arrive(l: Load, a: nat, p: nat): Load
    requires LoadShape(l) && a < |l.sizes|
  {
    l.(reserved := l.reserved[a := l.reserved[a] - {p}])
  }

  function Pick(l: Load, a: nat): Load
    requires LoadShape(l) && a < |l.sizes|
  {
    l.(taken := l.taken[a := l.taken[a] + 1])
  }

  function Subtract(l: Load, a: nat, count: nat): Load
    requires LoadShape(l) && a < |l.sizes|
  {
    l.(sizes := l.sizes[a := l.sizes[a] - count], taken := l.taken[a := 0])
  }

  function SetProducer(s: State, p: nat, pc: Producer): State
    requires p < |s.producers|
  {
    s.(producers := s.producers[p := pc])
  }

  function SetWorker(s: State, w: nat, pc: Worker): State
    requires w < |s.workers|
  {
    s.(workers := s.workers[w := pc])
  }

  // ---------------------------------------------------------------- producer steps: Actor::Post

  function Post(s: State, p: nat, a: nat, t: Task): (r: State)
    requires WellFormed(s) && p < |s.producers| && s.producers[p].Free? && a < |s.keys|
    ensures WellFormed(r)
  {
    SetProducer(s, p, Checking(a, Parcel(p, t, 0, Some(t))))
  }

  // The capacity check. On a full mailbox Post tries again, with the std::function already moved from.
  function CheckSize(s: State, p: nat): (r: State)
    requires WellFormed(s) && p < |s.producers| && s.producers[p].Checking?
    ensures WellFormed(r)
  {
    var Checking(a, parcel) := s.producers[p];
    if s.load.sizes[a] >= MAX_MAILBOX then
      SetProducer(s, p, Checking(a, parcel.(retries := parcel.retries + 1, task := None)))
    else
      SetProducer(s.(load := Pass(s.load, a, p)), p, Acquiring(a, parcel))
  }

  // The pool hands out a node; its new owner stores its job and a null next link in it.
  function AcquireNode(s: State, p: nat): (r: State)
    requires WellFormed(s) && p < |s.producers| && s.producers[p].Acquiring?
    ensures WellFormed(r)
  {
    var Acquiring(a, parcel) := s.producers[p];
    var (pool, n) := Acquire(s.pool, s.nodes, p);
    SetProducer(s.(pool := pool, nodes := Nodes(s.nodes.next - {n}, s.nodes.item[n := parcel]),
                   place := s.place[n := WithProducer(p)]),
                p, Reserving(a, parcel, n))
  }

  function Reserve(s: State, p: nat): (r: State)
    requires WellFormed(s) && p < |s.producers| && s.producers[p].Reserving?
    ensures WellFormed(r)
  {
    var Reserving(a, parcel, n) := s.producers[p];
    SetProducer(s.(load := Increment(s.load, a, p)), p, Exchanging(a, parcel, n, s.load.sizes[a] == 0))
  }

  function Exchange(s: State, p: nat): (r: State)
    requires WellFormed(s) && p < |s.producers| && s.producers[p].Exchanging?
    ensures WellFormed(r)
  {
    var Exchanging(a, parcel, n, wasEmpty) := s.producers[p];
    SetProducer(s.(mail := Append(s.mail, a, n, parcel), place := s.place[n := InChain(a)],
                   load := Arrive(s.load, a, p)),
                p, Linking(a, n, s.mail.tails[a], wasEmpty))
  }

  function Link(s: State, p: nat): (r: State)
    requires WellFormed(s) && p < |s.producers| && s.producers[p].Linking?
    ensures WellFormed(r)
  {
    var Linking(a, n, prev, wasEmpty) := s.producers[p];
    SetProducer(s.(nodes := s.nodes.(next := s.nodes.next[prev := n])), p, if wasEmpty then Scheduling(a) else Free)
  }

  function TrySchedule(s: State, p: nat): (r: State)
    requires WellFormed(s) && p < |s.producers| && s.producers[p].Scheduling?
    ensures WellFormed(r)
  {
    var a := s.producers[p].a;
    if s.ready.bits[a] then
      SetProducer(s, p, Free)
    else
      SetProducer(s.(ready := Win(s.ready, a, AtProducer(p))), p, Enqueueing(a))
  }

  function Enqueue(s: State, p: nat): (r: State)
    requires WellFormed(s) && p < |s.producers| && s.producers[p].Enqueueing?
    ensures WellFormed(r)
  {
    var a := s.producers[p].a;
    SetProducer(s.(ready := Schedule(s.ready, s.keys[a], a)), p, Free)
  }

  // ---------------------------------------------------------------- worker steps: ActorSystem::Worker, TrySteal

  function TakeFrom(s: State, w: nat, q: nat): (r: State)
    requires WellFormed(s) && w < |s.workers| && q < |s.ready.queues| && s.ready.queues[q] != []
    ensures WellFormed(r)
  {
    SetWorker(s.(ready := Dequeue(s.ready, q, w)), w, Got(s.ready.queues[q][0]))
  }

  function PopLocal(s: State, w: nat, start: nat): (r: State)
    requires WellFormed(s) && w < |s.workers| && s.workers[w].Local?
    ensures WellFormed(r)
  {
    if s.ready.queues[w] != [] then TakeFrom(s, w, w)
    else if |s.ready.queues| <= 1 then SetWorker(s, w, Waiting)
    else SetWorker(s, w, Stealing(start, 0))
  }

  // The shard a thief tries at its turn i of n, from a random start.
  function Victim(start: nat, i: nat, n: nat): nat
    requires n > 0
  {
    (start + i) % n
  }

  function Steal(s: State, w: nat): (r: State)
    requires WellFormed(s) && w < |s.workers| && s.workers[w].Stealing?
    ensures WellFormed(r)
  {
    var Stealing(start, i) := s.workers[w];
    if i >= |s.ready.queues| then SetWorker(s, w, Waiting)
    else StealFrom(s, w, Victim(start, i, |s.ready.queues|))
  }

  // One TryPop of a thief; its own shard is skipped.
  function StealFrom(s: State, w: nat, victim: nat): (r: State)
    requires WellFormed(s) && w < |s.workers| && s.workers[w].Stealing? && victim < |s.ready.queues|
    ensures WellFormed(r)
  {
    if victim != w && s.ready.queues[victim] != [] then TakeFrom(s, w, victim)
    else SetWorker(s, w, Stealing(s.workers[w].start, s.workers[w].i + 1))
  }

  // The wait on the condition variable ends, by a notification or after a millisecond.
  function Wake(s: State, w: nat): (r: State)
    requires WellFormed(s) && w < |s.workers| && s.workers[w].Waiting?
    ensures WellFormed(r)
  {
    SetWorker(s, w, Local)
  }

  function Budget(pending: int): nat {
    if pending >= 512 then 512
    else if pending >= 128 then 256
    else if pending >= 64 then 128
    else 64
  }

  function ReadSize(s: State, w: nat): (r: State)
    requires WellFormed(s) && w < |s.workers| && s.workers[w].Got?
    ensures WellFormed(r)
  {
    var a := s.workers[w].a;
    SetWorker(s, w, Opening(a, Budget(s.load.sizes[a])))
  }

  // ---------------------------------------------------------------- worker steps: Mailbox::PopBatch

  function Open(s: State, w: nat): (r: State)
    requires WellFormed(s) && w < |s.workers| && s.workers[w].Opening?
    ensures WellFormed(r)
  {
    var Opening(a, max) := s.workers[w];
    SetWorker(s, w, Looping(a, max, s.mail.heads[a], s.nodes.Next(s.mail.heads[a]), []))
  }

  // One turn of the loop: stop at the budget, take the linked node, or look at the tail.
  function Loop(s: State, w: nat): (r: State)
    requires WellFormed(s) && w < |s.workers| && s.workers[w].Looping?
    ensures WellFormed(r)
  {
    var Looping(a, max, head, next, batch) := s.workers[w];
    if |batch| < max && next.Some? then Take(s, w)
    else if |batch| < max && head != s.mail.tails[a] then SetWorker(s, w, Spinning(a, max, head, batch))
    else SetWorker(s, w, Closing(a, head, batch))
  }

  function Take(s: State, w: nat): (r: State)
    requires WellFormed(s) && w < |s.workers| && s.workers[w].Looping? && s.workers[w].next.Some?
    ensures WellFormed(r)
  {
    var Looping(a, max, head, next, batch) := s.workers[w];
    SetWorker(s.(mail := Advance(s.mail, a), place := s.place[head := WithWorker(w)], load := Pick(s.load, a)),
              w, Freeing(a, max, next.value, s.nodes.Next(next.value), batch + [s.nodes.Item(next.value)], head))
  }

  function Spin(s: State, w: nat): (r: State)
    requires WellFormed(s) && w < |s.workers| && s.workers[w].Spinning?
    ensures WellFormed(r)
  {
    var Spinning(a, max, head, batch) := s.workers[w];
    if s.nodes.Next(head).None? then s
    else SetWorker(s, w, Looping(a, max, head, s.nodes.Next(head), batch))
  }

  function FreeOld(s: State, w: nat): (r: State)
    requires WellFormed(s) && w < |s.workers| && s.workers[w].Freeing?
    ensures WellFormed(r)
  {
    if CacheHasRoom(s.pool, s.CacheOf(w)) then FreeToCache(s, w) else FreeToStack(s, w)
  }

  function FreeToCache(s: State, w: nat): (r: State)
    requires WellFormed(s) && w < |s.workers| && s.workers[w].Freeing?
    ensures WellFormed(r)
  {
    var Freeing(a, max, head, next, batch, spent) := s.workers[w];
    SetWorker(s.(pool := Cached(s.pool, s.CacheOf(w), spent), place := s.place[spent := InCache(s.CacheOf(w))]),
              w, Looping(a, max, head, next, batch))
  }

  function FreeToStack(s: State, w: nat): (r: State)
    requires WellFormed(s) && w < |s.workers| && s.workers[w].Freeing?
    ensures WellFormed(r)
  {
    var Freeing(a, max, head, next, batch, spent) := s.workers[w];
    SetWorker(s.(pool := Stacked(s.pool, spent), nodes := SetNext(s.nodes, spent, s.pool.top),
                 place := s.place[spent := InStack]),
              w, Looping(a, max, head, next, batch))
  }

  // head_ is written back and the whole batch is subtracted from the size.
  function Close(s: State, w: nat): (r: State)
    requires WellFormed(s) && w < |s.workers| && s.workers[w].Closing?
    ensures WellFormed(r)
  {
    var Closing(a, head, batch) := s.workers[w];
    SetWorker(s.(mail := s.mail.(heads := s.mail.heads[a := head]),
                 load := Subtract(s.load, a, |batch|)),
              w, Running(a, batch, 0))
  }

  // ---------------------------------------------------------------- worker steps: Actor::Process

  function RunTask(s: State, w: nat): (r: State)
    requires WellFormed(s) && w < |s.workers| && s.workers[w].Running?
    ensures WellFormed(r)
  {
    var Running(a, batch, i) := s.workers[w];
    if i < |batch| then
      SetWorker(s.(mail := Executed(s.mail, a, batch[i])), w, Running(a, batch, i + 1))
    else
      SetWorker(s, w, Clearing(a))
  }

  function Clear(s: State, w: nat): (r: State)
    requires WellFormed(s) && w < |s.workers| && s.workers[w].Clearing?
    ensures WellFormed(r)
  {
    var a := s.workers[w].a;
    SetWorker(s.(ready := s.ready.(bits := s.ready.bits[a := false],
                                  holder := s.ready.holder[a := Nobody])),
              w, Rechecking(a))
  }

  function Recheck(s: State, w: nat): (r: State)
    requires WellFormed(s) && w < |s.workers| && s.workers[w].Rechecking?
    ensures WellFormed(r)
  {
    var a := s.workers[w].a;
    SetWorker(s, w, if s.load.sizes[a] > 0 then Retrying(a) else Local)
  }

  function Retry(s: State, w: nat): (r: State)
    requires WellFormed(s) && w < |s.workers| && s.workers[w].Retrying?
    ensures WellFormed(r)
  {
    var a := s.workers[w].a;
    if s.ready.bits[a] then
      SetWorker(s, w, Local)
    else
      SetWorker(s.(ready := Win(s.ready, a, AtWorker(w))), w, Requeueing(a))
  }

  function Requeue(s: State, w: nat): (r: State)
    requires WellFormed(s) && w < |s.workers| && s.workers[w].Requeueing?
    ensures WellFormed(r)
  {
    var a := s.workers[w].a;
    SetWorker(s.(ready := Schedule(s.ready, s.keys[a], a)), w, Local)
  }

  // ---------------------------------------------------------------- the machine

  // A scheduler choice: a free producer starts a post, or one thread makes its next atomic access.
  // start is the random shard a thief begins with.
  datatype Event = Begin(p: nat, a: nat, t: Task) | Produce(p: nat) | Work(w: nat, start: nat)

  ghost predicate Enabled(s: State, e: Event) {
    && WellFormed(s)
    && match e
       case Begin(p, a, _) => p < |s.producers| && s.producers[p].Free? && a < |s.keys|
       case Produce(p) => p < |s.producers| && !s.producers[p].Free?
       case Work(w, _) => w < |s.workers|
  }

  function ProducerStep(s: State, p: nat): (r: State)
    requires WellFormed(s) && p < |s.producers| && !s.producers[p].Free?
    ensures WellFormed(r)
  {
    match s.producers[p]
    case Checking(_, _) => CheckSize(s, p)
    case Acquiring(_, _) => AcquireNode(s, p)
    case Reserving(_, _, _) => Reserve(s, p)
    case Exchanging(_, _, _, _) => Exchange(s, p)
    case Linking(_, _, _, _) => Link(s, p)
    case Scheduling(_) => TrySchedule(s, p)
    case Enqueueing(_) => Enqueue(s, p)
  }

  // A worker that has an actor: PopBatch and its batch, up to the clearing of the bit.
  function BatchStep(s: State, w: nat): (r: State)
    requires WellFormed(s) && w < |s.workers| && s.workers[w].Holds() && !s.workers[w].Requeueing?
    ensures WellFormed(r)
  {
    match s.workers[w]
    case Got(_) => ReadSize(s, w)
    case Opening(_, _) => Open(s, w)
    case Looping(_, _, _, _, _) => Loop(s, w)
    case Spinning(_, _, _, _) => Spin(s, w)
    case Freeing(_, _, _, _, _, _) => FreeOld(s, w)
    case Closing(_, _, _) => Close(s, w)
    case Running(_, _, _) => RunTask(s, w)
    case Clearing(_) => Clear(s, w)
  }

  function WorkerStep(s: State, w: nat, start: nat): (r: State)
    requires WellFormed(s) && w < |s.workers|
    ensures WellFormed(r)
  {
    match s.workers[w]
    case Local => PopLocal(s, w, start)
    case Stealing(_, _) => Steal(s, w)
    case Waiting => Wake(s, w)
    case Rechecking(_) => Recheck(s, w)
    case Retrying(_) => Retry(s, w)
    case Requeueing(_) => Requeue(s, w)
    case _ => BatchStep(s, w)
  }

  function Step(s: State, e: Event): (r: State)
    requires Enabled(s, e)
    ensures WellFormed(r)
  {
    match e
    case Begin(p, a, t) => Post(s, p, a, t)
    case Produce(p) => ProducerStep(s, p)
    case Work(w, start) => WorkerStep(s, w, start)
  }
}
