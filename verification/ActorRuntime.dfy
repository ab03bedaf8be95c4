// The actor runtime with its fields updated in place: one method for each atomic access, which keeps the
// invariant and is proved against the state machine of ActorModel. History is ghost: no access can read it.
module ActorRuntime {
  import M = ActorModel
  import opened Wrappers
  import opened ActorModel
  import opened ActorSafety
  import opened ActorTheorems
  import opened ActorBackpressure

  class Runtime {
    // nodes and pool
    var next: map<Node, Node>
    var item: map<Node, Parcel>
    var caches: seq<seq<Node>>
    var top: Option<Node>
    var created: nat
    // per actor
    const keys: seq<nat>
    var heads: seq<Node>
    var tails: seq<Node>
    var sizes: seq<int>
    var bits: seq<bool>
    // per shard
    var queues: seq<seq<nat>>
    // per thread
    var producers: seq<Producer>
    var workers: seq<Worker>
    // history
    ghost var stack: seq<Node>
    ghost var place: map<Node, Place>
    ghost var chains: seq<seq<Node>>
    ghost var order: seq<seq<Parcel>>
    ghost var popped: seq<nat>
    ghost var done: seq<seq<Parcel>>
    ghost var at: seq<nat>
    ghost var passed: seq<set<nat>>
    ghost var reserved: seq<set<nat>>
    ghost var taken: seq<nat>
    ghost var holder: seq<Holder>

    ghost function Snapshot(): State
      reads this
    {
      State(keys, Nodes(next, item), Pool(caches, top, created, stack), place,
            Mail(heads, tails, chains, order, popped, done, at), Load(sizes, passed, reserved, taken),
            Ready(bits, queues, holder), producers, workers)
    }

    // A state that some run of the machine reaches.
    ghost predicate Valid()
      reads this
    {
      Live(Snapshot())
    }

    constructor (keys: seq<nat>, threads: nat, clients: nat)
      ensures Valid() && Initial(Snapshot()) && this.keys == keys && |workers| == threads && |producers| == clients
    {
      var n := |keys|;
      this.keys := keys;
      next, item, top, created, stack := map[], map[], None, n, [];
      caches := seq(clients + threads, _ => []);
      heads, tails := seq(n, a => a), seq(n, a => a);
      sizes, bits := seq(n, _ => 0), seq(n, _ => false);
      queues := seq(threads, _ => []);
      producers, workers := seq(clients, _ => Free), seq(threads, _ => Local);
      place := map k: nat | k < n :: InChain(k);
      chains := seq(n, a => [a]);
      order, popped, done := seq(n, _ => []), seq(n, _ => 0), seq(n, _ => []);
      at := seq(clients, _ => 0);
      passed, reserved, taken := seq(n, _ => {}), seq(n, _ => {}), seq(n, _ => 0);
      holder := seq(n, _ => Nobody);
      new;
      InitialIsReachable(Snapshot());
    }

    // ---------------------------------------------------------------- ObjectPool

    method Acquire(t: nat) returns (n: Node)
      requires t < |caches|
      modifies this`caches, this`top, this`stack, this`created
      ensures (Pool(caches, top, created, stack), n)
        == M.Acquire(old(Pool(caches, top, created, stack)), Nodes(next, item), t)
    {
      if caches[t] != [] {
        n := caches[t][|caches[t]| - 1];
        caches := caches[t := caches[t][..|caches[t]| - 1]];
      } else if top.Some? {
        n := top.value;
        top := if n in next then Some(next[n]) else None;
        stack := if stack == [] then [] else stack[1..];
      } else {
        n := created;
        created := created + 1;
      }
    }

    // ---------------------------------------------------------------- Actor::Post

    method Post(p: nat, a: nat, t: Task)
      requires Valid() && p < |producers| && producers[p].Free? && a < |keys|
      modifies this`producers
      ensures Valid() && Snapshot() == M.Post(old(Snapshot()), p, a, t)
    {
      var pc := Checking(a, Parcel(p, t, 0, Some(t)));
      producers := producers[p := pc];
      assert Snapshot() == M.Post(old(Snapshot()), p, a, t);
      ReachableCloses(old(Snapshot()), Begin(p, a, t));
    }

    method CheckSize(p: nat)
      requires Valid() && p < |producers| && producers[p].Checking?
      modifies this`producers, this`passed
      ensures Valid() && Snapshot() == M.CheckSize(old(Snapshot()), p)
    {
      var Checking(a, parcel) := producers[p];
      if sizes[a] >= MAX_MAILBOX {
        producers := producers[p := Checking(a, parcel.(retries := parcel.retries + 1, task := None))];
      } else {
        producers := producers[p := Acquiring(a, parcel)];
        passed := passed[a := passed[a] + {p}];
      }
      assert Snapshot() == M.CheckSize(old(Snapshot()), p);
      ProducerCloses(old(Snapshot()), p);
    }

    method AcquireNode(p: nat)
      requires Valid() && p < |producers| && producers[p].Acquiring?
      modifies this`producers, this`caches, this`top, this`stack, this`created, this`item, this`next, this`place
      ensures Valid() && Snapshot() == M.AcquireNode(old(Snapshot()), p)
    {
      var Acquiring(a, parcel) := producers[p];
      var n := Acquire(p);
      Fill(p, a, parcel, n);
      assert Snapshot() == M.AcquireNode(old(Snapshot()), p);
      ProducerCloses(old(Snapshot()), p);
    }

    // The producer stores its job and a null next link in the node it just got.
    method Fill(p: nat, a: nat, parcel: Parcel, n: Node)
      requires p < |producers|
      modifies this`item, this`next, this`producers, this`place
      ensures Nodes(next, item) == Nodes(old(next) - {n}, old(item)[n := parcel])
      ensures producers == old(producers)[p := Reserving(a, parcel, n)] && place == old(place)[n := WithProducer(p)]
    {
      item, next := item[n := parcel], next - {n};
      producers, place := producers[p := Reserving(a, parcel, n)], place[n := WithProducer(p)];
    }

    method Reserve(p: nat)
      requires Valid() && p < |producers| && producers[p].Reserving?
      modifies this`producers, this`sizes, this`passed, this`reserved
      ensures Valid() && Snapshot() == M.Reserve(old(Snapshot()), p)
    {
      var Reserving(a, parcel, n) := producers[p];
      producers := producers[p := Exchanging(a, parcel, n, sizes[a] == 0)];
      sizes := sizes[a := sizes[a] + 1];
      passed, reserved := passed[a := passed[a] - {p}], reserved[a := reserved[a] + {p}];
      assert Snapshot() == M.Reserve(old(Snapshot()), p);
      ProducerCloses(old(Snapshot()), p);
    }

    method Exchange(p: nat)
      requires Valid() && p < |producers| && producers[p].Exchanging?
      modifies this`producers, this`tails, this`chains, this`order, this`at, this`place, this`reserved
      ensures Valid() && Snapshot() == M.Exchange(old(Snapshot()), p)
    {
      var Exchanging(a, parcel, n, wasEmpty) := producers[p];
      producers := producers[p := Linking(a, n, tails[a], wasEmpty)];
      Append(a, n, parcel);
      place := place[n := InChain(a)];
      reserved := reserved[a := reserved[a] - {p}];
      assert Snapshot() == M.Exchange(old(Snapshot()), p);
      ProducerCloses(old(Snapshot()), p);
    }

    // The exchange on tail_ itself, which puts the parcel behind all earlier ones.
    method Append(a: nat, n: Node, parcel: Parcel)
      requires MailShape(Mail(heads, tails, chains, order, popped, done, at)) && a < |chains|
      modifies this`tails, this`chains, this`order, this`at
      ensures Mail(heads, tails, chains, order, popped, done, at)
        == M.Append(old(Mail(heads, tails, chains, order, popped, done, at)), a, n, parcel)
    {
      tails := tails[a := n];
      at := if parcel.sender < |at| then at[parcel.sender := |order[a]|] else at;
      chains, order := chains[a := chains[a] + [n]], order[a := order[a] + [parcel]];
    }

    method Link(p: nat)
      requires Valid() && p < |producers| && producers[p].Linking?
      modifies this`producers, this`next
      ensures Valid() && Snapshot() == M.Link(old(Snapshot()), p)
    {
      var Linking(a, n, prev, wasEmpty) := producers[p];
      next := next[prev := n];
      producers := producers[p := if wasEmpty then Scheduling(a) else Free];
      assert Snapshot() == M.Link(old(Snapshot()), p);
      ProducerCloses(old(Snapshot()), p);
    }

    method TrySchedule(p: nat)
      requires Valid() && p < |producers| && producers[p].Scheduling?
      modifies this`producers, this`bits, this`holder
      ensures Valid() && Snapshot() == M.TrySchedule(old(Snapshot()), p)
    {
      var a := producers[p].a;
      if bits[a] {
        producers := producers[p := Free];
      } else {
        bits := bits[a := true];
        holder := holder[a := AtProducer(p)];
        producers := producers[p := Enqueueing(a)];
      }
      assert Snapshot() == M.TrySchedule(old(Snapshot()), p);
      ProducerCloses(old(Snapshot()), p);
    }

    method Enqueue(p: nat)
      requires Valid() && p < |producers| && producers[p].Enqueueing?
      modifies this`producers, this`queues, this`holder
      ensures Valid() && Snapshot() == M.Enqueue(old(Snapshot()), p)
    {
      Schedule(producers[p].a);
      producers := producers[p := Free];
      assert Snapshot() == M.Enqueue(old(Snapshot()), p);
      ProducerCloses(old(Snapshot()), p);
    }

    // ActorSystem::Schedule, under the mutex of the shard.
    method Schedule(a: nat)
      requires WellFormed(Snapshot()) && a < |keys|
      modifies this`queues, this`holder
      ensures Snapshot() == old(Snapshot()).(ready := M.Schedule(old(Snapshot().ready), keys[a], a))
    {
      if |queues| == 0 || |queues[keys[a] % |queues|]| > MAX_QUEUE_SIZE {
        holder := holder[a := Dropped];
      } else {
        var q := keys[a] % |queues|;
        queues := queues[q := queues[q] + [a]];
        holder := holder[a := AtQueue(q)];
      }
    }

    // ---------------------------------------------------------------- ActorSystem::Worker

    // Shard::TryPop on shard q, under its mutex; what it finds goes to worker w.
    method TryPop(w: nat, q: nat) returns (found: bool)
      requires WellFormed(Snapshot()) && w < |workers| && q < |queues|
      modifies this`workers, this`queues, this`holder
      ensures found == (old(queues)[q] != [])
      ensures Snapshot() == if found then M.TakeFrom(old(Snapshot()), w, q) else old(Snapshot())
    {
      found := queues[q] != [];
      if found {
        var a := queues[q][0];
        workers := workers[w := Got(a)];
        queues, holder := queues[q := queues[q][1..]], holder[a := AtWorker(w)];
      }
    }

    method PopLocal(w: nat, start: nat)
      requires Valid() && w < |workers| && workers[w].Local?
      modifies this`workers, this`queues, this`holder
      ensures Valid() && Snapshot() == M.PopLocal(old(Snapshot()), w, start)
    {
      var found := TryPop(w, w);
      if !found {
        workers := workers[w := if |queues| <= 1 then Waiting else Stealing(start, 0)];
      }
      assert Snapshot() == M.PopLocal(old(Snapshot()), w, start);
      SeekCloses(old(Snapshot()), w, start);
    }

    method Steal(w: nat)
      requires Valid() && w < |workers| && workers[w].Stealing?
      modifies this`workers, this`queues, this`holder
      ensures Valid() && Snapshot() == M.Steal(old(Snapshot()), w)
    {
      var Stealing(start, i) := workers[w];
      if i >= |queues| {
        workers := workers[w := Waiting];
      } else {
        var victim, found := Victim(start, i, |queues|), false;
        assert M.Steal(Snapshot(), w) == M.StealFrom(Snapshot(), w, victim);
        if victim != w { found := TryPop(w, victim); }
        if !found { workers := workers[w := Stealing(start, i + 1)]; }
      }
      assert Snapshot() == M.Steal(old(Snapshot()), w);
      SeekCloses(old(Snapshot()), w, 0);
    }

    // ActorSystem::TrySteal while nobody else moves: every other shard is tried once, the own one never.
    method TrySteal(w: nat, start: nat) returns (found: bool)
      requires Valid() && w < |workers| && workers[w] == Stealing(start, 0)
      modifies this
      ensures Valid() && |workers| == old(|workers|)
      ensures found <==> exists q :: 0 <= q < |old(queues)| && q != w && old(queues)[q] != []
      ensures exists i :: Scanned(old(queues), queues, workers[w], w, start, i)
      ensures if found then workers[w].Got? else workers[w].Waiting?
    {
      ghost var i := 0;
      while workers[w].Stealing?
        invariant Valid() && |workers| == old(|workers|)
        invariant Scanned(old(queues), queues, workers[w], w, start, i)
        decreases |old(queues)| + 1 - i, workers[w].Stealing?
      {
        ghost var s := Snapshot();
        Steal(w);
        ScanTurn(s, w, start, i);
        if workers[w].Stealing? { i := i + 1; }
      }
      found := workers[w].Got?;
      ScanFinds(old(queues), queues, workers[w], w, start, i);
    }

    method Wake(w: nat)
      requires Valid() && w < |workers| && workers[w].Waiting?
      modifies this`workers
      ensures Valid() && Snapshot() == M.Wake(old(Snapshot()), w)
    {
      workers := workers[w := Local];
      assert Snapshot() == M.Wake(old(Snapshot()), w);
      SeekCloses(old(Snapshot()), w, 0);
    }

    method ReadSize(w: nat)
      requires Valid() && w < |workers| && workers[w].Got?
      modifies this`workers
      ensures Valid() && Snapshot() == M.ReadSize(old(Snapshot()), w)
    {
      var a := workers[w].a;
      var pc := Opening(a, Budget(sizes[a]));
      workers := workers[w := pc];
      assert Snapshot() == M.ReadSize(old(Snapshot()), w);
      BatchCloses(old(Snapshot()), w);
    }

    // ---------------------------------------------------------------- Mailbox::PopBatch

    method Open(w: nat)
      requires Valid() && w < |workers| && workers[w].Opening?
      modifies this`workers
      ensures Valid() && Snapshot() == M.Open(old(Snapshot()), w)
    {
      var Opening(a, max) := workers[w];
      var head := heads[a];
      workers := workers[w := Looping(a, max, head, if head in next then Some(next[head]) else None, [])];
      assert Snapshot() == M.Open(old(Snapshot()), w);
      BatchCloses(old(Snapshot()), w);
    }

    method Loop(w: nat)
      requires Valid() && w < |workers| && workers[w].Looping?
      modifies this`workers, this`chains, this`popped, this`place, this`taken
      ensures Valid() && Snapshot() == M.Loop(old(Snapshot()), w)
    {
      var Looping(a, max, head, link, batch) := workers[w];
      if |batch| < max && link.Some? {
        Take(w);
      } else if |batch| < max && head != tails[a] {
        workers := workers[w := Spinning(a, max, head, batch)];
      } else {
        workers := workers[w := Closing(a, head, batch)];
      }
      assert Snapshot() == M.Loop(old(Snapshot()), w);
      BatchCloses(old(Snapshot()), w);
    }

    method Take(w: nat)
      requires WellFormed(Snapshot()) && w < |workers| && workers[w].Looping? && workers[w].next.Some?
      modifies this`workers, this`chains, this`popped, this`place, this`taken
      ensures Snapshot() == M.Take(old(Snapshot()), w)
    {
      var Looping(a, max, head, link, batch) := workers[w];
      var n, nodes := link.value, Nodes(next, item);
      workers := workers[w := Freeing(a, max, n, nodes.Next(n), batch + [nodes.Item(n)], head)];
      chains, popped := chains[a := Rest(chains[a])], popped[a := popped[a] + 1];
      place, taken := place[head := WithWorker(w)], taken[a := taken[a] + 1];
    }

    method Spin(w: nat)
      requires Valid() && w < |workers| && workers[w].Spinning?
      modifies this`workers
      ensures Valid() && Snapshot() == M.Spin(old(Snapshot()), w)
    {
      var Spinning(a, max, head, batch) := workers[w];
      if head in next {
        workers := workers[w := Looping(a, max, head, Some(next[head]), batch)];
      }
      assert Snapshot() == M.Spin(old(Snapshot()), w);
      BatchCloses(old(Snapshot()), w);
    }

    // ObjectPool::Release of the node the consumer left behind.
    method FreeOld(w: nat)
      requires Valid() && w < |workers| && workers[w].Freeing?
      modifies this`workers, this`caches, this`next, this`top, this`stack, this`place
      ensures Valid() && Snapshot() == M.FreeOld(old(Snapshot()), w)
    {
      if |caches[|producers| + w]| < LOCAL_CACHE_SIZE { FreeToCache(w); } else { FreeToStack(w); }
      assert Snapshot() == M.FreeOld(old(Snapshot()), w);
      BatchCloses(old(Snapshot()), w);
    }

    method FreeToCache(w: nat)
      requires WellFormed(Snapshot()) && w < |workers| && workers[w].Freeing?
      modifies this`workers, this`caches, this`place
      ensures Snapshot() == M.FreeToCache(old(Snapshot()), w)
    {
      var Freeing(a, max, head, link, batch, spent) := workers[w];
      var t := |producers| + w;
      workers := workers[w := Looping(a, max, head, link, batch)];
      caches, place := caches[t := caches[t] + [spent]], place[spent := InCache(t)];
    }

    method FreeToStack(w: nat)
      requires WellFormed(Snapshot()) && w < |workers| && workers[w].Freeing?
      modifies this`workers, this`next, this`top, this`stack, this`place
      ensures Snapshot() == M.FreeToStack(old(Snapshot()), w)
    {
      var Freeing(a, max, head, link, batch, spent) := workers[w];
      StoreNext(spent, top);
      top, stack, place := Some(spent), [spent] + stack, place[spent := InStack];
      workers := workers[w := Looping(a, max, head, link, batch)];
    }

    method StoreNext(n: Node, to: Option<Node>)
      modifies this`next
      ensures Nodes(next, item) == SetNext(old(Nodes(next, item)), n, to)
    {
      next := if to.Some? then next[n := to.value] else next - {n};
    }

    method Close(w: nat)
      requires Valid() && w < |workers| && workers[w].Closing?
      modifies this`workers, this`heads, this`sizes, this`taken
      ensures Valid() && Snapshot() == M.Close(old(Snapshot()), w)
    {
      var Closing(a, head, batch) := workers[w];
      heads := heads[a := head];
      Subtract(a, |batch|);
      workers := workers[w := Running(a, batch, 0)];
      assert Snapshot() == M.Close(old(Snapshot()), w);
      BatchCloses(old(Snapshot()), w);
    }

    // fetch_sub on approx_size_.
    method Subtract(a: nat, count: nat)
      requires LoadShape(Load(sizes, passed, reserved, taken)) && a < |sizes|
      modifies this`sizes, this`taken
      ensures Load(sizes, passed, reserved, taken) == M.Subtract(old(Load(sizes, passed, reserved, taken)), a, count)
    {
      sizes, taken := sizes[a := sizes[a] - count], taken[a := 0];
    }

    // ---------------------------------------------------------------- Actor::Process

    method RunTask(w: nat)
      requires Valid() && w < |workers| && workers[w].Running?
      modifies this`workers, this`done
      ensures Valid() && Snapshot() == M.RunTask(old(Snapshot()), w)
    {
      var Running(a, batch, i) := workers[w];
      if i < |batch| {
        done := done[a := done[a] + [batch[i]]];
        workers := workers[w := Running(a, batch, i + 1)];
      } else {
        workers := workers[w := Clearing(a)];
      }
      assert Snapshot() == M.RunTask(old(Snapshot()), w);
      BatchCloses(old(Snapshot()), w);
    }

    method Clear(w: nat)
      requires Valid() && w < |workers| && workers[w].Clearing?
      modifies this`workers, this`bits, this`holder
      ensures Valid() && Snapshot() == M.Clear(old(Snapshot()), w)
    {
      var a := workers[w].a;
      bits, holder := bits[a := false], holder[a := Nobody];
      workers := workers[w := Rechecking(a)];
      assert Snapshot() == M.Clear(old(Snapshot()), w);
      BatchCloses(old(Snapshot()), w);
    }

    method Recheck(w: nat)
      requires Valid() && w < |workers| && workers[w].Rechecking?
      modifies this`workers
      ensures Valid() && Snapshot() == M.Recheck(old(Snapshot()), w)
    {
      var a := workers[w].a;
      workers := workers[w := if sizes[a] > 0 then Retrying(a) else Local];
      assert Snapshot() == M.Recheck(old(Snapshot()), w);
      SeekCloses(old(Snapshot()), w, 0);
    }

    method Retry(w: nat)
      requires Valid() && w < |workers| && workers[w].Retrying?
      modifies this`workers, this`bits, this`holder
      ensures Valid() && Snapshot() == M.Retry(old(Snapshot()), w)
    {
      var a := workers[w].a;
      if bits[a] {
        workers := workers[w := Local];
      } else {
        bits, holder := bits[a := true], holder[a := AtWorker(w)];
        workers := workers[w := Requeueing(a)];
      }
      assert Snapshot() == M.Retry(old(Snapshot()), w);
      SeekCloses(old(Snapshot()), w, 0);
    }

    method Requeue(w: nat)
      requires Valid() && w < |workers| && workers[w].Requeueing?
      modifies this`workers, this`queues, this`holder
      ensures Valid() && Snapshot() == M.Requeue(old(Snapshot()), w)
    {
      Schedule(workers[w].a);
      workers := workers[w := Local];
      assert Snapshot() == M.Requeue(old(Snapshot()), w);
      SeekCloses(old(Snapshot()), w, 0);
    }

    // ---------------------------------------------------------------- one scheduler choice

    method Produce(p: nat)
      requires Valid() && p < |producers| && !producers[p].Free?
      modifies this
      ensures Valid() && Snapshot() == ProducerStep(old(Snapshot()), p)
    {
      match producers[p] {
        case Checking(_, _) => CheckSize(p);
        case Acquiring(_, _) => AcquireNode(p);
        case Reserving(_, _, _) => Reserve(p);
        case Exchanging(_, _, _, _) => Exchange(p);
        case Linking(_, _, _, _) => Link(p);
        case Scheduling(_) => TrySchedule(p);
        case Enqueueing(_) => Enqueue(p);
      }
    }

    // Actor::Post while nobody else moves. On a full mailbox it would try again for ever.
    method PostAlone(p: nat, a: nat, t: Task)
      requires Valid() && p < |producers| && producers[p].Free? && a < |keys| && sizes[a] < MAX_MAILBOX
      modifies this
      ensures Valid() && OnlyProducer(old(Snapshot()), Snapshot(), p) && producers[p].Free?
      ensures sizes[a] == old(sizes[a]) + 1 && order[a] == old(order[a]) + [Parcel(p, t, 0, Some(t))]
      ensures Snapshot().ready
        == if old(sizes[a]) == 0 then Woken(old(Snapshot().ready), p, keys[a], a) else old(Snapshot().ready)
      ensures old(sizes[a]) == 0 && !old(bits[a]) && |queues| > 0 ==>
                var q := keys[a] % |queues|;
                && bits == old(bits)[a := true]
                && queues == if |old(queues)[q]| > 10000 then old(queues) else old(queues)[q := old(queues)[q] + [a]]
    {
      Post(p, a, t);
      ghost var first := Snapshot();
      while !producers[p].Free?
        invariant Valid() && OnlyProducer(first, Snapshot(), p) && Outlook(Snapshot(), p) == Outlook(first, p)
        invariant producers[p].Checking? ==> sizes[a] < MAX_MAILBOX
        invariant !producers[p].Free? ==> producers[p].a == a
        invariant sizes[a] + Owed(producers[p]) == old(sizes[a]) + 1
        invariant order[a] + Carried(producers[p]) == old(order[a]) + [Parcel(p, t, 0, Some(t))]
        decreases Rank(producers[p])
      {
        PostAdvances(Snapshot(), p, a);
        OutlookStays(Snapshot(), p);
        Produce(p);
      }
    }

    method Batch(w: nat)
      requires Valid() && w < |workers| && workers[w].Holds() && !workers[w].Requeueing?
      modifies this
      ensures Valid() && Snapshot() == BatchStep(old(Snapshot()), w)
    {
      match workers[w] {
        case Got(_) => ReadSize(w);
        case Opening(_, _) => Open(w);
        case Looping(_, _, _, _, _) => Loop(w);
        case Spinning(_, _, _, _) => Spin(w);
        case Freeing(_, _, _, _, _, _) => FreeOld(w);
        case Closing(_, _, _) => Close(w);
        case Running(_, _, _) => RunTask(w);
        case Clearing(_) => Clear(w);
      }
    }

    method Seek(w: nat, start: nat)
      requires Valid() && w < |workers| && !(workers[w].Holds() && !workers[w].Requeueing?)
      modifies this
      ensures Valid() && Snapshot() == WorkerStep(old(Snapshot()), w, start)
    {
      match workers[w] {
        case Local => PopLocal(w, start);
        case Stealing(_, _) => Steal(w);
        case Waiting => Wake(w);
        case Rechecking(_) => Recheck(w);
        case Retrying(_) => Retry(w);
        case Requeueing(_) => Requeue(w);
      }
    }

    method Work(w: nat, start: nat)
      requires Valid() && w < |workers|
      modifies this
      ensures Valid() && Snapshot() == WorkerStep(old(Snapshot()), w, start)
    {
      if workers[w].Holds() && !workers[w].Requeueing? { Batch(w); } else { Seek(w, start); }
    }
  }
}
