// Every atomic access of a worker keeps the invariant.
module ActorWorkers {
  import opened Wrappers
  import opened ActorModel
  import opened ActorTokens
  import opened ActorLoad
  import opened ActorNodes
  import opened ActorChains
  import opened ActorConsumer
  import opened ActorInvariant

  // A worker that is no consumer, before or after, and whose hold on an actor does not change.
  lemma BystanderKeeps(s: State, w: nat, pc: Worker)
    requires Inv(s) && w < |s.workers| && WellFormed(SetWorker(s, w, pc))
    requires !Consuming(s.workers[w]) && !Consuming(pc)
    requires s.workers[w].Holds() == pc.Holds() && (pc.Holds() ==> s.workers[w].a == pc.a)
    requires forall a :: 0 <= a < |s.keys| && WorkerPromises(s.workers[w], a) && !WorkerPromises(pc, a) ==>
               s.ready.bits[a] || s.load.sizes[a] <= 0
    ensures Inv(SetWorker(s, w, pc))
  {
    WorkerQuiet(s.ready, s.producers, s.workers, w, pc);
    WakeWorker(s.load.sizes, s.ready.bits, s.producers, s.workers, s.load.sizes, s.ready.bits, w, pc);
    WorkerKeepsHand(s.pool, s.place, s.producers, s.workers, s.mail.chains, w, pc);
    BystanderMoves(s.mail, s.nodes, s.load.taken, s.ready, s.workers, w, pc);
  }

  lemma TakeFromKeeps(s: State, w: nat, q: nat)
    requires Inv(s) && w < |s.workers| && s.workers[w].Idle()
    requires q < |s.ready.queues| && s.ready.queues[q] != []
    ensures Inv(TakeFrom(s, w, q))
  {
    var s' := TakeFrom(s, w, q);
    var a := s.ready.queues[q][0];
    WorkerDequeues(s.ready, s.producers, s.workers, w, q);
    WakeWorker(s.load.sizes, s.ready.bits, s.producers, s.workers, s.load.sizes, s.ready.bits, w, Got(a));
    WorkerKeepsHand(s.pool, s.place, s.producers, s.workers, s.mail.chains, w, Got(a));
    assert s.ready.holder[a] == AtQueue(q);
    HoldPasses(s.mail, s.nodes, s.load.taken, s.ready, s.workers, s'.ready, w, Got(a), a, AtWorker(w));
  }

  // ---------------------------------------------------------------- PopBatch

  // The consumer moves on with the mailbox as it is.
  lemma ConsumerStays(s: State, w: nat, pc: Worker)
    requires Inv(s) && w < |s.workers| && WellFormed(SetWorker(s, w, pc))
    requires s.workers[w].Holds() && pc.Holds() && s.workers[w].a == pc.a
    requires !s.workers[w].Freeing? && !pc.Freeing?
    requires ConsumerKnows(s.mail, s.nodes, s.load.taken, pc, pc.a)
    ensures Inv(SetWorker(s, w, pc))
  {
    WorkerQuiet(s.ready, s.producers, s.workers, w, pc);
    WakeWorker(s.load.sizes, s.ready.bits, s.producers, s.workers, s.load.sizes, s.ready.bits, w, pc);
    WorkerKeepsHand(s.pool, s.place, s.producers, s.workers, s.mail.chains, w, pc);
    ConsumerMoves(s.mail, s.nodes, s.load.taken, s.ready, s.producers, s.workers, w, pc, s.mail, s.load.taken);
  }

  lemma WorkerIsConsumer(s: State, w: nat)
    requires Inv(s) && w < |s.workers| && s.workers[w].Holds()
    ensures var a := s.workers[w].a;
            Consumer(s.ready, s.workers, a) == s.workers[w]
            && ConsumerKnows(s.mail, s.nodes, s.load.taken, s.workers[w], a)
  {
    assert Consumer(s.ready, s.workers, s.workers[w].a) == s.workers[w];
  }

  lemma OpenKeeps(s: State, w: nat)
    requires Inv(s) && w < |s.workers| && s.workers[w].Opening?
    ensures Inv(Open(s, w))
  {
    WorkerIsConsumer(s, w);
    ConsumerStays(s, w, Open(s, w).workers[w]);
  }

  lemma LoopKeeps(s: State, w: nat)
    requires Inv(s) && w < |s.workers| && s.workers[w].Looping?
    ensures Inv(Loop(s, w))
  {
    WorkerIsConsumer(s, w);
    var Looping(a, max, head, next, batch) := s.workers[w];
    if |batch| < max && next.Some? {
      TakeKeeps(s, w);
    } else {
      assert s.mail.tails[a] == s.mail.chains[a][|s.mail.chains[a]| - 1];
      ConsumerStays(s, w, Loop(s, w).workers[w]);
    }
  }

  lemma TakeKeeps(s: State, w: nat)
    requires Inv(s) && w < |s.workers| && s.workers[w].Looping? && s.workers[w].next.Some?
    ensures Inv(Take(s, w))
  {
    var s' := Take(s, w);
    var pc := s'.workers[w];
    var a := pc.a;
    WorkerIsConsumer(s, w);
    WorkerQuiet(s.ready, s.producers, s.workers, w, pc);
    WakeWorker(s.load.sizes, s.ready.bits, s.producers, s.workers, s.load.sizes, s.ready.bits, w, pc);
    LoadTake(s.load, s.mail.chains, s.producers, a);
    TakePlaces(s.pool, s.place, s.producers, s.workers, s.mail.chains, w, a, pc);
    TakeChains(s.mail, s.nodes, s.producers, a);
    TakeKnown(s.mail, s.nodes, s.producers, s.load.taken, a, s.workers[w]);
    ConsumerMoves(s.mail, s.nodes, s.load.taken, s.ready, s.producers, s.workers, w, pc, s'.mail, s'.load.taken);
  }

  lemma SpinKeeps(s: State, w: nat)
    requires Inv(s) && w < |s.workers| && s.workers[w].Spinning?
    ensures Inv(Spin(s, w))
  {
    WorkerIsConsumer(s, w);
    if s.nodes.Next(s.workers[w].head).Some? {
      ConsumerStays(s, w, Spin(s, w).workers[w]);
    }
  }

  lemma FreeOldKeeps(s: State, w: nat)
    requires Inv(s) && w < |s.workers| && s.workers[w].Freeing?
    ensures Inv(FreeOld(s, w))
  {
    if CacheHasRoom(s.pool, s.CacheOf(w)) { FreeToCacheKeeps(s, w); } else { FreeToStackKeeps(s, w); }
  }

  lemma FreeToCacheKeeps(s: State, w: nat)
    requires Inv(s) && w < |s.workers| && s.workers[w].Freeing?
    ensures Inv(FreeToCache(s, w))
  {
    var s' := FreeToCache(s, w);
    var pc := s'.workers[w];
    WorkerIsConsumer(s, w);
    WorkerQuiet(s.ready, s.producers, s.workers, w, pc);
    WakeWorker(s.load.sizes, s.ready.bits, s.producers, s.workers, s.load.sizes, s.ready.bits, w, pc);
    ConsumerMoves(s.mail, s.nodes, s.load.taken, s.ready, s.producers, s.workers, w, pc, s.mail, s.load.taken);
    CachedPlaces(s.pool, s.place, s.producers, s.workers, s.mail.chains, w, s.CacheOf(w), pc);
    StackUntouched(s.pool, s.nodes, s'.pool, s.nodes);
  }

  lemma FreeToStackKeeps(s: State, w: nat)
    requires Inv(s) && w < |s.workers| && s.workers[w].Freeing?
    ensures Inv(FreeToStack(s, w))
  {
    var spent := s.workers[w].spent;
    var s' := FreeToStack(s, w);
    var pc := s'.workers[w];
    WorkerIsConsumer(s, w);
    WorkerQuiet(s.ready, s.producers, s.workers, w, pc);
    WakeWorker(s.load.sizes, s.ready.bits, s.producers, s.workers, s.load.sizes, s.ready.bits, w, pc);
    ConsumerMoves(s.mail, s.nodes, s.load.taken, s.ready, s.producers, s.workers, w, pc, s.mail, s.load.taken);
    StackedPlaces(s.pool, s.place, s.producers, s.workers, s.mail.chains, w, pc);
    SpentIsForeign(s, w);
    WriteSeen(s.mail, s.nodes, s.load.taken, s.ready, s'.workers, s'.nodes);
    StackPushed(s.pool, s.nodes, spent);
  }

  // The consumer's spent node is in no chain, no producer's hand and not on the stack.
  lemma SpentIsForeign(s: State, w: nat)
    requires Inv(s) && w < |s.workers| && s.workers[w].Freeing?
    ensures var n := s.workers[w].spent;
            InNoChain(s.mail, n) && n !in s.pool.stack
            && QueueInv(s.mail, SetNext(s.nodes, n, s.pool.top), s.producers)
  {
    var n := s.workers[w].spent;
    assert Placed(s.place, n, WithWorker(w));
    ForeignWrite(s.mail, s.nodes, s.producers, n, SetNext(s.nodes, n, s.pool.top));
  }

  lemma CloseKeeps(s: State, w: nat)
    requires Inv(s) && w < |s.workers| && s.workers[w].Closing?
    ensures Inv(Close(s, w))
  {
    var s' := Close(s, w);
    var pc := s'.workers[w];
    WorkerIsConsumer(s, w);
    WorkerQuiet(s.ready, s.producers, s.workers, w, pc);
    WakeWorker(s.load.sizes, s.ready.bits, s.producers, s.workers, s'.load.sizes, s.ready.bits, w, pc);
    LoadClose(s.load, s.mail.chains, s.producers, pc.a);
    WorkerKeepsHand(s.pool, s.place, s.producers, s.workers, s.mail.chains, w, pc);
    HeadIsPrivate(s.mail, s.nodes, s.producers, s'.mail);
    ConsumerMoves(s.mail, s.nodes, s.load.taken, s.ready, s.producers, s.workers, w, pc, s'.mail, s'.load.taken);
  }

  // head_ and the record of executed parcels belong to the consumer.
  lemma HeadKeepsItems(m: Mail, nodes: Nodes, m': Mail)
    requires ChainInv(m, nodes) && ItemInv(m, nodes) && OrderInv(m)
    requires MailShape(m') && m' == m.(heads := m'.heads, done := m'.done)
    ensures ChainInv(m', nodes) && ItemInv(m', nodes) && OrderInv(m')
  {
  }

  lemma HeadKeepsLinks(m: Mail, nodes: Nodes, ps: seq<Producer>, m': Mail)
    requires ChainInv(m, nodes) && LinkInv(m, nodes, ps)
    requires ChainInv(m', nodes) && m' == m.(heads := m'.heads, done := m'.done)
    ensures LinkInv(m', nodes, ps)
  {
  }

  lemma HeadIsPrivate(m: Mail, nodes: Nodes, ps: seq<Producer>, m': Mail)
    requires QueueInv(m, nodes, ps) && MailShape(m') && m' == m.(heads := m'.heads, done := m'.done)
    ensures QueueInv(m', nodes, ps)
  {
    HeadKeepsItems(m, nodes, m');
    HeadKeepsLinks(m, nodes, ps, m');
    forall p: nat | p < |ps| ensures ProducerKnows(m', nodes, p, ps[p]) {
      assert ProducerKnows(m, nodes, p, ps[p]);
    }
  }

  // ---------------------------------------------------------------- Process

  lemma RunTaskKeeps(s: State, w: nat)
    requires Inv(s) && w < |s.workers| && s.workers[w].Running?
    ensures Inv(RunTask(s, w))
  {
    var Running(a, batch, i) := s.workers[w];
    if i < |batch| {
      RunOneKeeps(s, w);
    } else {
      WorkerIsConsumer(s, w);
      ConsumerStays(s, w, Clearing(a));
    }
  }

  lemma ExecutedElsewhere(m: Mail, taken: seq<nat>, a: nat, parcel: Parcel)
    requires MailShape(m) && a < |m.chains| == |taken|
    ensures MailShape(Executed(m, a, parcel)) && SameElsewhere(m, taken, Executed(m, a, parcel), taken, a)
  {
  }

  lemma RunOneQueues(s: State, w: nat)
    requires Inv(s) && w < |s.workers| && s.workers[w].Running? && s.workers[w].i < |s.workers[w].batch|
    ensures s.workers[w].a < |s.mail.chains| && MailShape(s.mail)
    ensures QueueInv(Executed(s.mail, s.workers[w].a, s.workers[w].batch[s.workers[w].i]), s.nodes, s.producers)
  {
    WorkerIsConsumer(s, w);
    var Running(a, batch, i) := s.workers[w];
    HeadIsPrivate(s.mail, s.nodes, s.producers, Executed(s.mail, a, batch[i]));
  }

  lemma RunOneConsumes(m: Mail, nodes: Nodes, taken: seq<nat>, r: Ready, ps: seq<Producer>, ws: seq<Worker>, w: nat)
    requires TokenInv(r, ps, ws) && QueueInv(m, nodes, ps) && ConsumerInv(m, nodes, taken, r, ws)
    requires w < |ws| && ws[w].Running? && ws[w].i < |ws[w].batch| && ws[w].a < |m.chains|
    requires ConsumerKnows(m, nodes, taken, ws[w], ws[w].a)
    requires ChainInv(Executed(m, ws[w].a, ws[w].batch[ws[w].i]), nodes)
    ensures var Running(a, batch, i) := ws[w];
            ConsumerInv(Executed(m, a, batch[i]), nodes, taken, r, ws[w := Running(a, batch, i + 1)])
  {
    var Running(a, batch, i) := ws[w];
    RunKnown(m, nodes, taken, a, ws[w]);
    ExecutedElsewhere(m, taken, a, batch[i]);
    ConsumerMoves(m, nodes, taken, r, ps, ws, w, Running(a, batch, i + 1), Executed(m, a, batch[i]), taken);
  }

  lemma RunOneKeeps(s: State, w: nat)
    requires Inv(s) && w < |s.workers| && s.workers[w].Running? && s.workers[w].i < |s.workers[w].batch|
    ensures Inv(RunTask(s, w))
  {
    var Running(a, batch, i) := s.workers[w];
    var pc, m := Running(a, batch, i + 1), Executed(s.mail, a, batch[i]);
    assert RunTask(s, w) == SetWorker(s.(mail := m), w, pc);
    RunOneQueues(s, w);
    WorkerIsConsumer(s, w);
    RunOneConsumes(s.mail, s.nodes, s.load.taken, s.ready, s.producers, s.workers, w);
    WorkerQuiet(s.ready, s.producers, s.workers, w, pc);
    WakeWorker(s.load.sizes, s.ready.bits, s.producers, s.workers, s.load.sizes, s.ready.bits, w, pc);
    WorkerKeepsHand(s.pool, s.place, s.producers, s.workers, s.mail.chains, w, pc);
  }

  lemma ClearKeeps(s: State, w: nat)
    requires Inv(s) && w < |s.workers| && s.workers[w].Clearing?
    ensures Inv(Clear(s, w))
  {
    var s' := Clear(s, w);
    var pc := s'.workers[w];
    WorkerClears(s.ready, s.producers, s.workers, w);
    WakeWorker(s.load.sizes, s.ready.bits, s.producers, s.workers, s.load.sizes, s'.ready.bits, w, pc);
    WorkerKeepsHand(s.pool, s.place, s.producers, s.workers, s.mail.chains, w, pc);
    WorkerIsConsumer(s, w);
    HoldPasses(s.mail, s.nodes, s.load.taken, s.ready, s.workers, s'.ready, w, pc, pc.a, Nobody);
  }

  lemma RetryKeeps(s: State, w: nat)
    requires Inv(s) && w < |s.workers| && s.workers[w].Retrying?
    ensures Inv(Retry(s, w))
  {
    var a := s.workers[w].a;
    if s.ready.bits[a] {
      BystanderKeeps(s, w, Local);
    } else {
      RetryWins(s, w);
    }
  }

  lemma RetryWins(s: State, w: nat)
    requires Inv(s) && w < |s.workers| && s.workers[w].Retrying? && !s.ready.bits[s.workers[w].a]
    ensures Inv(Retry(s, w))
  {
    var a := s.workers[w].a;
    var s' := Retry(s, w);
    WorkerWins(s.ready, s.producers, s.workers, w, a);
    WakeWorker(s.load.sizes, s.ready.bits, s.producers, s.workers, s.load.sizes, s'.ready.bits, w, Requeueing(a));
    WorkerKeepsHand(s.pool, s.place, s.producers, s.workers, s.mail.chains, w, Requeueing(a));
    assert s.ready.holder[a] == Nobody;
    HoldPasses(s.mail, s.nodes, s.load.taken, s.ready, s.workers, s'.ready, w, Requeueing(a), a, AtWorker(w));
  }

  lemma RequeueKeeps(s: State, w: nat)
    requires Inv(s) && w < |s.workers| && s.workers[w].Requeueing?
    ensures Inv(Requeue(s, w))
  {
    var s' := Requeue(s, w);
    var a := s.workers[w].a;
    assert s.ready.holder[a] == AtWorker(w);
    WorkerSchedules(s.ready, s.producers, s.workers, w, s.keys[a]);
    WakeWorker(s.load.sizes, s.ready.bits, s.producers, s.workers, s.load.sizes, s'.ready.bits, w, Local);
    WorkerKeepsHand(s.pool, s.place, s.producers, s.workers, s.mail.chains, w, Local);
    HoldPasses(s.mail, s.nodes, s.load.taken, s.ready, s.workers, s'.ready, w, Local, a, s'.ready.holder[a]);
  }

  lemma PopLocalKeeps(s: State, w: nat, start: nat)
    requires Inv(s) && w < |s.workers| && s.workers[w].Local?
    ensures Inv(PopLocal(s, w, start))
  {
    if s.ready.queues[w] != [] {
      TakeFromKeeps(s, w, w);
    } else {
      BystanderKeeps(s, w, PopLocal(s, w, start).workers[w]);
    }
  }

  lemma StealFromKeeps(s: State, w: nat, victim: nat)
    requires Inv(s) && w < |s.workers| && s.workers[w].Stealing? && victim < |s.ready.queues|
    ensures Inv(StealFrom(s, w, victim))
  {
    if victim != w && s.ready.queues[victim] != [] {
      TakeFromKeeps(s, w, victim);
    } else {
      BystanderKeeps(s, w, StealFrom(s, w, victim).workers[w]);
    }
  }

  lemma StealKeeps(s: State, w: nat)
    requires Inv(s) && w < |s.workers| && s.workers[w].Stealing?
    ensures Inv(Steal(s, w))
  {
    if s.workers[w].i < |s.ready.queues| {
      var victim := Victim(s.workers[w].start, s.workers[w].i, |s.ready.queues|);
      assert Steal(s, w) == StealFrom(s, w, victim);
      StealFromKeeps(s, w, victim);
    } else {
      BystanderKeeps(s, w, Waiting);
    }
  }

  lemma WakeKeeps(s: State, w: nat)
    requires Inv(s) && w < |s.workers| && s.workers[w].Waiting?
    ensures Inv(Wake(s, w))
  {
    BystanderKeeps(s, w, Local);
  }

  lemma ReadSizeKeeps(s: State, w: nat)
    requires Inv(s) && w < |s.workers| && s.workers[w].Got?
    ensures Inv(ReadSize(s, w))
  {
    BystanderKeeps(s, w, ReadSize(s, w).workers[w]);
  }

  lemma RecheckKeeps(s: State, w: nat)
    requires Inv(s) && w < |s.workers| && s.workers[w].Rechecking?
    ensures Inv(Recheck(s, w))
  {
    BystanderKeeps(s, w, Recheck(s, w).workers[w]);
  }

  lemma BatchStepKeeps(s: State, w: nat)
    requires Inv(s) && w < |s.workers| && s.workers[w].Holds() && !s.workers[w].Requeueing?
    ensures Inv(BatchStep(s, w))
  {
    match s.workers[w] {
      case Got(_) => ReadSizeKeeps(s, w);
      case Opening(_, _) => OpenKeeps(s, w);
      case Looping(_, _, _, _, _) => LoopKeeps(s, w);
      case Spinning(_, _, _, _) => SpinKeeps(s, w);
      case Freeing(_, _, _, _, _, _) => FreeOldKeeps(s, w);
      case Closing(_, _, _) => CloseKeeps(s, w);
      case Running(_, _, _) => RunTaskKeeps(s, w);
      case Clearing(_) => ClearKeeps(s, w);
    }
  }

  // A worker that looks for an actor.
  lemma SeekKeeps(s: State, w: nat, start: nat)
    requires Inv(s) && w < |s.workers| && s.workers[w].Idle()
    ensures Inv(WorkerStep(s, w, start))
  {
    match s.workers[w] {
      case Local => PopLocalKeeps(s, w, start);
      case Stealing(_, _) => StealKeeps(s, w);
      case Waiting => WakeKeeps(s, w);
    }
  }

  lemma WorkerStepKeeps(s: State, w: nat, start: nat)
    requires Inv(s) && w < |s.workers|
    ensures Inv(WorkerStep(s, w, start))
  {
    if s.workers[w].Idle() {
      SeekKeeps(s, w, start);
    } else if s.workers[w].Rechecking? {
      RecheckKeeps(s, w);
    } else if s.workers[w].Retrying? {
      RetryKeeps(s, w);
    } else if s.workers[w].Requeueing? {
      RequeueKeeps(s, w);
    } else {
      BatchStepKeeps(s, w);
    }
  }
}
