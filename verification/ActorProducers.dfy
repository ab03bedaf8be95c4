// Every atomic access of Actor::Post keeps the invariant.
module ActorProducers {
  import opened Wrappers
  import opened ActorModel
  import opened ActorTokens
  import opened ActorLoad
  import opened ActorNodes
  import opened ActorChains
  import opened ActorConsumer
  import opened ActorInvariant

  // A move that leaves tables, hands and promises alone.
  lemma IdleProducerKeeps(s: State, p: nat, pc: Producer)
    requires Inv(s) && p < |s.producers| && (s.producers[p].Free? || s.producers[p].Checking?) && pc.Checking?
    requires WellFormed(SetProducer(s, p, pc)) && pc.parcel.sender == p && HonestParcel(pc.parcel)
    ensures Inv(SetProducer(s, p, pc))
  {
    ProducerQuiet(s.ready, s.producers, s.workers, p, pc);
    LoadQuiet(s.load, s.mail.chains, s.producers, p, pc);
    WakeProducer(s.load.sizes, s.ready.bits, s.producers, s.workers, s.load.sizes, s.ready.bits, p, pc);
    ProducerKeepsHand(s.pool, s.place, s.producers, s.workers, s.mail.chains, p, pc);
    ProducerMoves(s.mail, s.nodes, s.producers, p, pc);
  }

  lemma CheckSizeKeeps(s: State, p: nat)
    requires Inv(s) && p < |s.producers| && s.producers[p].Checking?
    ensures Inv(CheckSize(s, p))
  {
    var Checking(a, parcel) := s.producers[p];
    var s' := CheckSize(s, p);
    var pc := s'.producers[p];
    assert ProducerKnows(s.mail, s.nodes, p, s.producers[p]);
    if pc.Checking? {
      IdleProducerKeeps(s, p, pc);
    } else {
      ProducerQuiet(s.ready, s.producers, s.workers, p, pc);
      LoadPass(s.load, s.mail.chains, s.producers, p, a, parcel);
      WakeProducer(s.load.sizes, s.ready.bits, s.producers, s.workers, s.load.sizes, s.ready.bits, p, pc);
      ProducerKeepsHand(s.pool, s.place, s.producers, s.workers, s.mail.chains, p, pc);
      ProducerMoves(s.mail, s.nodes, s.producers, p, pc);
    }
  }

  lemma AcquireKeeps(s: State, p: nat)
    requires Inv(s) && p < |s.producers| && s.producers[p].Acquiring?
    ensures Inv(AcquireNode(s, p))
  {
    var Acquiring(a, parcel) := s.producers[p];
    var (pool, n) := Acquire(s.pool, s.nodes, p);
    var s' := AcquireNode(s, p);
    var pc := Reserving(a, parcel, n);
    ProducerQuiet(s.ready, s.producers, s.workers, p, pc);
    LoadQuiet(s.load, s.mail.chains, s.producers, p, pc);
    WakeProducer(s.load.sizes, s.ready.bits, s.producers, s.workers, s.load.sizes, s.ready.bits, p, pc);
    AcquirePlaces(s.pool, s.nodes, s.place, s.producers, s.workers, s.mail.chains, p, a, parcel);
    AcquireQueues(s, p);
    AcquireStack(s, p);
  }

  lemma AcquireQueues(s: State, p: nat)
    requires Inv(s) && p < |s.producers| && s.producers[p].Acquiring?
    ensures var s' := AcquireNode(s, p);
            QueueInv(s'.mail, s'.nodes, s'.producers)
            && ConsumerInv(s'.mail, s'.nodes, s'.load.taken, s'.ready, s'.workers)
  {
    var s' := AcquireNode(s, p);
    var n := s'.producers[p].node;
    AcquireMisses(s, p);
    ForeignWrite(s.mail, s.nodes, s.producers, n, s'.nodes);
    assert ProducerKnows(s.mail, s'.nodes, p, s.producers[p]);
    ProducerMoves(s.mail, s'.nodes, s.producers, p, s'.producers[p]);
    WriteSeen(s.mail, s.nodes, s.load.taken, s.ready, s.workers, s'.nodes);
  }

  lemma AcquireStack(s: State, p: nat)
    requires Inv(s) && p < |s.producers| && s.producers[p].Acquiring?
    ensures StackInv(AcquireNode(s, p).pool, AcquireNode(s, p).nodes)
  {
    var (pool, n) := Acquire(s.pool, s.nodes, p);
    var nodes := AcquireNode(s, p).nodes;
    AcquireMisses(s, p);
    if s.pool.caches[p] == [] && s.pool.top.Some? {
      StackPopped(s.pool, s.nodes);
      StackUntouched(pool, s.nodes, pool, nodes);
    } else {
      StackUntouched(s.pool, s.nodes, pool, nodes);
    }
  }

  // What the pool hands out is in no chain, in no hand and no longer on the stack.
  lemma AcquireMisses(s: State, p: nat)
    requires Inv(s) && p < |s.producers| && s.producers[p].Acquiring?
    ensures var (pool, n) := Acquire(s.pool, s.nodes, p);
            && InNoChain(s.mail, n) && n !in pool.stack
            && forall q {:trigger s.producers[q]} ::
                 0 <= q < |s.producers| && InHand(s.producers[q]) ==> s.producers[q].node != n
  {
    var (pool, n) := Acquire(s.pool, s.nodes, p);
    AcquirePlaces(s.pool, s.nodes, s.place, s.producers, s.workers, s.mail.chains, p,
                  s.producers[p].a, s.producers[p].parcel);
  }

  lemma ReserveKeeps(s: State, p: nat)
    requires Inv(s) && p < |s.producers| && s.producers[p].Reserving?
    ensures Inv(Reserve(s, p))
  {
    var s' := Reserve(s, p);
    var pc := s'.producers[p];
    assert ProducerKnows(s.mail, s.nodes, p, s.producers[p]);
    ProducerQuiet(s.ready, s.producers, s.workers, p, pc);
    LoadReserve(s.load, s.mail.chains, s.producers, p, pc.wasEmpty);
    WakeReserve(s.load.sizes, s.ready.bits, s.producers, s.workers, p, pc);
    ProducerKeepsHand(s.pool, s.place, s.producers, s.workers, s.mail.chains, p, pc);
    ProducerMoves(s.mail, s.nodes, s.producers, p, pc);
  }

  lemma ExchangeKeeps(s: State, p: nat)
    requires Inv(s) && p < |s.producers| && s.producers[p].Exchanging?
    ensures Inv(Exchange(s, p))
  {
    var Exchanging(a, parcel, n, wasEmpty) := s.producers[p];
    var s' := Exchange(s, p);
    var pc := s'.producers[p];
    assert s'.mail == Append(s.mail, a, n, parcel);
    ProducerQuiet(s.ready, s.producers, s.workers, p, pc);
    LoadExchange(s.load, s.mail.chains, s.producers, p, pc);
    WakeProducer(s.load.sizes, s.ready.bits, s.producers, s.workers, s.load.sizes, s.ready.bits, p, pc);
    ExchangePlaces(s.pool, s.place, s.producers, s.workers, s.mail.chains, p, pc);
    ExchangeChains(s.mail, s.nodes, s.producers, p);
    ExchangeSeen(s.mail, s.nodes, s.load.taken, s.ready, s.workers, a, n, parcel);
  }

  lemma LinkKeeps(s: State, p: nat)
    requires Inv(s) && p < |s.producers| && s.producers[p].Linking?
    ensures Inv(Link(s, p))
  {
    var s' := Link(s, p);
    var pc := s'.producers[p];
    assert ProducerKnows(s.mail, s.nodes, p, s.producers[p]);
    ProducerQuiet(s.ready, s.producers, s.workers, p, pc);
    LoadQuiet(s.load, s.mail.chains, s.producers, p, pc);
    WakeProducer(s.load.sizes, s.ready.bits, s.producers, s.workers, s.load.sizes, s.ready.bits, p, pc);
    ProducerKeepsHand(s.pool, s.place, s.producers, s.workers, s.mail.chains, p, pc);
    LinkQueues(s, p);
    StackUntouched(s.pool, s.nodes, s.pool, s'.nodes);
  }

  lemma LinkQueues(s: State, p: nat)
    requires Inv(s) && p < |s.producers| && s.producers[p].Linking?
    ensures var s' := Link(s, p);
            QueueInv(s'.mail, s'.nodes, s'.producers)
            && ConsumerInv(s'.mail, s'.nodes, s'.load.taken, s'.ready, s'.workers)
  {
    var s' := Link(s, p);
    assert ProducerKnows(s.mail, s.nodes, p, s.producers[p]);
    LinkChains(s.mail, s.nodes, s.producers, p, s'.producers[p]);
    WriteSeen(s.mail, s.nodes, s.load.taken, s.ready, s.workers, s'.nodes);
  }

  lemma TryScheduleKeeps(s: State, p: nat)
    requires Inv(s) && p < |s.producers| && s.producers[p].Scheduling?
    ensures Inv(TrySchedule(s, p))
  {
    if s.ready.bits[s.producers[p].a] {
      TryScheduleLoses(s, p);
    } else {
      TryScheduleWins(s, p);
    }
  }

  lemma TryScheduleLoses(s: State, p: nat)
    requires Inv(s) && p < |s.producers| && s.producers[p].Scheduling? && s.ready.bits[s.producers[p].a]
    ensures Inv(SetProducer(s, p, Free))
  {
    ProducerQuiet(s.ready, s.producers, s.workers, p, Free);
    LoadQuiet(s.load, s.mail.chains, s.producers, p, Free);
    WakeProducer(s.load.sizes, s.ready.bits, s.producers, s.workers, s.load.sizes, s.ready.bits, p, Free);
    ProducerKeepsHand(s.pool, s.place, s.producers, s.workers, s.mail.chains, p, Free);
    ProducerMoves(s.mail, s.nodes, s.producers, p, Free);
  }

  lemma TryScheduleWins(s: State, p: nat)
    requires Inv(s) && p < |s.producers| && s.producers[p].Scheduling? && !s.ready.bits[s.producers[p].a]
    ensures Inv(TrySchedule(s, p))
  {
    var a := s.producers[p].a;
    var s' := TrySchedule(s, p);
    var pc := Enqueueing(a);
    ProducerWins(s.ready, s.producers, s.workers, p, a);
    LoadQuiet(s.load, s.mail.chains, s.producers, p, pc);
    WakeProducer(s.load.sizes, s.ready.bits, s.producers, s.workers, s.load.sizes, s'.ready.bits, p, pc);
    ProducerKeepsHand(s.pool, s.place, s.producers, s.workers, s.mail.chains, p, pc);
    ProducerMoves(s.mail, s.nodes, s.producers, p, pc);
    HoldPassesAside(s.mail, s.nodes, s.load.taken, s.ready, s.workers, s'.ready, a, AtProducer(p));
  }

  lemma EnqueueKeeps(s: State, p: nat)
    requires Inv(s) && p < |s.producers| && s.producers[p].Enqueueing?
    ensures Inv(Enqueue(s, p))
  {
    var s' := Enqueue(s, p);
    ProducerSchedules(s.ready, s.producers, s.workers, p, s.keys[s.producers[p].a]);
    LoadQuiet(s.load, s.mail.chains, s.producers, p, Free);
    WakeProducer(s.load.sizes, s.ready.bits, s.producers, s.workers, s.load.sizes, s'.ready.bits, p, Free);
    ProducerKeepsHand(s.pool, s.place, s.producers, s.workers, s.mail.chains, p, Free);
    ProducerMoves(s.mail, s.nodes, s.producers, p, Free);
    var a := s.producers[p].a;
    assert s.ready.holder[a] == AtProducer(p);
    HoldPassesAside(s.mail, s.nodes, s.load.taken, s.ready, s.workers, s'.ready, a, s'.ready.holder[a]);
  }

  lemma ProducerStepKeeps(s: State, p: nat)
    requires Inv(s) && p < |s.producers| && !s.producers[p].Free?
    ensures Inv(ProducerStep(s, p))
  {
    match s.producers[p] {
      case Checking(_, _) => CheckSizeKeeps(s, p);
      case Acquiring(_, _) => AcquireKeeps(s, p);
      case Reserving(_, _, _) => ReserveKeeps(s, p);
      case Exchanging(_, _, _, _) => ExchangeKeeps(s, p);
      case Linking(_, _, _, _) => LinkKeeps(s, p);
      case Scheduling(_) => TryScheduleKeeps(s, p);
      case Enqueueing(_) => EnqueueKeeps(s, p);
    }
  }
}
