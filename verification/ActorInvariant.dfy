// The invariant of the actor runtime: tokens, sizes, wake-ups, node places, chains and consumers together.
module ActorInvariant {
  import opened ActorModel
  import opened ActorTokens
  import opened ActorLoad
  import opened ActorNodes
  import opened ActorChains
  import opened ActorConsumer

  ghost predicate Inv(s: State) {
    && WellFormed(s)
    && TokenInv(s.ready, s.producers, s.workers)
    && LoadInv(s.load, s.mail.chains, s.producers)
    && WakeInv(s.load.sizes, s.ready.bits, s.producers, s.workers)
    && PlaceInv(s.pool, s.place, s.producers, s.workers, s.mail.chains)
    && QueueInv(s.mail, s.nodes, s.producers)
    && ConsumerInv(s.mail, s.nodes, s.load.taken, s.ready, s.workers)
    && StackInv(s.pool, s.nodes)
  }
}
