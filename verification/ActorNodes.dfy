// Every node the pool ever created is in exactly one place: a thread cache, the global stack, one producer's
// hand, one worker's hand, or one mailbox chain. place is the witness.
module ActorNodes {
  import opened Wrappers
  import opened ActorModel

  predicate InHand(pc: Producer) { pc.Reserving? || pc.Exchanging? }

  ghost predicate Distinct(xs: seq<Node>) {
    forall i, j {:trigger xs[i], xs[j]} :: 0 <= i < j < |xs| ==> xs[i] != xs[j]
  }

  ghost predicate Placed(place: map<Node, Place>, n: Node, where_: Place) {
    n in place && place[n] == where_
  }

  ghost predicate CreatedInv(pool: Pool, place: map<Node, Place>) {
    forall n: Node {:trigger n in place} :: n in place <==> n < pool.created
  }

  ghost predicate CacheInv(pool: Pool, place: map<Node, Place>) {
    && (forall t, i {:trigger pool.caches[t][i]} :: 0 <= t < |pool.caches| && 0 <= i < |pool.caches[t]| ==>
          Placed(place, pool.caches[t][i], InCache(t)))
    && (forall t {:trigger pool.caches[t]} :: 0 <= t < |pool.caches| ==> Distinct(pool.caches[t]))
  }

  ghost predicate StackPlaces(pool: Pool, place: map<Node, Place>) {
    && (forall i {:trigger pool.stack[i]} :: 0 <= i < |pool.stack| ==> Placed(place, pool.stack[i], InStack))
    && Distinct(pool.stack)
  }

  ghost predicate ProducerPlaces(ps: seq<Producer>, place: map<Node, Place>) {
    forall p {:trigger ps[p]} :: 0 <= p < |ps| && InHand(ps[p]) ==> Placed(place, ps[p].node, WithProducer(p))
  }

  ghost predicate WorkerPlaces(ws: seq<Worker>, place: map<Node, Place>) {
    forall w {:trigger ws[w]} :: 0 <= w < |ws| && ws[w].Freeing? ==> Placed(place, ws[w].spent, WithWorker(w))
  }

  ghost predicate ChainPlaces(chains: seq<seq<Node>>, place: map<Node, Place>) {
    && (forall a, i {:trigger chains[a][i]} :: 0 <= a < |chains| && 0 <= i < |chains[a]| ==>
          Placed(place, chains[a][i], InChain(a)))
    && (forall a {:trigger chains[a]} :: 0 <= a < |chains| ==> Distinct(chains[a]))
  }

  // The node is where its place says: no node leaks.
  ghost predicate Found(pool: Pool, place: map<Node, Place>, ps: seq<Producer>, ws: seq<Worker>,
                        chains: seq<seq<Node>>, n: Node)
    requires n in place
  {
    match place[n]
    case InCache(t) => t < |pool.caches| && n in pool.caches[t]
    case InStack => n in pool.stack
    case WithProducer(p) => p < |ps| && InHand(ps[p]) && ps[p].node == n
    case WithWorker(w) => w < |ws| && ws[w].Freeing? && ws[w].spent == n
    case InChain(a) => a < |chains| && n in chains[a]
  }

  ghost predicate NoLeak(pool: Pool, place: map<Node, Place>, ps: seq<Producer>, ws: seq<Worker>,
                         chains: seq<seq<Node>>) {
    forall n {:trigger n in place} :: n in place ==> Found(pool, place, ps, ws, chains, n)
  }

  ghost predicate PlaceInv(pool: Pool, place: map<Node, Place>, ps: seq<Producer>, ws: seq<Worker>,
                           chains: seq<seq<Node>>) {
    && CreatedInv(pool, place) && CacheInv(pool, place) && StackPlaces(pool, place)
    && ProducerPlaces(ps, place) && WorkerPlaces(ws, place) && ChainPlaces(chains, place)
    && NoLeak(pool, place, ps, ws, chains)
  }

  lemma ProducerKeepsHand(pool: Pool, place: map<Node, Place>, ps: seq<Producer>, ws: seq<Worker>,
                          chains: seq<seq<Node>>,
                          p: nat, pc: Producer)
    requires PlaceInv(pool, place, ps, ws, chains) && p < |ps|
    requires InHand(ps[p]) == InHand(pc) && (InHand(pc) ==> ps[p].node == pc.node)
    ensures PlaceInv(pool, place, ps[p := pc], ws, chains)
  {
  }

  lemma WorkerKeepsHand(pool: Pool, place: map<Node, Place>, ps: seq<Producer>, ws: seq<Worker>, chains: seq<seq<Node>>,
                        w: nat, pc: Worker)
    requires PlaceInv(pool, place, ps, ws, chains) && w < |ws| && !ws[w].Freeing? && !pc.Freeing?
    ensures PlaceInv(pool, place, ps, ws[w := pc], chains)
  {
  }

  // A node that is placed nowhere, or taken from where it was, goes into the hand of producer p.
  lemma CachePlaces(pool: Pool, place: map<Node, Place>, ps: seq<Producer>, ws: seq<Worker>, chains: seq<seq<Node>>,
                    p: nat, pc: Producer)
    requires PlaceInv(pool, place, ps, ws, chains) && p < |ps| && p < |pool.caches| && !InHand(ps[p])
    requires pool.caches[p] != [] && InHand(pc) && pc.node == pool.caches[p][|pool.caches[p]| - 1]
    ensures var k := |pool.caches[p]| - 1;
            PlaceInv(pool.(caches := pool.caches[p := pool.caches[p][..k]]), place[pc.node := WithProducer(p)],
                     ps[p := pc], ws, chains)
            && pc.node in place && place[pc.node] == InCache(p)
  {
    var k := |pool.caches[p]| - 1;
    assert pool.caches[p] == pool.caches[p][..k] + [pc.node];
  }

  lemma TopPlaces(pool: Pool, place: map<Node, Place>, ps: seq<Producer>, ws: seq<Worker>, chains: seq<seq<Node>>,
                  p: nat, pc: Producer, top: Option<Node>)
    requires PlaceInv(pool, place, ps, ws, chains) && p < |ps| && !InHand(ps[p])
    requires pool.stack != [] && InHand(pc) && pc.node == pool.stack[0]
    ensures PlaceInv(pool.(top := top, stack := pool.stack[1..]), place[pc.node := WithProducer(p)],
                     ps[p := pc], ws, chains)
            && pc.node in place && place[pc.node] == InStack
  {
    assert pool.stack == [pc.node] + pool.stack[1..];
  }

  lemma NewPlaces(pool: Pool, place: map<Node, Place>, ps: seq<Producer>, ws: seq<Worker>, chains: seq<seq<Node>>,
                  p: nat, pc: Producer)
    requires PlaceInv(pool, place, ps, ws, chains) && p < |ps| && !InHand(ps[p])
    requires InHand(pc) && pc.node == pool.created
    ensures PlaceInv(pool.(created := pool.created + 1), place[pc.node := WithProducer(p)], ps[p := pc], ws, chains)
            && pc.node !in place
  {
  }

  // The pool never hands out a node that is in use: what Acquire returns was in the caller's cache, on the
  // stack, or did not exist.
  lemma AcquirePlaces(pool: Pool, nodes: Nodes, place: map<Node, Place>, ps: seq<Producer>, ws: seq<Worker>,
                      chains: seq<seq<Node>>, p: nat, a: nat, parcel: Parcel)
    requires PlaceInv(pool, place, ps, ws, chains) && p < |ps| && p < |pool.caches| && !InHand(ps[p])
    requires pool.top == if pool.stack == [] then None else Some(pool.stack[0])
    ensures var (pool', n) := Acquire(pool, nodes, p);
            && PlaceInv(pool', place[n := WithProducer(p)], ps[p := Reserving(a, parcel, n)], ws, chains)
            && (n in place ==> place[n] == InCache(p) || place[n] == InStack)
  {
    var (pool', n) := Acquire(pool, nodes, p);
    if pool.caches[p] != [] {
      CachePlaces(pool, place, ps, ws, chains, p, Reserving(a, parcel, n));
    } else if pool.top.Some? {
      TopPlaces(pool, place, ps, ws, chains, p, Reserving(a, parcel, n), pool'.top);
    } else {
      NewPlaces(pool, place, ps, ws, chains, p, Reserving(a, parcel, n));
    }
  }

  lemma ExchangePlaces(pool: Pool, place: map<Node, Place>, ps: seq<Producer>, ws: seq<Worker>, chains: seq<seq<Node>>,
                       p: nat, pc: Producer)
    requires PlaceInv(pool, place, ps, ws, chains) && p < |ps| && ps[p].Exchanging? && ps[p].a < |chains| && !InHand(pc)
    ensures var (n, a) := (ps[p].node, ps[p].a);
            PlaceInv(pool, place[n := InChain(a)], ps[p := pc], ws, chains[a := chains[a] + [n]])
  {
  }

  lemma TakePlaces(pool: Pool, place: map<Node, Place>, ps: seq<Producer>, ws: seq<Worker>, chains: seq<seq<Node>>,
                   w: nat, a: nat, pc: Worker)
    requires PlaceInv(pool, place, ps, ws, chains) && w < |ws| && !ws[w].Freeing? && a < |chains| && chains[a] != []
    requires pc.Freeing? && pc.spent == chains[a][0]
    ensures PlaceInv(pool, place[pc.spent := WithWorker(w)], ps, ws[w := pc], chains[a := Rest(chains[a])])
  {
    assert chains[a] == [chains[a][0]] + chains[a][1..];
  }

  lemma CachedPlaces(pool: Pool, place: map<Node, Place>, ps: seq<Producer>, ws: seq<Worker>, chains: seq<seq<Node>>,
                     w: nat, t: nat, pc: Worker)
    requires PlaceInv(pool, place, ps, ws, chains) && w < |ws| && ws[w].Freeing? && !pc.Freeing? && t < |pool.caches|
    ensures PlaceInv(Cached(pool, t, ws[w].spent), place[ws[w].spent := InCache(t)], ps, ws[w := pc], chains)
  {
  }

  lemma StackedPlaces(pool: Pool, place: map<Node, Place>, ps: seq<Producer>, ws: seq<Worker>, chains: seq<seq<Node>>,
                      w: nat, pc: Worker)
    requires PlaceInv(pool, place, ps, ws, chains) && w < |ws| && ws[w].Freeing? && !pc.Freeing?
    ensures PlaceInv(Stacked(pool, ws[w].spent), place[ws[w].spent := InStack], ps, ws[w := pc], chains)
  {
  }
}
