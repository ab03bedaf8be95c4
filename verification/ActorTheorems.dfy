// What the actor runtime guarantees in every reachable state, and the one guarantee it does not give.
module ActorTheorems {
  import opened Wrappers
  import opened ActorModel
  import opened ActorTokens
  import opened ActorLoad
  import opened ActorNodes
  import opened ActorChains
  import opened ActorConsumer
  import opened ActorInvariant
  import opened ActorSafety
  import ActorProducers
  import ActorWorkers

  // ---------------------------------------------------------------- one token, one consumer

  // The threads, queues and dropped requests that answer for the scheduled bit of a.
  ghost predicate ActsOn(s: State, h: Holder, a: nat)
    requires WellFormed(s) && a < |s.keys|
  {
    match h
    case Nobody => false
    case AtProducer(p) => p < |s.producers| && s.producers[p] == Enqueueing(a)
    case AtQueue(q) => q < |s.ready.queues| && a in s.ready.queues[q]
    case AtWorker(w) => w < |s.workers| && s.workers[w].Holds() && s.workers[w].a == a
    case Dropped => s.ready.holder[a] == Dropped
  }

  // The bit is set exactly when one token exists.
  lemma BitIsToken(s: State, a: nat)
    requires Reachable(s) && WellFormed(s) && a < |s.keys|
    ensures s.ready.bits[a] <==> exists h :: ActsOn(s, h, a)
    ensures forall h, h' :: ActsOn(s, h, a) && ActsOn(s, h', a) ==> h == h'
    ensures forall q :: 0 <= q < |s.ready.queues| ==> multiset(s.ready.queues[q])[a] <= 1
  {
    ReachableIsSafe(s);
    assert HolderActs(s.ready, s.producers, s.workers, a);
    if s.ready.bits[a] { assert ActsOn(s, s.ready.holder[a], a); }
    forall h | ActsOn(s, h, a) ensures h == s.ready.holder[a] {
      if h.AtQueue? {
        var i :| 0 <= i < |s.ready.queues[h.q]| && s.ready.queues[h.q][i] == a;
      }
    }
    forall q | 0 <= q < |s.ready.queues| ensures multiset(s.ready.queues[q])[a] <= 1 {
      DistinctOnce(s.ready.queues[q], a);
    }
  }

  lemma {:induction false} DistinctOnce(xs: seq<nat>, x: nat)
    requires forall i, j {:trigger xs[i], xs[j]} :: 0 <= i < j < |xs| ==> xs[i] != xs[j]
    ensures multiset(xs)[x] <= 1
  {
    if xs != [] {
      var rest := xs[1..];
      assert xs == [xs[0]] + rest;
      DistinctOnce(rest, x);
      assert forall j :: 0 <= j < |rest| ==> rest[j] == xs[j + 1];
    }
  }

  // Two workers are never both in the mailbox or the batch of one actor.
  lemma OneConsumer(s: State, v: nat, w: nat)
    requires Reachable(s) && v < |s.workers| && w < |s.workers|
    requires s.workers[v].Holds() && s.workers[w].Holds() && s.workers[v].a == s.workers[w].a
    ensures v == w
  {
    ReachableIsSafe(s);
  }

  // ---------------------------------------------------------------- exchange order

  function Parcels(nodes: Nodes, chain: seq<Node>): seq<Parcel> {
    seq(|chain|, i requires 0 <= i < |chain| => nodes.Item(chain[i]))
  }

  // Executed, then the rest of the batch in hand, then the chain behind its head: exactly the parcels ever
  // exchanged, in exchange order, whichever worker consumes and wherever the producers stand.
  lemma TasksInExchangeOrder(s: State, a: nat)
    requires Reachable(s) && WellFormed(s) && a < |s.keys|
    ensures s.mail.order[a] == s.mail.done[a] + Pending(Consumer(s.ready, s.workers, a))
                               + Parcels(s.nodes, Rest(s.mail.chains[a]))
  {
    ReachableIsSafe(s);
    var pc := Consumer(s.ready, s.workers, a);
    assert ConsumerKnows(s.mail, s.nodes, s.load.taken, pc, a);
    SplitOrder(s.mail, s.nodes, s.load.taken, pc, a);
  }

  lemma SplitOrder(m: Mail, nodes: Nodes, taken: seq<nat>, pc: Worker, a: nat)
    requires ChainInv(m, nodes) && ItemInv(m, nodes) && a < |m.chains| == |taken|
    requires ConsumerKnows(m, nodes, taken, pc, a)
    ensures m.order[a] == m.done[a] + Pending(pc) + Parcels(nodes, Rest(m.chains[a]))
  {
    var k, c := m.popped[a], m.chains[a];
    assert m.order[a][k..] == Parcels(nodes, Rest(c)) by {
      forall i | 0 <= i < |c| - 1 ensures m.order[a][k..][i] == Parcels(nodes, Rest(c))[i] {
        assert Rest(c)[i] == c[i + 1];
      }
    }
    assert m.order[a] == m.order[a][..k] + m.order[a][k..];
  }

  // The exchange order and the executed sequence only ever grow, at their end.
  lemma HistoryGrows(s: State, e: Event, a: nat)
    requires Enabled(s, e) && a < |s.keys|
    ensures var s' := Step(s, e);
            |s'.keys| == |s.keys| && s.mail.order[a] <= s'.mail.order[a] && s.mail.done[a] <= s'.mail.done[a]
  {
    match e {
      case Begin(p, _, _) =>
      case Produce(p) => ProducerGrows(s, p, a);
      case Work(w, start) => WorkerGrows(s, w, start, a);
    }
  }

  lemma ProducerGrows(s: State, p: nat, a: nat)
    requires WellFormed(s) && p < |s.producers| && !s.producers[p].Free? && a < |s.keys|
    ensures var s' := ProducerStep(s, p);
            |s'.keys| == |s.keys| && s.mail.order[a] <= s'.mail.order[a] && s'.mail.done == s.mail.done
  {
  }

  lemma WorkerGrows(s: State, w: nat, start: nat, a: nat)
    requires WellFormed(s) && w < |s.workers| && a < |s.keys|
    ensures var s' := WorkerStep(s, w, start);
            |s'.keys| == |s.keys| && s'.mail.order == s.mail.order && s.mail.done[a] <= s'.mail.done[a]
  {
  }

  // ---------------------------------------------------------------- the size

  lemma SizeIsExact(s: State, a: nat)
    requires Reachable(s) && WellFormed(s) && a < |s.keys|
    ensures s.load.sizes[a] == |s.load.reserved[a]| + |s.mail.chains[a]| - 1 + s.load.taken[a]
    ensures 0 <= s.load.sizes[a] <= 2047 + |s.producers|
    ensures forall p: nat :: p in s.load.reserved[a] <==>
              p < |s.producers| && s.producers[p].Exchanging? && s.producers[p].a == a
  {
    ReachableIsSafe(s);
    assert |s.mail.chains[a]| >= 1;
  }

  // The batch a consumer subtracts was counted: fetch_sub never underflows.
  lemma SubtractionIsCovered(s: State, w: nat)
    requires Reachable(s) && WellFormed(s) && w < |s.workers| && s.workers[w].Closing?
    ensures |s.workers[w].batch| <= s.load.sizes[s.workers[w].a]
  {
    ReachableIsSafe(s);
    var a := s.workers[w].a;
    assert Consumer(s.ready, s.workers, a) == s.workers[w];
    assert ConsumerKnows(s.mail, s.nodes, s.load.taken, s.workers[w], a);
    SizeIsExact(s, a);
  }

  // ---------------------------------------------------------------- no lost wake-up

  lemma NoLostWakeup(s: State, a: nat)
    requires Reachable(s) && WellFormed(s) && a < |s.keys| && s.load.sizes[a] > 0 && s.ready.holder[a] != Dropped
    ensures || (exists h :: ActsOn(s, h, a) && h != Dropped)
            || (exists p :: 0 <= p < |s.producers| && ProducerPromises(s.producers[p], a))
            || (exists w :: 0 <= w < |s.workers| && WorkerPromises(s.workers[w], a))
  {
    ReachableIsSafe(s);
    BitIsToken(s, a);
    assert Awake(s.ready.bits, s.producers, s.workers, a);
    if s.ready.bits[a] {
      var h :| ActsOn(s, h, a);
      assert HolderActs(s.ready, s.producers, s.workers, a);
      assert ActsOn(s, s.ready.holder[a], a);
    }
  }

  // When every thread rests, the ready queues are empty and no request was dropped, everything posted has run.
  lemma QuiescentMeansDone(s: State, a: nat)
    requires Reachable(s) && WellFormed(s) && a < |s.keys|
    requires forall p :: 0 <= p < |s.producers| ==> s.producers[p].Free?
    requires forall w :: 0 <= w < |s.workers| ==> s.workers[w].Idle()
    requires forall q :: 0 <= q < |s.ready.queues| ==> s.ready.queues[q] == []
    requires s.ready.holder[a] != Dropped
    ensures s.load.sizes[a] == 0 && !s.ready.bits[a] && s.mail.done[a] == s.mail.order[a]
  {
    RestingBitIsClear(s, a);
    SizeIsExact(s, a);
    TasksInExchangeOrder(s, a);
  }

  lemma RestingBitIsClear(s: State, a: nat)
    requires Reachable(s) && WellFormed(s) && a < |s.keys|
    requires forall p :: 0 <= p < |s.producers| ==> s.producers[p].Free?
    requires forall w :: 0 <= w < |s.workers| ==> s.workers[w].Idle()
    requires forall q :: 0 <= q < |s.ready.queues| ==> s.ready.queues[q] == []
    requires s.ready.holder[a] != Dropped
    ensures !s.ready.bits[a] && s.load.sizes[a] <= 0 && !Consuming(Consumer(s.ready, s.workers, a))
    ensures |s.mail.chains[a]| >= 1
  {
    ReachableIsSafe(s);
    assert HolderActs(s.ready, s.producers, s.workers, a);
    assert s.load.sizes[a] > 0 ==> Awake(s.ready.bits, s.producers, s.workers, a);
  }

  lemma LinkEndsSpin(s: State, p: nat, w: nat)
    requires WellFormed(s) && p < |s.producers| && s.producers[p].Linking? && w < |s.workers| && s.workers[w].Spinning?
    requires s.producers[p].prev == s.workers[w].head
    ensures Spin(Link(s, p), w).workers[w].Looping?
  {
  }

  lemma LinkerOf(s: State, w: nat) returns (p: nat)
    requires Reachable(s) && WellFormed(s) && w < |s.workers| && s.workers[w].Spinning?
    requires s.workers[w].head !in s.nodes.next
    ensures p < |s.producers| && s.producers[p].Linking? && s.producers[p].prev == s.workers[w].head
  {
    ReachableIsSafe(s);
    var a := s.workers[w].a;
    assert Consumer(s.ready, s.workers, a) == s.workers[w];
    assert ConsumerKnows(s.mail, s.nodes, s.load.taken, s.workers[w], a);
    assert s.mail.chains[a][0] == s.workers[w].head;
    p := s.mail.order[a][s.mail.popped[a]].sender;
    assert StillLinking(s.mail, s.producers, p, a, s.mail.popped[a]);
    assert ProducerKnows(s.mail, s.nodes, p, s.producers[p]);
  }

  // A consumer that spins has a producer to wait for, and that producer's next access ends the wait.
  lemma SpinIsServed(s: State, w: nat)
    requires Reachable(s) && WellFormed(s) && w < |s.workers| && s.workers[w].Spinning?
    ensures var (a, head) := (s.workers[w].a, s.workers[w].head);
            || head in s.nodes.next
            || exists p :: 0 <= p < |s.producers| && s.producers[p].Linking? && s.producers[p].prev == head
                           && Spin(Link(s, p), w).workers[w].Looping?
  {
    if s.workers[w].head !in s.nodes.next {
      var p := LinkerOf(s, w);
      LinkEndsSpin(s, p, w);
    }
  }

  // ---------------------------------------------------------------- node ownership

  ghost predicate IsAt(s: State, n: Node, x: Place) {
    match x
    case InCache(t) => t < |s.pool.caches| && n in s.pool.caches[t]
    case InStack => n in s.pool.stack
    case WithProducer(p) => p < |s.producers| && InHand(s.producers[p]) && s.producers[p].node == n
    case WithWorker(w) => w < |s.workers| && s.workers[w].Freeing? && s.workers[w].spent == n
    case InChain(a) => a < |s.mail.chains| && n in s.mail.chains[a]
  }

  // Every node ever created is in exactly one place, and a node never created is in none.
  lemma NodeIsInOnePlace(s: State, n: Node)
    requires Reachable(s)
    ensures n < s.pool.created <==> exists x :: IsAt(s, n, x)
    ensures forall x, y :: IsAt(s, n, x) && IsAt(s, n, y) ==> x == y
  {
    ReachableIsSafe(s);
    forall x | IsAt(s, n, x) ensures n in s.place && s.place[n] == x {
      match x {
        case InCache(t) => var i :| 0 <= i < |s.pool.caches[t]| && s.pool.caches[t][i] == n;
        case InStack => var i :| 0 <= i < |s.pool.stack| && s.pool.stack[i] == n;
        case InChain(a) => var i :| 0 <= i < |s.mail.chains[a]| && s.mail.chains[a][i] == n;
        case _ =>
      }
    }
    if n in s.place { assert IsAt(s, n, s.place[n]); }
  }

  // The pool writes next only in nodes it owns: no acquire touches a live chain,
  lemma AcquireMissesChains(s: State, a: nat, i: nat, p: nat)
    requires Reachable(s) && WellFormed(s) && a < |s.keys| && i < |s.mail.chains[a]|
    requires p < |s.producers| && s.producers[p].Acquiring?
    ensures AcquireNode(s, p).nodes.Next(s.mail.chains[a][i]) == s.nodes.Next(s.mail.chains[a][i])
  {
    ReachableIsSafe(s);
    ActorProducers.AcquireMisses(s, p);
  }

  // and no release does.
  lemma ReleaseMissesChains(s: State, a: nat, i: nat, w: nat)
    requires Reachable(s) && WellFormed(s) && a < |s.keys| && i < |s.mail.chains[a]|
    requires w < |s.workers| && s.workers[w].Freeing?
    ensures FreeOld(s, w).nodes.Next(s.mail.chains[a][i]) == s.nodes.Next(s.mail.chains[a][i])
  {
    ReachableIsSafe(s);
    ActorWorkers.SpentIsForeign(s, w);
  }

  // ---------------------------------------------------------------- stealing

  // A scan of n shards comes to each of them at exactly one of its n turns, wherever it starts.
  lemma EachShardOnce(start: nat, n: nat, q: nat) returns (i: nat)
    requires q < n
    ensures i < n && Victim(start, i, n) == q
    ensures forall j: nat :: j < n && Victim(start, j, n) == q ==> j == i
  {
    var k, r := start / n, start % n;
    DivMod(start, n);
    if r <= q {
      i := q - r;
      Residue(start + i, n, k, q);
    } else {
      i := n - r + q;
      Distributes(n, k);
      Residue(start + i, n, k + 1, q);
    }
    forall j: nat | j < n && Victim(start, j, n) == q ensures j == i {
      SameTurn(start, n, i, j);
    }
  }

  lemma DivMod(x: nat, n: nat)
    requires n > 0
    ensures x == n * (x / n) + x % n
  {
  }

  lemma Distributes(n: nat, k: nat)
    ensures n * (k + 1) == n * k + n
  {
  }

  lemma {:induction false} Apart(n: nat, k: nat, d: nat)
    requires k < d
    ensures n * k + n <= n * d
  {
    Distributes(n, d - 1);
    if k < d - 1 { Apart(n, k, d - 1); }
  }

  lemma Residue(x: nat, n: nat, k: nat, q: nat)
    requires q < n && x == n * k + q
    ensures x % n == q
  {
    var d := x / n;
    DivMod(x, n);
    if d > k { Apart(n, k, d); }
    if d < k { Apart(n, d, k); }
  }

  lemma SameResidue(x: nat, y: nat, n: nat, d: nat, e: nat, q: nat)
    requires x == n * d + q && y == n * e + q && x < y + n && y < x + n
    ensures x == y
  {
    if d > e { Apart(n, e, d); }
    if d < e { Apart(n, d, e); }
  }

  lemma SameTurn(start: nat, n: nat, i: nat, j: nat)
    requires i < n && j < n && Victim(start, i, n) == Victim(start, j, n)
    ensures i == j
  {
    DivMod(start + i, n);
    DivMod(start + j, n);
    SameResidue(start + i, start + j, n, (start + i) / n, (start + j) / n, Victim(start, i, n));
  }

  // Turn i of a thief on shard w: another shard with work,
  predicate Finds(queues: seq<seq<nat>>, w: nat, start: nat, i: nat) {
    |queues| > 0 && var v := Victim(start, i, |queues|); v != w && queues[v] != []
  }

  // which no earlier turn came to.
  ghost predicate Misses(queues: seq<seq<nat>>, w: nat, start: nat, i: nat) {
    forall j: nat :: j < i ==> !Finds(queues, w, start, j)
  }

  // Where the scan of worker w stands after i turns that took nothing, or at the turn i that took an actor.
  ghost predicate Scanned(before: seq<seq<nat>>, after: seq<seq<nat>>, pc: Worker, w: nat, start: nat, i: nat) {
    && i <= |before| && Misses(before, w, start, i)
    && if pc.Got? then
         && Finds(before, w, start, i) && i < |before|
         && var v := Victim(start, i, |before|);
            after == before[v := before[v][1..]] && pc == Got(before[v][0])
       else
         after == before && (pc == Stealing(start, i) || (pc == Waiting && i == |before|))
  }

  lemma ScanTurn(s: State, w: nat, start: nat, i: nat)
    requires WellFormed(s) && w < |s.workers| && s.workers[w] == Stealing(start, i)
    requires Scanned(s.ready.queues, s.ready.queues, s.workers[w], w, start, i)
    ensures var s' := Steal(s, w);
            var i' := if s'.workers[w].Stealing? then i + 1 else i;
            Scanned(s.ready.queues, s'.ready.queues, s'.workers[w], w, start, i')
  {
    if i < |s.ready.queues| {
      assert Steal(s, w) == StealFrom(s, w, Victim(start, i, |s.ready.queues|));
    }
  }

  // The scan ends with an actor exactly when some other shard has one.
  lemma ScanFinds(before: seq<seq<nat>>, after: seq<seq<nat>>, pc: Worker, w: nat, start: nat, i: nat)
    requires Scanned(before, after, pc, w, start, i) && !pc.Stealing?
    ensures pc.Got? <==> exists q :: 0 <= q < |before| && q != w && before[q] != []
  {
    if pc.Waiting? {
      forall q | 0 <= q < |before| && q != w ensures before[q] == [] {
        var turn := EachShardOnce(start, |before|, q);
        assert !Finds(before, w, start, turn);
      }
    }
  }

  // ---------------------------------------------------------------- back-pressure

  // A posted task is still there to run exactly when its post never met a full mailbox.
  lemma TaskSurvivesUnlessFull(s: State, a: nat, k: nat)
    requires Reachable(s) && WellFormed(s) && a < |s.keys| && k < |s.mail.order[a]|
    ensures s.mail.order[a][k].task == Some(s.mail.order[a][k].posted) <==> s.mail.order[a][k].retries == 0
    ensures s.mail.order[a][k].retries > 0 ==> s.mail.order[a][k].task == None
  {
    ReachableIsSafe(s);
  }
}
