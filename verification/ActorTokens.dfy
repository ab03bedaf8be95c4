// is_scheduled_ is a token: whatever the threads do, the bit of an actor is set exactly when one thread or
// one ready-queue entry (or a dropped request) answers for it. So at most one worker is ever inside
// PopBatch, or inside a task, of one actor.
module ActorTokens {
  import opened ActorModel

  ghost predicate BitInv(r: Ready) {
    && |r.bits| == |r.holder|
    && forall a {:trigger r.bits[a]} {:trigger r.holder[a]} ::
         0 <= a < |r.bits| ==> (r.bits[a] <==> r.holder[a] != Nobody)
  }

  // Whoever acts on the bit of an actor is its holder; so no two do.
  ghost predicate ProducerHolds(r: Ready, ps: seq<Producer>) {
    forall p {:trigger ps[p]} :: 0 <= p < |ps| && ps[p].Enqueueing? ==>
      ps[p].a < |r.holder| && r.holder[ps[p].a] == AtProducer(p)
  }

  ghost predicate WorkerHolds(r: Ready, ws: seq<Worker>) {
    forall w {:trigger ws[w]} :: 0 <= w < |ws| && ws[w].Holds() ==>
      ws[w].a < |r.holder| && r.holder[ws[w].a] == AtWorker(w)
  }

  ghost predicate QueueHolds(r: Ready) {
    && (forall q, i {:trigger r.queues[q][i]} :: 0 <= q < |r.queues| && 0 <= i < |r.queues[q]| ==>
          r.queues[q][i] < |r.holder| && r.holder[r.queues[q][i]] == AtQueue(q))
    && (forall q, i, j {:trigger r.queues[q][i], r.queues[q][j]} ::
          0 <= q < |r.queues| && 0 <= i < j < |r.queues[q]| ==> r.queues[q][i] != r.queues[q][j])
  }

  // And the holder does act on it; so no token is lost.
  ghost predicate HolderActs(r: Ready, ps: seq<Producer>, ws: seq<Worker>, a: nat)
    requires a < |r.holder|
  {
    match r.holder[a]
    case AtProducer(p) => p < |ps| && ps[p] == Enqueueing(a)
    case AtQueue(q) => q < |r.queues| && a in r.queues[q]
    case AtWorker(w) => w < |ws| && ws[w].Holds() && ws[w].a == a
    case _ => true
  }

  ghost predicate HoldersAct(r: Ready, ps: seq<Producer>, ws: seq<Worker>) {
    forall a {:trigger HolderActs(r, ps, ws, a)} {:trigger r.holder[a]} ::
      0 <= a < |r.holder| ==> HolderActs(r, ps, ws, a)
  }

  ghost predicate TokenInv(r: Ready, ps: seq<Producer>, ws: seq<Worker>) {
    BitInv(r) && ProducerHolds(r, ps) && WorkerHolds(r, ws) && QueueHolds(r) && HoldersAct(r, ps, ws)
  }

  // ---------------------------------------------------------------- what each kind of step does to the tokens

  lemma ProducerQuiet(r: Ready, ps: seq<Producer>, ws: seq<Worker>, p: nat, pc: Producer)
    requires TokenInv(r, ps, ws) && p < |ps| && !ps[p].Enqueueing? && !pc.Enqueueing?
    ensures TokenInv(r, ps[p := pc], ws)
  {
  }

  lemma WorkerQuiet(r: Ready, ps: seq<Producer>, ws: seq<Worker>, w: nat, pc: Worker)
    requires TokenInv(r, ps, ws) && w < |ws|
    requires ws[w].Holds() == pc.Holds() && (pc.Holds() ==> ws[w].a == pc.a)
    ensures TokenInv(r, ps, ws[w := pc])
  {
  }

  lemma ProducerWins(r: Ready, ps: seq<Producer>, ws: seq<Worker>, p: nat, a: nat)
    requires TokenInv(r, ps, ws) && p < |ps| && !ps[p].Enqueueing? && a < |r.bits| && !r.bits[a]
    ensures TokenInv(Win(r, a, AtProducer(p)), ps[p := Enqueueing(a)], ws)
  {
  }

  lemma WorkerWins(r: Ready, ps: seq<Producer>, ws: seq<Worker>, w: nat, a: nat)
    requires TokenInv(r, ps, ws) && w < |ws| && !ws[w].Holds() && a < |r.bits| && !r.bits[a]
    ensures TokenInv(Win(r, a, AtWorker(w)), ps, ws[w := Requeueing(a)])
  {
  }

  lemma ScheduledQueues(r: Ready, key: nat, a: nat)
    requires QueueHolds(r) && a < |r.holder| && !r.holder[a].AtQueue?
    ensures QueueHolds(Schedule(r, key, a))
  {
  }

  // The others keep their holders; a has its new one.
  lemma ScheduledHolders(r: Ready, ps: seq<Producer>, ws: seq<Worker>, ps': seq<Producer>, ws': seq<Worker>,
                         key: nat, a: nat)
    requires HoldersAct(r, ps, ws) && a < |r.holder| && |ps'| == |ps| && |ws'| == |ws|
    requires forall p :: 0 <= p < |ps| && ps[p] != ps'[p] ==> ps[p] == Enqueueing(a)
    requires forall w :: 0 <= w < |ws| && ws[w] != ws'[w] ==> ws[w].Holds() && ws[w].a == a
    ensures HoldersAct(Schedule(r, key, a), ps', ws')
  {
    var r' := Schedule(r, key, a);
    forall b: nat | b < |r'.holder| ensures HolderActs(r', ps', ws', b) {
      if b != a {
        assert HolderActs(r, ps, ws, b);
        assert r'.holder[b] == r.holder[b];
      }
    }
  }

  lemma ProducerSchedules(r: Ready, ps: seq<Producer>, ws: seq<Worker>, p: nat, key: nat)
    requires TokenInv(r, ps, ws) && p < |ps| && ps[p].Enqueueing? && ps[p].a < |r.holder|
    ensures TokenInv(Schedule(r, key, ps[p].a), ps[p := Free], ws)
  {
    ScheduledQueues(r, key, ps[p].a);
    ScheduledHolders(r, ps, ws, ps[p := Free], ws, key, ps[p].a);
  }

  lemma WorkerSchedules(r: Ready, ps: seq<Producer>, ws: seq<Worker>, w: nat, key: nat)
    requires TokenInv(r, ps, ws) && w < |ws| && ws[w].Requeueing? && ws[w].a < |r.holder|
    ensures TokenInv(Schedule(r, key, ws[w].a), ps, ws[w := Local])
  {
    ScheduledQueues(r, key, ws[w].a);
    ScheduledHolders(r, ps, ws, ps, ws[w := Local], key, ws[w].a);
  }

  lemma WorkerDequeues(r: Ready, ps: seq<Producer>, ws: seq<Worker>, w: nat, q: nat)
    requires TokenInv(r, ps, ws) && w < |ws| && !ws[w].Holds()
    requires q < |r.queues| && r.queues[q] != [] && r.queues[q][0] < |r.holder|
    ensures TokenInv(Dequeue(r, q, w), ps, ws[w := Got(r.queues[q][0])])
  {
  }

  lemma WorkerClears(r: Ready, ps: seq<Producer>, ws: seq<Worker>, w: nat)
    requires TokenInv(r, ps, ws) && w < |ws| && ws[w].Clearing? && ws[w].a < |r.holder|
    ensures TokenInv(r.(bits := r.bits[ws[w].a := false], holder := r.holder[ws[w].a := Nobody]), ps,
                     ws[w := Rechecking(ws[w].a)])
  {
  }
}
