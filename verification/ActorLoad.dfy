// The size counter and the wake-up promise. approx_size_ is exact, bounded, and never positive without a
// scheduled bit or a thread that still owes the scheduling attempt.
module ActorLoad {
  import opened ActorModel

  predicate Passing(pc: Producer) { pc.Acquiring? || pc.Reserving? }

  ghost predicate PassedInv(l: Load, ps: seq<Producer>) {
    && (forall p {:trigger ps[p]} :: 0 <= p < |ps| && Passing(ps[p]) ==> ps[p].a < |l.passed| && p in l.passed[ps[p].a])
    && (forall a, p {:trigger p in l.passed[a]} :: 0 <= a < |l.passed| && p in l.passed[a] ==>
          p < |ps| && Passing(ps[p]) && ps[p].a == a)
  }

  ghost predicate ReservedInv(l: Load, ps: seq<Producer>) {
    && (forall p {:trigger ps[p]} :: 0 <= p < |ps| && ps[p].Exchanging? ==>
          ps[p].a < |l.reserved| && p in l.reserved[ps[p].a])
    && (forall a, p {:trigger p in l.reserved[a]} :: 0 <= a < |l.reserved| && p in l.reserved[a] ==>
          p < |ps| && ps[p].Exchanging? && ps[p].a == a)
  }

  // Reserved and not exchanged, plus the chain behind the consumer's head, plus taken and not subtracted.
  ghost predicate SizeInv(l: Load, chains: seq<seq<Node>>) {
    && |l.sizes| == |l.passed| == |l.reserved| == |l.taken| == |chains|
    && forall a {:trigger l.sizes[a]} {:trigger chains[a]} :: 0 <= a < |l.sizes| ==>
         l.sizes[a] == |l.reserved[a]| + |chains[a]| - 1 + l.taken[a]
  }

  // The check and the increment are two accesses, so every producer may slip past the check at 2047.
  ghost predicate LimitInv(l: Load, ps: seq<Producer>) {
    && |l.sizes| == |l.passed|
    && forall a {:trigger l.sizes[a]} {:trigger l.passed[a]} :: 0 <= a < |l.sizes| ==>
         l.sizes[a] + |l.passed[a]| <= MAX_MAILBOX - 1 + |ps|
  }

  ghost predicate LoadInv(l: Load, chains: seq<seq<Node>>, ps: seq<Producer>) {
    PassedInv(l, ps) && ReservedInv(l, ps) && SizeInv(l, chains) && LimitInv(l, ps)
  }

  lemma LoadQuiet(l: Load, chains: seq<seq<Node>>, ps: seq<Producer>, p: nat, pc: Producer)
    requires LoadInv(l, chains, ps) && p < |ps|
    requires Passing(ps[p]) == Passing(pc) && ps[p].Exchanging? == pc.Exchanging?
    requires Passing(pc) || pc.Exchanging? ==> ps[p].a == pc.a
    ensures LoadInv(l, chains, ps[p := pc])
  {
  }

  lemma {:induction false} RangeCard(xs: set<nat>, n: nat)
    requires forall x :: x in xs ==> x < n
    ensures |xs| <= n
  {
    if n == 0 {
      assert xs == {};
    } else {
      RangeCard(xs - {n - 1}, n - 1);
      assert xs <= (xs - {n - 1}) + {n - 1};
      if n - 1 in xs { assert |xs - {n - 1}| == |xs| - 1; } else { assert xs - {n - 1} == xs; }
    }
  }

  lemma LoadPass(l: Load, chains: seq<seq<Node>>, ps: seq<Producer>, p: nat, a: nat, parcel: Parcel)
    requires LoadInv(l, chains, ps) && p < |ps| && ps[p].Checking? && a < |l.sizes| && l.sizes[a] < MAX_MAILBOX
    ensures LoadInv(Pass(l, a, p), chains, ps[p := Acquiring(a, parcel)])
  {
    RangeCard(l.passed[a] + {p}, |ps|);
  }

  lemma LoadReserve(l: Load, chains: seq<seq<Node>>, ps: seq<Producer>, p: nat, wasEmpty: bool)
    requires LoadInv(l, chains, ps) && p < |ps| && ps[p].Reserving? && ps[p].a < |l.sizes|
    ensures var a := ps[p].a;
            LoadInv(Increment(l, a, p), chains, ps[p := Exchanging(a, ps[p].parcel, ps[p].node, wasEmpty)])
  {
  }

  lemma LoadExchange(l: Load, chains: seq<seq<Node>>, ps: seq<Producer>, p: nat, pc: Producer)
    requires LoadInv(l, chains, ps) && p < |ps| && ps[p].Exchanging? && ps[p].a < |l.sizes| && pc.Linking?
    ensures var a := ps[p].a;
            LoadInv(Arrive(l, a, p), chains[a := chains[a] + [ps[p].node]], ps[p := pc])
  {
  }

  lemma LoadTake(l: Load, chains: seq<seq<Node>>, ps: seq<Producer>, a: nat)
    requires LoadInv(l, chains, ps) && a < |l.sizes| && |chains[a]| >= 1
    ensures LoadInv(Pick(l, a), chains[a := Rest(chains[a])], ps)
  {
  }

  lemma LoadClose(l: Load, chains: seq<seq<Node>>, ps: seq<Producer>, a: nat)
    requires LoadInv(l, chains, ps) && a < |l.sizes|
    ensures LoadInv(Subtract(l, a, l.taken[a]), chains, ps)
  {
  }

  // ---------------------------------------------------------------- no lost wake-up

  // Saw the mailbox empty and has not tried to schedule yet.
  predicate ProducerPromises(pc: Producer, a: nat) {
    || ((pc.Exchanging? || pc.Linking?) && pc.wasEmpty && pc.a == a)
    || pc == Scheduling(a)
  }

  // Cleared the bit and has not finished its re-check.
  predicate WorkerPromises(pc: Worker, a: nat) {
    pc == Rechecking(a) || pc == Retrying(a)
  }

  ghost predicate SomeProducer(ps: seq<Producer>, a: nat) {
    exists p {:trigger ps[p]} :: 0 <= p < |ps| && ProducerPromises(ps[p], a)
  }

  ghost predicate SomeWorker(ws: seq<Worker>, a: nat) {
    exists w {:trigger ws[w]} :: 0 <= w < |ws| && WorkerPromises(ws[w], a)
  }

  ghost predicate Awake(bits: seq<bool>, ps: seq<Producer>, ws: seq<Worker>, a: nat) {
    (a < |bits| && bits[a]) || SomeProducer(ps, a) || SomeWorker(ws, a)
  }

  ghost predicate WakeInv(sizes: seq<int>, bits: seq<bool>, ps: seq<Producer>, ws: seq<Worker>) {
    && |sizes| == |bits|
    && forall a {:trigger Awake(bits, ps, ws, a)} {:trigger sizes[a]} ::
         0 <= a < |sizes| && sizes[a] > 0 ==> Awake(bits, ps, ws, a)
  }

  // A producer step keeps the promise when it breaks none that nobody else keeps.
  lemma WakeProducer(sizes: seq<int>, bits: seq<bool>, ps: seq<Producer>, ws: seq<Worker>,
                     sizes': seq<int>, bits': seq<bool>, p: nat, pc: Producer)
    requires WakeInv(sizes, bits, ps, ws) && |sizes'| == |bits'| == |sizes| && p < |ps|
    requires forall a :: 0 <= a < |sizes| ==> (sizes'[a] > 0 ==> sizes[a] > 0 || ProducerPromises(pc, a))
    requires forall a :: 0 <= a < |sizes| ==> (bits[a] ==> bits'[a])
    requires forall a :: 0 <= a < |sizes| ==> (ProducerPromises(ps[p], a) ==> ProducerPromises(pc, a) || bits'[a])
    ensures WakeInv(sizes', bits', ps[p := pc], ws)
  {
    var ps' := ps[p := pc];
    forall a: nat | a < |sizes'| && sizes'[a] > 0 ensures Awake(bits', ps', ws, a) {
      if ProducerPromises(pc, a) {
        assert ps'[p] == pc;
      } else if SomeProducer(ps, a) {
        var q :| 0 <= q < |ps| && ProducerPromises(ps[q], a);
        assert ps'[q] == if q == p then pc else ps[q];
      } else {
        assert Awake(bits, ps, ws, a);
      }
    }
  }

  lemma WakeReserve(sizes: seq<int>, bits: seq<bool>, ps: seq<Producer>, ws: seq<Worker>, p: nat, pc: Producer)
    requires WakeInv(sizes, bits, ps, ws) && p < |ps| && ps[p].Reserving? && pc.Exchanging? && pc.a == ps[p].a
    requires pc.a < |sizes| && pc.wasEmpty == (sizes[pc.a] == 0) && sizes[pc.a] >= 0
    ensures WakeInv(sizes[pc.a := sizes[pc.a] + 1], bits, ps[p := pc], ws)
  {
    WakeProducer(sizes, bits, ps, ws, sizes[pc.a := sizes[pc.a] + 1], bits, p, pc);
  }

  lemma WakeWorker(sizes: seq<int>, bits: seq<bool>, ps: seq<Producer>, ws: seq<Worker>,
                   sizes': seq<int>, bits': seq<bool>, w: nat, pc: Worker)
    requires WakeInv(sizes, bits, ps, ws) && |sizes'| == |bits'| == |sizes| && w < |ws|
    requires forall a :: 0 <= a < |sizes| ==> (sizes'[a] > 0 ==> sizes[a] > 0)
    requires forall a :: 0 <= a < |sizes| ==> (bits[a] ==> bits'[a] || WorkerPromises(pc, a))
    requires forall a :: 0 <= a < |sizes| ==>
               (WorkerPromises(ws[w], a) ==> WorkerPromises(pc, a) || bits'[a] || sizes'[a] <= 0)
    ensures WakeInv(sizes', bits', ps, ws[w := pc])
  {
    var ws' := ws[w := pc];
    forall a: nat | a < |sizes'| && sizes'[a] > 0 ensures Awake(bits', ps, ws', a) {
      assert Awake(bits, ps, ws, a);
      if WorkerPromises(pc, a) {
        assert ws'[w] == pc;
      } else if SomeWorker(ws, a) {
        var v :| 0 <= v < |ws| && WorkerPromises(ws[v], a);
        assert ws'[v] == if v == w then pc else ws[v];
      }
    }
  }
}
