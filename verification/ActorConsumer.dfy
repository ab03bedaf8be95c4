// The single consumer of each mailbox: the worker that answers for its scheduled bit.
module ActorConsumer {
  import opened Wrappers
  import opened ActorModel
  import opened ActorTokens
  import opened ActorNodes
  import opened ActorChains

  // ---------------------------------------------------------------- steps of others

  lemma ConsumerQuiet(m: Mail, nodes: Nodes, taken: seq<nat>, r: Ready, ws: seq<Worker>, r': Ready, ws': seq<Worker>)
    requires ChainInv(m, nodes) && ConsumerInv(m, nodes, taken, r, ws)
    requires forall a {:trigger Consumer(r', ws', a)} :: 0 <= a < |m.chains| ==>
               || Consumer(r', ws', a) == Consumer(r, ws, a)
               || (!Consuming(Consumer(r, ws, a)) && !Consuming(Consumer(r', ws', a)))
    ensures ConsumerInv(m, nodes, taken, r', ws')
  {
    forall a: nat | a < |m.chains| ensures ConsumerKnows(m, nodes, taken, Consumer(r', ws', a), a) {
      assert ConsumerKnows(m, nodes, taken, Consumer(r, ws, a), a);
    }
  }

  // A thread that is no consumer, before or after, changes nothing for any mailbox.
  lemma BystanderMoves(m: Mail, nodes: Nodes, taken: seq<nat>, r: Ready, ws: seq<Worker>, w: nat, pc: Worker)
    requires ChainInv(m, nodes) && ConsumerInv(m, nodes, taken, r, ws)
    requires w < |ws| && !Consuming(ws[w]) && !Consuming(pc)
    ensures ConsumerInv(m, nodes, taken, r, ws[w := pc])
  {
    ConsumerQuiet(m, nodes, taken, r, ws, r, ws[w := pc]);
  }

  // The hold on actor a passes to h while a bystander moves on, and neither holder is a consumer.
  lemma HoldPasses(m: Mail, nodes: Nodes, taken: seq<nat>, r: Ready, ws: seq<Worker>, r': Ready, w: nat, pc: Worker,
                   a: nat, h: Holder)
    requires ChainInv(m, nodes) && ConsumerInv(m, nodes, taken, r, ws) && a < |r.holder|
    requires w < |ws| && !Consuming(ws[w]) && !Consuming(pc) && r'.holder == r.holder[a := h]
    requires !Consuming(Consumer(r, ws, a))
    requires h.AtWorker? ==> h.w == w
    ensures ConsumerInv(m, nodes, taken, r', ws[w := pc])
  {
    ConsumerQuiet(m, nodes, taken, r, ws, r', ws[w := pc]);
  }

  // The same while a producer moves on.
  lemma HoldPassesAside(m: Mail, nodes: Nodes, taken: seq<nat>, r: Ready, ws: seq<Worker>, r': Ready, a: nat, h: Holder)
    requires ChainInv(m, nodes) && ConsumerInv(m, nodes, taken, r, ws) && a < |r.holder|
    requires r'.holder == r.holder[a := h] && !r.holder[a].AtWorker? && !h.AtWorker?
    ensures ConsumerInv(m, nodes, taken, r', ws)
  {
    ConsumerQuiet(m, nodes, taken, r, ws, r', ws);
  }

  lemma ExchangeSeen(m: Mail, nodes: Nodes, taken: seq<nat>, r: Ready, ws: seq<Worker>, a: nat, n: Node, parcel: Parcel)
    requires ChainInv(m, nodes) && ConsumerInv(m, nodes, taken, r, ws) && a < |m.chains|
    requires ChainInv(Append(m, a, n, parcel), nodes)
    ensures ConsumerInv(Append(m, a, n, parcel), nodes, taken, r, ws)
  {
    forall b: nat | b < |m.chains| ensures ConsumerKnows(Append(m, a, n, parcel), nodes, taken, Consumer(r, ws, b), b) {
      assert ConsumerKnows(m, nodes, taken, Consumer(r, ws, b), b);
    }
  }

  // A write to next that keeps every link already made keeps what the consumers read.
  lemma WriteSeen(m: Mail, nodes: Nodes, taken: seq<nat>, r: Ready, ws: seq<Worker>, nodes': Nodes)
    requires ChainInv(m, nodes) && ConsumerInv(m, nodes, taken, r, ws) && ChainInv(m, nodes')
    requires forall a {:trigger m.chains[a]} :: 0 <= a < |m.chains| && m.chains[a][0] in nodes.next ==>
               nodes'.Next(m.chains[a][0]) == nodes.Next(m.chains[a][0])
    ensures ConsumerInv(m, nodes', taken, r, ws)
  {
    forall b: nat | b < |m.chains| ensures ConsumerKnows(m, nodes', taken, Consumer(r, ws, b), b) {
      assert ConsumerKnows(m, nodes, taken, Consumer(r, ws, b), b);
    }
  }

  // ---------------------------------------------------------------- steps of the consumer

  ghost predicate SameElsewhere(m: Mail, taken: seq<nat>, m': Mail, taken': seq<nat>, a: nat) {
    && MailShape(m) && MailShape(m') && |m.chains| == |m'.chains| == |taken| == |taken'|
    && forall b {:trigger m.chains[b]} {:trigger m'.chains[b]} :: 0 <= b < |m.chains| && b != a ==>
         && m'.heads[b] == m.heads[b] && m'.chains[b] == m.chains[b] && m'.order[b] == m.order[b]
         && m'.popped[b] == m.popped[b] && m'.done[b] == m.done[b] && taken'[b] == taken[b]
  }

  lemma ConsumerMoves(m: Mail, nodes: Nodes, taken: seq<nat>, r: Ready, ps: seq<Producer>, ws: seq<Worker>,
                      w: nat, pc: Worker, m': Mail, taken': seq<nat>)
    requires TokenInv(r, ps, ws) && ChainInv(m, nodes) && ConsumerInv(m, nodes, taken, r, ws) && ChainInv(m', nodes)
    requires w < |ws| && ws[w].Holds() && ws[w].a < |m.chains|
    requires SameElsewhere(m, taken, m', taken', ws[w].a)
    requires ConsumerKnows(m', nodes, taken', pc, ws[w].a)
    ensures ConsumerInv(m', nodes, taken', r, ws[w := pc])
  {
    var a := ws[w].a;
    var ws' := ws[w := pc];
    assert Consumer(r, ws', a) == pc;
    forall b: nat | b < |m.chains| ensures ConsumerKnows(m', nodes, taken', Consumer(r, ws', b), b) {
      if b != a {
        assert b < |r.holder| ==> HolderActs(r, ps, ws, b);
        assert Consumer(r, ws', b) == Consumer(r, ws, b);
        assert ConsumerKnows(m, nodes, taken, Consumer(r, ws, b), b);
        assert m'.chains[b] == m.chains[b];
      }
    }
  }

  // The head of the chain is linked when the consumer read a next link there, and then its successor is
  // the next node of the chain.
  lemma ReadNextIsSuccessor(m: Mail, nodes: Nodes, ps: seq<Producer>, a: nat)
    requires ChainInv(m, nodes) && LinkInv(m, nodes, ps) && a < |m.chains| && m.chains[a][0] in nodes.next
    ensures |m.chains[a]| >= 2 && nodes.next[m.chains[a][0]] == m.chains[a][1]
  {
  }

  lemma TakeChains(m: Mail, nodes: Nodes, ps: seq<Producer>, a: nat)
    requires QueueInv(m, nodes, ps) && a < |m.chains| && m.chains[a][0] in nodes.next
    ensures QueueInv(Advance(m, a), nodes, ps)
  {
    TakeItems(m, nodes, ps, a);
    TakeLinks(m, nodes, ps, a);
    var m' := Advance(m, a);
    forall p: nat | p < |ps| ensures ProducerKnows(m', nodes, p, ps[p]) {
      assert ProducerKnows(m, nodes, p, ps[p]);
      TakeSeen(m, nodes, a, p, ps[p]);
    }
  }

  lemma TakeItems(m: Mail, nodes: Nodes, ps: seq<Producer>, a: nat)
    requires ChainInv(m, nodes) && LinkInv(m, nodes, ps) && ItemInv(m, nodes) && a < |m.chains|
    requires m.chains[a][0] in nodes.next
    ensures ChainInv(Advance(m, a), nodes) && ItemInv(Advance(m, a), nodes)
  {
    ReadNextIsSuccessor(m, nodes, ps, a);
    var m' := Advance(m, a);
    assert ChainInv(m', nodes);
    forall b, i | 0 <= b < |m'.chains| && 0 < i < |m'.chains[b]|
      ensures nodes.Item(m'.chains[b][i]) == m'.order[b][m'.popped[b] + i - 1]
    {
      if b == a { assert m'.chains[b][i] == m.chains[a][i + 1]; }
    }
  }

  lemma TakeSeen(m: Mail, nodes: Nodes, a: nat, p: nat, pc: Producer)
    requires ChainInv(m, nodes) && a < |m.chains| && m.chains[a][0] in nodes.next
    requires ChainInv(Advance(m, a), nodes) && ProducerKnows(m, nodes, p, pc)
    ensures ProducerKnows(Advance(m, a), nodes, p, pc)
  {
  }

  lemma TakeLinks(m: Mail, nodes: Nodes, ps: seq<Producer>, a: nat)
    requires ChainInv(m, nodes) && LinkInv(m, nodes, ps) && a < |m.chains| && ChainInv(Advance(m, a), nodes)
    ensures LinkInv(Advance(m, a), nodes, ps)
  {
    var m' := Advance(m, a);
    forall b, i, j | 0 <= b < |m'.chains| && 0 <= i < j < i + 2 && j < |m'.chains[b]| && m'.chains[b][i] in nodes.next
      ensures nodes.next[m'.chains[b][i]] == m'.chains[b][j]
    {
      if b == a { assert m'.chains[b][i] == m.chains[a][i + 1] && m'.chains[b][j] == m.chains[a][j + 1]; }
    }
  }

  lemma TakeKnown(m: Mail, nodes: Nodes, ps: seq<Producer>, taken: seq<nat>, a: nat, pc: Worker)
    requires QueueInv(m, nodes, ps) && a < |m.chains| == |taken| && pc.Looping? && pc.next.Some?
    requires ConsumerKnows(m, nodes, taken, pc, a) && ChainInv(Advance(m, a), nodes)
    ensures var n := pc.next.value;
            ConsumerKnows(Advance(m, a), nodes, taken[a := taken[a] + 1],
                          Freeing(pc.a, pc.max, n, nodes.Next(n), pc.batch + [nodes.Item(n)], pc.head), a)
  {
    ReadNextIsSuccessor(m, nodes, ps, a);
    var k := m.popped[a];
    assert m.order[a][..k + 1] == m.order[a][..k] + [m.order[a][k]];
    assert m.chains[a][1] == pc.next.value;
  }

  lemma ShiftFirst(done: seq<Parcel>, batch: seq<Parcel>, i: nat)
    requires i < |batch|
    ensures done + batch[i..] == done + [batch[i]] + batch[i + 1..]
  {
  }

  lemma RunKnown(m: Mail, nodes: Nodes, taken: seq<nat>, a: nat, pc: Worker)
    requires ChainInv(m, nodes) && a < |m.chains| == |taken| && pc.Running? && pc.i < |pc.batch|
    requires ConsumerKnows(m, nodes, taken, pc, a)
    requires ChainInv(Executed(m, a, pc.batch[pc.i]), nodes)
    ensures ConsumerKnows(Executed(m, a, pc.batch[pc.i]), nodes, taken, Running(pc.a, pc.batch, pc.i + 1), a)
  {
    ShiftFirst(m.done[a], pc.batch, pc.i);
  }

  // ---------------------------------------------------------------- the pool's stack

  // Popping the stack: top and stack move on together.
  lemma StackPopped(pool: Pool, nodes: Nodes)
    requires StackInv(pool, nodes) && pool.stack != []
    ensures StackInv(pool.(top := nodes.Next(pool.stack[0]), stack := pool.stack[1..]), nodes)
  {
    if |pool.stack| >= 2 { assert pool.stack[1..][0] == pool.stack[1]; }
  }

  lemma StackPushed(pool: Pool, nodes: Nodes, n: Node)
    requires StackInv(pool, nodes) && n !in pool.stack
    ensures StackInv(Stacked(pool, n), SetNext(nodes, n, pool.top))
  {
    var stack := [n] + pool.stack;
    assert forall i :: 1 <= i < |stack| ==> stack[i] == pool.stack[i - 1];
  }

  lemma StackUntouched(pool: Pool, nodes: Nodes, pool': Pool, nodes': Nodes)
    requires StackInv(pool, nodes) && pool'.top == pool.top && pool'.stack == pool.stack
    requires forall i {:trigger pool.stack[i]} ::
               0 <= i < |pool.stack| ==> nodes'.Next(pool.stack[i]) == nodes.Next(pool.stack[i])
    ensures StackInv(pool', nodes')
  {
  }
}
