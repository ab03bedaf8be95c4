// The chain of each mailbox, what the producers and the consumer know about it, and the pool's stack, which
// is threaded through the same next links.
module ActorChains {
  import opened Wrappers
  import opened ActorModel
  import opened ActorNodes

  ghost predicate HonestParcel(parcel: Parcel) {
    parcel.task == if parcel.retries == 0 then Some(parcel.posted) else None
  }

  // The order has one entry for every node behind the head, after those already popped.
  ghost predicate ChainInv(m: Mail, nodes: Nodes) {
    && MailShape(m)
    && (forall a {:trigger m.chains[a]} :: 0 <= a < |m.chains| ==>
          && |m.chains[a]| >= 1
          && |m.order[a]| == m.popped[a] + |m.chains[a]| - 1
          && m.tails[a] == m.chains[a][|m.chains[a]| - 1]
          && m.tails[a] !in nodes.next)
  }

  ghost predicate ItemInv(m: Mail, nodes: Nodes)
    requires ChainInv(m, nodes)
  {
    forall a, i {:trigger m.chains[a][i]} :: 0 <= a < |m.chains| && 0 < i < |m.chains[a]| ==>
      nodes.Item(m.chains[a][i]) == m.order[a][m.popped[a] + i - 1]
  }

  // A chain node is linked to its successor, or the producer that exchanged the successor in still has to.
  ghost predicate LinkInv(m: Mail, nodes: Nodes, ps: seq<Producer>)
    requires ChainInv(m, nodes)
  {
    && |m.at| == |ps|
    && (forall a, i, j {:trigger m.chains[a][i], m.chains[a][j]} ::
          0 <= a < |m.chains| && 0 <= i < j < i + 2 && j < |m.chains[a]| && m.chains[a][i] in nodes.next ==>
            nodes.next[m.chains[a][i]] == m.chains[a][j])
    && (forall a, i {:trigger m.chains[a][i]} ::
          0 <= a < |m.chains| && 0 <= i < |m.chains[a]| - 1 && m.chains[a][i] !in nodes.next ==>
            StillLinking(m, ps, m.order[a][m.popped[a] + i].sender, a, m.popped[a] + i))
  }

  predicate StillLinking(m: Mail, ps: seq<Producer>, p: nat, a: nat, at: nat) {
    p < |ps| && p < |m.at| && ps[p].Linking? && ps[p].a == a && m.at[p] == at
  }

  ghost predicate OrderInv(m: Mail) {
    forall a, k {:trigger m.order[a][k]} :: 0 <= a < |m.order| && 0 <= k < |m.order[a]| ==> HonestParcel(m.order[a][k])
  }

  // What a producer knows in the middle of a post.
  ghost predicate ProducerKnows(m: Mail, nodes: Nodes, p: nat, pc: Producer)
    requires ChainInv(m, nodes)
  {
    match pc
    case Checking(_, parcel) => parcel.sender == p && HonestParcel(parcel)
    case Acquiring(_, parcel) => parcel.sender == p && HonestParcel(parcel)
    case Reserving(_, parcel, n) =>
      parcel.sender == p && HonestParcel(parcel) && n !in nodes.next && nodes.Item(n) == parcel
    case Exchanging(_, parcel, n, _) =>
      parcel.sender == p && HonestParcel(parcel) && n !in nodes.next && nodes.Item(n) == parcel
    case Linking(a, n, prev, _) =>
      && a < |m.chains| && p < |m.at|
      && var at := m.at[p];
      && m.popped[a] <= at < |m.order[a]| && m.order[a][at].sender == p
      && m.chains[a][at - m.popped[a]] == prev && m.chains[a][at - m.popped[a] + 1] == n
      && prev !in nodes.next
    case _ => true
  }

  ghost predicate ProducerInv(m: Mail, nodes: Nodes, ps: seq<Producer>)
    requires ChainInv(m, nodes)
  {
    forall p {:trigger ProducerKnows(m, nodes, p, ps[p])} {:trigger ps[p]} ::
      0 <= p < |ps| ==> ProducerKnows(m, nodes, p, ps[p])
  }

  // The worker that answers for the bit of a, if it is inside PopBatch or running its batch, is the consumer.
  function Consumer(r: Ready, ws: seq<Worker>, a: nat): Worker {
    if a < |r.holder| && r.holder[a].AtWorker? && r.holder[a].w < |ws| then ws[r.holder[a].w] else Local
  }

  predicate Consuming(pc: Worker) { pc.InPop() || pc.Running? }

  // The popped parcels the consumer has not executed yet.
  function Pending(pc: Worker): seq<Parcel> {
    if pc.InPop() then pc.batch
    else if pc.Running? && pc.i <= |pc.batch| then pc.batch[pc.i..]
    else []
  }

  // The consumer knows the head and the next link it read; everyone else may rely on head_.
  ghost predicate ConsumerKnows(m: Mail, nodes: Nodes, taken: seq<nat>, pc: Worker, a: nat)
    requires ChainInv(m, nodes) && a < |m.chains| == |taken|
  {
    && m.popped[a] <= |m.order[a]| && m.order[a][..m.popped[a]] == m.done[a] + Pending(pc)
    && taken[a] == (if pc.InPop() then |pc.batch| else 0)
    && m.chains[a][0] == (if pc.InPop() then pc.head else m.heads[a])
    && (pc.Running? ==> pc.i <= |pc.batch|)
    && ((pc.Looping? || pc.Freeing?) && pc.next.Some? ==> pc.head in nodes.next && nodes.next[pc.head] == pc.next.value)
    && (pc.Spinning? ==> |m.chains[a]| >= 2)
  }

  ghost predicate ConsumerInv(m: Mail, nodes: Nodes, taken: seq<nat>, r: Ready, ws: seq<Worker>)
    requires ChainInv(m, nodes)
  {
    && |taken| == |m.chains|
    && forall a {:trigger Consumer(r, ws, a)} :: 0 <= a < |m.chains| ==>
         ConsumerKnows(m, nodes, taken, Consumer(r, ws, a), a)
  }

  // The global stack of the pool is the list threaded through next from its top.
  ghost predicate StackInv(pool: Pool, nodes: Nodes) {
    && pool.top == (if pool.stack == [] then None else Some(pool.stack[0]))
    && (forall i {:trigger pool.stack[i]} :: 0 <= i < |pool.stack| ==>
          (pool.stack[i] in nodes.next <==> i + 1 < |pool.stack|))
    && (forall i, j {:trigger pool.stack[i], pool.stack[j]} ::
          0 <= i < j < i + 2 && j < |pool.stack| && pool.stack[i] in nodes.next ==>
            nodes.next[pool.stack[i]] == pool.stack[j])
  }

  ghost predicate QueueInv(m: Mail, nodes: Nodes, ps: seq<Producer>) {
    ChainInv(m, nodes) && ItemInv(m, nodes) && LinkInv(m, nodes, ps) && OrderInv(m) && ProducerInv(m, nodes, ps)
  }

  // ---------------------------------------------------------------- producer steps

  lemma LinksOfOthers(m: Mail, nodes: Nodes, ps: seq<Producer>, p: nat, pc: Producer)
    requires ChainInv(m, nodes) && LinkInv(m, nodes, ps) && p < |ps| && !ps[p].Linking?
    ensures LinkInv(m, nodes, ps[p := pc])
  {
    var ps' := ps[p := pc];
    forall a, i | 0 <= a < |m.chains| && 0 <= i < |m.chains[a]| - 1 && m.chains[a][i] !in nodes.next
      ensures StillLinking(m, ps', m.order[a][m.popped[a] + i].sender, a, m.popped[a] + i)
    {
      assert StillLinking(m, ps, m.order[a][m.popped[a] + i].sender, a, m.popped[a] + i);
    }
  }

  // A producer that is not linking, and moves on without touching a chain.
  lemma ProducerMoves(m: Mail, nodes: Nodes, ps: seq<Producer>, p: nat, pc: Producer)
    requires QueueInv(m, nodes, ps) && p < |ps| && !ps[p].Linking? && ProducerKnows(m, nodes, p, pc)
    ensures QueueInv(m, nodes, ps[p := pc])
  {
    LinksOfOthers(m, nodes, ps, p, pc);
    var ps' := ps[p := pc];
    forall q: nat | q < |ps'| ensures ProducerKnows(m, nodes, q, ps'[q]) {
      if q != p { assert ProducerKnows(m, nodes, q, ps[q]); }
    }
  }

  ghost predicate InNoChain(m: Mail, n: Node) {
    forall a, i {:trigger m.chains[a][i]} :: 0 <= a < |m.chains| && 0 <= i < |m.chains[a]| ==> m.chains[a][i] != n
  }

  ghost predicate SameExcept<T>(m: map<Node, T>, m': map<Node, T>, n: Node) {
    forall k {:trigger k in m} {:trigger k in m'} :: k != n ==> (k in m <==> k in m') && (k in m ==> m'[k] == m[k])
  }

  // Writing a node that is in no chain and in no hand disturbs no mailbox.
  lemma ForeignWrite(m: Mail, nodes: Nodes, ps: seq<Producer>, n: Node, nodes': Nodes)
    requires QueueInv(m, nodes, ps) && InNoChain(m, n)
    requires forall p {:trigger ps[p]} :: 0 <= p < |ps| && InHand(ps[p]) ==> ps[p].node != n
    requires SameExcept(nodes.next, nodes'.next, n) && SameExcept(nodes.item, nodes'.item, n)
    ensures QueueInv(m, nodes', ps)
  {
    forall a: nat | a < |m.chains| ensures m.tails[a] !in nodes'.next {
      assert m.chains[a][|m.chains[a]| - 1] != n;
    }
    assert ChainInv(m, nodes');
    forall p: nat | p < |ps| ensures ProducerKnows(m, nodes', p, ps[p]) {
      assert ProducerKnows(m, nodes, p, ps[p]);
    }
  }

  lemma AppendShape(m: Mail, nodes: Nodes, a: nat, n: Node, parcel: Parcel)
    requires ChainInv(m, nodes) && a < |m.chains| && n !in nodes.next
    ensures ChainInv(Append(m, a, n, parcel), nodes)
  {
  }

  lemma AppendItems(m: Mail, nodes: Nodes, a: nat, n: Node, parcel: Parcel)
    requires ChainInv(m, nodes) && ItemInv(m, nodes) && OrderInv(m) && a < |m.chains|
    requires n !in nodes.next && nodes.Item(n) == parcel && HonestParcel(parcel)
    ensures var m' := Append(m, a, n, parcel); ChainInv(m', nodes) && ItemInv(m', nodes) && OrderInv(m')
  {
    AppendShape(m, nodes, a, n, parcel);
    var m' := Append(m, a, n, parcel);
    forall b, i | 0 <= b < |m'.chains| && 0 < i < |m'.chains[b]|
      ensures nodes.Item(m'.chains[b][i]) == m'.order[b][m'.popped[b] + i - 1]
    {
      if b != a || i < |m.chains[b]| { assert m'.chains[b][i] == m.chains[b][i]; }
    }
  }

  lemma AppendLinks(m: Mail, nodes: Nodes, ps: seq<Producer>, a: nat, n: Node, parcel: Parcel, wasEmpty: bool)
    requires ChainInv(m, nodes) && LinkInv(m, nodes, ps) && a < |m.chains|
    requires parcel.sender < |ps| && !ps[parcel.sender].Linking?
    requires var m' := Append(m, a, n, parcel); ChainInv(m', nodes)
    ensures LinkInv(Append(m, a, n, parcel), nodes,
                    ps[parcel.sender := Linking(a, n, m.tails[a], wasEmpty)])
  {
    var m', ps' := Append(m, a, n, parcel), ps[parcel.sender := Linking(a, n, m.tails[a], wasEmpty)];
    forall b, i, j | 0 <= b < |m'.chains| && 0 <= i < j < i + 2 && j < |m'.chains[b]| && m'.chains[b][i] in nodes.next
      ensures nodes.next[m'.chains[b][i]] == m'.chains[b][j]
    {
      assert m'.chains[b][i] == m.chains[b][i];
      assert b != a || j < |m.chains[b]|;
      assert m'.chains[b][j] == m.chains[b][j];
    }
    forall b, i | 0 <= b < |m'.chains| && 0 <= i < |m'.chains[b]| - 1 && m'.chains[b][i] !in nodes.next
      ensures StillLinking(m', ps', m'.order[b][m'.popped[b] + i].sender, b, m'.popped[b] + i)
    {
      assert m'.chains[b][i] == m.chains[b][i];
      if b != a || i < |m.chains[b]| - 1 {
        assert StillLinking(m, ps, m.order[b][m.popped[b] + i].sender, b, m.popped[b] + i);
      }
    }
  }

  lemma AppendKnown(m: Mail, nodes: Nodes, ps: seq<Producer>, a: nat, n: Node, parcel: Parcel, p: nat)
    requires ChainInv(m, nodes) && a < |m.chains| && p < |ps| && p != parcel.sender && ProducerKnows(m, nodes, p, ps[p])
    requires ChainInv(Append(m, a, n, parcel), nodes)
    ensures ProducerKnows(Append(m, a, n, parcel), nodes, p, ps[p])
  {
  }

  lemma ExchangeChains(m: Mail, nodes: Nodes, ps: seq<Producer>, p: nat)
    requires QueueInv(m, nodes, ps) && p < |ps| && ps[p].Exchanging? && ps[p].a < |m.chains|
    ensures var (n, a) := (ps[p].node, ps[p].a);
            QueueInv(Append(m, a, n, ps[p].parcel), nodes,
                     ps[p := Linking(a, n, m.tails[a], ps[p].wasEmpty)])
  {
    var Exchanging(a, parcel, n, wasEmpty) := ps[p];
    assert ProducerKnows(m, nodes, p, ps[p]);
    AppendItems(m, nodes, a, n, parcel);
    AppendLinks(m, nodes, ps, a, n, parcel, wasEmpty);
    var m' := Append(m, a, n, parcel);
    var ps' := ps[p := Linking(a, n, m.tails[a], wasEmpty)];
    forall q: nat | q < |ps'| ensures ProducerKnows(m', nodes, q, ps'[q]) {
      if q != p { AppendKnown(m, nodes, ps, a, n, parcel, q); }
    }
  }

  lemma LinkChains(m: Mail, nodes: Nodes, ps: seq<Producer>, p: nat, pc: Producer)
    requires QueueInv(m, nodes, ps) && p < |ps| && ps[p].Linking? && (pc.Free? || pc.Scheduling?)
    requires Apart(m, ps, p)
    ensures QueueInv(m, nodes.(next := nodes.next[ps[p].prev := ps[p].node]), ps[p := pc])
  {
    var Linking(b, n, prev, _) := ps[p];
    var nodes' := nodes.(next := nodes.next[prev := n]);
    var ps' := ps[p := pc];
    assert ProducerKnows(m, nodes, p, ps[p]);
    assert ChainInv(m, nodes') by {
      forall a: nat | a < |m.chains| ensures m.tails[a] !in nodes'.next {
        assert m.chains[a][|m.chains[a]| - 1] == m.tails[a];
      }
    }
    forall q: nat | q < |ps'| ensures ProducerKnows(m, nodes', q, ps'[q]) {
      if q != p { LinkKnown(m, nodes, ps, p, q); }
    }
    LinkLinks(m, nodes, ps, p, pc);
  }

  // The node before the link point is in its own chain, once, and in no hand.
  ghost predicate Apart(m: Mail, ps: seq<Producer>, p: nat)
    requires p < |ps| && ps[p].Linking?
  {
    && (forall a {:trigger m.chains[a]} :: 0 <= a < |m.chains| ==> Distinct(m.chains[a]))
    && (forall a, i {:trigger m.chains[a][i]} :: 0 <= a < |m.chains| && 0 <= i < |m.chains[a]| && a != ps[p].a ==>
          m.chains[a][i] != ps[p].prev)
    && (forall q {:trigger ps[q]} :: 0 <= q < |ps| && InHand(ps[q]) ==> ps[q].node != ps[p].prev)
  }

  lemma LinkKnown(m: Mail, nodes: Nodes, ps: seq<Producer>, p: nat, q: nat)
    requires ChainInv(m, nodes) && ProducerInv(m, nodes, ps) && p < |ps| && q < |ps| && p != q && ps[p].Linking?
    requires Apart(m, ps, p)
    requires ChainInv(m, nodes.(next := nodes.next[ps[p].prev := ps[p].node]))
    ensures ProducerKnows(m, nodes.(next := nodes.next[ps[p].prev := ps[p].node]), q, ps[q])
  {
    assert ProducerKnows(m, nodes, p, ps[p]) && ProducerKnows(m, nodes, q, ps[q]);
    if ps[q].Linking? && ps[q].a == ps[p].a {
      var c := m.chains[ps[p].a];
      assert m.at[q] != m.at[p];
      assert c[m.at[q] - m.popped[ps[p].a]] != c[m.at[p] - m.popped[ps[p].a]];
    }
  }

  lemma LinkLinks(m: Mail, nodes: Nodes, ps: seq<Producer>, p: nat, pc: Producer)
    requires ChainInv(m, nodes) && LinkInv(m, nodes, ps) && p < |ps| && ps[p].Linking? && !pc.Linking?
    requires ProducerKnows(m, nodes, p, ps[p]) && Apart(m, ps, p)
    requires ChainInv(m, nodes.(next := nodes.next[ps[p].prev := ps[p].node]))
    ensures LinkInv(m, nodes.(next := nodes.next[ps[p].prev := ps[p].node]), ps[p := pc])
  {
    var Linking(b, n, prev, _) := ps[p];
    var k := m.at[p] - m.popped[b];
    var nodes', ps' := nodes.(next := nodes.next[prev := n]), ps[p := pc];
    assert m.chains[b][k] == prev && m.chains[b][k + 1] == n;
    forall a, i | 0 <= a < |m.chains| && 0 <= i < |m.chains[a]| - 1 && m.chains[a][i] !in nodes'.next
      ensures StillLinking(m, ps', m.order[a][m.popped[a] + i].sender, a, m.popped[a] + i)
    {
      assert StillLinking(m, ps, m.order[a][m.popped[a] + i].sender, a, m.popped[a] + i);
    }
    forall a, i, j | 0 <= a < |m.chains| && 0 <= i < j < i + 2 && j < |m.chains[a]| && m.chains[a][i] in nodes'.next
      ensures nodes'.next[m.chains[a][i]] == m.chains[a][j]
    {
      if m.chains[a][i] == prev {
        assert a == b;
        assert i == k;
      }
    }
  }
}
