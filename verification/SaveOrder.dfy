// The pipeline of one player object and the sharded queue together. The pipeline's push is a push to the shard of
// its player, and the worker of that shard takes the save when it executes it. The saving bit then keeps a player
// from having two saves open, which is what keeps them in order.
module SaveOrder {
  import opened Runs
  import P = SavePipeline
  import S = SaveSafety
  import T = SaveInvariant
  import Q = SaveQueues

  datatype State = State(player: nat, pipe: P.State, queue: Q.State)

  datatype Event = Inside(p: P.Event) | Around(q: Q.Event) | PushSave(i: nat) | RunSave

  function Home(s: State): nat {
    Q.ShardOf(s.player)
  }

  // The worker of the player's shard has a save of the player next.
  predicate PlayerNext(s: State) {
    && Home(s) < |s.queue.shards|
    && var w := s.queue.shards[Home(s)].worker; w.Executing? && w.rest != [] && w.rest[0].player == s.player
  }

  predicate Pushes(s: State, e: P.Event) {
    e.Submit? && e.i < |s.pipe.savers| && s.pipe.savers[e.i].Holding? && s.pipe.savers[e.i].flags != {}
  }

  predicate Enabled(s: State, e: Event) {
    match e
    case Inside(p) => P.Enabled(s.pipe, p) && !p.Pop? && !Pushes(s, p)
    case Around(q) => Q.Enabled(s.queue, q) && q != Q.Push(s.player) && (q == Q.Execute(Home(s)) ==> !PlayerNext(s))
    case PushSave(i) => Pushes(s, P.Submit(i)) && Q.Enabled(s.queue, Q.Push(s.player))
    case RunSave => P.Enabled(s.pipe, P.Pop) && PlayerNext(s)
  }

  // The parts of an event.
  function InPipe(s: State, e: Event): seq<P.Event> {
    match e
    case Inside(p) => [p]
    case Around(_) => []
    case PushSave(i) => [P.Submit(i)]
    case RunSave => [P.Pop]
  }

  function InQueue(s: State, e: Event): seq<Q.Event> {
    match e
    case Inside(_) => []
    case Around(q) => [q]
    case PushSave(_) => [Q.Push(s.player)]
    case RunSave => [Q.Execute(Home(s))]
  }

  function Step(s: State, e: Event): State
    requires Enabled(s, e)
  {
    var ps, qs := InPipe(s, e), InQueue(s, e);
    State(s.player, if ps == [] then s.pipe else P.Step(s.pipe, ps[0]),
          if qs == [] then s.queue else Q.Step(s.queue, qs[0]))
  }

  predicate Initial(s: State) {
    P.Initial(s.pipe) && s.queue == Q.Initial()
  }

  predicate Legal(s: State, events: seq<Event>)
    decreases |events|, 0
  {
    events == [] || (Legal(s, Init(events)) && Enabled(Exec(s, Init(events)), Last(events)))
  }

  function Exec(s: State, events: seq<Event>): State
    requires Legal(s, events)
    decreases |events|, 1
  {
    if events == [] then s else Step(Exec(s, Init(events)), Last(events))
  }

  function QueueRun(s: State, events: seq<Event>): seq<Q.Event>
    requires Legal(s, events)
  {
    if events == [] then [] else QueueRun(s, Init(events)) + InQueue(Exec(s, Init(events)), Last(events))
  }

  // ---------------------------------------------------------------- what is open

  // As many saves of the player are open in the shard as the pipeline has queued.
  ghost predicate Inv(s: State) {
    && T.TokenInv(s.pipe)
    && |s.queue.shards| == Q.SHARD_COUNT
    && |Q.Open(s.queue.shards[Home(s)], s.player)| == |s.pipe.queue|
  }

  lemma PushOpens(shard: Q.Shard, task: Q.Task, player: nat)
    ensures |Q.Open(Q.Pushed(shard, task), player)| == |Q.Open(shard, player)| + if task.player == player then 1 else 0
  {
    Q.OfAppend(shard.queue, [task], player);
    assert Q.Of([task], player) == Q.Mine(task, player);
    assert Q.Pushed(shard, task).worker.Held() == shard.worker.Held();
  }

  lemma TakeOpens(shard: Q.Shard, e: Q.Event, task: Q.Task, player: nat)
    requires Q.Ready(shard, e) && !e.Push?
    ensures var w := shard.worker;
            |Q.Open(Q.ShardStep(shard, e, task), player)|
            == |Q.Open(shard, player)| - if e.Execute? && w.rest != [] && w.rest[0].player == player then 1 else 0
  {
    match e
    case Pop(_) => Q.OfSplit(shard.queue, Q.BatchSize(shard.queue, Q.MAX_BATCH), player);
    case Acquire(_, _) =>
    case Execute(_) =>
    case Requeue(_) =>
      var rest := shard.worker.rest;
      if rest != [] {
        Q.OfAppend(shard.queue, [rest[0]], player);
        assert Q.Of([rest[0]], player) == Q.Mine(rest[0], player);
      }
  }

  lemma AroundKeeps(s: State, q: Q.Event)
    requires Inv(s) && Enabled(s, Around(q))
    ensures Inv(Step(s, Around(q)))
  {
    var k := Q.Target(q);
    if k == Home(s) {
      if q.Push? {
        PushOpens(s.queue.shards[k], Q.NewTask(s.queue, q), s.player);
      } else {
        TakeOpens(s.queue.shards[k], q, Q.NewTask(s.queue, q), s.player);
      }
    }
  }

  lemma InsideKeepsQueue(p: P.State, e: P.Event)
    requires P.Enabled(p, e) && !e.Pop? && !(e.Submit? && p.savers[e.i].flags != {})
    ensures P.Step(p, e).queue == p.queue
  {
  }

  lemma StepKeeps(s: State, e: Event)
    requires Inv(s) && Enabled(s, e)
    ensures Inv(Step(s, e)) && Step(s, e).player == s.player
  {
    match e
    case Inside(p) =>
      T.StepKeepsToken(s.pipe, p);
      InsideKeepsQueue(s.pipe, p);
    case Around(q) => AroundKeeps(s, q);
    case PushSave(i) => PushSaveKeeps(s, i);
    case RunSave => RunSaveKeeps(s);
  }

  lemma PushSaveKeeps(s: State, i: nat)
    requires Inv(s) && Enabled(s, PushSave(i))
    ensures Inv(Step(s, PushSave(i))) && |s.pipe.queue| == 0
  {
    T.StepKeepsToken(s.pipe, P.Submit(i));
    PushOpens(s.queue.shards[Home(s)], Q.NewTask(s.queue, Q.Push(s.player)), s.player);
  }

  lemma RunSaveKeeps(s: State)
    requires Inv(s) && Enabled(s, RunSave)
    ensures Inv(Step(s, RunSave))
  {
    T.StepKeepsToken(s.pipe, P.Pop);
    TakeOpens(s.queue.shards[Home(s)], Q.Execute(Home(s)), Q.NewTask(s.queue, Q.Execute(Home(s))), s.player);
  }

  lemma InitialHolds(s: State)
    requires Initial(s)
    ensures Inv(s)
  {
  }

  lemma {:induction false} RunKeeps(s: State, events: seq<Event>)
    requires Initial(s) && Legal(s, events)
    ensures Inv(Exec(s, events)) && Exec(s, events).player == s.player
    ensures Q.Legal(QueueRun(s, events)) && Q.Exec(QueueRun(s, events)) == Exec(s, events).queue
    ensures Q.OneAtATime(QueueRun(s, events), s.player)
  {
    if events == [] {
      InitialHolds(s);
    } else {
      var before, e := Exec(s, Init(events)), Last(events);
      RunKeeps(s, Init(events));
      StepKeeps(before, e);
      QueueStep(QueueRun(s, Init(events)), before, e);
    }
  }

  lemma QueueStep(run: seq<Q.Event>, s: State, e: Event)
    requires Q.Legal(run) && Q.Exec(run) == s.queue && Q.OneAtATime(run, s.player) && Inv(s) && Enabled(s, e)
    ensures var longer := run + InQueue(s, e);
            Q.Legal(longer) && Q.Exec(longer) == Step(s, e).queue && Q.OneAtATime(longer, s.player)
  {
    var qs := InQueue(s, e);
    if qs == [] {
      assert run + qs == run;
    } else {
      Q.Then(run, qs[0]);
      assert Init(run + [qs[0]]) == run && Last(run + [qs[0]]) == qs[0];
      if e.PushSave? { PushSaveKeeps(s, e.i); }
    }
  }

  // The saves of a player object are executed in the order in which they were pushed, whatever other players push
  // and however many acquires fail.
  lemma SavesInOrder(s: State, events: seq<Event>)
    requires Initial(s) && Legal(s, events)
    ensures |Exec(s, events).queue.shards| == Q.SHARD_COUNT
    ensures var shard := Exec(s, events).queue.shards[Q.ShardOf(s.player)];
            && Q.Of(shard.executed, s.player) <= Q.Of(shard.pushed, s.player)
            && |Q.Of(shard.pushed, s.player)| == |Q.Of(shard.executed, s.player)| + |Exec(s, events).pipe.queue|
  {
    RunKeeps(s, events);
    Q.PlayerOrderKept(QueueRun(s, events), s.player);
  }
}
