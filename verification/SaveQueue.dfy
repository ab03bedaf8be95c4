// SaveQueue and DBWorker: 32 shards, a queue and one worker each. The worker takes a batch, then a database
// connection for it, and puts the batch back when there is none; pushes come at any time. No stop signal yet.
module SaveQueues {
  import opened Runs

  const SHARD_COUNT := 32
  const MAX_BATCH := 32

  // number counts the pushes of the whole queue; it says in which order they came.
  datatype Task = Task(player: nat, number: nat)

  // overtaken is a history variable: something was queued behind the failed batch before its last task was put back.
  datatype Worker =
    | Waiting
    | Acquiring(batch: seq<Task>)
    | Executing(rest: seq<Task>)
    | Requeueing(rest: seq<Task>, overtaken: bool)
  {
    function Held(): seq<Task> {
      match this
      case Waiting => []
      case Acquiring(batch) => batch
      case Executing(rest) => rest
      case Requeueing(rest, _) => rest
    }
  }

  // pushed and executed are history variables.
  datatype Shard = Shard(queue: seq<Task>, worker: Worker, pushed: seq<Task>, executed: seq<Task>)

  datatype State = State(shards: seq<Shard>, count: nat)

  datatype Event = Push(player: nat) | Pop(k: nat) | Acquire(k: nat, ok: bool) | Execute(k: nat) | Requeue(k: nat)

  const NEW_SHARD := Shard([], Waiting, [], [])

  function Initial(): State {
    State(seq(SHARD_COUNT, _ => NEW_SHARD), 0)
  }

  function ShardOf(player: nat): (k: nat)
    ensures k < SHARD_COUNT
  {
    player % SHARD_COUNT
  }

  function BatchSize(queue: seq<Task>, limit: nat): nat {
    if |queue| < limit then |queue| else limit
  }

  predicate Ready(shard: Shard, e: Event) {
    match e
    case Push(_) => true
    case Pop(_) => shard.worker.Waiting? && shard.queue != []
    case Acquire(_, _) => shard.worker.Acquiring?
    case Execute(_) => shard.worker.Executing?
    case Requeue(_) => shard.worker.Requeueing?
  }

  function Pushed(shard: Shard, task: Task): Shard {
    var w := shard.worker;
    shard.(queue := shard.queue + [task], pushed := shard.pushed + [task],
           worker := if w.Requeueing? && w.rest != [] then w.(overtaken := true) else w)
  }

  function ShardStep(shard: Shard, e: Event, task: Task): Shard
    requires Ready(shard, e)
  {
    match e
    case Push(_) => Pushed(shard, task)
    case Pop(_) =>
      var n := BatchSize(shard.queue, MAX_BATCH);
      shard.(queue := shard.queue[n..], worker := Acquiring(shard.queue[..n]))
    case Acquire(_, ok) =>
      var batch := shard.worker.batch;
      shard.(worker := if ok then Executing(batch) else Requeueing(batch, batch != [] && shard.queue != []))
    case Execute(_) =>
      var rest := shard.worker.rest;
      if rest == [] then shard.(worker := Waiting)
      else shard.(worker := Executing(rest[1..]), executed := shard.executed + [rest[0]])
    case Requeue(_) =>
      var rest := shard.worker.rest;
      if rest == [] then shard.(worker := Waiting)
      else shard.(worker := shard.worker.(rest := rest[1..]), queue := shard.queue + [rest[0]])
  }

  function Target(e: Event): nat {
    if e.Push? then ShardOf(e.player) else e.k
  }

  predicate Enabled(s: State, e: Event) {
    Target(e) < |s.shards| && Ready(s.shards[Target(e)], e)
  }

  function NewTask(s: State, e: Event): Task {
    Task(if e.Push? then e.player else 0, s.count)
  }

  function Step(s: State, e: Event): State
    requires Enabled(s, e)
  {
    var k := Target(e);
    State(s.shards[k := ShardStep(s.shards[k], e, NewTask(s, e))], if e.Push? then s.count + 1 else s.count)
  }

  predicate Legal(events: seq<Event>)
    decreases |events|, 0
  {
    events == [] || (Legal(Init(events)) && Enabled(Exec(Init(events)), Last(events)))
  }

  function Exec(events: seq<Event>): State
    requires Legal(events)
    decreases |events|, 1
  {
    if events == [] then Initial() else Step(Exec(Init(events)), Last(events))
  }

  // ---------------------------------------------------------------- invariant

  // The pushes of a shard: growing numbers, and only players of that shard.
  ghost predicate Routed(pushed: seq<Task>, k: nat, count: nat) {
    && (forall i {:trigger pushed[i]} :: 0 <= i < |pushed| ==>
          pushed[i].number < count && ShardOf(pushed[i].player) == k)
    && forall i, j {:trigger pushed[i], pushed[j]} :: 0 <= i < j < |pushed| ==> pushed[i].number < pushed[j].number
  }

  // Everything pushed is executed, held by the worker, or queued; once each.
  predicate Conserved(shard: Shard) {
    multiset(shard.pushed) == multiset(shard.executed) + multiset(shard.worker.Held()) + multiset(shard.queue)
  }

  predicate InOrder(shard: Shard) {
    shard.pushed == shard.executed + shard.worker.Held() + shard.queue
  }

  ghost predicate ShardInv(shard: Shard, k: nat, count: nat) {
    Routed(shard.pushed, k, count) && Conserved(shard)
  }

  ghost predicate Inv(s: State) {
    && |s.shards| == SHARD_COUNT
    && forall k {:trigger s.shards[k]} :: 0 <= k < |s.shards| ==> ShardInv(s.shards[k], k, s.count)
  }

  lemma PopConserves(shard: Shard, k: nat, task: Task)
    requires Ready(shard, Pop(k)) && Conserved(shard)
    ensures Conserved(ShardStep(shard, Pop(k), task))
  {
    var n := BatchSize(shard.queue, MAX_BATCH);
    assert shard.queue == shard.queue[..n] + shard.queue[n..];
  }

  lemma TakeConserves(shard: Shard, e: Event, task: Task)
    requires (e.Execute? || e.Requeue?) && Ready(shard, e) && Conserved(shard)
    ensures Conserved(ShardStep(shard, e, task))
  {
    var rest := shard.worker.rest;
    if rest != [] { assert rest == [rest[0]] + rest[1..]; }
  }

  lemma ShardConserves(shard: Shard, e: Event, task: Task)
    requires Ready(shard, e) && Conserved(shard)
    ensures Conserved(ShardStep(shard, e, task))
  {
    match e
    case Push(_) =>
    case Pop(k) => PopConserves(shard, k, task);
    case Acquire(_, _) =>
    case Execute(_) | Requeue(_) => TakeConserves(shard, e, task);
  }

  lemma ShardRoutes(shard: Shard, e: Event, task: Task, k: nat, count: nat)
    requires Ready(shard, e) && Routed(shard.pushed, k, count)
    requires e.Push? ==> ShardOf(task.player) == k && task.number == count
    ensures Routed(ShardStep(shard, e, task).pushed, k, if e.Push? then count + 1 else count)
  {
  }

  lemma StepKeeps(s: State, e: Event)
    requires Inv(s) && Enabled(s, e)
    ensures Inv(Step(s, e))
  {
    var s', t := Step(s, e), Target(e);
    assert ShardInv(s.shards[t], t, s.count);
    ShardConserves(s.shards[t], e, NewTask(s, e));
    ShardRoutes(s.shards[t], e, NewTask(s, e), t, s.count);
    forall k | 0 <= k < |s'.shards| ensures ShardInv(s'.shards[k], k, s'.count) {
      assert ShardInv(s.shards[k], k, s.count);
    }
  }

  lemma {:induction false} RunKeeps(events: seq<Event>)
    requires Legal(events)
    ensures Inv(Exec(events))
  {
    if events != [] {
      RunKeeps(Init(events));
      StepKeeps(Exec(Init(events)), Last(events));
    }
  }

  // ---------------------------------------------------------------- theorems

  // Over any run, failed acquires included: what was pushed to a shard is executed, held or queued, as a multiset.
  lemma NoTaskLost(events: seq<Event>, k: nat)
    requires Legal(events) && k < SHARD_COUNT
    ensures |Exec(events).shards| == SHARD_COUNT && Conserved(Exec(events).shards[k])
  {
    RunKeeps(events);
    assert ShardInv(Exec(events).shards[k], k, Exec(events).count);
  }

  // Nothing is executed twice, or in a shard that is not its player's.
  lemma ExecutedOnce(events: seq<Event>, k: nat, task: Task)
    requires Legal(events) && k < SHARD_COUNT
    ensures |Exec(events).shards| == SHARD_COUNT
    ensures var executed := Exec(events).shards[k].executed;
            multiset(executed)[task] <= 1 && (task in executed ==> task.player % 32 == k)
  {
    RunKeeps(events);
    var shard := Exec(events).shards[k];
    assert ShardInv(shard, k, Exec(events).count);
    OnceEach(shard.pushed, task);
    if task in shard.executed {
      assert task in multiset(shard.executed);
      assert task in multiset(shard.pushed);
    }
  }

  lemma {:induction false} OnceEach(tasks: seq<Task>, task: Task)
    requires forall i, j {:trigger tasks[i], tasks[j]} :: 0 <= i < j < |tasks| ==> tasks[i].number < tasks[j].number
    ensures multiset(tasks)[task] <= 1
  {
    if tasks != [] {
      var rest := tasks[1..];
      assert tasks == [tasks[0]] + rest;
      OnceEach(rest, task);
      assert forall i :: 0 <= i < |rest| ==> rest[i] == tasks[i + 1];
    }
  }

  // ---------------------------------------------------------------- order

  ghost predicate Rising(tasks: seq<Task>) {
    forall i, j {:trigger tasks[i], tasks[j]} :: 0 <= i < j < |tasks| ==> tasks[i].number < tasks[j].number
  }

  ghost predicate Inverted(tasks: seq<Task>) {
    exists i, j {:trigger tasks[i], tasks[j]} :: 0 <= i < j < |tasks| && tasks[i].number > tasks[j].number
  }

  // Some queued task is younger than t.
  ghost predicate Ahead(queue: seq<Task>, t: Task) {
    exists i {:trigger queue[i]} :: 0 <= i < |queue| && queue[i].number > t.number
  }

  // Where the order of a shard stands, if it was kept up to its last failed acquire.
  ghost predicate OrderInv(shard: Shard) {
    shard.executed <= shard.pushed
    && match shard.worker
       case Requeueing(rest, overtaken) =>
         if !overtaken then shard.pushed == shard.executed + shard.queue + rest
         else if rest != [] then Ahead(shard.queue, rest[|rest| - 1])
         else Inverted(shard.queue)
       case _ => InOrder(shard)
  }

  // Not in the middle of putting a batch back.
  predicate Tidy(shard: Shard) {
    shard.worker.Requeueing? ==> shard.worker.rest == []
  }

  // A failed batch is back and something got before it.
  predicate Overtaken(shard: Shard) {
    shard.worker == Requeueing([], true)
  }

  // A new task is younger than all others.
  lemma PushIsYoungest(shard: Shard, t: Task, k: nat, count: nat)
    requires Routed(shard.pushed, k, count) && Conserved(shard) && t in shard.worker.Held()
    ensures t.number < count
  {
    assert t in multiset(shard.worker.Held());
    assert t in multiset(shard.pushed);
  }

  lemma PushAhead(queue: seq<Task>, task: Task, t: Task)
    requires Ahead(queue, t) || task.number > t.number
    ensures Ahead(queue + [task], t)
  {
    var longer := queue + [task];
    assert longer[|queue|] == task;
    if Ahead(queue, t) {
      var i :| 0 <= i < |queue| && queue[i].number > t.number;
      assert longer[i] == queue[i];
    }
  }

  lemma PushInverted(queue: seq<Task>, task: Task)
    requires Inverted(queue)
    ensures Inverted(queue + [task])
  {
    var i, j :| 0 <= i < j < |queue| && queue[i].number > queue[j].number;
    assert (queue + [task])[i] == queue[i] && (queue + [task])[j] == queue[j];
  }

  lemma PushKeepsOrder(shard: Shard, task: Task, k: nat, count: nat)
    requires OrderInv(shard) && Routed(shard.pushed, k, count) && task.number == count
    requires Conserved(shard)
    ensures OrderInv(Pushed(shard, task))
  {
    assert shard.executed <= shard.pushed + [task];
    if shard.worker.Requeueing? {
      var rest := shard.worker.rest;
      if rest != [] {
        PushIsYoungest(shard, rest[|rest| - 1], k, count);
        PushAhead(shard.queue, task, rest[|rest| - 1]);
      } else if shard.worker.overtaken {
        PushInverted(shard.queue, task);
      }
    }
  }

  lemma FailKeepsOrder(shard: Shard, j: nat, task: Task)
    requires OrderInv(shard) && Rising(shard.pushed) && shard.worker.Acquiring?
    ensures OrderInv(ShardStep(shard, Acquire(j, false), task))
  {
    var batch, queue, n := shard.worker.batch, shard.queue, |shard.executed|;
    if batch != [] && queue != [] {
      assert shard.pushed[n + |batch| - 1] == batch[|batch| - 1];
      assert shard.pushed[n + |batch|] == queue[0];
    } else {
      assert batch + queue == queue + batch;
      assert shard.executed + batch + queue == shard.executed + queue + batch;
    }
  }

  lemma RequeueKeepsOrder(shard: Shard, j: nat, task: Task)
    requires OrderInv(shard) && shard.worker.Requeueing? && !Overtaken(shard)
    ensures OrderInv(ShardStep(shard, Requeue(j), task))
  {
    var Requeueing(rest, overtaken) := shard.worker;
    if rest != [] {
      var queue := shard.queue + [rest[0]];
      assert rest == [rest[0]] + rest[1..];
      if overtaken {
        var i :| 0 <= i < |shard.queue| && shard.queue[i].number > rest[|rest| - 1].number;
        assert queue[i] == shard.queue[i] && queue[|shard.queue|] == rest[0];
      } else {
        assert shard.executed + shard.queue + rest == shard.executed + queue + rest[1..];
      }
    }
  }

  lemma TakeKeepsOrder(shard: Shard, e: Event, task: Task)
    requires OrderInv(shard) && Ready(shard, e) && (e.Pop? || e.Execute? || (e.Acquire? && e.ok))
    ensures OrderInv(ShardStep(shard, e, task))
  {
    match e {
      case Pop(_) =>
        var n := BatchSize(shard.queue, MAX_BATCH);
        assert shard.queue == shard.queue[..n] + shard.queue[n..];
      case Acquire(_, _) =>
      case Execute(_) =>
        var rest := shard.worker.rest;
        if rest != [] { assert rest == [rest[0]] + rest[1..]; }
    }
  }

  lemma ShardKeepsOrder(shard: Shard, e: Event, task: Task, k: nat, count: nat)
    requires Ready(shard, e) && OrderInv(shard) && !Overtaken(shard) && ShardInv(shard, k, count)
    requires e.Push? ==> task.number == count
    ensures OrderInv(ShardStep(shard, e, task))
  {
    match e
    case Push(_) => PushKeepsOrder(shard, task, k, count);
    case Acquire(j, ok) => if ok { TakeKeepsOrder(shard, e, task); } else { FailKeepsOrder(shard, j, task); }
    case Requeue(j) => RequeueKeepsOrder(shard, j, task);
    case _ => TakeKeepsOrder(shard, e, task);
  }

  function ShardAt(events: seq<Event>, k: nat): Shard
    requires Legal(events)
  {
    if k < |Exec(events).shards| then Exec(events).shards[k] else NEW_SHARD
  }

  // Whenever the worker is not in the middle of putting a batch back, the shard is in push order.
  predicate AlwaysInOrder(events: seq<Event>, k: nat)
    requires Legal(events)
  {
    && (Tidy(ShardAt(events, k)) ==> InOrder(ShardAt(events, k)))
    && (events == [] || AlwaysInOrder(Init(events), k))
  }

  predicate NeverOvertaken(events: seq<Event>, k: nat)
    requires Legal(events)
  {
    !Overtaken(ShardAt(events, k)) && (events == [] || NeverOvertaken(Init(events), k))
  }

  lemma StepKeepsOrder(events: seq<Event>, k: nat)
    requires Legal(events) && events != [] && k < SHARD_COUNT
    requires OrderInv(ShardAt(Init(events), k)) && !Overtaken(ShardAt(Init(events), k))
    ensures OrderInv(ShardAt(events, k))
  {
    var s, e := Exec(Init(events)), Last(events);
    RunKeeps(Init(events));
    assert ShardInv(s.shards[k], k, s.count);
    if Target(e) == k { ShardKeepsOrder(s.shards[k], e, NewTask(s, e), k, s.count); }
  }

  lemma {:induction false} OrderWhile(events: seq<Event>, k: nat)
    requires Legal(events) && k < SHARD_COUNT && (events == [] || NeverOvertaken(Init(events), k))
    ensures OrderInv(ShardAt(events, k))
  {
    if events != [] {
      OrderWhile(Init(events), k);
      StepKeepsOrder(events, k);
    }
  }

  lemma QueueIsRising(shard: Shard)
    requires Rising(shard.pushed) && shard.worker.Held() == [] && InOrder(shard)
    ensures Rising(shard.queue)
  {
    var n := |shard.executed|;
    assert forall i :: 0 <= i < |shard.queue| ==> shard.queue[i] == shard.pushed[n + i];
  }

  // A shard keeps the push order throughout a run if and only if no failed batch is overtaken: nothing is queued
  // behind it when its acquire fails, and nothing is pushed to the shard before its last task is back.
  lemma {:induction false} OrderKeptExactly(events: seq<Event>, k: nat)
    requires Legal(events) && k < SHARD_COUNT
    ensures AlwaysInOrder(events, k) <==> NeverOvertaken(events, k)
  {
    if events != [] { OrderKeptExactly(Init(events), k); }
    if events == [] || NeverOvertaken(Init(events), k) {
      OrderWhile(events, k);
      RunKeeps(events);
      var shard := ShardAt(events, k);
      assert ShardInv(shard, k, Exec(events).count);
      if Overtaken(shard) && InOrder(shard) { QueueIsRising(shard); }
    }
  }

  // Then a shard is first in, first out end to end, so a player's saves run in push order.
  lemma FirstInFirstOut(events: seq<Event>, k: nat)
    requires Legal(events) && k < SHARD_COUNT && (events == [] || NeverOvertaken(Init(events), k))
    ensures var shard := ShardAt(events, k); shard.executed <= shard.pushed && Rising(shard.executed)
  {
    OrderWhile(events, k);
    RunKeeps(events);
    assert ShardInv(ShardAt(events, k), k, Exec(events).count);
    assert forall i :: 0 <= i < |ShardAt(events, k).executed| ==>
             ShardAt(events, k).executed[i] == ShardAt(events, k).pushed[i];
  }

  lemma Then(events: seq<Event>, e: Event)
    requires Legal(events) && Enabled(Exec(events), e)
    ensures Legal(events + [e]) && Exec(events + [e]) == Step(Exec(events), e)
  {
    assert Init(events + [e]) == events;
  }

  // One save waits, its acquire fails, another is pushed before it is back: the later one will run first.
  lemma LatePushOvertakes(player: nat) returns (events: seq<Event>)
    ensures Legal(events) && ShardOf(player) < SHARD_COUNT
    ensures var shard := ShardAt(events, ShardOf(player));
            |shard.pushed| == 2 && shard.queue == [shard.pushed[1], shard.pushed[0]] && !InOrder(shard)
  {
    var k := ShardOf(player);
    Then([], Push(player));
    var pushed := [] + [Push(player)];
    assert Exec(pushed).shards[k].queue == [Task(player, 0)];
    Then(pushed, Pop(k));
    var popped := pushed + [Pop(k)];
    assert Exec(popped).shards[k].worker == Acquiring([Task(player, 0)]);
    Then(popped, Acquire(k, false));
    var failed := popped + [Acquire(k, false)];
    assert Exec(failed).shards[k].worker.Requeueing? && Exec(failed).shards[k].queue == [];
    Then(failed, Push(player));
    var late := failed + [Push(player)];
    assert Exec(late).shards[k].queue == [Task(player, 1)] && Exec(late).shards[k].worker.rest == [Task(player, 0)];
    Then(late, Requeue(k));
    events := late + [Requeue(k)];
    assert ShardAt(events, k).queue == [Task(player, 1), Task(player, 0)];
    assert ShardAt(events, k).pushed == [Task(player, 0), Task(player, 1)];
  }

  // A pop takes the whole queue of a shard up to 32 tasks, from a longer one its first 32.
  lemma PopTakesExactly(s: State, k: nat)
    requires Enabled(s, Pop(k))
    ensures var queue, shard := s.shards[k].queue, Step(s, Pop(k)).shards[k];
            && shard.worker.Acquiring? && shard.worker.batch + shard.queue == queue
            && |shard.worker.batch| == if |queue| > 32 then 32 else |queue|
  {
  }

  // A worker with a connection that is left alone runs the rest of its batch in order, and then waits again.
  lemma {:induction false} BatchFinishes(events: seq<Event>, k: nat) returns (more: seq<Event>)
    requires Legal(events) && k < |Exec(events).shards| && Exec(events).shards[k].worker.Executing?
    ensures Legal(more)
    ensures var s, shard := Exec(events), Exec(events).shards[k];
            var executed := shard.executed + shard.worker.rest;
            Exec(more) == State(s.shards[k := shard.(worker := Waiting, executed := executed)], s.count)
    decreases |Exec(events).shards[k].worker.rest|
  {
    var s, shard := Exec(events), Exec(events).shards[k];
    Then(events, Execute(k));
    more := events + [Execute(k)];
    if shard.worker.rest == [] {
      assert shard.executed + shard.worker.rest == shard.executed;
    } else {
      more := BatchFinishes(more, k);
      assert [shard.worker.rest[0]] + shard.worker.rest[1..] == shard.worker.rest;
      assert shard.executed + [shard.worker.rest[0]] + shard.worker.rest[1..] == shard.executed + shard.worker.rest;
    }
  }

  // One without puts the rest back behind what is queued, and then waits again.
  lemma {:induction false} RequeueFinishes(events: seq<Event>, k: nat) returns (more: seq<Event>)
    requires Legal(events) && k < |Exec(events).shards| && Exec(events).shards[k].worker.Requeueing?
    ensures Legal(more)
    ensures var s, shard := Exec(events), Exec(events).shards[k];
            var queue := shard.queue + shard.worker.rest;
            Exec(more) == State(s.shards[k := shard.(worker := Waiting, queue := queue)], s.count)
    decreases |Exec(events).shards[k].worker.rest|
  {
    var s, shard := Exec(events), Exec(events).shards[k];
    Then(events, Requeue(k));
    more := events + [Requeue(k)];
    if shard.worker.rest == [] {
      assert shard.queue + shard.worker.rest == shard.queue;
    } else {
      more := RequeueFinishes(more, k);
      assert shard.queue + [shard.worker.rest[0]] + shard.worker.rest[1..] == shard.queue + shard.worker.rest;
    }
  }

  // ---------------------------------------------------------------- one player

  // The tasks of one player among others.
  function Of(tasks: seq<Task>, player: nat): seq<Task> {
    if tasks == [] then [] else Mine(tasks[0], player) + Of(tasks[1..], player)
  }

  function Mine(task: Task, player: nat): seq<Task> {
    if task.player == player then [task] else []
  }

  lemma {:induction false} OfAppend(a: seq<Task>, b: seq<Task>, player: nat)
    ensures Of(a + b, player) == Of(a, player) + Of(b, player)
  {
    if a == [] {
      assert a + b == b;
    } else {
      assert (a + b)[1..] == a[1..] + b;
      OfAppend(a[1..], b, player);
      var mine, left, right := Mine(a[0], player), Of(a[1..], player), Of(b, player);
      assert mine + (left + right) == mine + left + right;
    }
  }

  lemma OfSplit(tasks: seq<Task>, n: nat, player: nat)
    requires n <= |tasks|
    ensures Of(tasks, player) == Of(tasks[..n], player) + Of(tasks[n..], player)
  {
    assert tasks == tasks[..n] + tasks[n..];
    OfAppend(tasks[..n], tasks[n..], player);
  }

  // The tasks of the player that are pushed and not executed.
  function Open(shard: Shard, player: nat): seq<Task> {
    Of(shard.worker.Held(), player) + Of(shard.queue, player)
  }

  predicate PlayerInOrder(shard: Shard, player: nat) {
    |Open(shard, player)| <= 1 && Of(shard.pushed, player) == Of(shard.executed, player) + Open(shard, player)
  }

  // The player never has two tasks open, which is what the saving bit of a player object provides.
  predicate OneAtATime(events: seq<Event>, player: nat)
    requires Legal(events)
  {
    events == []
    || (OneAtATime(Init(events), player)
        && (Last(events) == Push(player) ==> Open(Exec(Init(events)).shards[Target(Last(events))], player) == []))
  }

  lemma AppendLast(done: seq<Task>, held: seq<Task>, queued: seq<Task>, mine: seq<Task>)
    ensures done + (held + queued) + mine == done + (held + (queued + mine))
    ensures |held + (queued + mine)| == |held + queued| + |mine|
  {
  }

  lemma PushKeepsPlayer(shard: Shard, e: Event, task: Task, player: nat)
    requires e.Push? && PlayerInOrder(shard, player) && (task.player == player ==> Open(shard, player) == [])
    ensures PlayerInOrder(ShardStep(shard, e, task), player)
  {
    OfAppend(shard.queue, [task], player);
    OfAppend(shard.pushed, [task], player);
    assert Of([task], player) == Mine(task, player);
    assert Pushed(shard, task).worker.Held() == shard.worker.Held();
    AppendLast(Of(shard.executed, player), Of(shard.worker.Held(), player), Of(shard.queue, player),
               Mine(task, player));
  }

  lemma PopKeepsPlayer(shard: Shard, k: nat, task: Task, player: nat)
    requires Ready(shard, Pop(k)) && PlayerInOrder(shard, player)
    ensures PlayerInOrder(ShardStep(shard, Pop(k), task), player)
  {
    OfSplit(shard.queue, BatchSize(shard.queue, MAX_BATCH), player);
  }

  lemma Regroup(done: seq<Task>, first: seq<Task>, left: seq<Task>, queued: seq<Task>)
    ensures done + (first + left + queued) == done + first + (left + queued)
  {
  }

  // With at most one task in all, it does not matter where it goes.
  lemma Rotate(first: seq<Task>, left: seq<Task>, queued: seq<Task>)
    requires |first + left + queued| <= 1
    ensures first + left + queued == left + (queued + first)
  {
    if first != [] { assert left == [] && queued == []; }
  }

  lemma ExecuteKeepsPlayer(shard: Shard, k: nat, task: Task, player: nat)
    requires Ready(shard, Execute(k)) && PlayerInOrder(shard, player)
    ensures PlayerInOrder(ShardStep(shard, Execute(k), task), player)
  {
    var rest := shard.worker.rest;
    if rest != [] {
      OfAppend(shard.executed, [rest[0]], player);
      Regroup(Of(shard.executed, player), Mine(rest[0], player), Of(rest[1..], player), Of(shard.queue, player));
      assert Of([rest[0]], player) == Mine(rest[0], player);
    }
  }

  lemma RequeueKeepsPlayer(shard: Shard, k: nat, task: Task, player: nat)
    requires Ready(shard, Requeue(k)) && PlayerInOrder(shard, player)
    ensures PlayerInOrder(ShardStep(shard, Requeue(k), task), player)
  {
    var rest := shard.worker.rest;
    if rest != [] {
      OfAppend(shard.queue, [rest[0]], player);
      assert Of([rest[0]], player) == Mine(rest[0], player);
      Rotate(Mine(rest[0], player), Of(rest[1..], player), Of(shard.queue, player));
    }
  }

  lemma ShardKeepsPlayer(shard: Shard, e: Event, task: Task, player: nat)
    requires Ready(shard, e) && PlayerInOrder(shard, player)
    requires e.Push? && task.player == player ==> Open(shard, player) == []
    ensures PlayerInOrder(ShardStep(shard, e, task), player)
  {
    match e
    case Push(_) => PushKeepsPlayer(shard, e, task, player);
    case Pop(k) => PopKeepsPlayer(shard, k, task, player);
    case Acquire(_, _) =>
    case Execute(k) => ExecuteKeepsPlayer(shard, k, task, player);
    case Requeue(k) => RequeueKeepsPlayer(shard, k, task, player);
  }

  // A player with one save open at a time has them executed in push order, however many acquires fail and
  // whatever they do to the order of the shard.
  lemma {:induction false} PlayerOrderKept(events: seq<Event>, player: nat)
    requires Legal(events) && OneAtATime(events, player)
    ensures |Exec(events).shards| == SHARD_COUNT
    ensures var shard := Exec(events).shards[ShardOf(player)];
            Of(shard.pushed, player) == Of(shard.executed, player) + Open(shard, player) && |Open(shard, player)| <= 1
  {
    if events != [] {
      var e, s, k := Last(events), Exec(Init(events)), ShardOf(player);
      PlayerOrderKept(Init(events), player);
      if Target(e) == k { ShardKeepsPlayer(s.shards[k], e, NewTask(s, e), player); }
    }
  }

  // ---------------------------------------------------------------- the classes

  class SaveQueue {
    var shards: seq<seq<Task>>

    ghost predicate Valid()
      reads this
    {
      |shards| == SHARD_COUNT
    }

    constructor ()
      ensures Valid() && shards == seq(SHARD_COUNT, _ => [])
    {
      var built: seq<seq<Task>> := [];
      for i := 0 to SHARD_COUNT
        invariant built == seq(i, _ => [])
      {
        built := built + [[]];
      }
      shards := built;
    }

    method Push(task: Task)
      requires Valid()
      modifies this
      ensures Valid() && shards == old(shards)[task.player % 32 := old(shards[task.player % 32]) + [task]]
    {
      var shard := task.player % SHARD_COUNT;
      shards := shards[shard := shards[shard] + [task]];
    }

    // An index out of range drops what was pushed.
    method PushToShard(shardIndex: nat, task: Task)
      requires Valid()
      modifies this
      ensures Valid()
      ensures shards == if shardIndex >= SHARD_COUNT then old(shards)
                        else old(shards)[shardIndex := old(shards)[shardIndex] + [task]]
    {
      if shardIndex >= SHARD_COUNT {
        return;
      }
      shards := shards[shardIndex := shards[shardIndex] + [task]];
    }

    // The wait for a task ends only on a queue that has one.
    method PopBatch(shardIndex: nat, maxBatchSize: nat) returns (tasks: seq<Task>)
      requires Valid() && shardIndex < SHARD_COUNT && (maxBatchSize > 0 ==> shards[shardIndex] != [])
      modifies this
      ensures Valid() && |tasks| <= maxBatchSize && (maxBatchSize > 0 ==> tasks != [])
      ensures |tasks| == BatchSize(old(shards)[shardIndex], maxBatchSize)
      ensures tasks + shards[shardIndex] == old(shards)[shardIndex]
      ensures shards == old(shards)[shardIndex := shards[shardIndex]]
      ensures |old(shards)[shardIndex]| > maxBatchSize ==> |tasks| == maxBatchSize
      ensures |old(shards)[shardIndex]| <= maxBatchSize ==> shards[shardIndex] == []
    {
      tasks := [];
      if maxBatchSize == 0 {
        return;
      }
      while shards[shardIndex] != [] && |tasks| < maxBatchSize
        invariant Valid() && |tasks| <= maxBatchSize
        invariant tasks + shards[shardIndex] == old(shards)[shardIndex]
        invariant shards == old(shards)[shardIndex := shards[shardIndex]]
        decreases |shards[shardIndex]|
      {
        var front := shards[shardIndex][0];
        tasks := tasks + [front];
        shards := shards[shardIndex := shards[shardIndex][1..]];
      }
    }
  }

  class DBWorker {
    const shardIndex: nat
    var executed: seq<Task>

    constructor (k: nat)
      ensures shardIndex == k && executed == []
    {
      shardIndex, executed := k, [];
    }

    // One round of the worker loop. A batch is executed in order, or goes behind what is queued; late[i] is what
    // others push to the shard before task i of a failed batch is put back.
    method RunOnce(queue: SaveQueue, acquired: bool, late: seq<seq<Task>>)
      requires queue.Valid() && shardIndex < SHARD_COUNT && queue.shards[shardIndex] != []
      requires |late| == BatchSize(queue.shards[shardIndex], MAX_BATCH)
      modifies this, queue
      ensures queue.Valid()
      ensures var before := old(queue.shards[shardIndex]); var n := BatchSize(before, MAX_BATCH);
              && queue.shards == old(queue.shards)[shardIndex :=
                   before[n..] + if acquired then [] else Mixed(late, before[..n])]
              && executed == old(executed) + if acquired then before[..n] else []
      ensures acquired ==> |executed| == |old(executed)| + if |old(queue.shards[shardIndex])| > 32 then 32
                                                           else |old(queue.shards[shardIndex])|
    {
      var tasks := queue.PopBatch(shardIndex, MAX_BATCH);
      ghost var left := queue.shards[shardIndex];
      ghost var before := old(queue.shards[shardIndex]);
      assert before[..|tasks|] == tasks && before[|tasks|..] == left;
      if !acquired {
        PutBack(queue, tasks, late);
        return;
      }
      for i := 0 to |tasks|
        invariant executed == old(executed) + tasks[..i]
        invariant queue.Valid() && queue.shards == old(queue.shards)[shardIndex := left]
      {
        executed := executed + [tasks[i]];
        assert old(executed) + tasks[..i] + [tasks[i]] == old(executed) + tasks[..i + 1];
      }
      assert tasks[..|tasks|] == tasks && left + [] == left;
    }

    method PutBack(queue: SaveQueue, tasks: seq<Task>, late: seq<seq<Task>>)
      requires queue.Valid() && shardIndex < SHARD_COUNT && |late| == |tasks|
      modifies queue
      ensures queue.Valid()
      ensures queue.shards == old(queue.shards)[shardIndex := old(queue.shards)[shardIndex] + Mixed(late, tasks)]
    {
      ghost var left := queue.shards[shardIndex];
      assert left + Mixed([], []) == left;
      for i := 0 to |tasks|
        invariant queue.Valid()
        invariant queue.shards == old(queue.shards)[shardIndex := left + Mixed(late[..i], tasks[..i])]
      {
        ghost var sofar := queue.shards[shardIndex];
        PushAll(queue, late[i]);
        queue.PushToShard(shardIndex, tasks[i]);
        MixedNext(late, tasks, i);
        assert sofar + late[i] + [tasks[i]] == left + (Mixed(late[..i], tasks[..i]) + late[i] + [tasks[i]]);
      }
      assert late[..|tasks|] == late && tasks[..|tasks|] == tasks;
    }

    method PushAll(queue: SaveQueue, tasks: seq<Task>)
      requires queue.Valid() && shardIndex < SHARD_COUNT
      modifies queue
      ensures queue.Valid()
      ensures queue.shards == old(queue.shards)[shardIndex := old(queue.shards)[shardIndex] + tasks]
    {
      ghost var left := queue.shards[shardIndex];
      assert left + tasks[..0] == left;
      for i := 0 to |tasks|
        invariant queue.Valid() && queue.shards == old(queue.shards)[shardIndex := left + tasks[..i]]
      {
        queue.PushToShard(shardIndex, tasks[i]);
        assert left + tasks[..i] + [tasks[i]] == left + tasks[..i + 1];
      }
      assert tasks[..|tasks|] == tasks;
    }
  }

  // Each task behind those that came before it.
  function Mixed(late: seq<seq<Task>>, tasks: seq<Task>): seq<Task>
    requires |late| == |tasks|
  {
    if tasks == [] then [] else Mixed(Init(late), Init(tasks)) + Last(late) + [Last(tasks)]
  }

  lemma MixedNext(late: seq<seq<Task>>, tasks: seq<Task>, i: nat)
    requires i < |late| == |tasks|
    ensures Mixed(late[..i + 1], tasks[..i + 1]) == Mixed(late[..i], tasks[..i]) + late[i] + [tasks[i]]
  {
    assert Init(late[..i + 1]) == late[..i] && Init(tasks[..i + 1]) == tasks[..i];
  }

  lemma {:induction false} MixedAlone(late: seq<seq<Task>>, tasks: seq<Task>)
    requires |late| == |tasks| && forall i :: 0 <= i < |late| ==> late[i] == []
    ensures Mixed(late, tasks) == tasks
  {
    if tasks != [] {
      MixedAlone(Init(late), Init(tasks));
      assert tasks == Init(tasks) + [Last(tasks)];
    }
  }

  // With nothing pushed in between, a failed round keeps the order exactly when nothing is queued behind the
  // batch, that is when at most MAX_BATCH tasks are waiting.
  lemma RotationKeepsOrderExactly(before: seq<Task>, late: seq<seq<Task>>)
    requires Rising(before) && |late| == BatchSize(before, MAX_BATCH) && forall i :: 0 <= i < |late| ==> late[i] == []
    ensures var n := BatchSize(before, MAX_BATCH);
            before[n..] + Mixed(late, before[..n]) == before <==> |before| <= MAX_BATCH
  {
    var n := BatchSize(before, MAX_BATCH);
    MixedAlone(late, before[..n]);
    if |before| > MAX_BATCH {
      assert (before[n..] + before[..n])[0] == before[n] && before[0].number < before[n].number;
    }
  }
}
