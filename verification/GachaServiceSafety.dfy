// What the draw requests keep over every run: at most one paid draw per trace and fault, replies that carry it,
// and a balance of currency and items that never changes.
module GachaServiceSafety {
  import opened Counting
  import opened Runs
  import opened Wallets
  import opened Wrappers
  import opened GachaServices

  // ---------------------------------------------------------------- steps

  lemma EntryElsewhere(s: State, r: nat, x: Local, t: string)
    requires r < |s.requests|
    ensures var s' := Merge(s, r, x);
            && EntryAt(s'.redis, t) == (if t == x.q.trace then x.entry else EntryAt(s.redis, t))
            && s'.faults[t] == s.faults[t] + if x.fault && t == x.q.trace then 1 else 0
  {
  }

  lemma StepKeepsClaim(s: State, e: Event, t: string)
    requires RequestsInv(s) && Enabled(s, e) && !e.Expire? && t != "" && ClaimAt(s, t)
    ensures ClaimAt(Step(s, e), t)
  {
    var x := LocalOf(s, e.r);
    var y := Effect(x, e);
    EffectKeepsRequest(x, e);
    EffectClaims(x, e);
    SumUpdate(Claims(t), s.requests, e.r, y.q);
    EntryElsewhere(s, e.r, y, t);
  }

  lemma StepKeepsHold(s: State, e: Event, t: string)
    requires RequestsInv(s) && Enabled(s, e) && !e.Expire? && t != "" && HoldAt(s, t)
    ensures HoldAt(Step(s, e), t)
  {
    var x := LocalOf(s, e.r);
    var y := Effect(x, e);
    EffectKeepsRequest(x, e);
    EffectHolds(x, e);
    SumUpdate(Holders(t), s.requests, e.r, y.q);
    EntryElsewhere(s, e.r, y, t);
  }

  lemma ExpireKeeps(s: State, e: Event, t: string)
    requires Enabled(s, e) && e.Expire? && ClaimAt(s, t) && HoldAt(s, t)
    ensures ClaimAt(Step(s, e), t) && HoldAt(Step(s, e), t)
  {
  }

  lemma StepKeepsRequests(s: State, e: Event)
    requires RequestsInv(s) && Enabled(s, e)
    ensures RequestsInv(Step(s, e))
  {
    if !e.Expire? { EffectKeepsRequest(LocalOf(s, e.r), e); }
  }

  lemma StepKeeps(s: State, e: Event)
    requires Inv(s) && Enabled(s, e)
    ensures Inv(Step(s, e))
  {
    StepKeepsRequests(s, e);
    forall t | t != "" ensures ClaimAt(Step(s, e), t) && HoldAt(Step(s, e), t) {
      assert ClaimAt(s, t) && HoldAt(s, t);
      if e.Expire? {
        ExpireKeeps(s, e, t);
      } else {
        StepKeepsClaim(s, e, t);
        StepKeepsHold(s, e, t);
      }
    }
  }

  // Paid draws keep their items and traces.
  lemma RequestMoves(s: State, e: Event, r: nat)
    requires RequestsInv(s) && Enabled(s, e) && r < |s.requests|
    ensures var u := Step(s, e).requests;
            && |u| == |s.requests| && u[r].trace == s.requests[r].trace
            && (s.requests[r].Granted() ==> u[r].items == s.requests[r].items)
  {
    if !e.Expire? { EffectKeepsRequest(LocalOf(s, e.r), e); }
  }

  lemma StepKeepsSources(s: State, e: Event, t: string, payload: seq<int>)
    requires RequestsInv(s) && Enabled(s, e) && Sourced(s.requests, t, payload)
    ensures Sourced(Step(s, e).requests, t, payload)
  {
    var r :| 0 <= r < |s.requests| && s.requests[r].trace == t
               && s.requests[r].Granted() && s.requests[r].items == payload;
    RequestMoves(s, e, r);
    StillSourced(Step(s, e).requests, r, t, payload);
  }

  lemma StillSourced(u: seq<Request>, r: nat, t: string, payload: seq<int>)
    requires r < |u| && u[r].trace == t && u[r].items == payload != []
    ensures Sourced(u, t, payload)
  {
  }

  // What a step stores or replays is a paid draw of the trace, given that what was stored is.
  lemma EffectSourced(x: Local, e: Event)
    requires Allowed(x.q, e) && RequestInv(x.q)
    ensures var y := Effect(x, e);
            && (y.entry.Some? && y.entry.value.Saved? ==>
                  y.entry == x.entry || (y.q.Granted() && y.entry.value.payload == y.q.items && y.q.items == x.q.items))
            && (y.q.pc.Done? && y.q.pc.reply.Completed? && !x.q.pc.Unlocking? ==>
                  x.entry == Some(Saved(y.q.pc.reply.payload)))
  {
  }

  // A request that unlocks never replays.
  ghost predicate UnlocksPlainly(s: State) {
    forall r {:trigger s.requests[r]} ::
      0 <= r < |s.requests| && s.requests[r].pc.Unlocking? ==> !s.requests[r].pc.reply.Completed?
  }

  lemma StepKeepsPlain(s: State, e: Event)
    requires UnlocksPlainly(s) && Enabled(s, e)
    ensures UnlocksPlainly(Step(s, e))
  {
  }

  lemma StepKeepsPayloads(s: State, e: Event)
    requires RequestsInv(s) && PayloadInv(s) && UnlocksPlainly(s) && Enabled(s, e)
    ensures PayloadInv(Step(s, e))
  {
    var s' := Step(s, e);
    forall t ensures KeySourced(s', t) { StepKeepsKey(s, e, t); }
    forall r | 0 <= r < |s'.requests| ensures ReplySourced(s', r) { StepKeepsReply(s, e, r); }
  }

  lemma StepKeepsKey(s: State, e: Event, t: string)
    requires RequestsInv(s) && PayloadInv(s) && Enabled(s, e)
    ensures KeySourced(Step(s, e), t)
  {
    var s' := Step(s, e);
    assert KeySourced(s, t);
    if t in s.redis && s.redis[t].Saved? { StepKeepsSources(s, e, t, s.redis[t].payload); }
    if !e.Expire? {
      var y := Effect(LocalOf(s, e.r), e);
      EffectSourced(LocalOf(s, e.r), e);
      EffectKeepsRequest(LocalOf(s, e.r), e);
      EntryElsewhere(s, e.r, y, t);
      assert s'.requests[e.r] == y.q;
    }
  }

  lemma StepKeepsReply(s: State, e: Event, r: nat)
    requires RequestsInv(s) && PayloadInv(s) && UnlocksPlainly(s) && Enabled(s, e) && r < |s.requests|
    ensures ReplySourced(Step(s, e), r)
  {
    var q := s.requests[r];
    if !e.Expire? && e.r == r {
      StepReplies(s, e);
    } else if q.pc.Done? && q.pc.reply.Completed? {
      assert ReplySourced(s, r);
      StepKeepsSources(s, e, q.trace, q.pc.reply.payload);
    }
  }

  lemma StepReplies(s: State, e: Event)
    requires RequestsInv(s) && PayloadInv(s) && UnlocksPlainly(s) && Enabled(s, e) && !e.Expire?
    ensures ReplySourced(Step(s, e), e.r)
  {
    var x := LocalOf(s, e.r);
    var y := Effect(x, e);
    EffectSourced(x, e);
    EffectKeepsRequest(x, e);
    if y.q.pc.Done? && y.q.pc.reply.Completed? && !x.q.pc.Unlocking? {
      assert KeySourced(s, x.q.trace);
      StepKeepsSources(s, e, x.q.trace, y.q.pc.reply.payload);
    }
  }

  // What a reply says about its request: a successful one was granted, a refused or replayed one never drew.
  ghost predicate ReplyFits(q: Request) {
    match q.pc
    case Unlocking(reply) =>
      && !reply.Completed? && !reply.InProgress?
      && (reply.Success? ==> q.Granted()) && (reply.Insufficient? ==> !q.Granted())
    case Done(reply) => if reply.Success? then q.Granted() else reply.Failed? || !q.Granted()
    case _ => true
  }

  ghost predicate RepliesInv(s: State) {
    forall r {:trigger s.requests[r]} :: 0 <= r < |s.requests| ==> ReplyFits(s.requests[r])
  }

  lemma EffectReplies(x: Local, e: Event)
    requires Allowed(x.q, e) && RequestInv(x.q) && ReplyFits(x.q)
    ensures ReplyFits(Effect(x, e).q)
  {
  }

  lemma StepKeepsReplies(s: State, e: Event)
    requires RequestsInv(s) && RepliesInv(s) && Enabled(s, e)
    ensures RepliesInv(Step(s, e))
  {
    if !e.Expire? { EffectReplies(LocalOf(s, e.r), e); }
  }

  // What counts as a fault of a trace: its key expires, Redis is out of reach when it locks or stores, or its reply
  // does not serialize. Nothing else does.
  predicate Faulty(s: State, e: Event, t: string)
    requires Enabled(s, e)
  {
    match e
    case Expire(trace) => trace == t
    case Lock(r, answer) => s.requests[r].trace == t && t != "" && answer.Degraded?
    case Serialize(r, ok) => s.requests[r].trace == t && !ok
    case Save(r, ok, _) => s.requests[r].trace == t && t != "" && !ok
    case _ => false
  }

  lemma FaultsExactly(s: State, e: Event, t: string)
    requires Enabled(s, e)
    ensures Step(s, e).faults[t] == s.faults[t] + if Faulty(s, e, t) then 1 else 0
  {
  }

  // A request is refused for its balance exactly when that does not cover 160 for each item, and then nothing
  // else changes; else exactly that is taken.
  lemma ChargedExactly(s: State, r: nat)
    requires Enabled(s, Spend(r))
    ensures var q, t := s.requests[r], Step(s, Spend(r));
            if s.currency < 160 * q.draws then t == s.(requests := s.requests[r := q.(pc := Unlocking(Insufficient))])
            else t == s.(currency := s.currency - 160 * q.draws, requests := s.requests[r := q.(pc := Pc.Drawing)])
  {
    assert SetEntry(s.redis, s.requests[r].trace, EntryAt(s.redis, s.requests[r].trace)) == s.redis;
  }

  lemma StepConserves(s: State, e: Event)
    requires RequestsInv(s) && Enabled(s, e) && Total(s) < U64
    ensures Total(Step(s, e)) == Total(s)
  {
    if !e.Expire? {
      var x := LocalOf(s, e.r);
      SumAt(Worths(), s.requests, e.r);
      assert Worths()(x.q) == WorthOf(x.q);
      EffectConserves(x, e);
      SumUpdate(Worths(), s.requests, e.r, Effect(x, e).q);
    }
  }

  // ---------------------------------------------------------------- runs

  lemma InitialHolds(s: State)
    requires Initial(s)
    ensures Inv(s) && PayloadInv(s) && UnlocksPlainly(s) && Sum(Worths(), s.requests) == 0
  {
    SumZero(Worths(), s.requests);
    forall r | 0 <= r < |s.requests| ensures ReplySourced(s, r) { assert s.requests[r].pc.Arrived?; }
    forall t ensures ClaimAt(s, t) && HoldAt(s, t) {
      SumZero(Claims(t), s.requests);
      SumZero(Holders(t), s.requests);
    }
  }

  lemma {:induction false} RunKeeps(s: State, events: seq<Event>)
    requires Initial(s) && Legal(s, events)
    ensures var t := Exec(s, events); Inv(t) && PayloadInv(t) && UnlocksPlainly(t) && |t.requests| == |s.requests|
  {
    if events == [] {
      InitialHolds(s);
    } else {
      var before, e := Exec(s, Init(events)), Last(events);
      RunKeeps(s, Init(events));
      StepKeeps(before, e);
      StepKeepsPayloads(before, e);
      StepKeepsPlain(before, e);
    }
  }

  // ---------------------------------------------------------------- theorems

  // Currency and 160 for every item owned, with what requests are carrying, never changes: no draw is free,
  // none is paid twice, a refund gives back exactly the charge, and it cannot wrap around.
  lemma {:induction false} Conservation(s: State, events: seq<Event>)
    requires Initial(s) && Legal(s, events) && s.currency + DRAW_COST * |s.inventory| < U64
    ensures Total(Exec(s, events)) == s.currency + DRAW_COST * |s.inventory|
  {
    InitialHolds(s);
    if events != [] {
      Conservation(s, Init(events));
      RunKeeps(s, Init(events));
      StepConserves(Exec(s, Init(events)), Last(events));
    }
  }

  // Once every request is done or has not been charged yet, the balance is exact.
  lemma ConservationWhenDone(s: State, events: seq<Event>)
    requires Initial(s) && Legal(s, events) && s.currency + DRAW_COST * |s.inventory| < U64
    requires forall r :: 0 <= r < |Exec(s, events).requests| ==> WorthOf(Exec(s, events).requests[r]) == 0
    ensures var t := Exec(s, events); t.currency + DRAW_COST * |t.inventory| == s.currency + DRAW_COST * |s.inventory|
  {
    Conservation(s, events);
    SumZero(Worths(), Exec(s, events).requests);
  }

  function GrantOf(q: Request, t: string): nat {
    if q.trace == t && q.Granted() then 1 else 0
  }

  function Grants(t: string): Request -> nat {
    (q: Request) => GrantOf(q, t)
  }

  // A trace gets at most one paid draw more than it meets faults.
  lemma GrantsBounded(s: State, events: seq<Event>, t: string)
    requires Initial(s) && Legal(s, events) && t != ""
    ensures Sum(Grants(t), Exec(s, events).requests) <= 1 + Exec(s, events).faults[t]
  {
    RunKeeps(s, events);
    var u := Exec(s, events);
    assert ClaimAt(u, t);
    forall r | 0 <= r < |u.requests| ensures Grants(t)(u.requests[r]) <= Claims(t)(u.requests[r]) {
      assert RequestInv(u.requests[r]);
    }
    SumLess(Grants(t), Claims(t), u.requests);
  }

  lemma {:induction false} SumLess(f: Request -> nat, g: Request -> nat, xs: seq<Request>)
    requires forall r :: 0 <= r < |xs| ==> f(xs[r]) <= g(xs[r])
    ensures Sum(f, xs) <= Sum(g, xs)
  {
    if xs != [] {
      assert forall r :: 0 <= r < |xs[1..]| ==> xs[1..][r] == xs[r + 1];
      SumLess(f, g, xs[1..]);
    }
  }

  // Idempotency: a trace without faults gets one paid draw, whatever the requests with it ask for.
  lemma OneDrawPerTrace(s: State, events: seq<Event>, q: nat, r: nat)
    requires Initial(s) && Legal(s, events)
    requires var u := Exec(s, events).requests;
             q < |u| && r < |u| && u[q].Granted() && u[r].Granted() && u[q].trace == u[r].trace != ""
    requires Exec(s, events).faults[Exec(s, events).requests[q].trace] == 0
    ensures q == r
  {
    var u := Exec(s, events).requests;
    GrantsBounded(s, events, u[q].trace);
    if q < r {
      SumPair(Grants(u[q].trace), u, q, r);
    } else if r < q {
      SumPair(Grants(u[q].trace), u, r, q);
    }
  }

  // At most one request holds the key of a trace without faults.
  lemma OneHolderPerTrace(s: State, events: seq<Event>, q: nat, r: nat)
    requires Initial(s) && Legal(s, events)
    requires var u := Exec(s, events).requests;
             q < |u| && r < |u| && Holds(u[q]) && Holds(u[r]) && u[q].trace == u[r].trace != ""
    requires Exec(s, events).faults[Exec(s, events).requests[q].trace] == 0
    ensures q == r
  {
    RunKeeps(s, events);
    var u := Exec(s, events).requests;
    assert HoldAt(Exec(s, events), u[q].trace);
    if q < r {
      SumPair(Holders(u[q].trace), u, q, r);
    } else if r < q {
      SumPair(Holders(u[q].trace), u, r, q);
    }
  }

  lemma {:induction false} RunKeepsReplies(s: State, events: seq<Event>)
    requires Initial(s) && Legal(s, events)
    ensures RepliesInv(Exec(s, events))
  {
    if events != [] {
      RunKeepsReplies(s, Init(events));
      RunKeeps(s, Init(events));
      StepKeepsReplies(Exec(s, Init(events)), Last(events));
    }
  }

  // Over every run: who is told of success has been granted as many items as asked for, and who is told that the
  // balance does not suffice, that the request is in progress, or gets a replay, has drawn nothing.
  lemma RepliesAreHonest(s: State, events: seq<Event>, r: nat)
    requires Initial(s) && Legal(s, events) && r < |Exec(s, events).requests| && Exec(s, events).requests[r].pc.Done?
    ensures var q := Exec(s, events).requests[r];
            && (q.pc.reply.Success? ==> |q.items| == q.draws)
            && (q.pc.reply.Insufficient? || q.pc.reply.InProgress? || q.pc.reply.Completed? ==> q.items == [])
  {
    RunKeeps(s, events);
    RunKeepsReplies(s, events);
    assert RequestInv(Exec(s, events).requests[r]) && ReplyFits(Exec(s, events).requests[r]);
  }

  // A replayed reply is the reply of a paid draw of the trace.
  lemma ReplayIsSourced(s: State, events: seq<Event>, q: nat)
    requires Initial(s) && Legal(s, events)
    requires var u := Exec(s, events).requests; q < |u| && u[q].pc.Done? && u[q].pc.reply.Completed?
    ensures var u := Exec(s, events).requests; Sourced(u, u[q].trace, u[q].pc.reply.payload)
  {
    RunKeeps(s, events);
    assert ReplySourced(Exec(s, events), q);
  }

  // Without faults it is the reply of the only one.
  lemma ReplayIsTheDraw(s: State, events: seq<Event>, q: nat) returns (r: nat)
    requires Initial(s) && Legal(s, events)
    requires var u := Exec(s, events).requests; q < |u| && u[q].trace != "" && u[q].pc.Done? && u[q].pc.reply.Completed?
    requires Exec(s, events).faults[Exec(s, events).requests[q].trace] == 0
    ensures var u := Exec(s, events).requests;
            && r < |u| && u[r].trace == u[q].trace && u[r].Granted() && u[q].pc.reply.payload == u[r].items
            && forall p :: 0 <= p < |u| && u[p].trace == u[q].trace && u[p].Granted() ==> p == r
  {
    var u := Exec(s, events).requests;
    ReplayIsSourced(s, events, q);
    r :| 0 <= r < |u| && u[r].trace == u[q].trace && u[r].Granted() && u[r].items == u[q].pc.reply.payload;
    forall p | 0 <= p < |u| && u[p].trace == u[q].trace && u[p].Granted() ensures p == r {
      OneDrawPerTrace(s, events, p, r);
    }
  }

  // ---------------------------------------------------------------- what the inventory gains

  // How many pieces of an item a request has put into the inventory.
  function GivenOf(q: Request, item: int): nat {
    if q.pc.Adding? then (multiset(q.items) - multiset(q.pc.left))[item] else multiset(q.items)[item]
  }

  function Givens(item: int): Request -> nat {
    (q: Request) => GivenOf(q, item)
  }

  lemma GivenGrows(items: seq<int>, given: seq<int>, left: seq<int>, item: int)
    requires items == given + left && left != []
    ensures (multiset(items) - multiset(left[1..]))[item]
         == (multiset(items) - multiset(left))[item] + if left[0] == item then 1 else 0
  {
    assert left == [left[0]] + left[1..];
    assert multiset(items) == multiset(given) + multiset(left);
  }

  lemma GrantGives(q: Request, item: int)
    requires q.pc.Adding? && q.pc.left != [] && |q.pc.left| <= |q.items|
    requires q.pc.left == q.items[|q.items| - |q.pc.left|..]
    ensures GivenOf(q.(pc := Adding(q.pc.left[1..])), item) == GivenOf(q, item) + if q.pc.left[0] == item then 1 else 0
  {
    var k := |q.items| - |q.pc.left|;
    assert q.items == q.items[..k] + q.items[k..];
    GivenGrows(q.items, q.items[..k], q.pc.left, item);
  }

  lemma GrantEffect(x: Local, e: Event, item: int)
    requires e.Grant? && Allowed(x.q, e)
    ensures Effect(x, e).q == x.q.(pc := Adding(x.q.pc.left[1..]))
    ensures Effect(x, e).inventory[item] == x.inventory[item] + if x.q.pc.left[0] == item then 1 else 0
  {
  }

  lemma EffectGives(x: Local, e: Event, item: int)
    requires Allowed(x.q, e) && RequestInv(x.q)
    ensures Effect(x, e).inventory[item] + GivenOf(x.q, item) == x.inventory[item] + GivenOf(Effect(x, e).q, item)
  {
    if e.Grant? {
      GrantGives(x.q, item);
      GrantEffect(x, e, item);
    }
  }

  // The inventory is what it was and the items of the paid draws, each once, but for those still to be added.
  lemma {:induction false} InventoryIsTheDraws(s: State, events: seq<Event>, item: int)
    requires Initial(s) && Legal(s, events)
    ensures Exec(s, events).inventory[item] == s.inventory[item] + Sum(Givens(item), Exec(s, events).requests)
  {
    if events == [] {
      SumZero(Givens(item), s.requests);
    } else {
      RunKeeps(s, Init(events));
      InventoryIsTheDraws(s, Init(events), item);
      StepGives(Exec(s, Init(events)), Last(events), item);
    }
  }

  lemma StepGives(s: State, e: Event, item: int)
    requires RequestsInv(s) && Enabled(s, e)
    ensures Step(s, e).inventory[item] + Sum(Givens(item), s.requests)
         == s.inventory[item] + Sum(Givens(item), Step(s, e).requests)
  {
    if !e.Expire? {
      var x := LocalOf(s, e.r);
      EffectGives(x, e, item);
      SumUpdate(Givens(item), s.requests, e.r, Effect(x, e).q);
    }
  }
}
