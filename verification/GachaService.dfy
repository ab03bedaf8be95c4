// GachaService with IdempotencyService: any number of single and ten-draw requests of one player, interleaved at
// every call to Redis and every change of the player. Redis is a map; its calls may fail, and keys may expire.
module GachaServices {
  import opened Counting
  import opened Runs
  import Wallets
  import opened Wrappers

  // A key is "P" while a request works on it; then it holds the reply. The reply stands for the drawn items.
  datatype Entry = Processing | Saved(payload: seq<int>)

  datatype Reply = InProgress | Completed(payload: seq<int>) | Insufficient | Failed | Success

  datatype Pc =
    | Arrived
    | Checking                   // SETNX said no, GET comes next
    | Paying                     // the caller was told FIRST_TIME
    | Drawing
    | Refunding
    | Adding(left: seq<int>)     // the draw is made; these items are not in the inventory yet
    | Saving                     // replied, SaveResult comes next
    | Unlocking(reply: Reply)
    | Done(reply: Reply)

  // items are those of the paid draw once it is made. An empty trace takes no lock.
  datatype Request = Request(trace: string, draws: nat, items: seq<int>, pc: Pc)
  {
    function Cost(): nat { Wallets.DRAW_COST * draws }
    predicate Granted() { items != [] }
  }

  // faults counts, per trace, the events outside the protocol's assumptions.
  datatype State = State(
    redis: map<string, Entry>, currency: nat, inventory: multiset<int>,
    requests: seq<Request>, faults: multiset<string>)

  // No connection; an answer; or no answer, the command having been applied or not.
  datatype Answer = Degraded | Answered | Unanswered(applied: bool)

  datatype Event =
    | Lock(r: nat, answer: Answer)
    | Look(r: nat, ok: bool)
    | Spend(r: nat)
    | Draw(r: nat, outcome: Option<seq<int>>)
    | Refund(r: nat)
    | Grant(r: nat)
    | Serialize(r: nat, ok: bool)
    | Save(r: nat, ok: bool, applied: bool)
    | Unlock(r: nat, applied: bool)
    | Expire(trace: string)

  // ---------------------------------------------------------------- steps

  // What one step of a request sees and changes: itself, the key of its trace, the player.
  datatype Local = Local(q: Request, entry: Option<Entry>, currency: nat, inventory: multiset<int>, fault: bool)

  predicate Allowed(q: Request, e: Event) {
    match e
    case Lock(_, _) => q.pc.Arrived?
    case Look(_, _) => q.pc.Checking?
    case Spend(_) => q.pc.Paying?
    case Draw(_, outcome) => q.pc.Drawing? && (outcome.Some? ==> |outcome.value| == q.draws)
    case Refund(_) => q.pc.Refunding?
    case Grant(_) => q.pc.Adding? && q.pc.left != []
    case Serialize(_, _) => q.pc.Adding? && q.pc.left == []
    case Save(_, ok, applied) => q.pc.Saving? && (ok ==> applied)
    case Unlock(_, _) => q.pc.Unlocking?
    case Expire(_) => false
  }

  // fetch_add on a uint64_t.
  function Add(currency: nat, amount: nat): nat {
    if currency + amount < Wallets.U64 then currency + amount else (currency + amount) % Wallets.U64
  }

  // CheckAndLock, up to SETNX.
  function LockEffect(x: Local, answer: Answer): Local {
    if x.q.trace == "" then x.(q := x.q.(pc := Paying))
    else
      match answer
      case Degraded => x.(q := x.q.(pc := Paying), fault := true)
      case Answered =>
        if x.entry.None? then x.(q := x.q.(pc := Paying), entry := Some(Processing)) else x.(q := x.q.(pc := Checking))
      case Unanswered(applied) =>
        x.(q := x.q.(pc := Checking), entry := if applied && x.entry.None? then Some(Processing) else x.entry)
  }

  // The GET of CheckAndLock: anything but a stored reply counts as in progress.
  function LookEffect(x: Local, ok: bool): Local {
    var reply := if ok && x.entry.Some? && x.entry.value.Saved? then Completed(x.entry.value.payload) else InProgress;
    x.(q := x.q.(pc := Done(reply)))
  }

  function SaveEffect(x: Local, ok: bool, applied: bool): Local {
    if x.q.trace == "" then x.(q := x.q.(pc := Done(Success)))
    else if ok then x.(q := x.q.(pc := Done(Success)), entry := Some(Saved(x.q.items)))
    else x.(q := x.q.(pc := Unlocking(Success)), entry := if applied then Some(Saved(x.q.items)) else x.entry,
            fault := true)
  }

  function Effect(x: Local, e: Event): Local
    requires Allowed(x.q, e)
  {
    match e
    case Lock(_, answer) => LockEffect(x, answer)
    case Look(_, ok) => LookEffect(x, ok)
    case Spend(_) =>
      if x.currency >= x.q.Cost() then x.(q := x.q.(pc := Drawing), currency := x.currency - x.q.Cost())
      else x.(q := x.q.(pc := Unlocking(Insufficient)))
    case Draw(_, outcome) =>
      if outcome.Some? then x.(q := x.q.(items := outcome.value, pc := Adding(outcome.value)))
      else x.(q := x.q.(pc := Refunding))
    case Refund(_) => x.(q := x.q.(pc := Unlocking(Failed)), currency := Add(x.currency, x.q.Cost()))
    case Grant(_) =>
      x.(q := x.q.(pc := Adding(x.q.pc.left[1..])), inventory := x.inventory + multiset{x.q.pc.left[0]})
    case Serialize(_, ok) =>
      if ok then x.(q := x.q.(pc := Saving)) else x.(q := x.q.(pc := Unlocking(Failed)), fault := true)
    case Save(_, ok, applied) => SaveEffect(x, ok, applied)
    case Unlock(_, applied) =>
      x.(q := x.q.(pc := Done(x.q.pc.reply)), entry := if applied && x.q.trace != "" then None else x.entry)
  }

  function EntryAt(redis: map<string, Entry>, t: string): Option<Entry> {
    if t in redis then Some(redis[t]) else None
  }

  function SetEntry(redis: map<string, Entry>, t: string, entry: Option<Entry>): map<string, Entry> {
    if entry == EntryAt(redis, t) then redis
    else if entry.Some? then redis[t := entry.value]
    else redis - {t}
  }

  predicate Enabled(s: State, e: Event) {
    if e.Expire? then e.trace in s.redis else e.r < |s.requests| && Allowed(s.requests[e.r], e)
  }

  function LocalOf(s: State, r: nat): Local
    requires r < |s.requests|
  {
    Local(s.requests[r], EntryAt(s.redis, s.requests[r].trace), s.currency, s.inventory, false)
  }

  function Merge(s: State, r: nat, x: Local): State
    requires r < |s.requests|
  {
    State(SetEntry(s.redis, x.q.trace, x.entry), x.currency, x.inventory, s.requests[r := x.q],
          if x.fault then s.faults + multiset{x.q.trace} else s.faults)
  }

  function Step(s: State, e: Event): State
    requires Enabled(s, e)
  {
    if e.Expire? then s.(redis := s.redis - {e.trace}, faults := s.faults + multiset{e.trace})
    else Merge(s, e.r, Effect(LocalOf(s, e.r), e))
  }

  // Requests just arrived, for one draw or ten; no key yet.
  predicate Initial(s: State) {
    && s.redis == map[] && s.faults == multiset{}
    && forall r :: 0 <= r < |s.requests| ==>
         s.requests[r].pc.Arrived? && s.requests[r].items == []
         && (s.requests[r].draws == 1 || s.requests[r].draws == 10)
  }

  predicate Legal(s: State, events: seq<Event>)
    decreases |events|, 0
  {
    events == [] || (Legal(s, Init(events)) && Enabled(Exec(s, Init(events)), Last(events)))
  }

  function Exec(s: State, events: seq<Event>): State
    requires Legal(s, events)
    decreases |events|, 1
  {
    if events == [] then s else Step(Exec(s, Init(events)), Last(events))
  }

  // ---------------------------------------------------------------- weights

  function Absent(entry: Option<Entry>): nat {
    if entry.None? then 1 else 0
  }

  function Stored(entry: Option<Entry>): nat {
    if entry.Some? && entry.value.Saved? then 1 else 0
  }

  // The grants of trace t this request has made or may still make, itself or by freeing the key.
  function ClaimOf(q: Request, t: string): nat {
    if q.trace != t then 0
    else
      match q.pc
      case Arrived | Checking => 0
      case Unlocking(_) => if q.Granted() then 2 else 1
      case Done(_) => if q.Granted() then 1 else 0
      case _ => 1
  }

  function Claims(t: string): Request -> nat {
    (q: Request) => ClaimOf(q, t)
  }

  // The request was told FIRST_TIME and has not let go of the key.
  predicate Holds(q: Request) {
    !q.pc.Arrived? && !q.pc.Checking? && !q.pc.Done?
  }

  function HoldOf(q: Request, t: string): nat {
    if q.trace == t && Holds(q) then 1 else 0
  }

  function Holders(t: string): Request -> nat {
    (q: Request) => HoldOf(q, t)
  }

  // What a request has taken from the currency and not yet turned into items or given back.
  function WorthOf(q: Request): nat {
    match q.pc
    case Drawing | Refunding => q.Cost()
    case Adding(left) => Wallets.DRAW_COST * |left|
    case _ => 0
  }

  function Worths(): Request -> nat {
    (q: Request) => WorthOf(q)
  }

  // ---------------------------------------------------------------- invariants

  ghost predicate RequestInv(q: Request) {
    && (q.draws == 1 || q.draws == 10)
    && (q.Granted() ==> |q.items| == q.draws)
    && match q.pc
       case Adding(left) => q.Granted() && |left| <= |q.items| && left == q.items[|q.items| - |left|..]
       case Saving => q.Granted()
       case Unlocking(_) => true
       case Done(_) => true
       case _ => !q.Granted()
  }

  ghost predicate RequestsInv(s: State) {
    forall r {:trigger s.requests[r]} :: 0 <= r < |s.requests| ==> RequestInv(s.requests[r])
  }

  ghost predicate ClaimAt(s: State, t: string) {
    Sum(Claims(t), s.requests) + Absent(EntryAt(s.redis, t)) <= 1 + s.faults[t]
  }

  ghost predicate ClaimInv(s: State) {
    forall t :: t != "" ==> ClaimAt(s, t)
  }

  ghost predicate HoldAt(s: State, t: string) {
    Sum(Holders(t), s.requests) + Absent(EntryAt(s.redis, t)) + Stored(EntryAt(s.redis, t)) <= 1 + s.faults[t]
  }

  ghost predicate HoldInv(s: State) {
    forall t :: t != "" ==> HoldAt(s, t)
  }

  // The payload is that of a paid draw of this trace.
  ghost predicate Sourced(requests: seq<Request>, t: string, payload: seq<int>) {
    exists r {:trigger requests[r]} ::
      0 <= r < |requests| && requests[r].trace == t && requests[r].Granted() && requests[r].items == payload
  }

  ghost predicate KeySourced(s: State, t: string) {
    t in s.redis && s.redis[t].Saved? ==> Sourced(s.requests, t, s.redis[t].payload)
  }

  ghost predicate ReplySourced(s: State, r: nat)
    requires r < |s.requests|
  {
    s.requests[r].pc.Done? && s.requests[r].pc.reply.Completed? ==>
      Sourced(s.requests, s.requests[r].trace, s.requests[r].pc.reply.payload)
  }

  ghost predicate PayloadInv(s: State) {
    && (forall t :: KeySourced(s, t))
    && (forall r {:trigger s.requests[r]} :: 0 <= r < |s.requests| ==> ReplySourced(s, r))
  }

  function Total(s: State): nat {
    s.currency + Wallets.DRAW_COST * |s.inventory| + Sum(Worths(), s.requests)
  }

  ghost predicate Inv(s: State) {
    RequestsInv(s) && ClaimInv(s) && HoldInv(s)
  }

  // ---------------------------------------------------------------- one step, locally

  lemma EffectKeepsRequest(x: Local, e: Event)
    requires Allowed(x.q, e) && RequestInv(x.q)
    ensures var y := Effect(x, e);
            && RequestInv(y.q) && y.q.trace == x.q.trace && y.q.draws == x.q.draws
            && (x.q.Granted() ==> y.q.items == x.q.items)
            && (x.q.trace == "" ==> y.entry == x.entry)
  {
  }

  // A step makes no more claims and holders on its key than the fault it counts allows.
  lemma EffectClaims(x: Local, e: Event)
    requires Allowed(x.q, e) && RequestInv(x.q) && !x.fault
    ensures var y, t := Effect(x, e), x.q.trace;
            t != "" ==>
              ClaimOf(y.q, t) + Absent(y.entry) <= ClaimOf(x.q, t) + Absent(x.entry) + if y.fault then 1 else 0
  {
  }

  lemma EffectHolds(x: Local, e: Event)
    requires Allowed(x.q, e) && RequestInv(x.q) && !x.fault
    ensures var y, t := Effect(x, e), x.q.trace;
            t != "" ==>
              HoldOf(y.q, t) + Absent(y.entry) + Stored(y.entry)
              <= HoldOf(x.q, t) + Absent(x.entry) + Stored(x.entry) + if y.fault then 1 else 0
  {
  }

  lemma EffectConserves(x: Local, e: Event)
    requires Allowed(x.q, e) && RequestInv(x.q) && x.currency + WorthOf(x.q) < Wallets.U64
    ensures var y := Effect(x, e);
            y.currency + Wallets.DRAW_COST * |y.inventory| + WorthOf(y.q)
            == x.currency + Wallets.DRAW_COST * |x.inventory| + WorthOf(x.q)
  {
  }
}
