/** The per-client query guard: how one session client queues each caller's query behind its own
    timeout statement, and what its timers, cancellations and failing statements may remove.

    The client is a FIFO with one active statement. Every run is a sequence of atomic steps: a
    caller submits, the client takes the next statement, the server answers, a timer expires, a
    cancellation socket connects, or a settled caller's cleanup runs (as late as it likes). */
module QueryGuard {
  import opened Wrappers

  const MAX_TIMEOUT_MS := 2147483647

  /** `Fixed` guards with client-side timers only; `ReadWrite` also installs a server deadline. */
  datatype Policy = Fixed(ms: int) | ReadWrite(read: int, write: int)

  function Budget(p: Policy, readQuery: bool): int {
    match p
    case Fixed(ms) => ms
    case ReadWrite(read, write) => if readQuery then read else write
  }

  /** What the client sends: the guard's own timeout statement, or the caller's query. Callers are
      numbered in submission order. */
  datatype Statement = SetTimeout(id: nat, ms: int) | Caller(id: nat)

  datatype SqlError = InFailedTransaction | OtherError

  datatype Outcome = Succeeded | Failed | TimedOutWaiting | SetRejected

  datatype Settlement = Settlement(id: nat, outcome: Outcome)

  /** A statement taken off the queue, with the session it found. */
  datatype Started = Started(statement: Statement, serverMs: int, aborted: bool)

  /** A CancelRequest that left the process, with the statement then active. */
  datatype CancelSent = CancelSent(id: nat, active: Option<Statement>)

  datatype Wire = Wire(
    policy: Policy,
    active: Option<Statement>,
    ready: bool,
    queue: seq<Statement>,
    serverMs: int,
    aborted: bool,
    budgets: seq<int>,
    handles: seq<Option<Statement>>,
    timers: set<nat>,
    cancelling: set<nat>,
    settled: seq<Settlement>,
    started: seq<Started>,
    cancels: seq<CancelSent>,
    isRead: seq<bool>)

  function Init(p: Policy, serverMs: int): Wire {
    Wire(p, None, true, [], serverMs, false, [], [], {}, {}, [], [], [], [])
  }

  /** The steps of a run. `serverMs` and `aborted` are the session a caller's statement leaves:
      it may begin, commit, roll back or set the timeout itself, so they are arbitrary. */
  datatype Event =
    | Submit(readQuery: bool)
    | Pulse
    | Succeed(serverMs: int, aborted: bool)
    | Fail(code: SqlError, serverMs: int, aborted: bool)
    | Ready
    | TimerFires(id: nat)
    | CancelConnects(id: nat)
    | Cleanup(id: nat)

  function Without(q: seq<Statement>, s: Statement): seq<Statement> {
    if q == [] then [] else if q[0] == s then q[1..] else [q[0]] + Without(q[1..], s)
  }

  function Take(w: Wire): Wire {
    if !w.ready || w.queue == [] then w
    else w.(active := Some(w.queue[0]), ready := false, queue := w.queue[1..],
            started := w.started + [Started(w.queue[0], w.serverMs, w.aborted)])
  }

  function Push(w: Wire, s: Statement): Wire {
    Take(w.(queue := w.queue + [s]))
  }

  function Captured(w: Wire): Option<Statement> {
    if w.queue != [] then Some(w.queue[|w.queue| - 1]) else w.active
  }

  function Submitted(w: Wire, readQuery: bool): Wire {
    var id := |w.budgets|;
    var ms := Budget(w.policy, readQuery);
    var w1 := if w.policy.ReadWrite? then Push(w, SetTimeout(id, ms)) else w;
    var w2 := Push(w1, Caller(id));
    var handle := Captured(w2);
    w2.(budgets := w.budgets + [ms], isRead := w.isRead + [readQuery], handles := w.handles + [handle],
        timers := if ms > 0 && handle.Some? then w.timers + {id} else w.timers)
  }

  /** Drop a waiting query and report its outcome to its caller. */
  function Removed(w: Wire, target: Statement, outcome: Outcome): Wire {
    w.(queue := Without(w.queue, target), settled := w.settled + [Settlement(target.id, outcome)])
  }

  function Succeeding(w: Wire, serverMs: int, aborted: bool): Wire
    requires w.active.Some?
  {
    var w1 := w.(active := None, ready := true);
    match w.active.value
    case SetTimeout(_, ms) => w1.(serverMs := ms)
    case Caller(id) =>
      w1.(serverMs := serverMs, aborted := aborted,
          settled := w.settled + [Settlement(id, Succeeded)])
  }

  /** The error callback of the guard's own statement drops its partner, unless the transaction was
      already aborted: then the partner may be the very ROLLBACK that recovers it. */
  function Failing(w: Wire, code: SqlError, serverMs: int, aborted: bool): Wire
    requires w.active.Some? && w.active.value.id < |w.handles|
  {
    var w1 := w.(active := None, serverMs := serverMs);
    match w.active.value
    case SetTimeout(id, _) =>
      if code.InFailedTransaction? then w1
      else
        var w2 := w1.(aborted := aborted);
        var handle := w.handles[id];
        if handle.Some? && handle.value in w.queue then Removed(w2, handle.value, SetRejected) else w2
    case Caller(id) =>
      w1.(aborted := aborted, settled := w.settled + [Settlement(id, Failed)])
  }

  function Expiring(w: Wire, id: nat): Wire
    requires id < |w.handles| && w.handles[id].Some?
  {
    var w1 := w.(timers := w.timers - {id});
    var target := w.handles[id].value;
    if target in w.queue then Removed(w1, target, TimedOutWaiting)
    else if w.active == Some(target) && w.policy.Fixed? then w1.(cancelling := w.cancelling + {id})
    else w1
  }

  function Connecting(w: Wire, id: nat): Wire
    requires id < |w.handles|
  {
    var w1 := w.(cancelling := w.cancelling - {id});
    if w.active.Some? && w.active == w.handles[id]
    then w1.(cancels := w.cancels + [CancelSent(id, w.active)]) else w1
  }

  predicate IsSettled(settled: seq<Settlement>, id: nat) {
    exists k :: 0 <= k < |settled| && settled[k].id == id
  }

  /** Which steps the client, the server and the timers can take. PostgreSQL answers 25P02 to the
      timeout statement exactly while the transaction is aborted. */
  ghost predicate Legal(w: Wire, e: Event) {
    match e
    case Submit(_) => true
    case Pulse => true
    case Succeed(_, _) => w.active.Some? && (w.active.value.SetTimeout? ==> !w.aborted)
    case Fail(code, _, _) =>
      && w.active.Some? && w.active.value.id < |w.handles|
      && (w.active.value.SetTimeout? ==> (code.InFailedTransaction? <==> w.aborted))
    case Ready => w.active.None?
    case TimerFires(id) => id in w.timers && id < |w.handles| && w.handles[id].Some?
    case CancelConnects(id) => id in w.cancelling && id < |w.handles|
    case Cleanup(id) => IsSettled(w.settled, id)
  }

  function Step(w: Wire, e: Event): Wire
    requires Legal(w, e)
  {
    match e
    case Submit(readQuery) => Submitted(w, readQuery)
    case Pulse => Take(w)
    case Succeed(serverMs, aborted) => Succeeding(w, serverMs, aborted)
    case Fail(code, serverMs, aborted) => Failing(w, code, serverMs, aborted)
    case Ready => w.(ready := true)
    case TimerFires(id) => Expiring(w, id)
    case CancelConnects(id) => Connecting(w, id)
    case Cleanup(id) => w.(timers := w.timers - {id}, cancelling := w.cancelling - {id})
  }

  ghost predicate LegalRun(w: Wire, events: seq<Event>)
    decreases |events|
  {
    events == [] || (Legal(w, events[0]) && LegalRun(Step(w, events[0]), events[1..]))
  }

  function Run(w: Wire, events: seq<Event>): Wire
    requires LegalRun(w, events)
    decreases |events|
  {
    if events == [] then w else Run(Step(w, events[0]), events[1..])
  }

  // ---------------------------------------------------------------- what a reachable client promises

  /** A caller's query ran directly behind its own timeout statement, and found either its own
      budget installed or a transaction that was already aborted. */
  predicate OwnDeadlineAt(started: seq<Started>, budgets: seq<int>, k: nat)
    requires k < |started|
  {
    var id := started[k].statement.id;
    && id < |budgets|
    && k > 0
    && started[k - 1].statement == SetTimeout(id, budgets[id])
    && (started[k].serverMs == budgets[id] || started[k].aborted)
  }

  ghost predicate OwnDeadlines(started: seq<Started>, budgets: seq<int>) {
    forall k :: 0 <= k < |started| && started[k].statement.Caller? ==> OwnDeadlineAt(started, budgets, k)
  }

  predicate Pending(active: Option<Statement>, queue: seq<Statement>, id: nat) {
    Caller(id) in queue || active == Some(Caller(id))
  }

  predicate HasStarted(started: seq<Started>, s: Statement) {
    exists k :: 0 <= k < |started| && started[k].statement == s
  }

  /** No submitted query is lost or reported twice: each is either still on the client or settled,
      and no two settlements belong to one query. */
  ghost predicate SettledOnce(active: Option<Statement>, queue: seq<Statement>, settled: seq<Settlement>, n: nat) {
    && (forall id: nat :: id < n ==> (Pending(active, queue, id) <==> !IsSettled(settled, id)))
    && (forall k :: 0 <= k < |settled| ==> settled[k].id < n)
    && (forall j, k :: 0 <= j < k < |settled| ==> settled[j].id != settled[k].id)
  }

  /** A removed query never reached the server; an answered one did. */
  ghost predicate RemovedNeverRan(settled: seq<Settlement>, started: seq<Started>) {
    forall k :: 0 <= k < |settled| ==>
      (settled[k].outcome in {Succeeded, Failed} <==> HasStarted(started, Caller(settled[k].id)))
  }

  function Key(s: Statement): nat {
    match s case SetTimeout(id, _) => 2 * id case Caller(id) => 2 * id + 1
  }

  /** What ran, followed by what waits, is in submission order. */
  ghost predicate SubmissionOrder(started: seq<Started>, queue: seq<Statement>) {
    && (forall j, k :: 0 <= j < k < |started| ==> Key(started[j].statement) < Key(started[k].statement))
    && (forall j, k :: 0 <= j < k < |queue| ==> Key(queue[j]) < Key(queue[k]))
    && (forall j, k :: 0 <= j < |started| && 0 <= k < |queue| ==> Key(started[j].statement) < Key(queue[k]))
  }

  /** The handle a call keeps is its own query, never a neighbour's. */
  ghost predicate OwnHandles(handles: seq<Option<Statement>>, n: nat) {
    && |handles| == n
    && forall id :: 0 <= id < n ==> handles[id] == Some(Caller(id))
  }

  /** CancelRequests belong to fixed policies and to a query that was active when they were sent. */
  ghost predicate CancelsGuarded(p: Policy, cancels: seq<CancelSent>, cancelling: set<nat>) {
    && (cancels != [] || cancelling != {} ==> p.Fixed?)
    && forall k :: 0 <= k < |cancels| ==> cancels[k].active == Some(Caller(cancels[k].id))
  }

  ghost predicate Promises(w: Wire) {
    && (w.policy.ReadWrite? ==> OwnDeadlines(w.started, w.budgets))
    && OwnHandles(w.handles, |w.budgets|)
    && SettledOnce(w.active, w.queue, w.settled, |w.budgets|)
    && RemovedNeverRan(w.settled, w.started)
    && SubmissionOrder(w.started, w.queue)
    && CancelsGuarded(w.policy, w.cancels, w.cancelling)
  }

  // ---------------------------------------------------------------- the inductive invariant

  ghost predicate KnownIds(w: Wire) {
    && (forall k :: 0 <= k < |w.queue| ==> w.queue[k].id < |w.budgets|)
    && (forall k :: 0 <= k < |w.started| ==> w.started[k].statement.id < |w.budgets|)
    && (w.active.Some? ==> w.started != [] && w.started[|w.started| - 1].statement == w.active.value)
    && (w.ready ==> w.active.None?)
    && (forall id :: id in w.timers ==> id < |w.budgets|)
    && (forall id :: id in w.cancelling ==> id < |w.budgets| && HasStarted(w.started, Caller(id)))
  }

  predicate Carries(s: Statement, budgets: seq<int>) {
    s.SetTimeout? ==> s.id < |budgets| && s.ms == budgets[s.id]
  }

  predicate Behind(prior: Statement, s: Statement, budgets: seq<int>) {
    s.Caller? ==> s.id < |budgets| && prior == SetTimeout(s.id, budgets[s.id])
  }

  /** Inside the queue, every caller's query stands directly behind its own timeout statement. */
  ghost predicate PairedQueue(queue: seq<Statement>, budgets: seq<int>) {
    && (forall k :: 0 < k < |queue| ==> Behind(queue[k - 1], queue[k], budgets))
    && (forall k :: 0 <= k < |queue| ==> Carries(queue[k], budgets))
  }

  /** If the query in line has lost its timeout statement to the server, that was the last statement
      taken, and either it still runs or it did its work. */
  ghost predicate PairedHead(w: Wire) {
    && (w.active.Some? ==> Carries(w.active.value, w.budgets))
    && (w.queue != [] && w.queue[0].Caller? ==>
          && w.started != []
          && Behind(w.started[|w.started| - 1].statement, w.queue[0], w.budgets)
          && (w.active.None? ==> w.serverMs == w.budgets[w.queue[0].id] || w.aborted))
  }

  ghost predicate Paired(w: Wire) {
    w.policy.ReadWrite? ==> PairedQueue(w.queue, w.budgets) && PairedHead(w)
  }

  ghost predicate Inv(w: Wire) {
    KnownIds(w) && Paired(w) && Promises(w)
  }

  // ---------------------------------------------------------------- every step keeps it

  lemma DeadlinesExtend(started: seq<Started>, more: seq<Started>, budgets: seq<int>, budgets': seq<int>)
    requires OwnDeadlines(started, budgets) && budgets <= budgets'
    ensures forall k :: 0 <= k < |started| && started[k].statement.Caller? ==>
              OwnDeadlineAt(started + more, budgets', k)
  {
    forall k | 0 <= k < |started| && started[k].statement.Caller?
      ensures OwnDeadlineAt(started + more, budgets', k)
    {
      assert OwnDeadlineAt(started, budgets, k);
      assert (started + more)[k - 1] == started[k - 1];
    }
  }

  lemma StartedGrows(started: seq<Started>, next: Started, s: Statement)
    ensures HasStarted(started + [next], s) <==> HasStarted(started, s) || s == next.statement
  {
    assert (started + [next])[|started|] == next;
    if HasStarted(started, s) {
      var k :| 0 <= k < |started| && started[k].statement == s;
      assert (started + [next])[k].statement == s;
    }
  }

  /** Taking the oldest waiting statement reports nothing and loses nothing. */
  lemma TakeReports(w: Wire)
    requires Inv(w) && w.ready && w.queue != []
    ensures var w' := Take(w);
      && SettledOnce(w'.active, w'.queue, w'.settled, |w'.budgets|)
      && RemovedNeverRan(w'.settled, w'.started)
  {
    var w', head := Take(w), w.queue[0];
    assert w.queue == [head] + w'.queue;
    forall k | 0 <= k < |w.settled| ensures Caller(w.settled[k].id) != head {
      assert IsSettled(w.settled, w.settled[k].id);
      assert !Pending(w.active, w.queue, w.settled[k].id);
    }
    forall s ensures HasStarted(w'.started, s) <==> HasStarted(w.started, s) || s == head {
      StartedGrows(w.started, Started(head, w.serverMs, w.aborted), s);
    }
  }

  lemma TakeOrders(w: Wire)
    requires Inv(w) && w.ready && w.queue != []
    ensures KnownIds(Take(w)) && SubmissionOrder(Take(w).started, Take(w).queue)
  {
    var w' := Take(w);
    assert w.queue == [w.queue[0]] + w'.queue;
    assert w'.started[|w.started|].statement == w.queue[0];
    forall s | HasStarted(w.started, s) ensures HasStarted(w'.started, s) {
      StartedGrows(w.started, Started(w.queue[0], w.serverMs, w.aborted), s);
    }
  }

  lemma TakePairs(w: Wire)
    requires Inv(w) && w.policy.ReadWrite? && w.ready && w.queue != []
    ensures Paired(Take(w)) && OwnDeadlines(Take(w).started, w.budgets)
  {
    var w' := Take(w);
    assert w.queue == [w.queue[0]] + w'.queue;
    assert w'.started[|w.started|].statement == w.queue[0];
    DeadlinesExtend(w.started, [w'.started[|w.started|]], w.budgets, w.budgets);
  }

  lemma TakeKeeps(w: Wire)
    requires Inv(w)
    ensures Inv(Take(w))
  {
    if w.ready && w.queue != [] {
      TakeReports(w);
      TakeOrders(w);
      if w.policy.ReadWrite? { TakePairs(w); }
    }
  }

  /** A submission is one append of the pair, after which an idle client takes the oldest waiting
      statement; the handle captured afterwards is the caller's own query. */
  function Appended(w: Wire, readQuery: bool): Wire {
    var id := |w.budgets|;
    var ms := Budget(w.policy, readQuery);
    w.(queue := w.queue + (if w.policy.ReadWrite? then [SetTimeout(id, ms), Caller(id)] else [Caller(id)]),
       budgets := w.budgets + [ms], isRead := w.isRead + [readQuery], handles := w.handles + [Some(Caller(id))],
       timers := if ms > 0 then w.timers + {id} else w.timers)
  }

  lemma PairAppends(queue: seq<Statement>, a: Statement, b: Statement)
    ensures queue + [a] + [b] == queue + [a, b]
    ensures (queue + [a])[1..] + [b] == (queue + [a, b])[1..]
    ensures (queue + [a])[0] == (queue + [a, b])[0]
  {}

  /** Two statements queued one after the other: an idle client takes the oldest waiting one once. */
  lemma PushTwice(w: Wire, a: Statement, b: Statement)
    requires w.ready ==> w.active.None?
    ensures Push(Push(w, a), b) == Take(w.(queue := w.queue + [a, b]))
  {
    PairAppends(w.queue, a, b);
  }

  lemma CapturedIsLast(w: Wire, s: Statement)
    requires w.ready ==> w.active.None?
    ensures Captured(Push(w, s)) == Some(s)
  {
    if w.ready && w.queue != [] {
      assert (w.queue + [s])[1..][|w.queue| - 1] == s;
    }
  }

  lemma TakeThenRecord(w: Wire, budgets: seq<int>, isRead: seq<bool>, handles: seq<Option<Statement>>, timers: set<nat>)
    ensures Take(w).(budgets := budgets, isRead := isRead, handles := handles, timers := timers)
         == Take(w.(budgets := budgets, isRead := isRead, handles := handles, timers := timers))
  {}

  lemma SubmittedIsOneAppend(w: Wire, readQuery: bool)
    requires w.ready ==> w.active.None?
    ensures Submitted(w, readQuery) == Take(Appended(w, readQuery))
  {
    var id, ms := |w.budgets|, Budget(w.policy, readQuery);
    var timers := if ms > 0 then w.timers + {id} else w.timers;
    var first := if w.policy.ReadWrite? then Push(w, SetTimeout(id, ms)) else w;
    CapturedIsLast(first, Caller(id));
    PushTwice(w, SetTimeout(id, ms), Caller(id));
    var queue := w.queue + if w.policy.ReadWrite? then [SetTimeout(id, ms), Caller(id)] else [Caller(id)];
    assert Push(first, Caller(id)) == Take(w.(queue := queue));
    TakeThenRecord(w.(queue := queue), w.budgets + [ms], w.isRead + [readQuery],
                   w.handles + [Some(Caller(id))], timers);
  }

  lemma AppendReports(w: Wire, readQuery: bool)
    requires Inv(w)
    ensures var w' := Appended(w, readQuery); SettledOnce(w'.active, w'.queue, w'.settled, |w'.budgets|)
  {
    var id, w' := |w.budgets|, Appended(w, readQuery);
    assert w'.queue[|w'.queue| - 1] == Caller(id);
    forall i: nat | i < |w'.budgets|
      ensures Pending(w'.active, w'.queue, i) <==> !IsSettled(w'.settled, i)
    {
      if i == id {
        assert Caller(i) in w'.queue;
      } else if Caller(i) in w.queue {
        assert Caller(i) in w'.queue;
      }
    }
  }

  lemma AppendOrders(w: Wire, readQuery: bool)
    requires KnownIds(w) && SubmissionOrder(w.started, w.queue)
    ensures KnownIds(Appended(w, readQuery)) && SubmissionOrder(w.started, Appended(w, readQuery).queue)
  {}

  lemma AppendPairs(w: Wire, readQuery: bool)
    requires Inv(w) && w.policy.ReadWrite?
    ensures Paired(Appended(w, readQuery))
  {
    var w' := Appended(w, readQuery);
    forall k | 0 <= k < |w'.queue|
      ensures k > 0 ==> Behind(w'.queue[k - 1], w'.queue[k], w'.budgets)
      ensures Carries(w'.queue[k], w'.budgets)
    {
      if k < |w.queue| {
        assert Carries(w.queue[k], w.budgets);
        assert k > 0 ==> Behind(w.queue[k - 1], w.queue[k], w.budgets);
      }
    }
  }

  lemma AppendKeeps(w: Wire, readQuery: bool)
    requires Inv(w)
    ensures Inv(Appended(w, readQuery))
  {
    var w' := Appended(w, readQuery);
    AppendReports(w, readQuery);
    AppendOrders(w, readQuery);
    if w.policy.ReadWrite? {
      AppendPairs(w, readQuery);
      DeadlinesExtend(w.started, [], w.budgets, w'.budgets);
      assert w.started + [] == w.started;
    }
  }

  lemma {:induction false} WithoutSplits(q: seq<Statement>, i: nat)
    requires i < |q| && forall j :: 0 <= j < i ==> q[j] != q[i]
    ensures Without(q, q[i]) == q[..i] + q[i + 1..]
  {
    if i > 0 {
      var rest := q[1..];
      assert rest[i - 1] == q[i];
      forall j | 0 <= j < i - 1 ensures rest[j] != rest[i - 1] { assert rest[j] == q[j + 1]; }
      WithoutSplits(rest, i - 1);
      assert [q[0]] + rest[..i - 1] == q[..i];
      assert rest[i..] == q[i + 1..];
    }
  }

  /** Where a waiting query sits, and what the queue looks like without it. */
  lemma RemovalSplits(q: seq<Statement>, target: Statement) returns (i: nat)
    requires SubmissionOrder([], q) && target in q
    ensures i < |q| && q[i] == target && Without(q, target) == q[..i] + q[i + 1..]
  {
    i :| 0 <= i < |q| && q[i] == target;
    forall j | 0 <= j < i ensures q[j] != q[i] { assert Key(q[j]) < Key(q[i]); }
    WithoutSplits(q, i);
  }

  /** What waits has not run and does not run. */
  lemma WaitingIsFresh(w: Wire, id: nat)
    requires KnownIds(w) && SubmissionOrder(w.started, w.queue) && Caller(id) in w.queue
    ensures !HasStarted(w.started, Caller(id)) && w.active != Some(Caller(id))
  {
    var i :| 0 <= i < |w.queue| && w.queue[i] == Caller(id);
    forall k | 0 <= k < |w.started| ensures w.started[k].statement != Caller(id) {
      assert Key(w.started[k].statement) < Key(w.queue[i]);
    }
  }

  lemma NewSettlement(settled: seq<Settlement>, s: Settlement, id: nat)
    ensures IsSettled(settled + [s], id) <==> IsSettled(settled, id) || id == s.id
  {
    var after := settled + [s];
    assert after[|settled|] == s;
    if IsSettled(settled, id) {
      var k :| 0 <= k < |settled| && settled[k].id == id;
      assert after[k].id == id;
    }
  }

  lemma RemovalKeepsOthers(q: seq<Statement>, i: nat, s: Statement)
    requires i < |q| && SubmissionOrder([], q)
    ensures s in q[..i] + q[i + 1..] <==> s in q && s != q[i]
  {
    var q' := q[..i] + q[i + 1..];
    assert q == q[..i] + [q[i]] + q[i + 1..];
    forall k | 0 <= k < |q'| ensures q'[k] != q[i] {
      assert q'[k] == q[if k < i then k else k + 1];
    }
  }

  lemma RemovalSettlesOnce(w: Wire, id: nat, outcome: Outcome)
    requires KnownIds(w) && SettledOnce(w.active, w.queue, w.settled, |w.budgets|)
    requires SubmissionOrder(w.started, w.queue) && Caller(id) in w.queue
    ensures var w' := Removed(w, Caller(id), outcome); SettledOnce(w'.active, w'.queue, w'.settled, |w.budgets|)
  {
    var w' := Removed(w, Caller(id), outcome);
    var i := RemovalSplits(w.queue, Caller(id));
    WaitingIsFresh(w, id);
    assert Pending(w.active, w.queue, id);
    assert !IsSettled(w.settled, id);
    forall j: nat | j < |w.budgets|
      ensures Pending(w'.active, w'.queue, j) <==> !IsSettled(w'.settled, j)
    {
      NewSettlement(w.settled, Settlement(id, outcome), j);
      RemovalKeepsOthers(w.queue, i, Caller(j));
    }
  }

  lemma RemovalKeepsOrder(started: seq<Started>, q: seq<Statement>, i: nat)
    requires SubmissionOrder(started, q) && i < |q|
    ensures SubmissionOrder(started, q[..i] + q[i + 1..])
  {
    var q' := q[..i] + q[i + 1..];
    assert forall k :: 0 <= k < |q'| ==> q'[k] == q[if k < i then k else k + 1];
  }

  lemma RemovalSettles(w: Wire, id: nat, outcome: Outcome)
    requires KnownIds(w) && Promises(w)
    requires Caller(id) in w.queue && outcome in {TimedOutWaiting, SetRejected}
    ensures Promises(Removed(w, Caller(id), outcome))
  {
    var i := RemovalSplits(w.queue, Caller(id));
    WaitingIsFresh(w, id);
    RemovalSettlesOnce(w, id, outcome);
    RemovalKeepsOrder(w.started, w.queue, i);
  }

  lemma RemovalPairs(q: seq<Statement>, i: nat, budgets: seq<int>)
    requires i < |q| && q[i].Caller? && PairedQueue(q, budgets)
    ensures PairedQueue(q[..i] + q[i + 1..], budgets)
    ensures i + 1 < |q| ==> q[i + 1].SetTimeout?
  {
    var q' := q[..i] + q[i + 1..];
    assert i + 1 < |q| ==> Behind(q[i + 1 - 1], q[i + 1], budgets);
    forall k | 0 <= k < |q'|
      ensures k > 0 ==> Behind(q'[k - 1], q'[k], budgets)
      ensures Carries(q'[k], budgets)
    {
      var at := if k < i then k else k + 1;
      assert q'[k] == q[at] && Carries(q[at], budgets);
      assert at > 0 ==> Behind(q[at - 1], q[at], budgets);
    }
  }

  /** Removing a waiting query, also in the moment after its timeout statement was refused, when only
      the pairing of that one query is broken. */
  lemma RemovalKeeps(w: Wire, id: nat, outcome: Outcome)
    requires KnownIds(w) && Promises(w)
    requires Caller(id) in w.queue && outcome in {TimedOutWaiting, SetRejected}
    requires w.policy.ReadWrite? ==> PairedQueue(w.queue, w.budgets)
    requires w.policy.ReadWrite? ==> PairedHead(w) || (w.active.None? && w.queue[0] == Caller(id))
    ensures Inv(Removed(w, Caller(id), outcome))
  {
    RemovalSettles(w, id, outcome);
    var i := RemovalSplits(w.queue, Caller(id));
    if w.policy.ReadWrite? {
      RemovalPairs(w.queue, i, w.budgets);
      RemovalKeepsHead(w, i, Removed(w, Caller(id), outcome));
    }
    RemovalKeepsIds(w, i, Removed(w, Caller(id), outcome));
  }

  lemma RemovalKeepsIds(w: Wire, i: nat, w': Wire)
    requires KnownIds(w) && i < |w.queue|
    requires w' == w.(queue := w.queue[..i] + w.queue[i + 1..], settled := w'.settled)
    ensures KnownIds(w')
  {
    assert forall k :: 0 <= k < |w'.queue| ==> w'.queue[k] == w.queue[if k < i then k else k + 1];
  }

  lemma RemovalKeepsHead(w: Wire, i: nat, w': Wire)
    requires i < |w.queue| && w.queue[i].Caller?
    requires w' == w.(queue := w.queue[..i] + w.queue[i + 1..], settled := w'.settled)
    requires PairedHead(w) || (w.active.None? && i == 0)
    requires i + 1 < |w.queue| ==> w.queue[i + 1].SetTimeout?
    ensures PairedHead(w')
  {
    if w'.queue != [] {
      assert w'.queue[0] == w.queue[if i == 0 then 1 else 0];
    }
  }

  /** The active query is answered and reported. */
  lemma AnswerSettlesOnce(w: Wire, id: nat, outcome: Outcome)
    requires KnownIds(w) && SettledOnce(w.active, w.queue, w.settled, |w.budgets|)
    requires SubmissionOrder(w.started, w.queue) && w.active == Some(Caller(id))
    ensures SettledOnce(None, w.queue, w.settled + [Settlement(id, outcome)], |w.budgets|)
    ensures HasStarted(w.started, Caller(id))
  {
    assert Pending(w.active, w.queue, id);
    assert w.started[|w.started| - 1].statement == Caller(id);
    assert Caller(id) !in w.queue by {
      if Caller(id) in w.queue { WaitingIsFresh(w, id); }
    }
    var settled := w.settled + [Settlement(id, outcome)];
    forall j: nat | j < |w.budgets| ensures Pending(None, w.queue, j) <==> !IsSettled(settled, j) {
      NewSettlement(w.settled, Settlement(id, outcome), j);
    }
  }

  lemma AnswerKeepsHistory(settled: seq<Settlement>, started: seq<Started>, id: nat, outcome: Outcome)
    requires RemovedNeverRan(settled, started) && HasStarted(started, Caller(id)) && outcome in {Succeeded, Failed}
    ensures RemovedNeverRan(settled + [Settlement(id, outcome)], started)
  {}

  /** The session a statement leaves behind matters only to a query that waits at the head for its own. */
  lemma AnswerKeepsPairs(w: Wire, w': Wire)
    requires Inv(w) && w.active.Some? && w.active.value.Caller?
    requires w' == w.(active := None, ready := w'.ready, serverMs := w'.serverMs, aborted := w'.aborted,
                      settled := w'.settled)
    ensures KnownIds(w') && Paired(w')
  {}

  lemma CallerAnsweredKeeps(w: Wire, e: Event)
    requires Inv(w) && Legal(w, e) && (e.Succeed? || e.Fail?) && w.active.value.Caller?
    ensures Inv(Step(w, e))
  {
    var w', id := Step(w, e), w.active.value.id;
    var outcome := if e.Succeed? then Succeeded else Failed;
    AnswerSettlesOnce(w, id, outcome);
    AnswerKeepsHistory(w.settled, w.started, id, outcome);
    AnswerKeepsPairs(w, w');
  }

  lemma SetAnswerSettlesNothing(w: Wire)
    requires SettledOnce(w.active, w.queue, w.settled, |w.budgets|) && w.active.Some? && w.active.value.SetTimeout?
    ensures SettledOnce(None, w.queue, w.settled, |w.budgets|)
  {
    forall id: nat | id < |w.budgets|
      ensures Pending(None, w.queue, id) <==> Pending(w.active, w.queue, id)
    {}
  }

  /** A timeout statement leaves its own budget installed, or the transaction was aborted. */
  lemma SetAnswerKeepsPairs(w: Wire, w': Wire)
    requires KnownIds(w) && Paired(w) && w.active.Some? && w.active.value.SetTimeout?
    requires w' == w.(active := None, ready := w'.ready, serverMs := w'.serverMs, aborted := w.aborted)
    requires w'.serverMs == w.active.value.ms || w.aborted
    ensures KnownIds(w') && Paired(w')
  {}

  lemma SetAnsweredKeeps(w: Wire, e: Event)
    requires Inv(w) && Legal(w, e) && (e.Succeed? || e.Fail?) && w.active.value.SetTimeout?
    requires e.Fail? ==> e.code.InFailedTransaction?
    ensures Inv(Step(w, e))
  {
    SetAnswerSettlesNothing(w);
    SetAnswerKeepsPairs(w, Step(w, e));
  }

  lemma QueryLeadsOnceSetIsTaken(w: Wire, id: nat)
    requires Inv(w) && w.policy.ReadWrite? && Caller(id) in w.queue
    requires w.active.Some? && w.active.value.SetTimeout? && w.active.value.id == id
    ensures w.queue[0] == Caller(id)
  {
    forall k | 0 < k < |w.queue| ensures w.queue[k] != Caller(id) {
      assert Behind(w.queue[k - 1], w.queue[k], w.budgets);
      assert Key(w.started[|w.started| - 1].statement) < Key(w.queue[k - 1]);
    }
  }

  /** The step the pairing depends on: a timeout statement failed in a healthy transaction, so its
      query must not stay behind. */
  lemma SetRefusedKeeps(w: Wire, e: Event)
    requires Inv(w) && Legal(w, e) && e.Fail? && w.active.value.SetTimeout? && e.code.OtherError?
    ensures Inv(Step(w, e))
  {
    var id := w.active.value.id;
    var mid := w.(active := None, serverMs := e.serverMs, aborted := e.aborted);
    forall j: nat | j < |w.budgets|
      ensures Pending(mid.active, mid.queue, j) <==> Pending(w.active, w.queue, j)
    {}
    assert KnownIds(mid) && Promises(mid);
    if Caller(id) in w.queue {
      if w.policy.ReadWrite? {
        QueryLeadsOnceSetIsTaken(w, id);
      }
      RemovalKeeps(mid, id, SetRejected);
    } else {
      assert Paired(mid);
    }
  }

  /** Timers and cancellations come and go beside the queue. */
  lemma BesideTheQueue(w: Wire, timers: set<nat>, cancelling: set<nat>)
    requires Inv(w) && timers <= w.timers
    requires forall id :: id in cancelling - w.cancelling ==>
               w.policy.Fixed? && id < |w.budgets| && HasStarted(w.started, Caller(id))
    ensures Inv(w.(timers := timers, cancelling := cancelling))
  {
    var w' := w.(timers := timers, cancelling := cancelling);
    assert KnownIds(w') && Paired(w');
  }

  lemma TimerKeeps(w: Wire, id: nat)
    requires Inv(w) && Legal(w, TimerFires(id))
    ensures Inv(Step(w, TimerFires(id)))
  {
    var timers := w.timers - {id};
    BesideTheQueue(w, timers, w.cancelling);
    if Caller(id) in w.queue {
      RemovalKeeps(w.(timers := timers), id, TimedOutWaiting);
    } else if w.active == Some(Caller(id)) && w.policy.Fixed? {
      assert w.started[|w.started| - 1].statement == Caller(id);
      BesideTheQueue(w, timers, w.cancelling + {id});
    }
  }

  lemma ReadyKeeps(w: Wire)
    requires Inv(w) && Legal(w, Ready)
    ensures Inv(Step(w, Ready))
  {
    assert KnownIds(Step(w, Ready));
  }

  lemma ConnectKeeps(w: Wire, id: nat)
    requires Inv(w) && Legal(w, CancelConnects(id))
    ensures Inv(Step(w, CancelConnects(id)))
  {
    var mid, w' := w.(cancelling := w.cancelling - {id}), Step(w, CancelConnects(id));
    BesideTheQueue(w, w.timers, w.cancelling - {id});
    assert CancelsGuarded(w'.policy, w'.cancels, w'.cancelling);
    SentBesideTheQueue(mid, w'.cancels);
  }

  lemma SentBesideTheQueue(w: Wire, cancels: seq<CancelSent>)
    requires Inv(w) && CancelsGuarded(w.policy, cancels, w.cancelling)
    ensures Inv(w.(cancels := cancels))
  {
    var w' := w.(cancels := cancels);
    assert KnownIds(w') && Paired(w');
  }

  lemma CleanupKeeps(w: Wire, id: nat)
    requires Inv(w) && Legal(w, Cleanup(id))
    ensures Inv(Step(w, Cleanup(id)))
  {
    BesideTheQueue(w, w.timers - {id}, w.cancelling - {id});
  }

  lemma SubmitKeeps(w: Wire, readQuery: bool)
    requires Inv(w)
    ensures Inv(Submitted(w, readQuery)) && Submitted(w, readQuery).policy == w.policy
  {
    SubmittedIsOneAppend(w, readQuery);
    AppendKeeps(w, readQuery);
    TakeKeeps(Appended(w, readQuery));
  }

  lemma FailKeeps(w: Wire, e: Event)
    requires Inv(w) && Legal(w, e) && e.Fail?
    ensures Inv(Step(w, e))
  {
    if w.active.value.Caller? { CallerAnsweredKeeps(w, e); }
    else if e.code.OtherError? { SetRefusedKeeps(w, e); }
    else { SetAnsweredKeeps(w, e); }
  }

  lemma StepKeeps(w: Wire, e: Event)
    requires Inv(w) && Legal(w, e)
    ensures Inv(Step(w, e)) && Step(w, e).policy == w.policy
  {
    match e
    case Submit(readQuery) => SubmitKeeps(w, readQuery);
    case Pulse => TakeKeeps(w);
    case TimerFires(id) => TimerKeeps(w, id);
    case Succeed(_, _) =>
      if w.active.value.Caller? { CallerAnsweredKeeps(w, e); } else { SetAnsweredKeeps(w, e); }
    case Fail(_, _, _) => FailKeeps(w, e);
    case Ready => ReadyKeeps(w);
    case CancelConnects(id) => ConnectKeeps(w, id);
    case Cleanup(id) => CleanupKeeps(w, id);
  }

  lemma {:induction false} RunKeeps(w: Wire, events: seq<Event>)
    requires Inv(w) && LegalRun(w, events)
    ensures Inv(Run(w, events)) && Run(w, events).policy == w.policy
    decreases |events|
  {
    if events != [] {
      StepKeeps(w, events[0]);
      RunKeeps(Step(w, events[0]), events[1..]);
    }
  }

  lemma {:induction false} GuardTheorem(p: Policy, serverMs: int, events: seq<Event>)
    requires LegalRun(Init(p, serverMs), events)
    ensures Promises(Run(Init(p, serverMs), events))
  {
    RunKeeps(Init(p, serverMs), events);
  }

  // ---------------------------------------------------------------- whose timeout is installed

  /** A timeout statement carries the budget of its own call's kind. */
  predicate InstallsOwn(policy: Policy, isRead: seq<bool>, s: Statement) {
    s.SetTimeout? ==>
      policy.ReadWrite? && s.id < |isRead| && s.ms == if isRead[s.id] then policy.read else policy.write
  }

  predicate HasOwnBudget(policy: Policy, isRead: seq<bool>, budgets: seq<int>, id: nat)
    requires id < |budgets| == |isRead|
  {
    budgets[id] == if policy.Fixed? then policy.ms else if isRead[id] then policy.read else policy.write
  }

  /** Every call has the budget of its kind, and so has every timeout statement queued, active or started. */
  ghost predicate Timed(w: Wire) {
    && |w.isRead| == |w.budgets|
    && (forall id :: 0 <= id < |w.budgets| ==> HasOwnBudget(w.policy, w.isRead, w.budgets, id))
    && (forall s :: s in w.queue ==> InstallsOwn(w.policy, w.isRead, s))
    && (w.active.Some? ==> InstallsOwn(w.policy, w.isRead, w.active.value))
    && (forall k :: 0 <= k < |w.started| ==> InstallsOwn(w.policy, w.isRead, w.started[k].statement))
  }

  lemma TakeKeepsTimed(w: Wire)
    requires Timed(w)
    ensures Timed(Take(w))
  {
    if w.ready && w.queue != [] {
      assert w.queue[0] in w.queue;
      forall s | s in w.queue[1..] ensures InstallsOwn(w.policy, w.isRead, s) {
        assert s in w.queue;
      }
    }
  }

  lemma AppendKeepsTimed(w: Wire, readQuery: bool)
    requires Timed(w)
    ensures Timed(Appended(w, readQuery))
  {
    var w' := Appended(w, readQuery);
    forall s | s in w'.queue ensures InstallsOwn(w.policy, w'.isRead, s) {
      if s in w.queue { assert InstallsOwn(w.policy, w.isRead, s); }
    }
    forall id | 0 <= id < |w'.budgets| ensures HasOwnBudget(w.policy, w'.isRead, w'.budgets, id) {
      if id < |w.budgets| { assert HasOwnBudget(w.policy, w.isRead, w.budgets, id); }
    }
  }

  lemma {:induction false} WithoutHas(q: seq<Statement>, target: Statement, s: Statement)
    requires s in Without(q, target)
    ensures s in q
  {
    if q[0] != target && s != q[0] {
      WithoutHas(q[1..], target, s);
    }
  }

  lemma RemovalKeepsTimed(w: Wire, target: Statement, outcome: Outcome)
    requires Timed(w)
    ensures Timed(Removed(w, target, outcome))
  {
    forall s | s in Without(w.queue, target) ensures InstallsOwn(w.policy, w.isRead, s) {
      WithoutHas(w.queue, target, s);
    }
  }

  lemma FailKeepsTimed(w: Wire, code: SqlError, serverMs: int, aborted: bool)
    requires Timed(w) && w.active.Some? && w.active.value.id < |w.handles|
    ensures Timed(Failing(w, code, serverMs, aborted))
  {
    var mid, handle := w.(active := None, serverMs := serverMs, aborted := aborted), w.handles[w.active.value.id];
    if handle.Some? { RemovalKeepsTimed(mid, handle.value, SetRejected); }
  }

  lemma StepKeepsTimed(w: Wire, e: Event)
    requires Inv(w) && Timed(w) && Legal(w, e)
    ensures Timed(Step(w, e))
  {
    match e
    case Submit(readQuery) =>
      SubmittedIsOneAppend(w, readQuery);
      AppendKeepsTimed(w, readQuery);
      TakeKeepsTimed(Appended(w, readQuery));
    case Pulse => TakeKeepsTimed(w);
    case Fail(code, serverMs, aborted) => FailKeepsTimed(w, code, serverMs, aborted);
    case TimerFires(id) => RemovalKeepsTimed(w.(timers := w.timers - {id}), w.handles[id].value, TimedOutWaiting);
    case _ =>
  }

  /** Over every run each call is guarded with the budget of its own kind: under a read and write policy the read
      or the write budget, as the call was classified, and under a fixed policy the fixed one. */
  lemma {:induction false} BudgetTheorem(w: Wire, events: seq<Event>)
    requires Inv(w) && Timed(w) && LegalRun(w, events)
    ensures Timed(Run(w, events))
    decreases |events|
  {
    if events != [] {
      StepKeeps(w, events[0]);
      StepKeepsTimed(w, events[0]);
      BudgetTheorem(Step(w, events[0]), events[1..]);
    }
  }

  // ---------------------------------------------------------------- what single steps commit to

  lemma {:induction false} ReportsAreFinal(w: Wire, events: seq<Event>)
    requires LegalRun(w, events)
    ensures w.settled <= Run(w, events).settled
    decreases |events|
  {
    if events != [] { ReportsAreFinal(Step(w, events[0]), events[1..]); }
  }

  /** A query dropped with this report stays dropped, whatever happens next. */
  lemma DroppedNeverRuns(w: Wire, id: nat, outcome: Outcome, events: seq<Event>)
    requires Inv(w) && LegalRun(w, events)
    requires Settlement(id, outcome) in w.settled && outcome in {TimedOutWaiting, SetRejected}
    ensures var w' := Run(w, events);
      !HasStarted(w'.started, Caller(id)) && Settlement(id, outcome) in w'.settled
  {
    ReportsAreFinal(w, events);
    RunKeeps(w, events);
    var k :| 0 <= k < |w.settled| && w.settled[k] == Settlement(id, outcome);
    assert Run(w, events).settled[k] == Settlement(id, outcome);
  }

  /** A timer that finds its query still waiting takes it off the client for good. */
  lemma TimedOutNeverRuns(w: Wire, id: nat, events: seq<Event>)
    requires Inv(w) && Legal(w, TimerFires(id)) && Caller(id) in w.queue
    requires LegalRun(Step(w, TimerFires(id)), events)
    ensures var w' := Run(Step(w, TimerFires(id)), events);
      !HasStarted(w'.started, Caller(id)) && Settlement(id, TimedOutWaiting) in w'.settled
  {
    var w1 := Step(w, TimerFires(id));
    StepKeeps(w, TimerFires(id));
    assert w1.settled[|w.settled|] == Settlement(id, TimedOutWaiting);
    DroppedNeverRuns(w1, id, TimedOutWaiting, events);
  }

  /** A timeout statement refused in a healthy transaction takes its waiting query along. */
  lemma RefusedNeverRuns(w: Wire, e: Event, events: seq<Event>)
    requires Inv(w) && Legal(w, e)
    requires e.Fail? && e.code.OtherError? && w.active.value.SetTimeout?
    requires Caller(w.active.value.id) in w.queue && LegalRun(Step(w, e), events)
    ensures var w' := Run(Step(w, e), events); var id := w.active.value.id;
      !HasStarted(w'.started, Caller(id)) && Settlement(id, SetRejected) in w'.settled
  {
    var w1, id := Step(w, e), w.active.value.id;
    StepKeeps(w, e);
    assert w1.settled[|w.settled|] == Settlement(id, SetRejected);
    DroppedNeverRuns(w1, id, SetRejected, events);
  }

  /** Inside an aborted transaction the refused timeout statement leaves its query in line, so the
      ROLLBACK that recovers the transaction still runs next. */
  lemma RollbackStillRuns(w: Wire, e: Event)
    requires Inv(w) && w.policy.ReadWrite? && Legal(w, e) && e.Fail? && w.aborted
    requires w.active.value.SetTimeout? && Caller(w.active.value.id) in w.queue
    ensures var w' := Step(Step(Step(w, e), Ready), Pulse);
      && w'.active == Some(Caller(w.active.value.id))
      && w'.started[|w'.started| - 1].aborted
  {
    QueryLeadsOnceSetIsTaken(w, w.active.value.id);
  }

  /** A cancellation socket sends its request exactly when the query has not been answered. */
  lemma CancelIffUnanswered(w: Wire, id: nat)
    requires Inv(w) && Legal(w, CancelConnects(id))
    ensures var w' := Step(w, CancelConnects(id));
      w'.cancels == if IsSettled(w.settled, id) then w.cancels else w.cancels + [CancelSent(id, Some(Caller(id)))]
  {
    assert Pending(w.active, w.queue, id) <==> !IsSettled(w.settled, id);
    if Caller(id) in w.queue { WaitingIsFresh(w, id); }
  }

  /** A new call is recorded under its own kind, and its timer runs exactly if its budget is positive. */
  lemma SubmitArms(w: Wire, readQuery: bool)
    requires Inv(w) && Timed(w)
    ensures var w', id := Step(w, Submit(readQuery)), |w.budgets|;
      && |w'.budgets| == id + 1 && w'.isRead == w.isRead + [readQuery]
      && w'.timers == if w'.budgets[id] > 0 then w.timers + {id} else w.timers
  {
    SubmittedIsOneAppend(w, readQuery);
  }

  /** An answered query is reported with its answer. */
  lemma AnswerIsReported(w: Wire, e: Event)
    requires Inv(w) && Legal(w, e) && (e.Succeed? || e.Fail?) && w.active.value.Caller?
    ensures Step(w, e).settled == w.settled + [Settlement(w.active.value.id, if e.Succeed? then Succeeded else Failed)]
    ensures Step(w, e).active.None?
  {}

  /** A timer that finds its query active under a fixed policy starts a cancellation, and nothing else does. */
  lemma OverdueIsCancelled(w: Wire, id: nat)
    requires Inv(w) && Legal(w, TimerFires(id))
    ensures Step(w, TimerFires(id)).cancelling
         == if w.policy.Fixed? && w.active == Some(Caller(id)) then w.cancelling + {id} else w.cancelling
    ensures id !in Step(w, TimerFires(id)).timers
  {
    if Caller(id) in w.queue { WaitingIsFresh(w, id); }
  }

  /** The first call of a fresh client goes to the server at once, in a healthy session. */
  lemma FirstCallStarts(p: Policy, ms: int, readQuery: bool)
    ensures var w := Step(Init(p, ms), Submit(readQuery));
      && |w.started| == 1 && w.active == Some(w.started[0].statement)
      && w.started[0].statement.id == 0 && (w.started[0].statement.SetTimeout? <==> p.ReadWrite?)
      && w.started[0].serverMs == ms && !w.started[0].aborted
      && w.queue == if p.ReadWrite? then [Caller(0)] else []
  {
    SubmittedIsOneAppend(Init(p, ms), readQuery);
  }

  /** The oldest waiting statement is taken exactly by a ready client, and finds the session as it is. */
  lemma TakesOldest(w: Wire)
    ensures var w' := Step(w, Pulse);
      if w.ready && w.queue != [] then
        && w'.active == Some(w.queue[0]) && w'.queue == w.queue[1..] && !w'.ready
        && w'.started == w.started + [Started(w.queue[0], w.serverMs, w.aborted)]
      else w' == w
  {}

  /** What an answer does to the client and the session. After success the client is ready; after a failure it waits
      for the server to be ready again. A timeout statement that succeeds installs its budget; a caller's statement
      leaves the session as it made it; only a failure that began outside an aborted transaction can abort it. */
  lemma AnswersFollow(w: Wire, e: Event)
    requires Inv(w) && Legal(w, e) && (e.Succeed? || e.Fail?)
    ensures var w' := Step(w, e);
      && w'.active.None? && w'.ready == e.Succeed? && w'.started == w.started
      && w'.serverMs == (if e.Succeed? && w.active.value.SetTimeout? then w.active.value.ms else e.serverMs)
      && w'.aborted == (if w.active.value.SetTimeout? && (e.Succeed? || e.code.InFailedTransaction?) then w.aborted
                        else e.aborted)
      && w'.timers == w.timers && w'.cancelling == w.cancelling && w'.cancels == w.cancels
  {}

  /** A server that is ready makes the client ready; a connected cancellation socket is done; and cleaning up after a
      settled call disarms its timer and its cancellation. */
  lemma ClosesUp(w: Wire, e: Event)
    requires Inv(w) && Legal(w, e)
    ensures e.Ready? ==> Step(w, e) == w.(ready := true)
    ensures e.CancelConnects? ==> Step(w, e).cancelling == w.cancelling - {e.id} && Step(w, e).timers == w.timers
    ensures e.Cleanup? ==> e.id !in Step(w, e).timers && e.id !in Step(w, e).cancelling
    ensures e.Cleanup? ==> forall id :: id != e.id ==>
      (id in Step(w, e).timers <==> id in w.timers) && (id in Step(w, e).cancelling <==> id in w.cancelling)
  {}

  // ---------------------------------------------------------------- the client as the code keeps it

  datatype WrapError = InvalidTimeouts

  /** The first position of a statement in the queue, or -1. */
  method IndexOf(q: seq<Statement>, s: Statement) returns (index: int)
    ensures -1 <= index < |q|
    ensures index < 0 <==> s !in q
    ensures index >= 0 ==> q[index] == s && s !in q[..index]
  {
    for i := 0 to |q|
      invariant s !in q[..i]
    {
      if q[i] == s { return i; }
    }
    return -1;
  }

  lemma RemoveAtIsWithout(q: seq<Statement>, i: nat)
    requires i < |q| && q[i] !in q[..i]
    ensures q[..i] + q[i + 1..] == Without(q, q[i])
  {
    forall j | 0 <= j < i ensures q[j] != q[i] { assert q[j] in q[..i]; }
    WithoutSplits(q, i);
  }

  /** One session client and the variables its guarded calls close over: the handle, timer and
      cancellation of call `id`. The session and the records of what happened are ghost. */
  class GuardedClient {
    const policy: Policy
    var active: Option<Statement>
    var ready: bool
    var queue: seq<Statement>
    var budgets: seq<int>
    var handles: seq<Option<Statement>>
    var timers: set<nat>
    var cancelling: set<nat>
    ghost var serverMs: int
    ghost var aborted: bool
    ghost var settled: seq<Settlement>
    ghost var started: seq<Started>
    ghost var cancels: seq<CancelSent>
    ghost var isRead: seq<bool>

    ghost function View(): Wire
      reads this
    {
      Wire(policy, active, ready, queue, serverMs, aborted, budgets, handles, timers, cancelling,
           settled, started, cancels, isRead)
    }

    constructor (p: Policy, ghost ms: int)
      ensures View() == Init(p, ms)
    {
      policy, active, ready, queue := p, None, true, [];
      budgets, handles, timers, cancelling := [], [], {}, {};
      serverMs, aborted, settled, started, cancels, isRead := ms, false, [], [], [], [];
    }

    method PulseQueue()
      modifies this
      ensures View() == Take(old(View()))
    {
      if ready && |queue| > 0 {
        started := started + [Started(queue[0], serverMs, aborted)];
        active, ready := Some(queue[0]), false;
        queue := queue[1..];
      }
    }

    method Enqueue(s: Statement)
      modifies this
      ensures View() == Push(old(View()), s)
    {
      queue := queue + [s];
      PulseQueue();
    }

    /** Capture the handle of the call just queued, and arm its timer. */
    method Capture(ms: int, readQuery: bool)
      modifies this`budgets, this`handles, this`timers, this`isRead
      ensures var w := old(View());
        View() == w.(budgets := w.budgets + [ms], isRead := w.isRead + [readQuery],
                     handles := w.handles + [Captured(w)],
                     timers := if ms > 0 && Captured(w).Some? then w.timers + {|w.budgets|} else w.timers)
    {
      var captured := if |queue| > 0 then Some(queue[|queue| - 1]) else active;
      if ms > 0 && captured.Some? {
        timers := timers + {|budgets|};
      }
      budgets, handles := budgets + [ms], handles + [captured];
      isRead := isRead + [readQuery];
    }

    /** A guarded call: queue the pair without awaiting, then capture the handle. */
    method Submit(readQuery: bool) returns (id: nat)
      modifies this
      ensures View() == Submitted(old(View()), readQuery) && id == |old(budgets)|
    {
      id := |budgets|;
      var ms := Budget(policy, readQuery);
      if policy.ReadWrite? {
        Enqueue(SetTimeout(id, ms));
      }
      Enqueue(Caller(id));
      Capture(ms, readQuery);
    }

    /** The server answered the active statement. */
    method OnSuccess(ghost ms: int, ghost inAborted: bool)
      requires active.Some?
      modifies this
      ensures View() == Succeeding(old(View()), ms, inAborted)
    {
      match active.value {
        case SetTimeout(_, own) =>
          serverMs := own;
        case Caller(id) =>
          serverMs, aborted := ms, inAborted;
          settled := settled + [Settlement(id, Succeeded)];
      }
      active, ready := None, true;
    }

    /** Splice a waiting query out of the queue and hand its caller the error. */
    method DropWaiting(index: nat, outcome: Outcome)
      requires index < |queue| && queue[index] !in queue[..index]
      modifies this`queue, this`settled
      ensures View() == Removed(old(View()), old(queue[index]), outcome)
    {
      RemoveAtIsWithout(queue, index);
      settled := settled + [Settlement(queue[index].id, outcome)];
      queue := queue[..index] + queue[index + 1..];
    }

    /** The server refused the active statement; its callback runs before the next one is taken. */
    method OnError(code: SqlError, ghost ms: int, ghost inAborted: bool)
      requires active.Some? && active.value.id < |handles|
      modifies this
      ensures View() == Failing(old(View()), code, ms, inAborted)
    {
      var failed := active.value;
      active, serverMs := None, ms;
      match failed {
        case SetTimeout(id, _) =>
          if code.InFailedTransaction? { return; }
          aborted := inAborted;
          if handles[id].None? { return; }
          var index := IndexOf(queue, handles[id].value);
          if index >= 0 {
            DropWaiting(index, SetRejected);
          }
        case Caller(id) =>
          aborted := inAborted;
          settled := settled + [Settlement(id, Failed)];
      }
    }

    method OnTimer(id: nat)
      requires id < |handles| && handles[id].Some?
      modifies this
      ensures View() == Expiring(old(View()), id)
    {
      timers := timers - {id};
      var target := handles[id].value;
      var index := IndexOf(queue, target);
      if index >= 0 {
        DropWaiting(index, TimedOutWaiting);
      } else if active == Some(target) && policy.Fixed? {
        cancelling := cancelling + {id};
      }
    }

    method OnCancelConnect(id: nat)
      requires id < |handles|
      modifies this
      ensures View() == Connecting(old(View()), id)
    {
      cancelling := cancelling - {id};
      if active.Some? && active == handles[id] {
        cancels := cancels + [CancelSent(id, active)];
      }
    }

    /** What a settled call does last: clear its timer and close its cancellation socket. */
    method CleanUp(id: nat)
      requires IsSettled(settled, id)
      modifies this
      ensures View() == Step(old(View()), Cleanup(id))
    {
      cancelling := cancelling - {id};
      timers := timers - {id};
    }

    method OnReady()
      modifies this`ready
      ensures View() == old(View()).(ready := true)
    {
      ready := true;
    }

    /** Calls, answers, timers and cancellations in any order that can happen. */
    method Serve(events: seq<Event>)
      requires LegalRun(View(), events) && Inv(View())
      modifies this
      ensures View() == Run(old(View()), events) && Inv(View())
    {
      ghost var before := View();
      var k := 0;
      while k < |events|
        invariant k <= |events| && Inv(View())
        invariant LegalRun(View(), events[k..]) && Run(View(), events[k..]) == Run(before, events)
      {
        assert events[k..][1..] == events[k + 1..];
        StepKeeps(View(), events[k]);
        Handle(events[k]);
        k := k + 1;
      }
    }

    method Handle(e: Event)
      requires Legal(View(), e)
      modifies this
      ensures View() == Step(old(View()), e)
    {
      match e
      case Submit(readQuery) =>
        var _ := Submit(readQuery);
      case Pulse =>
        PulseQueue();
      case Succeed(ms, inAborted) =>
        OnSuccess(ms, inAborted);
      case Fail(code, ms, inAborted) =>
        OnError(code, ms, inAborted);
      case Ready =>
        OnReady();
      case TimerFires(id) =>
        OnTimer(id);
      case CancelConnects(id) =>
        OnCancelConnect(id);
      case Cleanup(id) =>
        CleanUp(id);
    }
  }

  /** Wrapping refuses read and write budgets outside 1..2147483647 milliseconds. */
  method Wrap(p: Policy, ghost ms: int) returns (r: Result<GuardedClient, WrapError>)
    ensures r.Ok? <==> (p.ReadWrite? ==> 0 < p.read < 2147483648 && 0 < p.write < 2147483648)
    ensures r.Ok? ==> fresh(r.value) && r.value.View() == Init(p, ms)
  {
    if p.ReadWrite? && !(1 <= p.read <= MAX_TIMEOUT_MS && 1 <= p.write <= MAX_TIMEOUT_MS) {
      return Err(InvalidTimeouts);
    }
    var client := new GuardedClient(p, ms);
    return Ok(client);
  }
}
