/** Fulfilment of saving orders: staff decisions, the five stages in order, and the log of their changes. */
module StageLog {
  import opened Wrappers

  /** A stage, by its place in the business order. */
  type Stage = k: nat | k < 5

  datatype Status = Pending | InProgress | Completed | Skipped

  datatype OrderStatus = AwaitingReview | Approved | Rejected | Started | Finished

  datatype InvoiceState = Draft | Unpaid | Overdue | Paid | Cancelled

  datatype Event = Event(stage: Stage, from: Status, to: Status, explanation: string)

  /** An order; its events are kept newest first. */
  datatype Row = Row(status: OrderStatus, stages: seq<Status>, events: seq<Event>,
                     paid: nat, refunded: nat, pendingRefund: nat, invoice: InvoiceState)

  datatype Decision = Decision(order: string, key: string, approve: bool)

  datatype Transition = Transition(order: string, key: string, stage: Stage, skip: bool, explanation: string)

  datatype Receipt =
    | DecisionReceipt(order: string, approved: bool, refunds: bool)
    | StageReceipt(order: string, finished: bool, stage: Stage, stageStatus: Status, next: Option<Stage>)

  /** Decisions and stage transitions keep their receipts apart, each by idempotency key. */
  datatype Desk = Desk(rows: map<string, Row>, decisions: map<string, Receipt>, transitions: map<string, Receipt>)

  datatype Command = Decide(decision: Decision) | Move(transition: Transition)

  /** The stages of an order whose current one is at `position`, all before it done. */
  function StagesAt(position: nat): seq<Status> {
    seq(5, i => if i < position then Completed else if i == position then InProgress else Pending)
  }

  const NOT_STARTED: seq<Status> := [Pending, Pending, Pending, Pending, Pending]

  function NextStage(stage: Stage): Option<Stage> {
    if stage + 1 < 5 then Some(stage + 1) else None
  }

  function Owed(row: Row): nat {
    if row.paid > row.refunded then row.paid - row.refunded else 0
  }

  function Decided(row: Row, approve: bool): Row {
    if approve then
      row.(status := Approved, stages := StagesAt(1),
           events := [Event(1, Pending, InProgress, "Request approved"),
                      Event(0, Pending, Completed, "Staff approved request")] + row.events)
    else
      row.(status := Rejected,
           pendingRefund := if Owed(row) > 0 then Owed(row) else row.pendingRefund,
           invoice := if Owed(row) == 0 && (row.invoice.Draft? || row.invoice.Unpaid? || row.invoice.Overdue?)
                      then Cancelled else row.invoice)
  }

  function Moved(row: Row, stage: Stage, skip: bool, explanation: string): Row
    requires |row.stages| == 5
  {
    var done := if skip then Skipped else Completed;
    var finished := row.stages[stage := done];
    var recorded := [Event(stage, InProgress, done, explanation)] + row.events;
    match NextStage(stage)
    case None => row.(status := Finished, stages := finished, events := recorded)
    case Some(next) =>
      row.(status := Started, stages := finished[next := InProgress],
           events := [Event(next, Pending, InProgress, "Previous stage finished")] + recorded)
  }

  predicate Shaped(desk: Desk) {
    forall o :: o in desk.rows ==> |desk.rows[o].stages| == 5
  }

  predicate Known(desk: Desk, command: Command) {
    match command
    case Decide(d) => d.key in desk.decisions || d.order in desk.rows
    case Move(t) => t.key in desk.transitions || t.order in desk.rows
  }

  /** A command whose key was seen before changes nothing; any other is carried out. */
  function Persisted(desk: Desk, command: Command): Desk
    requires Known(desk, command) && Shaped(desk)
  {
    match command
    case Decide(d) =>
      if d.key in desk.decisions then desk
      else
        var row := desk.rows[d.order];
        desk.(rows := desk.rows[d.order := Decided(row, d.approve)],
              decisions := desk.decisions[d.key := DecisionReceipt(d.order, d.approve, !d.approve && Owed(row) > 0)])
    case Move(t) =>
      if t.key in desk.transitions then desk
      else
        desk.(rows := desk.rows[t.order := Moved(desk.rows[t.order], t.stage, t.skip, t.explanation)],
              transitions := desk.transitions[t.key := StageReceipt(t.order, NextStage(t.stage).None?, t.stage,
                if t.skip then Skipped else Completed, NextStage(t.stage))])
  }

  // ---------------------------------------------------------------- replaying the log

  /** What a log, newest first, makes of the stages it started from. It fits only if every event found its
      stage in the status it says it came from. */
  function Replay(start: seq<Status>, events: seq<Event>): Option<seq<Status>>
    requires |start| == 5
    ensures Replay(start, events).Some? ==> |Replay(start, events).value| == 5
  {
    if events == [] then Some(start)
    else
      var before := Replay(start, events[1..]);
      if before.None? || before.value[events[0].stage] != events[0].from then None
      else Some(before.value[events[0].stage := events[0].to])
  }

  predicate Done(status: Status) {
    status.Completed? || status.Skipped?
  }

  /** Finished stages, then at most one in progress, then pending ones. */
  predicate InOrder(stages: seq<Status>) {
    |stages| == 5 && forall i, j :: 0 <= i < j < 5 && !stages[j].Pending? ==> Done(stages[i])
  }

  predicate AllDone(stages: seq<Status>) {
    forall i :: 0 <= i < |stages| ==> Done(stages[i])
  }

  predicate Begun(status: Status) {
    !status.Pending?
  }

  /** How many of the stages, from `k` on, pass a test one after the other. */
  function Leading(stages: seq<Status>, test: Status -> bool, k: nat): (n: nat)
    requires k <= |stages|
    ensures k <= n <= |stages|
    decreases |stages| - k
  {
    if k == |stages| || !test(stages[k]) then k else Leading(stages, test, k + 1)
  }

  lemma {:induction false} LeadingIs(stages: seq<Status>, test: Status -> bool, k: nat, n: nat)
    requires k <= n <= |stages|
    requires forall i :: k <= i < n ==> test(stages[i])
    requires n < |stages| ==> !test(stages[n])
    ensures Leading(stages, test, k) == n
    decreases n - k
  {
    if k < n {
      LeadingIs(stages, test, k + 1, n);
    }
  }

  function Range(low: nat, high: nat): seq<nat>
    decreases high
  {
    if high <= low then [] else Range(low, high - 1) + [high - 1]
  }

  predicate Finishes(event: Event) {
    Done(event.to)
  }

  predicate Enters(event: Event) {
    event.from.Pending?
  }

  /** The stages of the events that pass a test, oldest first. */
  function Visited(events: seq<Event>, test: Event -> bool): seq<nat> {
    if events == [] then []
    else Visited(events[1..], test) + (if test(events[0]) then [events[0].stage] else [])
  }

  lemma VisitedNext(event: Event, events: seq<Event>, test: Event -> bool)
    ensures Visited([event] + events, test) == Visited(events, test) + (if test(event) then [event.stage] else [])
  {
    assert ([event] + events)[1..] == events;
  }

  /** The log finished, and entered, just the stages that were not yet at the start and are now: each once, in
      the business order, with none left out. */
  ghost predicate Stepwise(start: seq<Status>, stages: seq<Status>, events: seq<Event>) {
    && Leading(start, Done, 0) <= Leading(stages, Done, 0)
    && Leading(start, Begun, 0) <= Leading(stages, Begun, 0)
    && Visited(events, Finishes) == Range(Leading(start, Done, 0), Leading(stages, Done, 0))
    && Visited(events, Enters) == Range(Leading(start, Begun, 0), Leading(stages, Begun, 0))
  }

  ghost predicate Good(start: seq<Status>, row: Row) {
    && |start| == 5 && InOrder(row.stages)
    && Replay(start, row.events) == Some(row.stages)
    && Stepwise(start, row.stages, row.events)
    && (row.status.Finished? <==> AllDone(row.stages))
    && (row.status.AwaitingReview? ==> row.stages == NOT_STARTED)
  }

  ghost predicate Inv(starts: map<string, seq<Status>>, desk: Desk) {
    forall o :: o in desk.rows ==> o in starts && Good(starts[o], desk.rows[o])
  }

  // ---------------------------------------------------------------- which commands keep the log

  /** Replaying one more event. */
  lemma ReplayNext(start: seq<Status>, event: Event, events: seq<Event>)
    requires |start| == 5
    ensures var before := Replay(start, events);
      Replay(start, [event] + events) ==
      (if before.None? || before.value[event.stage] != event.from then None
       else Some(before.value[event.stage := event.to]))
  {
    assert ([event] + events)[1..] == events;
  }

  /** One more event keeps the log stepwise when it enters or finishes just the next stage. */
  lemma StepwiseNext(start: seq<Status>, stages: seq<Status>, events: seq<Event>, event: Event, after: seq<Status>)
    requires Stepwise(start, stages, events)
    requires var done := Leading(stages, Done, 0);
      if Done(event.to) then event.stage == done && Leading(after, Done, 0) == done + 1
      else Leading(after, Done, 0) == done
    requires var begun := Leading(stages, Begun, 0);
      if event.from.Pending? then event.stage == begun && Leading(after, Begun, 0) == begun + 1
      else Leading(after, Begun, 0) == begun
    ensures Stepwise(start, after, [event] + events)
  {
    VisitedNext(event, events, Finishes);
    VisitedNext(event, events, Enters);
  }

  lemma ApprovalReplays(start: seq<Status>, row: Row)
    requires Good(start, row)
    ensures Replay(start, Decided(row, true).events) ==
            (if row.stages == NOT_STARTED then Some(StagesAt(1)) else None)
  {
    var first := Event(0, Pending, Completed, "Staff approved request");
    var second := Event(1, Pending, InProgress, "Request approved");
    assert [second, first] + row.events == [second] + ([first] + row.events);
    ReplayNext(start, first, row.events);
    ReplayNext(start, second, [first] + row.events);
    if row.stages == NOT_STARTED {
      assert NOT_STARTED[0 := Completed][1 := InProgress] == StagesAt(1);
    }
  }

  lemma ApprovalStepwise(start: seq<Status>, events: seq<Event>)
    requires Stepwise(start, NOT_STARTED, events)
    ensures var first := Event(0, Pending, Completed, "Staff approved request");
      var second := Event(1, Pending, InProgress, "Request approved");
      Stepwise(start, StagesAt(1), [second, first] + events)
  {
    var first := Event(0, Pending, Completed, "Staff approved request");
    var second := Event(1, Pending, InProgress, "Request approved");
    var between := NOT_STARTED[0 := Completed];
    LeadingIs(NOT_STARTED, Done, 0, 0);
    LeadingIs(NOT_STARTED, Begun, 0, 0);
    LeadingIs(between, Done, 0, 1);
    LeadingIs(between, Begun, 0, 1);
    LeadingIs(StagesAt(1), Done, 0, 1);
    LeadingIs(StagesAt(1), Begun, 0, 2);
    StepwiseNext(start, NOT_STARTED, events, first, between);
    StepwiseNext(start, between, [first] + events, second, StagesAt(1));
    assert [second, first] + events == [second] + ([first] + events);
  }

  /** An approval keeps an order's log exactly when none of its stages was begun. */
  lemma ApprovalKeepsIff(start: seq<Status>, row: Row)
    requires Good(start, row)
    ensures Good(start, Decided(row, true)) <==> row.stages == NOT_STARTED
  {
    ApprovalReplays(start, row);
    if row.stages == NOT_STARTED {
      ApprovalStepwise(start, row.events);
      assert !Done(StagesAt(1)[1]);
    }
  }

  /** A rejection keeps it exactly when the order was not finished. */
  lemma RejectionKeepsIff(start: seq<Status>, row: Row)
    requires Good(start, row)
    ensures Good(start, Decided(row, false)) <==> !row.status.Finished?
  {}

  lemma MoveReplays(start: seq<Status>, row: Row, stage: Stage, skip: bool, explanation: string)
    requires Good(start, row)
    ensures var after := Moved(row, stage, skip, explanation);
      Replay(start, after.events) == (if row.stages[stage].InProgress? then Some(after.stages) else None)
  {
    var done := if skip then Skipped else Completed;
    var finish := Event(stage, InProgress, done, explanation);
    ReplayNext(start, finish, row.events);
    if stage < 4 {
      ReplayNext(start, Event(stage + 1, Pending, InProgress, "Previous stage finished"), [finish] + row.events);
    }
  }

  lemma MoveStepwise(start: seq<Status>, row: Row, stage: Stage, skip: bool, explanation: string)
    requires Stepwise(start, row.stages, row.events)
    requires InOrder(row.stages) && row.stages[stage].InProgress?
    ensures var after := Moved(row, stage, skip, explanation); Stepwise(start, after.stages, after.events)
  {
    var done := if skip then Skipped else Completed;
    var finish, finished := Event(stage, InProgress, done, explanation), row.stages[stage := done];
    LeadingIs(row.stages, Done, 0, stage);
    LeadingIs(row.stages, Begun, 0, stage + 1);
    LeadingIs(finished, Done, 0, stage + 1);
    LeadingIs(finished, Begun, 0, stage + 1);
    StepwiseNext(start, row.stages, row.events, finish, finished);
    if stage < 4 {
      var begun := finished[stage + 1 := InProgress];
      LeadingIs(begun, Done, 0, stage + 1);
      LeadingIs(begun, Begun, 0, stage + 2);
      StepwiseNext(start, finished, [finish] + row.events,
                   Event(stage + 1, Pending, InProgress, "Previous stage finished"), begun);
    }
  }

  /** A transition keeps it exactly when its stage was in progress. */
  lemma MoveKeepsIff(start: seq<Status>, row: Row, stage: Stage, skip: bool, explanation: string)
    requires Good(start, row)
    ensures Good(start, Moved(row, stage, skip, explanation)) <==> row.stages[stage].InProgress?
  {
    MoveReplays(start, row, stage, skip, explanation);
    if row.stages[stage].InProgress? {
      MoveStepwise(start, row, stage, skip, explanation);
      assert forall i :: stage < i < 5 ==> row.stages[i].Pending?;
      if stage < 4 {
        assert Moved(row, stage, skip, explanation).stages[stage + 1].InProgress?;
      }
    }
  }

  /** What a caller can check before a command; none of it is checked by the code. */
  predicate Guard(desk: Desk, command: Command)
    requires Known(desk, command) && Shaped(desk)
  {
    match command
    case Decide(d) =>
      d.key in desk.decisions ||
      (if d.approve then desk.rows[d.order].stages == NOT_STARTED else !desk.rows[d.order].status.Finished?)
    case Move(t) => t.key in desk.transitions || desk.rows[t.order].stages[t.stage].InProgress?
  }

  lemma Replaced(starts: map<string, seq<Status>>, desk: Desk, after: Desk, order: string, row: Row)
    requires Inv(starts, desk) && order in desk.rows && after.rows == desk.rows[order := row]
    ensures Inv(starts, after) <==> Good(starts[order], row)
  {
    if Inv(starts, after) {
      assert order in after.rows;
    }
  }

  lemma InvShapes(starts: map<string, seq<Status>>, desk: Desk)
    requires Inv(starts, desk)
    ensures Shaped(desk)
  {
    forall o | o in desk.rows ensures |desk.rows[o].stages| == 5 {
      assert Good(starts[o], desk.rows[o]);
    }
  }

  /** A command of either kind keeps the invariant exactly when its guard holds. */
  lemma KeepsIffGuard(starts: map<string, seq<Status>>, desk: Desk, command: Command)
    requires Inv(starts, desk) && Known(desk, command)
    ensures Shaped(desk)
    ensures Inv(starts, Persisted(desk, command)) <==> Guard(desk, command)
  {
    InvShapes(starts, desk);
    var after := Persisted(desk, command);
    match command
    case Decide(d) =>
      if d.key !in desk.decisions {
        var start, row := starts[d.order], desk.rows[d.order];
        Replaced(starts, desk, after, d.order, Decided(row, d.approve));
        if d.approve { ApprovalKeepsIff(start, row); } else { RejectionKeepsIff(start, row); }
      }
    case Move(t) =>
      if t.key !in desk.transitions {
        var start, row := starts[t.order], desk.rows[t.order];
        Replaced(starts, desk, after, t.order, Moved(row, t.stage, t.skip, t.explanation));
        MoveKeepsIff(start, row, t.stage, t.skip, t.explanation);
      }
  }

  // ---------------------------------------------------------------- runs

  /** Every command names an order of the desk, or repeats a key. */
  ghost predicate KnownRun(desk: Desk, commands: seq<Command>)
    decreases |commands|
  {
    commands == [] ||
    (Known(desk, commands[0]) && Shaped(desk) && KnownRun(Persisted(desk, commands[0]), commands[1..]))
  }

  ghost predicate GuardedRun(desk: Desk, commands: seq<Command>)
    requires KnownRun(desk, commands)
    decreases |commands|
  {
    commands == [] ||
    (Guard(desk, commands[0]) && GuardedRun(Persisted(desk, commands[0]), commands[1..]))
  }

  ghost function Run(desk: Desk, commands: seq<Command>): Desk
    requires KnownRun(desk, commands)
    decreases |commands|
  {
    if commands == [] then desk else Run(Persisted(desk, commands[0]), commands[1..])
  }

  /** Over every run: replaying an order's log from the start reproduces its stages, event by event; stages
      stay in order; the log finished and entered the stages one by one, with none left out; and the order is
      finished exactly when no stage remains. */
  lemma {:induction false} StageTheorem(starts: map<string, seq<Status>>, desk: Desk, commands: seq<Command>)
    requires Inv(starts, desk) && KnownRun(desk, commands) && GuardedRun(desk, commands)
    ensures Inv(starts, Run(desk, commands))
    decreases |commands|
  {
    if commands != [] {
      KeepsIffGuard(starts, desk, commands[0]);
      StageTheorem(starts, Persisted(desk, commands[0]), commands[1..]);
    }
  }

  /** A visit of a log is also found in it. */
  lemma {:induction false} VisitIsFound(events: seq<Event>, test: Event -> bool, stage: nat) returns (j: nat)
    requires stage in Visited(events, test)
    ensures j < |events| && test(events[j]) && events[j].stage == stage
  {
    if test(events[0]) && events[0].stage == stage {
      j := 0;
    } else {
      var k := VisitIsFound(events[1..], test, stage);
      j := k + 1;
    }
  }

  /** The event at `i` is visited right after the visits of the older events. */
  lemma {:induction false} VisitedAt(events: seq<Event>, test: Event -> bool, i: nat)
    requires i < |events| && test(events[i])
    ensures Visited(events[i + 1..], test) + [events[i].stage] <= Visited(events, test)
  {
    if i == 0 {
      assert events[1..] == events[0 + 1..];
    } else {
      VisitedAt(events[1..], test, i - 1);
      assert events[1..][i..] == events[i + 1..];
    }
  }

  lemma {:induction false} RangeAt(low: nat, high: nat, k: nat)
    requires k < |Range(low, high)|
    ensures Range(low, high)[k] == low + k
  {
    RangeLength(low, high - 1);
    if k < |Range(low, high - 1)| {
      RangeAt(low, high - 1, k);
    }
  }

  lemma {:induction false} RangeLength(low: nat, high: nat)
    ensures |Range(low, high)| == if low < high then high - low else 0
  {
    if low < high {
      RangeLength(low, high - 1);
    }
  }

  /** Where the visits of a log are a range, an event's stage is the first one or was led up to by an older
      event for the stage before it. */
  lemma EarlierVisit(events: seq<Event>, test: Event -> bool, low: nat, high: nat, i: nat) returns (earlier: nat)
    requires Visited(events, test) == Range(low, high)
    requires i < |events| && test(events[i])
    ensures events[i].stage >= low
    ensures events[i].stage > low ==> i < earlier < |events|
    ensures events[i].stage > low ==> test(events[earlier]) && events[earlier].stage == events[i].stage - 1
  {
    var before, stage := Visited(events[i + 1..], test), events[i].stage;
    VisitedAt(events, test, i);
    assert (before + [stage])[|before|] == stage;
    RangeAt(low, high, |before|);
    earlier := 0;
    if stage > low {
      assert (before + [stage])[|before| - 1] == before[|before| - 1];
      RangeAt(low, high, |before| - 1);
      var j := VisitIsFound(events[i + 1..], test, stage - 1);
      earlier := i + 1 + j;
    }
  }

  /** A log never skips a stage: whatever event finishes one, an older event finished the one before it, unless
      that was done from the start. */
  lemma NoneSkipped(starts: map<string, seq<Status>>, desk: Desk, order: string, i: nat) returns (earlier: nat)
    requires Inv(starts, desk) && order in desk.rows && order in starts
    requires i < |desk.rows[order].events| && Finishes(desk.rows[order].events[i])
    ensures var events, first := desk.rows[order].events, Leading(starts[order], Done, 0);
      && events[i].stage >= first
      && (events[i].stage > first ==> i < earlier < |events|)
      && (events[i].stage > first ==> Finishes(events[earlier]) && events[earlier].stage == events[i].stage - 1)
  {
    var row := desk.rows[order];
    assert Good(starts[order], row);
    earlier := EarlierVisit(row.events, Finishes, Leading(starts[order], Done, 0), Leading(row.stages, Done, 0), i);
  }

  predicate SetUp(row: Row, position: nat) {
    && position < 5 && row.events == [] && !row.status.Finished?
    && row.stages == if row.status.AwaitingReview? then NOT_STARTED else StagesAt(position)
  }

  lemma SetUpIsGood(row: Row, position: nat)
    requires SetUp(row, position)
    ensures Good(row.stages, row)
  {
    assert !Done(NOT_STARTED[0]) && !Done(StagesAt(position)[position]);
    RangeLength(Leading(row.stages, Done, 0), Leading(row.stages, Done, 0));
    RangeLength(Leading(row.stages, Begun, 0), Leading(row.stages, Begun, 0));
  }

  /** Orders as they are set up, with nothing logged yet: waiting for a decision, or at some stage. */
  lemma SetupHolds(orders: map<string, nat>, desk: Desk)
    requires desk.rows.Keys == orders.Keys
    requires forall o :: o in orders ==> SetUp(desk.rows[o], orders[o])
    ensures Inv(map o | o in orders :: desk.rows[o].stages, desk)
  {
    forall o | o in orders ensures Good(desk.rows[o].stages, desk.rows[o]) {
      SetUpIsGood(desk.rows[o], orders[o]);
    }
  }

  // ---------------------------------------------------------------- where the guard fails

  function OneOrder(row: Row): Desk {
    Desk(map["order" := row], map[], map[])
  }

  const WAITING := Row(AwaitingReview, NOT_STARTED, [], 100, 0, 0, Paid)

  const LAST_STAGE := Row(Started, StagesAt(4), [], 100, 0, 0, Paid)

  lemma OneOrderHolds(row: Row, position: nat)
    requires SetUp(row, position)
    ensures Inv(map["order" := row.stages], OneOrder(row))
  {
    SetUpIsGood(row, position);
  }

  /** An order approved twice, under two keys: the second approval sets the stages back, and the log no longer
      leads to them. */
  lemma SecondApprovalBreaksLog()
    ensures var starts, first := map["order" := NOT_STARTED], Decide(Decision("order", "first", true));
      var second := Decide(Decision("order", "second", true));
      var approved := Persisted(OneOrder(WAITING), first);
      && Inv(starts, OneOrder(WAITING)) && Guard(OneOrder(WAITING), first) && Inv(starts, approved)
      && !Guard(approved, second)
      && Replay(NOT_STARTED, Persisted(approved, second).rows["order"].events).None?
  {
    OneOrderHolds(WAITING, 0);
    ApprovalKeepsIff(NOT_STARTED, WAITING);
    var row := Decided(WAITING, true);
    assert row.stages[0].Completed?;
    ApprovalReplays(NOT_STARTED, row);
  }

  /** An order rejected after its last stage: all stages are done, and the order is no longer finished. */
  lemma RejectingFinishedBreaksLog()
    ensures var starts, last := map["order" := StagesAt(4)], Move(Transition("order", "last", 4, false, ""));
      var reject := Decide(Decision("order", "reject", false));
      var finished := Persisted(OneOrder(LAST_STAGE), last);
      var after := Persisted(finished, reject).rows["order"];
      && Inv(starts, OneOrder(LAST_STAGE)) && Guard(OneOrder(LAST_STAGE), last) && Inv(starts, finished)
      && !Guard(finished, reject)
      && AllDone(after.stages) && !after.status.Finished?
  {
    OneOrderHolds(LAST_STAGE, 4);
    MoveKeepsIff(StagesAt(4), LAST_STAGE, 4, false, "");
  }

  lemma {:induction false} ReceiptsStay(desk: Desk, commands: seq<Command>)
    requires KnownRun(desk, commands) && Shaped(desk)
    ensures Shaped(Run(desk, commands))
    ensures var later := Run(desk, commands);
      && (forall k :: k in desk.decisions ==> k in later.decisions && later.decisions[k] == desk.decisions[k])
      && (forall k :: k in desk.transitions ==> k in later.transitions && later.transitions[k] == desk.transitions[k])
    decreases |commands|
  {
    if commands != [] {
      ReceiptsStay(Persisted(desk, commands[0]), commands[1..]);
    }
  }

  predicate SameKey(a: Command, b: Command) {
    (a.Decide? && b.Decide? && a.decision.key == b.decision.key) ||
    (a.Move? && b.Move? && a.transition.key == b.transition.key)
  }

  /** A repeated key adds nothing to any order or log, whatever has happened since. */
  lemma RepeatAddsNothing(desk: Desk, command: Command, between: seq<Command>, again: Command)
    requires Known(desk, command) && Shaped(desk) && KnownRun(Persisted(desk, command), between)
    requires SameKey(command, again)
    ensures var later := Run(Persisted(desk, command), between);
      Known(later, again) && Shaped(later) && Persisted(later, again) == later
  {
    ReceiptsStay(Persisted(desk, command), between);
  }

  /** An approval leaves the money alone. A rejection of a paid order leaves exactly the unrefunded money to give
      back and the invoice as it was; of any other, an open invoice cancelled and nothing else changed. */
  predicate DecisionSettles(was: Row, now: Row, approve: bool) {
    && now.paid == was.paid && now.refunded == was.refunded
    && now.status == (if approve then Approved else Rejected)
    && (approve ==> now.pendingRefund == was.pendingRefund && now.invoice == was.invoice)
    && (!approve && was.paid > was.refunded ==>
          now.pendingRefund + was.refunded == was.paid && now.invoice == was.invoice)
    && (!approve && was.paid <= was.refunded ==>
          && now.pendingRefund == was.pendingRefund
          && now.invoice == match was.invoice { case Paid => Paid case _ => Cancelled })
  }

  /** What a transition does to the order besides its stages: it is under way until its last stage ends, and its
      money stays. */
  predicate TransitionMoves(was: Row, now: Row, stage: Stage) {
    && now.status == (if stage == 4 then Finished else Started)
    && now.paid == was.paid && now.refunded == was.refunded
    && now.pendingRefund == was.pendingRefund && now.invoice == was.invoice
  }

  class Operations {
    var rows: map<string, Row>
    var decisions: map<string, Receipt>
    var transitions: map<string, Receipt>

    constructor (rows: map<string, Row>)
      ensures View() == Desk(rows, map[], map[])
    {
      this.rows, decisions, transitions := rows, map[], map[];
    }

    function View(): Desk
      reads this
    {
      Desk(rows, decisions, transitions)
    }

    /** Puts an event before the others. */
    method AddEvent(order: string, stage: Stage, from: Status, to: Status, explanation: string)
      requires order in rows
      modifies this`rows
      ensures rows == old(rows)[order := old(rows)[order].(events :=
                [Event(stage, from, to, explanation)] + old(rows)[order].events)]
    {
      rows := rows[order := rows[order].(events := [Event(stage, from, to, explanation)] + rows[order].events)];
    }

    method PersistDecision(d: Decision) returns (receipt: Receipt)
      requires Known(View(), Decide(d)) && Shaped(View())
      modifies this
      ensures View() == Persisted(old(View()), Decide(d))
      ensures d.key !in old(decisions) ==>
        && receipt == DecisionReceipt(d.order, d.approve,
                                      !d.approve && old(rows)[d.order].paid > old(rows)[d.order].refunded)
        && DecisionSettles(old(rows)[d.order], rows[d.order], d.approve)
    {
      if d.key in decisions {
        return decisions[d.key];
      }
      var row := rows[d.order];
      receipt := DecisionReceipt(d.order, d.approve, !d.approve && row.paid > row.refunded);
      if d.approve {
        rows := rows[d.order := row.(status := Approved, stages := StagesAt(1))];
        AddEvent(d.order, 0, Pending, Completed, "Staff approved request");
        AddEvent(d.order, 1, Pending, InProgress, "Request approved");
        assert rows[d.order].events == Decided(row, true).events;
      } else if row.paid > row.refunded {
        rows := rows[d.order := row.(status := Rejected, pendingRefund := row.paid - row.refunded)];
      } else if row.invoice.Draft? || row.invoice.Unpaid? || row.invoice.Overdue? {
        rows := rows[d.order := row.(status := Rejected, invoice := Cancelled)];
      } else {
        rows := rows[d.order := row.(status := Rejected)];
      }
      assert rows == old(rows)[d.order := Decided(row, d.approve)];
      decisions := decisions[d.key := receipt];
    }

    method PersistStage(t: Transition) returns (receipt: Receipt)
      requires Known(View(), Move(t)) && Shaped(View())
      modifies this
      ensures View() == Persisted(old(View()), Move(t))
      ensures t.key in transitions && receipt == transitions[t.key]
      ensures t.key !in old(transitions) ==>
        && TransitionMoves(old(rows)[t.order], rows[t.order], t.stage)
        && receipt == StageReceipt(t.order, t.stage == 4, t.stage, if t.skip then Skipped else Completed,
                                   if t.stage == 4 then None else Some(t.stage + 1))
    {
      if t.key in transitions {
        return transitions[t.key];
      }
      var row, next := rows[t.order], NextStage(t.stage);
      var done := if t.skip then Skipped else Completed;
      receipt := StageReceipt(t.order, next.None?, t.stage, done, next);
      var stages := row.stages[t.stage := done];
      if next.Some? {
        stages := stages[next.value := InProgress];
      }
      rows := rows[t.order := row.(status := if next.Some? then Started else Finished, stages := stages)];
      AddEvent(t.order, t.stage, InProgress, done, t.explanation);
      if next.Some? {
        AddEvent(t.order, next.value, Pending, InProgress, "Previous stage finished");
      }
      assert rows == old(rows)[t.order := Moved(row, t.stage, t.skip, t.explanation)];
      transitions := transitions[t.key := receipt];
    }

    /** A run of commands, one after the other: the desk does the run, and every log stays good. */
    method Serve(commands: seq<Command>, ghost starts: map<string, seq<Status>>)
      requires KnownRun(View(), commands) && GuardedRun(View(), commands)
      requires Inv(starts, View())
      modifies this
      ensures View() == Run(old(View()), commands)
      ensures Inv(starts, View())
    {
      ghost var before := View();
      var k := 0;
      while k < |commands|
        invariant k <= |commands|
        invariant KnownRun(View(), commands[k..]) && GuardedRun(View(), commands[k..])
        invariant Run(View(), commands[k..]) == Run(before, commands)
        invariant Inv(starts, View())
      {
        ghost var now := View();
        assert commands[k..][1..] == commands[k + 1..];
        KeepsIffGuard(starts, now, commands[k]);
        match commands[k] {
          case Decide(d) =>
            var _ := PersistDecision(d);
          case Move(t) =>
            var _ := PersistStage(t);
        }
        k := k + 1;
      }
    }
  }
}
