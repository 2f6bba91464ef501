/** The single-flight database health probe: callers with the same flag share one probe until its
    acquisition or query really settles, even when the five-second deadline has long answered them. */
module HealthProbe {
  import opened Wrappers

  datatype Phase = Acquiring | Querying | Settled

  /** One probe: what it did with the pool, whether its deadline passed, and what its callers got. */
  datatype Flight = Flight(
    verifySchema: bool,
    phase: Phase,
    expired: bool,
    acquired: nat,
    acquiredLate: bool,
    queried: nat,
    released: nat,
    answer: Option<bool>)

  /** What a call to the probe hands back: a flight to wait for, or an answer at once. */
  datatype Reply = Wait(flight: nat) | Unhealthy

  datatype Monitor = Monitor(probes: map<bool, nat>, flights: seq<Flight>, replies: seq<Reply>)

  datatype PoolState = Unavailable | Saturated | Free

  datatype Event =
    | Call(verifySchema: bool, pool: PoolState)
    | Acquired(flight: nat, packaged: bool)
    | AcquireFailed(flight: nat)
    | QueryDone(flight: nat, healthy: bool)
    | DeadlineFires(flight: nat)

  const EMPTY := Monitor(map[], [], [])

  function Called(m: Monitor, verifySchema: bool, pool: PoolState): Monitor {
    if verifySchema in m.probes then m.(replies := m.replies + [Wait(m.probes[verifySchema])])
    else if !pool.Free? then m.(replies := m.replies + [Unhealthy])
    else
      var id := |m.flights|;
      m.(probes := m.probes[verifySchema := id], replies := m.replies + [Wait(id)],
         flights := m.flights + [Flight(verifySchema, Acquiring, false, 0, false, 0, 0, None)])
  }

  /** The work settled: the callers get the outcome unless the deadline answered first, the deadline
      is disarmed, and the flag is free again if it still names this probe. */
  function Settling(m: Monitor, id: nat, f: Flight, healthy: bool): Monitor
    requires id < |m.flights|
  {
    var answer := if f.answer.None? then Some(healthy) else f.answer;
    m.(flights := m.flights[id := f.(phase := Settled, expired := true, answer := answer)],
       probes := if f.verifySchema in m.probes && m.probes[f.verifySchema] == id
                 then m.probes - {f.verifySchema} else m.probes)
  }

  /** The pool handed over a client. Past the deadline the work ends at once and quietly; without a
      packaged schema version to compare with it ends in an error; otherwise one query starts. */
  function TakingClient(m: Monitor, id: nat, packaged: bool): Monitor
    requires id < |m.flights|
  {
    var f := m.flights[id].(acquired := m.flights[id].acquired + 1, acquiredLate := m.flights[id].expired);
    if f.expired || (f.verifySchema && !packaged)
    then Settling(m, id, f.(released := f.released + 1), f.expired)
    else m.(flights := m.flights[id := f.(phase := Querying, queried := f.queried + 1)])
  }

  predicate Legal(m: Monitor, e: Event) {
    match e
    case Call(_, _) => true
    case Acquired(id, _) => id < |m.flights| && m.flights[id].phase.Acquiring?
    case AcquireFailed(id) => id < |m.flights| && m.flights[id].phase.Acquiring?
    case QueryDone(id, _) => id < |m.flights| && m.flights[id].phase.Querying?
    case DeadlineFires(id) => id < |m.flights| && !m.flights[id].expired
  }

  function Step(m: Monitor, e: Event): Monitor
    requires Legal(m, e)
  {
    match e
    case Call(verifySchema, pool) => Called(m, verifySchema, pool)
    case Acquired(id, packaged) => TakingClient(m, id, packaged)
    case AcquireFailed(id) => Settling(m, id, m.flights[id], false)
    case QueryDone(id, healthy) =>
      Settling(m, id, m.flights[id].(released := m.flights[id].released + 1), healthy)
    case DeadlineFires(id) =>
      m.(flights := m.flights[id := m.flights[id].(expired := true, answer := Some(false))])
  }

  ghost predicate LegalRun(m: Monitor, events: seq<Event>)
    decreases |events|
  {
    events == [] || (Legal(m, events[0]) && LegalRun(Step(m, events[0]), events[1..]))
  }

  function Run(m: Monitor, events: seq<Event>): Monitor
    requires LegalRun(m, events)
    decreases |events|
  {
    if events == [] then m else Run(Step(m, events[0]), events[1..])
  }

  // ---------------------------------------------------------------- what every run keeps

  /** The registry names exactly the flights whose work is outstanding, so each flag has at most one. */
  ghost predicate SingleFlight(m: Monitor) {
    && (forall flag :: flag in m.probes ==>
          && m.probes[flag] < |m.flights|
          && m.flights[m.probes[flag]].verifySchema == flag)
    && (forall id :: 0 <= id < |m.flights| ==>
          (!m.flights[id].phase.Settled? <==>
             m.flights[id].verifySchema in m.probes && m.probes[m.flights[id].verifySchema] == id))
  }

  /** A client is taken at most once and given back exactly when the work is over; a client that
      arrives after the deadline runs no query; only a query can report health. */
  predicate WellBehaved(f: Flight) {
    && f.acquired <= 1
    && f.released == (if f.phase.Settled? then f.acquired else 0)
    && (f.phase.Acquiring? ==> f.acquired == 0)
    && (f.phase.Querying? ==> f.acquired == 1)
    && f.queried <= f.acquired
    && (f.acquiredLate ==> f.queried == 0 && f.answer.Some? && !f.answer.value)
    && (f.answer.Some? <==> f.expired)
    && (f.answer.Some? && f.answer.value ==> f.queried == 1 && f.phase.Settled?)
    && (f.phase.Querying? ==> f.queried == 1)
    && (f.phase.Settled? ==> f.answer.Some?)
  }

  ghost predicate Inv(m: Monitor) {
    && SingleFlight(m)
    && (forall id :: 0 <= id < |m.flights| ==> WellBehaved(m.flights[id]))
    && (forall k :: 0 <= k < |m.replies| && m.replies[k].Wait? ==> m.replies[k].flight < |m.flights|)
  }

  lemma CallKeeps(m: Monitor, verifySchema: bool, pool: PoolState)
    requires Inv(m)
    ensures Inv(Called(m, verifySchema, pool))
  {
    var m' := Called(m, verifySchema, pool);
    if |m'.flights| > |m.flights| {
      var id := |m.flights|;
      assert m'.flights[id].verifySchema == verifySchema;
      assert forall i :: 0 <= i < id ==> m'.flights[i] == m.flights[i];
      assert SingleFlight(m');
    }
  }

  lemma SettlingKeeps(m: Monitor, id: nat, f: Flight, healthy: bool)
    requires Inv(m) && id < |m.flights| && !m.flights[id].phase.Settled?
    requires f.verifySchema == m.flights[id].verifySchema
    requires WellBehaved(f.(phase := Settled, expired := true,
                            answer := if f.answer.None? then Some(healthy) else f.answer))
    ensures Inv(Settling(m, id, f, healthy))
  {
    var m' := Settling(m, id, f, healthy);
    var flag := f.verifySchema;
    assert m'.probes == m.probes - {flag};
    assert forall i :: 0 <= i < |m.flights| && i != id ==> m'.flights[i] == m.flights[i];
    assert forall g :: g in m'.probes ==> g != flag && m.probes[g] != id;
    assert SingleFlight(m');
  }

  lemma UpdateKeeps(m: Monitor, id: nat, f: Flight)
    requires Inv(m) && id < |m.flights| && WellBehaved(f)
    requires f.verifySchema == m.flights[id].verifySchema && f.phase.Settled? == m.flights[id].phase.Settled?
    ensures Inv(m.(flights := m.flights[id := f]))
  {}

  lemma TakenIsWellBehaved(f: Flight, packaged: bool)
    requires WellBehaved(f) && f.phase.Acquiring?
    ensures var taken := f.(acquired := 1, acquiredLate := f.expired);
      if f.expired || (f.verifySchema && !packaged)
      then WellBehaved(taken.(released := 1, phase := Settled, expired := true,
                              answer := if f.answer.None? then Some(f.expired) else f.answer))
      else WellBehaved(taken.(phase := Querying, queried := f.queried + 1))
  {}

  lemma GivenBackKeeps(m: Monitor, id: nat, packaged: bool)
    requires Inv(m) && Legal(m, Acquired(id, packaged))
    requires m.flights[id].expired || (m.flights[id].verifySchema && !packaged)
    ensures Inv(TakingClient(m, id, packaged))
  {
    var f := m.flights[id];
    assert WellBehaved(f);
    TakenIsWellBehaved(f, packaged);
    SettlingKeeps(m, id, f.(acquired := 1, acquiredLate := f.expired, released := 1), f.expired);
  }

  lemma QueriedKeeps(m: Monitor, id: nat, packaged: bool)
    requires Inv(m) && Legal(m, Acquired(id, packaged))
    requires !m.flights[id].expired && (m.flights[id].verifySchema ==> packaged)
    ensures Inv(TakingClient(m, id, packaged))
  {
    var f := m.flights[id];
    assert WellBehaved(f);
    TakenIsWellBehaved(f, packaged);
    UpdateKeeps(m, id, f.(acquired := 1, acquiredLate := f.expired, phase := Querying, queried := f.queried + 1));
  }

  lemma AcquiredKeeps(m: Monitor, id: nat, packaged: bool)
    requires Inv(m) && Legal(m, Acquired(id, packaged))
    ensures Inv(TakingClient(m, id, packaged))
  {
    if m.flights[id].expired || (m.flights[id].verifySchema && !packaged) {
      GivenBackKeeps(m, id, packaged);
    } else {
      QueriedKeeps(m, id, packaged);
    }
  }

  lemma DeadlineKeeps(m: Monitor, id: nat)
    requires Inv(m) && Legal(m, DeadlineFires(id))
    ensures Inv(Step(m, DeadlineFires(id)))
  {
    assert WellBehaved(m.flights[id]);
    UpdateKeeps(m, id, m.flights[id].(expired := true, answer := Some(false)));
  }

  lemma StepKeeps(m: Monitor, e: Event)
    requires Inv(m) && Legal(m, e)
    ensures Inv(Step(m, e))
  {
    match e
    case Call(verifySchema, pool) => CallKeeps(m, verifySchema, pool);
    case Acquired(id, packaged) => AcquiredKeeps(m, id, packaged);
    case AcquireFailed(id) =>
      assert WellBehaved(m.flights[id]);
      SettlingKeeps(m, id, m.flights[id], false);
    case QueryDone(id, healthy) =>
      assert WellBehaved(m.flights[id]);
      SettlingKeeps(m, id, m.flights[id].(released := m.flights[id].released + 1), healthy);
    case DeadlineFires(id) => DeadlineKeeps(m, id);
  }

  lemma {:induction false} ProbeTheorem(m: Monitor, events: seq<Event>)
    requires Inv(m) && LegalRun(m, events)
    ensures Inv(Run(m, events))
    decreases |events|
  {
    if events != [] {
      StepKeeps(m, events[0]);
      ProbeTheorem(Step(m, events[0]), events[1..]);
    }
  }

  /** Two outstanding flights of one flag are the same flight. */
  lemma AtMostOneOutstanding(events: seq<Event>, i: nat, j: nat)
    requires LegalRun(EMPTY, events)
    requires i < |Run(EMPTY, events).flights| && j < |Run(EMPTY, events).flights|
    ensures var m := Run(EMPTY, events);
      (m.flights[i].verifySchema == m.flights[j].verifySchema
       && !m.flights[i].phase.Settled? && !m.flights[j].phase.Settled?) ==> i == j
  {
    ProbeTheorem(EMPTY, events);
  }

  /** A call joins the outstanding flight of its flag; it starts one only when none is outstanding
      and the pool can serve it, and then it alone adds work. */
  lemma CallJoinsOutstanding(m: Monitor, verifySchema: bool, pool: PoolState)
    requires Inv(m)
    ensures var m' := Step(m, Call(verifySchema, pool)); var reply := m'.replies[|m.replies|];
      && (forall id :: (0 <= id < |m.flights| && m.flights[id].verifySchema == verifySchema
                        && !m.flights[id].phase.Settled?) ==> reply == Wait(id) && m'.flights == m.flights)
      && (|m'.flights| == |m.flights| + 1 <==>
            pool.Free? && forall id :: 0 <= id < |m.flights| && m.flights[id].verifySchema == verifySchema ==>
              m.flights[id].phase.Settled?)
  {
    if verifySchema in m.probes {
      assert !m.flights[m.probes[verifySchema]].phase.Settled?;
    }
  }

  lemma {:induction false} OutcomeIsFinal(m: Monitor, events: seq<Event>, id: nat)
    requires Inv(m) && LegalRun(m, events) && id < |m.flights| && m.flights[id].answer.Some?
    ensures id < |Run(m, events).flights|
    ensures Run(m, events).flights[id].answer == m.flights[id].answer
    decreases |events|
  {
    if events != [] {
      StepKeeps(m, events[0]);
      OutcomeIsFinal(Step(m, events[0]), events[1..], id);
    }
  }

  /** A client that arrives late is given back at once, unqueried; so is one whose schema cannot be compared, with
      a bad answer; any other one starts a query and is kept. */
  lemma AcquisitionActs(m: Monitor, id: nat, packaged: bool)
    requires Inv(m) && Legal(m, Acquired(id, packaged))
    ensures var f, f' := m.flights[id], Step(m, Acquired(id, packaged)).flights[id];
      && f'.acquired == 1 && (f'.acquiredLate <==> f.expired)
      && (f.expired ==> f'.phase.Settled? && f'.released == 1 && f'.queried == 0 && f'.answer == f.answer)
      && (!f.expired && f.verifySchema && !packaged ==>
            f'.phase.Settled? && f'.released == 1 && f'.queried == 0 && f'.answer == Some(false))
      && (!f.expired && (f.verifySchema ==> packaged) ==>
            f'.phase.Querying? && f'.released == 0 && f'.queried == 1 && f'.answer.None?)
  {
    assert WellBehaved(m.flights[id]);
  }

  // ---------------------------------------------------------------- what the callers are told

  /** The first event that decides a flight's answer: its query's outcome, its deadline, an acquisition that
      failed, or a client for which no packaged schema version is there to compare with. */
  function FirstVerdict(events: seq<Event>, id: nat, verifySchema: bool): Option<bool> {
    if events == [] then None
    else
      match events[0]
      case QueryDone(flight, healthy) =>
        if flight == id then Some(healthy) else FirstVerdict(events[1..], id, verifySchema)
      case DeadlineFires(flight) => if flight == id then Some(false) else FirstVerdict(events[1..], id, verifySchema)
      case AcquireFailed(flight) => if flight == id then Some(false) else FirstVerdict(events[1..], id, verifySchema)
      case Acquired(flight, packaged) =>
        if flight == id && verifySchema && !packaged then Some(false) else FirstVerdict(events[1..], id, verifySchema)
      case Call(_, _) => FirstVerdict(events[1..], id, verifySchema)
  }

  lemma StepKeepsKind(m: Monitor, e: Event, id: nat)
    requires Legal(m, e) && id < |m.flights|
    ensures id < |Step(m, e).flights| && Step(m, e).flights[id].verifySchema == m.flights[id].verifySchema
  {}

  lemma {:induction false} KindStays(m: Monitor, events: seq<Event>, id: nat)
    requires LegalRun(m, events) && id < |m.flights|
    ensures id < |Run(m, events).flights| && Run(m, events).flights[id].verifySchema == m.flights[id].verifySchema
    decreases |events|
  {
    if events != [] {
      StepKeepsKind(m, events[0], id);
      KindStays(Step(m, events[0]), events[1..], id);
    }
  }

  /** One event: it decides the answer of an undecided flight just as `FirstVerdict` says. */
  lemma StepAnswers(m: Monitor, e: Event, id: nat)
    requires Inv(m) && Legal(m, e) && id < |Step(m, e).flights|
    requires id < |m.flights| ==> m.flights[id].answer.None?
    ensures Step(m, e).flights[id].answer == FirstVerdict([e], id, Step(m, e).flights[id].verifySchema)
  {
    if id < |m.flights| { assert WellBehaved(m.flights[id]); }
  }

  /** A query may end either way, and until the deadline its outcome is the answer; a deadline or a failed acquisition
      may come at any time before, and is the answer false. */
  lemma EventsAnswer(m: Monitor, id: nat, healthy: bool)
    requires Inv(m) && id < |m.flights| && !m.flights[id].expired
    ensures Legal(m, DeadlineFires(id)) && Step(m, DeadlineFires(id)).flights[id].answer == Some(false)
    ensures var f := m.flights[id];
      && (f.phase.Querying? ==> Legal(m, QueryDone(id, healthy)) &&
                                Step(m, QueryDone(id, healthy)).flights[id].answer == Some(healthy))
      && (f.phase.Acquiring? ==> Legal(m, AcquireFailed(id)) &&
                                 Step(m, AcquireFailed(id)).flights[id].answer == Some(false))
      && (f.phase.Acquiring? ==> Legal(m, Acquired(id, healthy)) &&
                                 Step(m, Acquired(id, healthy)).flights[id].answer ==
                                 if f.verifySchema && !healthy then Some(false) else None)
  {
    assert WellBehaved(m.flights[id]);
  }

  lemma VerdictOfFirst(events: seq<Event>, id: nat, verifySchema: bool)
    requires events != []
    ensures FirstVerdict(events, id, verifySchema) ==
      if FirstVerdict([events[0]], id, verifySchema).Some? then FirstVerdict([events[0]], id, verifySchema)
      else FirstVerdict(events[1..], id, verifySchema)
  {}

  lemma {:induction false} AnswerFrom(m: Monitor, events: seq<Event>, id: nat)
    requires Inv(m) && LegalRun(m, events) && id < |Run(m, events).flights|
    requires id < |m.flights| ==> m.flights[id].answer.None?
    ensures Run(m, events).flights[id].answer == FirstVerdict(events, id, Run(m, events).flights[id].verifySchema)
    decreases |events|
  {
    if events != [] {
      var m', kind := Step(m, events[0]), Run(m, events).flights[id].verifySchema;
      StepKeeps(m, events[0]);
      VerdictOfFirst(events, id, kind);
      if id < |m'.flights| {
        KindStays(m', events[1..], id);
        StepAnswers(m, events[0], id);
        if m'.flights[id].answer.Some? {
          OutcomeIsFinal(m', events[1..], id);
        } else {
          AnswerFrom(m', events[1..], id);
        }
      } else {
        AnswerFrom(m', events[1..], id);
      }
    }
  }

  /** Whatever happens, a flight's callers are told what its first verdict says, and nothing before there is one. */
  lemma AnswerIsFirstVerdict(events: seq<Event>, id: nat)
    requires LegalRun(EMPTY, events) && id < |Run(EMPTY, events).flights|
    ensures var f := Run(EMPTY, events).flights[id]; f.answer == FirstVerdict(events, id, f.verifySchema)
  {
    AnswerFrom(EMPTY, events, id);
  }

  /** A query reports health, and no deadline came before. */
  ghost predicate HealthyBeforeDeadline(events: seq<Event>, id: nat) {
    exists k :: 0 <= k < |events| && events[k] == QueryDone(id, true) && NoDeadline(events[..k], id)
  }

  ghost predicate NoDeadline(events: seq<Event>, id: nat) {
    forall j :: 0 <= j < |events| ==> events[j] != DeadlineFires(id)
  }

  lemma {:induction false} SettledRunsNoQuery(m: Monitor, events: seq<Event>, id: nat, k: nat)
    requires LegalRun(m, events) && id < |m.flights| && m.flights[id].phase.Settled? && k < |events|
    ensures !events[k].QueryDone? || events[k].flight != id
    decreases |events|
  {
    if k > 0 {
      var m' := Step(m, events[0]);
      assert id < |m'.flights| && m'.flights[id].phase.Settled?;
      SettledRunsNoQuery(m', events[1..], id, k - 1);
    }
  }

  lemma {:induction false} HealthyFrom(m: Monitor, events: seq<Event>, id: nat)
    requires Inv(m) && LegalRun(m, events) && id < |Run(m, events).flights|
    requires id < |m.flights| ==> m.flights[id].answer.None?
    ensures FirstVerdict(events, id, Run(m, events).flights[id].verifySchema) == Some(true)
       <==> HealthyBeforeDeadline(events, id)
    decreases |events|
  {
    if events != [] {
      var m', e, rest := Step(m, events[0]), events[0], events[1..];
      StepKeeps(m, e);
      VerdictOfFirst(events, id, Run(m, events).flights[id].verifySchema);
      if id < |m'.flights| {
        KindStays(m', rest, id);
        StepAnswers(m, e, id);
      }
      if id < |m'.flights| && m'.flights[id].answer.Some? {
        DecidedAtOnce(m, events, id);
      } else {
        HealthyFrom(m', rest, id);
        HealthyShifts(events, id);
      }
    }
  }

  lemma NoDeadlineAfter(e: Event, rest: seq<Event>, id: nat)
    ensures NoDeadline([e] + rest, id) <==> e != DeadlineFires(id) && NoDeadline(rest, id)
  {
    assert ([e] + rest)[0] == e;
    forall j | 0 <= j < |rest| ensures ([e] + rest)[j + 1] == rest[j] {}
  }

  /** An event that decides nothing comes before no verdict but the later one. */
  lemma HealthyShifts(events: seq<Event>, id: nat)
    requires events != [] && events[0] != DeadlineFires(id) && events[0] != QueryDone(id, true)
    ensures HealthyBeforeDeadline(events, id) <==> HealthyBeforeDeadline(events[1..], id)
  {
    var rest := events[1..];
    if k :| 0 <= k < |events| && events[k] == QueryDone(id, true) && NoDeadline(events[..k], id) {
      assert rest[k - 1] == QueryDone(id, true) && events[..k] == [events[0]] + rest[..k - 1];
      NoDeadlineAfter(events[0], rest[..k - 1], id);
    }
    if k :| 0 <= k < |rest| && rest[k] == QueryDone(id, true) && NoDeadline(rest[..k], id) {
      assert events[k + 1] == QueryDone(id, true) && events[..k + 1] == [events[0]] + rest[..k];
      NoDeadlineAfter(events[0], rest[..k], id);
    }
  }

  lemma FirstAnswerSettles(m: Monitor, e: Event, id: nat)
    requires Inv(m) && Legal(m, e) && id < |Step(m, e).flights| && Step(m, e).flights[id].answer.Some?
    requires id < |m.flights| ==> m.flights[id].answer.None?
    requires e != DeadlineFires(id)
    ensures Step(m, e).flights[id].phase.Settled?
  {}

  /** The first event decides: no later query can. */
  lemma DecidedAtOnce(m: Monitor, events: seq<Event>, id: nat)
    requires Inv(m) && LegalRun(m, events) && events != [] && id < |Step(m, events[0]).flights|
    requires id < |m.flights| ==> m.flights[id].answer.None?
    requires Step(m, events[0]).flights[id].answer.Some?
    ensures HealthyBeforeDeadline(events, id) <==> events[0] == QueryDone(id, true)
  {
    var m' := Step(m, events[0]);
    if events[0] == DeadlineFires(id) {
      assert forall k :: 0 < k <= |events| ==> events[..k][0] == DeadlineFires(id);
    } else if events[0] == QueryDone(id, true) {
      assert NoDeadline(events[..0], id);
    } else {
      FirstAnswerSettles(m, events[0], id);
      forall k | 1 <= k < |events| ensures events[k] != QueryDone(id, true) {
        SettledRunsNoQuery(m', events[1..], id, k - 1);
        assert events[1..][k - 1] == events[k];
      }
    }
  }

  /** The database is reported healthy exactly if the flight's query said so before its deadline fired. */
  lemma HealthyIff(events: seq<Event>, id: nat)
    requires LegalRun(EMPTY, events) && id < |Run(EMPTY, events).flights|
    ensures Run(EMPTY, events).flights[id].answer == Some(true) <==> HealthyBeforeDeadline(events, id)
  {
    AnswerIsFirstVerdict(events, id);
    HealthyFrom(EMPTY, events, id);
  }

  // ---------------------------------------------------------------- the registry as the code keeps it

  class HealthMonitor {
    var probes: map<bool, nat>
    var flights: seq<Flight>
    ghost var replies: seq<Reply>

    ghost function View(): Monitor
      reads this
    {
      Monitor(probes, flights, replies)
    }

    constructor ()
      ensures View() == EMPTY
    {
      probes, flights, replies := map[], [], [];
    }

    method DbHealth(verifySchema: bool, pool: PoolState) returns (reply: Reply)
      modifies this
      ensures View() == Called(old(View()), verifySchema, pool)
      ensures reply == replies[|replies| - 1]
    {
      if verifySchema in probes {
        reply := Wait(probes[verifySchema]);
      } else if !pool.Free? {
        reply := Unhealthy;
      } else {
        reply := Wait(|flights|);
        probes := probes[verifySchema := |flights|];
        flights := flights + [Flight(verifySchema, Acquiring, false, 0, false, 0, 0, None)];
      }
      replies := replies + [reply];
    }

    method Settle(id: nat, healthy: bool)
      requires id < |flights|
      modifies this`probes, this`flights
      ensures View() == Settling(old(View()), id, old(flights[id]), healthy)
    {
      var f := flights[id];
      if f.answer.None? {
        f := f.(answer := Some(healthy));
      }
      flights := flights[id := f.(phase := Settled, expired := true)];
      if f.verifySchema in probes && probes[f.verifySchema] == id {
        probes := probes - {f.verifySchema};
      }
    }

    /** The pool handed over a client: give it back at once when nobody waits any more. */
    method OnAcquired(id: nat, packaged: bool)
      requires id < |flights|
      modifies this`probes, this`flights
      ensures View() == TakingClient(old(View()), id, packaged)
    {
      var f := flights[id];
      f := f.(acquired := f.acquired + 1, acquiredLate := f.expired);
      if f.expired || (f.verifySchema && !packaged) {
        flights := flights[id := f.(released := f.released + 1)];
        Settle(id, f.expired);
      } else {
        flights := flights[id := f.(phase := Querying, queried := f.queried + 1)];
      }
    }

    method OnQueryDone(id: nat, healthy: bool)
      requires id < |flights|
      modifies this`probes, this`flights
      ensures View() == Settling(old(View()), id, old(flights[id].(released := flights[id].released + 1)), healthy)
    {
      flights := flights[id := flights[id].(released := flights[id].released + 1)];
      Settle(id, healthy);
    }

    method OnDeadline(id: nat)
      requires Legal(View(), DeadlineFires(id))
      modifies this`flights
      ensures View() == Step(old(View()), DeadlineFires(id))
    {
      flights := flights[id := flights[id].(expired := true, answer := Some(false))];
    }

    /** Calls, clients, answers and deadlines in any order that can happen. */
    method Serve(events: seq<Event>)
      requires LegalRun(View(), events) && Inv(View())
      modifies this
      ensures View() == Run(old(View()), events) && Inv(View())
    {
      ghost var before := View();
      var k := 0;
      while k < |events|
        invariant k <= |events| && Inv(View())
        invariant LegalRun(View(), events[k..]) && Run(View(), events[k..]) == Run(before, events)
      {
        assert events[k..][1..] == events[k + 1..];
        StepKeeps(View(), events[k]);
        Handle(events[k]);
        k := k + 1;
      }
    }

    method Handle(e: Event)
      requires Legal(View(), e)
      modifies this
      ensures View() == Step(old(View()), e)
    {
      match e
      case Call(verifySchema, pool) =>
        var _ := DbHealth(verifySchema, pool);
      case Acquired(id, packaged) =>
        OnAcquired(id, packaged);
      case AcquireFailed(id) =>
        Settle(id, false);
      case QueryDone(id, healthy) =>
        OnQueryDone(id, healthy);
      case DeadlineFires(id) =>
        OnDeadline(id);
    }
  }
}
