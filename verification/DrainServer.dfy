/** The static server's shutdown: responses counted per socket, idle sockets closed at once, busy ones ended
    with their last response, and a deadline after which everything is cut. */
module DrainServer {
  import opened Wrappers

  /** A response that was started on a socket; `settled` once its "finish" or "close" event was heard. */
  datatype Response = Response(socket: nat, settled: bool)

  /** `active`, `pending`, `shuttingDown` and the settled flags are the server's own. The rest is what the
      runtime knows: whether connections are accepted, which sockets were told to end, which are gone, and
      which of those the server destroyed while they were alive. */
  datatype Server = Server(
    active: set<nat>,
    pending: map<nat, int>,
    responses: seq<Response>,
    shuttingDown: bool,
    listening: bool,
    ended: set<nat>,
    gone: set<nat>,
    destroyed: set<nat>,
    exit: Option<int>)

  const STARTED := Server({}, map[], [], false, true, {}, {}, {}, None)

  datatype Event =
    | Connect(socket: nat)
    | Request(socket: nat)
    | Heard(response: nat)
    | PeerGone(socket: nat)
    | SocketClosed(socket: nat)
    | CloseIdle
    | Shutdown
    | Drained
    | Deadline

  function PendingOf(pending: map<nat, int>, socket: nat): int {
    if socket in pending then pending[socket] else 0
  }

  function Destroying(s: Server, sockets: set<nat>): Server {
    s.(gone := s.gone + sockets, destroyed := s.destroyed + (sockets - s.gone))
  }

  function Idle(s: Server): set<nat> {
    set k | k in s.active && k !in s.pending
  }

  /** The callback of "finish" and "close": counts the response down once, and ends the socket when it was
      the last one of a server that is shutting down. */
  function Settling(s: Server, i: nat): Server
    requires i < |s.responses|
  {
    if s.responses[i].settled then s
    else
      var socket := s.responses[i].socket;
      var remaining := (if socket in s.pending then s.pending[socket] else 1) - 1;
      s.(responses := s.responses[i := s.responses[i].(settled := true)],
         pending := if remaining != 0 then s.pending[socket := remaining] else s.pending - {socket},
         ended := if s.shuttingDown && remaining == 0 then s.ended + {socket} else s.ended)
  }

  predicate Enabled(s: Server, e: Event) {
    s.exit.None? &&
    match e
    case Connect(k) => s.listening && k !in s.active && k !in s.gone && k !in s.ended
                       && forall i :: 0 <= i < |s.responses| ==> s.responses[i].socket != k
    case Request(k) => k in s.active && k !in s.gone
    case Heard(i) => i < |s.responses|
    case PeerGone(k) => k in s.active
    case SocketClosed(k) => k in s.active && k in s.gone
    case CloseIdle => true
    case Shutdown => true
    case Drained => s.shuttingDown && s.active <= s.gone
    case Deadline => s.shuttingDown
  }

  function Step(s: Server, e: Event): Server
    requires Enabled(s, e)
  {
    match e
    case Connect(k) => s.(active := s.active + {k})
    case Request(k) =>
      s.(pending := s.pending[k := PendingOf(s.pending, k) + 1], responses := s.responses + [Response(k, false)])
    case Heard(i) => Settling(s, i)
    case PeerGone(k) => s.(gone := s.gone + {k})
    case SocketClosed(k) => s.(active := s.active - {k})
    case CloseIdle => Destroying(s, Idle(s))
    case Shutdown => if s.shuttingDown then s else Destroying(s.(shuttingDown := true, listening := false), Idle(s))
    case Drained => Destroying(s, s.active).(exit := Some(0))
    case Deadline => Destroying(s, s.active).(active := {}, exit := Some(1))
  }

  ghost predicate EnabledRun(s: Server, events: seq<Event>)
    decreases |events|
  {
    events == [] || (Enabled(s, events[0]) && EnabledRun(Step(s, events[0]), events[1..]))
  }

  function Run(s: Server, events: seq<Event>): Server
    requires EnabledRun(s, events)
    decreases |events|
  {
    if events == [] then s else Run(Step(s, events[0]), events[1..])
  }

  // ---------------------------------------------------------------- counting responses

  /** The responses started on a socket whose end has not been heard of. */
  function Unfinished(responses: seq<Response>, socket: nat): nat {
    if responses == [] then 0
    else
      var last := responses[|responses| - 1];
      Unfinished(responses[..|responses| - 1], socket) + if last.socket == socket && !last.settled then 1 else 0
  }

  lemma UnfinishedGrows(responses: seq<Response>, response: Response, socket: nat)
    ensures Unfinished(responses + [response], socket)
         == Unfinished(responses, socket) + if response.socket == socket && !response.settled then 1 else 0
  {
    assert (responses + [response])[..|responses|] == responses;
  }

  lemma {:induction false} UnfinishedSettles(responses: seq<Response>, i: nat, socket: nat)
    requires i < |responses| && !responses[i].settled
    ensures Unfinished(responses, socket) >= if responses[i].socket == socket then 1 else 0
    ensures Unfinished(responses[i := responses[i].(settled := true)], socket)
         == Unfinished(responses, socket) - if responses[i].socket == socket then 1 else 0
  {
    var n, settled := |responses| - 1, responses[i].(settled := true);
    if i == n {
      assert responses[i := settled][..n] == responses[..n];
    } else {
      assert responses[i := settled][..n] == responses[..n][i := settled];
      UnfinishedSettles(responses[..n], i, socket);
    }
  }

  // ---------------------------------------------------------------- what every run keeps

  /** The map holds exactly the number of unfinished responses, and nothing for a socket without any. */
  ghost predicate Counted(pending: map<nat, int>, responses: seq<Response>) {
    forall k: nat ::
      PendingOf(pending, k) == Unfinished(responses, k) && (k in pending <==> Unfinished(responses, k) > 0)
  }

  /** Nothing that the server destroyed had a response under way. */
  ghost predicate CutNothing(s: Server) {
    s.exit == Some(1) || forall k :: k in s.destroyed ==> Unfinished(s.responses, k) == 0
  }

  /** Once shutting down, every live socket is still needed or on its way out. */
  ghost predicate Draining(s: Server) {
    s.shuttingDown ==> !s.listening && forall k :: k in s.active && k !in s.gone ==> k in s.pending || k in s.ended
  }

  ghost predicate Inv(s: Server) {
    && Counted(s.pending, s.responses)
    && CutNothing(s)
    && Draining(s)
    && s.destroyed <= s.gone
    && (s.exit.Some? ==> s.shuttingDown && s.active <= s.gone)
  }

  lemma RequestCounts(pending: map<nat, int>, responses: seq<Response>, socket: nat)
    requires Counted(pending, responses)
    ensures Counted(pending[socket := PendingOf(pending, socket) + 1], responses + [Response(socket, false)])
  {
    forall k: nat
      ensures Unfinished(responses + [Response(socket, false)], k)
           == Unfinished(responses, k) + if k == socket then 1 else 0
    {
      UnfinishedGrows(responses, Response(socket, false), k);
    }
  }

  lemma SettlingCounts(s: Server, i: nat)
    requires Counted(s.pending, s.responses) && i < |s.responses|
    ensures Counted(Settling(s, i).pending, Settling(s, i).responses)
    ensures forall k: nat :: Unfinished(Settling(s, i).responses, k) <= Unfinished(s.responses, k)
    ensures s.shuttingDown ==>
      forall k: nat :: k in s.pending && k !in Settling(s, i).pending ==> k in Settling(s, i).ended
  {
    if !s.responses[i].settled {
      forall k: nat
        ensures Unfinished(Settling(s, i).responses, k)
             == Unfinished(s.responses, k) - if s.responses[i].socket == k then 1 else 0
      {
        UnfinishedSettles(s.responses, i, k);
      }
      UnfinishedSettles(s.responses, i, s.responses[i].socket);
    }
  }

  lemma RequestKeeps(s: Server, k: nat)
    requires Inv(s) && Enabled(s, Request(k))
    ensures Inv(Step(s, Request(k)))
  {
    RequestCounts(s.pending, s.responses, k);
    forall d | d in s.destroyed ensures Unfinished(Step(s, Request(k)).responses, d) == 0 {
      UnfinishedGrows(s.responses, Response(k, false), d);
    }
  }

  lemma HeardKeeps(s: Server, i: nat)
    requires Inv(s) && Enabled(s, Heard(i))
    ensures Inv(Step(s, Heard(i)))
  {
    SettlingCounts(s, i);
  }

  /** The server destroys sockets that it counts as idle. */
  lemma DestroyingKeeps(s: Server, sockets: set<nat>)
    requires Counted(s.pending, s.responses) && CutNothing(s) && s.destroyed <= s.gone
    requires forall k :: k in sockets && k !in s.gone ==> k !in s.pending
    ensures CutNothing(Destroying(s, sockets)) && Destroying(s, sockets).destroyed <= Destroying(s, sockets).gone
  {}

  lemma StepKeeps(s: Server, e: Event)
    requires Inv(s) && Enabled(s, e)
    ensures Inv(Step(s, e))
  {
    match e
    case Request(k) => RequestKeeps(s, k);
    case Heard(i) => HeardKeeps(s, i);
    case CloseIdle => DestroyingKeeps(s, Idle(s));
    case Shutdown => DestroyingKeeps(s.(shuttingDown := true, listening := false), Idle(s));
    case Drained => DestroyingKeeps(s, s.active);
    case _ =>
  }

  /** Whatever requests arrive, pipelined or not, and however responses and sockets end: until the deadline
      the server destroys no socket with an unfinished response, its map is an exact count, and once it is
      shutting down every live socket has a response under way or has been told to end. */
  lemma {:induction false} DrainTheorem(s: Server, events: seq<Event>)
    requires Inv(s) && EnabledRun(s, events)
    ensures Inv(Run(s, events))
    decreases |events|
  {
    if events != [] {
      StepKeeps(s, events[0]);
      DrainTheorem(Step(s, events[0]), events[1..]);
    }
  }

  lemma StartedHolds()
    ensures Inv(STARTED)
  {}

  /** A socket is told to end only with the last of its responses. */
  lemma EndsWithTheLast(s: Server, e: Event, k: nat)
    requires Inv(s) && Enabled(s, e) && k !in s.ended && k in Step(s, e).ended
    ensures s.shuttingDown && Unfinished(s.responses, k) == 1 && Unfinished(Step(s, e).responses, k) == 0
  {
    assert e.Heard?;
    UnfinishedSettles(s.responses, e.response, k);
    SettlingCounts(s, e.response);
  }

  /** A clean exit means that all was finished: nothing was cut, and no connection is left. */
  lemma CleanExit(events: seq<Event>)
    requires EnabledRun(STARTED, events) && Run(STARTED, events).exit == Some(0)
    ensures var s := Run(STARTED, events);
      s.active <= s.gone && forall k :: k in s.destroyed ==> Unfinished(s.responses, k) == 0
  {
    StartedHolds();
    DrainTheorem(STARTED, events);
  }

  /** Once all responses are finished, a server that is shutting down waits for nothing but the ends it
      asked for: when those sockets are gone it can exit. */
  lemma NothingElseToWaitFor(s: Server)
    requires Inv(s) && s.shuttingDown && s.exit.None?
    requires forall i :: 0 <= i < |s.responses| ==> s.responses[i].settled
    requires s.ended <= s.gone
    ensures Enabled(s, Drained)
  {
    forall k | k in s.active ensures k in s.gone {
      AllSettled(s.responses, k);
    }
  }

  lemma {:induction false} AllSettled(responses: seq<Response>, socket: nat)
    requires forall i :: 0 <= i < |responses| ==> responses[i].settled
    ensures Unfinished(responses, socket) == 0
  {
    if responses != [] {
      AllSettled(responses[..|responses| - 1], socket);
    }
  }

  // ---------------------------------------------------------------- what each event brings about

  /** The server shuts down once it is told to, stops listening then, and exits with 0 or 1 exactly when it has
      drained or the deadline has passed. */
  lemma {:induction false} ExitFollows(s: Server, events: seq<Event>)
    requires EnabledRun(s, events) && (s.listening <==> !s.shuttingDown)
    ensures var after := Run(s, events);
      && (after.shuttingDown <==> s.shuttingDown || Shutdown in events)
      && (after.listening <==> !after.shuttingDown)
      && (s.exit.None? ==>
            && (after.exit == Some(0) <==> Drained in events)
            && (after.exit == Some(1) <==> Deadline in events)
            && (after.exit.None? <==> Drained !in events && Deadline !in events))
    decreases |events|
  {
    if events != [] {
      ExitFollows(Step(s, events[0]), events[1..]);
      assert events == [events[0]] + events[1..];
      if Step(s, events[0]).exit.Some? {
        assert events[1..] == [];
      }
    }
  }

  /** A run ends with 0 exactly if it drained, and with 1 exactly if the deadline ended it. */
  lemma ExitIff(events: seq<Event>)
    requires EnabledRun(STARTED, events)
    ensures Run(STARTED, events).exit == Some(0) <==> Drained in events
    ensures Run(STARTED, events).exit == Some(1) <==> Deadline in events
    ensures Run(STARTED, events).shuttingDown <==> Shutdown in events
  {
    ExitFollows(STARTED, events);
  }

  /** The server is rid of its idle sockets by this event. */
  predicate ClosesIdle(s: Server, e: Event) {
    e.CloseIdle? || (e.Shutdown? && !s.shuttingDown)
  }

  /** A socket is active from its connection until it is closed or the deadline passes. It is gone once its peer is,
      once it is closed as idle, with nothing unfinished, or once the server exits; and in the last two cases the
      server destroyed it. */
  lemma SocketsFollow(s: Server, e: Event, k: nat)
    requires Inv(s) && Enabled(s, e)
    ensures k in Step(s, e).active <==> e == Connect(k) || (k in s.active && e != SocketClosed(k) && !e.Deadline?)
    ensures var idle := ClosesIdle(s, e) && Unfinished(s.responses, k) == 0;
      var cut := k in s.active && (e.Drained? || e.Deadline? || idle);
      && (k in Step(s, e).gone <==> k in s.gone || e == PeerGone(k) || cut)
      && (k in Step(s, e).destroyed <==> k in s.destroyed || (cut && k !in s.gone))
  {
    assert k in s.pending <==> Unfinished(s.responses, k) > 0;
  }

  /** A request starts a response, hearing of its end settles it, and nothing else touches the responses. A socket
      is told to end exactly when, during shutdown, the last of its responses is heard to have ended. */
  lemma ResponsesFollow(s: Server, e: Event, k: nat)
    requires Inv(s) && Enabled(s, e)
    ensures var after := Step(s, e);
      && (match e
          case Request(socket) => after.responses == s.responses + [Response(socket, false)]
          case Heard(i) => after.responses == s.responses[i := s.responses[i].(settled := true)]
          case _ => after.responses == s.responses)
      && (k in after.ended <==>
            || k in s.ended
            || (e.Heard? && s.shuttingDown && !s.responses[e.response].settled && s.responses[e.response].socket == k
                && Unfinished(after.responses, k) == 0))
  {
    if e.Heard? {
      if s.responses[e.response].settled {
        assert s.responses[e.response := s.responses[e.response].(settled := true)] == s.responses;
      } else {
        UnfinishedSettles(s.responses, e.response, k);
      }
    }
  }

  // ---------------------------------------------------------------- the server

  class StaticServer {
    var active: set<nat>
    var pending: map<nat, int>
    var responses: seq<Response>
    var shuttingDown: bool
    var listening: bool
    var ended: set<nat>
    var gone: set<nat>
    var destroyed: set<nat>
    var exit: Option<int>

    constructor ()
      ensures View() == STARTED
    {
      active, pending, responses, shuttingDown, listening := {}, map[], [], false, true;
      ended, gone, destroyed, exit := {}, {}, {}, None;
    }

    function View(): Server
      reads this
    {
      Server(active, pending, responses, shuttingDown, listening, ended, gone, destroyed, exit)
    }

    method OnRequest(socket: nat)
      requires Enabled(View(), Request(socket))
      modifies this`pending, this`responses
      ensures View() == Step(old(View()), Request(socket))
    {
      pending := pending[socket := (if socket in pending then pending[socket] else 0) + 1];
      responses := responses + [Response(socket, false)];
    }

    method Finish(response: nat)
      requires Enabled(View(), Heard(response))
      modifies this`pending, this`responses, this`ended
      ensures View() == Step(old(View()), Heard(response))
    {
      if responses[response].settled {
        return;
      }
      var socket := responses[response].socket;
      responses := responses[response := responses[response].(settled := true)];
      var remaining := (if socket in pending then pending[socket] else 1) - 1;
      if remaining != 0 {
        pending := pending[socket := remaining];
      } else {
        pending := pending - {socket};
      }
      if shuttingDown && remaining == 0 {
        ended := ended + {socket};
      }
    }

    method Destroy(socket: nat)
      modifies this`gone, this`destroyed
      ensures View() == Destroying(old(View()), {socket})
    {
      if socket !in gone {
        destroyed := destroyed + {socket};
      }
      gone := gone + {socket};
    }

    method CloseIdleConnections()
      requires exit.None?
      modifies this`gone, this`destroyed
      ensures View() == Step(old(View()), CloseIdle)
    {
      var todo := active;
      ghost var done := {};
      while todo != {}
        invariant todo <= active && done == Idle(old(View())) - todo
        invariant View() == Destroying(old(View()), done)
        decreases todo
      {
        var socket :| socket in todo;
        if socket !in pending {
          Destroy(socket);
          done := done + {socket};
        }
        todo := todo - {socket};
      }
      assert done == Idle(old(View()));
    }

    method DestroyAll()
      modifies this`gone, this`destroyed
      ensures View() == Destroying(old(View()), active)
    {
      var todo := active;
      while todo != {}
        invariant todo <= active && View() == Destroying(old(View()), active - todo)
        decreases todo
      {
        var socket :| socket in todo;
        Destroy(socket);
        todo := todo - {socket};
      }
    }

    method OnDrained()
      requires Enabled(View(), Drained)
      modifies this`gone, this`destroyed, this`exit
      ensures View() == Step(old(View()), Drained)
    {
      DestroyAll();
      exit := Some(0);
    }

    method OnDeadline()
      requires Enabled(View(), Deadline)
      modifies this`gone, this`destroyed, this`active, this`exit
      ensures View() == Step(old(View()), Deadline)
    {
      DestroyAll();
      active, exit := {}, Some(1);
    }

    method StartShutdown()
      requires exit.None?
      modifies this
      ensures View() == Step(old(View()), Shutdown)
    {
      if shuttingDown {
        return;
      }
      shuttingDown, listening := true, false;
      CloseIdleConnections();
    }

    /** Connections, requests and ends as they happen, until the process exits. */
    method Serve(events: seq<Event>)
      requires EnabledRun(View(), events) && Inv(View())
      modifies this
      ensures View() == Run(old(View()), events) && Inv(View())
    {
      ghost var before := View();
      var k := 0;
      while k < |events|
        invariant k <= |events| && Inv(View())
        invariant EnabledRun(View(), events[k..]) && Run(View(), events[k..]) == Run(before, events)
      {
        assert events[k..][1..] == events[k + 1..];
        StepKeeps(View(), events[k]);
        Handle(events[k]);
        k := k + 1;
      }
    }

    method Handle(e: Event)
      requires Enabled(View(), e)
      modifies this
      ensures View() == Step(old(View()), e)
    {
      match e
      case Connect(socket) =>
        active := active + {socket};
      case Request(socket) =>
        OnRequest(socket);
      case Heard(response) =>
        Finish(response);
      case PeerGone(socket) =>
        gone := gone + {socket};
      case SocketClosed(socket) =>
        active := active - {socket};
      case CloseIdle =>
        CloseIdleConnections();
      case Shutdown =>
        StartShutdown();
      case Drained =>
        OnDrained();
      case Deadline =>
        OnDeadline();
    }
  }
}
