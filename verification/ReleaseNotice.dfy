/** Release announcements: write-ahead receipts around one message and one album for a channel and
    commit, with runs that may be killed between any two steps and replies that may be lost. */
module ReleaseNotice {
  import opened Wrappers

  datatype Kind = Message | Album

  /** One receipt file: there is one for each kind of post, channel and commit. */
  datatype Slot = Slot(kind: Kind, chat: int, commit: string)

  /** What a receipt pins down: the release, the channel, and the hashes of the text or the images. */
  datatype Identity = Identity(version: string, slot: Slot, hashes: seq<string>)

  /** A file that was truncated but not written again does not parse. */
  datatype Receipt = Torn | Receipt(identity: Identity, sent: bool)

  /** A receipt of the older scheme, one for each image. */
  datatype Legacy = Legacy(chat: int, commit: string, hash: string, sent: bool)

  /** The arguments of one run. */
  datatype Plan = Plan(version: string, chat: int, commit: string, text: string, images: seq<string>, retry: bool)

  /** Where a run is: verifying the channel and waiting for the lock; holding it; having truncated the
      receipt; having noted the unknown outcome; having asked for the post; having truncated the receipt
      after a confirmation; or over. */
  datatype Stage = Waiting | Holding | Marking | Marked | Asking | Finishing | Over(good: bool)

  datatype Process = Process(plan: Plan, kind: Kind, stage: Stage)

  /** `senders` lists, for every slot, the runs that asked for the post; `confirmed` the posts that the
      channel confirmed. */
  datatype World = World(
    files: map<Slot, Receipt>,
    legacy: set<Legacy>,
    lock: Option<nat>,
    processes: seq<Process>,
    senders: map<Slot, seq<nat>>,
    confirmed: set<Slot>)

  datatype Event =
    | Start(plan: Plan)
    | Proceed(process: nat, good: bool)
    | Kill(process: nat)

  datatype Verdict = Refuse | AlreadyPosted | Post

  function SlotOf(plan: Plan, kind: Kind): Slot {
    Slot(kind, plan.chat, plan.commit)
  }

  function IdentityOf(plan: Plan, kind: Kind): Identity {
    Identity(plan.version, SlotOf(plan, kind), if kind.Message? then [plan.text] else plan.images)
  }

  predicate Older(legacy: set<Legacy>, plan: Plan) {
    exists r :: r in legacy && r.chat == plan.chat && r.commit == plan.commit
  }

  predicate OlderConfirmed(legacy: set<Legacy>, plan: Plan) {
    forall h :: h in plan.images ==> Legacy(plan.chat, plan.commit, h, true) in legacy
  }

  /** What a run that holds the lock decides from the receipts it finds. */
  function Decide(files: map<Slot, Receipt>, legacy: set<Legacy>, plan: Plan, kind: Kind): Verdict {
    var slot := SlotOf(plan, kind);
    if slot in files then
      match files[slot]
      case Torn => Refuse
      case Receipt(identity, sent) =>
        if identity != IdentityOf(plan, kind) then Refuse
        else if sent then AlreadyPosted
        else if plan.retry then Post else Refuse
    else if kind.Album? && Older(legacy, plan) then
      if OlderConfirmed(legacy, plan) then AlreadyPosted else Refuse
    else Post
  }

  predicate Inside(stage: Stage) {
    !stage.Waiting? && !stage.Over?
  }

  function Moved(w: World, p: nat, kind: Kind, stage: Stage): World
    requires p < |w.processes|
  {
    w.(processes := w.processes[p := Process(w.processes[p].plan, kind, stage)],
       lock := if w.lock == Some(p) && !Inside(stage) then None else w.lock)
  }

  /** The post is confirmed: go on with the album, if there is one. */
  function Posted(w: World, p: nat): World
    requires p < |w.processes|
  {
    if w.processes[p].kind.Message? && w.processes[p].plan.images != []
    then Moved(w, p, Album, Waiting)
    else Moved(w, p, w.processes[p].kind, Over(true))
  }

  function SendersOf(w: World, slot: Slot): seq<nat> {
    if slot in w.senders then w.senders[slot] else []
  }

  function Write(w: World, slot: Slot, receipt: Receipt): World {
    w.(files := w.files[slot := receipt])
  }

  predicate Enabled(w: World, e: Event) {
    match e
    case Start(_) => true
    case Kill(p) => p < |w.processes|
    case Proceed(p, good) =>
      && p < |w.processes| && !w.processes[p].stage.Over?
      && (w.processes[p].stage.Waiting? && good ==> w.lock.None?)
  }

  function Advance(w: World, p: nat, good: bool): World
    requires Enabled(w, Proceed(p, good))
  {
    var Process(plan, kind, stage) := w.processes[p];
    var slot := SlotOf(plan, kind);
    match stage
    case Waiting => if good then Moved(w.(lock := Some(p)), p, kind, Holding) else Moved(w, p, kind, Over(false))
    case Holding => (match Decide(w.files, w.legacy, plan, kind)
                     case Refuse => Moved(w, p, kind, Over(false))
                     case AlreadyPosted => Posted(w, p)
                     case Post => Moved(Write(w, slot, Torn), p, kind, Marking))
    case Marking => Moved(Write(w, slot, Receipt(IdentityOf(plan, kind), false)), p, kind, Marked)
    case Marked => Moved(w.(senders := w.senders[slot := SendersOf(w, slot) + [p]]), p, kind, Asking)
    case Asking => if good then Moved(Write(w, slot, Torn).(confirmed := w.confirmed + {slot}), p, kind, Finishing)
                   else Moved(w, p, kind, Over(false))
    case Finishing => Posted(Write(w, slot, Receipt(IdentityOf(plan, kind), true)), p)
    case Over(_) => w
  }

  function Step(w: World, e: Event): World
    requires Enabled(w, e)
  {
    match e
    case Start(plan) =>
      w.(processes := w.processes + [Process(plan, Message, if |plan.images| > 10 then Over(false) else Waiting)])
    case Kill(p) => Moved(w, p, w.processes[p].kind, Over(false))
    case Proceed(p, good) => Advance(w, p, good)
  }

  ghost predicate EnabledRun(w: World, events: seq<Event>)
    decreases |events|
  {
    events == [] || (Enabled(w, events[0]) && EnabledRun(Step(w, events[0]), events[1..]))
  }

  function Run(w: World, events: seq<Event>): World
    requires EnabledRun(w, events)
    decreases |events|
  {
    if events == [] then w else Run(Step(w, events[0]), events[1..])
  }

  function Fresh(legacy: set<Legacy>): World {
    World(map[], legacy, None, [], map[], {})
  }

  // ---------------------------------------------------------------- the invariant

  ghost predicate Exclusive(lock: Option<nat>, processes: seq<Process>) {
    && (lock.Some? ==> lock.value < |processes|)
    && forall p :: 0 <= p < |processes| ==> (Inside(processes[p].stage) <==> lock == Some(p))
  }

  predicate IsSent(files: map<Slot, Receipt>, slot: Slot) {
    slot in files && files[slot].Receipt? && files[slot].sent
  }

  /** What the run inside the lock knows about its receipt. */
  predicate Agrees(files: map<Slot, Receipt>, senders: map<Slot, seq<nat>>, confirmed: set<Slot>, process: Process) {
    var slot := SlotOf(process.plan, process.kind);
    match process.stage
    case Marking => slot in files && files[slot].Torn? && (process.plan.retry || slot !in senders)
    case Marked => slot in files && files[slot] == Receipt(IdentityOf(process.plan, process.kind), false)
                   && (process.plan.retry || slot !in senders)
    case Asking => slot in files && files[slot] == Receipt(IdentityOf(process.plan, process.kind), false)
                   && slot in senders
    case Finishing => slot in files && files[slot].Torn? && slot in confirmed
    case _ => true
  }

  /** A run that has asked for the post of `slot` is past the point where it would ask. */
  predicate Past(process: Process, slot: Slot) {
    && slot == SlotOf(process.plan, slot.kind)
    && (process.kind == slot.kind ==> process.stage.Asking? || process.stage.Finishing? || process.stage.Over?)
    && (process.kind.Message? ==> slot.kind.Message?)
  }

  ghost predicate SendersSound(processes: seq<Process>, senders: seq<nat>, slot: Slot) {
    && senders != []
    && (forall i :: 0 <= i < |senders| ==> senders[i] < |processes| && Past(processes[senders[i]], slot))
    && (forall i, j :: 0 <= i < j < |senders| ==> senders[i] != senders[j])
    && (forall i :: 1 <= i < |senders| ==> processes[senders[i]].plan.retry)
  }

  ghost predicate Booked(files: map<Slot, Receipt>, processes: seq<Process>, senders: map<Slot, seq<nat>>) {
    forall s :: s in senders ==> s in files && SendersSound(processes, senders[s], s)
  }

  /** A receipt says "sent" only for a post that was asked for and that the channel confirmed. */
  ghost predicate Truthful(files: map<Slot, Receipt>, senders: map<Slot, seq<nat>>, confirmed: set<Slot>) {
    && (forall s :: s in confirmed ==> s in senders)
    && (forall s :: IsSent(files, s) ==> s in confirmed)
  }

  /** Nobody turns to the album before the message's receipt says "sent". */
  ghost predicate AlbumsFollow(files: map<Slot, Receipt>, processes: seq<Process>) {
    forall p :: 0 <= p < |processes| && processes[p].kind.Album? ==> IsSent(files, SlotOf(processes[p].plan, Message))
  }

  ghost predicate AllAgree(w: World) {
    forall p :: 0 <= p < |w.processes| ==> Agrees(w.files, w.senders, w.confirmed, w.processes[p])
  }

  ghost predicate Inv(w: World) {
    && Exclusive(w.lock, w.processes)
    && AllAgree(w)
    && Booked(w.files, w.processes, w.senders)
    && Truthful(w.files, w.senders, w.confirmed)
    && AlbumsFollow(w.files, w.processes)
  }

  // ---------------------------------------------------------------- one step

  /** What an advance does to the process itself and to the lock. */
  lemma AdvanceShape(w: World, p: nat, good: bool)
    requires Enabled(w, Proceed(p, good))
    ensures var w' := Advance(w, p, good);
      && |w'.processes| == |w.processes| && w'.processes == w.processes[p := w'.processes[p]]
      && w'.processes[p].plan == w.processes[p].plan
  {
    match w.processes[p].stage
    case Holding =>
      match Decide(w.files, w.legacy, w.processes[p].plan, w.processes[p].kind) {
        case Refuse =>
        case AlreadyPosted =>
        case Post =>
      }
    case _ =>
  }

  lemma AdvanceLock(w: World, p: nat, good: bool)
    requires Enabled(w, Proceed(p, good))
    ensures p < |Advance(w, p, good).processes|
    ensures var w' := Advance(w, p, good);
      && (Inside(w'.processes[p].stage) ==> w.processes[p].stage.Waiting? || Inside(w.processes[p].stage))
      && w'.lock == (if w.processes[p].stage.Waiting? && good then Some(p)
                     else if w.lock == Some(p) && !Inside(w'.processes[p].stage) then None else w.lock)
      && (w.processes[p].stage.Waiting? ==> Inside(w'.processes[p].stage) == good)
  {
    match w.processes[p].stage
    case Holding =>
      match Decide(w.files, w.legacy, w.processes[p].plan, w.processes[p].kind) {
        case Refuse =>
        case AlreadyPosted =>
        case Post =>
      }
    case _ =>
  }

  lemma AdvanceStaysPast(w: World, p: nat, good: bool, slot: Slot)
    requires Enabled(w, Proceed(p, good)) && Past(w.processes[p], slot)
    ensures Past(Advance(w, p, good).processes[p], slot)
  {}

  lemma AdvanceToAlbum(w: World, p: nat, good: bool)
    requires Enabled(w, Proceed(p, good)) && w.processes[p].kind.Message?
    ensures var w' := Advance(w, p, good);
      w'.processes[p].kind.Album? ==> IsSent(w'.files, SlotOf(w.processes[p].plan, Message))
  {}

  /** A sent receipt is never touched again, and nobody asks for its post again. */
  ghost predicate SentStays(w: World, w': World) {
    forall s :: IsSent(w.files, s) ==>
      IsSent(w'.files, s) && w'.files[s] == w.files[s] && SendersOf(w', s) == SendersOf(w, s)
  }

  lemma StepKeepsSent(w: World, e: Event)
    requires Inv(w) && Enabled(w, e)
    ensures SentStays(w, Step(w, e))
  {
    if e.Proceed? {
      AdvanceKeepsFiles(w, e.process, e.good);
      AdvanceKeepsSenders(w, e.process, e.good);
    }
  }

  /** An advance writes the receipt at its own slot only, and not when that is sent. */
  lemma AdvanceKeepsFiles(w: World, p: nat, good: bool)
    requires Inv(w) && Enabled(w, Proceed(p, good))
    ensures var w', slot := Advance(w, p, good), SlotOf(w.processes[p].plan, w.processes[p].kind);
      || w'.files == w.files
      || (!IsSent(w.files, slot) && slot in w'.files && w'.files == w.files[slot := w'.files[slot]])
  {
    assert Agrees(w.files, w.senders, w.confirmed, w.processes[p]);
  }

  /** The same for the list of senders. */
  lemma AdvanceKeepsSenders(w: World, p: nat, good: bool)
    requires Inv(w) && Enabled(w, Proceed(p, good))
    ensures var w', slot := Advance(w, p, good), SlotOf(w.processes[p].plan, w.processes[p].kind);
      || w'.senders == w.senders
      || (!IsSent(w.files, slot) && slot in w'.senders && w'.senders == w.senders[slot := w'.senders[slot]])
  {
    assert Agrees(w.files, w.senders, w.confirmed, w.processes[p]);
  }

  lemma StepKeepsExclusive(w: World, e: Event)
    requires Exclusive(w.lock, w.processes) && Enabled(w, e)
    ensures Exclusive(Step(w, e).lock, Step(w, e).processes)
  {
    if e.Proceed? {
      AdvanceShape(w, e.process, e.good);
      AdvanceLock(w, e.process, e.good);
    }
  }

  lemma AdvanceAgrees(w: World, p: nat, good: bool)
    requires Inv(w) && Enabled(w, Proceed(p, good))
    ensures var w' := Advance(w, p, good); Agrees(w'.files, w'.senders, w'.confirmed, w'.processes[p])
  {
    assert Agrees(w.files, w.senders, w.confirmed, w.processes[p]);
    match w.processes[p].stage
    case Holding =>
      match Decide(w.files, w.legacy, w.processes[p].plan, w.processes[p].kind) {
        case Refuse =>
        case AlreadyPosted =>
        case Post =>
      }
    case _ =>
  }

  lemma OutsidersWriteNothing(w: World, p: nat, good: bool)
    requires Enabled(w, Proceed(p, good)) && !Inside(w.processes[p].stage)
    ensures var w' := Advance(w, p, good);
      w'.files == w.files && w'.senders == w.senders && w'.confirmed == w.confirmed
  {}

  lemma StepKeepsAgreement(w: World, e: Event)
    requires Inv(w) && Enabled(w, e)
    ensures AllAgree(Step(w, e))
  {
    var w' := Step(w, e);
    if e.Proceed? {
      AdvanceShape(w, e.process, e.good);
      AdvanceAgrees(w, e.process, e.good);
      if !Inside(w.processes[e.process].stage) { OutsidersWriteNothing(w, e.process, e.good); }
    }
    forall p | 0 <= p < |w'.processes| ensures Agrees(w'.files, w'.senders, w'.confirmed, w'.processes[p]) {
      if p < |w.processes| {
        assert Agrees(w.files, w.senders, w.confirmed, w.processes[p]);
        assert Inside(w.processes[p].stage) <==> w.lock == Some(p);
      }
    }
  }

  /** Once a run is past asking for a post, it stays past it. */
  lemma StillPast(w: World, e: Event, p: nat, slot: Slot)
    requires Enabled(w, e) && p < |w.processes| && Past(w.processes[p], slot)
    ensures p < |Step(w, e).processes| && Past(Step(w, e).processes[p], slot)
    ensures Step(w, e).processes[p].plan == w.processes[p].plan
  {
    if e.Proceed? {
      AdvanceShape(w, e.process, e.good);
      if p == e.process { AdvanceStaysPast(w, p, e.good, slot); }
    }
  }

  lemma StillSound(w: World, e: Event, slot: Slot)
    requires Enabled(w, e) && slot in w.senders && SendersSound(w.processes, w.senders[slot], slot)
    ensures SendersSound(Step(w, e).processes, w.senders[slot], slot)
  {
    forall i | 0 <= i < |w.senders[slot]|
      ensures w.senders[slot][i] < |Step(w, e).processes| && Past(Step(w, e).processes[w.senders[slot][i]], slot)
      ensures Step(w, e).processes[w.senders[slot][i]].plan == w.processes[w.senders[slot][i]].plan
    {
      StillPast(w, e, w.senders[slot][i], slot);
    }
  }

  lemma AskingIsBooked(w: World, p: nat, good: bool)
    requires Inv(w) && Enabled(w, Proceed(p, good)) && w.processes[p].stage.Marked?
    ensures var slot, w' := SlotOf(w.processes[p].plan, w.processes[p].kind), Step(w, Proceed(p, good));
      slot in w'.senders && slot in w'.files && SendersSound(w'.processes, w'.senders[slot], slot)
  {
    var slot, w' := SlotOf(w.processes[p].plan, w.processes[p].kind), Step(w, Proceed(p, good));
    assert Agrees(w.files, w.senders, w.confirmed, w.processes[p]);
    assert !Past(w.processes[p], slot) && Past(w'.processes[p], slot);
    if slot in w.senders {
      StillSound(w, Proceed(p, good), slot);
      assert p !in w.senders[slot];
    }
  }

  /** Only a run that has noted the unknown outcome asks for its post. */
  predicate Asks(w: World, e: Event)
    requires Enabled(w, e)
  {
    e.Proceed? && w.processes[e.process].stage.Marked?
  }

  lemma OthersAskNothing(w: World, e: Event)
    requires Enabled(w, e) && !Asks(w, e)
    ensures Step(w, e).senders == w.senders
  {}

  lemma AskingWritesNothing(w: World, e: Event)
    requires Enabled(w, e) && Asks(w, e)
    ensures Step(w, e).files == w.files
    ensures var slot := SlotOf(w.processes[e.process].plan, w.processes[e.process].kind);
      Step(w, e).senders.Keys == w.senders.Keys + {slot} &&
      forall s :: s in w.senders && s != slot ==> Step(w, e).senders[s] == w.senders[s]
  {}

  lemma ReceiptsStay(w: World, e: Event, s: Slot)
    requires Enabled(w, e) && s in w.files
    ensures s in Step(w, e).files
  {}

  lemma AskingKeepsBooks(w: World, e: Event, s: Slot)
    requires Inv(w) && Enabled(w, e) && Asks(w, e) && s in Step(w, e).senders
    ensures s in Step(w, e).files && SendersSound(Step(w, e).processes, Step(w, e).senders[s], s)
  {
    AskingWritesNothing(w, e);
    if s == SlotOf(w.processes[e.process].plan, w.processes[e.process].kind) {
      AskingIsBooked(w, e.process, e.good);
    } else {
      StillSound(w, e, s);
    }
  }

  lemma StepKeepsBooks(w: World, e: Event)
    requires Inv(w) && Enabled(w, e)
    ensures Booked(Step(w, e).files, Step(w, e).processes, Step(w, e).senders)
  {
    var w' := Step(w, e);
    if Asks(w, e) {
      forall s | s in w'.senders ensures s in w'.files && SendersSound(w'.processes, w'.senders[s], s) {
        AskingKeepsBooks(w, e, s);
      }
    } else {
      OthersAskNothing(w, e);
      forall s | s in w'.senders ensures s in w'.files && SendersSound(w'.processes, w'.senders[s], s) {
        ReceiptsStay(w, e, s);
        StillSound(w, e, s);
      }
    }
  }

  lemma StepKeepsTruth(w: World, e: Event)
    requires Inv(w) && Enabled(w, e)
    ensures Truthful(Step(w, e).files, Step(w, e).senders, Step(w, e).confirmed)
  {
    if e.Proceed? {
      assert Agrees(w.files, w.senders, w.confirmed, w.processes[e.process]);
    }
  }

  lemma StepKeepsAlbums(w: World, e: Event)
    requires Inv(w) && Enabled(w, e)
    ensures AlbumsFollow(Step(w, e).files, Step(w, e).processes)
  {
    var w' := Step(w, e);
    StepKeepsSent(w, e);
    if e.Proceed? {
      AdvanceShape(w, e.process, e.good);
      if w.processes[e.process].kind.Message? { AdvanceToAlbum(w, e.process, e.good); }
    }
    forall p | 0 <= p < |w'.processes| && w'.processes[p].kind.Album?
      ensures IsSent(w'.files, SlotOf(w'.processes[p].plan, Message))
    {
      assert p < |w.processes| && w'.processes[p].plan == w.processes[p].plan;
    }
  }

  lemma StepKeeps(w: World, e: Event)
    requires Inv(w) && Enabled(w, e)
    ensures Inv(Step(w, e))
  {
    StepKeepsExclusive(w, e);
    StepKeepsAgreement(w, e);
    StepKeepsBooks(w, e);
    StepKeepsTruth(w, e);
    StepKeepsAlbums(w, e);
  }

  /** A run goes on with one more event exactly if that may happen where the run has come to. */
  lemma {:induction false} RunGrows(w: World, events: seq<Event>, e: Event)
    ensures EnabledRun(w, []) && Run(w, []) == w
    ensures EnabledRun(w, events + [e]) <==> EnabledRun(w, events) && Enabled(Run(w, events), e)
    ensures EnabledRun(w, events + [e]) ==> Run(w, events + [e]) == Step(Run(w, events), e)
    decreases |events|
  {
    if events == [] {
      assert [e][1..] == [] && events + [e] == [e];
    } else {
      assert (events + [e])[0] == events[0] && (events + [e])[1..] == events[1..] + [e];
      if Enabled(w, events[0]) {
        RunGrows(Step(w, events[0]), events[1..], e);
      }
    }
  }

  lemma {:induction false} RunKeeps(w: World, events: seq<Event>)
    requires Inv(w) && EnabledRun(w, events)
    ensures Inv(Run(w, events)) && SentStays(w, Run(w, events))
    decreases |events|
  {
    if events != [] {
      StepKeeps(w, events[0]);
      StepKeepsSent(w, events[0]);
      RunKeeps(Step(w, events[0]), events[1..]);
    }
  }

  // ---------------------------------------------------------------- the promises

  /** The runs for a channel and commit that were told to retry an unknown outcome. */
  function Retriers(processes: seq<Process>, slot: Slot): set<nat> {
    set p: nat | p < |processes| && processes[p].plan.retry && SlotOf(processes[p].plan, slot.kind) == slot
  }

  lemma {:induction false} DistinctFit(s: seq<nat>, limit: set<nat>)
    requires forall i :: 0 <= i < |s| ==> s[i] in limit
    requires forall i, j :: 0 <= i < j < |s| ==> s[i] != s[j]
    ensures |s| <= |limit|
    decreases |s|
  {
    if s != [] {
      forall i | 0 <= i < |s| - 1 ensures s[1..][i] in limit - {s[0]} {
        assert s[1..][i] == s[i + 1];
      }
      DistinctFit(s[1..], limit - {s[0]});
    }
  }

  /** However the runs interleave and wherever they are killed, a post is asked for once, plus at most
      once for every run that was explicitly told to retry; a receipt that says "sent" tells the truth;
      and the album is asked for only after the message has been confirmed. */
  lemma NoticeTheorem(legacy: set<Legacy>, events: seq<Event>, slot: Slot)
    requires EnabledRun(Fresh(legacy), events)
    ensures var w := Run(Fresh(legacy), events);
      && |SendersOf(w, slot)| <= 1 + |Retriers(w.processes, slot)|
      && (IsSent(w.files, slot) ==> slot in w.confirmed && SendersOf(w, slot) != [])
      && (slot.kind.Album? && SendersOf(w, slot) != [] ==> IsSent(w.files, slot.(kind := Message)))
  {
    RunKeeps(Fresh(legacy), events);
    var w := Run(Fresh(legacy), events);
    var senders := SendersOf(w, slot);
    if senders != [] {
      assert Past(w.processes[senders[0]], slot);
      DistinctFit(senders[1..], Retriers(w.processes, slot));
    }
  }

  /** After a "sent" receipt no run asks for the post again, whatever it was told. */
  lemma SentIsFinal(legacy: set<Legacy>, before: seq<Event>, after: seq<Event>, slot: Slot)
    requires EnabledRun(Fresh(legacy), before) && EnabledRun(Run(Fresh(legacy), before), after)
    requires IsSent(Run(Fresh(legacy), before).files, slot)
    ensures var w, w' := Run(Fresh(legacy), before), Run(Run(Fresh(legacy), before), after);
      IsSent(w'.files, slot) && w'.files[slot] == w.files[slot] && SendersOf(w', slot) == SendersOf(w, slot)
  {
    RunKeeps(Fresh(legacy), before);
    RunKeeps(Run(Fresh(legacy), before), after);
  }

  /** A receipt left torn by a run that is gone. */
  ghost predicate Stuck(w: World, slot: Slot) {
    && slot in w.files && w.files[slot].Torn?
    && forall p :: 0 <= p < |w.processes| && SlotOf(w.processes[p].plan, w.processes[p].kind) == slot ==>
         !Inside(w.processes[p].stage) || w.processes[p].stage.Holding?
  }

  lemma AdvanceStaysStuck(w: World, p: nat, good: bool, slot: Slot)
    requires Stuck(w, slot) && Enabled(w, Proceed(p, good))
    ensures var w' := Advance(w, p, good);
      && slot in w'.files && w'.files[slot].Torn? && SendersOf(w', slot) == SendersOf(w, slot)
      && (SlotOf(w'.processes[p].plan, w'.processes[p].kind) == slot ==>
            !Inside(w'.processes[p].stage) || w'.processes[p].stage.Holding?)
  {}

  /** Nothing is posted on top of a torn receipt, retry or not, until someone looks at the file. */
  lemma {:induction false} TornIsRefused(w: World, events: seq<Event>, slot: Slot)
    requires Stuck(w, slot) && EnabledRun(w, events)
    ensures var w' := Run(w, events);
      Stuck(w', slot) && SendersOf(w', slot) == SendersOf(w, slot)
    decreases |events|
  {
    if events != [] {
      if events[0].Proceed? {
        AdvanceShape(w, events[0].process, events[0].good);
        AdvanceStaysStuck(w, events[0].process, events[0].good, slot);
      }
      TornIsRefused(Step(w, events[0]), events[1..], slot);
    }
  }

  // ---------------------------------------------------------------- what a run decides, and what success means

  /** A receipt is of the same post exactly if release, channel and commit agree, and the text or the images. */
  lemma IdentityBinds(a: Plan, b: Plan, kind: Kind)
    ensures IdentityOf(a, kind) == IdentityOf(b, kind) <==>
      && a.version == b.version && a.chat == b.chat && a.commit == b.commit
      && (if kind.Message? then a.text == b.text else a.images == b.images)
  {}

  /** A post is asked for exactly if nothing is on record for it, or its outcome is unknown and the run was told to
      retry; it counts as posted exactly if a receipt of the same post says so, or, for an album without one, if the
      older receipts confirm every image. Anything else is refused. */
  lemma DecidesIff(files: map<Slot, Receipt>, legacy: set<Legacy>, plan: Plan, kind: Kind)
    ensures var slot := SlotOf(plan, kind);
      var older := exists r :: r in legacy && r.chat == plan.chat && r.commit == plan.commit;
      && (Decide(files, legacy, plan, kind).Post? <==>
            || (slot !in files && !(kind.Album? && older))
            || (slot in files && files[slot] == Receipt(IdentityOf(plan, kind), false) && plan.retry))
      && (Decide(files, legacy, plan, kind).AlreadyPosted? <==>
            || (slot in files && files[slot] == Receipt(IdentityOf(plan, kind), true))
            || (slot !in files && kind.Album? && older &&
                forall h :: h in plan.images ==> Legacy(plan.chat, plan.commit, h, true) in legacy))
  {}

  /** Once its message is known to be posted, a run with images waits for the lock again, for the album; any other
      run is over, with success. */
  lemma MessageThenAlbum(w: World, p: nat, good: bool)
    requires Inv(w) && Enabled(w, Proceed(p, good))
    requires var Process(plan, kind, stage) := w.processes[p];
      stage.Finishing? || (stage.Holding? && Decide(w.files, w.legacy, plan, kind).AlreadyPosted?)
    ensures var Process(plan, kind, _), w' := w.processes[p], Step(w, Proceed(p, good));
      && p < |w'.processes| && w'.lock.None?
      && w'.processes[p] == if kind.Message? && plan.images != [] then Process(plan, Album, Waiting)
                            else Process(plan, kind, Over(true))
  {
    assert Inside(w.processes[p].stage) <==> w.lock == Some(p);
  }

  /** The run at `p` is at `stage` now; the files are `files`, and the posts asked for and confirmed are these. */
  predicate Reaches(w: World, p: nat, stage: Stage, files: map<Slot, Receipt>, senders: seq<nat>, confirmed: set<Slot>)
    requires p < |w.processes|
  {
    && w.processes[p].stage == stage && w.files == files && w.confirmed == confirmed
    && SendersOf(w, SlotOf(w.processes[p].plan, w.processes[p].kind)) == senders
  }

  /** The section a run goes through once it holds the lock: it truncates the receipt, notes the unknown outcome,
      asks for the post, and only on a confirming reply truncates and writes the receipt again, as sent. Without
      the channel, a decision to post or the confirmation it ends in failure. */
  lemma SectionSteps(w: World, p: nat, good: bool)
    requires Inv(w) && Enabled(w, Proceed(p, good))
    ensures var Process(plan, kind, stage), w' := w.processes[p], Step(w, Proceed(p, good));
      var slot, asked := SlotOf(plan, kind), SendersOf(w, SlotOf(plan, kind));
      p < |w'.processes| &&
      match stage
      case Waiting =>
        && Reaches(w', p, if good then Holding else Over(false), w.files, asked, w.confirmed)
        && (good ==> w'.lock == Some(p))
      case Holding =>
        && (Decide(w.files, w.legacy, plan, kind).Refuse? ==> Reaches(w', p, Over(false), w.files, asked, w.confirmed))
        && (Decide(w.files, w.legacy, plan, kind).Post? ==>
              Reaches(w', p, Marking, w.files[slot := Torn], asked, w.confirmed))
      case Marking =>
        Reaches(w', p, Marked, w.files[slot := Receipt(IdentityOf(plan, kind), false)], asked, w.confirmed)
      case Marked => Reaches(w', p, Asking, w.files, asked + [p], w.confirmed)
      case Asking =>
        if good then Reaches(w', p, Finishing, w.files[slot := Torn], asked, w.confirmed + {slot})
        else Reaches(w', p, Over(false), w.files, asked, w.confirmed)
      case Finishing =>
        w'.files == w.files[slot := Receipt(IdentityOf(plan, kind), true)] && w'.confirmed == w.confirmed
      case Over(_) => true
  {
    assert Inside(w.processes[p].stage) <==> w.lock == Some(p);
  }

  /** A run joins with its message first, unless it has more than ten images and fails at once; a killed one is over,
      without success, and frees the lock it may hold. */
  lemma RunsJoinAndDie(w: World, e: Event)
    requires Inv(w) && Enabled(w, e)
    ensures e.Start? ==>
      var stage := if |e.plan.images| <= 10 then Waiting else Over(false);
      Step(w, e).processes == w.processes + [Process(e.plan, Message, stage)]
    ensures e.Kill? ==> Step(w, e).processes == w.processes[e.process := w.processes[e.process].(stage := Over(false))]
    ensures e.Kill? ==> Step(w, e).lock == if w.lock == Some(e.process) then None else w.lock
    ensures !e.Proceed? ==> Step(w, e).files == w.files && Step(w, e).senders == w.senders
  {}

  /** A run that succeeded has its message on file as sent, and its album, or the older receipts confirm that. */
  predicate Announced(files: map<Slot, Receipt>, legacy: set<Legacy>, plan: Plan) {
    && IsSent(files, SlotOf(plan, Message))
    && (plan.images != [] ==> IsSent(files, SlotOf(plan, Album)) || OlderConfirmed(legacy, plan))
  }

  ghost predicate GoodRuns(w: World) {
    forall p :: 0 <= p < |w.processes| && w.processes[p].stage == Over(true) ==>
      Announced(w.files, w.legacy, w.processes[p].plan)
  }

  lemma AnnouncedStays(w: World, e: Event, plan: Plan)
    requires Inv(w) && Enabled(w, e) && Announced(w.files, w.legacy, plan)
    ensures Announced(Step(w, e).files, w.legacy, plan)
  {
    StepKeepsSent(w, e);
  }

  lemma LegacyStays(w: World, e: Event)
    requires Enabled(w, e)
    ensures Step(w, e).legacy == w.legacy
  {}

  /** The process that ends with success is announced. */
  lemma SucceedsAnnounced(w: World, p: nat, good: bool)
    requires Inv(w) && GoodRuns(w) && Enabled(w, Proceed(p, good))
    requires Step(w, Proceed(p, good)).processes[p].stage == Over(true)
    ensures var w' := Step(w, Proceed(p, good)); Announced(w'.files, w.legacy, w'.processes[p].plan)
  {
    var Process(plan, kind, stage) := w.processes[p];
    StepKeepsAlbums(w, Proceed(p, good));
    DecidesIff(w.files, w.legacy, plan, kind);
    MessageThenAlbum(w, p, good);
  }

  lemma StepKeepsGood(w: World, e: Event)
    requires Inv(w) && GoodRuns(w) && Enabled(w, e)
    ensures GoodRuns(Step(w, e))
  {
    var w' := Step(w, e);
    LegacyStays(w, e);
    if e.Proceed? { AdvanceShape(w, e.process, e.good); }
    forall p | 0 <= p < |w'.processes| && w'.processes[p].stage == Over(true)
      ensures Announced(w'.files, w'.legacy, w'.processes[p].plan)
    {
      if e.Proceed? && p == e.process {
        SucceedsAnnounced(w, p, e.good);
      } else {
        assert w'.processes[p] == w.processes[p];
        AnnouncedStays(w, e, w.processes[p].plan);
      }
    }
  }

  /** Over all runs, success means that the message and the album were posted. */
  lemma {:induction false} SuccessMeansPosted(w: World, events: seq<Event>)
    requires Inv(w) && GoodRuns(w) && EnabledRun(w, events)
    ensures GoodRuns(Run(w, events))
    decreases |events|
  {
    if events != [] {
      StepKeeps(w, events[0]);
      StepKeepsGood(w, events[0]);
      SuccessMeansPosted(Step(w, events[0]), events[1..]);
    }
  }

  // ---------------------------------------------------------------- one run, from lock to unlock

  /** The receipts as one run sees them while it holds the lock. */
  class Receipts {
    var files: map<Slot, Receipt>
    var asked: map<Slot, nat>
    const legacy: set<Legacy>

    constructor (legacy: set<Legacy>)
      ensures files == map[] && asked == map[] && this.legacy == legacy
    {
      files, asked := map[], map[];
      this.legacy := legacy;
    }

    function Asked(slot: Slot): nat
      reads this
    {
      if slot in asked then asked[slot] else 0
    }

    /** Posts a message or an album; `reply` is whether the channel's answer confirms it. */
    method Announce(plan: Plan, kind: Kind, reply: bool) returns (good: bool)
      modifies this
      ensures var slot, verdict := SlotOf(plan, kind), Decide(old(files), legacy, plan, kind);
        && Asked(slot) == old(Asked(slot)) + (if verdict.Post? then 1 else 0)
        && (forall s :: s != slot ==> Asked(s) == old(Asked(s)))
        && good == (verdict.AlreadyPosted? || (verdict.Post? && reply))
        && files == (if verdict.Post? then old(files)[slot := Receipt(IdentityOf(plan, kind), reply)] else old(files))
    {
      var slot, identity := SlotOf(plan, kind), IdentityOf(plan, kind);
      if slot in files {
        match files[slot] {
          case Torn => return false;
          case Receipt(previous, sent) =>
            if previous != identity { return false; }
            if sent { return true; }
            if !plan.retry { return false; }
        }
      } else if kind.Album? && exists r :: r in legacy && r.chat == plan.chat && r.commit == plan.commit {
        return forall h :: h in plan.images ==> Legacy(plan.chat, plan.commit, h, true) in legacy;
      }
      files := files[slot := Receipt(identity, false)];
      asked := asked[slot := Asked(slot) + 1];
      if !reply { return false; }
      files := files[slot := Receipt(identity, true)];
      return true;
    }

    /** The whole run: the message first, and the album only when the message is known to be there. */
    method AnnounceRelease(plan: Plan, replies: Kind -> bool) returns (good: bool)
      requires |plan.images| <= 10
      modifies this
      ensures good ==> Decide(files, legacy, plan, Message).AlreadyPosted?
      ensures good && plan.images != [] ==> Decide(files, legacy, plan, Album).AlreadyPosted?
      ensures forall s :: Asked(s) <= old(Asked(s)) + 1
      ensures forall s :: IsSent(old(files), s) ==> s in files && files[s] == old(files)[s] && Asked(s) == old(Asked(s))
      ensures !plan.retry ==> forall s :: s in old(files) ==> s in files && files[s] == old(files)[s]
    {
      good := Announce(plan, Message, replies(Message));
      if good && plan.images != [] {
        good := Announce(plan, Album, replies(Album));
      }
    }
  }
}
