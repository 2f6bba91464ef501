/** The staging release queue: clients that enqueue and retry commits, detached workers that deploy
    them one at a time, two file locks, and processes that may be killed between any two steps. */
module ReleaseQueue {
  import opened Wrappers

  datatype Phase = Queued | Deploying | Completed | Failed

  /** One job file. Jobs are kept in creation order, which is the order workers sort them into. */
  datatype Job = Job(commit: string, version: string, screenshots: seq<string>, phase: Phase)

  /** A process and how far it has come: a client before its locked section, a client that has made the
      directory of a new job and not yet its file, a client that still has to start a worker for the job it
      read, a worker waiting for the lock, holding it before its one snapshot of the queue, at a position of
      that snapshot, or deploying the job there. */
  datatype Process =
    | Enqueuer(commit: string, version: string, screenshots: seq<string>)
    | Saving(commit: string, version: string, screenshots: seq<string>)
    | Retrier(commit: string)
    | Launching(seen: Phase)
    | Waiting
    | Scanning
    | Looping(snapshot: seq<Job>, at: nat)
    | Running(snapshot: seq<Job>, at: nat)
    | Gone

  /** The shared state: job files, job directories, the lock of workers and retries, and the lock of clients
      that change the queue. `starts` and `retries` count deployments begun and retries accepted. */
  datatype Queue = Queue(
    jobs: seq<Job>,
    directories: set<string>,
    lock: Option<nat>,
    queueLock: Option<nat>,
    processes: seq<Process>,
    starts: multiset<string>,
    retries: multiset<string>)

  const EMPTY := Queue([], {}, None, None, [], multiset{}, multiset{})

  datatype Event =
    | Start(joining: Process)
    | Proceed(process: nat, deployed: bool)
    | Kill(process: nat)

  function IndexOf(jobs: seq<Job>, commit: string): (i: nat)
    ensures i <= |jobs|
    ensures i < |jobs| ==> jobs[i].commit == commit
    ensures forall k :: 0 <= k < i ==> jobs[k].commit != commit
  {
    if jobs == [] || jobs[0].commit == commit then 0 else 1 + IndexOf(jobs[1..], commit)
  }

  predicate HoldsLock(p: Process) {
    p.Scanning? || p.Looping? || p.Running?
  }

  /** A process goes on; it drops the locks of a section it leaves, also when it dies. */
  function Moved(q: Queue, p: nat, next: Process): Queue
    requires p < |q.processes|
  {
    q.(processes := q.processes[p := next],
       lock := if q.lock == Some(p) && !HoldsLock(next) then None else q.lock,
       queueLock := if q.queueLock == Some(p) && !next.Saving? then None else q.queueLock)
  }

  /** Saving replaces the whole job file with the caller's copy of it. */
  function Saved(jobs: seq<Job>, job: Job): seq<Job> {
    var i := IndexOf(jobs, job.commit);
    if i < |jobs| then jobs[i := job] else jobs
  }

  predicate VersionFree(jobs: seq<Job>, version: string) {
    forall k :: 0 <= k < |jobs| ==> jobs[k].version != version
  }

  /** A new job first gets its directory, which must not exist yet. */
  function Enqueued(q: Queue, p: nat, commit: string, version: string, screenshots: seq<string>): Queue
    requires p < |q.processes|
  {
    var i := IndexOf(q.jobs, commit);
    if i < |q.jobs| then
      if screenshots != [] && screenshots != q.jobs[i].screenshots then Moved(q, p, Gone)
      else Moved(q, p, Launching(q.jobs[i].phase))
    else if !VersionFree(q.jobs, version) || commit in q.directories then Moved(q, p, Gone)
    else q.(directories := q.directories + {commit}, queueLock := Some(p),
            processes := q.processes[p := Saving(commit, version, screenshots)])
  }

  /** Then the job file appears in it. */
  function Filed(q: Queue, p: nat, commit: string, version: string, screenshots: seq<string>): Queue
    requires p < |q.processes|
  {
    Moved(q.(jobs := q.jobs + [Job(commit, version, screenshots, Queued)]), p, Launching(Queued))
  }

  function Retried(q: Queue, p: nat, commit: string): Queue
    requires p < |q.processes|
  {
    var i := IndexOf(q.jobs, commit);
    if i < |q.jobs| && q.jobs[i].phase.Failed?
    then Moved(q.(jobs := q.jobs[i := q.jobs[i].(phase := Queued)], retries := q.retries + multiset{commit}),
               p, Launching(Queued))
    else Moved(q, p, Gone)
  }

  predicate StartsWorker(seen: Phase) {
    seen.Queued? || seen.Deploying?
  }

  function Launched(q: Queue, p: nat, seen: Phase): Queue
    requires p < |q.processes|
  {
    var q' := Moved(q, p, Gone);
    if StartsWorker(seen) then q'.(processes := q'.processes + [Waiting]) else q'
  }

  function Looped(q: Queue, p: nat, snapshot: seq<Job>, at: nat): Queue
    requires p < |q.processes|
  {
    if at >= |snapshot| then Moved(q, p, Gone)
    else
      var job := snapshot[at];
      match job.phase
      case Completed => Moved(q, p, Looping(snapshot, at + 1))
      case Failed => Moved(q, p, Gone)
      case Deploying => Moved(q.(jobs := Saved(q.jobs, job.(phase := Failed))), p, Gone)
      case Queued =>
        Moved(q.(jobs := Saved(q.jobs, job.(phase := Deploying)), starts := q.starts + multiset{job.commit}),
              p, Running(snapshot, at))
  }

  function Deployed(q: Queue, p: nat, snapshot: seq<Job>, at: nat, deployed: bool): Queue
    requires p < |q.processes| && at < |snapshot|
  {
    if deployed
    then Moved(q.(jobs := Saved(q.jobs, snapshot[at].(phase := Completed))), p, Looping(snapshot, at + 1))
    else Moved(q.(jobs := Saved(q.jobs, snapshot[at].(phase := Failed))), p, Gone)
  }

  predicate Enabled(q: Queue, e: Event) {
    match e
    case Start(joining) => joining.Enqueuer? || joining.Retrier? || joining.Waiting?
    case Kill(p) => p < |q.processes|
    case Proceed(p, _) =>
      && p < |q.processes| && !q.processes[p].Gone?
      && (q.processes[p].Waiting? || q.processes[p].Retrier? ==> q.lock.None?)
      && (q.processes[p].Enqueuer? || (q.processes[p].Launching? && StartsWorker(q.processes[p].seen))
          ==> q.queueLock.None?)
      && (q.processes[p].Running? ==> q.processes[p].at < |q.processes[p].snapshot|)
  }

  function Step(q: Queue, e: Event): Queue
    requires Enabled(q, e)
  {
    match e
    case Start(joining) => q.(processes := q.processes + [joining])
    case Kill(p) => Moved(q, p, Gone)
    case Proceed(p, deployed) =>
      match q.processes[p]
      case Enqueuer(commit, version, screenshots) => Enqueued(q, p, commit, version, screenshots)
      case Saving(commit, version, screenshots) => Filed(q, p, commit, version, screenshots)
      case Retrier(commit) => Retried(q, p, commit)
      case Launching(seen) => Launched(q, p, seen)
      case Waiting => q.(lock := Some(p), processes := q.processes[p := Scanning])
      case Scanning => Moved(q, p, Looping(q.jobs, 0))
      case Looping(snapshot, at) => Looped(q, p, snapshot, at)
      case Running(snapshot, at) => Deployed(q, p, snapshot, at, deployed)
      case Gone => q
  }

  ghost predicate EnabledRun(q: Queue, events: seq<Event>)
    decreases |events|
  {
    events == [] || (Enabled(q, events[0]) && EnabledRun(Step(q, events[0]), events[1..]))
  }

  function Run(q: Queue, events: seq<Event>): Queue
    requires EnabledRun(q, events)
    decreases |events|
  {
    if events == [] then q else Run(Step(q, events[0]), events[1..])
  }

  // ---------------------------------------------------------------- what every run keeps, kills included

  /** In creation order: completed jobs, then at most one that is deploying or failed, then queued ones. */
  ghost predicate InOrder(jobs: seq<Job>) {
    forall i, j :: 0 <= i < j < |jobs| && !jobs[j].phase.Queued? ==> jobs[i].phase.Completed?
  }

  predicate Has(jobs: seq<Job>, commit: string) {
    exists i :: 0 <= i < |jobs| && jobs[i].commit == commit
  }

  ghost predicate Distinct(jobs: seq<Job>) {
    forall i, j :: 0 <= i < j < |jobs| ==>
      jobs[i].commit != jobs[j].commit && jobs[i].version != jobs[j].version
  }

  /** Each job's deployments: one more than its accepted retries, once it has left the queue. */
  ghost predicate Accounted(jobs: seq<Job>, starts: multiset<string>, retries: multiset<string>) {
    && (forall i :: 0 <= i < |jobs| ==>
          starts[jobs[i].commit] == retries[jobs[i].commit] + if jobs[i].phase.Queued? then 0 else 1)
    && (forall c :: c in starts || c in retries ==> Has(jobs, c))
  }

  ghost predicate Exclusive(lock: Option<nat>, processes: seq<Process>) {
    forall p :: 0 <= p < |processes| ==> (HoldsLock(processes[p]) <==> lock == Some(p))
  }

  /** The holder's snapshot still describes the queue: done up to its position, untouched beyond it. */
  ghost predicate Current(jobs: seq<Job>, process: Process) {
    (process.Looping? || process.Running?) ==>
      && process.at <= |process.snapshot| <= |jobs|
      && (process.Running? ==>
            && process.at < |process.snapshot| && process.snapshot[process.at].phase.Queued?
            && jobs[process.at] == process.snapshot[process.at].(phase := Deploying))
      && (forall i :: 0 <= i < process.at ==> jobs[i].phase.Completed?)
      && (forall i :: process.at <= i < |process.snapshot| && (process.Looping? || i != process.at) ==>
            jobs[i] == process.snapshot[i])
  }

  ghost predicate Ordered(q: Queue) {
    && InOrder(q.jobs)
    && Distinct(q.jobs)
    && Accounted(q.jobs, q.starts, q.retries)
    && Exclusive(q.lock, q.processes)
    && (forall p :: 0 <= p < |q.processes| ==> Current(q.jobs, q.processes[p]))
    && (q.lock.Some? ==> q.lock.value < |q.processes|)
  }

  /** A client that is about to file its job still may: nobody else has filed its commit or version. */
  predicate MayFile(jobs: seq<Job>, directories: set<string>, p: Process) {
    p.Saving? ==> p.commit in directories && !Has(jobs, p.commit) && VersionFree(jobs, p.version)
  }

  ghost predicate Filing(jobs: seq<Job>, directories: set<string>, queueLock: Option<nat>, processes: seq<Process>) {
    && (forall i :: 0 <= i < |jobs| ==> jobs[i].commit in directories)
    && (forall p :: 0 <= p < |processes| ==> (processes[p].Saving? <==> queueLock == Some(p)))
    && (forall p :: 0 <= p < |processes| ==> MayFile(jobs, directories, processes[p]))
    && (queueLock.Some? ==> queueLock.value < |processes|)
  }

  ghost predicate Inv(q: Queue) {
    Ordered(q) && Filing(q.jobs, q.directories, q.queueLock, q.processes)
  }

  lemma SavedAt(jobs: seq<Job>, i: nat, job: Job)
    requires Distinct(jobs) && i < |jobs| && jobs[i].commit == job.commit
    ensures Saved(jobs, job) == jobs[i := job]
  {
    var k := IndexOf(jobs, job.commit);
    assert k == i;
  }

  /** When a job may change phase without leaving the creation order. */
  predicate MayBecome(jobs: seq<Job>, i: nat, phase: Phase)
    requires i < |jobs|
  {
    match phase
    case Completed => !jobs[i].phase.Queued?
    case Queued => !jobs[i].phase.Completed?
    case _ => !jobs[i].phase.Completed? && forall k :: 0 <= k < i ==> jobs[k].phase.Completed?
  }

  lemma PhaseChangeOrders(jobs: seq<Job>, i: nat, phase: Phase)
    requires InOrder(jobs) && Distinct(jobs) && i < |jobs| && MayBecome(jobs, i, phase)
    ensures InOrder(jobs[i := jobs[i].(phase := phase)]) && Distinct(jobs[i := jobs[i].(phase := phase)])
  {}

  lemma SameCommits(jobs: seq<Job>, i: nat, phase: Phase, c: string)
    requires i < |jobs| && Has(jobs, c)
    ensures Has(jobs[i := jobs[i].(phase := phase)], c)
  {
    var k :| 0 <= k < |jobs| && jobs[k].commit == c;
    assert jobs[i := jobs[i].(phase := phase)][k].commit == c;
  }

  lemma PhaseChangeAccounts(jobs: seq<Job>, i: nat, phase: Phase,
                            starts: multiset<string>, retries: multiset<string>,
                            starts': multiset<string>, retries': multiset<string>)
    requires Distinct(jobs) && Accounted(jobs, starts, retries) && i < |jobs|
    requires starts' == if jobs[i].phase.Queued? && !phase.Queued? then starts + multiset{jobs[i].commit} else starts
    requires retries' == if !jobs[i].phase.Queued? && phase.Queued? then retries + multiset{jobs[i].commit} else retries
    ensures Accounted(jobs[i := jobs[i].(phase := phase)], starts', retries')
  {
    var jobs' := jobs[i := jobs[i].(phase := phase)];
    forall c | c in starts' || c in retries' ensures Has(jobs', c) {
      assert Has(jobs, jobs[i].commit);
      SameCommits(jobs, i, phase, c);
    }
    forall k | 0 <= k < |jobs|
      ensures starts'[jobs'[k].commit] == retries'[jobs'[k].commit] + if jobs'[k].phase.Queued? then 0 else 1
    {
      assert k != i ==> jobs[k].commit != jobs[i].commit;
    }
  }

  lemma AppendKeeps(jobs: seq<Job>, job: Job, starts: multiset<string>, retries: multiset<string>)
    requires InOrder(jobs) && Distinct(jobs) && Accounted(jobs, starts, retries) && job.phase.Queued?
    requires !Has(jobs, job.commit) && forall k :: 0 <= k < |jobs| ==> jobs[k].version != job.version
    ensures InOrder(jobs + [job]) && Distinct(jobs + [job]) && Accounted(jobs + [job], starts, retries)
  {
    forall k | 0 <= k < |jobs| ensures jobs[k].commit != job.commit {
      assert Has(jobs, jobs[k].commit);
    }
    forall c | Has(jobs, c) ensures Has(jobs + [job], c) {
      var k :| 0 <= k < |jobs| && jobs[k].commit == c;
      assert (jobs + [job])[k].commit == c;
    }
  }

  /** A process changes its own state; the jobs stay, grow, or are changed by the holder of the lock. */
  lemma MoveKeeps(q: Queue, jobs: seq<Job>, p: nat, next: Process)
    requires Exclusive(q.lock, q.processes) && p < |q.processes|
    requires forall k :: 0 <= k < |q.processes| ==> Current(q.jobs, q.processes[k])
    requires q.jobs <= jobs || q.lock == Some(p) || q.lock.None?
    requires HoldsLock(next) ==> q.lock == Some(p)
    requires Current(jobs, next)
    ensures var q' := Moved(q.(jobs := jobs), p, next);
      && Exclusive(q'.lock, q'.processes)
      && forall k :: 0 <= k < |q'.processes| ==> Current(q'.jobs, q'.processes[k])
  {
    var q' := Moved(q.(jobs := jobs), p, next);
    forall k | 0 <= k < |q.processes| && k != p
      ensures Current(jobs, q'.processes[k])
      ensures HoldsLock(q'.processes[k]) <==> q'.lock == Some(k)
    {
      assert Current(q.jobs, q.processes[k]);
      assert HoldsLock(q.processes[k]) <==> q.lock == Some(k);
    }
  }

  lemma MoveKeepsOrder(q: Queue, p: nat, next: Process)
    requires Ordered(q) && p < |q.processes|
    requires HoldsLock(next) ==> q.lock == Some(p)
    requires Current(q.jobs, next)
    ensures Ordered(Moved(q, p, next))
  {
    MoveKeeps(q, q.jobs, p, next);
    assert q.(jobs := q.jobs) == q;
  }

  lemma EnqueuedKeepsOrder(q: Queue, p: nat, commit: string, version: string, screenshots: seq<string>)
    requires Ordered(q) && p < |q.processes| && q.processes[p].Enqueuer?
    ensures Ordered(Enqueued(q, p, commit, version, screenshots))
  {
    var i := IndexOf(q.jobs, commit);
    MoveKeepsOrder(q, p, Gone);
    if i < |q.jobs| {
      MoveKeepsOrder(q, p, Launching(q.jobs[i].phase));
    } else {
      assert !HoldsLock(q.processes[p]);
      MoveKeepsOrder(q, p, Saving(commit, version, screenshots));
    }
  }

  lemma FiledKeepsOrder(q: Queue, p: nat, commit: string, version: string, screenshots: seq<string>)
    requires Ordered(q) && p < |q.processes|
    requires !Has(q.jobs, commit) && VersionFree(q.jobs, version)
    ensures Ordered(Filed(q, p, commit, version, screenshots))
  {
    var job := Job(commit, version, screenshots, Queued);
    AppendKeeps(q.jobs, job, q.starts, q.retries);
    MoveKeeps(q, q.jobs + [job], p, Launching(Queued));
  }

  lemma RetriedKeepsOrder(q: Queue, p: nat, commit: string)
    requires Ordered(q) && p < |q.processes| && q.lock.None?
    ensures Ordered(Retried(q, p, commit))
  {
    var i := IndexOf(q.jobs, commit);
    if i < |q.jobs| && q.jobs[i].phase.Failed? {
      PhaseChangeOrders(q.jobs, i, Queued);
      PhaseChangeAccounts(q.jobs, i, Queued, q.starts, q.retries, q.starts, q.retries + multiset{commit});
      MoveKeeps(q, q.jobs[i := q.jobs[i].(phase := Queued)], p, Launching(Queued));
    } else {
      MoveKeepsOrder(q, p, Gone);
    }
  }

  /** The holder saves a new phase for the job at its position and moves on. */
  lemma HolderSaves(q: Queue, p: nat, phase: Phase, next: Process, starts: multiset<string>)
    requires Ordered(q) && p < |q.processes| && (q.processes[p].Looping? || q.processes[p].Running?)
    requires var process := q.processes[p];
      && process.at < |process.snapshot| && !phase.Queued?
      && MayBecome(q.jobs, process.at, phase)
      && starts == (if q.jobs[process.at].phase.Queued? then q.starts + multiset{process.snapshot[process.at].commit}
                    else q.starts)
      && (next.Looping? || next.Running? ==>
            Current(q.jobs[process.at := q.jobs[process.at].(phase := phase)], next))
      && !next.Scanning?
    ensures var job := q.processes[p].snapshot[q.processes[p].at].(phase := phase);
      Ordered(Moved(q.(jobs := Saved(q.jobs, job), starts := starts), p, next))
  {
    var at := q.processes[p].at;
    assert Current(q.jobs, q.processes[p]);
    assert HoldsLock(q.processes[p]);
    var jobs' := q.jobs[at := q.jobs[at].(phase := phase)];
    SavedAt(q.jobs, at, q.processes[p].snapshot[at].(phase := phase));
    PhaseChangeOrders(q.jobs, at, phase);
    PhaseChangeAccounts(q.jobs, at, phase, q.starts, q.retries, starts, q.retries);
    MoveKeeps(q, jobs', p, next);
  }

  lemma LoopKeepsOrder(q: Queue, p: nat, snapshot: seq<Job>, at: nat)
    requires Ordered(q) && p < |q.processes| && q.processes[p] == Looping(snapshot, at)
    ensures Ordered(Looped(q, p, snapshot, at))
  {
    assert Current(q.jobs, q.processes[p]) && HoldsLock(q.processes[p]);
    if at >= |snapshot| || snapshot[at].phase.Failed? {
      MoveKeepsOrder(q, p, Gone);
    } else if snapshot[at].phase.Completed? {
      MoveKeepsOrder(q, p, Looping(snapshot, at + 1));
    } else if snapshot[at].phase.Deploying? {
      HolderSaves(q, p, Failed, Gone, q.starts);
    } else {
      HolderSaves(q, p, Deploying, Running(snapshot, at), q.starts + multiset{snapshot[at].commit});
    }
  }

  lemma DeployKeepsOrder(q: Queue, p: nat, snapshot: seq<Job>, at: nat, deployed: bool)
    requires Ordered(q) && p < |q.processes| && q.processes[p] == Running(snapshot, at) && at < |snapshot|
    ensures Ordered(Deployed(q, p, snapshot, at, deployed))
  {
    assert Current(q.jobs, q.processes[p]);
    HolderSaves(q, p, if deployed then Completed else Failed,
                if deployed then Looping(snapshot, at + 1) else Gone, q.starts);
  }

  lemma AcquireKeepsOrder(q: Queue, p: nat)
    requires Ordered(q) && p < |q.processes| && q.processes[p].Waiting? && q.lock.None?
    ensures Ordered(q.(lock := Some(p), processes := q.processes[p := Scanning]))
  {}

  lemma StartKeepsOrder(q: Queue, joining: Process)
    requires Ordered(q) && (joining.Enqueuer? || joining.Retrier? || joining.Waiting?)
    ensures Ordered(q.(processes := q.processes + [joining]))
  {
    var q' := q.(processes := q.processes + [joining]);
    forall k | 0 <= k < |q'.processes|
      ensures Current(q'.jobs, q'.processes[k]) && (HoldsLock(q'.processes[k]) <==> q'.lock == Some(k))
    {
      if k < |q.processes| { assert Current(q.jobs, q.processes[k]); }
      else { assert q.lock != Some(k); }
    }
  }

  lemma LaunchKeepsOrder(q: Queue, p: nat, seen: Phase)
    requires Ordered(q) && p < |q.processes|
    ensures Ordered(Launched(q, p, seen))
  {
    MoveKeepsOrder(q, p, Gone);
    StartKeepsOrder(Moved(q, p, Gone), Waiting);
  }

  lemma ScanKeepsOrder(q: Queue, p: nat)
    requires Ordered(q) && p < |q.processes| && q.processes[p].Scanning?
    ensures Ordered(Moved(q, p, Looping(q.jobs, 0)))
  {
    MoveKeepsOrder(q, p, Looping(q.jobs, 0));
  }

  lemma StepKeepsOrder(q: Queue, e: Event)
    requires Inv(q) && Enabled(q, e)
    ensures Ordered(Step(q, e))
  {
    match e
    case Start(joining) => StartKeepsOrder(q, joining);
    case Kill(p) => MoveKeepsOrder(q, p, Gone);
    case Proceed(p, deployed) =>
      match q.processes[p]
      case Enqueuer(commit, version, screenshots) => EnqueuedKeepsOrder(q, p, commit, version, screenshots);
      case Saving(commit, version, screenshots) =>
        assert MayFile(q.jobs, q.directories, q.processes[p]);
        FiledKeepsOrder(q, p, commit, version, screenshots);
      case Retrier(commit) => RetriedKeepsOrder(q, p, commit);
      case Launching(seen) => LaunchKeepsOrder(q, p, seen);
      case Waiting => AcquireKeepsOrder(q, p);
      case Scanning => ScanKeepsOrder(q, p);
      case Looping(snapshot, at) => LoopKeepsOrder(q, p, snapshot, at);
      case Running(snapshot, at) => DeployKeepsOrder(q, p, snapshot, at, deployed);
      case Gone =>
  }

  // ---------------------------------------------------------------- filing new jobs

  /** The same commits and versions in the same places. */
  predicate SameNames(jobs: seq<Job>, jobs': seq<Job>) {
    |jobs'| == |jobs| &&
    forall i :: 0 <= i < |jobs| ==> jobs'[i].commit == jobs[i].commit && jobs'[i].version == jobs[i].version
  }

  lemma SameNamesFile(jobs: seq<Job>, jobs': seq<Job>, directories: set<string>, p: Process)
    requires SameNames(jobs, jobs') && MayFile(jobs, directories, p)
    ensures MayFile(jobs', directories, p)
  {}

  /** A process that is not about to file goes on, and no commit or version is added. */
  lemma MoveKeepsFiling(q: Queue, jobs: seq<Job>, p: nat, next: Process)
    requires Filing(q.jobs, q.directories, q.queueLock, q.processes) && p < |q.processes|
    requires SameNames(q.jobs, jobs) && !next.Saving?
    ensures var q' := Moved(q.(jobs := jobs), p, next);
      Filing(jobs, q.directories, q'.queueLock, q'.processes)
  {
    var q' := Moved(q.(jobs := jobs), p, next);
    forall k | 0 <= k < |q.processes|
      ensures MayFile(jobs, q.directories, q'.processes[k])
      ensures q'.processes[k].Saving? <==> q'.queueLock == Some(k)
    {
      assert q.processes[k].Saving? <==> q.queueLock == Some(k);
      if k != p { SameNamesFile(q.jobs, jobs, q.directories, q.processes[k]); }
    }
  }

  lemma StartKeepsFiling(q: Queue, joining: Process)
    requires Filing(q.jobs, q.directories, q.queueLock, q.processes) && !joining.Saving?
    ensures Filing(q.jobs, q.directories, q.queueLock, q.processes + [joining])
  {
    var processes := q.processes + [joining];
    forall k | 0 <= k < |processes|
      ensures MayFile(q.jobs, q.directories, processes[k])
      ensures processes[k].Saving? <==> q.queueLock == Some(k)
    {
      if k < |q.processes| { assert q.processes[k].Saving? <==> q.queueLock == Some(k); }
      else { assert q.queueLock != Some(k); }
    }
  }

  lemma EnqueuedKeepsFiling(q: Queue, p: nat, commit: string, version: string, screenshots: seq<string>)
    requires Filing(q.jobs, q.directories, q.queueLock, q.processes) && p < |q.processes| && q.queueLock.None?
    ensures var q' := Enqueued(q, p, commit, version, screenshots);
      Filing(q'.jobs, q'.directories, q'.queueLock, q'.processes)
  {
    var q' := Enqueued(q, p, commit, version, screenshots);
    if q'.processes == q.processes[p := Saving(commit, version, screenshots)] {
      forall k | 0 <= k < |q.processes|
        ensures MayFile(q'.jobs, q'.directories, q'.processes[k])
        ensures q'.processes[k].Saving? <==> q'.queueLock == Some(k)
      {
        assert q.processes[k].Saving? <==> q.queueLock == Some(k);
      }
    } else {
      MoveKeepsFiling(q, q.jobs, p, q'.processes[p]);
    }
  }

  lemma FiledKeepsFiling(q: Queue, p: nat, commit: string, version: string, screenshots: seq<string>)
    requires Filing(q.jobs, q.directories, q.queueLock, q.processes) && p < |q.processes|
    requires q.processes[p] == Saving(commit, version, screenshots)
    ensures var q' := Filed(q, p, commit, version, screenshots);
      Filing(q'.jobs, q'.directories, q'.queueLock, q'.processes)
  {
    var q' := Filed(q, p, commit, version, screenshots);
    assert MayFile(q.jobs, q.directories, q.processes[p]) && q.queueLock == Some(p);
    forall k | 0 <= k < |q.processes| ensures !q'.processes[k].Saving? {
      assert q.processes[k].Saving? <==> q.queueLock == Some(k);
    }
  }

  /** What the holder of the worker lock saves is a job it read, in another phase. */
  lemma HolderKeepsFiling(q: Queue, p: nat, phase: Phase, next: Process)
    requires Inv(q) && p < |q.processes| && (q.processes[p].Looping? || q.processes[p].Running?)
    requires q.processes[p].at < |q.processes[p].snapshot| && !next.Saving?
    ensures var jobs := Saved(q.jobs, q.processes[p].snapshot[q.processes[p].at].(phase := phase));
      var q' := Moved(q.(jobs := jobs), p, next);
      Filing(jobs, q.directories, q'.queueLock, q'.processes)
  {
    var at := q.processes[p].at;
    var job := q.processes[p].snapshot[at].(phase := phase);
    assert Current(q.jobs, q.processes[p]);
    SavedAt(q.jobs, at, job);
    MoveKeepsFiling(q, Saved(q.jobs, job), p, next);
  }

  lemma LoopKeepsFiling(q: Queue, p: nat, snapshot: seq<Job>, at: nat)
    requires Inv(q) && p < |q.processes| && q.processes[p] == Looping(snapshot, at)
    ensures var q' := Looped(q, p, snapshot, at); Filing(q'.jobs, q'.directories, q'.queueLock, q'.processes)
  {
    if at >= |snapshot| || snapshot[at].phase.Failed? {
      MoveKeepsFiling(q, q.jobs, p, Gone);
    } else if snapshot[at].phase.Completed? {
      MoveKeepsFiling(q, q.jobs, p, Looping(snapshot, at + 1));
    } else if snapshot[at].phase.Deploying? {
      HolderKeepsFiling(q, p, Failed, Gone);
    } else {
      HolderKeepsFiling(q, p, Deploying, Running(snapshot, at));
    }
  }

  lemma RetriedKeepsFiling(q: Queue, p: nat, commit: string)
    requires Filing(q.jobs, q.directories, q.queueLock, q.processes) && p < |q.processes|
    ensures var q' := Retried(q, p, commit); Filing(q'.jobs, q'.directories, q'.queueLock, q'.processes)
  {
    var q' := Retried(q, p, commit);
    MoveKeepsFiling(q, q'.jobs, p, q'.processes[p]);
  }

  lemma LaunchKeepsFiling(q: Queue, p: nat, seen: Phase)
    requires Filing(q.jobs, q.directories, q.queueLock, q.processes) && p < |q.processes|
    ensures var q' := Launched(q, p, seen); Filing(q'.jobs, q'.directories, q'.queueLock, q'.processes)
  {
    MoveKeepsFiling(q, q.jobs, p, Gone);
    StartKeepsFiling(Moved(q, p, Gone), Waiting);
  }

  lemma AcquireKeepsFiling(q: Queue, p: nat)
    requires Filing(q.jobs, q.directories, q.queueLock, q.processes) && p < |q.processes|
    requires q.processes[p].Waiting?
    ensures Filing(q.jobs, q.directories, q.queueLock, q.processes[p := Scanning])
  {
    assert q.queueLock != Some(p);
  }

  lemma DeployKeepsFiling(q: Queue, p: nat, snapshot: seq<Job>, at: nat, deployed: bool)
    requires Inv(q) && p < |q.processes| && q.processes[p] == Running(snapshot, at) && at < |snapshot|
    ensures var q' := Deployed(q, p, snapshot, at, deployed);
      Filing(q'.jobs, q'.directories, q'.queueLock, q'.processes)
  {
    HolderKeepsFiling(q, p, if deployed then Completed else Failed,
                      if deployed then Looping(snapshot, at + 1) else Gone);
  }

  lemma StepKeepsFiling(q: Queue, e: Event)
    requires Inv(q) && Enabled(q, e)
    ensures var q' := Step(q, e); Filing(q'.jobs, q'.directories, q'.queueLock, q'.processes)
  {
    match e
    case Start(joining) => StartKeepsFiling(q, joining);
    case Kill(p) => MoveKeepsFiling(q, q.jobs, p, Gone);
    case Proceed(p, deployed) =>
      match q.processes[p]
      case Enqueuer(commit, version, screenshots) => EnqueuedKeepsFiling(q, p, commit, version, screenshots);
      case Saving(commit, version, screenshots) => FiledKeepsFiling(q, p, commit, version, screenshots);
      case Retrier(commit) => RetriedKeepsFiling(q, p, commit);
      case Launching(seen) => LaunchKeepsFiling(q, p, seen);
      case Waiting => AcquireKeepsFiling(q, p);
      case Scanning => MoveKeepsFiling(q, q.jobs, p, Looping(q.jobs, 0));
      case Looping(snapshot, at) => LoopKeepsFiling(q, p, snapshot, at);
      case Running(snapshot, at) => DeployKeepsFiling(q, p, snapshot, at, deployed);
      case Gone =>
  }

  lemma StepKeeps(q: Queue, e: Event)
    requires Inv(q) && Enabled(q, e)
    ensures Inv(Step(q, e))
  {
    StepKeepsOrder(q, e);
    StepKeepsFiling(q, e);
  }

  lemma {:induction false} RunKeeps(q: Queue, events: seq<Event>)
    requires Inv(q) && EnabledRun(q, events)
    ensures Inv(Run(q, events))
    decreases |events|
  {
    if events != [] {
      StepKeeps(q, events[0]);
      RunKeeps(Step(q, events[0]), events[1..]);
    }
  }

  /** What every run promises, wherever processes are killed: jobs in creation order are completed, then at
      most one is deploying or failed, then queued; commits and versions are unique; only the holder of the
      lock works on the queue; and no commit is deployed more often than one plus its accepted retries. */
  lemma OrderTheorem(events: seq<Event>, commit: string)
    requires EnabledRun(EMPTY, events)
    ensures var q := Run(EMPTY, events);
      && InOrder(q.jobs) && Distinct(q.jobs) && Exclusive(q.lock, q.processes)
      && q.starts[commit] <= 1 + q.retries[commit]
  {
    RunKeeps(EMPTY, events);
    var q := Run(EMPTY, events);
    if commit in q.starts {
      var i :| 0 <= i < |q.jobs| && q.jobs[i].commit == commit;
    }
  }

  /** A commit whose directory was made and whose job file never came: its client is dead. */
  ghost predicate Stranded(q: Queue, commit: string) {
    && commit in q.directories && !Has(q.jobs, commit)
    && forall p :: 0 <= p < |q.processes| && q.processes[p].Saving? ==> q.processes[p].commit != commit
  }

  lemma FiledIsAnother(q: Queue, p: nat, commit: string, version: string, screenshots: seq<string>, other: string)
    requires !Has(q.jobs, other) && commit != other && p < |q.processes|
    ensures !Has(Filed(q, p, commit, version, screenshots).jobs, other)
  {}

  lemma SameNamesHas(jobs: seq<Job>, jobs': seq<Job>, commit: string)
    requires SameNames(jobs, jobs') && !Has(jobs, commit)
    ensures !Has(jobs', commit)
  {}

  /** Writing a copy of some job into the queue adds no commit to it. */
  lemma SavedHas(jobs: seq<Job>, job: Job, commit: string)
    requires !Has(jobs, commit)
    ensures !Has(Saved(jobs, job), commit)
  {}

  lemma MoveKeepsStranded(q: Queue, jobs: seq<Job>, p: nat, next: Process, commit: string)
    requires Stranded(q, commit) && p < |q.processes| && !Has(jobs, commit)
    requires next.Saving? ==> next.commit != commit
    ensures Stranded(Moved(q.(jobs := jobs), p, next), commit)
  {}

  lemma EnqueueKeepsStranded(q: Queue, p: nat, other: string, version: string, screenshots: seq<string>, commit: string)
    requires p < |q.processes| && Stranded(q, commit)
    ensures Stranded(Enqueued(q, p, other, version, screenshots), commit)
  {}

  lemma RetryKeepsStranded(q: Queue, p: nat, retried: string, commit: string)
    requires p < |q.processes| && Stranded(q, commit)
    ensures Stranded(Retried(q, p, retried), commit)
  {
    SameNamesHas(q.jobs, Retried(q, p, retried).jobs, commit);
  }

  lemma LaunchKeepsStranded(q: Queue, p: nat, seen: Phase, commit: string)
    requires p < |q.processes| && Stranded(q, commit)
    ensures Stranded(Launched(q, p, seen), commit)
  {}

  lemma LoopKeepsStranded(q: Queue, p: nat, snapshot: seq<Job>, at: nat, commit: string)
    requires p < |q.processes| && Stranded(q, commit)
    ensures Stranded(Looped(q, p, snapshot, at), commit)
  {
    var q' := Looped(q, p, snapshot, at);
    forall job ensures !Has(Saved(q.jobs, job), commit) { SavedHas(q.jobs, job, commit); }
    MoveKeepsStranded(q, q'.jobs, p, q'.processes[p], commit);
  }

  lemma DeployKeepsStranded(q: Queue, p: nat, snapshot: seq<Job>, at: nat, deployed: bool, commit: string)
    requires p < |q.processes| && at < |snapshot| && Stranded(q, commit)
    ensures Stranded(Deployed(q, p, snapshot, at, deployed), commit)
  {
    var job := snapshot[at].(phase := if deployed then Completed else Failed);
    SavedHas(q.jobs, job, commit);
    MoveKeepsStranded(q, Saved(q.jobs, job), p, if deployed then Looping(snapshot, at + 1) else Gone, commit);
  }

  lemma StepKeepsStranded(q: Queue, e: Event, commit: string)
    requires Enabled(q, e) && Stranded(q, commit)
    ensures Stranded(Step(q, e), commit)
  {
    match e
    case Start(_) =>
    case Kill(p) => MoveKeepsStranded(q, q.jobs, p, Gone, commit);
    case Proceed(p, deployed) =>
      match q.processes[p]
      case Enqueuer(other, version, screenshots) => EnqueueKeepsStranded(q, p, other, version, screenshots, commit);
      case Saving(other, version, screenshots) => FiledIsAnother(q, p, other, version, screenshots, commit);
      case Retrier(retried) => RetryKeepsStranded(q, p, retried, commit);
      case Launching(seen) => LaunchKeepsStranded(q, p, seen, commit);
      case Looping(snapshot, at) => LoopKeepsStranded(q, p, snapshot, at, commit);
      case Running(snapshot, at) => DeployKeepsStranded(q, p, snapshot, at, deployed, commit);
      case _ =>
  }

  /** A stranded commit is refused for good: whatever follows, it is never queued, and so never released. */
  lemma {:induction false} StrandedIsFinal(q: Queue, events: seq<Event>, commit: string)
    requires EnabledRun(q, events) && Stranded(q, commit)
    ensures Stranded(Run(q, events), commit)
    decreases |events|
  {
    if events != [] {
      StepKeepsStranded(q, events[0], commit);
      StrandedIsFinal(Step(q, events[0]), events[1..], commit);
    }
  }

  predicate Keeps(before: Job, after: Job) {
    && after.(phase := before.phase) == before
    && (before.phase.Completed? ==> after.phase.Completed?)
  }

  /** A completed release is final, and a job's identity never changes. */
  lemma {:induction false} CompletedIsFinal(q: Queue, events: seq<Event>, i: nat)
    requires Inv(q) && EnabledRun(q, events) && i < |q.jobs|
    ensures i < |Run(q, events).jobs| && Keeps(q.jobs[i], Run(q, events).jobs[i])
    decreases |events|
  {
    if events != [] {
      StepKeeps(q, events[0]);
      StepKeepsJobs(q, events[0], i);
      CompletedIsFinal(Step(q, events[0]), events[1..], i);
    }
  }

  lemma StepKeepsJobs(q: Queue, e: Event, i: nat)
    requires Inv(q) && Enabled(q, e) && i < |q.jobs|
    ensures i < |Step(q, e).jobs| && Keeps(q.jobs[i], Step(q, e).jobs[i])
  {
    if e.Proceed? {
      if HoldsLock(q.processes[e.process]) {
        HolderKeepsJobs(q, e.process, e.deployed, i);
      } else {
        ClientKeepsJobs(q, e.process, e.deployed, i);
      }
    }
  }

  lemma ClientKeepsJobs(q: Queue, p: nat, deployed: bool, i: nat)
    requires Enabled(q, Proceed(p, deployed)) && !HoldsLock(q.processes[p]) && i < |q.jobs|
    ensures var jobs' := Step(q, Proceed(p, deployed)).jobs; i < |jobs'| && Keeps(q.jobs[i], jobs'[i])
  {
    match q.processes[p]
    case Enqueuer(commit, version, screenshots) =>
      assert q.jobs <= Enqueued(q, p, commit, version, screenshots).jobs;
    case _ =>
  }

  /** Saving a job of the snapshot touches no other one, and not the identity of that one. */
  lemma HolderSavesJob(q: Queue, process: Process, phase: Phase, i: nat)
    requires Distinct(q.jobs) && Current(q.jobs, process) && i < |q.jobs|
    requires (process.Looping? || process.Running?) && process.at < |process.snapshot|
    requires process.Looping? ==> !process.snapshot[process.at].phase.Completed?
    ensures var jobs' := Saved(q.jobs, process.snapshot[process.at].(phase := phase));
      |jobs'| == |q.jobs| && Keeps(q.jobs[i], jobs'[i])
  {
    SavedAt(q.jobs, process.at, process.snapshot[process.at].(phase := phase));
  }

  lemma LoopKeepsJobs(q: Queue, p: nat, snapshot: seq<Job>, at: nat, i: nat)
    requires Distinct(q.jobs) && Current(q.jobs, Looping(snapshot, at)) && p < |q.processes| && i < |q.jobs|
    ensures var jobs' := Looped(q, p, snapshot, at).jobs; |jobs'| == |q.jobs| && Keeps(q.jobs[i], jobs'[i])
  {
    if at < |snapshot| && !snapshot[at].phase.Completed? {
      HolderSavesJob(q, Looping(snapshot, at), Failed, i);
      HolderSavesJob(q, Looping(snapshot, at), Deploying, i);
    }
  }

  lemma DeployKeepsJobs(q: Queue, p: nat, snapshot: seq<Job>, at: nat, deployed: bool, i: nat)
    requires Distinct(q.jobs) && Current(q.jobs, Running(snapshot, at)) && p < |q.processes| && i < |q.jobs|
    requires at < |snapshot|
    ensures var jobs' := Deployed(q, p, snapshot, at, deployed).jobs;
      |jobs'| == |q.jobs| && Keeps(q.jobs[i], jobs'[i])
  {
    HolderSavesJob(q, Running(snapshot, at), if deployed then Completed else Failed, i);
  }

  lemma HolderKeepsJobs(q: Queue, p: nat, deployed: bool, i: nat)
    requires Ordered(q) && Enabled(q, Proceed(p, deployed)) && HoldsLock(q.processes[p]) && i < |q.jobs|
    ensures |Step(q, Proceed(p, deployed)).jobs| == |q.jobs| && Keeps(q.jobs[i], Step(q, Proceed(p, deployed)).jobs[i])
  {
    assert Current(q.jobs, q.processes[p]);
    match q.processes[p]
    case Looping(snapshot, at) => LoopKeepsJobs(q, p, snapshot, at, i);
    case Running(snapshot, at) => DeployKeepsJobs(q, p, snapshot, at, deployed, i);
    case _ =>
  }

  // ---------------------------------------------------------------- when a commit is stranded

  /** A client dies between making the directory of this commit and filing the job. */
  predicate Strands(q: Queue, e: Event, commit: string) {
    && e.Kill? && e.process < |q.processes|
    && q.processes[e.process].Saving? && q.processes[e.process].commit == commit
  }

  lemma OthersStay(q: Queue, e: Event, p: nat)
    requires Enabled(q, e) && p < |q.processes|
    requires e.Start? || e.process != p
    ensures p < |Step(q, e).processes| && Step(q, e).processes[p] == q.processes[p]
  {}

  /** A directory is made only by a client that goes on to file the job in it. */
  lemma NewDirectoryIsSaved(q: Queue, e: Event, commit: string)
    requires Enabled(q, e) && commit !in q.directories && commit in Step(q, e).directories
    ensures e.Proceed? && e.process < |Step(q, e).processes|
    ensures Step(q, e).processes[e.process].Saving? && Step(q, e).processes[e.process].commit == commit
  {}

  lemma JobsStay(q: Queue, e: Event, commit: string)
    requires Inv(q) && Enabled(q, e) && Has(q.jobs, commit)
    ensures Has(Step(q, e).jobs, commit)
  {
    var i :| 0 <= i < |q.jobs| && q.jobs[i].commit == commit;
    StepKeepsJobs(q, e, i);
    assert Step(q, e).jobs[i].commit == commit;
  }

  /** A client that is about to file its job does so, or dies, or stays where it is. */
  lemma SaverFiles(q: Queue, e: Event, p: nat)
    requires Enabled(q, e) && p < |q.processes| && q.processes[p].Saving? && !Strands(q, e, q.processes[p].commit)
    ensures !Stranded(Step(q, e), q.processes[p].commit)
  {
    if e.Proceed? && e.process == p {
      var job := Job(q.processes[p].commit, q.processes[p].version, q.processes[p].screenshots, Queued);
      assert Step(q, e).jobs == q.jobs + [job];
      assert (q.jobs + [job])[|q.jobs|].commit == job.commit;
    } else {
      OthersStay(q, e, p);
    }
  }

  lemma OthersStrandNothing(q: Queue, e: Event, commit: string)
    requires Inv(q) && Enabled(q, e) && !Stranded(q, commit) && !Strands(q, e, commit)
    ensures !Stranded(Step(q, e), commit)
  {
    if commit !in q.directories {
      if commit in Step(q, e).directories { NewDirectoryIsSaved(q, e, commit); }
    } else if Has(q.jobs, commit) {
      JobsStay(q, e, commit);
    } else {
      var p :| 0 <= p < |q.processes| && q.processes[p].Saving? && q.processes[p].commit == commit;
      SaverFiles(q, e, p);
    }
  }

  lemma KillStrands(q: Queue, e: Event, commit: string)
    requires Inv(q) && Strands(q, e, commit)
    ensures Stranded(Step(q, e), commit)
  {
    var q' := Step(q, e);
    assert MayFile(q.jobs, q.directories, q.processes[e.process]) && q.queueLock == Some(e.process);
    forall p | 0 <= p < |q'.processes| ensures !q'.processes[p].Saving? {
      assert q.processes[p].Saving? <==> q.queueLock == Some(p);
    }
  }

  /** A step strands a commit exactly when it kills the client that is about to file it. */
  lemma StepStrandsIff(q: Queue, e: Event, commit: string)
    requires Inv(q) && Enabled(q, e)
    ensures Stranded(Step(q, e), commit) <==> Stranded(q, commit) || Strands(q, e, commit)
  {
    if Stranded(q, commit) {
      StepKeepsStranded(q, e, commit);
    } else if Strands(q, e, commit) {
      KillStrands(q, e, commit);
    } else {
      OthersStrandNothing(q, e, commit);
    }
  }

  /** Some event of the run is such a kill. */
  ghost predicate SomeKillStrands(q: Queue, events: seq<Event>, commit: string)
    requires EnabledRun(q, events)
    decreases |events|
  {
    events != [] && (Strands(q, events[0], commit) || SomeKillStrands(Step(q, events[0]), events[1..], commit))
  }

  /** After any run a commit is stranded exactly when it was before, or its client was killed between making the
      directory and filing the job; in particular nothing else strands one. */
  lemma {:induction false} StrandedIff(q: Queue, events: seq<Event>, commit: string)
    requires Inv(q) && EnabledRun(q, events)
    ensures Stranded(Run(q, events), commit) <==> Stranded(q, commit) || SomeKillStrands(q, events, commit)
    decreases |events|
  {
    if events != [] {
      StepKeeps(q, events[0]);
      StepStrandsIff(q, events[0], commit);
      StrandedIff(Step(q, events[0]), events[1..], commit);
    }
  }

  // ---------------------------------------------------------------- what clients and workers bring about

  lemma CommitIndex(jobs: seq<Job>, commit: string, i: nat)
    requires Distinct(jobs) && i < |jobs| && jobs[i].commit == commit
    ensures IndexOf(jobs, commit) == i
  {}

  /** The step of a client or worker at `p` that leaves it as `next`, the jobs as `jobs`, and the counts so. */
  predicate StepsTo(q: Queue, p: nat, deployed: bool, jobs: seq<Job>, next: Process)
    requires p < |q.processes| && Enabled(q, Proceed(p, deployed))
  {
    var q' := Step(q, Proceed(p, deployed));
    q'.jobs == jobs && p < |q'.processes| && q'.processes[p] == next
  }

  /** A retry of a failed release puts exactly that job back into the queue, counts one retry, and goes on to
      start a worker; any other retry changes no job and ends. */
  lemma RetryRequeues(q: Queue, p: nat, deployed: bool, commit: string)
    requires Inv(q) && p < |q.processes| && q.processes[p] == Retrier(commit) && q.lock.None?
    ensures forall i :: 0 <= i < |q.jobs| && q.jobs[i].commit == commit && q.jobs[i].phase.Failed? ==>
      && StepsTo(q, p, deployed, q.jobs[i := q.jobs[i].(phase := Queued)], Launching(Queued))
      && Step(q, Proceed(p, deployed)).retries == q.retries + multiset{commit}
    ensures (forall i :: 0 <= i < |q.jobs| ==> q.jobs[i].commit != commit || !q.jobs[i].phase.Failed?) ==>
      StepsTo(q, p, deployed, q.jobs, Gone) && Step(q, Proceed(p, deployed)).retries == q.retries
  {
    forall i | 0 <= i < |q.jobs| && q.jobs[i].commit == commit ensures IndexOf(q.jobs, commit) == i {
      CommitIndex(q.jobs, commit, i);
    }
  }

  /** A commit that is on file is not queued again: its client goes on with the phase it found, or is refused for
      another choice of screenshots. A new one is refused if its version is taken or its directory is there, and
      otherwise gets its directory. */
  lemma EnqueueOutcomes(q: Queue, p: nat, deployed: bool, commit: string, version: string, screenshots: seq<string>)
    requires Inv(q) && p < |q.processes| && q.queueLock.None?
    requires q.processes[p] == Enqueuer(commit, version, screenshots)
    ensures forall i :: 0 <= i < |q.jobs| && q.jobs[i].commit == commit ==>
      StepsTo(q, p, deployed, q.jobs,
              if screenshots == [] || screenshots == q.jobs[i].screenshots then Launching(q.jobs[i].phase) else Gone)
    ensures !Has(q.jobs, commit) ==>
      var q' := Step(q, Proceed(p, deployed));
      if commit in q.directories || (exists k :: 0 <= k < |q.jobs| && q.jobs[k].version == version)
      then StepsTo(q, p, deployed, q.jobs, Gone) && q'.directories == q.directories
      else && StepsTo(q, p, deployed, q.jobs, Saving(commit, version, screenshots))
           && q'.directories == q.directories + {commit} && q'.queueLock == Some(p)
  {
    forall i | 0 <= i < |q.jobs| && q.jobs[i].commit == commit ensures IndexOf(q.jobs, commit) == i {
      CommitIndex(q.jobs, commit, i);
    }
    if IndexOf(q.jobs, commit) < |q.jobs| { assert Has(q.jobs, commit); }
  }

  /** A saved job is queued last, as it was asked for, and its client goes on to start a worker. */
  lemma SavingQueues(q: Queue, p: nat, deployed: bool, commit: string, version: string, screenshots: seq<string>)
    requires Inv(q) && p < |q.processes| && q.processes[p] == Saving(commit, version, screenshots)
    ensures StepsTo(q, p, deployed, q.jobs + [Job(commit, version, screenshots, Queued)], Launching(Queued))
    ensures Step(q, Proceed(p, deployed)).queueLock.None?
  {}

  /** A client that found its job queued or being deployed starts a worker; others do not. */
  lemma LaunchStarts(q: Queue, p: nat, deployed: bool, seen: Phase)
    requires p < |q.processes| && q.processes[p] == Launching(seen) && q.queueLock.None?
    ensures StepsTo(q, p, deployed, q.jobs, Gone)
    ensures Step(q, Proceed(p, deployed)).processes ==
            q.processes[p := Gone] + if seen.Queued? || seen.Deploying? then [Waiting] else []
  {}

  /** A worker takes the free lock, then a snapshot of the whole queue. */
  lemma WorkerEnters(q: Queue, p: nat, deployed: bool)
    requires Inv(q) && p < |q.processes| && (q.processes[p].Waiting? ==> q.lock.None?)
    requires q.processes[p].Waiting? || q.processes[p].Scanning?
    ensures StepsTo(q, p, deployed, q.jobs, if q.processes[p].Waiting? then Scanning else Looping(q.jobs, 0))
    ensures Step(q, Proceed(p, deployed)).lock == Some(p)
  {
    assert HoldsLock(q.processes[p]) <==> q.lock == Some(p);
  }

  /** A worker at a job of its snapshot passes a completed one, stops at a failed one, fails an interrupted one and
      stops, and starts on a queued one; past the last one it ends. */
  lemma WorkerLoops(q: Queue, p: nat, deployed: bool, snapshot: seq<Job>, at: nat)
    requires Inv(q) && p < |q.processes| && q.processes[p] == Looping(snapshot, at)
    ensures var starts := Step(q, Proceed(p, deployed)).starts;
      if at == |snapshot| then StepsTo(q, p, deployed, q.jobs, Gone) && starts == q.starts
      else
        at < |snapshot| && at < |q.jobs| && q.jobs[at] == snapshot[at] &&
        match q.jobs[at].phase
        case Completed => StepsTo(q, p, deployed, q.jobs, Looping(snapshot, at + 1)) && starts == q.starts
        case Failed => StepsTo(q, p, deployed, q.jobs, Gone) && starts == q.starts
        case Deploying =>
          StepsTo(q, p, deployed, q.jobs[at := q.jobs[at].(phase := Failed)], Gone) && starts == q.starts
        case Queued =>
          && StepsTo(q, p, deployed, q.jobs[at := q.jobs[at].(phase := Deploying)], Running(snapshot, at))
          && starts == q.starts + multiset{q.jobs[at].commit}
  {
    assert Current(q.jobs, q.processes[p]);
    if at < |snapshot| {
      SavedAt(q.jobs, at, snapshot[at].(phase := Failed));
      SavedAt(q.jobs, at, snapshot[at].(phase := Deploying));
    }
  }

  /** A deployment that succeeds completes its job and goes on with the next one; one that does not fails the job
      and ends the worker. */
  lemma DeploymentEnds(q: Queue, p: nat, deployed: bool, snapshot: seq<Job>, at: nat)
    requires Inv(q) && p < |q.processes| && q.processes[p] == Running(snapshot, at)
    ensures at < |q.jobs| && at < |snapshot| && q.jobs[at].commit == snapshot[at].commit
    ensures if deployed
            then StepsTo(q, p, deployed, q.jobs[at := q.jobs[at].(phase := Completed)], Looping(snapshot, at + 1))
            else StepsTo(q, p, deployed, q.jobs[at := q.jobs[at].(phase := Failed)], Gone)
  {
    assert Current(q.jobs, q.processes[p]);
    SavedAt(q.jobs, at, snapshot[at].(phase := Failed));
    SavedAt(q.jobs, at, snapshot[at].(phase := Completed));
  }

  // ---------------------------------------------------------------- no lost wakeups

  /** A process that is bound to look at the whole queue before it ends. */
  predicate WillLook(p: Process) {
    p.Waiting? || p.Scanning? || (p.Launching? && p.seen.Queued?)
  }

  /** A worker that still has the job at `i` ahead of it in its snapshot. */
  predicate Ahead(p: Process, i: nat) {
    (p.Looping? && p.at <= i < |p.snapshot|) || (p.Running? && p.at < i < |p.snapshot|)
  }

  /** The holder of the lock is deploying the job at `j`. */
  predicate BeingDeployed(lock: Option<nat>, processes: seq<Process>, j: nat) {
    lock.Some? && lock.value < |processes| && processes[lock.value].Running? && processes[lock.value].at == j
  }

  /** The queue stops at `j`: it failed, or its deployment was interrupted and nobody is at it. */
  predicate Stopped(q: Queue, j: nat)
    requires j < |q.jobs|
  {
    q.jobs[j].phase.Failed? || (q.jobs[j].phase.Deploying? && !BeingDeployed(q.lock, q.processes, j))
  }

  ghost predicate CoveredAt(q: Queue, i: nat)
    requires i <= |q.jobs|
  {
    || (exists p :: 0 <= p < |q.processes| && WillLook(q.processes[p]))
    || (exists p :: 0 <= p < |q.processes| && Ahead(q.processes[p], i))
    || (exists j :: 0 <= j < i && Stopped(q, j))
  }

  ghost predicate Covered(q: Queue) {
    forall i :: 0 <= i < |q.jobs| && q.jobs[i].phase.Queued? ==> CoveredAt(q, i)
  }

  /** No process is killed between queueing a job and having a worker go through the queue: neither a client
      that still has to start the worker, nor a worker that waits, scans or has jobs of its snapshot before it.
      A worker may die while it deploys, and a client at any other point. */
  predicate Mild(q: Queue, e: Event) {
    e.Kill? && e.process < |q.processes| ==>
      var p := q.processes[e.process];
      !WillLook(p) && !(p.Looping? && p.at < |p.snapshot|)
  }

  ghost predicate MildRun(q: Queue, events: seq<Event>)
    decreases |events|
  {
    events == [] || (Enabled(q, events[0]) && Mild(q, events[0]) && MildRun(Step(q, events[0]), events[1..]))
  }

  /** What covers the job at `i` still does after a step of process `p`, new processes aside. */
  lemma StillCovered(q: Queue, q': Queue, p: nat, i: nat)
    requires i <= |q.jobs| <= |q'.jobs| && CoveredAt(q, i)
    requires p <= |q.processes| <= |q'.processes|
    requires forall k :: 0 <= k < |q.processes| && k != p ==> q'.processes[k] == q.processes[k]
    requires p < |q.processes| && WillLook(q.processes[p]) ==> WillLook(q'.processes[p])
    requires p < |q.processes| && Ahead(q.processes[p], i) ==>
        Ahead(q'.processes[p], i) || exists j :: 0 <= j < i && Stopped(q', j)
    requires forall j :: 0 <= j < i && Stopped(q, j) ==> Stopped(q', j)
    ensures CoveredAt(q', i)
  {
    if k :| 0 <= k < |q.processes| && WillLook(q.processes[k]) {
      assert WillLook(q'.processes[k]);
    } else if k :| 0 <= k < |q.processes| && Ahead(q.processes[k], i) {
      assert k != p ==> Ahead(q'.processes[k], i);
    }
  }

  lemma StartCovers(q: Queue, joining: Process)
    requires Ordered(q) && Covered(q)
    ensures Covered(q.(processes := q.processes + [joining]))
  {
    var q' := q.(processes := q.processes + [joining]);
    forall i | 0 <= i < |q'.jobs| && q'.jobs[i].phase.Queued? ensures CoveredAt(q', i) {
      StillCovered(q, q', |q.processes|, i);
    }
  }

  /** A process that promises nothing and holds nothing may come and go. */
  lemma QuietStepCovers(q: Queue, p: nat, next: Process)
    requires Ordered(q) && Covered(q) && p < |q.processes|
    requires !WillLook(q.processes[p]) && !HoldsLock(q.processes[p]) && !HoldsLock(next)
    ensures Covered(Moved(q, p, next))
  {
    var q' := Moved(q, p, next);
    forall i | 0 <= i < |q'.jobs| && q'.jobs[i].phase.Queued? ensures CoveredAt(q', i) {
      StillCovered(q, q', p, i);
    }
  }

  lemma LookerCovers(q: Queue, p: nat)
    requires p < |q.processes| && WillLook(q.processes[p])
    ensures Covered(q)
  {}

  predicate Client(p: Process) {
    p.Enqueuer? || p.Saving? || p.Retrier? || p.Launching?
  }

  /** A client step changes the jobs only when it goes on to start a worker. */
  lemma ClientSteps(q: Queue, p: nat, deployed: bool)
    requires Enabled(q, Proceed(p, deployed)) && Client(q.processes[p])
    ensures var q' := Step(q, Proceed(p, deployed));
      && |q'.processes| >= |q.processes| && !HoldsLock(q'.processes[p])
      && (q'.processes == q.processes[p := q'.processes[p]] || q'.processes == q.processes[p := Gone] + [Waiting])
      && (q'.processes == q.processes[p := q'.processes[p]] && !WillLook(q'.processes[p]) ==>
            !WillLook(q.processes[p]) && q'.jobs == q.jobs)
      && (q.lock != Some(p) ==> q'.lock == q.lock)
  {}

  lemma ClientCovers(q: Queue, p: nat, deployed: bool)
    requires Ordered(q) && Covered(q) && Enabled(q, Proceed(p, deployed))
    requires Client(q.processes[p])
    ensures Covered(Step(q, Proceed(p, deployed)))
  {
    var q' := Step(q, Proceed(p, deployed));
    ClientSteps(q, p, deployed);
    if q'.processes == q.processes[p := Gone] + [Waiting] {
      LookerCovers(q', |q.processes|);
    } else if WillLook(q'.processes[p]) {
      LookerCovers(q', p);
    } else {
      QuietStepCovers(q, p, q'.processes[p]);
      assert Covered(Moved(q, p, q'.processes[p]));
      SameCover(Moved(q, p, q'.processes[p]), q');
    }
  }

  lemma SameCover(q: Queue, q': Queue)
    requires Covered(q) && q'.jobs == q.jobs && q'.lock == q.lock && q'.processes == q.processes
    ensures Covered(q')
  {
    forall i | 0 <= i < |q'.jobs| && q'.jobs[i].phase.Queued? ensures CoveredAt(q', i) {
      StillCovered(q, q', |q.processes|, i);
    }
  }

  /** The holder moves on from a job that does not stop the queue. */
  lemma HolderContinues(q: Queue, q': Queue, p: nat, at: nat, phase: Phase)
    requires Ordered(q) && Covered(q) && q.lock == Some(p) && (q.processes[p].Looping? || q.processes[p].Running?)
    requires at == q.processes[p].at < |q.processes[p].snapshot| && at < |q.jobs|
    requires !phase.Queued? && !Stopped(q, at)
    requires q'.jobs == q.jobs[at := q.jobs[at].(phase := phase)] && q'.lock == q.lock
    requires q'.processes == q.processes[p := Looping(q.processes[p].snapshot, at + 1)] ||
             q'.processes == q.processes[p := Running(q.processes[p].snapshot, at)]
    ensures Covered(q')
  {
    forall i | 0 <= i < |q'.jobs| && q'.jobs[i].phase.Queued? ensures CoveredAt(q', i) {
      assert q.jobs[i] == q'.jobs[i];
      StillCovered(q, q', p, i);
    }
  }

  /** The holder ends at a job that failed or whose deployment is now nobody's. */
  lemma HolderStops(q: Queue, q': Queue, p: nat, at: nat, phase: Phase)
    requires Ordered(q) && Covered(q) && q.lock == Some(p) && (q.processes[p].Looping? || q.processes[p].Running?)
    requires at == q.processes[p].at < |q.jobs|
    requires phase.Failed? || phase.Deploying?
    requires q'.jobs == q.jobs[at := q.jobs[at].(phase := phase)] && q'.lock.None?
    requires q'.processes == q.processes[p := Gone]
    ensures Covered(q')
  {
    forall i | 0 <= i < |q'.jobs| && q'.jobs[i].phase.Queued? ensures CoveredAt(q', i) {
      assert q.jobs[i] == q'.jobs[i] && i != at;
      assert Stopped(q', at);
      StillCovered(q, q', p, i);
    }
  }

  /** The holder ends at the end of its snapshot. */
  lemma HolderFinishes(q: Queue, q': Queue, p: nat)
    requires Ordered(q) && Covered(q) && q.lock == Some(p) && q.processes[p].Looping?
    requires q.processes[p].at == |q.processes[p].snapshot|
    requires q'.jobs == q.jobs && q'.lock.None? && q'.processes == q.processes[p := Gone]
    ensures Covered(q')
  {
    forall i | 0 <= i < |q'.jobs| && q'.jobs[i].phase.Queued? ensures CoveredAt(q', i) {
      StillCovered(q, q', p, i);
    }
  }

  lemma LoopCovers(q: Queue, p: nat, deployed: bool)
    requires Ordered(q) && Covered(q) && Enabled(q, Proceed(p, deployed)) && q.processes[p].Looping?
    ensures Covered(Step(q, Proceed(p, deployed)))
  {
    var q' := Step(q, Proceed(p, deployed));
    var snapshot, at := q.processes[p].snapshot, q.processes[p].at;
    assert Current(q.jobs, q.processes[p]) && HoldsLock(q.processes[p]);
    if at == |snapshot| {
      HolderFinishes(q, q', p);
    } else {
      var phase := if snapshot[at].phase.Queued? then Deploying
                   else if snapshot[at].phase.Deploying? then Failed else snapshot[at].phase;
      SavedAt(q.jobs, at, snapshot[at].(phase := phase));
      if snapshot[at].phase.Failed? || snapshot[at].phase.Deploying? {
        HolderStops(q, q', p, at, phase);
      } else {
        HolderContinues(q, q', p, at, phase);
      }
    }
  }

  lemma DeployCovers(q: Queue, p: nat, deployed: bool)
    requires Ordered(q) && Covered(q) && Enabled(q, Proceed(p, deployed)) && q.processes[p].Running?
    ensures Covered(Step(q, Proceed(p, deployed)))
  {
    var q' := Step(q, Proceed(p, deployed));
    var snapshot, at := q.processes[p].snapshot, q.processes[p].at;
    assert Current(q.jobs, q.processes[p]) && HoldsLock(q.processes[p]);
    var phase := if deployed then Completed else Failed;
    SavedAt(q.jobs, at, snapshot[at].(phase := phase));
    if deployed { HolderContinues(q, q', p, at, phase); } else { HolderStops(q, q', p, at, phase); }
  }

  lemma ScanCovers(q: Queue, p: nat)
    requires p < |q.processes|
    ensures Covered(Moved(q, p, Looping(q.jobs, 0)))
  {
    var q' := Moved(q, p, Looping(q.jobs, 0));
    forall i | 0 <= i < |q.jobs| ensures CoveredAt(q', i) {
      assert Ahead(q'.processes[p], i);
    }
  }

  lemma KillCovers(q: Queue, p: nat)
    requires Ordered(q) && Covered(q) && Enabled(q, Kill(p)) && Mild(q, Kill(p))
    ensures Covered(Moved(q, p, Gone))
  {
    if HoldsLock(q.processes[p]) {
      assert Current(q.jobs, q.processes[p]);
      if q.processes[p].Running? {
        HolderStops(q, Moved(q, p, Gone), p, q.processes[p].at, Deploying);
      } else {
        HolderFinishes(q, Moved(q, p, Gone), p);
      }
    } else {
      QuietStepCovers(q, p, Gone);
    }
  }

  lemma StepCovers(q: Queue, e: Event)
    requires Inv(q) && Covered(q) && Enabled(q, e) && Mild(q, e)
    ensures Covered(Step(q, e))
  {
    match e
    case Start(joining) => StartCovers(q, joining);
    case Kill(p) => KillCovers(q, p);
    case Proceed(p, deployed) =>
      match q.processes[p]
      case Looping(_, _) => LoopCovers(q, p, deployed);
      case Running(_, _) => DeployCovers(q, p, deployed);
      case Waiting => LookerCovers(q.(lock := Some(p), processes := q.processes[p := Scanning]), p);
      case Scanning => ScanCovers(q, p);
      case Gone =>
      case _ => ClientCovers(q, p, deployed);
  }

  lemma {:induction false} CoverageTheorem(q: Queue, events: seq<Event>)
    requires Inv(q) && Covered(q) && MildRun(q, events)
    ensures EnabledRun(q, events) && Covered(Run(q, events))
    decreases |events|
  {
    if events != [] {
      StepKeeps(q, events[0]);
      StepCovers(q, events[0]);
      CoverageTheorem(Step(q, events[0]), events[1..]);
    }
  }

  /** Nobody is at work: every process has ended or is a client that has queued nothing yet. */
  predicate Quiet(q: Queue) {
    forall p :: 0 <= p < |q.processes| ==>
      q.processes[p].Gone? || q.processes[p].Enqueuer? || q.processes[p].Saving? || q.processes[p].Retrier?
  }

  predicate BehindFailure(jobs: seq<Job>, i: nat)
    requires i < |jobs|
  {
    exists j :: 0 <= j < i && (jobs[j].phase.Failed? || jobs[j].phase.Deploying?)
  }

  lemma QuietIsStopped(q: Queue, i: nat)
    requires Quiet(q) && i < |q.jobs| && CoveredAt(q, i)
    ensures BehindFailure(q.jobs, i)
  {
    var j :| 0 <= j < i && Stopped(q, j);
    assert q.jobs[j].phase.Failed? || q.jobs[j].phase.Deploying?;
  }

  /** When nobody is at work, a job left in the queue stands behind one that failed or was interrupted. */
  lemma NoLostWakeups(events: seq<Event>, i: nat)
    requires MildRun(EMPTY, events)
    ensures EnabledRun(EMPTY, events)
    ensures var q := Run(EMPTY, events);
      Quiet(q) && i < |q.jobs| && q.jobs[i].phase.Queued? ==> BehindFailure(q.jobs, i)
  {
    CoverageTheorem(EMPTY, events);
    var q := Run(EMPTY, events);
    if Quiet(q) && i < |q.jobs| && q.jobs[i].phase.Queued? {
      QuietIsStopped(q, i);
    }
  }

  lemma {:induction false} RunExtends(q: Queue, events: seq<Event>, e: Event)
    requires EnabledRun(q, events) && Enabled(Run(q, events), e)
    ensures EnabledRun(q, events + [e]) && Run(q, events + [e]) == Step(Run(q, events), e)
    decreases |events|
  {
    if events == [] {
      assert [e][1..] == [] && events + [e] == [e];
    } else {
      assert (events + [e])[1..] == events[1..] + [e];
      RunExtends(Step(q, events[0]), events[1..], e);
    }
  }

  lemma {:induction false} MildExtends(q: Queue, events: seq<Event>, e: Event)
    requires MildRun(q, events) && EnabledRun(q, events)
    requires Enabled(Run(q, events), e) && Mild(Run(q, events), e)
    ensures MildRun(q, events + [e]) && EnabledRun(q, events + [e])
    ensures Run(q, events + [e]) == Step(Run(q, events), e)
    decreases |events|
  {
    if events == [] {
      assert [e][1..] == [] && events + [e] == [e];
    } else {
      assert (events + [e])[1..] == events[1..] + [e];
      MildExtends(Step(q, events[0]), events[1..], e);
    }
  }

  // ---------------------------------------------------------------- which kills lose a wakeup

  /** The queue of one client with one commit, at some point of its way. */
  function Lone(jobs: seq<Job>, commit: string, lock: Option<nat>, queueLock: Option<nat>,
                processes: seq<Process>): Queue
  {
    Queue(jobs, {commit}, lock, queueLock, processes, multiset{}, multiset{})
  }

  /** A mild run ends here. */
  ghost predicate Reaches(events: seq<Event>, q: Queue) {
    MildRun(EMPTY, events) && EnabledRun(EMPTY, events) && Run(EMPTY, events) == q
  }

  lemma Reached(events: seq<Event>, q: Queue, e: Event) returns (more: seq<Event>)
    requires Reaches(events, q) && Enabled(q, e) && Mild(q, e)
    ensures Reaches(more, Step(q, e))
  {
    MildExtends(EMPTY, events, e);
    more := events + [e];
  }

  lemma SavingIsReached(commit: string, version: string) returns (events: seq<Event>)
    ensures Reaches(events, Lone([], commit, None, Some(0), [Saving(commit, version, [])]))
  {
    var start := Start(Enqueuer(commit, version, []));
    events := Reached([], EMPTY, start);
    assert EMPTY.processes + [Enqueuer(commit, version, [])] == [Enqueuer(commit, version, [])];
    assert EMPTY.directories + {commit} == {commit};
    events := Reached(events, Step(EMPTY, start), Proceed(0, true));
  }

  lemma LaunchingIsReached(job: Job) returns (events: seq<Event>)
    requires job == Job(job.commit, job.version, [], Queued)
    ensures Reaches(events, Lone([job], job.commit, None, None, [Launching(Queued)]))
  {
    events := SavingIsReached(job.commit, job.version);
    var q := Lone([], job.commit, None, Some(0), [Saving(job.commit, job.version, [])]);
    assert q.jobs + [job] == [job];
    events := Reached(events, q, Proceed(0, true));
  }

  lemma WaitingIsReached(job: Job) returns (events: seq<Event>)
    requires job == Job(job.commit, job.version, [], Queued)
    ensures Reaches(events, Lone([job], job.commit, None, None, [Gone, Waiting]))
  {
    events := LaunchingIsReached(job);
    events := Reached(events, Lone([job], job.commit, None, None, [Launching(Queued)]), Proceed(0, true));
  }

  lemma ScanningIsReached(job: Job) returns (events: seq<Event>)
    requires job == Job(job.commit, job.version, [], Queued)
    ensures Reaches(events, Lone([job], job.commit, Some(1), None, [Gone, Scanning]))
  {
    events := WaitingIsReached(job);
    events := Reached(events, Lone([job], job.commit, None, None, [Gone, Waiting]), Proceed(1, true));
  }

  lemma LoopingIsReached(job: Job) returns (events: seq<Event>)
    requires job == Job(job.commit, job.version, [], Queued)
    ensures Reaches(events, Lone([job], job.commit, Some(1), None, [Gone, Looping([job], 0)]))
  {
    events := ScanningIsReached(job);
    events := Reached(events, Lone([job], job.commit, Some(1), None, [Gone, Scanning]), Proceed(1, true));
  }

  /** After `events`, all of them mild, a kill of process `p` in this stage leaves the job queued with nobody at
      work and nothing failed. */
  ghost predicate OneKillLoses(events: seq<Event>, p: nat, stage: Process) {
    && MildRun(EMPTY, events) && EnabledRun(EMPTY, events)
    && p < |Run(EMPTY, events).processes| && Run(EMPTY, events).processes[p] == stage
    && var q := Step(Run(EMPTY, events), Kill(p)); Quiet(q) && |q.jobs| == 1 && q.jobs[0].phase.Queued?
  }

  /** The condition of NoLostWakeups is exact: in each of the stages it leaves out, one kill is enough to leave a
      job queued behind nothing. */
  lemma EveryOtherKillLoses(job: Job, stage: Process) returns (events: seq<Event>, p: nat)
    requires job.phase.Queued? && job.screenshots == []
    requires WillLook(stage) || stage == Looping([job], 0)
    ensures OneKillLoses(events, p, stage)
  {
    match stage
    case Launching(_) =>
      events := LaunchingIsReached(job);
      p := 0;
    case Waiting =>
      events := WaitingIsReached(job);
      p := 1;
    case Scanning =>
      events := ScanningIsReached(job);
      p := 1;
    case Looping(_, _) =>
      events := LoopingIsReached(job);
      p := 1;
  }

  /** A client killed between making the directory and filing the job strands its commit. */
  lemma KilledSaverStrands(commit: string, version: string) returns (events: seq<Event>)
    ensures EnabledRun(EMPTY, events) && MildRun(EMPTY, events) && Stranded(Run(EMPTY, events), commit)
  {
    events := SavingIsReached(commit, version);
    events := Reached(events, Lone([], commit, None, Some(0), [Saving(commit, version, [])]), Kill(0));
  }

  // ---------------------------------------------------------------- one worker, from lock to unlock

  function Alone(jobs: seq<Job>, directories: set<string>, process: Process): Queue {
    Queue(jobs, directories, None, None, [process], multiset{}, multiset{})
  }

  predicate AtWork(q: Queue, jobs: seq<Job>, process: Process) {
    q.jobs == jobs && q.processes == [process] && q.lock == Some(0)
  }

  predicate AtRest(q: Queue, jobs: seq<Job>) {
    q.jobs == jobs && q.processes == [Gone]
  }

  predicate Deployable(job: Job, deploys: string -> bool) {
    job.phase.Completed? || (job.phase.Queued? && deploys(job.commit))
  }

  /** The jobs before `at` are released; the others are as the snapshot has them. */
  ghost predicate DoneUpTo(snapshot: seq<Job>, jobs: seq<Job>, at: nat) {
    && Distinct(snapshot) && at <= |snapshot| == |jobs|
    && (forall i :: 0 <= i < at ==> jobs[i].phase.Completed? && Keeps(snapshot[i], jobs[i]))
    && (forall i :: at <= i < |jobs| ==> jobs[i] == snapshot[i])
  }

  /** Saving a copy from the snapshot changes the job at that position and no other. */
  lemma NewPhaseAt(snapshot: seq<Job>, jobs: seq<Job>, at: nat, phase: Phase)
    requires at < |snapshot| && (DoneUpTo(snapshot, jobs, at) ||
             exists other :: DoneUpTo(snapshot, other, at) && jobs == other[at := snapshot[at].(phase := Deploying)])
    ensures |jobs| == |snapshot|
    ensures Saved(jobs, snapshot[at].(phase := phase)) == jobs[at := snapshot[at].(phase := phase)]
  {
    forall i | 0 <= i < at ensures jobs[i].commit != snapshot[at].commit {
      assert Keeps(snapshot[i], jobs[i]);
      assert jobs[i].commit == snapshot[i].commit;
    }
  }

  lemma NewPhaseTwice(snapshot: seq<Job>, jobs: seq<Job>, at: nat, phase: Phase)
    requires at < |snapshot| && DoneUpTo(snapshot, jobs, at)
    ensures Saved(Saved(jobs, snapshot[at].(phase := Deploying)), snapshot[at].(phase := phase))
         == jobs[at := snapshot[at].(phase := phase)]
  {
    NewPhaseAt(snapshot, jobs, at, Deploying);
    var jobs' := jobs[at := snapshot[at].(phase := Deploying)];
    NewPhaseAt(snapshot, jobs', at, phase);
    assert jobs'[at := snapshot[at].(phase := phase)] == jobs[at := snapshot[at].(phase := phase)];
  }

  /** What a lone worker leaves of the job at its position, and where it goes from there. */
  predicate TurnEnds(q: Queue, jobs: seq<Job>, snapshot: seq<Job>, at: nat, deploys: string -> bool)
    requires at < |snapshot| == |jobs|
  {
    if Deployable(snapshot[at], deploys)
    then AtWork(q, jobs[at := snapshot[at].(phase := Completed)], Looping(snapshot, at + 1))
    else AtRest(q, jobs[at := snapshot[at].(phase := Failed)])
  }

  lemma TurnOfOthers(q: Queue, snapshot: seq<Job>, at: nat, deploys: string -> bool)
    requires at < |snapshot| && DoneUpTo(snapshot, q.jobs, at) && !snapshot[at].phase.Queued?
    requires AtWork(q, q.jobs, Looping(snapshot, at))
    ensures TurnEnds(Step(q, Proceed(0, deploys(snapshot[at].commit))), q.jobs, snapshot, at, deploys)
  {
    NewPhaseAt(snapshot, q.jobs, at, Failed);
  }

  lemma TurnOfQueued(q: Queue, snapshot: seq<Job>, at: nat, deploys: string -> bool)
    requires at < |snapshot| && DoneUpTo(snapshot, q.jobs, at) && snapshot[at].phase.Queued?
    requires AtWork(q, q.jobs, Looping(snapshot, at))
    ensures var e := Proceed(0, deploys(snapshot[at].commit));
      && Enabled(Step(q, e), e)
      && TurnEnds(Step(Step(q, e), e), q.jobs, snapshot, at, deploys)
  {
    NewPhaseTwice(snapshot, q.jobs, at, if deploys(snapshot[at].commit) then Completed else Failed);
  }

  /** The steps of a lone worker for one job of its snapshot. */
  lemma WorkerTurn(before: Queue, events: seq<Event>, snapshot: seq<Job>, at: nat, deploys: string -> bool)
    returns (events': seq<Event>)
    requires EnabledRun(before, events) && at < |snapshot|
    requires DoneUpTo(snapshot, Run(before, events).jobs, at)
    requires AtWork(Run(before, events), Run(before, events).jobs, Looping(snapshot, at))
    ensures EnabledRun(before, events')
    ensures TurnEnds(Run(before, events'), Run(before, events).jobs, snapshot, at, deploys)
  {
    var q, e := Run(before, events), Proceed(0, deploys(snapshot[at].commit));
    RunExtends(before, events, e);
    events' := events + [e];
    if snapshot[at].phase.Queued? {
      TurnOfQueued(q, snapshot, at, deploys);
      RunExtends(before, events', e);
      events' := events' + [e];
    } else {
      TurnOfOthers(q, snapshot, at, deploys);
    }
  }

  lemma WorkerBegins(jobs: seq<Job>, directories: set<string>) returns (events: seq<Event>)
    ensures EnabledRun(Alone(jobs, directories, Waiting), events)
    ensures AtWork(Run(Alone(jobs, directories, Waiting), events), jobs, Looping(jobs, 0))
  {
    var before := Alone(jobs, directories, Waiting);
    RunExtends(before, [], Proceed(0, true));
    RunExtends(before, [] + [Proceed(0, true)], Proceed(0, true));
    events := [] + [Proceed(0, true)] + [Proceed(0, true)];
  }

  /** The work stopped at `k`: everything before it is released, everything after it untouched. */
  predicate StoppedAt(before: seq<Job>, after: seq<Job>, k: nat) {
    && k < |before| == |after|
    && after[k].phase.Failed? && Keeps(before[k], after[k])
    && (forall i :: 0 <= i < k ==> after[i].phase.Completed? && Keeps(before[i], after[i]))
    && (forall i :: k < i < |after| ==> after[i] == before[i])
  }

  /** What a client that wants to enqueue does when nobody disturbs it, up to the end of its locked section. */
  function EnqueuedAlone(jobs: seq<Job>, directories: set<string>,
                         commit: string, version: string, screenshots: seq<string>): Queue
  {
    var client := Alone(jobs, directories, Enqueuer(commit, version, screenshots));
    var q := Enqueued(client, 0, commit, version, screenshots);
    if q.processes[0].Saving? then Filed(q, 0, commit, version, screenshots) else q
  }

  /** The job directories and files as one process sees them while it holds the locks. */
  class Store {
    var jobs: seq<Job>
    var directories: set<string>

    constructor ()
      ensures jobs == [] && directories == {}
    {
      jobs, directories := [], {};
    }

    method Save(job: Job)
      modifies `jobs
      ensures jobs == Saved(old(jobs), job)
    {
      var i := IndexOf(jobs, job.commit);
      if i < |jobs| {
        jobs := jobs[i := job];
      }
    }

    method VersionTaken(version: string) returns (taken: bool)
      ensures taken <==> !VersionFree(jobs, version)
    {
      for i := 0 to |jobs|
        invariant forall k :: 0 <= k < i ==> jobs[k].version != version
      {
        if jobs[i].version == version {
          return true;
        }
      }
      return false;
    }

    /** The locked part of enqueueing: the phase of the job that is now on file, or a refusal. */
    method Enqueue(commit: string, version: string, screenshots: seq<string>) returns (phase: Option<Phase>)
      modifies this
      ensures var q := EnqueuedAlone(old(jobs), old(directories), commit, version, screenshots);
        && jobs == q.jobs && directories == q.directories
        && q.processes == [if phase.Some? then Launching(phase.value) else Gone]
      ensures Has(old(jobs), commit) ==> jobs == old(jobs) && directories == old(directories)
      ensures Distinct(old(jobs)) && Has(old(jobs), commit) ==>
        forall i :: 0 <= i < |jobs| && jobs[i].commit == commit ==>
          phase == if screenshots == [] || screenshots == jobs[i].screenshots then Some(jobs[i].phase) else None
      ensures !Has(old(jobs), commit) ==>
        if commit in old(directories) || (exists k :: 0 <= k < |old(jobs)| && old(jobs)[k].version == version)
        then phase.None? && jobs == old(jobs) && directories == old(directories)
        else && phase == Some(Queued) && jobs == old(jobs) + [Job(commit, version, screenshots, Queued)]
             && directories == old(directories) + {commit}
    {
      var i := IndexOf(jobs, commit);
      if i < |jobs| {
        return if screenshots != [] && screenshots != jobs[i].screenshots then None else Some(jobs[i].phase);
      }
      var taken := VersionTaken(version);
      if taken {
        return None;
      }
      if commit in directories {
        return None;
      }
      directories := directories + {commit};
      jobs := jobs + [Job(commit, version, screenshots, Queued)];
      return Some(Queued);
    }

    /** Only a failed release goes back to the queue. */
    method Retry(commit: string) returns (accepted: bool)
      modifies `jobs
      ensures var q := Retried(Alone(old(jobs), directories, Retrier(commit)), 0, commit);
        && jobs == q.jobs
        && q.processes == [if accepted then Launching(Queued) else Gone]
      ensures Distinct(old(jobs)) ==>
        (accepted <==> exists i :: 0 <= i < |old(jobs)| && old(jobs)[i].commit == commit && old(jobs)[i].phase.Failed?)
      ensures accepted ==>
        exists i ::
          && 0 <= i < |old(jobs)| && old(jobs)[i].commit == commit && old(jobs)[i].phase.Failed?
          && jobs == old(jobs)[i := old(jobs)[i].(phase := Queued)]
      ensures !accepted ==> jobs == old(jobs)
    {
      var i := IndexOf(jobs, commit);
      if i == |jobs| || !jobs[i].phase.Failed? {
        return false;
      }
      jobs := jobs[i := jobs[i].(phase := Queued)];
      return true;
    }

    /** One turn of the worker's loop: the job is released, or it is left failed and the loop ends. */
    method Attempt(ghost snapshot: seq<Job>, ghost at: nat, job: Job, deploys: string -> bool) returns (goOn: bool)
      requires at < |snapshot| && job == snapshot[at] && DoneUpTo(snapshot, jobs, at)
      modifies `jobs
      ensures goOn == Deployable(job, deploys)
      ensures jobs == old(jobs)[at := job.(phase := if goOn then Completed else Failed)]
    {
      NewPhaseAt(snapshot, jobs, at, Failed);
      NewPhaseTwice(snapshot, jobs, at, if deploys(job.commit) then Completed else Failed);
      if job.phase.Completed? {
        return true;
      }
      if !job.phase.Queued? {
        if !job.phase.Failed? {
          Save(job.(phase := Failed));
        }
        return false;
      }
      Save(job.(phase := Deploying));
      if deploys(job.commit) {
        Save(job.(phase := Completed));
        return true;
      }
      Save(job.(phase := Failed));
      return false;
    }

    /** A worker left alone: it completes every release, or stops at the first one that cannot be
        deployed and leaves the rest as they were. What it does is a run of the machine above. */
    method Work(deploys: string -> bool) returns (exit: nat, ghost events: seq<Event>)
      requires Distinct(jobs)
      modifies `jobs
      ensures exit == 0 || exit == 1
      ensures exit == 0 <==> forall i :: 0 <= i < |old(jobs)| ==> Deployable(old(jobs)[i], deploys)
      ensures exit == 0 ==> DoneUpTo(old(jobs), jobs, |jobs|)
      ensures exit == 1 ==> exists k :: 0 <= k < |jobs| && StoppedAt(old(jobs), jobs, k)
      ensures EnabledRun(Alone(old(jobs), directories, Waiting), events)
      ensures AtRest(Run(Alone(old(jobs), directories, Waiting), events), jobs)
    {
      ghost var before := Alone(jobs, directories, Waiting);
      var snapshot := jobs;
      events := WorkerBegins(jobs, directories);
      var at := 0;
      while at < |snapshot|
        invariant at <= |snapshot| && DoneUpTo(snapshot, jobs, at)
        invariant forall i :: 0 <= i < at ==> Deployable(snapshot[i], deploys)
        invariant EnabledRun(before, events)
        invariant AtWork(Run(before, events), jobs, Looping(snapshot, at))
      {
        events := WorkerTurn(before, events, snapshot, at, deploys);
        var goOn := Attempt(snapshot, at, snapshot[at], deploys);
        if !goOn {
          assert StoppedAt(snapshot, jobs, at);
          return 1, events;
        }
        at := at + 1;
      }
      RunExtends(before, events, Proceed(0, true));
      return 0, events + [Proceed(0, true)];
    }
  }
}
