/**
 The job engine as a protocol: pool workers, Process Now threads and request threads
 interleave over one queue, two scheduler locks and the job history, with crashes and
 restarts in between. Every critical section of the queue, every lock acquisition, every
 status read made outside a lock and every history write is a step of its own.
 */
module Engine {
  import opened Common
  import opened Audio
  import opened Jobs
  import opened History
  import opened Recovery
  import Q = Queue

  type Tid = nat

  const AUTO_QUEUE_LIMIT := 5

  /** Where `_run_job` stands for the job a thread has claimed. */
  datatype Stage =
    | RecordStart
    | Launch
    | InPipeline
    | Settling(ok: bool)
    | RecordEnd
    | Effects
    | HookDue
    | InHook

  datatype Wait = UntilIdle | UntilNoneRunning

  /** What a thread is doing outside `top_up` and `enqueue_file`. */
  datatype Base =
    | Idle                     // pool worker about to enter the claim section
    | Parked(timed: bool)      // pool worker in Condition.wait, not notified
    | Run(id: JobId, stage: Stage)
    | Gone
    | Free                     // request, webhook or scan thread between calls
    | DeletingRow(id: JobId)   // a pending job was cancelled, its row is next
    | Clearing(unread: seq<JobId>, todo: seq<JobId>, done: seq<JobId>, row: Option<JobId>)
    | Finding(path: Path, unread: seq<JobId>)
    | Found(id: JobId)
    | Creating
    | Forcing(id: JobId)
    | Resolving(id: JobId)
    | Answered(result: Option<JobId>)
    | Awaiting(wait: Wait, parked: bool)
    | Joining(left: set<Tid>)

  /** The `top_up` frame. Everything after AtTopLock holds the top-up lock. */
  datatype Refill =
    | NoRefill
    | AtTopLock
    | AtPause
    | AtCount
    | Counting(unread: seq<JobId>, n: nat)
    | Filling(n: nat)
    | Calling(n: nat)
    | Leaving

  /** The `enqueue_file` / `trigger_set_default_audio` frame. */
  datatype Enq =
    | NoEnq
    | Probing(path: Path, kind: Kind)
    | AtEnqLock(path: Path, kind: Kind)
    | Snapshotting(path: Path, kind: Kind)
    | Scanning(path: Path, kind: Kind, unread: seq<JobId>)
    | Inserting(path: Path, kind: Kind)
    | Recording(id: JobId)
    | Unlocking(result: Option<JobId>)
    | Returned(result: Option<JobId>)

  datatype Thread = Thread(base: Base, refill: Refill, enq: Enq)

  predicate HoldsTop(r: Refill) { !r.NoRefill? && !r.AtTopLock? }

  predicate HoldsEnq(e: Enq) { !e.NoEnq? && !e.Probing? && !e.AtEnqLock? && !e.Returned? }

  /** `launches` logs every call of a pipeline; `refills` are the jobs top-up ever created. */
  datatype State = State(
    up: bool,
    q: Q.Queue,
    threads: map<Tid, Thread>,
    pool: set<Tid>,
    forced: set<Tid>,
    poolStarted: bool,
    maxConcurrency: nat,
    enqLock: Option<Tid>,
    topLock: Option<Tid>,
    rows: seq<Row>,
    used: set<JobId>,
    launches: seq<JobId>,
    refills: set<JobId>)

  predicate Quiet(th: Thread) { th.refill.NoRefill? && th.enq.NoEnq? }

  /** Thread t exists, is in base state `b`'s shape and is in no scheduler call. */
  predicate At(s: State, t: Tid) { t in s.threads && Quiet(s.threads[t]) }

  function Move(s: State, t: Tid, th: Thread): State { s.(threads := s.threads[t := th]) }

  function MoveBase(s: State, t: Tid, b: Base): State { Move(s, t, Thread(b, NoRefill, NoEnq)) }

  /** `notify_all`: parked threads contend for the lock again. */
  function Wake(th: Thread): Thread {
    match th.base
    case Parked(_) => th.(base := Idle)
    case Awaiting(w, _) => th.(base := Awaiting(w, false))
    case _ => th
  }

  function WakeAll(ts: map<Tid, Thread>): map<Tid, Thread> { map t | t in ts :: Wake(ts[t]) }

  function Notified(s: State, q: Q.Queue): State { s.(q := q, threads := WakeAll(s.threads)) }

  // ----- process lifetime -----

  ghost predicate Init(s: State) {
    s == State(false, Q.EMPTY, map[], {}, {}, false, s.maxConcurrency, None, None, [], {}, [], {})
        && s.maxConcurrency >= 1
  }

  /** The process dies: only the history survives. */
  ghost predicate Crash(s: State, s': State) {
    s' == State(false, Q.EMPTY, map[], {}, {}, false, s.maxConcurrency, None, None, s.rows, s.used, s.launches,
                s.refills)
  }

  /** A boot that dies while marking rows: some rows it cannot carry over are already marked. */
  ghost predicate AbortedBoot(s: State, settings: Settings, s': State) {
    && !s.up && |s'.rows| == |s.rows| && s' == s.(rows := s'.rows)
    && forall i :: 0 <= i < |s.rows| ==> s'.rows[i] == s.rows[i] || s'.rows[i] == MarkedRow(s.rows[i], settings)
  }

  ghost predicate Boot(s: State, settings: Settings, s': State) {
    !s.up && s' == s.(up := true, q := RecoveredQueue(s.rows, settings), rows := Marked(s.rows, settings))
  }

  ghost predicate Spawn(s: State, t: Tid, s': State) {
    s.up && t !in s.threads && s' == MoveBase(s, t, Free)
  }

  ghost predicate StartPool(s: State, t: Tid, workers: set<Tid>, s': State) {
    && At(s, t) && s.threads[t].base.Free? && |workers| == s.maxConcurrency
    && (forall w :: w in workers ==> w !in s.threads)
    && s' == if s.poolStarted || s.q.shutdown then s
             else s.(poolStarted := true, pool := workers,
                     threads := s.threads + map w | w in workers :: Thread(Idle, NoRefill, NoEnq))
  }

  // ----- workers -----

  ghost predicate Claim(s: State, t: Tid, paused: bool, s': State) {
    && At(s, t) && s.threads[t].base.Idle? && (forall id :: id in s.q.order ==> id in s.q.jobs)
    && var (q', got) := Q.Claim(s.q);
       s' == if s.q.shutdown then MoveBase(s, t, Gone)
             else if paused then MoveBase(s, t, Parked(true))
             else if got.None? then MoveBase(s, t, Parked(false))
             else MoveBase(s.(q := q'), t, Run(got.value, RecordStart))
  }

  ghost predicate PollTick(s: State, t: Tid, s': State) {
    At(s, t) && s.threads[t].base == Parked(true) && s' == MoveBase(s, t, Idle)
  }

  ghost predicate Running(s: State, t: Tid, stage: Stage) {
    At(s, t) && s.threads[t].base.Run? && s.threads[t].base.stage == stage && s.threads[t].base.id in s.q.jobs
  }

  ghost predicate WriteStart(s: State, t: Tid, s': State) {
    && Running(s, t, RecordStart)
    && var id := s.threads[t].base.id;
       s' == MoveBase(s.(rows := Record(s.rows, id, s.q.jobs[id])), t, Run(id, Launch))
  }

  ghost predicate LaunchPipeline(s: State, t: Tid, s': State) {
    && Running(s, t, Launch)
    && var id := s.threads[t].base.id;
       s' == MoveBase(s.(launches := s.launches + [id]), t, Run(id, InPipeline))
  }

  /** The pipeline returns or raises; `ok` is the success it reports, false for an exception. */
  ghost predicate PipelineEnds(s: State, t: Tid, ok: bool, s': State) {
    Running(s, t, InPipeline) && s' == MoveBase(s, t, Run(s.threads[t].base.id, Settling(ok)))
  }

  ghost predicate SettleJob(s: State, t: Tid, ok: bool, s': State) {
    && Running(s, t, Settling(ok))
    && var id := s.threads[t].base.id;
       s' == MoveBase(s.(q := Q.Settle(s.q, id, ok)), t, Run(id, RecordEnd))
  }

  ghost predicate WriteEnd(s: State, t: Tid, s': State) {
    && Running(s, t, RecordEnd)
    && var id := s.threads[t].base.id;
       s' == MoveBase(s.(rows := Record(s.rows, id, s.q.jobs[id])), t, Run(id, Effects))
  }

  ghost predicate SideEffects(s: State, t: Tid, s': State) {
    Running(s, t, Effects) && s' == MoveBase(s, t, Run(s.threads[t].base.id, HookDue))
  }

  /** The terminal hook calls `top_up`; it is skipped while no scheduler has registered it. */
  ghost predicate CallHook(s: State, t: Tid, wired: bool, s': State) {
    && Running(s, t, HookDue)
    && s' == Move(s, t, Thread(Run(s.threads[t].base.id, InHook), if wired then AtTopLock else NoRefill, NoEnq))
  }

  /** The `finally` block: the active count drops and everyone is notified. */
  ghost predicate Finish(s: State, t: Tid, s': State) {
    && Running(s, t, InHook)
    && s' == MoveBase(Notified(s, Q.Release(s.q)), t, if t in s.pool then Idle else Gone)
  }

  // ----- top-up -----

  ghost predicate InRefill(s: State, t: Tid) { t in s.threads && s.threads[t].enq.NoEnq? }

  function MoveRefill(s: State, t: Tid, r: Refill): State
    requires t in s.threads
  {
    Move(s, t, s.threads[t].(refill := r))
  }

  ghost predicate BeginTopUp(s: State, t: Tid, s': State) {
    At(s, t) && s.threads[t].base.Free? && s' == MoveRefill(s, t, AtTopLock)
  }

  ghost predicate TakeTopLock(s: State, t: Tid, s': State) {
    InRefill(s, t) && s.threads[t].refill.AtTopLock? && s.topLock.None?
    && s' == MoveRefill(s.(topLock := Some(t)), t, AtPause)
  }

  ghost predicate ReadPause(s: State, t: Tid, paused: bool, s': State) {
    InRefill(s, t) && s.threads[t].refill.AtPause? && s' == MoveRefill(s, t, if paused then Leaving else AtCount)
  }

  ghost predicate ListForCount(s: State, t: Tid, s': State) {
    InRefill(s, t) && s.threads[t].refill.AtCount? && s' == MoveRefill(s, t, Counting(s.q.order, 0))
  }

  /** One unlocked status read of `_count_pending`. */
  ghost predicate CountOne(s: State, t: Tid, s': State) {
    && InRefill(s, t) && s.threads[t].refill.Counting?
    && var c := s.threads[t].refill;
       c.unread != [] && c.unread[0] in s.q.jobs
       && s' == MoveRefill(s, t, Counting(c.unread[1..],
            if s.q.jobs[c.unread[0]].status.Pending? then c.n + 1 else c.n))
  }

  ghost predicate CountDone(s: State, t: Tid, s': State) {
    && InRefill(s, t) && s.threads[t].refill.Counting? && s.threads[t].refill.unread == []
    && s' == MoveRefill(s, t, Filling(s.threads[t].refill.n))
  }

  /** The next monitored file, while the count is under the limit. */
  ghost predicate FillOne(s: State, t: Tid, path: Path, s': State) {
    && InRefill(s, t) && s.threads[t].refill.Filling? && s.threads[t].refill.n < AUTO_QUEUE_LIMIT
    && s' == Move(s, t, s.threads[t].(refill := Calling(s.threads[t].refill.n), enq := Probing(path, Downmix)))
  }

  ghost predicate FillReturns(s: State, t: Tid, s': State) {
    && t in s.threads && s.threads[t].refill.Calling? && s.threads[t].enq.Returned?
    && var n := s.threads[t].refill.n;
       s' == Move(s, t, s.threads[t].(refill := Filling(if s.threads[t].enq.result.Some? then n + 1 else n),
           enq := NoEnq))
  }

  /** The walk ends: limit reached, files exhausted, or an exception. */
  ghost predicate StopFilling(s: State, t: Tid, s': State) {
    InRefill(s, t) && s.threads[t].refill.Filling? && s' == MoveRefill(s, t, Leaving)
  }

  ghost predicate DropTopLock(s: State, t: Tid, s': State) {
    InRefill(s, t) && s.threads[t].refill.Leaving? && s' == MoveRefill(s.(topLock := None), t, NoRefill)
  }

  // ----- enqueue_file and trigger_set_default_audio -----

  function MoveEnq(s: State, t: Tid, e: Enq): State
    requires t in s.threads
  {
    Move(s, t, s.threads[t].(enq := e))
  }

  ghost predicate Trigger(s: State, t: Tid, path: Path, kind: Kind, s': State) {
    At(s, t) && s.threads[t].base.Free? && s' == MoveEnq(s, t, Probing(path, kind))
  }

  /** The unlocked pre-check, the probe, the tracked gate or target detection says no. */
  ghost predicate SkipFile(s: State, t: Tid, s': State) {
    t in s.threads && s.threads[t].enq.Probing? && s' == MoveEnq(s, t, Returned(None))
  }

  /** The file qualifies: the thread now waits for the enqueue lock. */
  ghost predicate QualifyFile(s: State, t: Tid, s': State) {
    && t in s.threads && s.threads[t].enq.Probing?
    && s' == MoveEnq(s, t, AtEnqLock(s.threads[t].enq.path, s.threads[t].enq.kind))
  }

  ghost predicate TakeEnqLock(s: State, t: Tid, s': State) {
    && t in s.threads && s.threads[t].enq.AtEnqLock? && s.enqLock.None?
    && s' == MoveEnq(s.(enqLock := Some(t)), t, Snapshotting(s.threads[t].enq.path, s.threads[t].enq.kind))
  }

  ghost predicate ListForDuplicate(s: State, t: Tid, s': State) {
    && t in s.threads && s.threads[t].enq.Snapshotting?
    && s' == MoveEnq(s, t, Scanning(s.threads[t].enq.path, s.threads[t].enq.kind, s.q.order))
  }

  /** One unlocked read of the duplicate check. */
  ghost predicate ScanOne(s: State, t: Tid, s': State) {
    && t in s.threads && s.threads[t].enq.Scanning?
    && var e := s.threads[t].enq;
       e.unread != [] && e.unread[0] in s.q.jobs
       && var job := s.q.jobs[e.unread[0]];
          s' == MoveEnq(s, t, if job.path == e.path && Active(job.status) then Unlocking(None)
                              else Scanning(e.path, e.kind, e.unread[1..]))
  }

  /** No active job seen; `recent` is what the recently-processed window says. */
  ghost predicate ScanDone(s: State, t: Tid, recent: bool, s': State) {
    && t in s.threads && s.threads[t].enq.Scanning? && s.threads[t].enq.unread == []
    && s' == MoveEnq(s, t, if recent then Unlocking(None) else Inserting(s.threads[t].enq.path, s.threads[t].enq.kind))
  }

  function NewJob(path: Path, kind: Kind, settings: DownmixSettings, preference: Option<Preference>): Job {
    Job(path, kind, settings, preference, 0, Pending, false)
  }

  /** `_enqueue`'s critical section under a fresh id. */
  ghost predicate InsertJob(s: State, t: Tid, id: JobId, settings: DownmixSettings, pref: Option<Preference>, s': State)
  {
    && t in s.threads && s.threads[t].enq.Inserting? && id !in s.used
    && var e := s.threads[t].enq;
       s' == MoveEnq(Notified(s, Q.Enqueue(s.q, id, NewJob(e.path, e.kind, settings, pref)))
                       .(used := s.used + {id},
                         refills := if s.threads[t].refill.Calling? then s.refills + {id} else s.refills),
                     t, Recording(id))
  }

  /** The row is written after the queue lock is released, with the status the job has by then. */
  ghost predicate WriteQueued(s: State, t: Tid, s': State) {
    && t in s.threads && s.threads[t].enq.Recording? && s.threads[t].enq.id in s.q.jobs
    && var id := s.threads[t].enq.id;
       s' == MoveEnq(s.(rows := Record(s.rows, id, s.q.jobs[id])), t, Unlocking(Some(id)))
  }

  ghost predicate DropEnqLock(s: State, t: Tid, s': State) {
    && t in s.threads && s.threads[t].enq.Unlocking?
    && s' == MoveEnq(s.(enqLock := None), t, Returned(s.threads[t].enq.result))
  }

  ghost predicate TriggerReturns(s: State, t: Tid, s': State) {
    && t in s.threads && s.threads[t].base.Free? && s.threads[t].refill.NoRefill? && s.threads[t].enq.Returned?
    && s' == MoveEnq(s, t, NoEnq)
  }

  // ----- cancel, clear, bump -----

  ghost predicate CancelPending(s: State, t: Tid, id: JobId, s': State) {
    && At(s, t) && s.threads[t].base.Free?
    && var (q', ok) := Q.Cancel(s.q, id);
       s' == if ok then MoveBase(Notified(s, q'), t, DeletingRow(id)) else s
  }

  ghost predicate DeleteRow(s: State, t: Tid, s': State) {
    && At(s, t) && s.threads[t].base.DeletingRow?
    && s' == Move(s.(rows := Delete(s.rows, s.threads[t].base.id).0), t, Thread(Free, AtTopLock, NoEnq))
  }

  /** `cancel_running` found the job running and signalled its handle; `cancel_job` then tops up. */
  ghost predicate CancelRunning(s: State, t: Tid, id: JobId, s': State) {
    && At(s, t) && s.threads[t].base.Free? && id in s.q.order && id in s.q.jobs && s.q.jobs[id].status.Running?
    && s' == MoveRefill(s, t, AtTopLock)
  }

  ghost predicate ClearBegin(s: State, t: Tid, s': State) {
    At(s, t) && s.threads[t].base.Free? && s' == MoveBase(s, t, Clearing(s.q.order, [], [], None))
  }

  ghost predicate ClearRead(s: State, t: Tid, s': State) {
    && At(s, t) && s.threads[t].base.Clearing?
    && var c := s.threads[t].base;
       c.unread != [] && c.unread[0] in s.q.jobs
       && s' == MoveBase(s, t, c.(unread := c.unread[1..],
                                  todo := if s.q.jobs[c.unread[0]].status.Pending? then c.todo + [c.unread[0]]
                                      else c.todo))
  }

  ghost predicate ClearCancel(s: State, t: Tid, s': State) {
    && At(s, t) && s.threads[t].base.Clearing?
    && var c := s.threads[t].base;
       c.unread == [] && c.todo != [] && c.row.None?
       && var (q', ok) := Q.Cancel(s.q, c.todo[0]);
          var c' := c.(todo := c.todo[1..], done := c.done + [c.todo[0]], row := if ok then Some(c.todo[0]) else None);
          s' == MoveBase(if ok then Notified(s, q') else s, t, c')
  }

  ghost predicate ClearRow(s: State, t: Tid, s': State) {
    && At(s, t) && s.threads[t].base.Clearing? && s.threads[t].base.row.Some?
    && var c := s.threads[t].base;
       s' == MoveBase(s.(rows := Delete(s.rows, c.row.value).0), t, c.(row := None))
  }

  ghost predicate ClearEnd(s: State, t: Tid, s': State) {
    && At(s, t) && s.threads[t].base.Clearing?
    && var c := s.threads[t].base;
       c.unread == [] && c.todo == [] && c.row.None? && s' == Move(s, t, Thread(Free, AtTopLock, NoEnq))
  }

  ghost predicate Bump(s: State, t: Tid, id: JobId, s': State) {
    && At(s, t) && s.threads[t].base.Free? && (forall x :: x in s.q.order ==> x in s.q.jobs)
    && var (q', ok) := Q.BumpToFront(s.q, id);
       s' == if ok then Notified(s, q') else s
  }

  // ----- Process Now -----

  ghost predicate ListForNow(s: State, t: Tid, path: Path, s': State) {
    At(s, t) && s.threads[t].base.Free? && s' == MoveBase(s, t, Finding(path, s.q.order))
  }

  ghost predicate FindOne(s: State, t: Tid, s': State) {
    && At(s, t) && s.threads[t].base.Finding?
    && var f := s.threads[t].base;
       f.unread != [] && f.unread[0] in s.q.jobs
       && var job := s.q.jobs[f.unread[0]];
          s' == MoveBase(s, t, if job.path == f.path && Active(job.status) then Found(f.unread[0])
                               else Finding(f.path, f.unread[1..]))
  }

  ghost predicate FindMiss(s: State, t: Tid, s': State) {
    && At(s, t) && s.threads[t].base.Finding? && s.threads[t].base.unread == []
    && s' == Move(s, t, Thread(Creating, NoRefill, Probing(s.threads[t].base.path, Downmix)))
  }

  ghost predicate CheckFound(s: State, t: Tid, s': State) {
    && At(s, t) && s.threads[t].base.Found? && s.threads[t].base.id in s.q.jobs
    && var id := s.threads[t].base.id;
       s' == MoveBase(s, t, if s.q.jobs[id].status.Pending? then Forcing(id) else Answered(Some(id)))
  }

  ghost predicate Created(s: State, t: Tid, s': State) {
    && t in s.threads && s.threads[t].base.Creating? && s.threads[t].enq.Returned?
    && var r := s.threads[t].enq.result;
       s' == MoveBase(s, t, if r.None? then Answered(None) else Forcing(r.value))
  }

  /** `force_start`: on success the job runs at once on the new thread `u`. */
  ghost predicate Force(s: State, t: Tid, u: Tid, s': State) {
    && At(s, t) && s.threads[t].base.Forcing? && u !in s.threads
    && var id := s.threads[t].base.id;
       var (q', ok) := Q.ForceStart(s.q, id);
       s' == if ok then MoveBase(MoveBase(s.(q := q', forced := s.forced + {u}), u, Run(id, RecordStart)), t,
           Answered(Some(id)))
             else MoveBase(s, t, Resolving(id))
  }

  ghost predicate Resolve(s: State, t: Tid, s': State) {
    && At(s, t) && s.threads[t].base.Resolving? && s.threads[t].base.id in s.q.jobs
    && var id := s.threads[t].base.id;
       s' == MoveBase(s, t, Answered(if s.q.jobs[id].status.Pending? then None else Some(id)))
  }

  ghost predicate NowReturns(s: State, t: Tid, s': State) {
    At(s, t) && s.threads[t].base.Answered? && s' == MoveBase(s, t, Free)
  }

  // ----- waiting and shutdown -----

  predicate Unmet(q: Q.Queue, w: Wait) {
    match w
    case UntilIdle => Q.Busy(q)
    case UntilNoneRunning => q.active > 0
  }

  ghost predicate BeginWait(s: State, t: Tid, w: Wait, s': State) {
    At(s, t) && s.threads[t].base.Free? && s' == MoveBase(s, t, Awaiting(w, false))
  }

  /** Under the lock: park again while the condition is unmet, return once it is met. */
  ghost predicate CheckWait(s: State, t: Tid, s': State) {
    && At(s, t) && s.threads[t].base.Awaiting? && !s.threads[t].base.parked
    && s' == MoveBase(s, t, if Unmet(s.q, s.threads[t].base.wait) then Awaiting(s.threads[t].base.wait, true) else Free)
  }

  ghost predicate BeginShutdown(s: State, t: Tid, s': State) {
    && At(s, t) && s.threads[t].base.Free?
    && s' == if s.q.shutdown then s
             else MoveBase(Notified(s, Q.Shutdown(s.q)), t, Joining(s.pool + s.forced))
  }

  ghost predicate JoinOne(s: State, t: Tid, u: Tid, s': State) {
    && At(s, t) && s.threads[t].base.Joining? && u in s.threads && s.threads[u].base.Gone?
    && s' == MoveBase(s, t, Joining(s.threads[t].base.left - {u}))
  }

  ghost predicate ShutdownReturns(s: State, t: Tid, s': State) {
    At(s, t) && s.threads[t].base == Joining({}) && s' == MoveBase(s, t, Free)
  }

  // ----- the transition relation -----

  datatype LifeStep =
    | Crashes | AbortsBoot(settings: Settings) | Boots(settings: Settings) | Spawns | StartsPool(workers: set<Tid>)

  datatype WorkStep =
    | Claims(paused: bool) | Ticks | WritesStart | Launches | Ends(ok: bool) | Settles(ok: bool)
    | WritesEnd | DoesEffects | CallsHook(wired: bool) | Finishes

  datatype RefillStep =
    | Begins | TakesLock | ReadsPause(paused: bool) | Lists | CountsOne | Counted | FillsOne(path: Path)
    | Returns | Stops | DropsLock

  datatype EnqStep =
    | Triggers(path: Path, kind: Kind) | Skips | Qualifies | Locks | ListsJobs | ScansOne | Scanned(recent: bool)
    | Inserts(id: JobId, settings: DownmixSettings, pref: Option<Preference>) | WritesRow | Unlocks | Ended

  datatype CancelStep =
    | CancelsPending(id: JobId) | DeletesRow | CancelsRunning(id: JobId) | BeginsClear | ReadsOne | CancelsNext
    | DeletesNext | EndsClear | Bumps(id: JobId)

  datatype NowStep =
    | ListsFor(path: Path) | FindsOne | FindsNone | Checks | Creates | Forces(u: Tid) | Resolves | Answers

  datatype WaitStep = BeginsWait(w: Wait) | ChecksWait | Shuts | Joins(u: Tid) | ShutReturns

  datatype Step =
    | Life(t: Tid, life: LifeStep)
    | Work(t: Tid, work: WorkStep)
    | Topping(t: Tid, refill: RefillStep)
    | Enqueueing(t: Tid, enq: EnqStep)
    | Cancelling(t: Tid, cancel: CancelStep)
    | ProcessNow(t: Tid, now: NowStep)
    | Waiting(t: Tid, wait: WaitStep)

  ghost predicate LifeNext(s: State, t: Tid, a: LifeStep, s': State) {
    match a
    case Crashes => Crash(s, s')
    case AbortsBoot(settings) => AbortedBoot(s, settings, s')
    case Boots(settings) => Boot(s, settings, s')
    case Spawns => Spawn(s, t, s')
    case StartsPool(workers) => StartPool(s, t, workers, s')
  }

  ghost predicate WorkNext(s: State, t: Tid, a: WorkStep, s': State) {
    match a
    case Claims(paused) => Claim(s, t, paused, s')
    case Ticks => PollTick(s, t, s')
    case WritesStart => WriteStart(s, t, s')
    case Launches => LaunchPipeline(s, t, s')
    case Ends(ok) => PipelineEnds(s, t, ok, s')
    case Settles(ok) => SettleJob(s, t, ok, s')
    case WritesEnd => WriteEnd(s, t, s')
    case DoesEffects => SideEffects(s, t, s')
    case CallsHook(wired) => CallHook(s, t, wired, s')
    case Finishes => Finish(s, t, s')
  }

  ghost predicate RefillNext(s: State, t: Tid, a: RefillStep, s': State) {
    match a
    case Begins => BeginTopUp(s, t, s')
    case TakesLock => TakeTopLock(s, t, s')
    case ReadsPause(paused) => ReadPause(s, t, paused, s')
    case Lists => ListForCount(s, t, s')
    case CountsOne => CountOne(s, t, s')
    case Counted => CountDone(s, t, s')
    case FillsOne(path) => FillOne(s, t, path, s')
    case Returns => FillReturns(s, t, s')
    case Stops => StopFilling(s, t, s')
    case DropsLock => DropTopLock(s, t, s')
  }

  ghost predicate EnqNext(s: State, t: Tid, a: EnqStep, s': State) {
    match a
    case Triggers(path, kind) => Trigger(s, t, path, kind, s')
    case Skips => SkipFile(s, t, s')
    case Qualifies => QualifyFile(s, t, s')
    case Locks => TakeEnqLock(s, t, s')
    case ListsJobs => ListForDuplicate(s, t, s')
    case ScansOne => ScanOne(s, t, s')
    case Scanned(recent) => ScanDone(s, t, recent, s')
    case Inserts(id, settings, pref) => InsertJob(s, t, id, settings, pref, s')
    case WritesRow => WriteQueued(s, t, s')
    case Unlocks => DropEnqLock(s, t, s')
    case Ended => TriggerReturns(s, t, s')
  }

  ghost predicate CancelNext(s: State, t: Tid, a: CancelStep, s': State) {
    match a
    case CancelsPending(id) => CancelPending(s, t, id, s')
    case DeletesRow => DeleteRow(s, t, s')
    case CancelsRunning(id) => CancelRunning(s, t, id, s')
    case BeginsClear => ClearBegin(s, t, s')
    case ReadsOne => ClearRead(s, t, s')
    case CancelsNext => ClearCancel(s, t, s')
    case DeletesNext => ClearRow(s, t, s')
    case EndsClear => ClearEnd(s, t, s')
    case Bumps(id) => Bump(s, t, id, s')
  }

  ghost predicate NowNext(s: State, t: Tid, a: NowStep, s': State) {
    match a
    case ListsFor(path) => ListForNow(s, t, path, s')
    case FindsOne => FindOne(s, t, s')
    case FindsNone => FindMiss(s, t, s')
    case Checks => CheckFound(s, t, s')
    case Creates => Created(s, t, s')
    case Forces(u) => Force(s, t, u, s')
    case Resolves => Resolve(s, t, s')
    case Answers => NowReturns(s, t, s')
  }

  ghost predicate WaitNext(s: State, t: Tid, a: WaitStep, s': State) {
    match a
    case BeginsWait(w) => BeginWait(s, t, w, s')
    case ChecksWait => CheckWait(s, t, s')
    case Shuts => BeginShutdown(s, t, s')
    case Joins(u) => JoinOne(s, t, u, s')
    case ShutReturns => ShutdownReturns(s, t, s')
  }

  ghost predicate Next(s: State, a: Step, s': State) {
    match a
    case Life(t, l) => LifeNext(s, t, l, s')
    case Work(t, w) => WorkNext(s, t, w, s')
    case Topping(t, r) => RefillNext(s, t, r, s')
    case Enqueueing(t, e) => EnqNext(s, t, e, s')
    case Cancelling(t, c) => CancelNext(s, t, c, s')
    case ProcessNow(t, n) => NowNext(s, t, n, s')
    case Waiting(t, w) => WaitNext(s, t, w, s')
  }

  ghost predicate StepAt(run: seq<State>, steps: seq<Step>, i: nat)
    requires |run| == |steps| + 1 && i < |steps|
  {
    Next(run[i], steps[i], run[i + 1])
  }

  /** A run: a start state, and each state a step after the one before. */
  ghost predicate IsRun(run: seq<State>, steps: seq<Step>) {
    && |run| == |steps| + 1 && Init(run[0])
    && forall i: nat :: i < |steps| ==> StepAt(run, steps, i)
  }
}
