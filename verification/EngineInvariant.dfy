/**
 The invariant every interleaving keeps: the queue is well formed, every frame refers to
 known jobs, and the running jobs, the runner threads and the active count agree.

 Its parts, by what they speak of:
 - QueueOk: the queue is valid and every id in it has been used;
 - ThreadsOk: what each thread's program counter implies about the queue, thread by thread;
 - RunnersOk: one runner thread per running job, as many as the active count says;
 - RowsOk: one history row per key, for used ids only;
 - PoolOk: the pool is as large as configured, and a dead process holds nothing.

 Every step of a living process performs one queue operation, `NoOp` included. The lemmas
 show what each operation keeps, first for the queue, then thread by thread.
 */
module EngineInvariant {
  import opened Common
  import opened Audio
  import opened Jobs
  import opened History
  import opened Engine
  import Q = Queue

  // ----- what one step may do to the queue -----

  /** Jobs keep their identity, statuses only move forward, nothing re-enters the dict. */
  ghost predicate Progress(q: Q.Queue, q': Q.Queue) {
    && (forall id :: id in q.jobs ==> id in q'.jobs && Advances(q.jobs[id], q'.jobs[id]))
    && (forall id :: id in q.jobs && id !in q.order ==> id !in q'.order && q'.jobs[id] == q.jobs[id])
    && (forall id :: id in q.order && id in q.jobs && id !in q'.order
         ==> q'.jobs[id] == q.jobs[id] && q.jobs[id].status.Pending?)
    && (q.shutdown ==> q'.shutdown && forall id ::
         id in q.jobs && q.jobs[id].status.Pending? ==> q'.jobs[id].status.Pending?)
  }

  ghost predicate AllKnown(ids: seq<JobId>, q: Q.Queue) { forall id :: id in ids ==> id in q.jobs }

  predicate Early(stage: Stage) { stage.RecordStart? || stage.Launch? || stage.InPipeline? || stage.Settling? }

  predicate Worker(s: State, t: Tid) { t in s.pool || t in s.forced }

  ghost predicate BaseOk(s: State, t: Tid, b: Base) {
    && (Worker(s, t) <==> b.Idle? || b.Parked? || b.Run? || b.Gone?)
    && match b
       case Idle => t in s.pool
       case Parked(_) => t in s.pool
       case Run(id, stage) =>
         && id in s.q.order && id in s.q.jobs
         && if Early(stage) then s.q.jobs[id].status.Running? else
              s.q.jobs[id].status.Succeeded? || s.q.jobs[id].status.Failed?
       case Gone => true
       case DeletingRow(id) => id in s.q.jobs && id !in s.q.order
       case Clearing(unread, todo, done, row) =>
         && AllKnown(unread, s.q) && AllKnown(todo, s.q) && AllKnown(done, s.q)
         && (forall id :: id in done ==> !Q.Waits(s.q, id))
         && (row.Some? ==> row.value in s.q.jobs && row.value !in s.q.order)
       case Finding(_, unread) => AllKnown(unread, s.q)
       case Found(id) => id in s.q.jobs
       case Forcing(id) => id in s.q.jobs
       case Resolving(id) => id in s.q.jobs
       case Answered(r) => r.Some? ==> r.value in s.q.jobs && !s.q.jobs[r.value].status.Pending?
       case Joining(left) =>
         && s.q.shutdown && left <= s.pool + s.forced
         && forall u :: Worker(s, u) ==> u in left || (u in s.threads && s.threads[u].base.Gone?)
       case _ => true
  }

  ghost predicate FrameOk(s: State, th: Thread) {
    && (!th.refill.NoRefill? ==>
         (th.base.Free? || (th.base.Run? && th.base.stage.InHook?)) && (th.refill.Calling? <==> !th.enq.NoEnq?))
    && (th.refill.NoRefill? && !th.enq.NoEnq? ==> th.base.Free? || th.base.Creating?)
    && (th.base.Creating? ==> !th.enq.NoEnq?)
    && (th.refill.Counting? ==> AllKnown(th.refill.unread, s.q))
    && match th.enq
       case Scanning(_, _, unread) => AllKnown(unread, s.q)
       case Recording(id) => id in s.q.jobs
       case Unlocking(r) => r.Some? ==> r.value in s.q.jobs
       case Returned(r) => r.Some? ==> r.value in s.q.jobs
       case _ => true
  }

  ghost predicate ThreadsOk(s: State) {
    && (forall t :: t in s.threads ==> BaseOk(s, t, s.threads[t].base) && FrameOk(s, s.threads[t]))
    && (forall t :: Worker(s, t) ==> t in s.threads)
    && s.pool !! s.forced
  }

  ghost function Runners(ts: map<Tid, Thread>): set<Tid> { set t | t in ts && ts[t].base.Run? }

  ghost predicate Runs(s: State, t: Tid, id: JobId) {
    t in s.threads && s.threads[t].base.Run? && s.threads[t].base.id == id
  }

  ghost predicate RunnersOk(s: State) {
    && s.q.active == |Runners(s.threads)|
    && (forall t, u, id :: Runs(s, t, id) && Runs(s, u, id) ==> t == u)
    && (forall id :: id in s.q.jobs && s.q.jobs[id].status.Running? ==> exists t :: Runs(s, t, id))
  }

  ghost predicate RowsOk(s: State) {
    DistinctKeys(s.rows) && forall r :: r in s.rows && r.key.Uuid? ==> r.key.id in s.used
  }

  ghost predicate PoolOk(s: State) {
    && (s.poolStarted ==> |s.pool| == s.maxConcurrency) && (!s.poolStarted ==> s.pool == {})
    && (!s.up ==> s.threads == map[] && s.q == Q.EMPTY)
  }

  ghost predicate QueueOk(s: State) { Q.Valid(s.q) && forall id :: id in s.q.jobs ==> id in s.used }

  ghost predicate Inv(s: State) {
    QueueOk(s) && ThreadsOk(s) && RunnersOk(s) && RowsOk(s) && PoolOk(s)
  }

  // ----- queue effects keep Progress -----

  ghost predicate Ready(s: State, t: Tid) {
    t in s.threads ==> BaseOk(s, t, s.threads[t].base) && FrameOk(s, s.threads[t])
  }

  lemma StartProgress(q: Q.Queue, id: JobId)
    requires Q.Valid(q) && Q.Waits(q, id) && !q.shutdown
    ensures Progress(q, Q.Started(q, id))
  {
  }

  lemma SettleProgress(q: Q.Queue, id: JobId, ok: bool)
    requires id in q.order && id in q.jobs && q.jobs[id].status.Running?
    ensures Progress(q, Q.Settle(q, id, ok))
  {
  }

  lemma EnqueueProgress(q: Q.Queue, id: JobId, job: Job)
    requires id !in q.jobs
    ensures Progress(q, Q.Enqueue(q, id, job))
  {
  }

  lemma CancelProgress(q: Q.Queue, id: JobId)
    ensures Progress(q, Q.Cancel(q, id).0)
    ensures !Q.Waits(Q.Cancel(q, id).0, id)
  {
  }

  lemma BumpProgress(q: Q.Queue, id: JobId)
    requires forall x :: x in q.order ==> x in q.jobs
    ensures Progress(q, Q.BumpToFront(q, id).0)
  {
  }

  /** The one queue operation a step performs. */
  datatype QueueOp =
    | NoOp | StartOp(id: JobId) | SettleOp(id: JobId, ok: bool) | ReleaseOp | EnqueueOp(id: JobId, job: Job)
    | CancelOp(id: JobId) | BumpOp(id: JobId) | ShutdownOp

  predicate Allowed(q: Q.Queue, op: QueueOp) {
    match op
    case StartOp(id) => Q.Waits(q, id) && !q.shutdown
    case SettleOp(id, _) => id in q.order && id in q.jobs && q.jobs[id].status.Running?
    case EnqueueOp(id, job) => id !in q.jobs && job.status.Pending?
    case CancelOp(id) => Q.Waits(q, id)
    case BumpOp(id) => Q.Waits(q, id)
    case _ => true
  }

  function Applied(q: Q.Queue, op: QueueOp): Q.Queue
    requires (forall x :: x in q.order ==> x in q.jobs) && Allowed(q, op)
  {
    match op
    case NoOp => q
    case StartOp(id) => Q.Started(q, id)
    case SettleOp(id, ok) => Q.Settle(q, id, ok)
    case ReleaseOp => Q.Release(q)
    case EnqueueOp(id, job) => Q.Enqueue(q, id, job)
    case CancelOp(id) => Q.Cancel(q, id).0
    case BumpOp(id) => Q.BumpToFront(q, id).0
    case ShutdownOp => Q.Shutdown(q)
  }

  lemma AppliedKeeps(q: Q.Queue, op: QueueOp)
    requires Q.Valid(q) && Allowed(q, op)
    ensures Q.Valid(Applied(q, op)) && Progress(q, Applied(q, op))
  {
    match op
    case StartOp(id) => StartProgress(q, id); Q.StartRemoves(q, id);
    case SettleOp(id, ok) => SettleProgress(q, id, ok); Q.SettleKeepsLine(q, id, ok);
    case EnqueueOp(id, job) => EnqueueProgress(q, id, job); Q.EnqueueAppends(q, id, job);
    case CancelOp(id) => CancelProgress(q, id); Q.CancelRemoves(q, id);
    case BumpOp(id) => BumpProgress(q, id); Q.BumpKeepsValid(q, id);
    case _ =>
  }

  /** How each operation moves the waiting line. */
  function MovedLine(line: seq<JobId>, op: QueueOp): seq<JobId> {
    match op
    case StartOp(id) => Without(line, id)
    case EnqueueOp(id, _) => line + [id]
    case CancelOp(id) => Without(line, id)
    case BumpOp(id) => [id] + Without(line, id)
    case _ => line
  }

  lemma AppliedMovesLine(q: Q.Queue, op: QueueOp)
    requires Q.Valid(q) && Allowed(q, op)
    ensures Q.Valid(Applied(q, op)) && Q.Waiting(Applied(q, op)) == MovedLine(Q.Waiting(q), op)
  {
    match op
    case StartOp(id) => Q.StartRemoves(q, id);
    case SettleOp(id, ok) => Q.SettleKeepsLine(q, id, ok);
    case EnqueueOp(id, job) => Q.EnqueueAppends(q, id, job);
    case CancelOp(id) => Q.CancelRemoves(q, id);
    case BumpOp(id) => Q.BumpKeepsValid(q, id); Q.BumpMovesToFront(q, id);
    case _ =>
  }

  function WorkOp(s: State, t: Tid, w: WorkStep): QueueOp
    requires t in s.threads && forall id :: id in s.q.order ==> id in s.q.jobs
  {
    match w
    case Claims(paused) =>
      var got := Q.Claim(s.q).1;
      if !paused && got.Some? then StartOp(got.value) else NoOp
    case Settles(ok) => if s.threads[t].base.Run? then SettleOp(s.threads[t].base.id, ok) else NoOp
    case Finishes => ReleaseOp
    case _ => NoOp
  }

  function EnqOp(s: State, t: Tid, e: EnqStep): QueueOp
    requires t in s.threads
  {
    if e.Inserts? && s.threads[t].enq.Inserting? then
      EnqueueOp(e.id, NewJob(s.threads[t].enq.path, s.threads[t].enq.kind, e.settings, e.pref))
    else NoOp
  }

  function CancelStepOp(s: State, t: Tid, c: CancelStep): QueueOp
    requires t in s.threads
  {
    match c
    case CancelsPending(id) => if Q.Waits(s.q, id) then CancelOp(id) else NoOp
    case CancelsNext =>
      if s.threads[t].base.Clearing? && s.threads[t].base.todo != [] && Q.Waits(s.q, s.threads[t].base.todo[0])
      then CancelOp(s.threads[t].base.todo[0]) else NoOp
    case Bumps(id) => if Q.Waits(s.q, id) then BumpOp(id) else NoOp
    case _ => NoOp
  }

  function StepOp(s: State, a: Step): QueueOp
    requires a.t in s.threads && forall id :: id in s.q.order ==> id in s.q.jobs
  {
    match a
    case Work(t, w) => WorkOp(s, t, w)
    case Enqueueing(t, e) => EnqOp(s, t, e)
    case Cancelling(t, c) => CancelStepOp(s, t, c)
    case ProcessNow(t, Forces(u)) =>
      if s.threads[t].base.Forcing? && Q.Waits(s.q, s.threads[t].base.id) && !s.q.shutdown
          then StartOp(s.threads[t].base.id) else NoOp
    case Waiting(t, Shuts) => ShutdownOp
    case _ => NoOp
  }

  ghost predicate Performs(s: State, op: QueueOp, s': State)
    requires forall id :: id in s.q.order ==> id in s.q.jobs
  {
    Allowed(s.q, op) && s'.q == Applied(s.q, op)
  }

  lemma WorkPerforms(s: State, t: Tid, w: WorkStep, s': State)
    requires (forall id :: id in s.q.order ==> id in s.q.jobs) && WorkNext(s, t, w, s') && t in s.threads
    requires w.Settles? ==> Ready(s, t)
    ensures Performs(s, WorkOp(s, t, w), s')
  {
  }

  lemma EnqPerforms(s: State, t: Tid, e: EnqStep, s': State)
    requires (forall id :: id in s.q.order ==> id in s.q.jobs) && EnqNext(s, t, e, s') && t in s.threads
    requires forall id :: id in s.q.jobs ==> id in s.used
    ensures Performs(s, EnqOp(s, t, e), s')
  {
  }

  lemma CancelPerforms(s: State, t: Tid, c: CancelStep, s': State)
    requires (forall id :: id in s.q.order ==> id in s.q.jobs) && CancelNext(s, t, c, s') && t in s.threads
    ensures Performs(s, CancelStepOp(s, t, c), s')
  {
  }

  /** Every step of a living process performs exactly one queue operation, `NoOp` included. */
  lemma StepPerforms(s: State, a: Step, s': State)
    requires (forall id :: id in s.q.order ==> id in s.q.jobs) && (forall id :: id in s.q.jobs ==> id in s.used)
    requires Next(s, a, s') && !a.Life? && a.t in s.threads
    requires a.Work? && a.work.Settles? ==> Ready(s, a.t)
    ensures Performs(s, StepOp(s, a), s')
  {
    match a
    case Work(t, w) => WorkPerforms(s, t, w, s');
    case Topping(_, _) =>
    case Enqueueing(t, e) => EnqPerforms(s, t, e, s');
    case Cancelling(t, c) => CancelPerforms(s, t, c, s');
    case ProcessNow(_, _) =>
    case Waiting(_, _) =>
  }

  // ----- steps that leave the queue alone -----

  /** What a thread-local step must satisfy for the invariant to carry over. */
  ghost predicate LocalStep(s: State, t: Tid, th: Thread, s': State) {
    && t in s.threads && s'.threads == s.threads[t := th]
    && s'.q == s.q && s'.pool == s.pool && s'.forced == s.forced && s'.poolStarted == s.poolStarted
    && s'.used == s.used && s'.maxConcurrency == s.maxConcurrency && s'.up == s.up
    && (s.threads[t].base.Gone? ==> th.base.Gone?)
    && th.base.Run? == s.threads[t].base.Run? && (th.base.Run? ==> th.base.id == s.threads[t].base.id)
  }

  lemma LocalThreads(s: State, t: Tid, th: Thread, s': State)
    requires ThreadsOk(s) && LocalStep(s, t, th, s') && BaseOk(s', t, th.base) && FrameOk(s', th)
    ensures ThreadsOk(s')
  {
    forall u | u in s'.threads ensures BaseOk(s', u, s'.threads[u].base) && FrameOk(s', s'.threads[u]) {
      if u != t { assert BaseOk(s, u, s.threads[u].base) && FrameOk(s, s.threads[u]); }
    }
  }

  /** The runner facts only look at which thread runs which job. */
  lemma RunnersKeep(s: State, s': State)
    requires RunnersOk(s) && s'.q.active == s.q.active
    requires forall t, id :: Runs(s', t, id) <==> Runs(s, t, id)
    requires forall id ::
            id in s'.q.jobs && s'.q.jobs[id].status.Running? ==> id in s.q.jobs && s.q.jobs[id].status.Running?
    ensures RunnersOk(s')
  {
    forall t ensures t in Runners(s'.threads) <==> t in Runners(s.threads) {
      if t in Runners(s'.threads) { assert Runs(s', t, s'.threads[t].base.id); }
      if t in Runners(s.threads) { assert Runs(s, t, s.threads[t].base.id); }
    }
    assert Runners(s'.threads) == Runners(s.threads);
    forall t, u, id | Runs(s', t, id) && Runs(s', u, id) ensures t == u {
      assert Runs(s, t, id) && Runs(s, u, id);
    }
    forall id | id in s'.q.jobs && s'.q.jobs[id].status.Running? ensures exists t :: Runs(s', t, id) {
      var t :| Runs(s, t, id);
      assert Runs(s', t, id);
    }
  }

  lemma LocalKeeps(s: State, t: Tid, th: Thread, s': State)
    requires ThreadsOk(s) && RunnersOk(s) && LocalStep(s, t, th, s') && BaseOk(s', t, th.base) && FrameOk(s', th)
    ensures ThreadsOk(s') && RunnersOk(s')
  {
    LocalThreads(s, t, th, s');
    RunnersKeep(s, s');
  }

  /** Steps that change one thread, and neither the queue nor the set of threads. */
  predicate Local(a: Step) {
    match a
    case Life(_, _) => false
    case Work(_, w) => !w.Claims? && !w.Settles? && !w.Finishes?
    case Topping(_, _) => true
    case Enqueueing(_, e) => !e.Inserts?
    case Cancelling(_, c) => !c.CancelsPending? && !c.CancelsNext? && !c.Bumps?
    case ProcessNow(_, n) => !n.Forces?
    case Waiting(_, w) => !w.Shuts?
  }

  /** The acting thread stays well formed. */
  ghost predicate Acted(s: State, t: Tid, s': State) {
    && t in s'.threads && LocalStep(s, t, s'.threads[t], s')
    && BaseOk(s', t, s'.threads[t].base) && FrameOk(s', s'.threads[t])
  }

  lemma WorkLocal(s: State, t: Tid, w: WorkStep, s': State)
    requires Ready(s, t) && WorkNext(s, t, w, s') && Local(Work(t, w))
    ensures Acted(s, t, s')
  {
  }

  lemma RefillLocal(s: State, t: Tid, r: RefillStep, s': State)
    requires Ready(s, t) && AllKnown(s.q.order, s.q) && RefillNext(s, t, r, s')
    ensures Acted(s, t, s')
  {
  }

  lemma EnqLocal(s: State, t: Tid, e: EnqStep, s': State)
    requires Ready(s, t) && AllKnown(s.q.order, s.q) && EnqNext(s, t, e, s') && Local(Enqueueing(t, e))
    ensures Acted(s, t, s')
  {
  }

  lemma CancelLocal(s: State, t: Tid, c: CancelStep, s': State)
    requires Ready(s, t) && AllKnown(s.q.order, s.q) && CancelNext(s, t, c, s') && Local(Cancelling(t, c))
    ensures Acted(s, t, s')
  {
  }

  lemma NowLocal(s: State, t: Tid, n: NowStep, s': State)
    requires Ready(s, t) && AllKnown(s.q.order, s.q) && NowNext(s, t, n, s') && Local(ProcessNow(t, n))
    ensures Acted(s, t, s')
  {
  }

  lemma WaitLocal(s: State, t: Tid, w: WaitStep, s': State)
    requires Ready(s, t) && WaitNext(s, t, w, s') && Local(Waiting(t, w))
    ensures Acted(s, t, s')
  {
  }

  lemma LocalSteps(s: State, a: Step, s': State)
    requires ThreadsOk(s) && RunnersOk(s) && AllKnown(s.q.order, s.q) && Next(s, a, s') && Local(a)
    ensures ThreadsOk(s') && RunnersOk(s') && s'.q == s.q
  {
    match a {
    case Work(t, w) => WorkLocal(s, t, w, s');
    case Topping(t, r) => RefillLocal(s, t, r, s');
    case Enqueueing(t, e) => EnqLocal(s, t, e, s');
    case Cancelling(t, c) => CancelLocal(s, t, c, s');
    case ProcessNow(t, n) => NowLocal(s, t, n, s');
    case Waiting(t, w) => WaitLocal(s, t, w, s');
    }
    assert Acted(s, a.t, s');
    LocalKeeps(s, a.t, s'.threads[a.t], s');
  }

  // ----- steps that move the queue -----

  /** Every job a thread may be running stays listed and untouched. */
  ghost predicate KeepsBegun(q: Q.Queue, q': Q.Queue) {
    forall id :: id in q.order && id in q.jobs && !q.jobs[id].status.Pending? ==>
      id in q'.order && id in q'.jobs && q'.jobs[id] == q.jobs[id]
  }

  /** A thread other than the acting one stays well formed, notified or not. */
  lemma OtherKeeps(s: State, s': State, u: Tid)
    requires u in s.threads && BaseOk(s, u, s.threads[u].base) && FrameOk(s, s.threads[u]) && Progress(s.q, s'.q)
    requires (Worker(s, u) <==> Worker(s', u)) && (u in s.pool <==> u in s'.pool)
    requires s.threads[u].base.Run? ==>
               var id := s.threads[u].base.id;
               id in s'.q.order && id in s'.q.jobs && id in s.q.jobs && s'.q.jobs[id] == s.q.jobs[id]
    requires s.threads[u].base.Joining? ==>
               && s.pool <= s'.pool && s.forced <= s'.forced
               && forall v :: Worker(s', v) ==>
                    v in s.threads[u].base.left || (v in s'.threads && s'.threads[v].base.Gone?)
    ensures BaseOk(s', u, s.threads[u].base) && FrameOk(s', s.threads[u])
    ensures BaseOk(s', u, Wake(s.threads[u]).base) && FrameOk(s', Wake(s.threads[u]))
  {
    var b := s.threads[u].base;
    if b.Clearing? {
      forall id | id in b.done ensures !Q.Waits(s'.q, id) { assert !Q.Waits(s.q, id); }
    }
  }

  /** `t` acts, the queue becomes `s'.q`, and the others are notified or left alone. */
  ghost predicate MoveStep(s: State, t: Tid, s': State, woken: bool) {
    && t in s.threads && t in s'.threads && s'.threads.Keys == s.threads.Keys
    && (forall u :: u in s.threads && u != t ==> s'.threads[u] == if woken then Wake(s.threads[u]) else s.threads[u])
    && s'.pool == s.pool && s'.forced == s.forced && !s.threads[t].base.Gone?
  }

  lemma MovedThreads(s: State, t: Tid, s': State, woken: bool)
    requires ThreadsOk(s) && MoveStep(s, t, s', woken) && Progress(s.q, s'.q) && KeepsBegun(s.q, s'.q)
    requires BaseOk(s', t, s'.threads[t].base) && FrameOk(s', s'.threads[t])
    ensures ThreadsOk(s')
  {
    forall u | u in s.threads && u != t ensures BaseOk(s', u, s'.threads[u].base) && FrameOk(s', s'.threads[u]) {
      assert BaseOk(s, u, s.threads[u].base) && FrameOk(s, s.threads[u]);
      OtherKeeps(s, s', u);
    }
  }

  /** No thread starts or stops running a job, and no job starts running. */
  lemma MovedRunners(s: State, t: Tid, s': State, woken: bool)
    requires RunnersOk(s) && MoveStep(s, t, s', woken) && s'.q.active == s.q.active
    requires s'.threads[t].base.Run? == s.threads[t].base.Run?
    requires s.threads[t].base.Run? ==> s'.threads[t].base.id == s.threads[t].base.id
    requires forall id ::
            id in s'.q.jobs && s'.q.jobs[id].status.Running? ==> id in s.q.jobs && s.q.jobs[id].status.Running?
    ensures RunnersOk(s')
  {
    forall u, x ensures Runs(s', u, x) <==> Runs(s, u, x) {}
    RunnersKeep(s, s');
  }

  lemma RunnersAfter(s: State, s': State, t: Tid)
    requires t in s.threads && t in s'.threads
    requires forall u :: u != t ==>
            (u in s.threads && s.threads[u].base.Run?) == (u in s'.threads && s'.threads[u].base.Run?)
    ensures !s.threads[t].base.Run? && s'.threads[t].base.Run? ==> |Runners(s'.threads)| == |Runners(s.threads)| + 1
    ensures s.threads[t].base.Run? && !s'.threads[t].base.Run? ==> |Runners(s'.threads)| == |Runners(s.threads)| - 1
  {
    var a, b := Runners(s.threads), Runners(s'.threads);
    if !s.threads[t].base.Run? && s'.threads[t].base.Run? { assert b == a + {t}; }
    if s.threads[t].base.Run? && !s'.threads[t].base.Run? { assert a == b + {t}; }
  }

  /** A pending job is run by nobody. */
  lemma NobodyRuns(s: State, id: JobId)
    requires ThreadsOk(s) && id in s.q.jobs && s.q.jobs[id].status.Pending?
    ensures forall u, x :: Runs(s, u, x) ==> x != id
  {
    forall u, x | Runs(s, u, x) ensures x != id { assert BaseOk(s, u, s.threads[u].base); }
  }

  /** A job, its one runner thread and its share of the active count appear together. */
  lemma NewRunner(s: State, t: Tid, id: JobId, s': State)
    requires RunnersOk(s) && Runs(s', t, id) && (forall u, x :: Runs(s, u, x) ==> x != id)
    requires forall u, x :: u != t ==> (Runs(s', u, x) <==> Runs(s, u, x))
    requires forall x :: !Runs(s, t, x)
    requires forall x :: x in s'.q.jobs && x != id ==> x in s.q.jobs && s'.q.jobs[x] == s.q.jobs[x]
    requires |Runners(s'.threads)| == |Runners(s.threads)| + 1 && s'.q.active == s.q.active + 1
    ensures RunnersOk(s')
  {
    forall u, v, x | Runs(s', u, x) && Runs(s', v, x) ensures u == v {
      if u != t { assert Runs(s, u, x); }
      if v != t { assert Runs(s, v, x); }
    }
    forall x | x in s'.q.jobs && s'.q.jobs[x].status.Running? ensures exists u :: Runs(s', u, x) {
      if x != id {
        var u :| Runs(s, u, x);
        assert Runs(s', u, x);
      }
    }
  }

  lemma ClaimKeeps(s: State, t: Tid, id: JobId, s': State)
    requires ThreadsOk(s) && RunnersOk(s) && At(s, t) && s.threads[t].base.Idle? && Q.Waits(s.q, id)
    requires s' == MoveBase(s.(q := Q.Started(s.q, id)), t, Run(id, RecordStart)) && Progress(s.q, s'.q)
    ensures ThreadsOk(s') && RunnersOk(s')
  {
    assert BaseOk(s, t, s.threads[t].base);
    MovedThreads(s, t, s', false);
    RunnersAfter(s, s', t);
    NobodyRuns(s, id);
    assert Runs(s', t, id);
    NewRunner(s, t, id, s');
  }

  lemma SettleOther(s: State, t: Tid, ok: bool, s': State, u: Tid)
    requires SettleJob(s, t, ok, s') && Progress(s.q, s'.q) && u in s.threads && u != t
    requires BaseOk(s, u, s.threads[u].base) && FrameOk(s, s.threads[u])
    requires s.threads[u].base.Run? ==> s.threads[u].base.id != s.threads[t].base.id
    ensures BaseOk(s', u, s'.threads[u].base) && FrameOk(s', s'.threads[u])
  {
    OtherKeeps(s, s', u);
  }

  lemma SettleThreads(s: State, t: Tid, ok: bool, s': State)
    requires ThreadsOk(s) && RunnersOk(s) && SettleJob(s, t, ok, s') && Progress(s.q, s'.q)
    ensures ThreadsOk(s')
  {
    assert BaseOk(s, t, s.threads[t].base) && Runs(s, t, s.threads[t].base.id);
    forall u | u in s'.threads ensures BaseOk(s', u, s'.threads[u].base) && FrameOk(s', s'.threads[u]) {
      if u != t {
        assert BaseOk(s, u, s.threads[u].base) && FrameOk(s, s.threads[u]);
        if s.threads[u].base.Run? { assert Runs(s, u, s.threads[u].base.id); }
        SettleOther(s, t, ok, s', u);
      }
    }
  }

  lemma SettleKeeps(s: State, t: Tid, ok: bool, s': State)
    requires ThreadsOk(s) && RunnersOk(s) && SettleJob(s, t, ok, s') && Progress(s.q, s'.q)
    ensures ThreadsOk(s') && RunnersOk(s')
  {
    SettleThreads(s, t, ok, s');
    MovedRunners(s, t, s', false);
  }

  lemma FinishRunners(s: State, t: Tid, s': State)
    requires RunnersOk(s) && MoveStep(s, t, s', true) && s.threads[t].base.Run? && !s'.threads[t].base.Run?
    requires s'.q == Q.Release(s.q) && s.threads[t].base.id in s.q.jobs
            && !s.q.jobs[s.threads[t].base.id].status.Running?
    ensures RunnersOk(s')
  {
    assert Runs(s, t, s.threads[t].base.id);
    RunnersAfter(s, s', t);
    forall u, x | u != t ensures Runs(s', u, x) <==> Runs(s, u, x) {}
    forall u, v, x | Runs(s', u, x) && Runs(s', v, x) ensures u == v { assert Runs(s, u, x) && Runs(s, v, x); }
    forall x | x in s'.q.jobs && s'.q.jobs[x].status.Running? ensures exists u :: Runs(s', u, x) {
      var u :| Runs(s, u, x);
      assert Runs(s', u, x);
    }
  }

  lemma FinishKeeps(s: State, t: Tid, s': State)
    requires ThreadsOk(s) && RunnersOk(s) && Finish(s, t, s') && Progress(s.q, s'.q)
    ensures ThreadsOk(s') && RunnersOk(s')
  {
    assert BaseOk(s, t, s.threads[t].base);
    MovedThreads(s, t, s', true);
    FinishRunners(s, t, s');
  }

  lemma InsertKeeps(s: State, t: Tid, id: JobId, settings: DownmixSettings, pref: Option<Preference>, s': State)
    requires ThreadsOk(s) && RunnersOk(s) && InsertJob(s, t, id, settings, pref, s') && Progress(s.q, s'.q)
            && id !in s.q.jobs
    ensures ThreadsOk(s') && RunnersOk(s')
  {
    assert BaseOk(s, t, s.threads[t].base) && FrameOk(s, s.threads[t]);
    OtherKeeps(s, s', t);
    MovedThreads(s, t, s', true);
    MovedRunners(s, t, s', true);
  }

  lemma CancelPendingKeeps(s: State, t: Tid, id: JobId, s': State)
    requires ThreadsOk(s) && RunnersOk(s) && CancelPending(s, t, id, s') && Progress(s.q, s'.q)
    ensures ThreadsOk(s') && RunnersOk(s')
  {
    if Q.Waits(s.q, id) {
      assert BaseOk(s, t, s.threads[t].base);
      MovedThreads(s, t, s', true);
      MovedRunners(s, t, s', true);
    }
  }

  lemma ClearCancelActs(s: State, t: Tid, s': State)
    requires t in s.threads && BaseOk(s, t, s.threads[t].base) && ClearCancel(s, t, s') && Progress(s.q, s'.q)
    ensures BaseOk(s', t, s'.threads[t].base)
  {
    var c := s.threads[t].base;
    var id := c.todo[0];
    CancelProgress(s.q, id);
    forall x | x in c.done + [id] ensures !Q.Waits(s'.q, x) {
      if x in c.done { assert !Q.Waits(s.q, x); }
    }
  }

  lemma ClearCancelKeeps(s: State, t: Tid, s': State)
    requires ThreadsOk(s) && RunnersOk(s) && ClearCancel(s, t, s') && Progress(s.q, s'.q)
    ensures ThreadsOk(s') && RunnersOk(s')
  {
    assert BaseOk(s, t, s.threads[t].base);
    ClearCancelActs(s, t, s');
    var woken := Q.Waits(s.q, s.threads[t].base.todo[0]);
    MovedThreads(s, t, s', woken);
    MovedRunners(s, t, s', woken);
  }

  lemma BumpKeeps(s: State, t: Tid, id: JobId, s': State)
    requires ThreadsOk(s) && RunnersOk(s) && Bump(s, t, id, s') && Progress(s.q, s'.q)
    ensures ThreadsOk(s') && RunnersOk(s')
  {
    if Q.Waits(s.q, id) {
      assert BaseOk(s, t, s.threads[t].base);
      MovedThreads(s, t, s', true);
      MovedRunners(s, t, s', true);
    }
  }

  /** `t` force-starts `id` on the fresh thread `u`. */
  ghost predicate ForceStep(s: State, t: Tid, u: Tid, id: JobId, s': State) {
    && t in s.threads && s.threads[t] == Thread(Forcing(id), NoRefill, NoEnq) && u !in s.threads
    && s'.threads == s.threads[u := Thread(Run(id, RecordStart), NoRefill, NoEnq)][t := Thread(Answered(Some(id)),
         NoRefill, NoEnq)]
    && Q.Waits(s.q, id) && !s.q.shutdown
    && s'.q == Q.Started(s.q, id) && s'.pool == s.pool && s'.forced == s.forced + {u}
  }

  lemma ForceOther(s: State, t: Tid, u: Tid, id: JobId, s': State, v: Tid)
    requires ForceStep(s, t, u, id, s') && Progress(s.q, s'.q) && v in s.threads
    requires BaseOk(s, v, s.threads[v].base) && FrameOk(s, s.threads[v])
    ensures BaseOk(s', v, s'.threads[v].base) && FrameOk(s', s'.threads[v])
  {
    if v != t { OtherKeeps(s, s', v); }
  }

  lemma ForceThreads(s: State, t: Tid, u: Tid, id: JobId, s': State)
    requires ThreadsOk(s) && ForceStep(s, t, u, id, s') && Progress(s.q, s'.q)
    ensures ThreadsOk(s')
  {
    forall v | v in s'.threads ensures BaseOk(s', v, s'.threads[v].base) && FrameOk(s', s'.threads[v]) {
      if v != u {
        assert BaseOk(s, v, s.threads[v].base) && FrameOk(s, s.threads[v]);
        ForceOther(s, t, u, id, s', v);
      }
    }
  }

  lemma ForceRunners(s: State, t: Tid, u: Tid, id: JobId, s': State)
    requires RunnersOk(s) && ForceStep(s, t, u, id, s') && (forall v, x :: Runs(s, v, x) ==> x != id)
    ensures RunnersOk(s')
  {
    assert Runners(s'.threads) == Runners(s.threads) + {u};
    assert Runs(s', u, id);
    NewRunner(s, u, id, s');
  }

  lemma ForceKeeps(s: State, t: Tid, u: Tid, s': State)
    requires ThreadsOk(s) && RunnersOk(s) && Force(s, t, u, s') && Progress(s.q, s'.q)
    ensures ThreadsOk(s') && RunnersOk(s')
  {
    var id := s.threads[t].base.id;
    if Q.Waits(s.q, id) && !s.q.shutdown {
      assert ForceStep(s, t, u, id, s');
      ForceThreads(s, t, u, id, s');
      NobodyRuns(s, id);
      ForceRunners(s, t, u, id, s');
    } else {
      assert BaseOk(s, t, s.threads[t].base);
      LocalKeeps(s, t, s'.threads[t], s');
    }
  }

  lemma ShutdownKeeps(s: State, t: Tid, s': State)
    requires ThreadsOk(s) && RunnersOk(s) && BeginShutdown(s, t, s') && Progress(s.q, s'.q)
    ensures ThreadsOk(s') && RunnersOk(s')
  {
    if !s.q.shutdown {
      assert BaseOk(s, t, s.threads[t].base);
      MovedThreads(s, t, s', true);
      MovedRunners(s, t, s', true);
    }
  }

  lemma ThreadsAppear(s: State, s': State)
    requires ThreadsOk(s) && RunnersOk(s) && s'.q == s.q && s'.forced == s.forced
    requires forall u :: u in s.threads ==>
            u in s'.threads && s'.threads[u] == s.threads[u] && (u in s'.pool <==> u in s.pool)
    requires forall u :: u in s'.threads && u !in s.threads ==>
               Quiet(s'.threads[u]) && if u in s'.pool then s'.threads[u].base.Idle? else s'.threads[u].base.Free?
    requires s'.pool <= s'.threads.Keys && (s.q.shutdown ==> s'.pool == s.pool)
    ensures ThreadsOk(s') && RunnersOk(s')
  {
    forall u | u in s.threads ensures BaseOk(s', u, s'.threads[u].base) && FrameOk(s', s'.threads[u]) {
      assert BaseOk(s, u, s.threads[u].base) && FrameOk(s, s.threads[u]);
      OtherKeeps(s, s', u);
    }
    forall u, x ensures Runs(s', u, x) <==> Runs(s, u, x) {}
    RunnersKeep(s, s');
  }
}
