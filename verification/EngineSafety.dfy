/**
 The invariant holds in every state of every run, across crashes and restarts.

 A step is taken apart three ways, and each part is checked on its own:
 - what it leaves alone: the other threads, the pool, the ids already used (Framed), and
   outside the calls that take them, the scheduler's locks (LockFree);
 - what it does to the queue, through the operation it performs;
 - what it does to the history: keep it, write one job's row, or drop one (RowOp).

 NextKeeps puts the parts together, InvariantIf lifts a step's promise to whole runs.
 */
module EngineSafety {
  import opened Jobs
  import opened History
  import opened Recovery
  import opened Engine
  import opened EngineInvariant
  import Q = Queue

  /** What no step of a living process changes, and how ids get used up. */
  ghost predicate Framed(s: State, t: Tid, s': State) {
    && t in s.threads && s'.pool == s.pool && s'.poolStarted == s.poolStarted && s'.up == s.up
    && s'.maxConcurrency == s.maxConcurrency && s.forced <= s'.forced
    && forall u :: u in s'.threads && u != t ==>
         if u in s.threads then s'.threads[u] == s.threads[u] || s'.threads[u] == Wake(s.threads[u])
         else Quiet(s'.threads[u]) && s'.threads[u].base.Run?
  }

  /** Outside `enqueue_file` a step only opens or closes that call's frame, and leaves the jobs top-up created alone. */
  ghost predicate EnqUntouched(s: State, t: Tid, s': State) {
    t in s.threads && t in s'.threads && s'.refills == s.refills
    && (s'.threads[t].enq == s.threads[t].enq || s'.threads[t].enq.NoEnq? || s'.threads[t].enq.Probing?)
  }

  /** Outside the worker steps the acting thread keeps the job it runs, if any, and its stage. */
  ghost predicate RunUntouched(s: State, t: Tid, s': State) {
    t in s.threads && t in s'.threads && (s'.threads[t].base.Run? ==> s'.threads[t].base == s.threads[t].base)
  }

  /** Outside `top_up` and `enqueue_file` the acting thread holds neither scheduler lock, before or after. */
  ghost predicate LockFree(s: State, t: Tid, s': State) {
    && t in s.threads && t in s'.threads && s'.enqLock == s.enqLock && s'.topLock == s.topLock
    && !HoldsEnq(s.threads[t].enq) && !HoldsEnq(s'.threads[t].enq)
    && !HoldsTop(s.threads[t].refill) && !HoldsTop(s'.threads[t].refill)
  }

  lemma FinishFramed(s: State, t: Tid, s': State)
    requires Finish(s, t, s')
    ensures Framed(s, t, s') && s'.used == s.used && s'.threads.Keys == s.threads.Keys
  {
  }

  /** Every worker step but the last moves only the worker itself. */
  lemma WorkMoves(s: State, t: Tid, w: WorkStep, s': State)
    requires WorkNext(s, t, w, s') && !w.Finishes?
    ensures t in s.threads && t in s'.threads && s'.threads == s.threads[t := s'.threads[t]]
    ensures s' == s.(q := s'.q, rows := s'.rows, launches := s'.launches, threads := s'.threads)
  {
  }

  lemma WorkFramed(s: State, t: Tid, w: WorkStep, s': State)
    requires WorkNext(s, t, w, s')
    ensures Framed(s, t, s') && s'.used == s.used && s'.threads.Keys == s.threads.Keys
  {
    if w.Finishes? { FinishFramed(s, t, s'); } else { WorkMoves(s, t, w, s'); }
  }

  lemma WorkActor(s: State, t: Tid, w: WorkStep, s': State)
    requires WorkNext(s, t, w, s')
    ensures EnqUntouched(s, t, s') && LockFree(s, t, s')
  {
  }

  lemma RefillFramed(s: State, t: Tid, r: RefillStep, s': State)
    requires RefillNext(s, t, r, s')
    ensures Framed(s, t, s') && EnqUntouched(s, t, s') && RunUntouched(s, t, s') && s'.used == s.used
            && s'.threads.Keys == s.threads.Keys
  {
  }

  lemma EnqFramed(s: State, t: Tid, e: EnqStep, s': State)
    requires EnqNext(s, t, e, s')
    ensures Framed(s, t, s') && RunUntouched(s, t, s') && s'.used == if e.Inserts? then s.used + {e.id} else s.used
    ensures s'.threads.Keys == s.threads.Keys
  {
  }

  lemma CancelFramed(s: State, t: Tid, c: CancelStep, s': State)
    requires CancelNext(s, t, c, s')
    ensures Framed(s, t, s') && s'.used == s.used && s'.threads.Keys == s.threads.Keys
  {
  }

  lemma CancelActor(s: State, t: Tid, c: CancelStep, s': State)
    requires CancelNext(s, t, c, s')
    ensures EnqUntouched(s, t, s') && RunUntouched(s, t, s') && LockFree(s, t, s')
  {
  }

  lemma NowFramed(s: State, t: Tid, n: NowStep, s': State)
    requires NowNext(s, t, n, s') && (t in s.threads ==> FrameOk(s, s.threads[t]))
    ensures Framed(s, t, s') && EnqUntouched(s, t, s') && RunUntouched(s, t, s') && LockFree(s, t, s')
            && s'.used == s.used
  {
  }

  lemma WaitFramed(s: State, t: Tid, w: WaitStep, s': State)
    requires WaitNext(s, t, w, s')
    ensures Framed(s, t, s') && EnqUntouched(s, t, s') && RunUntouched(s, t, s') && LockFree(s, t, s')
    ensures s'.used == s.used && s'.threads.Keys == s.threads.Keys
  {
  }

  lemma StepFramed(s: State, a: Step, s': State)
    requires ThreadsOk(s) && Next(s, a, s') && !a.Life?
    ensures Framed(s, a.t, s') && (!a.Enqueueing? ==> EnqUntouched(s, a.t, s'))
            && (!a.Work? ==> RunUntouched(s, a.t, s'))
    ensures !a.Enqueueing? && !a.Topping? ==> LockFree(s, a.t, s')
    ensures !a.ProcessNow? ==> s'.threads.Keys == s.threads.Keys
    ensures s'.used == if a.Enqueueing? && a.enq.Inserts? then s.used + {a.enq.id} else s.used
  {
    match a
    case Work(t, w) => WorkFramed(s, t, w, s'); WorkActor(s, t, w, s');
    case Topping(t, r) => RefillFramed(s, t, r, s');
    case Enqueueing(t, e) => EnqFramed(s, t, e, s');
    case Cancelling(t, c) => CancelFramed(s, t, c, s'); CancelActor(s, t, c, s');
    case ProcessNow(t, n) => NowFramed(s, t, n, s');
    case Waiting(t, w) => WaitFramed(s, t, w, s');
  }

  lemma ClaimsKeeps(s: State, t: Tid, paused: bool, s': State)
    requires (forall id :: id in s.q.order ==> id in s.q.jobs) && ThreadsOk(s) && RunnersOk(s)
    requires Claim(s, t, paused, s') && Progress(s.q, s'.q)
    ensures ThreadsOk(s') && RunnersOk(s')
  {
    var got := Q.Claim(s.q).1;
    if !s.q.shutdown && !paused && got.Some? {
      ClaimKeeps(s, t, got.value, s');
    } else {
      assert BaseOk(s, t, s.threads[t].base);
      LocalKeeps(s, t, s'.threads[t], s');
    }
  }

  /** The steps that move the queue, one by one. */
  lemma MovingSteps(s: State, a: Step, s': State)
    requires (forall id :: id in s.q.order ==> id in s.q.jobs) && (forall id :: id in s.q.jobs ==> id in s.used)
    requires ThreadsOk(s) && RunnersOk(s) && Next(s, a, s') && Progress(s.q, s'.q) && !Local(a) && !a.Life?
    ensures ThreadsOk(s') && RunnersOk(s')
  {
    match a
    case Work(t, Claims(paused)) => ClaimsKeeps(s, t, paused, s');
    case Work(t, Settles(ok)) => SettleKeeps(s, t, ok, s');
    case Work(t, Finishes) => FinishKeeps(s, t, s');
    case Enqueueing(t, Inserts(id, settings, pref)) => InsertKeeps(s, t, id, settings, pref, s');
    case Cancelling(t, CancelsPending(id)) => CancelPendingKeeps(s, t, id, s');
    case Cancelling(t, CancelsNext) => ClearCancelKeeps(s, t, s');
    case Cancelling(t, Bumps(id)) => BumpKeeps(s, t, id, s');
    case ProcessNow(t, Forces(u)) => ForceKeeps(s, t, u, s');
    case Waiting(t, Shuts) => ShutdownKeeps(s, t, s');
  }

  /** Every step of a living process moves the queue forward. */
  lemma StepProgress(s: State, a: Step, s': State)
    requires QueueOk(s) && ThreadsOk(s) && Next(s, a, s') && !a.Life?
    ensures Q.Valid(s'.q) && Progress(s.q, s'.q) && Performs(s, StepOp(s, a), s')
  {
    StepFramed(s, a, s');
    assert Ready(s, a.t);
    StepPerforms(s, a, s');
    AppliedKeeps(s.q, StepOp(s, a));
  }

  lemma LifeKeeps(s: State, t: Tid, l: LifeStep, s': State)
    requires Inv(s) && LifeNext(s, t, l, s')
    ensures ThreadsOk(s') && RunnersOk(s')
  {
    if l.Spawns? || l.StartsPool? { ThreadsAppear(s, s'); }
    else {
      assert s'.threads == map[];
      if l.Boots? { RecoveredHolds(s.rows, l.settings); RestartRecovers(s.rows, l.settings); }
    }
  }

  lemma ThreadsKeep(s: State, a: Step, s': State)
    requires Inv(s) && Next(s, a, s')
    ensures ThreadsOk(s') && RunnersOk(s')
  {
    if a.Life? { LifeKeeps(s, a.t, a.life, s'); }
    else {
      StepProgress(s, a, s');
      if Local(a) { LocalSteps(s, a, s'); } else { MovingSteps(s, a, s'); }
    }
  }

  // ----- the history rows -----

  /** What one step may do to the history. */
  datatype RowOp = KeepRows | WriteRow(id: JobId) | DropRow(id: JobId)

  function RowsAfter(s: State, op: RowOp): seq<Row> {
    match op
    case KeepRows => s.rows
    case WriteRow(id) => if id in s.q.jobs then Record(s.rows, id, s.q.jobs[id]) else s.rows
    case DropRow(id) => Delete(s.rows, id).0
  }

  function StepRowOp(s: State, a: Step): RowOp
    requires a.t in s.threads
  {
    var th := s.threads[a.t];
    match a
    case Work(_, WritesStart) => if th.base.Run? then WriteRow(th.base.id) else KeepRows
    case Work(_, WritesEnd) => if th.base.Run? then WriteRow(th.base.id) else KeepRows
    case Enqueueing(_, WritesRow) => if th.enq.Recording? then WriteRow(th.enq.id) else KeepRows
    case Cancelling(_, DeletesRow) => if th.base.DeletingRow? then DropRow(th.base.id) else KeepRows
    case Cancelling(_, DeletesNext) => if th.base.Clearing? && th.base.row.Some? then DropRow(th.base.row.value)
        else KeepRows
    case _ => KeepRows
  }

  lemma WorkRows(s: State, t: Tid, w: WorkStep, s': State)
    requires WorkNext(s, t, w, s') && t in s.threads
    ensures s'.rows == RowsAfter(s, StepRowOp(s, Work(t, w)))
  {
  }

  lemma EnqRows(s: State, t: Tid, e: EnqStep, s': State)
    requires EnqNext(s, t, e, s') && t in s.threads
    ensures s'.rows == RowsAfter(s, StepRowOp(s, Enqueueing(t, e)))
  {
  }

  lemma CancelRows(s: State, t: Tid, c: CancelStep, s': State)
    requires CancelNext(s, t, c, s') && t in s.threads
    ensures s'.rows == RowsAfter(s, StepRowOp(s, Cancelling(t, c)))
  {
  }

  lemma StepRows(s: State, a: Step, s': State)
    requires Next(s, a, s') && !a.Life? && a.t in s.threads
    ensures s'.rows == RowsAfter(s, StepRowOp(s, a))
  {
    match a
    case Work(t, w) => WorkRows(s, t, w, s');
    case Topping(_, _) =>
    case Enqueueing(t, e) => EnqRows(s, t, e, s');
    case Cancelling(t, c) => CancelRows(s, t, c, s');
    case ProcessNow(_, _) =>
    case Waiting(_, _) =>
  }

  lemma BootRows(s: State, l: LifeStep, t: Tid, s': State)
    requires DistinctKeys(s.rows) && LifeNext(s, t, l, s')
    ensures DistinctKeys(s'.rows) && s'.used == s.used
    ensures forall r' :: r' in s'.rows ==> exists r ::
            r in s.rows && (r == r' || (!r'.status.Pending? && r'.key == r.key))
  {
    if l.AbortsBoot? || l.Boots? {
      forall r' | r' in s'.rows ensures exists r ::
          r in s.rows && (r == r' || (!r'.status.Pending? && r'.key == r.key)) {
        var k :| 0 <= k < |s'.rows| && s'.rows[k] == r';
        assert s.rows[k] in s.rows;
      }
    }
  }

  lemma WrittenRows(s: State, op: RowOp)
    requires RowsOk(s)
    ensures DistinctKeys(RowsAfter(s, op))
    ensures forall r :: r in RowsAfter(s, op) <==>
              (r in s.rows && !(op.WriteRow? && op.id in s.q.jobs && r.key == Uuid(op.id))
                  && !(op.DropRow? && r.key == Uuid(op.id)))
              || (op.WriteRow? && op.id in s.q.jobs && r == RowOf(op.id, s.q.jobs[op.id]))
  {
    match op
    case KeepRows =>
    case WriteRow(id) => if id in s.q.jobs { RecordMembers(s.rows, id, s.q.jobs[id]); }
    case DropRow(id) => DeleteMembers(s.rows, id);
  }

  lemma RowsKeep(s: State, a: Step, s': State)
    requires RowsOk(s) && QueueOk(s) && ThreadsOk(s) && Next(s, a, s')
    ensures RowsOk(s')
  {
    if a.Life? { BootRows(s, a.life, a.t, s'); }
    else {
      StepFramed(s, a, s');
      StepRows(s, a, s');
      WrittenRows(s, StepRowOp(s, a));
    }
  }

  lemma KeysAfter(q: Q.Queue, op: QueueOp)
    requires Q.Valid(q) && Allowed(q, op)
    ensures Applied(q, op).jobs.Keys == if op.EnqueueOp? then q.jobs.Keys + {op.id} else q.jobs.Keys
  {
  }

  lemma BootQueue(s: State, settings: Settings, s': State)
    requires RowsOk(s) && Boot(s, settings, s')
    ensures QueueOk(s')
  {
    RecoveredHolds(s.rows, settings);
    RestartRecovers(s.rows, settings);
    forall id | id in s'.q.jobs ensures id in s'.used {
      var r := RowOf(id, s'.q.jobs[id]);
      assert r in s'.rows;
      MarkedRowAt(s.rows, settings, r);
    }
  }

  lemma StepKeepsQueue(s: State, a: Step, s': State)
    requires QueueOk(s) && ThreadsOk(s) && Next(s, a, s') && !a.Life?
    ensures QueueOk(s')
  {
    StepFramed(s, a, s');
    StepProgress(s, a, s');
    KeysAfter(s.q, StepOp(s, a));
  }

  lemma LifeKeepsQueue(s: State, t: Tid, l: LifeStep, s': State)
    requires QueueOk(s) && RowsOk(s) && LifeNext(s, t, l, s')
    ensures QueueOk(s')
  {
    if l.Boots? { BootQueue(s, l.settings, s'); }
  }

  lemma QueueKeeps(s: State, a: Step, s': State)
    requires QueueOk(s) && ThreadsOk(s) && RowsOk(s) && Next(s, a, s')
    ensures QueueOk(s')
  {
    if a.Life? { LifeKeepsQueue(s, a.t, a.life, s'); } else { StepKeepsQueue(s, a, s'); }
  }

  lemma PoolKeeps(s: State, a: Step, s': State)
    requires PoolOk(s) && ThreadsOk(s) && Next(s, a, s')
    ensures PoolOk(s')
  {
    if !a.Life? { StepFramed(s, a, s'); }
  }

  lemma NextKeeps(s: State, a: Step, s': State)
    requires Inv(s) && Next(s, a, s')
    ensures Inv(s')
  {
    ThreadsKeep(s, a, s');
    RowsKeep(s, a, s');
    QueueKeeps(s, a, s');
    PoolKeeps(s, a, s');
  }

  lemma InitInv(s: State)
    requires Init(s)
    ensures Inv(s)
  {
    assert Runners(s.threads) == {};
  }

  lemma RunStep(run: seq<State>, steps: seq<Step>, k: nat)
    requires IsRun(run, steps) && k < |steps|
    ensures Next(run[k], steps[k], run[k + 1])
  {
    assert StepAt(run, steps, k);
  }

  /**
   What holds at the start and is kept by every step holds in every state of a run, when the run's
   steps are `fair`.
   */
  lemma {:induction false} InvariantIf(run: seq<State>, steps: seq<Step>, ok: State -> bool,
                                       fair: (State, Step) -> bool, k: nat)
    requires IsRun(run, steps) && k < |run| && ok(run[0])
    requires forall i: nat :: i < k ==> fair(run[i], steps[i])
    requires forall s, a, s' :: ok(s) && fair(s, a) && Next(s, a, s') ==> ok(s')
    ensures ok(run[k])
  {
    if k > 0 {
      InvariantIf(run, steps, ok, fair, k - 1);
      RunStep(run, steps, k - 1);
    }
  }

  lemma Invariant(run: seq<State>, steps: seq<Step>, ok: State -> bool, k: nat)
    requires IsRun(run, steps) && k < |run| && ok(run[0])
    requires forall s, a, s' :: ok(s) && Next(s, a, s') ==> ok(s')
    ensures ok(run[k])
  {
    InvariantIf(run, steps, ok, (s, a) => true, k);
  }

  /** The invariant holds along every run of any length. */
  lemma RunInv(run: seq<State>, steps: seq<Step>, k: nat)
    requires IsRun(run, steps) && k < |run|
    ensures Inv(run[k])
  {
    InitInv(run[0]);
    forall s, a, s' | Inv(s) && Next(s, a, s') ensures Inv(s') { NextKeeps(s, a, s'); }
    Invariant(run, steps, s => Inv(s), k);
  }
}
