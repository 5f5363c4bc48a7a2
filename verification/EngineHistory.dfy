/**
 The history against the live jobs, across crashes: RUNNING is on disk before a pipeline
 starts, so no job id is ever launched twice.
 */
module EngineHistory {
  import opened Common
  import opened Jobs
  import opened History
  import opened Recovery
  import opened Engine
  import opened EngineInvariant
  import opened EngineSafety
  import Q = Queue

  ghost predicate NoPendingRow(rows: seq<Row>, id: JobId) {
    forall r :: r in rows && r.key == Uuid(id) ==> !r.status.Pending?
  }

  /** A pending row belongs to a job that is waiting, about to be recorded as running, or cancelled. */
  ghost predicate PendingRowOk(q: Q.Queue, r: Row) {
    && r.key.Uuid? && r.key.id in q.jobs && q.jobs[r.key.id].path == r.path
    && (r.key.id in q.order ==> Active(q.jobs[r.key.id].status))
  }

  ghost predicate RowsTrack(s: State) {
    s.up ==> forall r :: r in s.rows && r.status.Pending? ==> PendingRowOk(s.q, r)
  }

  /** Once RUNNING is recorded, no pending row is left for the job. */
  ghost predicate StartsRecorded(s: State) {
    forall t, id :: Runs(s, t, id) && !s.threads[t].base.stage.RecordStart? ==> NoPendingRow(s.rows, id)
  }

  ghost predicate LaunchesOk(s: State) {
    && Distinct(s.launches)
    && (forall id :: id in s.launches ==>
          id in s.used && NoPendingRow(s.rows, id) && (id in s.q.jobs ==> !s.q.jobs[id].status.Pending?))
    && (forall t, id :: Runs(s, t, id) && (s.threads[t].base.stage.RecordStart? || s.threads[t].base.stage.Launch?)
         ==> id !in s.launches)
  }

  ghost predicate HistoryOk(s: State) { RowsTrack(s) && StartsRecorded(s) && LaunchesOk(s) }

  // ----- rows -----

  lemma OldRowOk(q: Q.Queue, op: QueueOp, r: Row)
    requires Q.Valid(q) && Allowed(q, op) && PendingRowOk(q, r) && (op.SettleOp? ==> r.key != Uuid(op.id))
    ensures PendingRowOk(Applied(q, op), r)
  {
  }

  /** The job a step settles is recorded as running, so it has no pending row. */
  lemma SettledHasNoPendingRow(s: State, a: Step)
    requires StartsRecorded(s) && a.t in s.threads && (forall id :: id in s.q.order ==> id in s.q.jobs)
    requires StepOp(s, a).SettleOp? && (s.threads[a.t].base.Run? ==> s.threads[a.t].base.stage.Settling?)
    ensures NoPendingRow(s.rows, StepOp(s, a).id)
  {
    assert Runs(s, a.t, StepOp(s, a).id);
  }

  lemma RowsTrackKeeps(s: State, a: Step, s': State)
    requires QueueOk(s) && RowsOk(s) && ThreadsOk(s) && s.up && RowsTrack(s) && StartsRecorded(s) && Next(s, a, s')
            && !a.Life?
    ensures RowsTrack(s')
  {
    StepFramed(s, a, s');
    StepProgress(s, a, s');
    StepRows(s, a, s');
    WrittenRows(s, StepRowOp(s, a));
    if StepOp(s, a).SettleOp? { SettledHasNoPendingRow(s, a); }
    forall r | r in s'.rows && r.status.Pending? ensures PendingRowOk(s'.q, r) {
      if r in s.rows { OldRowOk(s.q, StepOp(s, a), r); }
    }
  }

  // ----- which thread runs what, from one step to the next -----

  lemma NewThreadRuns(s: State, t: Tid, n: NowStep, s': State, u: Tid, id: JobId)
    requires (forall x :: x in s.q.order ==> x in s.q.jobs) && NowNext(s, t, n, s') && t in s.threads
    requires u !in s.threads && Runs(s', u, id)
    ensures StepOp(s, ProcessNow(t, n)) == StartOp(id) && s'.threads[u].base.stage.RecordStart?
  {
  }

  /** How a worker step moves the job it works on. */
  predicate StageStep(w: WorkStep, before: Stage, after: Stage) {
    && (after.RecordStart? ==> false)
    && (before.RecordStart? ==> w.WritesStart? && after.Launch?)
    && (after.Launch? ==> before.RecordStart?)
    && (before.Launch? ==> w.Launches? && after.InPipeline?)
  }

  lemma WorkerRuns(s: State, t: Tid, w: WorkStep, s': State, id: JobId)
    requires WorkNext(s, t, w, s') && (forall x :: x in s.q.order ==> x in s.q.jobs) && t in s.threads
            && Runs(s', t, id)
    ensures if s.threads[t].base.Run?
            then Runs(s, t, id) && StageStep(w, s.threads[t].base.stage, s'.threads[t].base.stage)
            else WorkOp(s, t, w) == StartOp(id) && s'.threads[t].base.stage.RecordStart?
  {
  }

  /** A thread found running a job was running it before, or the step has just started that job. */
  ghost predicate RunsBefore(s: State, a: Step, s': State, u: Tid, id: JobId)
    requires Runs(s', u, id)
  {
    && Runs(s, u, id)
    && (s'.threads[u].base.stage == s.threads[u].base.stage
        || (u == a.t && a.Work? && StageStep(a.work, s.threads[u].base.stage, s'.threads[u].base.stage)))
  }

  lemma RunOrigin(s: State, a: Step, s': State, u: Tid, id: JobId)
    requires QueueOk(s) && ThreadsOk(s) && Next(s, a, s') && !a.Life? && a.t in s.threads && Runs(s', u, id)
    ensures RunsBefore(s, a, s', u, id) || (StepOp(s, a) == StartOp(id) && s'.threads[u].base.stage.RecordStart?)
  {
    StepFramed(s, a, s');
    if u == a.t {
      if a.Work? { WorkerRuns(s, u, a.work, s', id); }
    } else if u !in s.threads {
      NewThreadRuns(s, a.t, a.now, s', u, id);
    }
  }

  lemma StartsRecordedKeeps(s: State, a: Step, s': State)
    requires QueueOk(s) && RowsOk(s) && ThreadsOk(s) && StartsRecorded(s) && Next(s, a, s') && !a.Life?
            && a.t in s.threads
    ensures StartsRecorded(s')
  {
    StepRows(s, a, s');
    var rop := StepRowOp(s, a);
    WrittenRows(s, rop);
    forall u, id | Runs(s', u, id) && !s'.threads[u].base.stage.RecordStart? ensures NoPendingRow(s'.rows, id) {
      RunOrigin(s, a, s', u, id);
      assert BaseOk(s, u, s.threads[u].base);
    }
  }

  lemma WorkLaunches(s: State, t: Tid, w: WorkStep, s': State)
    requires WorkNext(s, t, w, s') && t in s.threads
    ensures if w.Launches? then s.threads[t].base.Run? && s.threads[t].base.stage.Launch?
            && s'.launches == s.launches + [s.threads[t].base.id]
            else s'.launches == s.launches
  {
  }

  lemma CancelLaunches(s: State, t: Tid, c: CancelStep, s': State)
    requires CancelNext(s, t, c, s')
    ensures s'.launches == s.launches
  {
  }

  lemma StepLaunches(s: State, a: Step, s': State)
    requires Next(s, a, s') && !a.Life? && a.t in s.threads
    ensures if a.Work? && a.work.Launches?
            then s.threads[a.t].base.Run? && s.threads[a.t].base.stage.Launch?
                && s'.launches == s.launches + [s.threads[a.t].base.id]
            else s'.launches == s.launches
  {
    match a
    case Work(t, w) => WorkLaunches(s, t, w, s');
    case Topping(_, _) =>
    case Enqueueing(_, _) =>
    case Cancelling(t, c) => CancelLaunches(s, t, c, s');
    case ProcessNow(_, _) =>
    case Waiting(_, _) =>
  }

  lemma PendingOrigin(q: Q.Queue, op: QueueOp, id: JobId)
    requires Q.Valid(q) && Allowed(q, op) && (op.EnqueueOp? ==> op.id != id)
    ensures id in Applied(q, op).jobs && Applied(q, op).jobs[id].status.Pending?
            ==> id in q.jobs && q.jobs[id].status.Pending?
  {
  }

  lemma StatusKept(s: State, a: Step, s': State, id: JobId)
    requires QueueOk(s) && ThreadsOk(s) && Next(s, a, s') && !a.Life? && id in s.used
    ensures id in s'.q.jobs && s'.q.jobs[id].status.Pending? ==> id in s.q.jobs && s.q.jobs[id].status.Pending?
  {
    StepFramed(s, a, s');
    StepProgress(s, a, s');
    EnqueuedIsFresh(s, a, s');
    PendingOrigin(s.q, StepOp(s, a), id);
  }

  lemma EnqueuedIsFresh(s: State, a: Step, s': State)
    requires (forall id :: id in s.q.order ==> id in s.q.jobs) && Next(s, a, s') && !a.Life? && a.t in s.threads
    ensures StepOp(s, a).EnqueueOp? ==> StepOp(s, a).id !in s.used
  {
  }

  lemma LaunchedIdsKeep(s: State, a: Step, s': State, id: JobId)
    requires QueueOk(s) && RowsOk(s) && ThreadsOk(s) && Next(s, a, s') && !a.Life?
    requires id in s.used && NoPendingRow(s.rows, id) && (id in s.q.jobs ==> !s.q.jobs[id].status.Pending?)
    ensures id in s'.used && NoPendingRow(s'.rows, id) && (id in s'.q.jobs ==> !s'.q.jobs[id].status.Pending?)
  {
    StepFramed(s, a, s');
    StatusKept(s, a, s', id);
    StepRows(s, a, s');
    WrittenRows(s, StepRowOp(s, a));
  }

  lemma LaunchesKeep(s: State, a: Step, s': State)
    requires Inv(s) && StartsRecorded(s) && LaunchesOk(s) && Next(s, a, s') && !a.Life?
    ensures LaunchesOk(s')
  {
    StepFramed(s, a, s');
    StepLaunches(s, a, s');
    if a.Work? && a.work.Launches? {
      var id := s.threads[a.t].base.id;
      assert Runs(s, a.t, id) && BaseOk(s, a.t, s.threads[a.t].base);
      DistinctAppend(s.launches, id);
    }
    forall id | id in s'.launches
      ensures id in s'.used && NoPendingRow(s'.rows, id) && (id in s'.q.jobs ==> !s'.q.jobs[id].status.Pending?)
    {
      LaunchedIdsKeep(s, a, s', id);
    }
    forall u, id | Runs(s', u, id) && (s'.threads[u].base.stage.RecordStart? || s'.threads[u].base.stage.Launch?)
      ensures id !in s'.launches
    {
      NotYetLaunched(s, a, s', u, id);
    }
  }

  lemma NotYetLaunched(s: State, a: Step, s': State, u: Tid, id: JobId)
    requires Inv(s) && LaunchesOk(s) && Next(s, a, s') && !a.Life? && a.t in s.threads
    requires Runs(s', u, id) && (s'.threads[u].base.stage.RecordStart? || s'.threads[u].base.stage.Launch?)
    ensures id !in s'.launches
  {
    RunOrigin(s, a, s', u, id);
    StepLaunches(s, a, s');
    if StepOp(s, a) == StartOp(id) && !(a.Work? && a.work.Launches?) {
      StepProgress(s, a, s');
    } else {
      assert Runs(s, u, id);
      if a.Work? && a.work.Launches? { assert Runs(s, a.t, s.threads[a.t].base.id); }
    }
  }

  // ----- crashes and boots -----

  lemma BootTracks(s: State, settings: Settings, s': State)
    requires RowsOk(s) && Boot(s, settings, s')
    ensures RowsTrack(s')
  {
    RestartRecovers(s.rows, settings);
  }

  /** A launched job has no pending row, so no boot brings it back. */
  lemma LaunchedNotRecovered(rows: seq<Row>, settings: Settings, id: JobId)
    requires DistinctKeys(rows) && NoPendingRow(rows, id)
    ensures id !in RecoveredQueue(rows, settings).jobs
  {
    var q := RecoveredQueue(rows, settings);
    BatchKeeps(rows, settings);
    RecoveredHolds(rows, settings);
    if id in q.jobs { LiveJobHasRow(rows, settings, q, Batch(rows, settings), id); }
  }

  lemma BootLaunches(s: State, t: Tid, l: LifeStep, s': State)
    requires DistinctKeys(s.rows) && LaunchesOk(s) && LifeNext(s, t, l, s')
    ensures LaunchesOk(s')
  {
    BootRows(s, l, t, s');
    assert s'.launches == s.launches;
    forall id | id in s'.launches
      ensures id in s'.used && NoPendingRow(s'.rows, id) && (id in s'.q.jobs ==> !s'.q.jobs[id].status.Pending?)
    {
      assert NoPendingRow(s.rows, id);
      if l.Boots? { LaunchedNotRecovered(s.rows, l.settings, id); }
    }
    forall u, id | Runs(s', u, id) ensures Runs(s, u, id) && s'.threads[u] == s.threads[u] {}
  }

  lemma BootStarts(s: State, t: Tid, l: LifeStep, s': State)
    requires PoolOk(s) && StartsRecorded(s) && LifeNext(s, t, l, s')
    ensures StartsRecorded(s')
  {
    forall u, id | Runs(s', u, id) ensures Runs(s, u, id) && s'.threads[u] == s.threads[u] && s'.rows == s.rows {}
  }

  lemma HistoryKeeps(s: State, a: Step, s': State)
    requires Inv(s) && HistoryOk(s) && Next(s, a, s')
    ensures HistoryOk(s')
  {
    if a.Life? {
      BootLaunches(s, a.t, a.life, s');
      BootStarts(s, a.t, a.life, s');
      if a.life.Boots? { BootTracks(s, a.life.settings, s'); }
    } else {
      StepFramed(s, a, s');
      if s.up { RowsTrackKeeps(s, a, s'); }
      StartsRecordedKeeps(s, a, s');
      LaunchesKeep(s, a, s');
    }
  }

  lemma InitHistory(s: State)
    requires Init(s)
    ensures HistoryOk(s)
  {
  }

  lemma RunHistory(run: seq<State>, steps: seq<Step>, k: nat)
    requires IsRun(run, steps) && k < |run|
    ensures Inv(run[k]) && HistoryOk(run[k])
  {
    InitInv(run[0]);
    InitHistory(run[0]);
    forall s, a, s' | Inv(s) && HistoryOk(s) && Next(s, a, s') ensures Inv(s') && HistoryOk(s') {
      NextKeeps(s, a, s');
      HistoryKeeps(s, a, s');
    }
    Invariant(run, steps, s => Inv(s) && HistoryOk(s), k);
  }

  // ----- main results -----

  /** Over any run with any number of crashes and restarts, a pipeline starts at most once per job id. */
  lemma AtMostOneLaunch(run: seq<State>, steps: seq<Step>, k: nat, i: nat, j: nat)
    requires IsRun(run, steps) && k < |run| && i < |run[k].launches| && j < |run[k].launches|
    requires run[k].launches[i] == run[k].launches[j]
    ensures i == j
  {
    RunHistory(run, steps, k);
  }

  /** A pipeline only ever starts with RUNNING on disk: no row of that job still says PENDING. */
  lemma LaunchAfterRunningRow(run: seq<State>, steps: seq<Step>, k: nat, id: JobId)
    requires IsRun(run, steps) && k < |steps| && run[k + 1].launches == run[k].launches + [id]
    ensures NoPendingRow(run[k].rows, id)
  {
    RunHistory(run, steps, k);
    var s, a := run[k], steps[k];
    RunStep(run, steps, k);
    assert |run[k + 1].launches| == |s.launches| + 1;
    if !a.Life? {
      StepFramed(s, a, run[k + 1]);
      StepLaunches(s, a, run[k + 1]);
      assert run[k + 1].launches[|s.launches|] == id;
      assert Runs(s, a.t, id);
    }
  }
}
