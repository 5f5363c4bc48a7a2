/**
 The auto-queue limit across restarts: kept throughout a run exactly when each boot brings back at most that
 many of the jobs top-up created. A job claimed in memory may still have a pending row.
 */
module EngineRestartLimit {
  import opened Jobs
  import opened History
  import opened Recovery
  import opened Engine
  import opened EngineInvariant
  import opened EngineSafety
  import opened EngineHistory
  import opened EngineDedup
  import opened EngineLimits
  import Q = Queue

  /** The jobs created by top-up that are waiting, whichever process created them. */
  ghost function AllWaiting(s: State): set<JobId> { WaitingRefills(s, {}) }

  /** The jobs created by top-up that a boot brings back: those with a rebuildable pending row. */
  ghost function BroughtBack(rows: seq<Row>, settings: Settings, refills: set<JobId>): set<JobId> {
    set id | id in refills && HasRehydratable(rows, settings, id)
  }

  ghost predicate HasRehydratable(rows: seq<Row>, settings: Settings, id: JobId) {
    exists r :: Rehydratable(rows, settings, r) && r.key == Uuid(id)
  }

  /** This step, if it is a boot, brings back at most the limit of top-up's jobs. */
  ghost predicate SmallBoot(s: State, a: Step) {
    a.Life? && a.life.Boots? ==> |BroughtBack(s.rows, a.life.settings, s.refills)| <= AUTO_QUEUE_LIMIT
  }

  lemma BootWaits(rows: seq<Row>, settings: Settings, id: JobId)
    requires DistinctKeys(rows)
    ensures Q.Waits(RecoveredQueue(rows, settings), id) <==> HasRehydratable(rows, settings, id)
  {
    var q, b := RecoveredQueue(rows, settings), Batch(rows, settings);
    BatchKeeps(rows, settings);
    RecoveredHolds(rows, settings);
    if r :| Rehydratable(rows, settings, r) && r.key == Uuid(id) {
      MarkedKeepsRow(rows, settings, r);
      PendingRowCarried(rows, settings, q, b, r);
    }
    if Q.Waits(q, id) {
      LiveJobHasRow(rows, settings, q, b, id);
      var i :| 0 <= i < |b| && Ids(b)[i] == id;
      assert b[i] in b;
      assert Rehydratable(rows, settings, RowOf(id, q.jobs[id]));
    }
  }

  lemma BootRefills(s: State, settings: Settings, s': State)
    requires RowsOk(s) && Boot(s, settings, s')
    ensures AllWaiting(s') == BroughtBack(s.rows, settings, s.refills)
  {
    forall id ensures id in AllWaiting(s') <==> id in BroughtBack(s.rows, settings, s.refills) {
      BootWaits(s.rows, settings, id);
    }
  }

  ghost predicate Limited(s: State) { Sound(s) && LimitOk(s, {}) }

  lemma RestartLimits(s: State, t: Tid, l: LifeStep, s': State)
    requires Inv(s) && Limited(s) && SmallBoot(s, Life(t, l)) && LifeNext(s, t, l, s') && Restarts(Life(t, l))
    ensures LimitOk(s', {})
  {
    if l.Boots? { BootRefills(s, l.settings, s'); } else { assert WaitingRefills(s', {}) == {}; }
  }

  lemma LimitedKeeps(s: State, a: Step, s': State)
    requires Inv(s) && Limited(s) && SmallBoot(s, a) && Next(s, a, s')
    ensures Limited(s')
  {
    SoundKeeps(s, a, s');
    if Restarts(a) { RestartLimits(s, a.t, a.life, s'); } else { LifeLimitKeeps(s, {}, a, s'); }
  }

  lemma InitLimited(s: State)
    requires Init(s)
    ensures Limited(s)
  {
    assert WaitingRefills(s, {}) == {};
  }

  lemma SmallBootsSuffice(run: seq<State>, steps: seq<Step>, k: nat)
    requires IsRun(run, steps) && k < |run| && forall i: nat :: i < k ==> SmallBoot(run[i], steps[i])
    ensures |AllWaiting(run[k])| <= AUTO_QUEUE_LIMIT
  {
    InitInv(run[0]);
    InitLimited(run[0]);
    forall s, a, s' | Inv(s) && Limited(s) && SmallBoot(s, a) && Next(s, a, s') ensures Inv(s') && Limited(s') {
      NextKeeps(s, a, s');
      LimitedKeeps(s, a, s');
    }
    InvariantIf(run, steps, s => Inv(s) && Limited(s), (s, a) => SmallBoot(s, a), k);
  }

  lemma SmallBootsNeeded(run: seq<State>, steps: seq<Step>, i: nat)
    requires IsRun(run, steps) && i < |steps| && !SmallBoot(run[i], steps[i])
    ensures |AllWaiting(run[i + 1])| > AUTO_QUEUE_LIMIT
  {
    RunInv(run, steps, i);
    RunStep(run, steps, i);
    BootRefills(run[i], steps[i].life.settings, run[i + 1]);
  }

  /**
   Top-up's jobs stay within the limit in every state of a run exactly when each of its boots
   finds at most AUTO_QUEUE_LIMIT of them among the rows it rehydrates.
   */
  lemma TopUpLimitIff(run: seq<State>, steps: seq<Step>)
    requires IsRun(run, steps)
    ensures (forall k: nat :: k < |run| ==> |AllWaiting(run[k])| <= AUTO_QUEUE_LIMIT)
       <==> (forall i: nat :: i < |steps| ==> SmallBoot(run[i], steps[i]))
  {
    if forall i: nat :: i < |steps| ==> SmallBoot(run[i], steps[i]) {
      forall k: nat | k < |run| ensures |AllWaiting(run[k])| <= AUTO_QUEUE_LIMIT { SmallBootsSuffice(run, steps, k); }
    } else {
      var i: nat :| i < |steps| && !SmallBoot(run[i], steps[i]);
      SmallBootsNeeded(run, steps, i);
    }
  }

  // ----- what a crash must not find -----

  /** Thread `t` has claimed its job, and a row of that job still says PENDING. */
  ghost predicate Unrecorded(s: State, t: Tid) {
    t in s.threads && s.threads[t].base.Run? && s.threads[t].base.stage.RecordStart?
    && !NoPendingRow(s.rows, s.threads[t].base.id)
  }

  /** A crash of a living process finds no orphan row and no claimed job whose row still says PENDING. */
  ghost predicate QuietCrash(s: State, a: Step) {
    a.Life? && a.life.Crashes? && s.up ==> (forall r :: !Orphan(s, r)) && forall t :: !Unrecorded(s, t)
  }

  /** The jobs created by top-up that a pending row names. */
  ghost function PendingRefills(rows: seq<Row>, refills: set<JobId>): set<JobId> {
    set id | id in refills && !NoPendingRow(rows, id)
  }

  /** A job whose runners have all written its RUNNING row has no row that still says PENDING. */
  lemma RunningRowWritten(s: State, id: JobId)
    requires RunnersOk(s) && StartsRecorded(s) && (forall t :: !Unrecorded(s, t))
    requires id in s.q.jobs && s.q.jobs[id].status.Running?
    ensures NoPendingRow(s.rows, id)
  {
    var t :| Runs(s, t, id);
    assert !Unrecorded(s, t);
  }

  /** Then every pending row belongs to a waiting job. */
  lemma PendingRowWaits(s: State, id: JobId)
    requires Inv(s) && HistoryOk(s) && s.up && (forall r :: !Orphan(s, r)) && (forall t :: !Unrecorded(s, t))
    requires !NoPendingRow(s.rows, id)
    ensures Q.Waits(s.q, id)
  {
    var r :| r in s.rows && r.key == Uuid(id) && r.status.Pending?;
    assert !Orphan(s, r) && PendingRowOk(s.q, r);
    if s.q.jobs[id].status.Running? { RunningRowWritten(s, id); }
  }

  /** The limit while the process lives, and on disk while it does not. */
  ghost predicate LimitHeld(s: State) {
    && Sound(s)
    && if s.up then LimitOk(s, {}) else |PendingRefills(s.rows, s.refills)| <= AUTO_QUEUE_LIMIT
  }

  lemma CrashHolds(s: State, a: Step, s': State)
    requires Inv(s) && HistoryOk(s) && LimitHeld(s) && QuietCrash(s, a) && Next(s, a, s') && a.Life? && a.life.Crashes?
    ensures |PendingRefills(s'.rows, s'.refills)| <= AUTO_QUEUE_LIMIT
  {
    if s.up {
      forall id | id in PendingRefills(s.rows, s.refills) ensures id
          in WaitingRefills(s, {}) { PendingRowWaits(s, id); }
      SubsetSize(PendingRefills(s.rows, s.refills), WaitingRefills(s, {}));
    }
  }

  lemma DiskShrinks(s: State, a: Step, s': State)
    requires RowsOk(s) && !s.up && Next(s, a, s') && a.Life? && a.life.AbortsBoot?
    ensures |PendingRefills(s'.rows, s'.refills)| <= |PendingRefills(s.rows, s.refills)|
  {
    BootRows(s, a.life, a.t, s');
    SubsetSize(PendingRefills(s'.rows, s'.refills), PendingRefills(s.rows, s.refills));
  }

  lemma HeldBootIsSmall(s: State, a: Step)
    requires LimitHeld(s) && !s.up
    ensures SmallBoot(s, a)
  {
    if a.Life? && a.life.Boots? {
      SubsetSize(BroughtBack(s.rows, a.life.settings, s.refills), PendingRefills(s.rows, s.refills));
    }
  }

  lemma BootHolds(s: State, a: Step, s': State)
    requires Inv(s) && LimitHeld(s) && Next(s, a, s') && a.Life? && a.life.Boots?
    ensures LimitOk(s', {})
  {
    HeldBootIsSmall(s, a);
    assert WaitingRefills(s, {}) == {};
    RestartLimits(s, a.t, a.life, s');
  }

  lemma LimitHeldKeeps(s: State, a: Step, s': State)
    requires Inv(s) && HistoryOk(s) && LimitHeld(s) && QuietCrash(s, a) && Next(s, a, s')
    ensures LimitHeld(s')
  {
    SoundKeeps(s, a, s');
    if !Restarts(a) {
      if !a.Life? { StepFramed(s, a, s'); }
      LifeLimitKeeps(s, {}, a, s');
    }
    else if a.life.Crashes? { CrashHolds(s, a, s'); }
    else if a.life.AbortsBoot? { DiskShrinks(s, a, s'); }
    else { BootHolds(s, a, s'); }
  }

  /**
   Within the limit in every state of every run whose crashes find no orphan row and no job claimed
   but not yet recorded.
   */
  lemma QuietCrashesSuffice(run: seq<State>, steps: seq<Step>, k: nat)
    requires IsRun(run, steps) && k < |run|
    requires forall i: nat :: i < k ==> QuietCrash(run[i], steps[i])
    ensures |AllWaiting(run[k])| <= AUTO_QUEUE_LIMIT
  {
    InitInv(run[0]);
    InitHistory(run[0]);
    assert PendingRefills(run[0].rows, run[0].refills) == {};
    forall s, a, s' | Inv(s) && HistoryOk(s) && LimitHeld(s) && QuietCrash(s, a) && Next(s, a, s')
      ensures Inv(s') && HistoryOk(s') && LimitHeld(s')
    {
      NextKeeps(s, a, s');
      HistoryKeeps(s, a, s');
      LimitHeldKeeps(s, a, s');
    }
    InvariantIf(run, steps, s => Inv(s) && HistoryOk(s) && LimitHeld(s), (s, a) => QuietCrash(s, a), k);
    if !run[k].up { assert AllWaiting(run[k]) == {}; }
  }
}
