/**
 One active job per path across restarts: kept exactly when each boot rehydrates each path once. The row
 of a cancelled job breaks it, when a crash comes before its deletion or its first write after it.
 */
module EngineDedup {
  import opened History
  import opened Recovery
  import opened Engine
  import opened EngineInvariant
  import opened EngineSafety
  import opened EngineLocks
  import opened EngineHistory

  /** A pending row whose job has left the queue: cancelled, with its row still on disk. */
  ghost predicate Orphan(s: State, r: Row) {
    r in s.rows && r.status.Pending? && r.key.Uuid? && r.key.id !in s.q.order
  }

  ghost predicate PendingOn(rows: seq<Row>, r: Row) { r in rows && r.status.Pending? && r.key.Uuid? }

  /** No two pending rows that name a job share a path. */
  ghost predicate PathsDistinct(rows: seq<Row>) {
    forall r1, r2 :: PendingOn(rows, r1) && PendingOn(rows, r2) && r1.path == r2.path ==> r1 == r2
  }

  lemma CrashWithoutOrphans(s: State)
    requires s.up && RowsTrack(s) && OnePerPath(s.q) && DistinctKeys(s.rows) && forall r :: !Orphan(s, r)
    ensures PathsDistinct(s.rows)
  {
    forall r1, r2 | PendingOn(s.rows, r1) && PendingOn(s.rows, r2) && r1.path == r2.path ensures r1 == r2 {
      assert PendingRowOk(s.q, r1) && PendingRowOk(s.q, r2);
      assert !Orphan(s, r1) && !Orphan(s, r2);
      assert ActiveOn(s.q, r1.key.id, r1.path) && ActiveOn(s.q, r2.key.id, r1.path);
    }
  }

  /** The rows a boot rehydrates: pending, and rebuildable under the settings of the day. */
  ghost predicate Rehydratable(rows: seq<Row>, settings: Settings, r: Row) {
    r in rows && r.status.Pending? && Reconstruct(r, settings).Some?
  }

  /** After a boot one active job per path holds exactly when the rehydrated rows have distinct paths. */
  lemma BootDedupIff(rows: seq<Row>, settings: Settings)
    requires DistinctKeys(rows)
    ensures OnePerPath(RecoveredQueue(rows, settings))
       <==> forall r1, r2 ::
           Rehydratable(rows, settings, r1) && Rehydratable(rows, settings, r2) && r1.path == r2.path ==> r1 == r2
  {
    var q, b := RecoveredQueue(rows, settings), Batch(rows, settings);
    BatchKeeps(rows, settings);
    RecoveredHolds(rows, settings);
    forall r | Rehydratable(rows, settings, r) ensures r.key.Uuid? && ActiveOn(q, r.key.id, r.path) {
      MarkedKeepsRow(rows, settings, r);
      PendingRowCarried(rows, settings, q, b, r);
    }
    forall id, path | ActiveOn(q, id, path)
      ensures Rehydratable(rows, settings, RowOf(id, q.jobs[id])) && RowOf(id, q.jobs[id]).path == path
    {
      LiveJobHasRow(rows, settings, q, b, id);
      var i :| 0 <= i < |b| && Ids(b)[i] == id;
      assert b[i] in b;
    }
    if OnePerPath(q) {
      forall r1, r2 | Rehydratable(rows, settings, r1) && Rehydratable(rows, settings, r2)
          && r1.path == r2.path ensures r1 == r2 {
        assert ActiveOn(q, r1.key.id, r1.path) && ActiveOn(q, r2.key.id, r1.path);
        SameKeySameRow(rows, r1, r2);
      }
    }
  }

  lemma SameKeySameRow(rows: seq<Row>, r1: Row, r2: Row)
    requires DistinctKeys(rows) && r1 in rows && r2 in rows && r1.key == r2.key
    ensures r1 == r2
  {
    var i :| 0 <= i < |rows| && rows[i] == r1;
    var j :| 0 <= j < |rows| && rows[j] == r2;
  }

  /** The rows this step rehydrates, if it is a boot, name each path once. */
  ghost predicate CleanBoot(s: State, a: Step) {
    a.Life? && a.life.Boots? ==>
      forall r1, r2 ::
        && Rehydratable(s.rows, a.life.settings, r1) && Rehydratable(s.rows, a.life.settings, r2)
        && r1.path == r2.path
        ==> r1 == r2
  }

  ghost predicate DedupWhileUp(s: State) { LocksOk(s) && (s.up ==> DedupOk(s)) }

  lemma DedupWhileUpKeeps(s: State, a: Step, s': State)
    requires Inv(s) && DedupWhileUp(s) && CleanBoot(s, a) && Next(s, a, s')
    ensures DedupWhileUp(s')
  {
    LocksKeep(s, a, s');
    if !a.Life? {
      StepFramed(s, a, s');
      if s.up { DedupKeeps(s, a, s'); }
    } else if a.life.Boots? {
      BootDedupIff(s.rows, a.life.settings);
    } else if s'.up {
      forall u | u in s'.threads ensures ScanOk(s'.q, s'.threads[u].enq) {}
    }
  }

  /** De-duplication and what the disk holds between two lives of the process. */
  ghost predicate DedupState(s: State) {
    LocksOk(s) && if s.up then DedupOk(s) else PathsDistinct(s.rows)
  }

  /** Every crash of a living process finds no orphan row. */
  ghost predicate CleanCrash(s: State, a: Step) {
    a.Life? && a.life.Crashes? && s.up ==> forall r :: !Orphan(s, r)
  }

  lemma BootPaths(s: State, t: Tid, l: LifeStep, s': State)
    requires RowsOk(s) && PathsDistinct(s.rows) && LifeNext(s, t, l, s')
    ensures PathsDistinct(s'.rows)
  {
    BootRows(s, l, t, s');
  }

  lemma DistinctPathsBootCleanly(s: State, a: Step)
    requires PathsDistinct(s.rows)
    ensures CleanBoot(s, a)
  {
    if a.Life? && a.life.Boots? {
      forall r | Rehydratable(s.rows, a.life.settings, r) ensures PendingOn(s.rows, r) {}
    }
  }

  lemma DownRowsKeep(s: State, t: Tid, l: LifeStep, s': State)
    requires Inv(s) && HistoryOk(s) && DedupState(s) && CleanCrash(s, Life(t, l)) && LifeNext(s, t, l, s') && !s'.up
    ensures PathsDistinct(s'.rows)
  {
    if !s.up { BootPaths(s, t, l, s'); } else { CrashWithoutOrphans(s); }
  }

  lemma DedupStateKeeps(s: State, a: Step, s': State)
    requires Inv(s) && HistoryOk(s) && DedupState(s) && CleanCrash(s, a) && Next(s, a, s')
    ensures DedupState(s')
  {
    if !s.up { DistinctPathsBootCleanly(s, a); }
    DedupWhileUpKeeps(s, a, s');
    if !a.Life? { StepFramed(s, a, s'); }
    else if !s'.up { DownRowsKeep(s, a.t, a.life, s'); }
  }

  lemma InitDedup(s: State)
    requires Init(s)
    ensures DedupState(s)
  {
  }

  lemma RunDedup(run: seq<State>, steps: seq<Step>, k: nat)
    requires IsRun(run, steps) && k < |run|
    requires forall i: nat :: i < k ==> CleanCrash(run[i], steps[i])
    ensures DedupState(run[k])
  {
    InitInv(run[0]);
    InitHistory(run[0]);
    InitDedup(run[0]);
    forall s, a, s' | Inv(s) && HistoryOk(s) && DedupState(s) && CleanCrash(s, a) && Next(s, a, s')
      ensures Inv(s') && HistoryOk(s') && DedupState(s')
    {
      NextKeeps(s, a, s');
      HistoryKeeps(s, a, s');
      DedupStateKeeps(s, a, s');
    }
    InvariantIf(run, steps, s => Inv(s) && HistoryOk(s) && DedupState(s), (s, a) => CleanCrash(s, a), k);
  }

  /** At most one pending or running job per path, in every state of every run whose crashes find no orphan row. */
  lemma OneActiveJobPerPath(run: seq<State>, steps: seq<Step>, k: nat)
    requires IsRun(run, steps) && k < |run| && run[k].up
    requires forall i: nat :: i < k ==> CleanCrash(run[i], steps[i])
    ensures OnePerPath(run[k].q)
  {
    RunDedup(run, steps, k);
  }

  // ----- exactly when -----

  lemma CleanBootsSuffice(run: seq<State>, steps: seq<Step>, k: nat)
    requires IsRun(run, steps) && k < |run| && run[k].up
    requires forall i: nat :: i < k ==> CleanBoot(run[i], steps[i])
    ensures OnePerPath(run[k].q)
  {
    InitInv(run[0]);
    InitDedup(run[0]);
    forall s, a, s' | Inv(s) && DedupWhileUp(s) && CleanBoot(s, a) && Next(s, a, s') ensures Inv(s')
        && DedupWhileUp(s') {
      NextKeeps(s, a, s');
      DedupWhileUpKeeps(s, a, s');
    }
    InvariantIf(run, steps, s => Inv(s) && DedupWhileUp(s), (s, a) => CleanBoot(s, a), k);
  }

  lemma CleanBootsNeeded(run: seq<State>, steps: seq<Step>, i: nat)
    requires IsRun(run, steps) && i < |steps| && !CleanBoot(run[i], steps[i])
    ensures run[i + 1].up && !OnePerPath(run[i + 1].q)
  {
    RunInv(run, steps, i);
    RunStep(run, steps, i);
    BootDedupIff(run[i].rows, steps[i].life.settings);
  }

  /** A run keeps one active job per path throughout exactly when each of its boots rehydrates each path once. */
  lemma OnePerPathIff(run: seq<State>, steps: seq<Step>)
    requires IsRun(run, steps)
    ensures (forall k: nat :: k < |run| && run[k].up ==> OnePerPath(run[k].q))
       <==> (forall i: nat :: i < |steps| ==> CleanBoot(run[i], steps[i]))
  {
    if forall i: nat :: i < |steps| ==> CleanBoot(run[i], steps[i]) {
      forall k: nat | k < |run| && run[k].up ensures OnePerPath(run[k].q) { CleanBootsSuffice(run, steps, k); }
    } else {
      var i: nat :| i < |steps| && !CleanBoot(run[i], steps[i]);
      CleanBootsNeeded(run, steps, i);
    }
  }
}
