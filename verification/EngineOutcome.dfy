/**
 How a job ends: along every run, what its pipeline call reported is what the queue settles the
 job with and what the history row then says.
 */
module EngineOutcome {
  import opened Jobs
  import opened History
  import opened Engine
  import opened EngineInvariant
  import opened EngineSafety
  import opened EngineHistory
  import Q = Queue

  ghost predicate EndsAt(a: Step, t: Tid) { a.Work? && a.t == t && a.work.Ends? }

  /** Before step `k` the last pipeline call on thread `t` ended at step `i`, for job `id`, and reported `ok`. */
  ghost predicate Reported(run: seq<State>, steps: seq<Step>, k: nat, t: Tid, id: JobId, ok: bool, i: nat)
    requires |run| == |steps| + 1 && k <= |steps|
  {
    && i < k && steps[i] == Work(t, Ends(ok)) && Runs(run[i], t, id)
    && forall m :: i < m < k ==> !EndsAt(steps[m], t)
  }

  ghost predicate HasReported(run: seq<State>, steps: seq<Step>, k: nat, t: Tid, id: JobId, ok: bool)
    requires |run| == |steps| + 1 && k <= |steps|
  {
    exists i :: Reported(run, steps, k, t, id, ok, i)
  }

  predicate Ended(st: Status, ok: bool) { if ok then st.Succeeded? else st.Failed? }

  /** The job thread `t` has settled shows what its pipeline call reported. */
  ghost predicate Settled(run: seq<State>, steps: seq<Step>, k: nat, t: Tid, id: JobId)
    requires |run| == |steps| + 1 && k <= |steps|
  {
    exists ok :: HasReported(run, steps, k, t, id, ok) && id in run[k].q.jobs && Ended(run[k].q.jobs[id].status, ok)
  }

  ghost predicate OutcomeOf(run: seq<State>, steps: seq<Step>, k: nat, t: Tid, id: JobId)
    requires |run| == |steps| + 1 && k <= |steps| && Runs(run[k], t, id)
  {
    var stage := run[k].threads[t].base.stage;
    && (stage.Settling? ==> HasReported(run, steps, k, t, id, stage.ok))
    && (!Early(stage) ==> Settled(run, steps, k, t, id))
  }

  ghost predicate OutcomesOk(run: seq<State>, steps: seq<Step>, k: nat)
    requires |run| == |steps| + 1 && k <= |steps|
  {
    forall t, id :: Runs(run[k], t, id) ==> OutcomeOf(run, steps, k, t, id)
  }

  lemma ReportedStays(run: seq<State>, steps: seq<Step>, k: nat, t: Tid, id: JobId, ok: bool)
    requires |run| == |steps| + 1 && k < |steps| && HasReported(run, steps, k, t, id, ok) && !EndsAt(steps[k], t)
    ensures HasReported(run, steps, k + 1, t, id, ok)
  {
    var i :| Reported(run, steps, k, t, id, ok, i);
    assert Reported(run, steps, k + 1, t, id, ok, i);
  }

  /** Where a worker step takes the end of a job. */
  lemma WorkerEnds(s: State, t: Tid, w: WorkStep, s': State, id: JobId)
    requires WorkNext(s, t, w, s') && Runs(s, t, id) && Runs(s', t, id)
    ensures var before, after := s.threads[t].base.stage, s'.threads[t].base.stage;
            && (w.Ends? <==> after.Settling?) && (w.Ends? ==> after.ok == w.ok)
            && (!Early(after) ==> !Early(before) || (w.Settles? && before == Settling(w.ok)))
            && (w.Settles? ==> id in s.q.jobs && s'.q == Q.Settle(s.q, id, w.ok))
            && (!Early(after) && !w.Settles? ==> s'.q == s.q)
  {
  }

  lemma TerminalKept(q: Q.Queue, q': Q.Queue, id: JobId, ok: bool)
    requires Progress(q, q') && id in q.jobs && Ended(q.jobs[id].status, ok)
    ensures id in q'.jobs && Ended(q'.jobs[id].status, ok)
  {
  }

  lemma TerminalStays(s: State, a: Step, s': State, id: JobId, ok: bool)
    requires QueueOk(s) && ThreadsOk(s) && Next(s, a, s') && !a.Life?
    requires id in s.q.jobs && Ended(s.q.jobs[id].status, ok)
    ensures id in s'.q.jobs && Ended(s'.q.jobs[id].status, ok)
  {
    StepProgress(s, a, s');
    TerminalKept(s.q, s'.q, id, ok);
  }

  /** The acting worker. */
  lemma WorkerOutcome(run: seq<State>, steps: seq<Step>, k: nat, id: JobId)
    requires |run| == |steps| + 1 && k < |steps| && steps[k].Work?
    requires WorkNext(run[k], steps[k].t, steps[k].work, run[k + 1]) && OutcomesOk(run, steps, k)
    requires Runs(run[k], steps[k].t, id) && Runs(run[k + 1], steps[k].t, id)
    ensures OutcomeOf(run, steps, k + 1, steps[k].t, id)
  {
    var t, w := steps[k].t, steps[k].work;
    WorkerEnds(run[k], t, w, run[k + 1], id);
    assert OutcomeOf(run, steps, k, t, id);
    var after := run[k + 1].threads[t].base.stage;
    if w.Ends? {
      assert Reported(run, steps, k + 1, t, id, w.ok, k);
    } else if !Early(after) {
      if w.Settles? {
        ReportedStays(run, steps, k, t, id, w.ok);
      } else {
        var ok :| HasReported(run, steps, k, t, id, ok) && id in run[k].q.jobs && Ended(run[k].q.jobs[id].status, ok);
        ReportedStays(run, steps, k, t, id, ok);
      }
    }
  }

  /** A thread that keeps its job and stage. */
  lemma StillOutcome(run: seq<State>, steps: seq<Step>, k: nat, t: Tid, id: JobId)
    requires |run| == |steps| + 1 && k < |steps| && Inv(run[k]) && Next(run[k], steps[k], run[k + 1])
    requires OutcomesOk(run, steps, k) && !steps[k].Life? && !EndsAt(steps[k], t)
    requires Runs(run[k], t, id) && Runs(run[k + 1], t, id)
            && run[k + 1].threads[t].base.stage == run[k].threads[t].base.stage
    ensures OutcomeOf(run, steps, k + 1, t, id)
  {
    assert OutcomeOf(run, steps, k, t, id);
    var stage := run[k].threads[t].base.stage;
    if stage.Settling? { ReportedStays(run, steps, k, t, id, stage.ok); }
    if !Early(stage) {
      var ok :| HasReported(run, steps, k, t, id, ok) && id in run[k].q.jobs && Ended(run[k].q.jobs[id].status, ok);
      ReportedStays(run, steps, k, t, id, ok);
      TerminalStays(run[k], steps[k], run[k + 1], id, ok);
    }
  }

  lemma LifeOutcome(run: seq<State>, steps: seq<Step>, k: nat, t: Tid, id: JobId)
    requires |run| == |steps| + 1 && k < |steps| && PoolOk(run[k]) && Next(run[k], steps[k], run[k + 1])
    requires OutcomesOk(run, steps, k) && steps[k].Life? && Runs(run[k + 1], t, id)
    ensures OutcomeOf(run, steps, k + 1, t, id)
  {
    LifeKeepsRunners(run[k], steps[k].t, steps[k].life, run[k + 1], t, id);
    assert OutcomeOf(run, steps, k, t, id);
    var stage := run[k].threads[t].base.stage;
    if stage.Settling? { ReportedStays(run, steps, k, t, id, stage.ok); }
    if !Early(stage) {
      var ok :| HasReported(run, steps, k, t, id, ok) && id in run[k].q.jobs && Ended(run[k].q.jobs[id].status, ok);
      ReportedStays(run, steps, k, t, id, ok);
    }
  }

  lemma LifeKeepsRunners(s: State, t: Tid, l: LifeStep, s': State, u: Tid, id: JobId)
    requires PoolOk(s) && LifeNext(s, t, l, s') && Runs(s', u, id)
    ensures Runs(s, u, id) && s'.threads[u] == s.threads[u] && s'.q == s.q
  {
  }

  lemma OutcomesKeep(run: seq<State>, steps: seq<Step>, k: nat)
    requires |run| == |steps| + 1 && k < |steps| && Inv(run[k]) && Next(run[k], steps[k], run[k + 1])
            && OutcomesOk(run, steps, k)
    ensures OutcomesOk(run, steps, k + 1)
  {
    var s, a, s' := run[k], steps[k], run[k + 1];
    if !a.Life? { StepFramed(s, a, s'); }
    forall t, id | Runs(s', t, id) ensures OutcomeOf(run, steps, k + 1, t, id) {
      if a.Life? { LifeOutcome(run, steps, k, t, id); }
      else {
        RunOrigin(s, a, s', t, id);
        if Runs(s, t, id) && t == a.t && a.Work? { WorkerOutcome(run, steps, k, id); }
        else if RunsBefore(s, a, s', t, id) { StillOutcome(run, steps, k, t, id); }
      }
    }
  }

  lemma StartOutcomes(run: seq<State>, steps: seq<Step>)
    requires |run| == |steps| + 1 && Init(run[0])
    ensures OutcomesOk(run, steps, 0)
  {
  }

  lemma NextOutcomes(run: seq<State>, steps: seq<Step>, k: nat)
    requires IsRun(run, steps) && k < |steps| && OutcomesOk(run, steps, k)
    ensures OutcomesOk(run, steps, k + 1)
  {
    RunInv(run, steps, k);
    RunStep(run, steps, k);
    OutcomesKeep(run, steps, k);
  }

  lemma {:induction false} RunOutcomes(run: seq<State>, steps: seq<Step>, k: nat)
    requires IsRun(run, steps) && k <= |steps|
    ensures OutcomesOk(run, steps, k)
  {
    if k > 0 {
      RunOutcomes(run, steps, k - 1);
      NextOutcomes(run, steps, k - 1);
    } else {
      StartOutcomes(run, steps);
    }
  }

  // ----- main results -----

  lemma SettleOf(s: State, t: Tid, ok: bool, s': State)
    requires WorkNext(s, t, Settles(ok), s')
    ensures Runs(s, t, s.threads[t].base.id) && s.threads[t].base.stage == Settling(ok)
    ensures s.threads[t].base.id in s.q.jobs && s'.q == Q.Settle(s.q, s.threads[t].base.id, ok)
  {
  }

  /**
   A job is settled as SUCCEEDED exactly when the pipeline call that ended for it reported success,
   else as FAILED.
   */
  lemma SettledAsReported(run: seq<State>, steps: seq<Step>, k: nat, t: Tid, ok: bool) returns (i: nat)
    requires IsRun(run, steps) && k < |steps| && steps[k] == Work(t, Settles(ok))
    ensures t in run[k].threads && run[k].threads[t].base.Run?
    ensures var id := run[k].threads[t].base.id;
            && Reported(run, steps, k, t, id, ok, i) && id in run[k + 1].q.jobs
            && run[k + 1].q.jobs[id].status == if ok then Succeeded else Failed
  {
    RunOutcomes(run, steps, k);
    RunStep(run, steps, k);
    SettleOf(run[k], t, ok, run[k + 1]);
    var id := run[k].threads[t].base.id;
    assert OutcomeOf(run, steps, k, t, id);
    i :| Reported(run, steps, k, t, id, ok, i);
  }

  lemma WriteOf(s: State, t: Tid, s': State)
    requires WorkNext(s, t, WritesEnd, s')
    ensures Runs(s, t, s.threads[t].base.id) && s.threads[t].base.stage.RecordEnd?
    ensures s.threads[t].base.id in s.q.jobs && s'.q == s.q
    ensures s'.rows == Record(s.rows, s.threads[t].base.id, s.q.jobs[s.threads[t].base.id])
  {
  }

  /** The row written at the end says SUCCEEDED exactly when the pipeline call reported success, else FAILED. */
  lemma RecordedAsReported(run: seq<State>, steps: seq<Step>, k: nat, t: Tid) returns (i: nat, ok: bool)
    requires IsRun(run, steps) && k < |steps| && steps[k] == Work(t, WritesEnd)
    ensures t in run[k].threads && run[k].threads[t].base.Run?
    ensures Reported(run, steps, k, t, run[k].threads[t].base.id, ok, i)
    ensures exists r :: r in run[k + 1].rows && r.key == Uuid(run[k].threads[t].base.id)
    ensures forall r :: r in run[k + 1].rows && r.key == Uuid(run[k].threads[t].base.id) ==>
              r.status == if ok then Succeeded else Failed
  {
    RunOutcomes(run, steps, k);
    RunInv(run, steps, k);
    RunStep(run, steps, k);
    WriteOf(run[k], t, run[k + 1]);
    var id := run[k].threads[t].base.id;
    assert OutcomeOf(run, steps, k, t, id);
    ok :| HasReported(run, steps, k, t, id, ok) && Ended(run[k].q.jobs[id].status, ok);
    i :| Reported(run, steps, k, t, id, ok, i);
    RecordMembers(run[k].rows, id, run[k].q.jobs[id]);
    assert RowOf(id, run[k].q.jobs[id]) in run[k + 1].rows;
  }

  lemma StartOf(s: State, t: Tid, s': State)
    requires WorkNext(s, t, WritesStart, s')
    ensures Runs(s, t, s.threads[t].base.id) && s.threads[t].base.stage.RecordStart?
    ensures s.threads[t].base.id in s.q.jobs
    ensures s'.rows == Record(s.rows, s.threads[t].base.id, s.q.jobs[s.threads[t].base.id])
  {
  }

  /** The row written at the start says RUNNING. */
  lemma StartRecordedAsRunning(run: seq<State>, steps: seq<Step>, k: nat, t: Tid)
    requires IsRun(run, steps) && k < |steps| && steps[k] == Work(t, WritesStart)
    ensures t in run[k].threads && run[k].threads[t].base.Run?
    ensures exists r :: r in run[k + 1].rows && r.key == Uuid(run[k].threads[t].base.id)
    ensures forall r :: r in run[k + 1].rows && r.key == Uuid(run[k].threads[t].base.id) ==> r.status.Running?
  {
    RunInv(run, steps, k);
    RunStep(run, steps, k);
    StartOf(run[k], t, run[k + 1]);
    var id := run[k].threads[t].base.id;
    assert BaseOk(run[k], t, run[k].threads[t].base);
    RecordMembers(run[k].rows, id, run[k].q.jobs[id]);
    assert RowOf(id, run[k].q.jobs[id]) in run[k + 1].rows;
  }
}
