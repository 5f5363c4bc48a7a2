/**
 Waiting and finishing: no wake-up is lost, the active count is the number of threads
 between claim and cleanup, and what `wait_idle`, `shutdown`, `process_now` and
 `clear_queue` promise their callers.
 */
module EngineWaiting {
  import opened Jobs
  import opened Engine
  import opened EngineInvariant
  import opened EngineSafety
  import opened EngineHistory
  import EngineLimits
  import Q = Queue

  /** A thread parked without a timeout has nothing to wake up for. */
  ghost predicate ParkOk(q: Q.Queue, b: Base) {
    match b
    case Parked(timed) => !timed ==> !q.shutdown && forall id :: !Q.Waits(q, id)
    case Awaiting(w, parked) => parked ==> Unmet(q, w)
    case _ => true
  }

  ghost predicate WakeOk(s: State) { forall t :: t in s.threads ==> ParkOk(s.q, s.threads[t].base) }

  predicate Asleep(b: Base) { b.Parked? || (b.Awaiting? && b.parked) }

  /** The operations that end in `notify_all`. */
  predicate Notifying(op: QueueOp) { op.EnqueueOp? || op.CancelOp? || op.BumpOp? || op.ReleaseOp? || op.ShutdownOp? }

  ghost predicate NobodyAsleep(s: State, t: Tid) { forall u :: u in s.threads && u != t ==> !Asleep(s.threads[u].base) }

  lemma WorkNotifies(s: State, t: Tid, w: WorkStep, s': State)
    requires (forall id :: id in s.q.order ==> id in s.q.jobs) && t in s.threads
    requires WorkNext(s, t, w, s') && Notifying(WorkOp(s, t, w))
    ensures NobodyAsleep(s', t)
  {
  }

  lemma CancelNotifies(s: State, t: Tid, c: CancelStep, s': State)
    requires t in s.threads && CancelNext(s, t, c, s') && Notifying(CancelStepOp(s, t, c))
    ensures NobodyAsleep(s', t)
  {
  }

  /** `s` changes nothing when shutdown has already begun. */
  lemma StepNotifies(s: State, a: Step, s': State)
    requires (forall id :: id in s.q.order ==> id in s.q.jobs) && a.t in s.threads && Next(s, a, s') && !a.Life?
    requires Notifying(StepOp(s, a))
    ensures NobodyAsleep(s', a.t) || s' == s
  {
    match a
    case Work(t, w) => WorkNotifies(s, t, w, s');
    case Topping(_, _) =>
    case Enqueueing(_, _) =>
    case Cancelling(t, c) => CancelNotifies(s, t, c, s');
    case ProcessNow(_, _) =>
    case Waiting(_, _) =>
  }

  /** The operations that do not notify cannot give a sleeping thread a reason to wake. */
  lemma QuietOps(q: Q.Queue, op: QueueOp, b: Base)
    requires Q.Valid(q) && Allowed(q, op) && !Notifying(op) && q.active >= 0 && ParkOk(q, b)
    ensures ParkOk(Applied(q, op), b)
  {
    var q' := Applied(q, op);
    match b
    case Parked(timed) =>
      if !timed {
        forall id ensures !Q.Waits(q', id) { assert !Q.Waits(q, id); }
      }
    case Awaiting(w, parked) =>
      if parked && w.UntilIdle? && !op.StartOp? && q.active <= 0 {
        var id :| id in q.order && Q.Waits(q, id);
        assert id in q'.order && Q.Waits(q', id);
      }
    case _ =>
  }

  lemma WorkActorPark(s: State, t: Tid, w: WorkStep, s': State)
    requires WorkNext(s, t, w, s')
    ensures t in s'.threads && ParkOk(s'.q, s'.threads[t].base)
  {
    if w.Claims? && s'.threads[t].base == Parked(false) {
      assert forall id :: id in s.q.order ==> !s.q.jobs[id].status.Pending?;
    }
  }

  lemma CancelActorPark(s: State, t: Tid, c: CancelStep, s': State)
    requires CancelNext(s, t, c, s')
    ensures t in s'.threads && ParkOk(s'.q, s'.threads[t].base)
  {
  }

  lemma RefillActorAwake(s: State, t: Tid, r: RefillStep, s': State)
    requires RefillNext(s, t, r, s') && (t in s.threads ==> FrameOk(s, s.threads[t]))
    ensures t in s'.threads && !Asleep(s'.threads[t].base)
  {
  }

  lemma EnqActorAwake(s: State, t: Tid, e: EnqStep, s': State)
    requires EnqNext(s, t, e, s') && (t in s.threads ==> FrameOk(s, s.threads[t]))
    ensures t in s'.threads && !Asleep(s'.threads[t].base)
  {
  }

  lemma NowActorAwake(s: State, t: Tid, n: NowStep, s': State)
    requires NowNext(s, t, n, s')
    ensures t in s'.threads && !Asleep(s'.threads[t].base)
  {
  }

  lemma WaitActorPark(s: State, t: Tid, w: WaitStep, s': State)
    requires WaitNext(s, t, w, s')
    ensures t in s'.threads && ParkOk(s'.q, s'.threads[t].base)
  {
  }

  lemma ActorPark(s: State, a: Step, s': State)
    requires Next(s, a, s') && !a.Life? && (a.t in s.threads ==> FrameOk(s, s.threads[a.t]))
    ensures a.t in s'.threads && ParkOk(s'.q, s'.threads[a.t].base)
  {
    match a
    case Work(t, w) => WorkActorPark(s, t, w, s');
    case Topping(t, r) => RefillActorAwake(s, t, r, s');
    case Enqueueing(t, e) => EnqActorAwake(s, t, e, s');
    case Cancelling(t, c) => CancelActorPark(s, t, c, s');
    case ProcessNow(t, n) => NowActorAwake(s, t, n, s');
    case Waiting(t, w) => WaitActorPark(s, t, w, s');
  }

  /** The other threads, given what the step does to the queue. */
  lemma OthersPark(s: State, t: Tid, op: QueueOp, s': State)
    requires Q.Valid(s.q) && s.q.active >= 0 && WakeOk(s) && Framed(s, t, s') && Performs(s, op, s')
    requires Notifying(op) ==> NobodyAsleep(s', t)
    ensures forall u :: u in s'.threads && u != t ==> ParkOk(s'.q, s'.threads[u].base)
  {
    forall u | u in s'.threads && u != t ensures ParkOk(s'.q, s'.threads[u].base) {
      if Notifying(op) { assert !Asleep(s'.threads[u].base); }
      else if u in s.threads { assert ParkOk(s.q, s.threads[u].base); QuietOps(s.q, op, s.threads[u].base); }
    }
  }

  lemma WakeKeeps(s: State, a: Step, s': State)
    requires QueueOk(s) && ThreadsOk(s) && RunnersOk(s) && WakeOk(s) && Next(s, a, s') && !a.Life?
    ensures WakeOk(s')
  {
    if s' != s {
      StepFramed(s, a, s');
      StepProgress(s, a, s');
      ActorPark(s, a, s');
      var op := StepOp(s, a);
      if Notifying(op) { StepNotifies(s, a, s'); }
      OthersPark(s, a.t, op, s');
    }
  }

  lemma WakesStep(s: State, a: Step, s': State)
    requires Inv(s) && WakeOk(s) && Next(s, a, s')
    ensures WakeOk(s')
  {
    if a.Life? { LifeWakes(s, a.t, a.life, s'); } else { WakeKeeps(s, a, s'); }
  }

  lemma RunWakes(run: seq<State>, steps: seq<Step>, k: nat)
    requires IsRun(run, steps) && k < |run|
    ensures Inv(run[k]) && WakeOk(run[k])
  {
    InitInv(run[0]);
    forall s, a, s' | Inv(s) && WakeOk(s) && Next(s, a, s') ensures Inv(s') && WakeOk(s') {
      NextKeeps(s, a, s');
      WakesStep(s, a, s');
    }
    Invariant(run, steps, s => Inv(s) && WakeOk(s), k);
  }

  lemma LifeWakes(s: State, t: Tid, l: LifeStep, s': State)
    requires PoolOk(s) && WakeOk(s) && LifeNext(s, t, l, s')
    ensures WakeOk(s')
  {
  }

  /** No lost wake-up: an un-notified sleeper has nothing to do, in every state of every run. */
  lemma NoLostWakeUp(run: seq<State>, steps: seq<Step>, k: nat, t: Tid)
    requires IsRun(run, steps) && k < |run| && t in run[k].threads
    ensures run[k].threads[t].base == Parked(false) ==> !run[k].q.shutdown && forall id :: !Q.Waits(run[k].q, id)
    ensures run[k].threads[t].base == Awaiting(UntilIdle, true)
            ==> run[k].q.active > 0 || exists id :: Q.Waits(run[k].q, id)
    ensures run[k].threads[t].base == Awaiting(UntilNoneRunning, true) ==> run[k].q.active > 0
  {
    RunWakes(run, steps, k);
    assert ParkOk(run[k].q, run[k].threads[t].base);
  }

  // ----- the active count -----

  /** An injective assignment from `a` into `b`. */
  lemma {:induction false} InjectionSize(a: set<JobId>, b: set<Tid>, f: map<JobId, Tid>)
    requires forall x :: x in a ==> x in f && f[x] in b
    requires forall x, y :: x in a && y in a && f[x] == f[y] ==> x == y
    ensures |a| <= |b|
  {
    if a != {} {
      var x :| x in a;
      InjectionSize(a - {x}, b - {f[x]}, f);
    }
  }

  ghost function RunningJobs(q: Q.Queue): set<JobId> { set id | id in q.jobs && q.jobs[id].status.Running? }

  /** The threads between claim and final cleanup, pool workers and Process Now threads together. */
  ghost function PoolRunners(s: State): set<Tid> { set t | t in s.threads && s.threads[t].base.Run? && t in s.pool }

  /**
   `active` is the number of threads between claim and cleanup; it bounds the running jobs, and the
   pool's share is capped.
   */
  lemma ActiveCountsRunners(run: seq<State>, steps: seq<Step>, k: nat)
    requires IsRun(run, steps) && k < |run|
    ensures var s := run[k];
            s.q.active == |Runners(s.threads)| && |RunningJobs(s.q)| <= s.q.active
                && |PoolRunners(s)| <= s.maxConcurrency
  {
    RunInv(run, steps, k);
    var s := run[k];
    var jobs := RunningJobs(s.q);
    var f := map id | id in jobs :: var t :| Runs(s, t, id); t;
    InjectionSize(jobs, Runners(s.threads), f);
    assert s.pool == PoolRunners(s) + (s.pool - PoolRunners(s));
  }

  /** When `wait_idle` may return, nothing is waiting and no thread is anywhere between claim and cleanup. */
  lemma IdleMeansFinished(run: seq<State>, steps: seq<Step>, k: nat, t: Tid)
    requires IsRun(run, steps) && k < |run| && t in run[k].threads
    requires !Unmet(run[k].q, UntilIdle)
    ensures !run[k].threads[t].base.Run? && (forall id :: !Q.Waits(run[k].q, id))
    ensures RunningJobs(run[k].q) == {}
  {
    ActiveCountsRunners(run, steps, k);
    assert t in Runners(run[k].threads) <==> run[k].threads[t].base.Run?;
  }

  /** When a waiting `shutdown` has joined everyone, nothing is active; and it stays so until the process ends. */
  lemma ShutdownMeansInactive(run: seq<State>, steps: seq<Step>, k: nat, t: Tid)
    requires IsRun(run, steps) && k < |run| && t in run[k].threads && run[k].threads[t].base == Joining({})
    ensures run[k].q.active == 0 && run[k].q.shutdown && Runners(run[k].threads) == {}
  {
    RunInv(run, steps, k);
    var s := run[k];
    assert BaseOk(s, t, s.threads[t].base);
    forall u ensures u !in Runners(s.threads) {
      if u in s.threads { assert BaseOk(s, u, s.threads[u].base); }
    }
  }

  /** After shutdown nothing starts: the active count never grows and no waiting job begins. */
  lemma NothingStartsAfterShutdown(s: State, a: Step, s': State)
    requires Inv(s) && s.q.shutdown && Next(s, a, s') && !a.Life?
    ensures s'.q.shutdown && s'.q.active <= s.q.active
    ensures forall id ::
            id in s.q.jobs && s.q.jobs[id].status.Pending? ==> id in s'.q.jobs && s'.q.jobs[id].status.Pending?
  {
    StepFramed(s, a, s');
    StepProgress(s, a, s');
  }

  // ----- one fate per job -----

  /** How a step takes a job out of the waiting line. */
  datatype Fate = ClaimedBy(worker: Tid) | ForcedOn(thread: Tid) | CancelledBy(thread: Tid)

  ghost predicate HasFate(s: State, a: Step, s': State, id: JobId, f: Fate)
    requires forall x :: x in s.q.order ==> x in s.q.jobs
  {
    match f
    case ClaimedBy(w) => a.Work? && w == a.t && w in s.pool && Runs(s', w, id) && Q.Waiting(s.q) != []
        && id == Q.Waiting(s.q)[0]
    case ForcedOn(u) => a.ProcessNow? && u !in s.threads && Runs(s', u, id)
    case CancelledBy(u) =>
        a.Cancelling? && u == a.t && id !in s'.q.order && id in s'.q.jobs && s'.q.jobs[id].status.Pending?
  }

  lemma ClaimFate(s: State, t: Tid, w: WorkStep, s': State, id: JobId)
    requires Q.Valid(s.q) && ThreadsOk(s) && WorkNext(s, t, w, s') && Q.Waits(s.q, id) && !Q.Waits(s'.q, id)
    ensures HasFate(s, Work(t, w), s', id, ClaimedBy(t))
  {
    assert BaseOk(s, t, s.threads[t].base);
    Q.ClaimPopsHead(s.q);
  }

  lemma CancelFate(s: State, t: Tid, c: CancelStep, s': State, id: JobId)
    requires Q.Valid(s.q) && CancelNext(s, t, c, s') && Q.Waits(s.q, id) && !Q.Waits(s'.q, id)
    ensures HasFate(s, Cancelling(t, c), s', id, CancelledBy(t))
  {
  }

  lemma ForceFate(s: State, t: Tid, n: NowStep, s': State, id: JobId)
    requires Q.Valid(s.q) && NowNext(s, t, n, s') && Q.Waits(s.q, id) && !Q.Waits(s'.q, id)
    ensures n.Forces? && HasFate(s, ProcessNow(t, n), s', id, ForcedOn(n.u))
    ensures forall u :: u !in s.threads && Runs(s', u, id) ==> u == n.u
  {
  }

  lemma OtherOpsKeepWaiting(q: Q.Queue, op: QueueOp, id: JobId)
    requires Q.Valid(q) && Allowed(q, op) && !op.StartOp? && !op.CancelOp? && Q.Waits(q, id)
    ensures Q.Waits(Applied(q, op), id)
  {
  }

  lemma OtherStepsKeepWaiting(s: State, a: Step, s': State, id: JobId)
    requires QueueOk(s) && ThreadsOk(s) && Next(s, a, s') && (a.Topping? || a.Enqueueing? || a.Waiting?)
            && Q.Waits(s.q, id)
    ensures Q.Waits(s'.q, id)
  {
    StepProgress(s, a, s');
    OtherOpsKeepWaiting(s.q, StepOp(s, a), id);
  }

  /** A waiting job leaves the line by exactly one of three fates; a claim always takes the head. */
  lemma OneFate(s: State, a: Step, s': State, id: JobId) returns (f: Fate)
    requires QueueOk(s) && ThreadsOk(s) && Next(s, a, s') && !a.Life? && Q.Waits(s.q, id) && !Q.Waits(s'.q, id)
    ensures HasFate(s, a, s', id, f)
    ensures forall g :: HasFate(s, a, s', id, g) ==> g == f
  {
    match a
    case Work(t, w) => ClaimFate(s, t, w, s', id); f := ClaimedBy(t);
    case Cancelling(t, c) => CancelFate(s, t, c, s', id); f := CancelledBy(t);
    case ProcessNow(t, n) => ForceFate(s, t, n, s', id); f := ForcedOn(n.u);
    case _ => OtherStepsKeepWaiting(s, a, s', id);
  }

  lemma LeftLineStaysOut(s: State, a: Step, s': State, id: JobId)
    requires Q.Valid(s.q) && a.t in s.threads && Performs(s, StepOp(s, a), s') && !Q.Waits(s.q, id)
    requires StepOp(s, a).EnqueueOp? ==> StepOp(s, a).id != id
    ensures !Q.Waits(s'.q, id)
  {
    if Q.Waits(s'.q, id) { EngineLimits.WaitingShrinks(s.q, StepOp(s, a), id); }
  }

  /** Fates are final: a known job that is not waiting never waits again while the process lives. */
  lemma FateIsFinal(s: State, a: Step, s': State, id: JobId)
    requires QueueOk(s) && ThreadsOk(s) && Next(s, a, s') && !a.Life? && id in s.used && !Q.Waits(s.q, id)
    ensures !Q.Waits(s'.q, id)
  {
    StepFramed(s, a, s');
    StepProgress(s, a, s');
    EnqueuedIsFresh(s, a, s');
    LeftLineStaysOut(s, a, s', id);
  }

  /** In every interleaving the queue behaves as the plain waiting line: one move per step. */
  lemma LineInEveryInterleaving(s: State, a: Step, s': State)
    requires Inv(s) && Next(s, a, s') && !a.Life?
    ensures a.t in s.threads && Q.Valid(s'.q)
    ensures Q.Waiting(s'.q) == MovedLine(Q.Waiting(s.q), StepOp(s, a))
    ensures a.Work? && StepOp(s, a).StartOp? ==> Q.Waiting(s.q) != [] && StepOp(s, a).id == Q.Waiting(s.q)[0]
  {
    StepFramed(s, a, s');
    StepProgress(s, a, s');
    AppliedMovesLine(s.q, StepOp(s, a));
    if a.Work? { Q.ClaimPopsHead(s.q); }
  }

  // ----- what callers are told -----

  /** `process_now` never hands back a job that is still pending. */
  lemma ProcessNowAnswer(run: seq<State>, steps: seq<Step>, k: nat, t: Tid)
    requires IsRun(run, steps) && k < |run| && t in run[k].threads && run[k].threads[t].base.Answered?
    ensures var r := run[k].threads[t].base.result;
            r.Some? ==> r.value in run[k].q.jobs && !run[k].q.jobs[r.value].status.Pending?
  {
    RunInv(run, steps, k);
    assert BaseOk(run[k], t, run[k].threads[t].base);
  }

  /** No job `clear_queue` snapshotted as pending is still waiting once its cancel was tried. */
  lemma ClearedJobsGone(run: seq<State>, steps: seq<Step>, k: nat, t: Tid, id: JobId)
    requires IsRun(run, steps) && k < |run| && t in run[k].threads
    requires run[k].threads[t].base.Clearing? && id in run[k].threads[t].base.done
    ensures !Q.Waits(run[k].q, id)
  {
    RunInv(run, steps, k);
    assert BaseOk(run[k], t, run[k].threads[t].base);
  }

  /** Every running job carries a cancellation handle. */
  lemma RunningJobsCancellable(run: seq<State>, steps: seq<Step>, k: nat, id: JobId)
    requires IsRun(run, steps) && k < |run| && id in run[k].q.jobs && run[k].q.jobs[id].status.Running?
    ensures run[k].q.jobs[id].cancellable
  {
    RunInv(run, steps, k);
  }
}
