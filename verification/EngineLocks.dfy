/**
 Lock discipline and de-duplication: each scheduler lock has one holder, and the duplicate check, although
 it reads statuses outside the queue lock, admits one active job per path.
 */
module EngineLocks {
  import opened Common
  import opened Audio
  import opened Jobs
  import opened Engine
  import opened EngineInvariant
  import opened EngineSafety
  import Q = Queue

  ghost predicate HasEnq(s: State, t: Tid) { t in s.threads && HoldsEnq(s.threads[t].enq) }

  ghost predicate HasTop(s: State, t: Tid) { t in s.threads && HoldsTop(s.threads[t].refill) }

  /** A lock's owner is exactly the thread inside its `with` block. */
  ghost predicate LocksOk(s: State) {
    && (forall t: Tid :: HasEnq(s, t) <==> s.enqLock == Some(t))
    && (forall t: Tid :: HasTop(s, t) <==> s.topLock == Some(t))
  }

  ghost predicate SameHolders(s: State, s': State) {
    && s'.enqLock == s.enqLock && s'.topLock == s.topLock
    && (forall t: Tid :: HasEnq(s', t) <==> HasEnq(s, t)) && (forall t: Tid :: HasTop(s', t) <==> HasTop(s, t))
  }

  /** A step that touches no lock frame keeps every holder. */
  lemma LockFreeKeeps(s: State, t: Tid, s': State)
    requires Framed(s, t, s') && LockFree(s, t, s') && forall u :: u in s.threads ==> u in s'.threads
    ensures SameHolders(s, s')
  {
  }

  /** What a step inside `top_up` or `enqueue_file` may do to one lock: nothing, take it free, or drop it. */
  ghost predicate LockStep(s: State, t: Tid, s': State) {
    && t in s.threads && t in s'.threads
    && (if s'.enqLock == s.enqLock then HoldsEnq(s'.threads[t].enq) == HoldsEnq(s.threads[t].enq)
        else if HoldsEnq(s'.threads[t].enq) then s.enqLock.None? && s'.enqLock == Some(t)
        else HoldsEnq(s.threads[t].enq) && s'.enqLock.None?)
    && (if s'.topLock == s.topLock then HoldsTop(s'.threads[t].refill) == HoldsTop(s.threads[t].refill)
        else if HoldsTop(s'.threads[t].refill) then s.topLock.None? && s'.topLock == Some(t)
        else HoldsTop(s.threads[t].refill) && s'.topLock.None?)
  }

  lemma RefillLockStep(s: State, t: Tid, r: RefillStep, s': State)
    requires LocksOk(s) && RefillNext(s, t, r, s')
    ensures LockStep(s, t, s')
  {
    assert HasTop(s, t) <==> s.topLock == Some(t);
  }

  lemma EnqLockStep(s: State, t: Tid, e: EnqStep, s': State)
    requires LocksOk(s) && EnqNext(s, t, e, s')
    ensures LockStep(s, t, s')
  {
    assert HasEnq(s, t) <==> s.enqLock == Some(t);
  }

  lemma LockStepKeeps(s: State, t: Tid, s': State)
    requires LocksOk(s) && Framed(s, t, s') && LockStep(s, t, s') && s'.threads.Keys == s.threads.Keys
    ensures LocksOk(s')
  {
    assert forall u: Tid :: u != t ==> (HasEnq(s', u) <==> HasEnq(s, u)) && (HasTop(s', u) <==> HasTop(s, u));
    assert HasTop(s, t) <==> s.topLock == Some(t);
    assert HasEnq(s, t) <==> s.enqLock == Some(t);
  }

  lemma LifeLocks(s: State, t: Tid, l: LifeStep, s': State)
    requires LocksOk(s) && PoolOk(s) && LifeNext(s, t, l, s')
    ensures LocksOk(s')
  {
    assert !s.up ==> forall u: Tid :: !HasEnq(s, u) && !HasTop(s, u);
    if !l.Crashes? {
      assert forall u: Tid :: (HasEnq(s', u) <==> HasEnq(s, u)) && (HasTop(s', u) <==> HasTop(s, u));
    }
  }

  lemma LocksKeep(s: State, a: Step, s': State)
    requires LocksOk(s) && PoolOk(s) && ThreadsOk(s) && Next(s, a, s')
    ensures LocksOk(s')
  {
    if a.Life? { LifeLocks(s, a.t, a.life, s'); }
    else {
      StepFramed(s, a, s');
      if a.Topping? { RefillLockStep(s, a.t, a.refill, s'); LockStepKeeps(s, a.t, s'); }
      else if a.Enqueueing? { EnqLockStep(s, a.t, a.enq, s'); LockStepKeeps(s, a.t, s'); }
      else {
        StepKeepsThreads(s, a, s');
        LockFreeKeeps(s, a.t, s');
      }
    }
  }

  lemma StepKeepsThreads(s: State, a: Step, s': State)
    requires ThreadsOk(s) && Next(s, a, s') && !a.Life?
    ensures forall u :: u in s.threads ==> u in s'.threads
  {
    StepFramed(s, a, s');
  }

  // ----- one active job per path -----

  ghost predicate ActiveOn(q: Q.Queue, id: JobId, path: Path) {
    id in q.order && id in q.jobs && q.jobs[id].path == path && Active(q.jobs[id].status)
  }

  ghost predicate OnePerPath(q: Q.Queue) {
    forall a, b, path :: ActiveOn(q, a, path) && ActiveOn(q, b, path) ==> a == b
  }

  /** What the holder of the enqueue lock has established so far. */
  ghost predicate ScanOk(q: Q.Queue, e: Enq) {
    match e
    case Scanning(path, _, unread) => forall id :: ActiveOn(q, id, path) ==> id in unread
    case Inserting(path, _) => forall id :: !ActiveOn(q, id, path)
    case _ => true
  }

  ghost predicate DedupOk(s: State) {
    OnePerPath(s.q) && forall t :: t in s.threads ==> ScanOk(s.q, s.threads[t].enq)
  }

  /** Only an enqueue makes a path active. */
  ghost predicate NoNewActive(q: Q.Queue, q': Q.Queue) {
    forall id, path :: ActiveOn(q', id, path) ==> ActiveOn(q, id, path)
  }

  lemma OtherOpsAddNothing(q: Q.Queue, op: QueueOp)
    requires Q.Valid(q) && Allowed(q, op) && !op.EnqueueOp?
    ensures NoNewActive(q, Applied(q, op))
  {
  }

  lemma ScanSurvives(q: Q.Queue, q': Q.Queue, e: Enq)
    requires NoNewActive(q, q') && ScanOk(q, e)
    ensures ScanOk(q', e)
  {
  }

  lemma EnqScan(s: State, t: Tid, e: EnqStep, s': State)
    requires EnqNext(s, t, e, s') && !e.Inserts? && t in s.threads && ScanOk(s.q, s.threads[t].enq)
    ensures t in s'.threads && ScanOk(s'.q, s'.threads[t].enq)
  {
    if e.ScansOne? {
      var f, f' := s.threads[t].enq, s'.threads[t].enq;
      if f'.Scanning? {
        forall id | ActiveOn(s.q, id, f.path) ensures id in f'.unread {
          assert id in f.unread && f.unread == [f.unread[0]] + f.unread[1..];
        }
      }
    }
  }

  lemma InsertDedup(s: State, t: Tid, id: JobId, settings: DownmixSettings, pref: Option<Preference>, s': State)
    requires DedupOk(s) && LocksOk(s) && Q.Valid(s.q) && InsertJob(s, t, id, settings, pref, s') && id !in s.q.jobs
    ensures DedupOk(s')
  {
    var path := s.threads[t].enq.path;
    assert ScanOk(s.q, s.threads[t].enq);
    forall x, p | ActiveOn(s'.q, x, p) ensures if x == id then p == path else ActiveOn(s.q, x, p) {}
    assert HasEnq(s, t);
    forall u | u in s'.threads ensures ScanOk(s'.q, s'.threads[u].enq) {
      assert u == t || !HasEnq(s, u);
    }
  }

  lemma OtherDedup(s: State, t: Tid, s': State)
    requires DedupOk(s) && NoNewActive(s.q, s'.q) && Framed(s, t, s') && t in s'.threads
            && ScanOk(s'.q, s'.threads[t].enq)
    ensures DedupOk(s')
  {
    forall u | u in s'.threads ensures ScanOk(s'.q, s'.threads[u].enq) {
      if u != t && u in s.threads { ScanSurvives(s.q, s'.q, s.threads[u].enq); }
    }
  }

  lemma DedupKeeps(s: State, a: Step, s': State)
    requires QueueOk(s) && ThreadsOk(s) && LocksOk(s) && DedupOk(s) && Next(s, a, s') && !a.Life?
    ensures DedupOk(s')
  {
    StepFramed(s, a, s');
    if a.Enqueueing? && a.enq.Inserts? {
      InsertDedup(s, a.t, a.enq.id, a.enq.settings, a.enq.pref, s');
    } else {
      StepProgress(s, a, s');
      OtherOpsAddNothing(s.q, StepOp(s, a));
      if a.Enqueueing? { EnqScan(s, a.t, a.enq, s'); }
      else { ScanSurvives(s.q, s'.q, s.threads[a.t].enq); }
      OtherDedup(s, a.t, s');
    }
  }
}
