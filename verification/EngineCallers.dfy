/**
 What callers get back.

 Along every run: Process Now answers with a job for the file it was asked for, and clearing the
 queue leaves none of the jobs that waited when it began.

 Step by step: what a claim takes, what a wait waits for, what is inserted and written, and what
 goes on to a top-up.
 */
module EngineCallers {
  import opened Common
  import opened Audio
  import opened Jobs
  import opened History
  import opened Engine
  import opened EngineInvariant
  import opened EngineSafety
  import opened EngineWaiting
  import Q = Queue

  // ----- Process Now -----

  ghost predicate Asks(a: Step, t: Tid) { a.ProcessNow? && a.t == t && a.now.ListsFor? }

  /** Before step `k` thread `t` was last asked, at step `i`, to process `path` now. */
  ghost predicate AskedAt(steps: seq<Step>, k: nat, t: Tid, path: Path, i: nat)
    requires k <= |steps|
  {
    i < k && steps[i] == ProcessNow(t, ListsFor(path)) && forall m :: i < m < k ==> !Asks(steps[m], t)
  }

  ghost predicate Asked(steps: seq<Step>, k: nat, t: Tid, path: Path)
    requires k <= |steps|
  {
    exists i :: AskedAt(steps, k, t, path, i)
  }

  predicate Asking(b: Base) {
    b.Finding? || b.Found? || b.Forcing? || b.Resolving? || b.Creating? || (b.Answered? && b.result.Some?)
  }

  ghost predicate JobOn(q: Q.Queue, id: JobId, path: Path) { id in q.jobs && q.jobs[id].path == path }

  /** What an `enqueue_file` frame is about, or has made. */
  ghost predicate EnqFor(q: Q.Queue, e: Enq, path: Path) {
    match e
    case NoEnq => true
    case Recording(id) => JobOn(q, id, path)
    case Unlocking(r) => r.Some? ==> JobOn(q, r.value, path)
    case Returned(r) => r.Some? ==> JobOn(q, r.value, path)
    case _ => e.path == path
  }

  ghost predicate Serves(q: Q.Queue, th: Thread, path: Path) {
    match th.base
    case Finding(p, _) => p == path
    case Found(id) => JobOn(q, id, path)
    case Forcing(id) => JobOn(q, id, path)
    case Resolving(id) => JobOn(q, id, path)
    case Answered(r) => r.Some? ==> JobOn(q, r.value, path)
    case Creating => EnqFor(q, th.enq, path)
    case _ => true
  }

  /** Thread `t`, if it serves a Process Now call, serves the file of its last request. */
  ghost predicate ServesAsked(run: seq<State>, steps: seq<Step>, k: nat, t: Tid)
    requires |run| == |steps| + 1 && k <= |steps| && t in run[k].threads
  {
    exists path :: Asked(steps, k, t, path) && Serves(run[k].q, run[k].threads[t], path)
  }

  ghost predicate AllServe(run: seq<State>, steps: seq<Step>, k: nat)
    requires |run| == |steps| + 1 && k <= |steps|
  {
    forall t :: t in run[k].threads && Asking(run[k].threads[t].base) ==> ServesAsked(run, steps, k, t)
  }

  lemma AskedStays(steps: seq<Step>, k: nat, t: Tid, path: Path)
    requires k < |steps| && Asked(steps, k, t, path) && !Asks(steps[k], t)
    ensures Asked(steps, k + 1, t, path)
  {
    var i :| AskedAt(steps, k, t, path, i);
    assert AskedAt(steps, k + 1, t, path, i);
  }

  lemma PathsStay(q: Q.Queue, q': Q.Queue, th: Thread, path: Path)
    requires Progress(q, q') && Serves(q, th, path)
    ensures Serves(q', th, path)
  {
  }

  lemma WorkAway(s: State, t: Tid, w: WorkStep, s': State)
    requires WorkNext(s, t, w, s')
    ensures t in s'.threads && !Asking(s'.threads[t].base)
  {
  }

  lemma RefillAway(s: State, t: Tid, r: RefillStep, s': State)
    requires RefillNext(s, t, r, s') && (t in s.threads ==> FrameOk(s, s.threads[t]))
    ensures t in s'.threads && !Asking(s'.threads[t].base)
  {
  }

  lemma CancelAway(s: State, t: Tid, c: CancelStep, s': State)
    requires CancelNext(s, t, c, s')
    ensures t in s'.threads && !Asking(s'.threads[t].base)
  {
  }

  lemma WaitAway(s: State, t: Tid, w: WaitStep, s': State)
    requires WaitNext(s, t, w, s')
    ensures t in s'.threads && !Asking(s'.threads[t].base)
  {
  }

  /** Each step of a Process Now call keeps to its file. */
  lemma NowServes(s: State, t: Tid, n: NowStep, s': State, path: Path)
    requires NowNext(s, t, n, s') && t in s.threads && Asking(s.threads[t].base) && Serves(s.q, s.threads[t], path)
    ensures t in s'.threads && Serves(s'.q, s'.threads[t], path) && !n.ListsFor?
  {
  }

  lemma NowAsks(s: State, t: Tid, n: NowStep, s': State)
    requires NowNext(s, t, n, s') && t in s.threads && !Asking(s.threads[t].base) && t in s'.threads
            && Asking(s'.threads[t].base)
    ensures n.ListsFor? && Serves(s'.q, s'.threads[t], n.path)
  {
  }

  /** The `enqueue_file` call inside Process Now keeps to the file. */
  lemma EnqServes(s: State, t: Tid, e: EnqStep, s': State, path: Path)
    requires EnqNext(s, t, e, s') && t in s.threads && s.threads[t].base.Creating? && Serves(s.q, s.threads[t], path)
    ensures t in s'.threads && Serves(s'.q, s'.threads[t], path)
  {
  }

  lemma EnqAway(s: State, t: Tid, e: EnqStep, s': State)
    requires EnqNext(s, t, e, s') && (t in s.threads ==> FrameOk(s, s.threads[t]))
    ensures t in s.threads && t in s'.threads && s'.threads[t].base == s.threads[t].base
    ensures Asking(s.threads[t].base) ==> s.threads[t].base.Creating?
  {
  }

  lemma ActorServes(run: seq<State>, steps: seq<Step>, k: nat)
    requires |run| == |steps| + 1 && k < |steps| && Ready(run[k], steps[k].t) && steps[k].t in run[k].threads
    requires Next(run[k], steps[k], run[k + 1]) && !steps[k].Life? && AllServe(run, steps, k)
    requires steps[k].t in run[k + 1].threads && Asking(run[k + 1].threads[steps[k].t].base)
    ensures ServesAsked(run, steps, k + 1, steps[k].t)
  {
    var s, a, s', t := run[k], steps[k], run[k + 1], steps[k].t;
    match a
    case Work(_, w) => WorkAway(s, t, w, s');
    case Topping(_, r) => RefillAway(s, t, r, s');
    case Cancelling(_, c) => CancelAway(s, t, c, s');
    case Waiting(_, w) => WaitAway(s, t, w, s');
    case Enqueueing(_, e) => EnqueueingServes(run, steps, k, e);
    case ProcessNow(_, n) => ProcessNowServes(run, steps, k, n);
  }

  lemma EnqueueingServes(run: seq<State>, steps: seq<Step>, k: nat, e: EnqStep)
    requires |run| == |steps| + 1 && k < |steps| && Ready(run[k], steps[k].t) && steps[k].t in run[k].threads
    requires steps[k].Enqueueing? && EnqNext(run[k], steps[k].t, e, run[k + 1]) && AllServe(run, steps, k)
    requires steps[k].t in run[k + 1].threads && Asking(run[k + 1].threads[steps[k].t].base)
    ensures ServesAsked(run, steps, k + 1, steps[k].t)
  {
    var t := steps[k].t;
    EnqAway(run[k], t, e, run[k + 1]);
    var path :| Asked(steps, k, t, path) && Serves(run[k].q, run[k].threads[t], path);
    EnqServes(run[k], t, e, run[k + 1], path);
    AskedStays(steps, k, t, path);
  }

  lemma ProcessNowServes(run: seq<State>, steps: seq<Step>, k: nat, n: NowStep)
    requires |run| == |steps| + 1 && k < |steps| && steps[k].t in run[k].threads
    requires steps[k] == ProcessNow(steps[k].t, n) && NowNext(run[k], steps[k].t, n, run[k + 1])
            && AllServe(run, steps, k)
    requires steps[k].t in run[k + 1].threads && Asking(run[k + 1].threads[steps[k].t].base)
    ensures ServesAsked(run, steps, k + 1, steps[k].t)
  {
    var t := steps[k].t;
    if Asking(run[k].threads[t].base) {
      var path :| Asked(steps, k, t, path) && Serves(run[k].q, run[k].threads[t], path);
      NowServes(run[k], t, n, run[k + 1], path);
      AskedStays(steps, k, t, path);
    } else {
      NowAsks(run[k], t, n, run[k + 1]);
      assert AskedAt(steps, k + 1, t, n.path, k);
    }
  }

  /** A thread that only sees the queue move, or is woken. */
  lemma BystanderServes(run: seq<State>, steps: seq<Step>, k: nat, t: Tid)
    requires |run| == |steps| + 1 && k < |steps| && Progress(run[k].q, run[k + 1].q) && AllServe(run, steps, k)
    requires t in run[k].threads && t in run[k + 1].threads && !Asks(steps[k], t)
    requires run[k + 1].threads[t] == run[k].threads[t] || run[k + 1].threads[t] == Wake(run[k].threads[t])
    requires Asking(run[k + 1].threads[t].base)
    ensures ServesAsked(run, steps, k + 1, t)
  {
    var path :| Asked(steps, k, t, path) && Serves(run[k].q, run[k].threads[t], path);
    PathsStay(run[k].q, run[k + 1].q, run[k].threads[t], path);
    AskedStays(steps, k, t, path);
  }

  lemma LifeBystander(s: State, t: Tid, l: LifeStep, s': State, u: Tid)
    requires PoolOk(s) && LifeNext(s, t, l, s') && u in s'.threads && Asking(s'.threads[u].base)
    ensures u in s.threads && s'.threads[u] == s.threads[u] && Progress(s.q, s'.q)
  {
  }

  lemma ServesKeep(run: seq<State>, steps: seq<Step>, k: nat)
    requires |run| == |steps| + 1 && k < |steps| && Inv(run[k]) && Next(run[k], steps[k], run[k + 1])
            && AllServe(run, steps, k)
    ensures AllServe(run, steps, k + 1)
  {
    var s, a, s' := run[k], steps[k], run[k + 1];
    if !a.Life? {
      StepFramed(s, a, s');
      StepProgress(s, a, s');
    }
    forall t | t in s'.threads && Asking(s'.threads[t].base) ensures ServesAsked(run, steps, k + 1, t) {
      if a.Life? {
        LifeBystander(s, a.t, a.life, s', t);
        BystanderServes(run, steps, k, t);
      }
      else if t == a.t { ActorServes(run, steps, k); }
      else { BystanderServes(run, steps, k, t); }
    }
  }

  lemma NextServes(run: seq<State>, steps: seq<Step>, k: nat)
    requires IsRun(run, steps) && k < |steps| && AllServe(run, steps, k)
    ensures AllServe(run, steps, k + 1)
  {
    RunInv(run, steps, k);
    RunStep(run, steps, k);
    ServesKeep(run, steps, k);
  }

  lemma {:induction false} RunServes(run: seq<State>, steps: seq<Step>, k: nat)
    requires IsRun(run, steps) && k <= |steps|
    ensures AllServe(run, steps, k)
  {
    if k > 0 {
      RunServes(run, steps, k - 1);
      NextServes(run, steps, k - 1);
    } else {
      assert run[0].threads == map[];
    }
  }

  /** The job `process_now` answers with is for the file it was last asked for, and is not pending. */
  lemma ProcessNowServesItsFile(run: seq<State>, steps: seq<Step>, k: nat, t: Tid, id: JobId)
    returns (path: Path, i: nat)
    requires IsRun(run, steps) && k <= |steps| && t in run[k].threads && run[k].threads[t].base == Answered(Some(id))
    ensures AskedAt(steps, k, t, path, i)
    ensures id in run[k].q.jobs && run[k].q.jobs[id].path == path && !run[k].q.jobs[id].status.Pending?
  {
    RunServes(run, steps, k);
    ProcessNowAnswer(run, steps, k, t);
    assert ServesAsked(run, steps, k, t);
    path :| Asked(steps, k, t, path) && Serves(run[k].q, run[k].threads[t], path);
    i :| AskedAt(steps, k, t, path, i);
  }

  // ----- clearing the queue -----

  ghost predicate Clears(a: Step, t: Tid) { a.Cancelling? && a.t == t && a.cancel.BeginsClear? }

  /** Before step `k` thread `t` last began to clear the queue at step `i`. */
  ghost predicate BeganAt(steps: seq<Step>, k: nat, t: Tid, i: nat)
    requires k <= |steps|
  {
    i < k && steps[i] == Cancelling(t, BeginsClear) && forall m :: i < m < k ==> !Clears(steps[m], t)
  }

  /** What waited then and waits still is still to be looked at or cancelled. */
  ghost predicate Left(was: State, now: State, b: Base)
    requires b.Clearing?
  {
    && was.used <= now.used
    && forall id :: Q.Waits(was.q, id) && Q.Waits(now.q, id) ==> id in b.unread || id in b.todo
  }

  ghost predicate ClearOk(run: seq<State>, steps: seq<Step>, k: nat, t: Tid)
    requires |run| == |steps| + 1 && k <= |steps| && t in run[k].threads && run[k].threads[t].base.Clearing?
  {
    exists i: nat :: BeganAt(steps, k, t, i) && Left(run[i], run[k], run[k].threads[t].base)
  }

  ghost predicate ClearsOk(run: seq<State>, steps: seq<Step>, k: nat)
    requires |run| == |steps| + 1 && k <= |steps|
  {
    forall t :: t in run[k].threads && run[k].threads[t].base.Clearing? ==> ClearOk(run, steps, k, t)
  }

  lemma BeganStays(steps: seq<Step>, k: nat, t: Tid, i: nat)
    requires k < |steps| && BeganAt(steps, k, t, i) && !Clears(steps[k], t)
    ensures BeganAt(steps, k + 1, t, i)
  {
  }

  /** Nothing that had stopped waiting waits again. */
  lemma LeftStays(was: State, s: State, a: Step, s': State, b: Base)
    requires QueueOk(was) && QueueOk(s) && ThreadsOk(s) && Next(s, a, s') && !a.Life? && b.Clearing? && Left(was, s, b)
    ensures Left(was, s', b)
  {
    StepFramed(s, a, s');
    forall id | Q.Waits(was.q, id) && Q.Waits(s'.q, id) ensures id in b.unread || id in b.todo {
      if !Q.Waits(s.q, id) { FateIsFinal(s, a, s', id); }
    }
  }

  lemma ClearMoves(s: State, t: Tid, c: CancelStep, s': State)
    requires CancelNext(s, t, c, s') && t in s.threads && t in s'.threads && s'.threads[t].base.Clearing?
    requires !c.BeginsClear?
    ensures s.threads[t].base.Clearing?
    ensures var b, b' := s.threads[t].base, s'.threads[t].base;
            forall id :: (id in b.unread || id in b.todo) && Q.Waits(s'.q, id) ==> id in b'.unread || id in b'.todo
  {
    var b := s.threads[t].base;
    if b.Clearing? {
      assert b.unread == [] || b.unread == [b.unread[0]] + b.unread[1..];
      assert b.todo == [] || b.todo == [b.todo[0]] + b.todo[1..];
      if c.CancelsNext? { CancelProgress(s.q, b.todo[0]); }
    }
  }

  lemma ClearBegins(s: State, t: Tid, s': State)
    requires CancelNext(s, t, BeginsClear, s')
    ensures t in s'.threads && s'.threads[t].base.Clearing? && s'.used == s.used
    ensures forall id :: Q.Waits(s.q, id) ==> id in s'.threads[t].base.unread
  {
  }

  /** Only a cancel step moves a thread that is clearing. */
  lemma ClearActor(s: State, a: Step, s': State)
    requires ThreadsOk(s) && Next(s, a, s') && !a.Life? && !a.Cancelling? && a.t in s.threads && a.t in s'.threads
    ensures !s'.threads[a.t].base.Clearing?
  {
    match a
    case Work(t, w) => WorkNoClear(s, t, w, s');
    case Topping(t, r) => RefillNoClear(s, t, r, s');
    case Enqueueing(t, e) => EnqAway(s, t, e, s'); EnqNoClear(s, t, e, s');
    case ProcessNow(t, n) => NowNoClear(s, t, n, s');
    case Waiting(t, w) => WaitNoClear(s, t, w, s');
  }

  lemma WorkNoClear(s: State, t: Tid, w: WorkStep, s': State)
    requires WorkNext(s, t, w, s')
    ensures t in s'.threads && !s'.threads[t].base.Clearing?
  {
  }

  lemma RefillNoClear(s: State, t: Tid, r: RefillStep, s': State)
    requires RefillNext(s, t, r, s') && (t in s.threads ==> FrameOk(s, s.threads[t]))
    ensures t in s'.threads && !s'.threads[t].base.Clearing?
  {
  }

  lemma EnqNoClear(s: State, t: Tid, e: EnqStep, s': State)
    requires EnqNext(s, t, e, s') && (t in s.threads ==> FrameOk(s, s.threads[t]))
    ensures t in s'.threads && !s'.threads[t].base.Clearing?
  {
  }

  lemma NowNoClear(s: State, t: Tid, n: NowStep, s': State)
    requires NowNext(s, t, n, s')
    ensures t in s'.threads && !s'.threads[t].base.Clearing?
  {
  }

  lemma WaitNoClear(s: State, t: Tid, w: WaitStep, s': State)
    requires WaitNext(s, t, w, s')
    ensures t in s'.threads && !s'.threads[t].base.Clearing?
  {
  }

  lemma ActorClears(run: seq<State>, steps: seq<Step>, k: nat, c: CancelStep)
    requires |run| == |steps| + 1 && k < |steps| && steps[k] == Cancelling(steps[k].t, c)
    requires QueueOk(run[k]) && ThreadsOk(run[k]) && Next(run[k], steps[k], run[k + 1]) && ClearsOk(run, steps, k)
    requires steps[k].t in run[k].threads && steps[k].t in run[k + 1].threads
    requires run[k + 1].threads[steps[k].t].base.Clearing?
    requires forall i: nat :: i <= k ==> QueueOk(run[i])
    ensures ClearOk(run, steps, k + 1, steps[k].t)
  {
    var s, s', t := run[k], run[k + 1], steps[k].t;
    if c.BeginsClear? {
      ClearBegins(s, t, s');
      assert BeganAt(steps, k + 1, t, k) && Left(run[k], s', s'.threads[t].base);
    } else {
      ClearMoves(s, t, c, s');
      var i: nat :| BeganAt(steps, k, t, i) && Left(run[i], s, s.threads[t].base);
      LeftStays(run[i], s, steps[k], s', s.threads[t].base);
      BeganStays(steps, k, t, i);
      assert Left(run[i], s', s'.threads[t].base);
    }
  }

  lemma BystanderClears(run: seq<State>, steps: seq<Step>, k: nat, t: Tid)
    requires |run| == |steps| + 1 && k < |steps| && !steps[k].Life? && steps[k].t != t
    requires QueueOk(run[k]) && ThreadsOk(run[k]) && Next(run[k], steps[k], run[k + 1]) && ClearsOk(run, steps, k)
    requires t in run[k].threads && t in run[k + 1].threads && run[k + 1].threads[t].base.Clearing?
    requires run[k + 1].threads[t] == run[k].threads[t] || run[k + 1].threads[t] == Wake(run[k].threads[t])
    requires forall i: nat :: i <= k ==> QueueOk(run[i])
    ensures ClearOk(run, steps, k + 1, t)
  {
    var i: nat :| BeganAt(steps, k, t, i) && Left(run[i], run[k], run[k].threads[t].base);
    LeftStays(run[i], run[k], steps[k], run[k + 1], run[k].threads[t].base);
    BeganStays(steps, k, t, i);
  }

  lemma LifeClears(run: seq<State>, steps: seq<Step>, k: nat, t: Tid)
    requires |run| == |steps| + 1 && k < |steps| && steps[k].Life? && PoolOk(run[k])
    requires LifeNext(run[k], steps[k].t, steps[k].life, run[k + 1]) && ClearsOk(run, steps, k)
    requires t in run[k + 1].threads && run[k + 1].threads[t].base.Clearing?
    ensures ClearOk(run, steps, k + 1, t)
  {
    LifeKeepsClears(run[k], steps[k].t, steps[k].life, run[k + 1], t);
    var i: nat :| BeganAt(steps, k, t, i) && Left(run[i], run[k], run[k].threads[t].base);
    BeganStays(steps, k, t, i);
  }

  lemma LifeKeepsClears(s: State, t: Tid, l: LifeStep, s': State, u: Tid)
    requires PoolOk(s) && LifeNext(s, t, l, s') && u in s'.threads && s'.threads[u].base.Clearing?
    ensures u in s.threads && s'.threads[u] == s.threads[u] && s'.q == s.q && s'.used == s.used
  {
  }

  lemma ClearsKeep(run: seq<State>, steps: seq<Step>, k: nat)
    requires |run| == |steps| + 1 && k < |steps| && Inv(run[k]) && Next(run[k], steps[k], run[k + 1])
    requires ClearsOk(run, steps, k) && forall i: nat :: i <= k ==> QueueOk(run[i])
    ensures ClearsOk(run, steps, k + 1)
  {
    var s, a, s' := run[k], steps[k], run[k + 1];
    if !a.Life? { StepFramed(s, a, s'); }
    forall t | t in s'.threads && s'.threads[t].base.Clearing? ensures ClearOk(run, steps, k + 1, t) {
      if a.Life? { LifeClears(run, steps, k, t); }
      else if t != a.t { BystanderClears(run, steps, k, t); }
      else if a.Cancelling? { ActorClears(run, steps, k, a.cancel); }
      else { ClearActor(s, a, s'); }
    }
  }

  lemma NextClears(run: seq<State>, steps: seq<Step>, k: nat)
    requires IsRun(run, steps) && k < |steps| && ClearsOk(run, steps, k)
    ensures ClearsOk(run, steps, k + 1)
  {
    forall i: nat | i <= k ensures QueueOk(run[i]) { RunInv(run, steps, i); }
    RunInv(run, steps, k);
    RunStep(run, steps, k);
    ClearsKeep(run, steps, k);
  }

  lemma {:induction false} RunClears(run: seq<State>, steps: seq<Step>, k: nat)
    requires IsRun(run, steps) && k <= |steps|
    ensures ClearsOk(run, steps, k)
  {
    if k > 0 {
      RunClears(run, steps, k - 1);
      NextClears(run, steps, k - 1);
    } else {
      assert run[0].threads == map[];
    }
  }

  lemma ClearDone(s: State, t: Tid, s': State)
    requires CancelNext(s, t, EndsClear, s')
    ensures t in s.threads && s.threads[t].base.Clearing? && s'.q == s.q
    ensures s.threads[t].base.unread == [] && s.threads[t].base.todo == []
  {
  }

  /** When `clear_queue` is through, no job that waited when it began is waiting. */
  lemma ClearEmptiesTheLine(run: seq<State>, steps: seq<Step>, k: nat, t: Tid) returns (i: nat)
    requires IsRun(run, steps) && k < |steps| && steps[k] == Cancelling(t, EndsClear)
    ensures BeganAt(steps, k, t, i)
    ensures forall id :: Q.Waits(run[i].q, id) ==> !Q.Waits(run[k + 1].q, id)
  {
    RunClears(run, steps, k);
    RunStep(run, steps, k);
    ClearDone(run[k], t, run[k + 1]);
    assert ClearOk(run, steps, k, t);
    i :| BeganAt(steps, k, t, i) && Left(run[i], run[k], run[k].threads[t].base);
  }

  // ----- single steps -----

  /** A worker at the claim section takes the head of the line exactly when the gate is open and something waits. */
  lemma ClaimsWhenOpen(s: State, t: Tid, paused: bool, s': State)
    requires Inv(s) && WorkNext(s, t, Claims(paused), s')
    ensures t in s.threads && t in s'.threads
    ensures var open := !s.q.shutdown && !paused && Q.Waiting(s.q) != [];
            && (s'.threads[t].base.Run? <==> open)
            && (if open then Runs(s', t, Q.Waiting(s.q)[0]) else s'.q == s.q)
  {
    Q.ClaimPopsHead(s.q);
  }

  /** Process Now answers with nothing only when no job was made, or when the job found or made is still pending. */
  lemma NothingMeansNotStarted(s: State, t: Tid, n: NowStep, s': State)
    requires NowNext(s, t, n, s') && t in s.threads && s.threads[t].base != Answered(None)
    requires t in s'.threads && s'.threads[t].base == Answered(None)
    ensures || (s.threads[t].base.Creating? && s.threads[t].enq == Returned(None))
            || (s.threads[t].base.Resolving? && s.threads[t].base.id in s.q.jobs
                && s.q.jobs[s.threads[t].base.id].status.Pending?)
  {
  }

  /**
   Forcing a waiting job of a live queue starts it on the new thread and answers with it; otherwise
   nothing changes.
   */
  lemma ForcesTheJob(s: State, t: Tid, u: Tid, s': State)
    requires NowNext(s, t, Forces(u), s')
    ensures t in s.threads && s.threads[t].base.Forcing? && t in s'.threads && u !in s.threads
    ensures var id := s.threads[t].base.id;
            if Q.Waits(s.q, id) && !s.q.shutdown
            then s'.threads[t].base == Answered(Some(id)) && Runs(s', u, id) && s'.q.jobs[id].status.Running?
            else s'.threads[t].base == Resolving(id) && s'.q == s.q && u !in s'.threads
  {
  }

  /** Cancelling a pending job ends with its row gone and every other row as it was. */
  lemma CancelDropsTheRow(s: State, t: Tid, c: CancelStep, s': State)
    requires CancelNext(s, t, c, s') && (c.DeletesRow? || c.DeletesNext?) && DistinctKeys(s.rows)
    ensures t in s.threads && (c.DeletesRow? ==> s.threads[t].base.DeletingRow?)
    ensures c.DeletesNext? ==> s.threads[t].base.Clearing? && s.threads[t].base.row.Some?
    ensures var id := if c.DeletesRow? then s.threads[t].base.id else s.threads[t].base.row.value;
            forall r :: r in s'.rows <==> r in s.rows && r.key != Uuid(id)
  {
    DeleteMembers(s.rows, if c.DeletesRow? then s.threads[t].base.id else s.threads[t].base.row.value);
  }

  /** A queued job's row says what the job says at that moment, and every other row is as it was. */
  lemma QueuedRowWritten(s: State, t: Tid, s': State)
    requires EnqNext(s, t, WritesRow, s') && DistinctKeys(s.rows)
    ensures t in s.threads && s.threads[t].enq.Recording? && s.threads[t].enq.id in s.q.jobs
    ensures var id := s.threads[t].enq.id; var job := s.q.jobs[id];
            forall r :: r in s'.rows <==>
              r == Row(Uuid(id), job.path, job.kind, job.priority, job.status) || (r in s.rows && r.key != Uuid(id))
  {
    RecordMembers(s.rows, s.threads[t].enq.id, s.q.jobs[s.threads[t].enq.id]);
  }

  /** A file the recently-processed window covers is not queued. */
  lemma RecentIsSkipped(s: State, t: Tid, s': State, e: EnqStep, s'': State)
    requires EnqNext(s, t, Scanned(true), s') && EnqNext(s', t, e, s'')
    ensures e.Unlocks? && s''.q == s.q && s''.rows == s.rows && s''.enqLock.None?
    ensures t in s''.threads && s''.threads[t].enq == Returned(None)
  {
  }

  /** After its job a pool worker is back at the claim section; a Process Now thread is gone. */
  lemma FinishedWorkerReturns(s: State, t: Tid, s': State)
    requires ThreadsOk(s) && WorkNext(s, t, Finishes, s')
    ensures t in s'.threads && s'.q.active == s.q.active - 1
    ensures (t in s.pool ==> s'.threads[t].base.Idle?) && (t in s.forced ==> s'.threads[t].base.Gone?)
  {
  }

  /** `wait_idle` and `wait_no_running` return exactly when what they wait for has come about. */
  lemma ReturnsWhenMet(s: State, t: Tid, s': State)
    requires WaitNext(s, t, ChecksWait, s')
    ensures t in s.threads && s.threads[t].base.Awaiting? && t in s'.threads
    ensures s.threads[t].base.wait.UntilIdle? ==>
              (s'.threads[t].base.Free? <==> s.q.active <= 0 && forall id :: !Q.Waits(s.q, id))
    ensures s.threads[t].base.wait.UntilNoneRunning? ==> (s'.threads[t].base.Free? <==> s.q.active <= 0)
  {
  }

  /** A cancel that cancelled something, the end of a clear and a finished job all go on to a top-up. */
  lemma ThenTopsUp(s: State, a: Step, s': State)
    requires Next(s, a, s') && a.t in s'.threads
    requires (a.Work? && a.work.CallsHook?) || (a.Cancelling? && !a.cancel.Bumps? && !a.cancel.CancelsPending?)
    ensures a.Work? ==> (s'.threads[a.t].refill.AtTopLock? <==> a.work.wired)
    ensures a.Cancelling? ==>
              (s'.threads[a.t].refill.AtTopLock? <==>
                a.cancel.DeletesRow? || a.cancel.CancelsRunning? || a.cancel.EndsClear?)
    ensures s'.q == s.q || a.cancel.CancelsNext?
  {
    match a
    case Work(_, _) =>
    case Cancelling(t, c) => TopsUpAfterCancel(s, t, c, s');
  }

  lemma TopsUpAfterCancel(s: State, t: Tid, c: CancelStep, s': State)
    requires CancelNext(s, t, c, s') && t in s'.threads && !c.Bumps? && !c.CancelsPending?
    ensures s'.threads[t].refill.AtTopLock? <==> c.DeletesRow? || c.CancelsRunning? || c.EndsClear?
    ensures s'.q == s.q || c.CancelsNext?
  {
  }

  /** A pass counts a job exactly when it reads it waiting, and then each job its own calls make. */
  lemma CountsWhatWaits(s: State, t: Tid, r: RefillStep, s': State)
    requires RefillNext(s, t, r, s')
    ensures t in s.threads && t in s'.threads
    ensures var before, after := s.threads[t].refill, s'.threads[t].refill;
            && (r.CountsOne? ==>
                 && before.Counting? && before.unread != [] && before.unread[0] in s.q.jobs
                 && after == Counting(before.unread[1..],
                                 before.n + if s.q.jobs[before.unread[0]].status.Pending? then 1 else 0))
            && (r.Counted? ==> before.Counting? && before.unread == [] && after == Filling(before.n))
            && (r.Returns? ==>
                 && before.Calling? && s.threads[t].enq.Returned?
                 && after == Filling(before.n + if s.threads[t].enq.result.Some? then 1 else 0))
  {
  }

  /** A top-up that finds auto-queuing paused goes on to nothing but giving its lock back. */
  lemma PausedTopUpLeaves(s: State, t: Tid, s': State, r: RefillStep, s'': State)
    requires RefillNext(s, t, ReadsPause(true), s') && RefillNext(s', t, r, s'')
    ensures r.DropsLock? && s'.q == s.q && s''.q == s.q && s''.topLock.None?
  {
  }

  /** The job a thread inserts is for its file, as it was asked, pending behind everything that waits. */
  lemma InsertsTheJob(s: State, t: Tid, id: JobId, settings: DownmixSettings, pref: Option<Preference>, s': State)
    requires EnqNext(s, t, Inserts(id, settings, pref), s')
    ensures t in s.threads && s.threads[t].enq.Inserting? && id !in s.used && id in s'.q.jobs && id in s'.q.order
    ensures var e, job := s.threads[t].enq, s'.q.jobs[id];
            && job.path == e.path && job.kind == e.kind && job.settings == settings && job.preference == pref
            && job.status.Pending? && job.priority == s.q.nextPriority && s'.q.nextPriority == s.q.nextPriority + 1
  {
    assert s'.q.order[|s.q.order|] == id;
  }
}
