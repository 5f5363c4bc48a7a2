/**
 No deadlock. A thread that is not at rest can step, or waits on a thread further down the
 order shutdown, top-up lock, enqueue lock; the end of that chain can always step. A
 worker's completion hook re-entering the queue through top-up is one such thread.

 The queue's own lock is never held across a wait for another lock, so it is one step; the
 handle and log locks are leaves of the order and do not appear. Each group of steps has a
 lemma that hands an unblocked thread in it a step to take.
 */
module EngineProgress {
  import opened Common
  import opened Jobs
  import opened History
  import opened Recovery
  import opened Engine
  import opened EngineInvariant
  import opened EngineLocks
  import opened EngineWaiting
  import EngineLimits
  import Q = Queue

  /** Finished, or asleep on the condition variable until somebody notifies it. */
  predicate AtRest(th: Thread) { th.base.Gone? || th.base == Parked(false) || (th.base.Awaiting? && th.base.parked) }

  /** `t` cannot go on before `u` does. */
  ghost predicate Blocks(s: State, t: Tid, u: Tid) {
    && t in s.threads && u in s.threads
    && ((s.threads[t].enq.AtEnqLock? && s.enqLock == Some(u))
        || (s.threads[t].enq.NoEnq? && s.threads[t].refill.AtTopLock? && s.topLock == Some(u))
        || (s.threads[t].base.Joining? && u in s.threads[t].base.left && !s.threads[u].base.Gone?))
  }

  /** How far up the acquisition order a thread is waiting. */
  function WaitRank(th: Thread): nat {
    if th.enq.AtEnqLock? then 1
    else if th.refill.AtTopLock? then 2
    else if th.base.Joining? then 3
    else 0
  }

  /** Locks are only ever waited for in the order shutdown, top-up, enqueue. */
  lemma WaitsDownOnly(s: State, t: Tid, u: Tid)
    requires ThreadsOk(s) && LocksOk(s) && Blocks(s, t, u)
    ensures WaitRank(s.threads[u]) < WaitRank(s.threads[t])
  {
    assert Ready(s, t) && Ready(s, u);
    assert HasEnq(s, u) <==> s.enqLock == Some(u);
    assert HasTop(s, u) <==> s.topLock == Some(u);
  }

  lemma {:induction false} FreshNat(used: set<nat>) returns (x: nat)
    ensures x !in used
    ensures forall y :: y in used ==> y < x
  {
    x := 0;
    if used != {} {
      var y :| y in used;
      var z := FreshNat(used - {y});
      assert used == (used - {y}) + {y};
      x := if z > y then z else y + 1;
    }
  }

  lemma EnqActs(s: State, t: Tid) returns (e: EnqStep, s': State)
    requires t in s.threads && FrameOk(s, s.threads[t]) && AllKnown(s.q.order, s.q)
    requires !s.threads[t].enq.NoEnq? && !s.threads[t].enq.Returned?
    requires s.threads[t].enq.AtEnqLock? ==> s.enqLock.None?
    ensures EnqNext(s, t, e, s')
  {
    var f := s.threads[t].enq;
    match f
    case Probing(_, _) => e := Skips; s' := MoveEnq(s, t, Returned(None));
    case AtEnqLock(path, kind) => e := Locks; s' := MoveEnq(s.(enqLock := Some(t)), t, Snapshotting(path, kind));
    case Snapshotting(path, kind) => e := ListsJobs; s' := MoveEnq(s, t, Scanning(path, kind, s.q.order));
    case Scanning(path, kind, unread) =>
      if unread == [] { e := Scanned(true); s' := MoveEnq(s, t, Unlocking(None)); }
      else {
        assert unread[0] in unread;
        var job := s.q.jobs[unread[0]];
        e := ScansOne;
        s' := MoveEnq(s, t, if job.path == path && Active(job.status) then Unlocking(None)
            else Scanning(path, kind, unread[1..]));
      }
    case Inserting(path, kind) =>
      var id := FreshNat(s.used);
      var settings := NO_TARGETS;
      e := Inserts(id, settings, None);
      s' := MoveEnq(Notified(s, Q.Enqueue(s.q, id, NewJob(path, kind, settings, None)))
                      .(used := s.used + {id}, refills := if s.threads[t].refill.Calling? then s.refills + {id}
                          else s.refills),
                    t, Recording(id));
    case Recording(id) => e := WritesRow; s' := MoveEnq(s.(rows := Record(s.rows, id, s.q.jobs[id])), t,
        Unlocking(Some(id)));
    case Unlocking(r) => e := Unlocks; s' := MoveEnq(s.(enqLock := None), t, Returned(r));
  }

  lemma RefillActs(s: State, t: Tid) returns (r: RefillStep, s': State)
    requires t in s.threads && FrameOk(s, s.threads[t])
    requires (s.threads[t].enq.NoEnq? && !s.threads[t].refill.NoRefill?)
          || (s.threads[t].enq.Returned? && s.threads[t].refill.Calling?)
    requires s.threads[t].refill.AtTopLock? ==> s.topLock.None?
    ensures RefillNext(s, t, r, s')
  {
    match s.threads[t].refill
    case AtTopLock => r := TakesLock; s' := MoveRefill(s.(topLock := Some(t)), t, AtPause);
    case AtPause => r := ReadsPause(true); s' := MoveRefill(s, t, Leaving);
    case AtCount => r := Lists; s' := MoveRefill(s, t, Counting(s.q.order, 0));
    case Counting(unread, n) =>
      if unread == [] { r := Counted; s' := MoveRefill(s, t, Filling(n)); }
      else {
        assert unread[0] in unread;
        r := CountsOne;
        s' := MoveRefill(s, t, Counting(unread[1..], if s.q.jobs[unread[0]].status.Pending? then n + 1 else n));
      }
    case Filling(n) => r := Stops; s' := MoveRefill(s, t, Leaving);
    case Calling(n) =>
      r := Returns;
      s' := Move(s, t, s.threads[t].(refill := Filling(if s.threads[t].enq.result.Some? then n + 1 else n),
          enq := NoEnq));
    case Leaving => r := DropsLock; s' := MoveRefill(s.(topLock := None), t, NoRefill);
  }

  lemma RunActs(s: State, t: Tid) returns (w: WorkStep, s': State)
    requires At(s, t) && s.threads[t].base.Run? && s.threads[t].base.id in s.q.jobs
    ensures WorkNext(s, t, w, s')
  {
    var id := s.threads[t].base.id;
    match s.threads[t].base.stage
    case RecordStart => w := WritesStart; s' := MoveBase(s.(rows := Record(s.rows, id, s.q.jobs[id])), t,
        Run(id, Launch));
    case Launch => w := Launches; s' := MoveBase(s.(launches := s.launches + [id]), t, Run(id, InPipeline));
    case InPipeline => w := Ends(true); s' := MoveBase(s, t, Run(id, Settling(true)));
    case Settling(ok) => w := Settles(ok); s' := MoveBase(s.(q := Q.Settle(s.q, id, ok)), t, Run(id, RecordEnd));
    case RecordEnd => w := WritesEnd; s' := MoveBase(s.(rows := Record(s.rows, id, s.q.jobs[id])), t, Run(id, Effects));
    case Effects => w := DoesEffects; s' := MoveBase(s, t, Run(id, HookDue));
    case HookDue => w := CallsHook(false); s' := Move(s, t, Thread(Run(id, InHook), NoRefill, NoEnq));
    case InHook => w := Finishes; s' := MoveBase(Notified(s, Q.Release(s.q)), t, if t in s.pool then Idle else Gone);
  }

  lemma NowActs(s: State, t: Tid) returns (n: NowStep, s': State)
    requires At(s, t) && BaseOk(s, t, s.threads[t].base)
    requires var b := s.threads[t].base; b.Finding? || b.Found? || b.Forcing? || b.Resolving? || b.Answered?
    ensures NowNext(s, t, n, s')
  {
    match s.threads[t].base
    case Finding(path, unread) =>
      if unread == [] { n := FindsNone; s' := Move(s, t, Thread(Creating, NoRefill, Probing(path, Downmix))); }
      else {
        assert unread[0] in unread;
        var job := s.q.jobs[unread[0]];
        n := FindsOne;
        s' := MoveBase(s, t, if job.path == path && Active(job.status) then Found(unread[0])
            else Finding(path, unread[1..]));
      }
    case Found(id) => n := Checks; s' := MoveBase(s, t,
        if s.q.jobs[id].status.Pending? then Forcing(id) else Answered(Some(id)));
    case Forcing(id) =>
      var u := FreshNat(s.threads.Keys);
      n := Forces(u);
      var (q', ok) := Q.ForceStart(s.q, id);
      s' := if ok then MoveBase(MoveBase(s.(q := q', forced := s.forced + {u}), u, Run(id, RecordStart)), t,
          Answered(Some(id)))
            else MoveBase(s, t, Resolving(id));
    case Resolving(id) => n := Resolves; s' := MoveBase(s, t,
        Answered(if s.q.jobs[id].status.Pending? then None else Some(id)));
    case Answered(_) => n := Answers; s' := MoveBase(s, t, Free);
  }

  lemma CancelActs(s: State, t: Tid) returns (c: CancelStep, s': State)
    requires At(s, t) && BaseOk(s, t, s.threads[t].base)
            && (s.threads[t].base.DeletingRow? || s.threads[t].base.Clearing?)
    ensures CancelNext(s, t, c, s')
  {
    match s.threads[t].base
    case DeletingRow(id) => c := DeletesRow; s' := Move(s.(rows := Delete(s.rows, id).0), t,
        Thread(Free, AtTopLock, NoEnq));
    case Clearing(unread, todo, done, row) =>
      var b := s.threads[t].base;
      if row.Some? { c := DeletesNext; s' := MoveBase(s.(rows := Delete(s.rows, row.value).0), t, b.(row := None)); }
      else if unread != [] {
        assert unread[0] in unread;
        c := ReadsOne;
        s' := MoveBase(s, t, b.(unread := unread[1..],
            todo := if s.q.jobs[unread[0]].status.Pending? then todo + [unread[0]] else todo));
      } else if todo != [] {
        c := CancelsNext;
        var (q', ok) := Q.Cancel(s.q, todo[0]);
        s' := MoveBase(if ok then Notified(s, q') else s, t,
                       b.(todo := todo[1..], done := done + [todo[0]], row := if ok then Some(todo[0]) else None));
      } else { c := EndsClear; s' := Move(s, t, Thread(Free, AtTopLock, NoEnq)); }
  }

  lemma WaitActs(s: State, t: Tid) returns (w: WaitStep, s': State)
    requires At(s, t) && var b := s.threads[t].base;
             b.Free? || (b.Awaiting? && !b.parked)
                 || (b.Joining? && forall u :: !Blocks(s, t, u) && (u in b.left ==> u in s.threads))
    ensures WaitNext(s, t, w, s')
  {
    match s.threads[t].base
    case Free => w := BeginsWait(UntilIdle); s' := MoveBase(s, t, Awaiting(UntilIdle, false));
    case Awaiting(k, _) => w := ChecksWait; s' := MoveBase(s, t, if Unmet(s.q, k) then Awaiting(k, true) else Free);
    case Joining(left) =>
      if left == {} { w := ShutReturns; s' := MoveBase(s, t, Free); }
      else {
        var u :| u in left;
        assert !Blocks(s, t, u);
        w := Joins(u);
        s' := MoveBase(s, t, Joining(left - {u}));
      }
  }

  lemma ClaimActs(s: State, t: Tid) returns (w: WorkStep, s': State)
    requires At(s, t) && (s.threads[t].base.Idle? || s.threads[t].base == Parked(true)) && AllKnown(s.q.order, s.q)
    ensures WorkNext(s, t, w, s')
  {
    if s.threads[t].base.Idle? {
      w := Claims(true);
      s' := MoveBase(s, t, if s.q.shutdown then Gone else Parked(true));
    } else {
      w := Ticks;
      s' := MoveBase(s, t, Idle);
    }
  }

  /** Waiting for a lock that is taken is waiting for its owner. */
  lemma OwnersBlock(s: State, t: Tid)
    requires LocksOk(s) && t in s.threads
    ensures s.threads[t].enq.AtEnqLock? && s.enqLock.Some? ==> Blocks(s, t, s.enqLock.value)
    ensures s.threads[t].enq.NoEnq? && s.threads[t].refill.AtTopLock? && s.topLock.Some?
            ==> Blocks(s, t, s.topLock.value)
  {
    if s.enqLock.Some? { assert HasEnq(s, s.enqLock.value); }
    if s.topLock.Some? { assert HasTop(s, s.topLock.value); }
  }

  /** A thread that is neither at rest nor blocked has a step of its own. */
  lemma UnblockedActs(s: State, t: Tid) returns (a: Step, s': State)
    requires ThreadsOk(s) && AllKnown(s.q.order, s.q) && LocksOk(s) && t in s.threads
    requires !AtRest(s.threads[t]) && forall u :: !Blocks(s, t, u)
    ensures a.t == t && !a.Life? && Next(s, a, s')
  {
    var th := s.threads[t];
    assert BaseOk(s, t, th.base) && FrameOk(s, th);
    if !th.enq.NoEnq? && !th.enq.Returned? {
      OwnersBlock(s, t);
      var e, x := EnqActs(s, t);
      a, s' := Enqueueing(t, e), x;
    } else if th.enq.Returned? && th.refill.NoRefill? {
      if th.base.Creating? {
        a := ProcessNow(t, Creates);
        s' := MoveBase(s, t, if th.enq.result.None? then Answered(None) else Forcing(th.enq.result.value));
      } else {
        a, s' := Enqueueing(t, Ended), MoveEnq(s, t, NoEnq);
      }
    } else if !th.refill.NoRefill? {
      OwnersBlock(s, t);
      var r, x := RefillActs(s, t);
      a, s' := Topping(t, r), x;
    } else {
      a, s' := QuietActs(s, t);
    }
  }

  lemma QuietActs(s: State, t: Tid) returns (a: Step, s': State)
    requires ThreadsOk(s) && AllKnown(s.q.order, s.q) && At(s, t)
    requires !AtRest(s.threads[t]) && forall u :: !Blocks(s, t, u)
    ensures a.t == t && !a.Life? && Next(s, a, s')
  {
    var b := s.threads[t].base;
    assert BaseOk(s, t, b) && FrameOk(s, s.threads[t]);
    if b.Run? {
      var w, x := RunActs(s, t);
      a, s' := Work(t, w), x;
    } else if b.Idle? || b.Parked? {
      var w, x := ClaimActs(s, t);
      a, s' := Work(t, w), x;
    } else if b.DeletingRow? || b.Clearing? {
      var c, x := CancelActs(s, t);
      a, s' := Cancelling(t, c), x;
    } else if b.Free? || b.Awaiting? || b.Joining? {
      var w, x := WaitActs(s, t);
      a, s' := Waiting(t, w), x;
    } else {
      var n, x := NowActs(s, t);
      a, s' := ProcessNow(t, n), x;
    }
  }

  /** Whoever blocks somebody is not at rest: lock holders are mid-call, and shutdown has woken every worker. */
  lemma BlockerNotAtRest(s: State, t: Tid, u: Tid)
    requires ThreadsOk(s) && LocksOk(s) && WakeOk(s) && Blocks(s, t, u)
    ensures !AtRest(s.threads[u])
  {
    assert Ready(s, t) && Ready(s, u) && ParkOk(s.q, s.threads[u].base);
    assert HasEnq(s, u) <==> s.enqLock == Some(u);
    assert HasTop(s, u) <==> s.topLock == Some(u);
  }

  /** Each thread in the chain waits for the next one. */
  ghost predicate Chain(s: State, chain: seq<Tid>) {
    forall i :: 0 <= i < |chain| - 1 ==> Blocks(s, chain[i], chain[i + 1])
  }

  /** From any thread not at rest, a chain of at most three waits ends in a thread that can step. */
  lemma {:induction false} NoDeadlock(s: State, t: Tid) returns (chain: seq<Tid>, a: Step, s': State)
    requires ThreadsOk(s) && AllKnown(s.q.order, s.q) && LocksOk(s) && WakeOk(s)
    requires t in s.threads && !AtRest(s.threads[t])
    ensures 1 <= |chain| <= WaitRank(s.threads[t]) + 1 && chain[0] == t && Chain(s, chain)
    ensures a.t == chain[|chain| - 1] && !a.Life? && Next(s, a, s')
    decreases WaitRank(s.threads[t])
  {
    if u :| Blocks(s, t, u) {
      WaitsDownOnly(s, t, u);
      BlockerNotAtRest(s, t, u);
      var rest;
      rest, a, s' := NoDeadlock(s, u);
      chain := [t] + rest;
    } else {
      chain := [t];
      a, s' := UnblockedActs(s, t);
    }
  }

  /** In every state of every run, some thread can step on behalf of any thread that is not at rest. */
  lemma NoDeadlockInAnyRun(run: seq<State>, steps: seq<Step>, k: nat, t: Tid) returns (u: Tid, a: Step, s': State)
    requires IsRun(run, steps) && k < |run| && t in run[k].threads && !AtRest(run[k].threads[t])
    ensures a.t == u && !a.Life? && Next(run[k], a, s')
    ensures u == t || exists chain ::
            Chain(run[k], chain) && 2 <= |chain| <= 4 && chain[0] == t && chain[|chain| - 1] == u
  {
    EngineLimits.RunSound(run, steps, k);
    RunWakes(run, steps, k);
    var chain;
    chain, a, s' := NoDeadlock(run[k], t);
    u := chain[|chain| - 1];
  }
}
