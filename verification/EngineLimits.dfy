/**
 The auto-queue limit within one life of the process.

 However calls interleave, of the jobs top-up creates from any moment on, never more than the limit
 are waiting.

 The count is taken once per pass, from statuses read one at a time outside the queue lock; what it
 has looked past can only shrink.
 */
module EngineLimits {
  import opened Common
  import opened Audio
  import opened Jobs
  import opened Engine
  import opened EngineInvariant
  import opened EngineSafety
  import opened EngineLocks
  import Q = Queue

  /** The jobs top-up created, apart from those in `prior`, that are waiting. */
  ghost function WaitingRefills(s: State, prior: set<JobId>): set<JobId> {
    set id | id in s.refills && id !in prior && Q.Waits(s.q, id)
  }

  /** Those a count has looked past: the waiting refills outside the part of the snapshot still unread. */
  ghost function Passed(s: State, prior: set<JobId>, unread: seq<JobId>): set<JobId>
  {
    set id | id in WaitingRefills(s, prior) && id !in unread
  }

  /** What the holder of the top-up lock knows: its count covers every waiting refill it has looked past. */
  ghost predicate CountOk(s: State, prior: set<JobId>, th: Thread) {
    match th.refill
    case Counting(unread, n) => |Passed(s, prior, unread)| <= n
    case Filling(n) => |WaitingRefills(s, prior)| <= n
    case Calling(n) =>
      n < AUTO_QUEUE_LIMIT && |WaitingRefills(s, prior)| <= if Inserted(th.enq) then n + 1 else n
    case _ => true
  }

  predicate Inserted(e: Enq) {
    e.Recording? || (e.Unlocking? && e.result.Some?) || (e.Returned? && e.result.Some?)
  }

  ghost predicate LimitOk(s: State, prior: set<JobId>) {
    && |WaitingRefills(s, prior)| <= AUTO_QUEUE_LIMIT
    && (forall id :: id in s.refills ==> id in s.used)
    && forall t :: t in s.threads ==> CountOk(s, prior, s.threads[t])
  }

  lemma SubsetSize<T>(a: set<T>, b: set<T>)
    requires a <= b
    ensures |a| <= |b|
  {
    assert b == a + (b - a);
  }

  /** Fewer waiting refills never hurt a count. */
  lemma CountSurvives(s: State, prior: set<JobId>, s': State, th: Thread, th': Thread)
    requires WaitingRefills(s', prior) <= WaitingRefills(s, prior) && CountOk(s, prior, th)
    requires th'.refill == th.refill && (th.refill.Calling? ==> Inserted(th'.enq) == Inserted(th.enq))
    ensures CountOk(s', prior, th')
  {
    SubsetSize(WaitingRefills(s', prior), WaitingRefills(s, prior));
    if th.refill.Counting? {
      SubsetSize(Passed(s', prior, th.refill.unread), Passed(s, prior, th.refill.unread));
    }
  }

  /** Once no longer waiting, never waiting again. */
  lemma WaitingShrinks(q: Q.Queue, op: QueueOp, id: JobId)
    requires Q.Valid(q) && Allowed(q, op) && Q.Waits(Applied(q, op), id)
    ensures Q.Waits(q, id) || (op.EnqueueOp? && op.id == id)
  {
  }

  // ----- one top-up step -----

  lemma CountOneOk(s: State, prior: set<JobId>, t: Tid, s': State)
    requires CountOne(s, t, s') && CountOk(s, prior, s.threads[t])
    ensures CountOk(s', prior, s'.threads[t])
  {
    var c := s.threads[t].refill;
    var head, rest := c.unread[0], c.unread[1..];
    assert c.unread == [head] + rest;
    var before, after := Passed(s, prior, c.unread), Passed(s', prior, rest);
    assert WaitingRefills(s', prior) == WaitingRefills(s, prior);
    if s.q.jobs[head].status.Pending? {
      SubsetSize(after, before + {head});
    } else {
      assert head !in WaitingRefills(s, prior);
      assert after <= before;
      SubsetSize(after, before);
    }
  }

  lemma CountDoneOk(s: State, prior: set<JobId>, t: Tid, s': State)
    requires CountDone(s, t, s') && CountOk(s, prior, s.threads[t])
    ensures CountOk(s', prior, s'.threads[t])
  {
    assert Passed(s, prior, s.threads[t].refill.unread) == WaitingRefills(s, prior);
    assert WaitingRefills(s', prior) == WaitingRefills(s, prior);
  }

  lemma ListForCountOk(s: State, prior: set<JobId>, t: Tid, s': State)
    requires ListForCount(s, t, s')
    ensures CountOk(s', prior, s'.threads[t])
  {
    assert Passed(s', prior, s'.threads[t].refill.unread) == {};
  }

  lemma RefillCount(s: State, prior: set<JobId>, t: Tid, r: RefillStep, s': State)
    requires RefillNext(s, t, r, s') && t in s.threads && CountOk(s, prior, s.threads[t])
    ensures t in s'.threads && CountOk(s', prior, s'.threads[t]) && s'.refills == s.refills
  {
    if r.CountsOne? { CountOneOk(s, prior, t, s'); }
    else if r.Counted? { CountDoneOk(s, prior, t, s'); }
    else if r.Lists? { ListForCountOk(s, prior, t, s'); }
    else { assert WaitingRefills(s', prior) == WaitingRefills(s, prior); }
  }

  // ----- one enqueue step -----

  lemma EnqCount(s: State, prior: set<JobId>, t: Tid, e: EnqStep, s': State)
    requires EnqNext(s, t, e, s') && !e.Inserts? && t in s.threads && CountOk(s, prior, s.threads[t])
    requires FrameOk(s, s.threads[t])
    ensures t in s'.threads && CountOk(s', prior, s'.threads[t]) && s'.refills == s.refills && s'.q == s.q
  {
    assert s'.q == s.q && s'.refills == s.refills;
    assert WaitingRefills(s', prior) == WaitingRefills(s, prior);
    CountSurvives(s, prior, s', s.threads[t], s'.threads[t]);
  }

  lemma InsertedWaiting(s: State, prior: set<JobId>, t: Tid, id: JobId, settings: DownmixSettings,
                        pref: Option<Preference>, s': State)
    requires (forall x :: x in s.refills ==> x in s.used)
    requires InsertJob(s, t, id, settings, pref, s') && id !in s.q.jobs && id !in s.q.order
    ensures WaitingRefills(s', prior) <= WaitingRefills(s, prior) + if s.threads[t].refill.Calling? then {id} else {}
    ensures forall x :: x in s'.refills ==> x in s'.used
  {
  }

  /** The top-up thread inserts: nobody else holds the top-up lock, and its own count had room. */
  lemma RefillInserted(s: State, prior: set<JobId>, t: Tid, id: JobId, s': State)
    requires LocksOk(s) && Framed(s, t, s') && t in s'.threads
            && WaitingRefills(s', prior) <= WaitingRefills(s, prior) + {id}
    requires CountOk(s, prior, s.threads[t]) && s.threads[t].refill.Calling? && !Inserted(s.threads[t].enq)
    requires s'.threads[t].refill == s.threads[t].refill && Inserted(s'.threads[t].enq)
    ensures |WaitingRefills(s', prior)| <= AUTO_QUEUE_LIMIT
    ensures forall u :: u in s'.threads ==> CountOk(s', prior, s'.threads[u])
  {
    SubsetSize(WaitingRefills(s', prior), WaitingRefills(s, prior) + {id});
    assert HasTop(s, t) && forall u :: HasTop(s, u) ==> u == t;
    forall u | u in s'.threads ensures CountOk(s', prior, s'.threads[u]) {
      assert u == t || !HasTop(s, u);
    }
  }

  lemma InsertShape(s: State, t: Tid, id: JobId, settings: DownmixSettings, pref: Option<Preference>, s': State)
    requires InsertJob(s, t, id, settings, pref, s')
    ensures t in s.threads && t in s'.threads && s'.threads[t].refill == s.threads[t].refill
    ensures !Inserted(s.threads[t].enq) && Inserted(s'.threads[t].enq)
  {
  }

  lemma InsertCount(s: State, prior: set<JobId>, t: Tid, id: JobId, settings: DownmixSettings, pref: Option<Preference>,
                    s': State)
    requires LimitOk(s, prior) && LocksOk(s) && InsertJob(s, t, id, settings, pref, s') && id !in s.q.jobs
            && id !in s.q.order
    requires Framed(s, t, s') && FrameOk(s, s.threads[t])
    ensures LimitOk(s', prior)
  {
    InsertedWaiting(s, prior, t, id, settings, pref, s');
    InsertShape(s, t, id, settings, pref, s');
    assert CountOk(s, prior, s.threads[t]);
    if s.threads[t].refill.Calling? {
      RefillInserted(s, prior, t, id, s');
    } else {
      SubsetSize(WaitingRefills(s', prior), WaitingRefills(s, prior));
      forall u | u in s'.threads ensures CountOk(s', prior, s'.threads[u]) {
        if u in s.threads { CountSurvives(s, prior, s', s.threads[u], s'.threads[u]); }
      }
    }
  }

  // ----- every other step -----

  lemma OtherLimits(s: State, prior: set<JobId>, t: Tid, s': State)
    requires LimitOk(s, prior) && Framed(s, t, s') && t in s'.threads && CountOk(s', prior, s'.threads[t])
    requires WaitingRefills(s', prior) <= WaitingRefills(s, prior) && s'.refills == s.refills && s.used <= s'.used
    ensures LimitOk(s', prior)
  {
    SubsetSize(WaitingRefills(s', prior), WaitingRefills(s, prior));
    forall u | u in s'.threads ensures CountOk(s', prior, s'.threads[u]) {
      if u != t && u in s.threads { CountSurvives(s, prior, s', s.threads[u], s'.threads[u]); }
    }
  }

  lemma RefillsShrink(s: State, prior: set<JobId>, a: Step, s': State)
    requires QueueOk(s) && ThreadsOk(s) && Next(s, a, s') && !a.Life? && !(a.Enqueueing? && a.enq.Inserts?)
            && s'.refills == s.refills
    ensures WaitingRefills(s', prior) <= WaitingRefills(s, prior)
  {
    StepFramed(s, a, s');
    StepProgress(s, a, s');
    forall id | id in WaitingRefills(s', prior) ensures id
        in WaitingRefills(s, prior) { WaitingShrinks(s.q, StepOp(s, a), id); }
  }

  lemma LimitKeeps(s: State, prior: set<JobId>, a: Step, s': State)
    requires Inv(s) && LocksOk(s) && LimitOk(s, prior) && Next(s, a, s') && !a.Life?
    ensures LimitOk(s', prior)
  {
    StepFramed(s, a, s');
    assert Ready(s, a.t) && CountOk(s, prior, s.threads[a.t]);
    if a.Enqueueing? && a.enq.Inserts? {
      InsertCount(s, prior, a.t, a.enq.id, a.enq.settings, a.enq.pref, s');
    } else {
      if a.Enqueueing? { EnqCount(s, prior, a.t, a.enq, s'); }
      else if a.Topping? { RefillCount(s, prior, a.t, a.refill, s'); }
      RefillsShrink(s, prior, a, s');
      OtherLimits(s, prior, a.t, s');
    }
  }

  // ----- over a stretch of a run -----

  /** A crash, an aborted boot or a boot. */
  predicate Restarts(a: Step) { a.Life? && (a.life.Crashes? || a.life.AbortsBoot? || a.life.Boots?) }

  lemma NewThreadsLimits(s: State, prior: set<JobId>, a: Step, s': State)
    requires PoolOk(s) && LimitOk(s, prior) && Next(s, a, s') && a.Life? && !Restarts(a)
    ensures LimitOk(s', prior)
  {
    assert WaitingRefills(s', prior) == WaitingRefills(s, prior);
    forall u | u in s'.threads ensures CountOk(s', prior, s'.threads[u]) {
      if u in s.threads { CountSurvives(s, prior, s', s.threads[u], s'.threads[u]); }
    }
  }

  lemma LifeLimitKeeps(s: State, prior: set<JobId>, a: Step, s': State)
    requires Inv(s) && LocksOk(s) && LimitOk(s, prior) && Next(s, a, s') && !Restarts(a)
    ensures LimitOk(s', prior)
  {
    if a.Life? { NewThreadsLimits(s, prior, a, s'); } else { LimitKeeps(s, prior, a, s'); }
  }

  /** Top-up calls `enqueue_file` only while its count is under the limit. */
  ghost predicate RoomOk(s: State) {
    forall t :: t in s.threads && s.threads[t].refill.Calling? ==> s.threads[t].refill.n < AUTO_QUEUE_LIMIT
  }

  ghost predicate RefillsUsed(s: State) { forall id :: id in s.refills ==> id in s.used }

  lemma RefillRoom(s: State, t: Tid, r: RefillStep, s': State)
    requires RefillNext(s, t, r, s') && t in s.threads && t in s'.threads
    requires s.threads[t].refill.Calling? ==> s.threads[t].refill.n < AUTO_QUEUE_LIMIT
    ensures s'.threads[t].refill.Calling? ==> s'.threads[t].refill.n < AUTO_QUEUE_LIMIT
  {
  }

  lemma EnqKeepsRefill(s: State, t: Tid, e: EnqStep, s': State)
    requires EnqNext(s, t, e, s')
    ensures t in s.threads && t in s'.threads && s'.threads[t].refill == s.threads[t].refill
  {
  }

  lemma ActorRoom(s: State, a: Step, s': State)
    requires ThreadsOk(s) && RoomOk(s) && Next(s, a, s') && !a.Life? && a.t in s.threads && a.t in s'.threads
    ensures s'.threads[a.t].refill.Calling? ==> s'.threads[a.t].refill.n < AUTO_QUEUE_LIMIT
  {
    if a.Topping? { RefillRoom(s, a.t, a.refill, s'); }
    else if a.Enqueueing? { EnqKeepsRefill(s, a.t, a.enq, s'); }
    else { StepFramed(s, a, s'); }
  }

  /** Another thread keeps its top-up frame, or has just appeared without one. */
  lemma OthersRoom(s: State, t: Tid, s': State)
    requires RoomOk(s) && Framed(s, t, s')
    requires t in s'.threads && s'.threads[t].refill.Calling? ==> s'.threads[t].refill.n < AUTO_QUEUE_LIMIT
    ensures RoomOk(s')
  {
  }

  lemma LifeRoom(s: State, t: Tid, l: LifeStep, s': State)
    requires PoolOk(s) && RoomOk(s) && LifeNext(s, t, l, s')
    ensures RoomOk(s')
  {
  }

  lemma RoomKeeps(s: State, a: Step, s': State)
    requires PoolOk(s) && ThreadsOk(s) && RoomOk(s) && Next(s, a, s')
    ensures RoomOk(s')
  {
    if a.Life? { LifeRoom(s, a.t, a.life, s'); }
    else {
      StepFramed(s, a, s');
      ActorRoom(s, a, s');
      OthersRoom(s, a.t, s');
    }
  }

  lemma RefillsStayUsed(s: State, a: Step, s': State)
    requires ThreadsOk(s) && RefillsUsed(s) && Next(s, a, s')
    ensures RefillsUsed(s')
  {
    if !a.Life? { StepFramed(s, a, s'); }
  }

  ghost predicate Sound(s: State) { LocksOk(s) && RoomOk(s) && RefillsUsed(s) }

  lemma SoundKeeps(s: State, a: Step, s': State)
    requires Inv(s) && Sound(s) && Next(s, a, s')
    ensures Sound(s')
  {
    LocksKeep(s, a, s');
    RoomKeeps(s, a, s');
    RefillsStayUsed(s, a, s');
  }

  lemma RunSound(run: seq<State>, steps: seq<Step>, k: nat)
    requires IsRun(run, steps) && k < |run|
    ensures Inv(run[k]) && Sound(run[k])
  {
    InitInv(run[0]);
    forall s, a, s' | Inv(s) && Sound(s) && Next(s, a, s') ensures Inv(s') && Sound(s') {
      NextKeeps(s, a, s');
      SoundKeeps(s, a, s');
    }
    Invariant(run, steps, s => Inv(s) && Sound(s), k);
  }

  /** Nothing has been created since now. */
  lemma LimitStarts(s: State)
    requires Sound(s)
    ensures LimitOk(s, s.refills)
  {
    assert WaitingRefills(s, s.refills) == {};
    forall t | t in s.threads ensures CountOk(s, s.refills, s.threads[t]) {
      assert s.threads[t].refill.Counting? ==> Passed(s, s.refills, s.threads[t].refill.unread) == {};
    }
  }

  lemma {:induction false} StretchLimits(run: seq<State>, steps: seq<Step>, b: nat, k: nat)
    requires IsRun(run, steps) && b <= k < |run| && forall i :: b <= i < k ==> !Restarts(steps[i])
    ensures LimitOk(run[k], run[b].refills)
  {
    if k == b {
      RunSound(run, steps, b);
      LimitStarts(run[b]);
    } else {
      StretchLimits(run, steps, b, k - 1);
      RunSound(run, steps, k - 1);
      RunStep(run, steps, k - 1);
      LifeLimitKeeps(run[k - 1], run[b].refills, steps[k - 1], run[k]);
    }
  }

  /**
   From any moment of any run until the next restart, at most AUTO_QUEUE_LIMIT jobs created by top-
   up since then wait.
   */
  lemma TopUpWithinLimit(run: seq<State>, steps: seq<Step>, b: nat, k: nat)
    requires IsRun(run, steps) && b <= k < |run| && forall i :: b <= i < k ==> !Restarts(steps[i])
    ensures |(set id | id in run[k].refills && id !in run[b].refills && Q.Waits(run[k].q, id))| <= AUTO_QUEUE_LIMIT
  {
    StretchLimits(run, steps, b, k);
    assert (set id | id in run[k].refills && id !in run[b].refills && Q.Waits(run[k].q, id))
        == WaitingRefills(run[k], run[b].refills);
  }
}
