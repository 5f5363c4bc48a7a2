/**
 A concrete run in which a restart leaves two active jobs on one path.

 A pending job is cancelled; before its row is deleted the same file is queued again, and the
 process dies. Both rows still say PENDING, so the boot rehydrates both.

 The run is built stretch by stretch: boot over an empty history, enqueue, cancel without
 the row deletion, enqueue again on a second thread, crash, boot. Each lemma extends the
 run so far by one stretch and names the state it ends in.
 */
module EngineOrphanRun {
  import opened Common
  import opened Jobs
  import opened History
  import opened Recovery
  import opened Engine
  import opened EngineDedup
  import opened EngineLocks
  import opened EngineRuns
  import Q = Queue

  ghost predicate Resting(s: State, t: Tid) {
    t in s.threads && s.threads[t] == Thread(Free, NoRefill, NoEnq) && s.enqLock.None? && s.q.order == []
  }

  /** The state in which `t` has qualified the file, holds the enqueue lock and has seen an empty queue. */
  ghost function Cleared(s: State, t: Tid, path: Path): State {
    s.(enqLock := Some(t), threads := s.threads[t := Thread(Free, NoRefill, Inserting(path, Downmix))])
  }

  lemma ReachesInsert(run: seq<State>, steps: seq<Step>, t: Tid, path: Path)
    returns (run': seq<State>, steps': seq<Step>)
    requires Linked(run, steps) && Resting(Last(run), t)
    ensures Linked(run', steps') && run'[0] == run[0] && Last(run') == Cleared(Last(run), t, path)
  {
    var s := Last(run);
    var s1 := MoveEnq(s, t, Probing(path, Downmix));
    run', steps' := Extend(run, steps, Enqueueing(t, Triggers(path, Downmix)), s1);
    var s2 := MoveEnq(s1, t, AtEnqLock(path, Downmix));
    run', steps' := Extend(run', steps', Enqueueing(t, Qualifies), s2);
    var s3 := MoveEnq(s2.(enqLock := Some(t)), t, Snapshotting(path, Downmix));
    run', steps' := Extend(run', steps', Enqueueing(t, Locks), s3);
    var s4 := MoveEnq(s3, t, Scanning(path, Downmix, []));
    run', steps' := Extend(run', steps', Enqueueing(t, ListsJobs), s4);
    run', steps' := Extend(run', steps', Enqueueing(t, Scanned(false)), Cleared(s, t, path));
  }

  /** The state after `t` has inserted the job, written its row and returned. */
  ghost function Queued(s: State, t: Tid, id: JobId, path: Path): State
    requires t in s.threads
  {
    var q := Q.Enqueue(s.q, id, NewJob(path, Downmix, NO_TARGETS, None));
    State(s.up, q, WakeAll(s.threads)[t := Thread(Free, NoRefill, NoEnq)], s.pool, s.forced, s.poolStarted,
          s.maxConcurrency, None, s.topLock, Record(s.rows, id, q.jobs[id]), s.used + {id}, s.launches, s.refills)
  }

  /** The row is written; the lock is still held. */
  ghost function Written(s: State, t: Tid, id: JobId, path: Path): State
    requires t in s.threads
  {
    MoveEnq(Queued(s, t, id, path).(enqLock := Some(t)), t, Unlocking(Some(id)))
  }

  lemma InsertsAndWrites(run: seq<State>, steps: seq<Step>, s: State, t: Tid, id: JobId, path: Path)
    returns (run': seq<State>, steps': seq<Step>)
    requires Linked(run, steps) && Resting(s, t) && Last(run) == Cleared(s, t, path) && id !in s.used
    ensures Linked(run', steps') && run'[0] == run[0] && Last(run') == Written(s, t, id, path)
  {
    var s0 := Last(run);
    var q := Q.Enqueue(s.q, id, NewJob(path, Downmix, NO_TARGETS, None));
    var s1 := MoveEnq(Notified(s0, q).(used := s0.used + {id}), t, Recording(id));
    run', steps' := Extend(run, steps, Enqueueing(t, Inserts(id, NO_TARGETS, None)), s1);
    var s2 := MoveEnq(s1.(rows := Record(s1.rows, id, q.jobs[id])), t, Unlocking(Some(id)));
    assert s2 == Written(s, t, id, path);
    run', steps' := Extend(run', steps', Enqueueing(t, WritesRow), s2);
  }

  lemma UnlocksAndReturns(run: seq<State>, steps: seq<Step>, s: State, t: Tid, id: JobId, path: Path)
    returns (run': seq<State>, steps': seq<Step>)
    requires Linked(run, steps) && t in s.threads && Last(run) == Written(s, t, id, path)
    ensures Linked(run', steps') && run'[0] == run[0] && Last(run') == Queued(s, t, id, path)
  {
    var s1 := MoveEnq(Last(run).(enqLock := None), t, Returned(Some(id)));
    run', steps' := Extend(run, steps, Enqueueing(t, Unlocks), s1);
    assert MoveEnq(s1, t, NoEnq) == Queued(s, t, id, path);
    run', steps' := Extend(run', steps', Enqueueing(t, Ended), Queued(s, t, id, path));
  }

  lemma Enqueues(run: seq<State>, steps: seq<Step>, t: Tid, id: JobId, path: Path)
    returns (run': seq<State>, steps': seq<Step>)
    requires Linked(run, steps) && Resting(Last(run), t) && id !in Last(run).used
    ensures Linked(run', steps') && run'[0] == run[0] && Last(run') == Queued(Last(run), t, id, path)
  {
    run', steps' := ReachesInsert(run, steps, t, path);
    run', steps' := InsertsAndWrites(run', steps', Last(run), t, id, path);
    run', steps' := UnlocksAndReturns(run', steps', Last(run), t, id, path);
  }

  /** Thread 0 queues a file and cancels it, but has not yet deleted the row; thread 1 has arrived. */
  ghost function HalfCancelled(n: nat, path: Path): State {
    var s := Queued(Booted(n), 0, 0, path);
    State(true, Q.Cancel(s.q, 0).0, map[0 := Thread(DeletingRow(0), NoRefill, NoEnq),
        1 := Thread(Free, NoRefill, NoEnq)],
          {}, {}, false, n, None, None, s.rows, {0}, [], {})
  }

  lemma HalfCancels(n: nat, path: Path) returns (run: seq<State>, steps: seq<Step>)
    requires n >= 1
    ensures Linked(run, steps) && Init(run[0]) && Last(run) == HalfCancelled(n, path)
  {
    run, steps := BootsEmpty(n);
    run, steps := Enqueues(run, steps, 0, 0, path);
    var s := Last(run);
    assert Q.Waits(s.q, 0);
    var s1 := MoveBase(Notified(s, Q.Cancel(s.q, 0).0), 0, DeletingRow(0));
    run, steps := Extend(run, steps, Cancelling(0, CancelsPending(0)), s1);
    var s2 := MoveBase(s1, 1, Free);
    run, steps := Extend(run, steps, Life(1, Spawns), s2);
    assert s2 == HalfCancelled(n, path);
  }

  /** The restart that duplicates: from a start state to a booted process with two active jobs on `path`. */
  lemma OrphanRowDuplicates(n: nat, path: Path) returns (run: seq<State>, steps: seq<Step>)
    requires n >= 1
    ensures IsRun(run, steps) && Last(run).up && !OnePerPath(Last(run).q)
  {
    run, steps := HalfCancels(n, path);
    var s0 := Last(run);
    run, steps := Enqueues(run, steps, 1, 1, path);
    var rows := Last(run).rows;
    assert rows == [Row(Uuid(0), path, Downmix, 0, Pending), Row(Uuid(1), path, Downmix, 1, Pending)];
    var settings := Settings(NO_TARGETS, None);
    var s1 := State(false, Q.EMPTY, map[], {}, {}, false, n, None, None, rows, Last(run).used, [], {});
    run, steps := Extend(run, steps, Life(0, Crashes), s1);
    var s2 := s1.(up := true, q := RecoveredQueue(rows, settings), rows := Marked(rows, settings));
    run, steps := Extend(run, steps, Life(0, Boots(settings)), s2);
    BootDedupIff(rows, settings);
    assert Rehydratable(rows, settings, rows[0]) && Rehydratable(rows, settings, rows[1]);
  }
}
