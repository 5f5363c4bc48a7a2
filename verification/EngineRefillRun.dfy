/**
 A concrete run in which a restart leaves more than AUTO_QUEUE_LIMIT top-up jobs waiting.

 Top-up fills the empty queue to the limit. A worker claims a job, which is RUNNING in memory
 while its row still says PENDING, and the next top-up counts one waiting job less and creates
 one more. The process dies before the worker writes the row, so the boot brings all of them
 back.

 Every state on the way has the same shape: the first `n` files are queued, the claimed one
 among them runs, every row says PENDING, and thread 0 is somewhere in its top-up. `Holding`
 names that state, and each lemma extends the run by one stretch of thread 0's steps.
 */
module EngineRefillRun {
  import opened Common
  import opened Jobs
  import opened History
  import opened Recovery
  import opened Engine
  import opened EngineDedup
  import opened EngineLimits
  import opened EngineRestartLimit
  import opened EngineRuns
  import Q = Queue

  /** A stretch of a run without a crash. */
  ghost predicate Reached(run: seq<State>, steps: seq<Step>) {
    Linked(run, steps) && forall a :: a in steps ==> !(a.Life? && a.life.Crashes?)
  }

  /** The files queued, the pool, what its workers do, and the job one of them has claimed. */
  datatype Scene = Scene(files: seq<Path>, workers: set<Tid>, others: map<Tid, Thread>, claimed: Option<JobId>)

  ghost predicate Staged(c: Scene, n: nat) {
    && n <= |c.files| && Distinct(c.files) && 0 !in c.others
    && (forall u :: u in c.others ==> Wake(c.others[u]) == c.others[u])
    && (c.claimed.Some? ==> c.claimed.value < n)
  }

  function Queued(c: Scene, n: nat): map<JobId, Job>
    requires n <= |c.files|
  {
    map i: nat | i < n ::
      Job(c.files[i], Downmix, NO_TARGETS, None, i, if c.claimed == Some(i) then Running else Pending,
          c.claimed == Some(i))
  }

  function Dict(n: nat): seq<JobId> { seq(n, i => i) }

  function Table(files: seq<Path>, n: nat): seq<Row>
    requires n <= |files|
  {
    seq(n, i requires 0 <= i < n => Row(Uuid(i), files[i], Downmix, i, Pending))
  }

  function IdsTo(n: nat): set<JobId> { set id | id in Dict(n) }

  function Line(c: Scene, n: nat): Q.Queue
    requires n <= |c.files|
  {
    Q.Queue(Queued(c, n), Dict(n), n, if c.claimed.None? then 0 else 1, false)
  }

  /** The first `n` files are queued and recorded, and thread 0 stands at `th`. */
  ghost function Holding(c: Scene, n: nat, th: Thread): State
    requires n <= |c.files|
  {
    State(true, Line(c, n), c.others[0 := th], c.workers, {}, true, |c.workers|,
          if HoldsEnq(th.enq) then Some(0) else None, if HoldsTop(th.refill) then Some(0) else None,
          Table(c.files, n), IdsTo(n), [], IdsTo(n))
  }

  /** A crashless stretch that ends with thread 0 at `th`. */
  ghost predicate Stands(run: seq<State>, steps: seq<Step>, c: Scene, n: nat, th: Thread) {
    Staged(c, n) && Reached(run, steps) && Last(run) == Holding(c, n, th)
  }

  lemma Steps(run: seq<State>, steps: seq<Step>, a: Step, s': State) returns (run': seq<State>, steps': seq<Step>)
    requires Reached(run, steps) && Next(Last(run), a, s') && !a.Life?
    ensures Reached(run', steps') && Last(run') == s' && run'[0] == run[0]
  {
    run', steps' := Extend(run, steps, a, s');
  }

  /** Thread 0 alone moves on, taking or dropping what locks `th` says. */
  ghost function Moved(s: State, th: Thread): State {
    Move(s, 0, th).(enqLock := if HoldsEnq(th.enq) then Some(0) else None,
                    topLock := if HoldsTop(th.refill) then Some(0) else None)
  }

  lemma MovedHolds(c: Scene, n: nat, th: Thread, th': Thread)
    requires n <= |c.files|
    ensures Moved(Holding(c, n, th), th') == Holding(c, n, th')
  {
    assert c.others[0 := th][0 := th'] == c.others[0 := th'];
  }

  lemma Acts(run: seq<State>, steps: seq<Step>, c: Scene, n: nat, th: Thread, a: Step, th': Thread)
    returns (run': seq<State>, steps': seq<Step>)
    requires Stands(run, steps, c, n, th) && !a.Life?
    requires Next(Holding(c, n, th), a, Moved(Holding(c, n, th), th'))
    ensures Stands(run', steps', c, n, th') && run'[0] == run[0]
  {
    MovedHolds(c, n, th, th');
    run', steps' := Steps(run, steps, a, Holding(c, n, th'));
  }

  // ----- one file -----

  function Filler(k: nat, e: Enq): Thread { Thread(Free, Calling(k), e) }

  function Topper(r: Refill): Thread { Thread(Free, r, NoEnq) }

  /** The walk reaches the next file, which qualifies. */
  lemma Picks(run: seq<State>, steps: seq<Step>, c: Scene, n: nat, k: nat)
    returns (run': seq<State>, steps': seq<Step>)
    requires n < |c.files| && k < AUTO_QUEUE_LIMIT && Stands(run, steps, c, n, Topper(Filling(k)))
    ensures Stands(run', steps', c, n, Filler(k, AtEnqLock(c.files[n], Downmix))) && run'[0] == run[0]
  {
    var probing := Filler(k, Probing(c.files[n], Downmix));
    run', steps' := Acts(run, steps, c, n, Topper(Filling(k)), Topping(0, FillsOne(c.files[n])), probing);
    run', steps' := Acts(run', steps', c, n, probing, Enqueueing(0, Qualifies),
                         Filler(k, AtEnqLock(c.files[n], Downmix)));
  }

  /** The duplicate check takes its snapshot. */
  lemma ReachesScan(run: seq<State>, steps: seq<Step>, c: Scene, n: nat, k: nat)
    returns (run': seq<State>, steps': seq<Step>)
    requires n < |c.files| && Stands(run, steps, c, n, Filler(k, AtEnqLock(c.files[n], Downmix)))
    ensures Stands(run', steps', c, n, Filler(k, Scanning(c.files[n], Downmix, Dict(n)))) && run'[0] == run[0]
  {
    var locked := Filler(k, Snapshotting(c.files[n], Downmix));
    run', steps' := Acts(run, steps, c, n, Filler(k, AtEnqLock(c.files[n], Downmix)), Enqueueing(0, Locks), locked);
    run', steps' := Acts(run', steps', c, n, locked, Enqueueing(0, ListsJobs),
                         Filler(k, Scanning(c.files[n], Downmix, Dict(n))));
  }

  lemma DictTail(n: nat, i: nat)
    requires i < n
    ensures Dict(n)[i..][0] == i && Dict(n)[i..][1..] == Dict(n)[i + 1..]
  {
  }

  /** No queued job has the file's path. */
  lemma {:induction false} Scans(run: seq<State>, steps: seq<Step>, c: Scene, n: nat, k: nat, i: nat)
    returns (run': seq<State>, steps': seq<Step>)
    requires n < |c.files| && i <= n && Stands(run, steps, c, n, Filler(k, Scanning(c.files[n], Downmix, Dict(n)[i..])))
    ensures Stands(run', steps', c, n, Filler(k, Scanning(c.files[n], Downmix, []))) && run'[0] == run[0]
    decreases n - i
  {
    if i == n {
      run', steps' := run, steps;
    } else {
      DictTail(n, i);
      run', steps' := Acts(run, steps, c, n, Filler(k, Scanning(c.files[n], Downmix, Dict(n)[i..])),
                           Enqueueing(0, ScansOne), Filler(k, Scanning(c.files[n], Downmix, Dict(n)[i + 1..])));
      run', steps' := Scans(run', steps', c, n, k, i + 1);
    }
  }

  lemma LineGrows(c: Scene, n: nat)
    requires Staged(c, n) && n < |c.files|
    ensures Q.Enqueue(Line(c, n), n, NewJob(c.files[n], Downmix, NO_TARGETS, None)) == Line(c, n + 1)
    ensures IdsTo(n) + {n} == IdsTo(n + 1)
  {
    assert Dict(n) + [n] == Dict(n + 1);
  }

  lemma TableGrows(c: Scene, n: nat)
    requires Staged(c, n) && n < |c.files|
    ensures Record(Table(c.files, n), n, Queued(c, n + 1)[n]) == Table(c.files, n + 1)
  {
  }

  /** The job is in the queue and its row is not yet written. */
  ghost function Unwritten(c: Scene, n: nat, k: nat): State
    requires n < |c.files|
  {
    Holding(c, n + 1, Filler(k, Recording(n))).(rows := Table(c.files, n))
  }

  lemma NobodyParked(c: Scene, n: nat, th: Thread)
    requires Staged(c, n) && th.base.Free?
    ensures WakeAll(c.others[0 := th]) == c.others[0 := th]
  {
  }

  lemma InsertStep(c: Scene, n: nat, k: nat)
    requires Staged(c, n) && n < |c.files|
    ensures Next(Holding(c, n, Filler(k, Inserting(c.files[n], Downmix))),
                 Enqueueing(0, Inserts(n, NO_TARGETS, None)), Unwritten(c, n, k))
  {
    LineGrows(c, n);
    NobodyParked(c, n, Filler(k, Inserting(c.files[n], Downmix)));
  }

  lemma RecordStep(c: Scene, n: nat, k: nat)
    requires Staged(c, n) && n < |c.files|
    ensures Next(Unwritten(c, n, k), Enqueueing(0, WritesRow), Holding(c, n + 1, Filler(k, Unlocking(Some(n)))))
  {
    TableGrows(c, n);
  }

  /** The check found nothing; the job is queued and recorded. */
  lemma InsertsFile(run: seq<State>, steps: seq<Step>, c: Scene, n: nat, k: nat)
    returns (run': seq<State>, steps': seq<Step>)
    requires n < |c.files| && Stands(run, steps, c, n, Filler(k, Inserting(c.files[n], Downmix)))
    ensures Stands(run', steps', c, n + 1, Filler(k, Unlocking(Some(n)))) && run'[0] == run[0]
  {
    InsertStep(c, n, k);
    run', steps' := Steps(run, steps, Enqueueing(0, Inserts(n, NO_TARGETS, None)), Unwritten(c, n, k));
    RecordStep(c, n, k);
    run', steps' := Steps(run', steps', Enqueueing(0, WritesRow), Holding(c, n + 1, Filler(k, Unlocking(Some(n)))));
  }

  lemma UnlockStep(c: Scene, n: nat, k: nat)
    requires n < |c.files|
    ensures var s := Holding(c, n + 1, Filler(k, Unlocking(Some(n))));
            Next(s, Enqueueing(0, Unlocks), Moved(s, Filler(k, Returned(Some(n)))))
  {
  }

  lemma ReturnStep(c: Scene, n: nat, k: nat)
    requires n < |c.files|
    ensures var s := Holding(c, n + 1, Filler(k, Returned(Some(n))));
            Next(s, Topping(0, Returns), Moved(s, Topper(Filling(k + 1))))
  {
  }

  lemma FileReturns(run: seq<State>, steps: seq<Step>, c: Scene, n: nat, k: nat)
    returns (run': seq<State>, steps': seq<Step>)
    requires n < |c.files| && Stands(run, steps, c, n + 1, Filler(k, Unlocking(Some(n))))
    ensures Stands(run', steps', c, n + 1, Topper(Filling(k + 1))) && run'[0] == run[0]
  {
    var returned := Filler(k, Returned(Some(n)));
    UnlockStep(c, n, k);
    run', steps' := Acts(run, steps, c, n + 1, Filler(k, Unlocking(Some(n))), Enqueueing(0, Unlocks), returned);
    ReturnStep(c, n, k);
    run', steps' := Acts(run', steps', c, n + 1, returned, Topping(0, Returns), Topper(Filling(k + 1)));
  }

  /** One file is found to qualify, is queued and recorded. */
  lemma AddsFile(run: seq<State>, steps: seq<Step>, c: Scene, n: nat, k: nat)
    returns (run': seq<State>, steps': seq<Step>)
    requires n < |c.files| && k < AUTO_QUEUE_LIMIT && Stands(run, steps, c, n, Topper(Filling(k)))
    ensures Stands(run', steps', c, n + 1, Topper(Filling(k + 1))) && run'[0] == run[0]
  {
    run', steps' := Picks(run, steps, c, n, k);
    run', steps' := ReachesScan(run', steps', c, n, k);
    assert Dict(n)[0..] == Dict(n);
    run', steps' := Scans(run', steps', c, n, k, 0);
    run', steps' := Acts(run', steps', c, n, Filler(k, Scanning(c.files[n], Downmix, [])),
                         Enqueueing(0, Scanned(false)), Filler(k, Inserting(c.files[n], Downmix)));
    run', steps' := InsertsFile(run', steps', c, n, k);
    run', steps' := FileReturns(run', steps', c, n, k);
  }

  lemma {:induction false} AddsFiles(run: seq<State>, steps: seq<Step>, c: Scene, n: nat, k: nat, m: nat, full: nat)
    returns (run': seq<State>, steps': seq<Step>)
    requires n <= m <= |c.files| && k + (m - n) == full <= AUTO_QUEUE_LIMIT
    requires Stands(run, steps, c, n, Topper(Filling(k)))
    ensures Stands(run', steps', c, m, Topper(Filling(full))) && run'[0] == run[0]
    decreases m - n
  {
    if n == m {
      run', steps' := run, steps;
    } else {
      run', steps' := AddsFile(run, steps, c, n, k);
      run', steps' := AddsFiles(run', steps', c, n + 1, k + 1, m, full);
    }
  }

  // ----- one top-up -----

  /** What a count has found after the first `i` jobs: the claimed one does not count. */
  function CountTo(c: Scene, i: nat): nat { if c.claimed.Some? && c.claimed.value < i then i - 1 else i }

  lemma {:induction false} Counts(run: seq<State>, steps: seq<Step>, c: Scene, n: nat, i: nat)
    returns (run': seq<State>, steps': seq<Step>)
    requires i <= n && Stands(run, steps, c, n, Topper(Counting(Dict(n)[i..], CountTo(c, i))))
    ensures Stands(run', steps', c, n, Topper(Counting([], CountTo(c, n)))) && run'[0] == run[0]
    decreases n - i
  {
    if i == n {
      assert Dict(n)[i..] == [];
      run', steps' := run, steps;
    } else {
      DictTail(n, i);
      run', steps' := Acts(run, steps, c, n, Topper(Counting(Dict(n)[i..], CountTo(c, i))), Topping(0, CountsOne),
                           Topper(Counting(Dict(n)[i + 1..], CountTo(c, i + 1))));
      run', steps' := Counts(run', steps', c, n, i + 1);
    }
  }

  lemma EntersTopUp(run: seq<State>, steps: seq<Step>, c: Scene, n: nat)
    returns (run': seq<State>, steps': seq<Step>)
    requires Stands(run, steps, c, n, Topper(NoRefill))
    ensures Stands(run', steps', c, n, Topper(AtPause)) && run'[0] == run[0]
  {
    run', steps' := Acts(run, steps, c, n, Topper(NoRefill), Topping(0, Begins), Topper(AtTopLock));
    run', steps' := Acts(run', steps', c, n, Topper(AtTopLock), Topping(0, TakesLock), Topper(AtPause));
  }

  lemma StartsCount(run: seq<State>, steps: seq<Step>, c: Scene, n: nat)
    returns (run': seq<State>, steps': seq<Step>)
    requires Stands(run, steps, c, n, Topper(AtPause))
    ensures Stands(run', steps', c, n, Topper(Counting(Dict(n), 0))) && run'[0] == run[0]
  {
    run', steps' := Acts(run, steps, c, n, Topper(AtPause), Topping(0, ReadsPause(false)), Topper(AtCount));
    run', steps' := Acts(run', steps', c, n, Topper(AtCount), Topping(0, Lists), Topper(Counting(Dict(n), 0)));
  }

  lemma LeavesTopUp(run: seq<State>, steps: seq<Step>, c: Scene, n: nat, k: nat)
    returns (run': seq<State>, steps': seq<Step>)
    requires Stands(run, steps, c, n, Topper(Filling(k)))
    ensures Stands(run', steps', c, n, Topper(NoRefill)) && run'[0] == run[0]
  {
    run', steps' := Acts(run, steps, c, n, Topper(Filling(k)), Topping(0, Stops), Topper(Leaving));
    run', steps' := Acts(run', steps', c, n, Topper(Leaving), Topping(0, DropsLock), Topper(NoRefill));
  }

  /** A whole top-up that takes the queue from `n` files to `m`. */
  lemma TopsUp(run: seq<State>, steps: seq<Step>, c: Scene, n: nat, m: nat)
    returns (run': seq<State>, steps': seq<Step>)
    requires n <= m <= |c.files| && CountTo(c, n) + (m - n) <= AUTO_QUEUE_LIMIT
    requires Stands(run, steps, c, n, Topper(NoRefill))
    ensures Stands(run', steps', c, m, Topper(NoRefill)) && run'[0] == run[0]
  {
    run', steps' := EntersTopUp(run, steps, c, n);
    run', steps' := StartsCount(run', steps', c, n);
    assert Dict(n)[0..] == Dict(n);
    run', steps' := Counts(run', steps', c, n, 0);
    run', steps' := Acts(run', steps', c, n, Topper(Counting([], CountTo(c, n))), Topping(0, Counted),
                         Topper(Filling(CountTo(c, n))));
    var full := CountTo(c, n) + (m - n);
    run', steps' := AddsFiles(run', steps', c, n, CountTo(c, n), m, full);
    run', steps' := LeavesTopUp(run', steps', c, m, full);
  }

  // ----- the run -----

  /** Every worker of the pool is about to claim. */
  ghost function Opening(files: seq<Path>, workers: set<Tid>): Scene {
    Scene(files, workers, map w | w in workers :: Thread(Idle, NoRefill, NoEnq), None)
  }

  lemma Opens(files: seq<Path>, workers: set<Tid>) returns (run: seq<State>, steps: seq<Step>)
    requires workers != {} && 0 !in workers
    ensures Reached(run, steps) && Init(run[0])
    ensures Last(run) == Holding(Opening(files, workers), 0, Topper(NoRefill))
  {
    run, steps := BootsEmpty(|workers|);
    var c := Opening(files, workers);
    var s := Holding(c, 0, Topper(NoRefill));
    assert Booted(|workers|).threads + c.others == s.threads;
    assert Line(c, 0) == Q.EMPTY && Table(files, 0) == [] && IdsTo(0) == {};
    run, steps := Extend(run, steps, Life(0, StartsPool(workers)), s);
  }

  /** Worker `w` has claimed job `x` and not yet written its row. */
  ghost function Taken(files: seq<Path>, workers: set<Tid>, w: Tid, x: JobId): Scene {
    Scene(files, workers, Opening(files, workers).others[w := Thread(Run(x, RecordStart), NoRefill, NoEnq)], Some(x))
  }

  lemma Claimed(files: seq<Path>, workers: set<Tid>, w: Tid, n: nat) returns (x: JobId)
    requires 0 < n <= |files| && w in workers && 0 !in workers
    ensures x < n
    ensures Next(Holding(Opening(files, workers), n, Topper(NoRefill)), Work(w, Claims(false)),
                 Holding(Taken(files, workers, w, x), n, Topper(NoRefill)))
  {
    var c := Opening(files, workers);
    var q := Line(c, n);
    assert Dict(n)[0] == 0;
    x := Q.Lowest(q.jobs, q.order).value;
    assert Q.Started(q, x) == Line(Taken(files, workers, w, x), n);
    var ts := c.others[0 := Topper(NoRefill)];
    assert ts[w := Thread(Run(x, RecordStart), NoRefill, NoEnq)]
        == Taken(files, workers, w, x).others[0 := Topper(NoRefill)];
  }

  /** One job more than the limit is recorded as PENDING, one of them claimed. */
  lemma Overfills(files: seq<Path>, workers: set<Tid>)
    returns (run: seq<State>, steps: seq<Step>, c: Scene)
    requires Distinct(files) && |files| > AUTO_QUEUE_LIMIT && workers != {} && 0 !in workers
    ensures Reached(run, steps) && Init(run[0]) && c.files == files
    ensures Last(run) == Holding(c, AUTO_QUEUE_LIMIT + 1, Topper(NoRefill))
  {
    run, steps := Opens(files, workers);
    run, steps := TopsUp(run, steps, Opening(files, workers), 0, AUTO_QUEUE_LIMIT);
    var w :| w in workers;
    var x := Claimed(files, workers, w, AUTO_QUEUE_LIMIT);
    c := Taken(files, workers, w, x);
    run, steps := Steps(run, steps, Work(w, Claims(false)),
                        Holding(c, AUTO_QUEUE_LIMIT, Topper(NoRefill)));
    run, steps := TopsUp(run, steps, c, AUTO_QUEUE_LIMIT, AUTO_QUEUE_LIMIT + 1);
  }

  /** Every row belongs to a queued job. */
  lemma NoOrphans(c: Scene, n: nat, th: Thread)
    requires n <= |c.files|
    ensures forall r :: !Orphan(Holding(c, n, th), r)
  {
    forall r | r in Table(c.files, n) ensures r.key.id in Dict(n) {
      var i :| 0 <= i < n && Table(c.files, n)[i] == r;
      assert Dict(n)[i] == r.key.id;
    }
  }

  lemma IdsUpTo(n: nat)
    ensures forall id: nat :: id in IdsTo(n) <==> id < n
  {
    forall id: nat | id < n ensures id in IdsTo(n) { assert Dict(n)[id] == id; }
  }

  lemma Overfull(files: seq<Path>, settings: Settings)
    requires |files| > AUTO_QUEUE_LIMIT
    ensures var n := AUTO_QUEUE_LIMIT + 1; |BroughtBack(Table(files, n), settings, IdsTo(n))| > AUTO_QUEUE_LIMIT
  {
    var n := AUTO_QUEUE_LIMIT + 1;
    var rows := Table(files, n);
    IdsUpTo(n);
    forall id | id in IdsTo(n) ensures HasRehydratable(rows, settings, id) {
      assert Rehydratable(rows, settings, rows[id]);
    }
    assert {0, 1, 2, 3, 4, 5} <= BroughtBack(rows, settings, IdsTo(n));
    SubsetSize({0, 1, 2, 3, 4, 5}, BroughtBack(rows, settings, IdsTo(n)));
  }

  /**
   The restart that overfills: from a start state, over one crash that finds no orphan row, to a booted
   process with more than AUTO_QUEUE_LIMIT waiting jobs created by top-up.
   */
  lemma RestartOverfills(files: seq<Path>, workers: set<Tid>, settings: Settings)
    returns (run: seq<State>, steps: seq<Step>)
    requires Distinct(files) && |files| > AUTO_QUEUE_LIMIT && workers != {} && 0 !in workers
    ensures IsRun(run, steps) && Last(run).up && |AllWaiting(Last(run))| > AUTO_QUEUE_LIMIT
    ensures forall i: nat :: i < |steps| ==> CleanCrash(run[i], steps[i])
  {
    var c;
    run, steps, c := Overfills(files, workers);
    var s := Last(run);
    NoOrphans(c, AUTO_QUEUE_LIMIT + 1, Topper(NoRefill));
    var s1 := State(false, Q.EMPTY, map[], {}, {}, false, s.maxConcurrency, None, None, s.rows, s.used, [], s.refills);
    run, steps := Extend(run, steps, Life(0, Crashes), s1);
    var s2 := s1.(up := true, q := RecoveredQueue(s.rows, settings), rows := Marked(s.rows, settings));
    run, steps := Extend(run, steps, Life(0, Boots(settings)), s2);
    Overfull(files, settings);
    SmallBootsNeeded(run, steps, |steps| - 1);
  }
}
