/**
 What top-up and Process Now ever queue: downmixes.

 This holds along every run, and across restarts: a job top-up created has a row of the same kind,
 and a row is rebuilt as a job of its own kind.

 Both make their calls of `enqueue_file` themselves, so the kind is known from the call's start to
 the insertion.
 */
module EngineKinds {
  import opened Common
  import opened Audio
  import opened Jobs
  import opened Recovery
  import opened Engine
  import opened EngineInvariant
  import opened EngineSafety
  import opened EngineLimits

  predicate ForDownmix(e: Enq) {
    match e
    case Probing(_, kind) => kind.Downmix?
    case AtEnqLock(_, kind) => kind.Downmix?
    case Snapshotting(_, kind) => kind.Downmix?
    case Scanning(_, kind, _) => kind.Downmix?
    case Inserting(_, kind) => kind.Downmix?
    case _ => true
  }

  /** A call top-up or Process Now has in progress is for a downmix. */
  ghost predicate CallOk(th: Thread) { th.refill.Calling? || th.base.Creating? ==> ForDownmix(th.enq) }

  ghost predicate CallsOk(s: State) { forall t :: t in s.threads ==> CallOk(s.threads[t]) }

  /** Every job top-up created is a downmix, and so is what its row will be rebuilt into. */
  ghost predicate MadeOk(s: State) {
    && (forall id :: id in s.refills && id in s.q.jobs ==> s.q.jobs[id].kind.Downmix?)
    && (forall r :: r in s.rows && r.key.Uuid? && r.key.id in s.refills ==> r.kind.Downmix?)
  }

  // ----- the calls -----

  lemma EnqCall(s: State, t: Tid, e: EnqStep, s': State)
    requires EnqNext(s, t, e, s') && t in s.threads && FrameOk(s, s.threads[t]) && CallOk(s.threads[t])
    ensures t in s'.threads && CallOk(s'.threads[t])
  {
  }

  lemma RefillCall(s: State, t: Tid, r: RefillStep, s': State)
    requires RefillNext(s, t, r, s') && t in s.threads && FrameOk(s, s.threads[t])
    ensures t in s'.threads && CallOk(s'.threads[t])
  {
  }

  lemma NowCall(s: State, t: Tid, n: NowStep, s': State)
    requires NowNext(s, t, n, s')
    ensures t in s'.threads && CallOk(s'.threads[t])
  {
  }

  lemma WorkCall(s: State, t: Tid, w: WorkStep, s': State)
    requires WorkNext(s, t, w, s')
    ensures t in s'.threads && CallOk(s'.threads[t])
  {
  }

  lemma CancelCall(s: State, t: Tid, c: CancelStep, s': State)
    requires CancelNext(s, t, c, s')
    ensures t in s'.threads && CallOk(s'.threads[t])
  {
  }

  lemma WaitCall(s: State, t: Tid, w: WaitStep, s': State)
    requires WaitNext(s, t, w, s')
    ensures t in s'.threads && CallOk(s'.threads[t])
  {
  }

  lemma ActorCall(s: State, a: Step, s': State)
    requires Ready(s, a.t) && a.t in s.threads && CallOk(s.threads[a.t]) && Next(s, a, s') && !a.Life?
    ensures a.t in s'.threads && CallOk(s'.threads[a.t])
  {
    match a
    case Work(t, w) => WorkCall(s, t, w, s');
    case Topping(t, r) => RefillCall(s, t, r, s');
    case Enqueueing(t, e) => EnqCall(s, t, e, s');
    case Cancelling(t, c) => CancelCall(s, t, c, s');
    case ProcessNow(t, n) => NowCall(s, t, n, s');
    case Waiting(t, w) => WaitCall(s, t, w, s');
  }

  lemma LifeCalls(s: State, t: Tid, l: LifeStep, s': State)
    requires PoolOk(s) && CallsOk(s) && LifeNext(s, t, l, s')
    ensures CallsOk(s')
  {
  }

  lemma OthersCalls(s: State, t: Tid, s': State)
    requires CallsOk(s) && Framed(s, t, s') && t in s'.threads && CallOk(s'.threads[t])
    ensures CallsOk(s')
  {
  }

  lemma CallsKeep(s: State, a: Step, s': State)
    requires PoolOk(s) && ThreadsOk(s) && CallsOk(s) && Next(s, a, s')
    ensures CallsOk(s')
  {
    if a.Life? { LifeCalls(s, a.t, a.life, s'); }
    else {
      StepFramed(s, a, s');
      assert Ready(s, a.t);
      ActorCall(s, a, s');
      OthersCalls(s, a.t, s');
    }
  }

  // ----- the jobs and their rows -----

  /** Top-up's job is a downmix; nobody else's new job is one of top-up's. */
  lemma InsertMade(s: State, t: Tid, id: JobId, settings: DownmixSettings, pref: Option<Preference>, s': State)
    requires QueueOk(s) && RowsOk(s) && CallsOk(s) && RefillsUsed(s) && MadeOk(s)
    requires InsertJob(s, t, id, settings, pref, s')
    ensures MadeOk(s')
  {
    assert CallOk(s.threads[t]);
  }

  /** What the row written last says of its kind is what the job says. */
  lemma RowsMade(s: State, op: RowOp)
    requires RowsOk(s) && MadeOk(s)
    ensures forall r :: r in RowsAfter(s, op) && r.key.Uuid? && r.key.id in s.refills ==> r.kind.Downmix?
  {
    WrittenRows(s, op);
  }

  lemma StepMade(s: State, a: Step, s': State)
    requires Inv(s) && RefillsUsed(s) && MadeOk(s) && Next(s, a, s') && !a.Life?
    requires s'.refills == s.refills
    ensures MadeOk(s')
  {
    StepFramed(s, a, s');
    StepProgress(s, a, s');
    StepRows(s, a, s');
    RowsMade(s, StepRowOp(s, a));
    NewJobs(s, a, s');
    forall id | id in s'.refills && id in s'.q.jobs ensures s'.q.jobs[id].kind.Downmix? {
      assert id in s.used && id in s.q.jobs;
    }
  }

  /** A job new in the dict has an id never used before. */
  lemma NewJobs(s: State, a: Step, s': State)
    requires QueueOk(s) && ThreadsOk(s) && Next(s, a, s') && !a.Life?
    ensures forall id :: id in s'.q.jobs && id !in s.q.jobs ==> id !in s.used
  {
    StepProgress(s, a, s');
    KeysAfter(s.q, StepOp(s, a));
  }

  lemma BootMade(s: State, settings: Settings, s': State)
    requires RowsOk(s) && MadeOk(s) && Boot(s, settings, s')
    ensures MadeOk(s')
  {
    RestartCarriesOn(s.rows, settings);
  }

  lemma LifeMade(s: State, t: Tid, l: LifeStep, s': State)
    requires RowsOk(s) && MadeOk(s) && LifeNext(s, t, l, s')
    ensures MadeOk(s')
  {
    if l.Boots? { BootMade(s, l.settings, s'); }
    else if l.AbortsBoot? {
      forall r' | r' in s'.rows && r'.key.Uuid? && r'.key.id in s'.refills ensures r'.kind.Downmix? {
        var i :| 0 <= i < |s'.rows| && s'.rows[i] == r';
        assert s.rows[i] in s.rows;
      }
    }
  }

  ghost predicate KindsOk(s: State) { Inv(s) && Sound(s) && CallsOk(s) && MadeOk(s) }

  lemma SameRefills(s: State, a: Step, s': State)
    requires ThreadsOk(s) && Next(s, a, s') && !a.Life? && !(a.Enqueueing? && a.enq.Inserts?)
    ensures s'.refills == s.refills
  {
    StepFramed(s, a, s');
  }

  lemma KindsKeep(s: State, a: Step, s': State)
    requires KindsOk(s) && Next(s, a, s')
    ensures KindsOk(s')
  {
    NextKeeps(s, a, s');
    SoundKeeps(s, a, s');
    CallsKeep(s, a, s');
    if a.Life? { LifeMade(s, a.t, a.life, s'); }
    else if a.Enqueueing? && a.enq.Inserts? { InsertMade(s, a.t, a.enq.id, a.enq.settings, a.enq.pref, s'); }
    else {
      SameRefills(s, a, s');
      StepMade(s, a, s');
    }
  }

  lemma RunKinds(run: seq<State>, steps: seq<Step>, k: nat)
    requires IsRun(run, steps) && k < |run|
    ensures KindsOk(run[k])
  {
    InitInv(run[0]);
    forall s, a, s' | KindsOk(s) && Next(s, a, s') ensures KindsOk(s') { KindsKeep(s, a, s'); }
    Invariant(run, steps, s => KindsOk(s), k);
  }

  /** Every job top-up created is a downmix, in every state of every run, also after it was rebuilt from its row. */
  lemma TopUpMakesDownmixes(run: seq<State>, steps: seq<Step>, k: nat, id: JobId)
    requires IsRun(run, steps) && k < |run| && id in run[k].refills && id in run[k].q.jobs
    ensures run[k].q.jobs[id].kind.Downmix?
  {
    RunKinds(run, steps, k);
  }

  /** So is every job Process Now creates. */
  lemma ProcessNowMakesDownmixes(run: seq<State>, steps: seq<Step>, k: nat, t: Tid, id: JobId,
                                 settings: DownmixSettings,
                                 pref: Option<Preference>)
    requires IsRun(run, steps) && k < |steps| && steps[k] == Enqueueing(t, Inserts(id, settings, pref))
    requires t in run[k].threads && run[k].threads[t].base.Creating?
    ensures id in run[k + 1].q.jobs && run[k + 1].q.jobs[id].kind.Downmix?
  {
    RunKinds(run, steps, k);
    RunStep(run, steps, k);
    assert CallOk(run[k].threads[t]);
    InsertedKind(run[k], t, id, settings, pref, run[k + 1]);
  }

  lemma InsertedKind(s: State, t: Tid, id: JobId, settings: DownmixSettings, pref: Option<Preference>, s': State)
    requires InsertJob(s, t, id, settings, pref, s')
    ensures t in s.threads && s.threads[t].enq.Inserting? && id in s'.q.jobs
    ensures s'.q.jobs[id].kind == s.threads[t].enq.kind
  {
  }
}
