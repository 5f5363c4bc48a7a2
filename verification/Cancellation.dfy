/**
 The per-job hard-kill rendezvous: one worker attaches and detaches subprocesses, any number of threads
 cancel. The handle is read and written under its lock; killing happens after the lock is released.
 */
module Cancellation {
  import opened Common

  type Proc = nat
  type Tid = nat

  // ----- the handle -----

  datatype Handle = Handle(cancelled: bool, process: Option<Proc>)

  /** What the locked part of each call does, and the process the caller must kill afterwards. */
  function Attach(h: Handle, p: Proc): (Handle, Option<Proc>) {
    if h.cancelled then (h, Some(p)) else (h.(process := Some(p)), None)
  }

  function Detach(h: Handle, p: Proc): Handle {
    if h.process == Some(p) then h.(process := None) else h
  }

  function Cancel(h: Handle): (Handle, Option<Proc>) {
    (h.(cancelled := true), h.process)
  }

  class CancellationHandle {
    var cancelled: bool
    var process: Option<Proc>

    ghost function Value(): Handle reads this { Handle(cancelled, process) }

    constructor ()
      ensures Value() == Handle(false, None)
    {
      cancelled, process := false, None;
    }

    /** `kill` is the process to terminate once the lock is released. */
    method AttachLocked(p: Proc) returns (kill: Option<Proc>)
      modifies this
      ensures (Value(), kill) == Attach(old(Value()), p)
      ensures cancelled == old(cancelled) && kill == if cancelled then Some(p) else None
      ensures process == if cancelled then old(process) else Some(p)
    {
      var already := cancelled;
      if !already { process := Some(p); }
      kill := if already then Some(p) else None;
    }

    method DetachLocked(p: Proc)
      modifies this
      ensures Value() == Detach(old(Value()), p)
      ensures cancelled == old(cancelled) && process == if old(process) == Some(p) then None else old(process)
    {
      if process == Some(p) { process := None; }
    }

    method CancelLocked() returns (kill: Option<Proc>)
      modifies this
      ensures (Value(), kill) == Cancel(old(Value()))
      ensures cancelled && process == old(process) && kill == process
    {
      cancelled := true;
      kill := process;
    }
  }

  // ----- the protocol -----

  /** Where the worker stands inside one call of the cancellable runner. */
  datatype Runner =
    | Between
    | Spawned(p: Proc)
    | MustKill(p: Proc)        // attach found the handle cancelled
    | Communicating(p: Proc)
    | TimedOut(p: Proc)        // about to kill its own child
    | Reaping(p: Proc)
    | Detaching(p: Proc)

  /** `cancelling` maps each cancelling thread to the process it read under the lock and has yet to kill. */
  datatype State = State(
    handle: Handle,
    runner: Runner,
    cancelling: map<Tid, Proc>,
    spawned: set<Proc>,
    attached: set<Proc>,
    detached: set<Proc>,
    detachedAtLatch: set<Proc>,
    timedOut: set<Proc>,
    killed: set<Proc>)

  ghost predicate Init(s: State) {
    s == State(Handle(false, None), Between, map[], {}, {}, {}, {}, {}, {})
  }

  datatype Step =
    | Spawns(p: Proc)          // Popen returned a new process
    | Attaches
    | KillsOnAttach
    | Finishes                 // communicate returned
    | TimesOut
    | KillsOnTimeout
    | Reaps
    | Detaches
    | Latches(t: Tid)          // the locked part of `cancel`
    | KillsOnCancel(t: Tid)

  ghost predicate Next(s: State, a: Step, s': State) {
    match a
    case Spawns(p) =>
      s.runner.Between? && p !in s.spawned && s' == s.(runner := Spawned(p), spawned := s.spawned + {p})
    case Attaches =>
      && s.runner.Spawned?
      && var (h, kill) := Attach(s.handle, s.runner.p);
         s' == s.(handle := h, attached := s.attached + {s.runner.p},
                  runner := if kill.Some? then MustKill(s.runner.p) else Communicating(s.runner.p))
    case KillsOnAttach =>
      s.runner.MustKill? && s' == s.(killed := s.killed + {s.runner.p}, runner := Communicating(s.runner.p))
    case Finishes =>
      s.runner.Communicating? && s' == s.(runner := Detaching(s.runner.p))
    case TimesOut =>
      s.runner.Communicating? && s' == s.(runner := TimedOut(s.runner.p), timedOut := s.timedOut + {s.runner.p})
    case KillsOnTimeout =>
      s.runner.TimedOut? && s' == s.(killed := s.killed + {s.runner.p}, runner := Reaping(s.runner.p))
    case Reaps =>
      s.runner.Reaping? && s' == s.(runner := Detaching(s.runner.p))
    case Detaches =>
      && s.runner.Detaching?
      && s' == s.(handle := Detach(s.handle, s.runner.p), detached := s.detached + {s.runner.p}, runner := Between)
    case Latches(t) =>
      && t !in s.cancelling
      && var (h, kill) := Cancel(s.handle);
         s' == s.(handle := h, cancelling := if kill.Some? then s.cancelling[t := kill.value] else s.cancelling,
                  detachedAtLatch := if s.handle.cancelled then s.detachedAtLatch else s.detached)
    case KillsOnCancel(t) =>
      t in s.cancelling && s' == s.(killed := s.killed + {s.cancelling[t]}, cancelling := s.cancelling - {t})
  }

  ghost predicate IsRun(run: seq<State>, steps: seq<Step>) {
    && |run| == |steps| + 1 && Init(run[0])
    && forall i :: 0 <= i < |steps| ==> Next(run[i], steps[i], run[i + 1])
  }

  /** The worker's current process is past its attach and before its detach. */
  predicate Live(r: Runner, p: Proc) { !r.Between? && !r.Spawned? && r.p == p }

  /** Somebody has already decided to kill `p` and has only to do it. */
  ghost predicate DueToDie(s: State, p: Proc) {
    s.runner == MustKill(p) || exists t :: t in s.cancelling && s.cancelling[t] == p
  }

  ghost predicate Inv(s: State) {
    && s.detached <= s.attached <= s.spawned && s.detachedAtLatch <= s.detached
    && (s.runner.Spawned? ==> s.runner.p in s.spawned && s.runner.p !in s.attached)
    && (forall p :: p in s.attached ==> p in s.detached || Live(s.runner, p))
    && (forall p :: Live(s.runner, p) ==> p in s.attached && p !in s.detached)
    && (!s.handle.cancelled ==> forall p: Proc :: Live(s.runner, p) ==> s.handle.process == Some(p))
    && (s.handle.process.Some? ==> Live(s.runner, s.handle.process.value))
    && (s.handle.cancelled ==> forall p ::
         p in s.attached && p !in s.detachedAtLatch ==> p in s.killed || DueToDie(s, p))
    && (!s.handle.cancelled ==> s.cancelling == map[] && !s.runner.MustKill?)
    && (forall t :: t in s.cancelling ==> s.cancelling[t] in s.attached && s.cancelling[t] !in s.detachedAtLatch)
    && (s.runner.MustKill? ==> s.runner.p !in s.detachedAtLatch)
    && (forall p :: p in s.killed ==>
         p in s.attached && (p in s.timedOut || (s.handle.cancelled && p !in s.detachedAtLatch)))
    && (s.runner.TimedOut? ==> s.runner.p in s.timedOut)
    && (forall p: Proc :: s.handle.cancelled && Live(s.runner, p) && !s.runner.MustKill? && s.handle.process != Some(p)
         ==> p in s.killed)
  }

  lemma DueStays(s: State, s': State, p: Proc)
    requires DueToDie(s, p) && s'.runner == s.runner
            && (forall t :: t in s.cancelling ==> t in s'.cancelling && s'.cancelling[t] == s.cancelling[t])
    ensures DueToDie(s', p)
  {
    if s.runner != MustKill(p) {
      var t :| t in s.cancelling && s.cancelling[t] == p;
      assert t in s'.cancelling && s'.cancelling[t] == p;
    }
  }

  lemma NextKeeps(s: State, a: Step, s': State)
    requires Inv(s) && Next(s, a, s')
    ensures Inv(s')
  {
    if s'.handle.cancelled {
      forall p | p in s'.attached && p !in s'.detachedAtLatch ensures p in s'.killed || DueToDie(s', p) {
        DueKeeps(s, a, s', p);
      }
    }
  }

  lemma DueKeeps(s: State, a: Step, s': State, p: Proc)
    requires Inv(s) && Next(s, a, s') && s'.handle.cancelled && p in s'.attached && p !in s'.detachedAtLatch
    ensures p in s'.killed || DueToDie(s', p)
  {
    match a
    case Attaches =>
      if p != s.runner.p && p !in s.killed {
        var t :| t in s.cancelling && s.cancelling[t] == p;
        assert s'.cancelling[t] == p;
      }
    case Latches(t) =>
      if !s.handle.cancelled {
        assert Live(s.runner, p) && s'.cancelling[t] == p;
      } else if p !in s.killed { DueStays(s, s', p); }
    case KillsOnCancel(t) =>
      if p !in s'.killed && s.runner != MustKill(p) {
        var u :| u in s.cancelling && s.cancelling[u] == p;
        assert u in s'.cancelling && s'.cancelling[u] == p;
      }
    case _ =>
      if p !in s'.killed {
        assert DueToDie(s, p) && s.runner != MustKill(p);
        var u :| u in s.cancelling && s.cancelling[u] == p;
        assert u in s'.cancelling && s'.cancelling[u] == p;
      }
  }

  lemma {:induction false} RunInv(run: seq<State>, steps: seq<Step>, k: nat)
    requires IsRun(run, steps) && k < |run|
    ensures Inv(run[k])
  {
    if k > 0 {
      RunInv(run, steps, k - 1);
      NextKeeps(run[k - 1], steps[k - 1], run[k]);
    }
  }

  // ----- main results -----

  /** After a latch: the latch, the record of what it found finished, and the only process still tracked. */
  lemma {:induction false} AfterLatch(run: seq<State>, steps: seq<Step>, j: nat, k: nat)
    requires IsRun(run, steps) && j < k < |run| && steps[j].Latches?
    ensures run[k].handle.cancelled && run[k].detachedAtLatch <= run[j].detached
    ensures run[k].handle.process.Some? ==> run[k].handle.process.value in run[j].attached
    ensures run[j].killed <= run[k].killed && run[j].attached <= run[k].attached
  {
    if k == j + 1 {
      RunInv(run, steps, j);
    } else {
      AfterLatch(run, steps, j, k - 1);
      assert Next(run[k - 1], steps[k - 1], run[k]);
    }
  }

  /**
   In every interleaving, a cancel reaches every process not yet detached when it latches and every
   one attached later.
   */
  lemma CancelReachesAll(run: seq<State>, steps: seq<Step>, j: nat, k: nat, p: Proc)
    requires IsRun(run, steps) && j < k < |run| && steps[j].Latches?
    requires p in run[k].attached && p !in run[j].detached
    ensures p in run[k].killed || DueToDie(run[k], p)
  {
    AfterLatch(run, steps, j, k);
    RunInv(run, steps, k);
  }

  /** A kill that is due can be carried out at once: nothing blocks it. */
  lemma DueCanStep(s: State, p: Proc) returns (a: Step, s': State)
    requires DueToDie(s, p)
    ensures Next(s, a, s') && p in s'.killed
  {
    if s.runner == MustKill(p) {
      a := KillsOnAttach;
      s' := s.(killed := s.killed + {p}, runner := Communicating(p));
    } else {
      var t :| t in s.cancelling && s.cancelling[t] == p;
      a := KillsOnCancel(t);
      s' := s.(killed := s.killed + {p}, cancelling := s.cancelling - {t});
    }
  }

  /** A process attached after a latch is killed before the worker ever waits for its output. */
  lemma NoWorkAfterCancel(run: seq<State>, steps: seq<Step>, j: nat, k: nat, p: Proc)
    requires IsRun(run, steps) && j < k < |run| && steps[j].Latches?
    requires p !in run[j].attached && run[k].runner == Communicating(p)
    ensures p in run[k].killed
  {
    AfterLatch(run, steps, j, k);
    RunInv(run, steps, k);
    assert Live(run[k].runner, p);
  }

  lemma {:induction false} LatchedOnce(run: seq<State>, steps: seq<Step>, k: nat) returns (j: nat)
    requires IsRun(run, steps) && k < |run| && run[k].handle.cancelled
    ensures j < k && steps[j].Latches? && run[k].detachedAtLatch == run[j].detached
  {
    assert Next(run[k - 1], steps[k - 1], run[k]);
    if run[k - 1].handle.cancelled { j := LatchedOnce(run, steps, k - 1); } else { j := k - 1; }
  }

  /** Conversely nothing is killed without cause: it timed out, or a cancel latched before it was detached. */
  lemma KilledForCause(run: seq<State>, steps: seq<Step>, k: nat, p: Proc)
    requires IsRun(run, steps) && k < |run| && p in run[k].killed
    ensures p in run[k].timedOut || exists j :: 0 <= j < k && steps[j].Latches? && p !in run[j].detached
  {
    RunInv(run, steps, k);
    if p !in run[k].timedOut { var j := LatchedOnce(run, steps, k); }
  }

  // ----- timeouts -----

  /** A process that timed out has been killed, unless its own worker is about to. */
  ghost predicate TimeoutsOk(s: State) {
    && (forall p :: p in s.timedOut ==> p in s.killed || s.runner == TimedOut(p))
    && (s.runner.TimedOut? || s.runner.Reaping? ==> s.runner.p in s.timedOut)
  }

  lemma {:induction false} RunTimeouts(run: seq<State>, steps: seq<Step>, k: nat)
    requires IsRun(run, steps) && k < |run|
    ensures TimeoutsOk(run[k])
  {
    if k > 0 {
      RunTimeouts(run, steps, k - 1);
      assert Next(run[k - 1], steps[k - 1], run[k]);
    }
  }

  /**
   A process that times out stays with its worker until it has been killed: it is neither reaped
   nor detached before.
   */
  lemma {:induction false} TimeoutKills(run: seq<State>, steps: seq<Step>, i: nat, k: nat, p: Proc)
    requires IsRun(run, steps) && i < k < |run| && steps[i].TimesOut? && run[i].runner == Communicating(p)
    ensures p in run[k].timedOut
    ensures p in run[k].killed || (run[k].runner == TimedOut(p)
            && forall m :: i < m < k ==> run[m].runner == TimedOut(p))
  {
    assert Next(run[k - 1], steps[k - 1], run[k]);
    if k > i + 1 { TimeoutKills(run, steps, i, k - 1, p); }
  }

  /** What the worker reaps has timed out and been killed. */
  lemma ReapsTheKilled(run: seq<State>, steps: seq<Step>, k: nat, p: Proc)
    requires IsRun(run, steps) && k < |run| && run[k].runner == Reaping(p)
    ensures p in run[k].timedOut && p in run[k].killed
  {
    RunTimeouts(run, steps, k);
  }
}
