/**
 Runs built step by step: how a stretch of a run grows, and the stretch every process starts
 with.
 */
module EngineRuns {
  import opened Common
  import opened Recovery
  import opened Engine
  import Q = Queue

  /** A stretch of a run: consecutive states, each one step after the one before. */
  ghost predicate Linked(run: seq<State>, steps: seq<Step>) {
    |run| == |steps| + 1 && forall i: nat :: i < |steps| ==> StepAt(run, steps, i)
  }

  ghost function Last(run: seq<State>): State
    requires run != []
  {
    run[|run| - 1]
  }

  lemma Extend(run: seq<State>, steps: seq<Step>, a: Step, s': State) returns (run': seq<State>, steps': seq<Step>)
    requires Linked(run, steps) && Next(Last(run), a, s')
    ensures Linked(run', steps') && Last(run') == s' && run'[0] == run[0]
    ensures run' == run + [s'] && steps' == steps + [a]
  {
    run', steps' := run + [s'], steps + [a];
    forall i: nat | i < |steps'| ensures StepAt(run', steps', i) {
      if i < |steps| { assert StepAt(run, steps, i); }
    }
  }

  /** A fresh process over an empty history, with one request thread. */
  ghost function Booted(n: nat): State {
    State(true, Q.EMPTY, map[0 := Thread(Free, NoRefill, NoEnq)], {}, {}, false, n, None, None, [], {}, [], {})
  }

  lemma BootsEmpty(n: nat) returns (run: seq<State>, steps: seq<Step>)
    requires n >= 1
    ensures Linked(run, steps) && Init(run[0]) && Last(run) == Booted(n)
    ensures forall a :: a in steps ==> a.Life? && !a.life.Crashes?
  {
    var s0 := State(false, Q.EMPTY, map[], {}, {}, false, n, None, None, [], {}, [], {});
    var settings := Settings(NO_TARGETS, None);
    var s1 := s0.(up := true);
    assert RecoveredQueue([], settings) == Q.EMPTY && Marked([], settings) == [];
    run, steps := Extend([s0], [], Life(0, Boots(settings)), s1);
    run, steps := Extend(run, steps, Life(0, Spawns), Booted(n));
  }
}
