/** Runs of a transition system and induction along them. */
module Runs {

  /** `run` starts at `start` and every state follows from the one before. */
  ghost predicate IsRun<S(!new)>(run: seq<S>, start: S, next: (S, S) -> bool) {
    && |run| > 0
    && run[0] == start
    && forall i :: 0 <= i < |run| - 1 ==> StepAt(run, i, next)
  }

  ghost predicate StepAt<S(!new)>(run: seq<S>, i: nat, next: (S, S) -> bool)
    requires i < |run| - 1
  {
    next(run[i], run[i + 1])
  }

  /** What holds at the start and survives every step holds along every run. */
  lemma {:induction false} Induction<S(!new)>(run: seq<S>, i: nat, start: S, next: (S, S) -> bool, good: S -> bool)
    requires IsRun(run, start, next) && i < |run|
    requires good(start)
    requires forall s, s' :: good(s) && next(s, s') ==> good(s')
    ensures good(run[i])
  {
    if i > 0 {
      Induction(run, i - 1, start, next, good);
      assert StepAt(run, i - 1, next);
    }
  }

  lemma Extend<S(!new)>(run: seq<S>, start: S, next: (S, S) -> bool, s: S)
    requires IsRun(run, start, next) && next(run[|run| - 1], s)
    ensures IsRun(run + [s], start, next)
  {
    var longer := run + [s];
    forall i | 0 <= i < |longer| - 1 ensures StepAt(longer, i, next) {
      assert i < |run| - 1 ==> StepAt(run, i, next);
    }
  }
}
