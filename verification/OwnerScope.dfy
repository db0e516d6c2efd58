/** The owner scope. File cleanups share one closer bit, so one cleanup's resume can readmit
    callbacks that another has closed out; exactly when, and what holds otherwise. */
module OwnerScope {
  import opened LeaseWord
  import opened OwnerModel
  import opened OwnerHandover
  import opened Wrappers
  import Runs

  /** While a cleanup has its scope closed the owner bit is set, and once its quiesce has
      returned nothing is leased. */
  predicate CleanupLane(pc: CleanupPc, lane: Lane, d: Dir) {
    && (CleanupClosed(pc, d) ==> lane.word.owner)
    && (CleanupQuiet(pc, d) ==> lane.holders == {})
  }

  /** This holds for every cleanup in flight. */
  ghost predicate ScopeKept(s: State, d: Dir) {
    forall n :: n in s.cleanups ==> CleanupLane(s.cleanups[n], s.lanes.Of(d), d)
  }

  /** The cleanup's next step resumes the owner scope in direction `d`. */
  predicate Resumes(pc: CleanupPc, d: Dir) {
    pc.Tail? && pc.tail == (if d == Rx then TailResumeRx else TailResumeTx)
  }

  /** A cleanup resumes the scope while another has it closed. */
  ghost predicate Readmits(s: State, a: Action, d: Dir) {
    && a.StepCleanup? && a.n in s.cleanups && Resumes(s.cleanups[a.n], d)
    && exists m :: m in s.cleanups && m != a.n && CleanupClosed(s.cleanups[m], d)
  }

  // ----- the step that breaks it, and no other -----

  /** A cleanup's own step keeps its own view of the lane. */
  lemma OwnLane(s: State, n: nat, d: Dir)
    requires n in s.cleanups && CleanupLane(s.cleanups[n], s.lanes.Of(d), d)
    requires s.lanes.Of(d).word.count == 0 ==> s.lanes.Of(d).holders == {}
    ensures var s' := CleanupStep(s, n); n in s'.cleanups ==> CleanupLane(s'.cleanups[n], s'.lanes.Of(d), d)
  {}

  /** A cleanup clears the owner bit only by its resume. */
  lemma OwnerBit(s: State, n: nat, d: Dir)
    requires n in s.cleanups
    ensures var s' := CleanupStep(s, n);
            if Resumes(s.cleanups[n], d) then !s'.lanes.Of(d).word.owner
            else s.lanes.Of(d).word.owner ==> s'.lanes.Of(d).word.owner
  {}

  lemma CleanupKeepsScopeIff(s: State, n: nat, d: Dir)
    requires LeaseInv(s) && ScopeKept(s, d) && n in s.cleanups
    ensures ScopeKept(CleanupStep(s, n), d) <==> !Readmits(s, StepCleanup(n), d)
  {
    var s' := CleanupStep(s, n);
    assert LaneOk(s, d);
    CleanupFrame(s, n, d);
    CleanupFrames(s, n, d);
    OwnerBit(s, n, d);
    if Readmits(s, StepCleanup(n), d) {
      var m :| m in s.cleanups && m != n && CleanupClosed(s.cleanups[m], d);
      assert m in s'.cleanups && s'.cleanups[m] == s.cleanups[m];
      assert !CleanupLane(s'.cleanups[m], s'.lanes.Of(d), d);
    } else {
      forall m | m in s'.cleanups ensures CleanupLane(s'.cleanups[m], s'.lanes.Of(d), d) {
        if m == n {
          OwnLane(s, n, d);
        } else {
          assert CleanupLane(s.cleanups[m], s.lanes.Of(d), d);
        }
      }
    }
  }

  lemma CallbackLaneKept(s: State, n: nat, choice: Choice, pc: CleanupPc, d: Dir)
    requires n in s.callbacks && CallbackOk(s.pnp, s.callbacks[n]) && CleanupLane(pc, s.lanes.Of(d), d)
    ensures CleanupLane(pc, CallbackStep(s, n, choice).lanes.Of(d), d)
  {}

  lemma CallbackKeepsScope(s: State, n: nat, choice: Choice, d: Dir)
    requires LeaseInv(s) && ScopeKept(s, d) && n in s.callbacks
    ensures ScopeKept(CallbackStep(s, n, choice), d)
  {
    var s' := CallbackStep(s, n, choice);
    forall k | k in s'.cleanups ensures CleanupLane(s'.cleanups[k], s'.lanes.Of(d), d) {
      CallbackLaneKept(s, n, choice, s.cleanups[k], d);
    }
  }

  lemma PnpKeepsScope(s: State, ok: bool, d: Dir)
    requires LeaseInv(s) && ScopeKept(s, d)
    ensures ScopeKept(PnpStep(s, ok), d)
  {
    PnpFrame(s, ok, d);
  }

  lemma OtherKeepsScope(s: State, a: Action, d: Dir)
    requires ScopeKept(s, d) && Enabled(s, a) && !a.StepPnp? && !a.StepCleanup? && !a.StepCallback?
    ensures ScopeKept(Exec(s, a), d)
  {}

  /** Exactly one kind of action breaks the owner scope: a cleanup's resume while another
      cleanup has it closed. */
  lemma ScopeKeptIff(s: State, a: Action, d: Dir)
    requires Inv(s) && ScopeKept(s, d) && Enabled(s, a)
    ensures ScopeKept(Exec(s, a), d) <==> !Readmits(s, a, d)
  {
    if a.StepPnp? {
      PnpKeepsScope(s, a.ok, d);
    } else if a.StepCleanup? {
      CleanupKeepsScopeIff(s, a.n, d);
    } else if a.StepCallback? {
      CallbackKeepsScope(s, a.n, a.choice, d);
    } else {
      OtherKeepsScope(s, a, d);
    }
  }

  // ----- runs without that step -----

  ghost predicate OrderlyStep(s: State, s': State) {
    exists a :: Enabled(s, a) && !Readmits(s, a, Rx) && !Readmits(s, a, Tx) && s' == Exec(s, a)
  }

  ghost predicate IsOrderlyRun(run: seq<State>) { Runs.IsRun(run, START, OrderlyStep) }

  ghost predicate OrderlyInv(s: State) {
    Inv(s) && ScopeKept(s, Rx) && ScopeKept(s, Tx)
  }

  lemma StepKeepsOrder(s: State, s': State)
    requires OrderlyInv(s) && OrderlyStep(s, s')
    ensures OrderlyInv(s')
  {
    var a :| Enabled(s, a) && !Readmits(s, a, Rx) && !Readmits(s, a, Tx) && s' == Exec(s, a);
    ActionKeepsInv(s, a);
    ScopeKeptIff(s, a, Rx);
    ScopeKeptIff(s, a, Tx);
  }

  lemma OrderlyRunKeepsInv(run: seq<State>, i: nat)
    requires IsOrderlyRun(run) && i < |run|
    ensures OrderlyInv(run[i])
  {
    StartInv();
    forall s, s' | OrderlyInv(s) && OrderlyStep(s, s') ensures OrderlyInv(s') {
      StepKeepsOrder(s, s');
    }
    Runs.Induction(run, i, START, OrderlyStep, s => OrderlyInv(s));
  }

  /** Nested quiescence, owner: from the return of a cleanup's quiesce to its resume the owner
      bit stays set and nothing is leased, in every run in which no cleanup resumes the scope
      while another has it closed. The next file may be opened and used meanwhile. */
  lemma OwnerScopeStaysQuiet(run: seq<State>, i: nat, n: nat, d: Dir)
    requires IsOrderlyRun(run) && i < |run| && n in run[i].cleanups && CleanupQuiet(run[i].cleanups[n], d)
    ensures run[i].lanes.Of(d).word.owner && NothingLeased(run[i], d)
  {
    OrderlyRunKeepsInv(run, i);
    assert LaneOk(run[i], d);
    assert CleanupLane(run[i].cleanups[n], run[i].lanes.Of(d), d);
  }

  /** Owner isolation for file cleanup: no callback that passed its OPEN check is in flight
      when a cleanup clears or reopens a queue, in the same runs. */
  lemma CleanupQueueChangesExcludeCallbacks(run: seq<State>, i: nat, n: nat, d: Dir)
    requires IsOrderlyRun(run) && i < |run| && ChangesQueue(run[i], StepCleanup(n), d)
    ensures NothingPassed(run[i], d)
  {
    OwnerScopeStaysQuiet(run, i, n, d);
  }

  // ----- a condition on starts alone -----

  /** A file is not closed while the cleanup of the one before is still running. */
  ghost predicate SpacedStep(s: State, s': State) {
    exists a :: Enabled(s, a) && (a.StartCleanup? ==> s.cleanups == map[]) && s' == Exec(s, a)
  }

  ghost predicate AtMostOne(s: State) {
    forall m, n :: m in s.cleanups && n in s.cleanups ==> m == n
  }

  lemma SpacedKeepsOne(s: State, a: Action)
    requires AtMostOne(s) && Enabled(s, a) && (a.StartCleanup? ==> s.cleanups == map[])
    ensures AtMostOne(Exec(s, a))
  {
    if a.StepCleanup? {
      CleanupFrames(s, a.n, Rx);
    } else if a.StepPnp? {
      PnpFrames(s, a.ok);
    } else if a.StepCallback? {
      CallbackFrames(s, a.n, a.choice, Rx);
    }
  }

  /** Spacing the closes is enough: such runs are orderly. */
  lemma SpacedRunsAreOrderly(run: seq<State>)
    requires Runs.IsRun(run, START, SpacedStep)
    ensures IsOrderlyRun(run)
  {
    forall i | 0 <= i < |run| - 1 ensures Runs.StepAt(run, i, OrderlyStep) {
      SpacedRunHasOne(run, i);
      assert Runs.StepAt(run, i, SpacedStep);
      var s := run[i];
      var a :| Enabled(s, a) && (a.StartCleanup? ==> s.cleanups == map[]) && run[i + 1] == Exec(s, a);
      assert !Readmits(s, a, Rx) && !Readmits(s, a, Tx);
    }
  }

  lemma SpacedRunHasOne(run: seq<State>, i: nat)
    requires Runs.IsRun(run, START, SpacedStep) && i < |run|
    ensures AtMostOne(run[i])
  {
    forall s, s' | AtMostOne(s) && SpacedStep(s, s') ensures AtMostOne(s') {
      var a :| Enabled(s, a) && (a.StartCleanup? ==> s.cleanups == map[]) && s' == Exec(s, a);
      SpacedKeepsOne(s, a);
    }
    Runs.Induction(run, i, START, SpacedStep, s => AtMostOne(s));
  }
}
