/** Whether OPEN means that both queues are open. It does, until a cleanup that does not own
    the lifecycle clears a queue the device has put into service; exactly then it fails. */
module OwnerQueues {
  import opened LeaseWord
  import opened OwnerModel
  import opened OwnerHandover
  import opened Wrappers
  import Runs

  /** The lane is in service: the lifecycle is OPEN, or D0 entry has reopened the lane and is
      about to publish it. */
  predicate InService(s: State, d: Dir) {
    || s.life.lifecycle == Open
    || (s.pnp.Entry? && (s.pnp.entry == PublishOpen || (d == Rx && s.pnp.entry == ReopenTx)))
  }

  /** The cleanup has reopened the lane and is about to publish OPEN. */
  predicate Reopened(pc: CleanupPc, d: Dir) {
    pc == Confirm || (d == Rx && pc == CuReopenTx)
  }

  ghost predicate OpenLane(s: State, d: Dir) {
    && (InService(s, d) ==> s.lanes.Of(d).open)
    && (forall n :: n in s.cleanups && Reopened(s.cleanups[n], d) ==> s.lanes.Of(d).open)
  }

  /** A cleanup clears the lane while it is in service. */
  predicate ClearsInService(s: State, a: Action, d: Dir) {
    && a.StepCleanup? && a.n in s.cleanups && s.cleanups[a.n].Shutting?
    && s.cleanups[a.n].shut == (if d == Rx then ClearRx else ClearTx)
    && InService(s, d)
  }

  // ----- the step that breaks it, and no other -----

  /** A cleanup opens a lane by its reopen, closes it by its clear, and leaves it otherwise. */
  lemma CleanupOpens(s: State, n: nat, d: Dir)
    requires n in s.cleanups
    ensures var s', pc := CleanupStep(s, n), s.cleanups[n];
            s'.lanes.Of(d).open ==
              if pc == (if d == Rx then CuReopenRx else CuReopenTx) then true
              else if pc.Shutting? && pc.shut == (if d == Rx then ClearRx else ClearTx) then false
              else s.lanes.Of(d).open
  {}

  lemma CleanupServes(s: State, n: nat, d: Dir)
    requires n in s.cleanups
    ensures var s' := CleanupStep(s, n);
            && s'.pnp == s.pnp
            && (InService(s', d) ==> InService(s, d) || s.cleanups[n] == Confirm)
            && (InService(s, d) && !InService(s', d) ==> s.cleanups[n] == ClaimOwner)
            && (n in s'.cleanups && Reopened(s'.cleanups[n], d) ==>
                  Reopened(s.cleanups[n], d) || s.cleanups[n] == (if d == Rx then CuReopenRx else CuReopenTx))
  {}

  /** A cleanup that clears holds the direct-read lock, so no other is between its reopen and
      its publication. */
  lemma ClearingIsAlone(s: State, n: nat, m: nat, d: Dir)
    requires LockInv(s) && n in s.cleanups && m in s.cleanups && m != n
    requires s.cleanups[n].Shutting? && s.cleanups[n].shut == (if d == Rx then ClearRx else ClearTx)
    ensures !Reopened(s.cleanups[m], d)
  {
    assert CleanupOk(s, n, s.cleanups[n]);
    assert CleanupOk(s, m, s.cleanups[m]);
  }

  lemma CleanupKeepsLaneIff(s: State, n: nat, d: Dir)
    requires LockInv(s) && OpenLane(s, d) && n in s.cleanups
    ensures OpenLane(CleanupStep(s, n), d) <==> !ClearsInService(s, StepCleanup(n), d)
  {
    var s', pc := CleanupStep(s, n), s.cleanups[n];
    CleanupFrames(s, n, d);
    CleanupOpens(s, n, d);
    CleanupServes(s, n, d);
    forall m | m in s'.cleanups && m != n && Reopened(s'.cleanups[m], d) && !ClearsInService(s, StepCleanup(n), d)
      ensures s'.lanes.Of(d).open
    {
      assert m in s.cleanups && Reopened(s.cleanups[m], d);
      if pc.Shutting? && pc.shut == (if d == Rx then ClearRx else ClearTx) {
        ClearingIsAlone(s, n, m, d);
      }
    }
  }

  /** The PnP thread closes a lane only out of service, and never under a cleanup that has
      reopened it. */
  lemma PnpOpens(s: State, ok: bool, d: Dir)
    ensures var s' := PnpStep(s, ok);
            s'.lanes.Of(d).open ==
              if s.pnp.Entry? && s.pnp.entry == (if d == Rx then ReopenRx else ReopenTx) then true
              else if s.pnp.Shut? && s.pnp.shut == (if d == Rx then ClearRx else ClearTx) then false
              else s.lanes.Of(d).open
  {}

  lemma PnpServes(s: State, ok: bool, d: Dir)
    requires ServiceOk(s)
    ensures var s' := PnpStep(s, ok);
            && (InService(s', d) ==> InService(s, d) || (s.pnp.Entry? && s.pnp.entry == (if d == Rx then ReopenRx else ReopenTx)))
            && (s.pnp.Shut? ==> !InService(s', d))
  {}

  lemma PnpKeepsLane(s: State, ok: bool, d: Dir)
    requires ServiceOk(s) && LockInv(s) && OpenLane(s, d)
    ensures OpenLane(PnpStep(s, ok), d)
  {
    var s' := PnpStep(s, ok);
    PnpFrames(s, ok);
    PnpOpens(s, ok, d);
    PnpServes(s, ok, d);
    forall m | m in s'.cleanups && Reopened(s'.cleanups[m], d) ensures s'.lanes.Of(d).open {
      assert CleanupOk(s, m, s.cleanups[m]);
    }
  }

  lemma CallbackKeepsLane(s: State, n: nat, choice: Choice, d: Dir)
    requires OpenLane(s, d) && n in s.callbacks
    ensures OpenLane(CallbackStep(s, n, choice), d)
  {}

  lemma OtherKeepsLane(s: State, a: Action, d: Dir)
    requires OpenLane(s, d) && Enabled(s, a) && !a.StepPnp? && !a.StepCleanup? && !a.StepCallback?
    ensures OpenLane(Exec(s, a), d)
  {}

  /** Exactly one kind of action breaks it: a cleanup's clear of a lane in service. */
  lemma OpenLaneIff(s: State, a: Action, d: Dir)
    requires Inv(s) && OpenLane(s, d) && Enabled(s, a)
    ensures OpenLane(Exec(s, a), d) <==> !ClearsInService(s, a, d)
  {
    if a.StepPnp? {
      PnpKeepsLane(s, a.ok, d);
    } else if a.StepCleanup? {
      CleanupKeepsLaneIff(s, a.n, d);
    } else if a.StepCallback? {
      CallbackKeepsLane(s, a.n, a.choice, d);
    } else {
      OtherKeepsLane(s, a, d);
    }
  }

  // ----- runs without that step -----

  ghost predicate ServingStep(s: State, s': State) {
    exists a :: Enabled(s, a) && !ClearsInService(s, a, Rx) && !ClearsInService(s, a, Tx) && s' == Exec(s, a)
  }

  ghost predicate ServingInv(s: State) {
    Inv(s) && OpenLane(s, Rx) && OpenLane(s, Tx)
  }

  lemma StepKeepsServing(s: State, s': State)
    requires ServingInv(s) && ServingStep(s, s')
    ensures ServingInv(s')
  {
    var a :| Enabled(s, a) && !ClearsInService(s, a, Rx) && !ClearsInService(s, a, Tx) && s' == Exec(s, a);
    ActionKeepsInv(s, a);
    OpenLaneIff(s, a, Rx);
    OpenLaneIff(s, a, Tx);
  }

  /** In every run in which no cleanup clears a lane in service, OPEN means that both queues
      are open. */
  lemma OpenMeansQueuesOpen(run: seq<State>, i: nat)
    requires Runs.IsRun(run, START, ServingStep) && i < |run|
    ensures run[i].life.lifecycle == Open ==> run[i].lanes.rx.open && run[i].lanes.tx.open
  {
    StartInv();
    forall s, s' | ServingInv(s) && ServingStep(s, s') ensures ServingInv(s') {
      StepKeepsServing(s, s');
    }
    Runs.Induction(run, i, START, ServingStep, s => ServingInv(s));
    assert ServingInv(run[i]);
  }
}
