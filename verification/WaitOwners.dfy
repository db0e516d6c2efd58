/** Whose wait is published. A wait belongs to the file that sent it; the driver tells owners
    apart only by the teardown each file cleanup runs and by adaptive mode. */
module WaitOwners {
  import opened WaitRecord
  import opened WaitModel
  import opened WaitOwnership
  import opened WaitWakeup
  import Runs

  /** The registrar has read adaptive mode on and is not published yet. */
  predicate ReadMode(pc: Pc) {
    match pc
    case Register(_, _, at) => at.CheckTx? || at.CheckRx? || at.MarkCancelable?
    case Publish(_, _, at) => at.LoadRegistering? || at.CasPending?
    case _ => false
  }

  /** A wait is published, or its registration has read adaptive mode. */
  predicate Enrolled(s: State) {
    || Claimable(s.rec.word.phase)
    || (s.rec.word.phase == Registering && Control in s.threads && ReadMode(s.threads[Control]))
  }

  predicate Handles(s: State) {
    Control in s.threads && s.threads[Control].Register?
  }

  /** A cleanup that is about to retire its owner is on the list. */
  predicate RetiresListed(t: Tid, pc: Pc, cleanups: set<nat>) {
    pc == Tear(RetireOwner) ==> t.Closer? && t.n in cleanups
  }

  ghost predicate OwnersOk(s: State) {
    && s.audit.trail.asked <= s.dev.ownerGen
    && (forall t :: t in s.threads ==> RetiresListed(t, s.threads[t], s.dev.cleanups))
    && (Handles(s) && s.audit.trail.prompt && s.dev.adaptive && s.audit.trail.asked != s.dev.ownerGen
        ==> s.dev.cleanups != {})
    && (Enrolled(s) ==>
          if s.audit.trail.late then s.audit.trail.owner < s.dev.ownerGen
          else s.audit.trail.owner <= s.dev.ownerGen && (s.audit.trail.owner != s.dev.ownerGen ==> TornDown(s)))
  }

  // ----- one step of a thread -----

  predicate TrailStep(s: State, s': State) {
    && s'.audit.trail.asked == s.audit.trail.asked && s'.audit.trail.prompt == s.audit.trail.prompt
    && (Enrolled(s') ==>
          || (Enrolled(s) && s'.audit.trail.owner == s.audit.trail.owner && s'.audit.trail.late == s.audit.trail.late)
          || (s'.audit.trail == Enlisted(s.audit.trail, s.dev.ownerGen) && s'.dev.ownerGen == s.dev.ownerGen))
  }

  predicate ModeStep(s: State, s': State, t: Tid) {
    && OthersStay(s, s', t)
    && s'.dev.cleanups == s.dev.cleanups && s'.dev.adaptive == s.dev.adaptive
    && (Handles(s') ==> Handles(s))
    && (t in s'.threads ==> s'.threads[t] != Tear(RetireOwner))
    && (s'.dev.ownerGen == s.dev.ownerGen ||
        (s'.dev.ownerGen == s.dev.ownerGen + 1 && t in s.threads && s.threads[t] == Tear(RetireOwner)
         && t in s'.threads && s'.threads[t] == Tear(CloseGate)))
  }

  predicate OwnerMove(s: State, s': State, t: Tid) {
    TrailStep(s, s') && ModeStep(s, s', t)
  }

  lemma RegisterTrail(s: State, t: Tid, h: Handle, want: Mask, at: RegisterAt, ok: bool)
    requires Alert(s, t) && s.threads[t] == Register(h, want, at)
    ensures TrailStep(s, RegisterStep(s, t, h, want, at, ok))
  {}

  lemma RegisterMoves(s: State, t: Tid, h: Handle, want: Mask, at: RegisterAt, ok: bool)
    requires Alert(s, t) && s.threads[t] == Register(h, want, at)
    ensures OwnerMove(s, RegisterStep(s, t, h, want, at, ok), t)
  {
    RegisterTrail(s, t, h, want, at, ok);
  }

  lemma PublishMoves(s: State, t: Tid, h: Handle, want: Mask, at: PublishAt, ok: bool)
    requires Alert(s, t) && s.threads[t] == Publish(h, want, at)
    ensures OwnerMove(s, PublishStep(s, t, h, want, at, ok), t)
  {}

  lemma ClaimTrail(s: State, t: Tid, cond: Mask, expected: Handle, back: Resume, at: ClaimAt, ok: bool)
    requires Alert(s, t) && s.threads[t] == Claim(cond, expected, back, at)
    ensures TrailStep(s, ClaimStep(s, t, cond, expected, back, at, ok))
  {}

  lemma ClaimMode(s: State, t: Tid, cond: Mask, expected: Handle, back: Resume, at: ClaimAt, ok: bool)
    requires Alert(s, t) && s.threads[t] == Claim(cond, expected, back, at)
    ensures ModeStep(s, ClaimStep(s, t, cond, expected, back, at, ok), t)
  {}

  lemma ClaimMoves(s: State, t: Tid, cond: Mask, expected: Handle, back: Resume, at: ClaimAt, ok: bool)
    requires Alert(s, t) && s.threads[t] == Claim(cond, expected, back, at)
    ensures OwnerMove(s, ClaimStep(s, t, cond, expected, back, at, ok), t)
  {
    ClaimTrail(s, t, cond, expected, back, at, ok);
    ClaimMode(s, t, cond, expected, back, at, ok);
  }

  lemma FinishMoves(s: State, t: Tid, after: After, at: FinishAt)
    requires Alert(s, t) && s.threads[t] == Finish(after, at)
    ensures OwnerMove(s, FinishStep(s, t, after, at), t)
  {}

  lemma CompleteMoves(s: State, t: Tid, h: Handle, outcome: Outcome, ok: bool)
    requires Alert(s, t) && s.threads[t] == Complete(h, outcome)
    ensures OwnerMove(s, CompleteStep(s, t, h, outcome, ok), t)
  {}

  lemma UnmarkMoves(s: State, t: Tid, h: Handle, at: UnmarkAt, ok: bool)
    requires Alert(s, t) && s.threads[t] == Unmark(h, at)
    ensures OwnerMove(s, UnmarkStep(s, t, h, at, ok), t)
  {}

  lemma TeardownGateMoves(s: State, t: Tid, at: TeardownAt, ok: bool)
    requires Alert(s, t) && s.threads[t] == Tear(at) && !Scans(at)
    ensures OwnerMove(s, TeardownStep(s, t, at, ok), t)
  {}

  lemma TeardownScanMoves(s: State, t: Tid, at: TeardownAt, ok: bool)
    requires Alert(s, t) && s.threads[t] == Tear(at) && Scans(at)
    ensures OwnerMove(s, TeardownStep(s, t, at, ok), t)
  {}

  lemma TeardownMoves(s: State, t: Tid, at: TeardownAt, ok: bool)
    requires Alert(s, t) && s.threads[t] == Tear(at)
    ensures OwnerMove(s, TeardownStep(s, t, at, ok), t)
  {
    if Scans(at) { TeardownScanMoves(s, t, at, ok); } else { TeardownGateMoves(s, t, at, ok); }
  }

  lemma WorkerMoves(s: State, t: Tid, at: WorkAt, ok: bool)
    requires Alert(s, t) && s.threads[t] == Work(at)
    ensures OwnerMove(s, WorkerStep(s, t, at, ok), t)
  {}

  lemma CancelMoves(s: State, t: Tid, h: Handle, at: CancelAt, ok: bool)
    requires Alert(s, t) && s.threads[t] == Cancelling(h, at)
    ensures OwnerMove(s, CancelStep(s, t, h, at, ok), t)
  {}

  lemma PacketMoves(s: State, t: Tid, at: PacketAt, ok: bool)
    requires Alert(s, t) && s.threads[t] == Packet(at)
    ensures OwnerMove(s, PacketStep(s, t, at, ok), t)
  {}

  lemma ThreadMoves(s: State, t: Tid, ok: bool)
    requires Alert(s, t)
    ensures OwnerMove(s, ThreadStep(s, t, ok), t)
  {
    match s.threads[t]
    case Register(h, want, at) => RegisterMoves(s, t, h, want, at, ok);
    case Publish(h, want, at) => PublishMoves(s, t, h, want, at, ok);
    case Claim(cond, expected, back, at) => ClaimMoves(s, t, cond, expected, back, at, ok);
    case Finish(after, at) => FinishMoves(s, t, after, at);
    case Complete(h, outcome) => CompleteMoves(s, t, h, outcome, ok);
    case Unmark(h, at) => UnmarkMoves(s, t, h, at, ok);
    case Tear(at) => TeardownMoves(s, t, at, ok);
    case Work(at) => WorkerMoves(s, t, at, ok);
    case Cancelling(h, at) => CancelMoves(s, t, h, at, ok);
    case Packet(at) => PacketMoves(s, t, at, ok);
  }

  lemma EnrolledIsLive(s: State)
    requires Inv(s) && Enrolled(s)
    ensures Live(s.rec)
  {
    if Control in s.threads {
      assert ThreadOk(s, Control);
    }
  }

  lemma StepKeepsOwners(s: State, s': State, t: Tid)
    requires Inv(s) && Inv(s') && OwnersOk(s) && OwnerMove(s, s', t) && Progress(s, s', t)
    ensures OwnersOk(s')
  {
    forall u | u in s'.threads ensures RetiresListed(u, s'.threads[u], s'.dev.cleanups) {
      if u != t {
        Others(s, s', t, u);
        assert RetiresListed(u, s.threads[u], s.dev.cleanups);
      }
    }
    if s'.dev.ownerGen != s.dev.ownerGen {
      assert RetiresListed(t, s.threads[t], s.dev.cleanups);
      assert Tearing(s'.threads[t]);
    } else if Enrolled(s') && Enrolled(s) && TornDown(s) {
      EnrolledIsLive(s);
      EnrolledIsLive(s');
      KeepsTornDown(s, s', t);
    }
  }

  // ----- everything else -----

  /** What no action from outside touches: published waits, running threads, the owner. */
  ghost predicate Beside(s: State, s': State) {
    && s'.rec == s.rec && s'.dev.ownerGen == s.dev.ownerGen
    && s'.audit.trail.owner == s.audit.trail.owner && s'.audit.trail.late == s.audit.trail.late
    && (forall u :: u in s.threads ==> u in s'.threads && s'.threads[u] == s.threads[u])
    && (forall u :: u in s'.threads && u !in s.threads ==>
          !ReadMode(s'.threads[u]) && RetiresListed(u, s'.threads[u], s'.dev.cleanups))
  }

  /** Who may change adaptive mode, the list of cleanups and the request being handled. */
  predicate ModeKept(s: State, s': State) {
    && (s.dev.cleanups <= s'.dev.cleanups ||
        (!s'.dev.adaptive
         && forall n :: n in s.dev.cleanups && n !in s'.dev.cleanups ==> Closer(n) !in s.threads))
    && (Handles(s') ==>
          if Handles(s)
          then && s'.audit.trail.asked == s.audit.trail.asked && s'.audit.trail.prompt == s.audit.trail.prompt
               && (s'.dev.adaptive ==> s.dev.adaptive)
          else s'.audit.trail.prompt ==> s'.audit.trail.asked == s'.dev.ownerGen)
    && s'.audit.trail.asked <= s'.dev.ownerGen
  }

  lemma DispatchBeside(s: State, a: Action)
    requires Enabled(s, a) && (a.DispatchWait? || a.DispatchStop? || a.DispatchCancel?) && s.audit.trail.asked <= s.dev.ownerGen
    requires a.DispatchCancel? ==> Cancel(a.h) !in s.threads
    ensures Beside(s, Exec(s, a)) && ModeKept(s, Exec(s, a))
  {}

  lemma StartBeside(s: State, a: Action)
    requires Enabled(s, a) && s.audit.trail.asked <= s.dev.ownerGen
    requires a.StartWorker? || a.LoopWorker? || a.StartProducer? || a.StartReceive? || a.StartTeardown?
    ensures Beside(s, Exec(s, a)) && ModeKept(s, Exec(s, a))
  {}

  lemma QueueBeside(s: State, a: Action)
    requires Enabled(s, a) && s.audit.trail.asked <= s.dev.ownerGen
    requires a.ReadCaptured? || a.WriteInjected? || a.CloseQueue? || a.ReopenQueue?
    ensures Beside(s, Exec(s, a)) && ModeKept(s, Exec(s, a))
  {}

  lemma DeviceBeside(s: State, a: Action)
    requires Enabled(s, a) && s.audit.trail.asked <= s.dev.ownerGen
    requires a.OpenLifecycle? || a.EnableAdaptive? || a.DisableAdaptive? || a.StartQueue? || a.ReleaseQueues?
    ensures Beside(s, Exec(s, a)) && ModeKept(s, Exec(s, a))
  {}

  lemma BesideKeepsOwners(s: State, s': State)
    requires OwnersOk(s) && Beside(s, s') && ModeKept(s, s')
    ensures OwnersOk(s')
  {
    forall u | u in s'.threads ensures RetiresListed(u, s'.threads[u], s'.dev.cleanups) {
      if u in s.threads {
        assert RetiresListed(u, s.threads[u], s.dev.cleanups);
      }
    }
    if TornDown(s) {
      var u :| u in s.threads && Tearing(s.threads[u]);
      assert u in s'.threads && Tearing(s'.threads[u]);
    }
  }

  lemma ActionKeepsOwners(s: State, a: Action)
    requires Good(s) && OwnersOk(s) && Enabled(s, a)
    ensures OwnersOk(Exec(s, a))
  {
    if a.Step? {
      InvKnows(s, a.t);
      ThreadMoves(s, a.t, a.ok);
      ActionProgress(s, a);
      ActionKeepsInv(s, a);
      StepKeepsOwners(s, Exec(s, a), a.t);
    } else {
      if a.DispatchWait? || a.DispatchStop? || a.DispatchCancel? {
        if a.DispatchCancel? {
          assert RequestOk(s.rec, s.threads, a.h, s.requests[a.h]);
        }
        DispatchBeside(s, a);
      } else if a.StartWorker? || a.LoopWorker? || a.StartProducer? || a.StartReceive? || a.StartTeardown? {
        StartBeside(s, a);
      } else if a.ReadCaptured? || a.WriteInjected? || a.CloseQueue? || a.ReopenQueue? {
        QueueBeside(s, a);
      } else {
        DeviceBeside(s, a);
      }
      BesideKeepsOwners(s, Exec(s, a));
    }
  }

  ghost predicate Settled(s: State) { Good(s) && OwnersOk(s) }

  lemma NextKeepsSettled(s: State, s': State)
    requires Settled(s) && Next(s, s')
    ensures Settled(s')
  {
    NextKeepsGood(s, s');
    var a :| Enabled(s, a) && s' == Exec(s, a);
    ActionKeepsOwners(s, a);
  }

  lemma RunStaysSettled(run: seq<State>, i: nat)
    requires IsRun(run) && i < |run|
    ensures OwnersOk(run[i])
  {
    StartInv();
    StartAwake();
    forall s, s' | Settled(s) && Next(s, s') ensures Settled(s') {
      NextKeepsSettled(s, s');
    }
    Runs.Induction(run, i, START, Next, s => Settled(s));
  }

  // ----- what it gives -----

  /** With no teardown in flight, a published wait belongs to the current owner if and only
      if its owner was current when the registration read adaptive mode: the cleanup that
      retires an owner takes that owner's wait along. */
  lemma PublishedWaitIsCurrentIff(run: seq<State>, i: nat)
    requires IsRun(run) && i < |run| && Claimable(run[i].rec.word.phase)
    requires forall t :: t in run[i].threads ==> !Tearing(run[i].threads[t])
    ensures run[i].audit.trail.owner == run[i].dev.ownerGen <==> !run[i].audit.trail.late
  {
    RunStaysSettled(run, i);
  }

  /** A request that was dispatched under its own owner can be late only while a cleanup has
      adaptive mode still to switch off. */
  lemma LateOnlyUnderCleanup(run: seq<State>, i: nat)
    requires IsRun(run) && i < |run| && Handles(run[i])
    requires run[i].dev.adaptive && run[i].audit.trail.prompt && run[i].dev.cleanups == {}
    ensures run[i].audit.trail.asked == run[i].dev.ownerGen
  {
    RunStaysSettled(run, i);
  }
}
