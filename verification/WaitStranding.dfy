/** A run that strands a ready wait. The device is suspended and the file is closed; its
    cleanup is through cancelling the wait and clearing the queues when D0 entry reopens
    them and publishes OPEN; a WAIT_FOR_CHANGE that was issued on the closed file before
    its handle went away is dispatched and passes every check, none of which asks whether
    its file is still open; then the cleanup switches adaptive mode off and the next
    captured frame's claim is refused. */
module WaitStranding {
  import opened WaitRecord
  import opened WaitModel
  import opened WaitOwnership
  import opened WaitWakeup
  import Runs

  ghost predicate Reaches(s: State) {
    exists run :: IsRun(run) && run[|run| - 1] == s
  }

  lemma Do(s: State, a: Action, s': State)
    requires Reaches(s) && Enabled(s, a) && s' == Exec(s, a)
    ensures Reaches(s')
  {
    var run :| IsRun(run) && run[|run| - 1] == s;
    assert Next(s, s');
    Runs.Extend(run, START, Next, s');
    assert IsRun(run + [s']);
  }

  lemma Tick(s: State, s': State, t: Tid)
    requires Reaches(s) && t in s.threads && s' == ThreadStep(s, t, true)
    ensures Reaches(s')
  {
    Do(s, Step(t, true), s');
  }

  // ----- suspended, then closed -----

  const FREE_RECORD := Shared(Record(0, NO_BITS, Free), NULL, NoHandoff, NO_BITS, 0, 0)
  const NO_TRAIL := Trail(NO_BITS, 0, false, 0, false)

  /** Queues whose generations both stand at `gen`. */
  function Lanes(open: bool, gen: nat): Queues {
    Queues(0, open, gen, 0, open, gen)
  }

  /** The device before any wait. */
  function Bare(q: Queues, dev: Device, threads: map<Tid, Pc>): State {
    State(FREE_RECORD, q, dev, threads, map[], Audit(Undecided, false, false, [], NO_TRAIL))
  }

  function Dev(open: bool, tx: bool, gen: nat, cleanups: set<nat>): Device {
    Device(open, true, tx, false, gen, false, cleanups)
  }

  /** One teardown from its gate to its end, with nothing to cancel. */
  lemma TearsDown(q: Queues, open: bool, gen: nat, cleanups: set<nat>, n: nat)
    requires Reaches(Bare(q, Dev(open, false, gen, cleanups), map[Closer(n) := Tear(CloseGate)]))
    ensures Reaches(Bare(q, Dev(false, false, gen, cleanups), map[]))
  {
    var shut := Dev(false, false, gen, cleanups);
    var s0 := Bare(q, Dev(open, false, gen, cleanups), map[Closer(n) := Tear(CloseGate)]);
    var s1 := Bare(q, shut, map[Closer(n) := Tear(Drain)]);
    Tick(s0, s1, Closer(n));
    var s2 := Bare(q, shut, map[Closer(n) := Tear(LoadPhase(NULL))]);
    Tick(s1, s2, Closer(n));
    Tick(s2, Bare(q, shut, map[]), Closer(n));
  }

  /** Clearing or reopening both queues. */
  lemma BothQueues(open: bool, gen: nat, dev: Device, was: bool)
    requires Reaches(Bare(Lanes(was, gen), dev, map[])) && (open ==> !dev.open)
    ensures Reaches(Bare(Lanes(open, gen + 1), dev, map[]))
  {
    var s := Bare(Lanes(was, gen), dev, map[]);
    var half := Bare(Queues(0, open, gen + 1, 0, was, gen), dev, map[]);
    Do(s, if open then ReopenQueue(true) else CloseQueue(true), half);
    Do(half, if open then ReopenQueue(false) else CloseQueue(false), Bare(Lanes(open, gen + 1), dev, map[]));
  }

  lemma ReachesSuspended()
    ensures Reaches(Bare(Lanes(false, 1), Dev(false, false, 0, {}), map[]))
  {
    assert IsRun([START]);
    assert Reaches(START);
    var s1 := START.(dev := START.dev.(open := true));
    Do(START, OpenLifecycle, s1);
    var s2 := Bare(Lanes(true, 0), Dev(true, false, 0, {}), map[]);
    Do(s1, EnableAdaptive, s2);
    Do(s2, StartTeardown(1, PowerOrHardware), Bare(Lanes(true, 0), Dev(true, false, 0, {}), map[Closer(1) := Tear(CloseGate)]));
    TearsDown(Lanes(true, 0), true, 0, {}, 1);
    BothQueues(false, 0, Dev(false, false, 0, {}), true);
  }

  /** The file cleanup has cancelled and cleared, and has adaptive mode still to switch off. */
  lemma ReachesCleared()
    ensures Reaches(Bare(Lanes(false, 2), Dev(false, false, 1, {0}), map[]))
  {
    ReachesSuspended();
    var q := Lanes(false, 1);
    var s0 := Bare(q, Dev(false, false, 0, {}), map[]);
    var s1 := Bare(q, Dev(false, false, 0, {0}), map[Closer(0) := Tear(RetireOwner)]);
    Do(s0, StartTeardown(0, Owner), s1);
    Tick(s1, Bare(q, Dev(false, false, 1, {0}), map[Closer(0) := Tear(CloseGate)]), Closer(0));
    TearsDown(q, false, 1, {0}, 0);
    BothQueues(false, 1, Dev(false, false, 1, {0}), false);
  }

  const Q := Lanes(true, 3)
  const DEV := Dev(true, true, 1, {0})

  lemma ReachesAwake()
    ensures Reaches(Bare(Q, DEV, map[]))
  {
    ReachesCleared();
    BothQueues(true, 2, Dev(false, false, 1, {0}), false);
    var s := Bare(Q, Dev(false, false, 1, {0}), map[]);
    var s1 := Bare(Q, Dev(true, false, 1, {0}), map[]);
    Do(s, OpenLifecycle, s1);
    Do(s1, StartQueue(true), Bare(Q, DEV, map[]));
  }

  // ----- the closed file's wait registers -----

  const LATE := Trail(NO_BITS, 0, false, 0, true)

  function Registering(at: RegisterAt, slot: Handle, interest: Mask, cm: nat, im: nat, trail: Trail): State {
    State(Shared(Record(1, NO_BITS, Phase.Registering), slot, NoHandoff, interest, cm, im), Q, DEV,
          map[Control := Register(1, READABLE, at)], map[1 := Request(Owned, READABLE, Owed(Control))],
          Audit(Owed(Control), false, false, [], trail))
  }

  function Waiting(phase: Phase, holder: Debtor, threads: map<Tid, Pc>): State {
    State(Shared(Record(1, NO_BITS, phase), 1, NoHandoff, READABLE, 3, 3), Q, DEV,
          threads, map[1 := Request(Marked, READABLE, Undecided)], Audit(holder, false, false, [], LATE))
  }

  function Snapping(at: PublishAt): State {
    Waiting(Pending, Undecided, map[Control := Publish(1, READABLE, at)])
  }

  lemma ReachesBegin()
    ensures Reaches(Registering(PutSlot, NULL, NO_BITS, 0, 0, NO_TRAIL))
  {
    ReachesAwake();
    var s0 := Bare(Q, DEV, map[]);
    var s1 := Exec(s0, DispatchWait(1, READABLE, 0));
    Do(s0, DispatchWait(1, READABLE, 0), s1);
    assert s1.audit.trail == NO_TRAIL;
    var s2 := Goto(s1, Control, Register(1, READABLE, LoadFree));
    Tick(s1, s2, Control);
    var s3 := Goto(s1, Control, Register(1, READABLE, CasFree(Record(0, NO_BITS, Free))));
    Tick(s2, s3, Control);
    Tick(s3, Registering(PutSlot, NULL, NO_BITS, 0, 0, NO_TRAIL), Control);
  }

  lemma ReachesInterest()
    ensures Reaches(Registering(PutCaptureMark(3, 3), 1, READABLE, 0, 0, NO_TRAIL))
  {
    ReachesBegin();
    Tick(Registering(PutSlot, NULL, NO_BITS, 0, 0, NO_TRAIL),
         Registering(GetCaptureGen, 1, NO_BITS, 0, 0, NO_TRAIL), Control);
    Tick(Registering(GetCaptureGen, 1, NO_BITS, 0, 0, NO_TRAIL),
         Registering(GetInjectionGen(3), 1, NO_BITS, 0, 0, NO_TRAIL), Control);
    Tick(Registering(GetInjectionGen(3), 1, NO_BITS, 0, 0, NO_TRAIL),
         Registering(PutInterest(3, 3), 1, NO_BITS, 0, 0, NO_TRAIL), Control);
    Tick(Registering(PutInterest(3, 3), 1, NO_BITS, 0, 0, NO_TRAIL),
         Registering(PutCaptureMark(3, 3), 1, READABLE, 0, 0, NO_TRAIL), Control);
  }

  lemma ReachesRecheck()
    ensures Reaches(Registering(CheckOpen, 1, READABLE, 3, 3, NO_TRAIL))
  {
    ReachesInterest();
    Tick(Registering(PutCaptureMark(3, 3), 1, READABLE, 0, 0, NO_TRAIL),
         Registering(PutInjectionMark(3), 1, READABLE, 3, 0, NO_TRAIL), Control);
    Tick(Registering(PutInjectionMark(3), 1, READABLE, 3, 0, NO_TRAIL),
         Registering(PutHandoff, 1, READABLE, 3, 3, NO_TRAIL), Control);
    Tick(Registering(PutHandoff, 1, READABLE, 3, 3, NO_TRAIL), Registering(CheckOpen, 1, READABLE, 3, 3, NO_TRAIL), Control);
  }

  lemma ReachesMark()
    ensures Reaches(Registering(MarkCancelable, 1, READABLE, 3, 3, LATE))
  {
    ReachesRecheck();
    Tick(Registering(CheckOpen, 1, READABLE, 3, 3, NO_TRAIL),
         Registering(CheckAdaptive, 1, READABLE, 3, 3, NO_TRAIL), Control);
    Tick(Registering(CheckAdaptive, 1, READABLE, 3, 3, NO_TRAIL), Registering(CheckTx, 1, READABLE, 3, 3, LATE), Control);
    Tick(Registering(CheckTx, 1, READABLE, 3, 3, LATE), Registering(CheckRx, 1, READABLE, 3, 3, LATE), Control);
    Tick(Registering(CheckRx, 1, READABLE, 3, 3, LATE), Registering(MarkCancelable, 1, READABLE, 3, 3, LATE), Control);
  }

  lemma ReachesPublished()
    ensures Reaches(Snapping(SnapCaptureGen))
  {
    ReachesMark();
    var before := (at: PublishAt) => Waiting(Phase.Registering, Owed(Control), map[Control := Publish(1, READABLE, at)]);
    Tick(Registering(MarkCancelable, 1, READABLE, 3, 3, LATE), before(LoadRegistering), Control);
    Tick(before(LoadRegistering), before(CasPending(Record(1, NO_BITS, Phase.Registering))), Control);
    Tick(before(CasPending(Record(1, NO_BITS, Phase.Registering))), Snapping(SnapCaptureGen), Control);
  }

  lemma ReachesSnapshot()
    ensures Reaches(Snapping(SnapInjection(3, 3, false)))
  {
    ReachesPublished();
    Tick(Snapping(SnapCaptureGen), Snapping(SnapInjectionGen(3)), Control);
    Tick(Snapping(SnapInjectionGen(3)), Snapping(SnapCapture(3, 3)), Control);
    Tick(Snapping(SnapCapture(3, 3)), Snapping(SnapInjection(3, 3, false)), Control);
  }

  lemma ReachesPending()
    ensures Reaches(Waiting(Pending, Undecided, map[]))
  {
    ReachesSnapshot();
    Tick(Snapping(SnapInjection(3, 3, false)), Snapping(CompareCapture(3, 3, NO_BITS)), Control);
    Tick(Snapping(CompareCapture(3, 3, NO_BITS)), Snapping(CompareInjection(false, 3, NO_BITS)), Control);
    Tick(Snapping(CompareInjection(false, 3, NO_BITS)), Waiting(Pending, Undecided, map[]), Control);
  }

  const FRAME_QUEUED := Q.(captured := 1, captureGen := 4)

  /** The cleanup ends, switching adaptive mode off, and the frame's claim is refused. */
  lemma ReachesRefused()
    ensures Reaches(Missed(false))
  {
    ReachesPending();
    var s0 := Waiting(Pending, Undecided, map[]);
    var s1 := s0.(dev := DEV.(adaptive := false, cleanups := {}));
    Do(s0, DisableAdaptive(0), s1);
    var s2 := Goto(s1.(q := Q.(captured := 1)), Producer(0), Packet(CaptureBump(true)));
    Do(s1, StartProducer(0), s2);
    var s3 := Goto(s1.(q := FRAME_QUEUED), Producer(0), Claim(READABLE, NULL, Leave, Gate));
    Tick(s2, s3, Producer(0));
    Tick(s3, Missed(false), Producer(0));
  }

  function Missed(adaptive: bool): State {
    var s := Waiting(Pending, Undecided, map[]);
    s.(q := FRAME_QUEUED, dev := DEV.(adaptive := adaptive, cleanups := {}),
       audit := s.audit.(trail := LATE.(missed := READABLE)))
  }

  /** Nothing is in flight and no cleanup is left; the device is open, adaptive mode is on
      again for the next owner and a frame is queued; and the wait that asked for it, sent
      by an owner that is gone, stays published. */
  lemma WakeupLostAcrossCleanup()
    ensures exists s :: && Reaches(s)
                        && s.threads == map[] && s.dev.cleanups == {}
                        && AsksRead(s) && s.audit.trail.missed.readable
                        && s.dev.adaptive && s.dev.open && s.dev.txStarted
                        && s.audit.trail.owner != s.dev.ownerGen
  {
    ReachesRefused();
    Do(Missed(false), EnableAdaptive, Missed(true));
  }
}
