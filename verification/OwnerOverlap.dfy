/** Two runs that show where the guarantees of owner hand-over stop: a second cleanup
    that overlaps the tail of the first, and a D0 entry that overlaps a cleanup. */
module OwnerOverlap {
  import opened LeaseWord
  import opened OwnerModel
  import opened OwnerHandover
  import Runs

  ghost predicate Reaches(s: State) {
    exists run :: IsRun(run) && run[|run| - 1] == s
  }

  lemma Do(s: State, a: Action, s': State)
    requires Reaches(s) && Enabled(s, a) && s' == Exec(s, a)
    ensures Reaches(s')
  {
    var run :| IsRun(run) && run[|run| - 1] == s;
    assert Next(s, s');
    Runs.Extend(run, START, Next, s');
    assert IsRun(run + [s']);
  }

  // ----- states -----

  function LaneWith(word: Lease, holders: set<nat>, open: bool): Lane {
    Lane(word, holders, open, [])
  }

  function Both(power: bool, hardware: bool, owner: bool, open: bool): Lanes {
    var lane := LaneWith(Lease(0, power, hardware, owner), {}, open);
    Lanes(lane, lane)
  }

  function Starting(lanes: Lanes, lifecycle: Lifecycle, started: bool, pnp: PnpPc): State {
    State(lanes, Life(lifecycle, 0, true, false, started, false, false), Locks(Unlocked, Unlocked), pnp, map[], map[], Idle)
  }

  const QUIET_LANE := LaneWith(Lease(0, false, false, false), {}, true)
  const HELD_LANE := LaneWith(Lease(0, false, true, false), {}, true)

  lemma ReachesPrepared()
    ensures Reaches(Starting(Both(false, false, false, true), Closing, false, Prepared))
  {
    assert IsRun([START]);
    assert Reaches(START);
    var s1 := Starting(Both(false, true, false, true), Closing, false, PrepareRx);
    Do(START, StepPnp(true), s1);
    var s2 := Starting(Lanes(QUIET_LANE, HELD_LANE), Closing, false, PrepareTx);
    Do(s1, StepPnp(true), s2);
    Do(s2, StepPnp(true), Starting(Both(false, false, false, true), Closing, false, Prepared));
  }

  lemma ReachesWorking()
    ensures Reaches(Starting(Both(false, false, false, true), Open, true, Working))
  {
    ReachesPrepared();
    var lanes := Both(false, false, false, true);
    Do(Starting(lanes, Closing, false, Prepared), StepPnp(true), Starting(lanes, Closing, false, Entry(false, ReopenRx)));
    Do(Starting(lanes, Closing, false, Entry(false, ReopenRx)), StepPnp(true),
       Starting(lanes, Closing, false, Entry(false, ReopenTx)));
    Do(Starting(lanes, Closing, false, Entry(false, ReopenTx)), StepPnp(true),
       Starting(lanes, Closing, false, Entry(false, PublishOpen)));
    Do(Starting(lanes, Closing, false, Entry(false, PublishOpen)), StepPnp(true),
       Starting(lanes, Open, true, Entry(false, ResumeRx)));
    Do(Starting(lanes, Open, true, Entry(false, ResumeRx)), StepPnp(true),
       Starting(lanes, Open, true, Entry(false, ResumeTx)));
    Do(Starting(lanes, Open, true, Entry(false, ResumeTx)), StepPnp(true), Starting(lanes, Open, true, Working));
  }

  // ----- two cleanups -----

  function Serving(lanes: Lanes, lifecycle: Lifecycle, gen: nat, control: bool, handle: bool, locks: Locks,
                   cleanups: map<nat, CleanupPc>): State {
    State(lanes, Life(lifecycle, gen, true, false, true, control, handle), locks, Working, cleanups, map[], Idle)
  }

  const FREE := Locks(Unlocked, Unlocked)
  const FIRST := Locks(ByCleanup(0), ByCleanup(0))

  function ClosingOwner(rx: bool, tx: bool): Lanes {
    Lanes(LaneWith(Lease(0, false, false, rx), {}, true), LaneWith(Lease(0, false, false, tx), {}, true))
  }

  function FirstShuts(lanes: Lanes, locks: Locks, at: ShutAt): State {
    Serving(lanes, OwnerClosing, 1, true, false, locks, map[0 := Shutting(true, at)])
  }

  lemma FirstBegins()
    ensures Reaches(FirstShuts(ClosingOwner(true, true), FREE, DrainRx))
  {
    ReachesWorking();
    var lanes := Both(false, false, false, true);
    var s0 := Starting(lanes, Open, true, Working);
    var s1 := Serving(lanes, Open, 0, true, true, FREE, map[]);
    Do(s0, CreateFile, s1);
    var s2 := Serving(lanes, Open, 0, true, false, FREE, map[0 := Retire]);
    Do(s1, StartCleanup(0), s2);
    var s3 := Serving(lanes, Open, 1, true, false, FREE, map[0 := ClaimOwner]);
    Do(s2, StepCleanup(0), s3);
    Do(s3, StepCleanup(0), FirstShuts(lanes, FREE, CloseRx));
    Do(FirstShuts(lanes, FREE, CloseRx), StepCleanup(0), FirstShuts(ClosingOwner(true, false), FREE, CloseTx));
    Do(FirstShuts(ClosingOwner(true, false), FREE, CloseTx), StepCleanup(0),
       FirstShuts(ClosingOwner(true, true), FREE, DrainRx));
  }

  function HalfCleared(): Lanes {
    Lanes(LaneWith(Lease(0, false, false, true), {}, false), LaneWith(Lease(0, false, false, true), {}, true))
  }

  lemma FirstClears()
    ensures Reaches(FirstShuts(Both(false, false, true, false), FIRST, Cleared))
  {
    FirstBegins();
    var lanes := ClosingOwner(true, true);
    Do(FirstShuts(lanes, FREE, DrainRx), StepCleanup(0), FirstShuts(lanes, FREE, DrainTx));
    Do(FirstShuts(lanes, FREE, DrainTx), StepCleanup(0), FirstShuts(lanes, FREE, LockDirect));
    Do(FirstShuts(lanes, FREE, LockDirect), StepCleanup(0),
       FirstShuts(lanes, Locks(ByCleanup(0), Unlocked), LockWrite));
    Do(FirstShuts(lanes, Locks(ByCleanup(0), Unlocked), LockWrite), StepCleanup(0),
       FirstShuts(lanes, FIRST, CancelWait));
    Do(FirstShuts(lanes, FIRST, CancelWait), StepCleanup(0), FirstShuts(lanes, FIRST, ClearRx));
    Do(FirstShuts(lanes, FIRST, ClearRx), StepCleanup(0), FirstShuts(HalfCleared(), FIRST, ClearTx));
    Do(FirstShuts(HalfCleared(), FIRST, ClearTx), StepCleanup(0),
       FirstShuts(Both(false, false, true, false), FIRST, Cleared));
  }

  /** The first cleanup readmits the next owner before it reopens the queues. */
  function Overlap(gen: nat, control: bool, second: map<nat, CleanupPc>): State {
    Serving(Both(false, false, true, false), OwnerClosing, gen, control, false, FIRST, second)
  }

  lemma SecondBegins()
    ensures Reaches(Overlap(2, true, map[0 := CuReopenRx, 1 := Shutting(false, CloseRx)]))
  {
    FirstClears();
    var lanes := Both(false, false, true, false);
    Do(FirstShuts(lanes, FIRST, Cleared), StepCleanup(0), Overlap(1, true, map[0 := Disarm(true)]));
    Do(Overlap(1, true, map[0 := Disarm(true)]), StepCleanup(0), Overlap(1, true, map[0 := Readmit(true)]));
    Do(Overlap(1, true, map[0 := Readmit(true)]), StepCleanup(0), Overlap(1, false, map[0 := CuReopenRx]));
    var s1 := Serving(lanes, OwnerClosing, 1, true, true, FIRST, map[0 := CuReopenRx]);
    Do(Overlap(1, false, map[0 := CuReopenRx]), CreateFile, s1);
    Do(s1, StartCleanup(1), Overlap(1, true, map[0 := CuReopenRx, 1 := Retire]));
    Do(Overlap(1, true, map[0 := CuReopenRx, 1 := Retire]), StepCleanup(1),
       Overlap(2, true, map[0 := CuReopenRx, 1 := ClaimOwner]));
    Do(Overlap(2, true, map[0 := CuReopenRx, 1 := ClaimOwner]), StepCleanup(1),
       Overlap(2, true, map[0 := CuReopenRx, 1 := Shutting(false, CloseRx)]));
  }

  function Two(lanes: Lanes, lifecycle: Lifecycle, locks: Locks, first: CleanupPc, second: ShutAt): State {
    Serving(lanes, lifecycle, 2, true, false, locks, map[0 := first, 1 := Shutting(false, second)])
  }

  lemma SecondQuiesces()
    ensures Reaches(Two(Both(false, false, true, false), OwnerClosing, FIRST, CuReopenRx, LockDirect))
  {
    SecondBegins();
    var lanes := Both(false, false, true, false);
    Do(Two(lanes, OwnerClosing, FIRST, CuReopenRx, CloseRx), StepCleanup(1),
       Two(lanes, OwnerClosing, FIRST, CuReopenRx, CloseTx));
    Do(Two(lanes, OwnerClosing, FIRST, CuReopenRx, CloseTx), StepCleanup(1),
       Two(lanes, OwnerClosing, FIRST, CuReopenRx, DrainRx));
    Do(Two(lanes, OwnerClosing, FIRST, CuReopenRx, DrainRx), StepCleanup(1),
       Two(lanes, OwnerClosing, FIRST, CuReopenRx, DrainTx));
    Do(Two(lanes, OwnerClosing, FIRST, CuReopenRx, DrainTx), StepCleanup(1),
       Two(lanes, OwnerClosing, FIRST, CuReopenRx, LockDirect));
  }

  function Second(lanes: Lanes, locks: Locks, at: ShutAt, callbacks: map<nat, CallbackPc>): State {
    State(lanes, Life(Open, 2, true, false, true, true, false), locks, Working, map[1 := Shutting(false, at)],
          callbacks, Idle)
  }

  lemma FirstReopens()
    ensures Reaches(Two(Both(false, false, true, true), Open, FIRST, Tail(true, TailResumeRx), LockDirect))
  {
    SecondQuiesces();
    var lanes := Both(false, false, true, true);
    var half := Lanes(lanes.rx, LaneWith(Lease(0, false, false, true), {}, false));
    Do(Two(Both(false, false, true, false), OwnerClosing, FIRST, CuReopenRx, LockDirect), StepCleanup(0),
       Two(half, OwnerClosing, FIRST, CuReopenTx, LockDirect));
    Do(Two(half, OwnerClosing, FIRST, CuReopenTx, LockDirect), StepCleanup(0),
       Two(lanes, OwnerClosing, FIRST, Confirm, LockDirect));
    Do(Two(lanes, OwnerClosing, FIRST, Confirm, LockDirect), StepCleanup(0),
       Two(lanes, Open, FIRST, Tail(true, TailResumeRx), LockDirect));
  }

  lemma FirstLeaves()
    ensures Reaches(Second(Both(false, false, false, true), FREE, LockDirect, map[]))
  {
    FirstReopens();
    var free := Both(false, false, false, true);
    Do(Two(Both(false, false, true, true), Open, FIRST, Tail(true, TailResumeRx), LockDirect), StepCleanup(0),
       Two(ClosingOwner(false, true), Open, FIRST, Tail(true, TailResumeTx), LockDirect));
    Do(Two(ClosingOwner(false, true), Open, FIRST, Tail(true, TailResumeTx), LockDirect), StepCleanup(0),
       Two(free, Open, FIRST, Tail(true, TailUnlockWrite), LockDirect));
    Do(Two(free, Open, FIRST, Tail(true, TailUnlockWrite), LockDirect), StepCleanup(0),
       Two(free, Open, Locks(ByCleanup(0), Unlocked), Tail(true, TailUnlockDirect), LockDirect));
    Do(Two(free, Open, Locks(ByCleanup(0), Unlocked), Tail(true, TailUnlockDirect), LockDirect), StepCleanup(0),
       Second(free, FREE, LockDirect, map[]));
  }

  lemma SecondLocks(lanes: Lanes, callbacks: map<nat, CallbackPc>)
    requires Reaches(Second(lanes, FREE, LockDirect, callbacks))
    ensures Reaches(Second(lanes, Locks(ByCleanup(1), ByCleanup(1)), ClearRx, callbacks))
  {
    var held := Locks(ByCleanup(1), ByCleanup(1));
    Do(Second(lanes, FREE, LockDirect, callbacks), StepCleanup(1),
       Second(lanes, Locks(ByCleanup(1), Unlocked), LockWrite, callbacks));
    Do(Second(lanes, Locks(ByCleanup(1), Unlocked), LockWrite, callbacks), StepCleanup(1),
       Second(lanes, held, CancelWait, callbacks));
    Do(Second(lanes, held, CancelWait, callbacks), StepCleanup(1), Second(lanes, held, ClearRx, callbacks));
  }

  /** When a file is opened and closed again while the previous cleanup is still in its
      tail, both share the owner closer: the first one's resume readmits callbacks although
      the second one's quiesce has returned, and the second clears a queue under a callback
      that has passed its OPEN check. */
  lemma OverlappingCleanupClearsUnderCallback()
    ensures exists s :: && Reaches(s)
                        && ChangesQueue(s, StepCleanup(1), Rx)
                        && CleanupQuiet(s.cleanups[1], Rx)
                        && !NothingPassed(s, Rx)
  {
    FirstLeaves();
    var free := Both(false, false, false, true);
    var word := Lease(0, false, false, false);
    var leased := Lanes(LaneWith(word.(count := 1), {7}, true), free.tx);
    Do(Second(free, FREE, LockDirect, map[]), StartCallback(7, Rx), Second(free, FREE, LockDirect, map[7 := LoadLease(Rx)]));
    Do(Second(free, FREE, LockDirect, map[7 := LoadLease(Rx)]), StepCallback(7, Give),
       Second(free, FREE, LockDirect, map[7 := CasLease(Rx, word)]));
    Do(Second(free, FREE, LockDirect, map[7 := CasLease(Rx, word)]), StepCallback(7, Give),
       Second(leased, FREE, LockDirect, map[7 := CheckOpen(Rx)]));
    Do(Second(leased, FREE, LockDirect, map[7 := CheckOpen(Rx)]), StepCallback(7, Give),
       Second(leased, FREE, LockDirect, map[7 := ReadOwner(Rx)]));
    SecondLocks(leased, map[7 := ReadOwner(Rx)]);
    var s := Second(leased, Locks(ByCleanup(1), ByCleanup(1)), ClearRx, map[7 := ReadOwner(Rx)]);
    assert 7 in s.callbacks && Passed(s.callbacks[7]);
  }

  function Leaving(control: bool, locks: Locks, pc: CleanupPc): State {
    Serving(Both(false, false, false, false), Open, 2, control, false, locks, map[1 := pc])
  }

  /** The second cleanup never owned the lifecycle, so it does not reopen what it closed:
      with nothing in flight and the device working and OPEN, both queues stay closed. */
  lemma OverlappingCleanupLeavesQueuesClosed()
    ensures exists s :: && Reaches(s)
                        && s.pnp == Working && s.life.lifecycle == Open
                        && s.cleanups == map[] && s.callbacks == map[] && s.writer == Idle
                        && !s.lanes.rx.open && !s.lanes.tx.open
  {
    FirstLeaves();
    var free := Both(false, false, false, true);
    SecondLocks(free, map[]);
    var held := Locks(ByCleanup(1), ByCleanup(1));
    var shut := Both(false, false, false, false);
    Do(Second(free, held, ClearRx, map[]), StepCleanup(1), Second(Lanes(shut.rx, free.tx), held, ClearTx, map[]));
    Do(Second(Lanes(shut.rx, free.tx), held, ClearTx, map[]), StepCleanup(1), Second(shut, held, Cleared, map[]));
    Do(Second(shut, held, Cleared, map[]), StepCleanup(1), Leaving(true, held, Disarm(false)));
    Do(Leaving(true, held, Disarm(false)), StepCleanup(1), Leaving(true, held, Readmit(false)));
    Do(Leaving(true, held, Readmit(false)), StepCleanup(1), Leaving(false, held, Tail(false, TailUnlockWrite)));
    Do(Leaving(false, held, Tail(false, TailUnlockWrite)), StepCleanup(1),
       Leaving(false, Locks(ByCleanup(1), Unlocked), Tail(false, TailUnlockDirect)));
    SecondLeaves();
  }

  lemma SecondLeaves()
    requires Reaches(Leaving(false, Locks(ByCleanup(1), Unlocked), Tail(false, TailUnlockDirect)))
    ensures Reaches(Serving(Both(false, false, false, false), Open, 2, false, false, FREE, map[]))
  {
    Do(Leaving(false, Locks(ByCleanup(1), Unlocked), Tail(false, TailUnlockDirect)), StepCleanup(1),
       Leaving(false, FREE, Tail(false, TailResumeRx)));
    Do(Leaving(false, FREE, Tail(false, TailResumeRx)), StepCleanup(1), Leaving(false, FREE, Tail(false, TailResumeTx)));
    Do(Leaving(false, FREE, Tail(false, TailResumeTx)), StepCleanup(1),
       Serving(Both(false, false, false, false), Open, 2, false, false, FREE, map[]));
  }

  // ----- D0 entry beside a cleanup -----

  function Powering(lanes: Lanes, lifecycle: Lifecycle, gen: nat, handle: bool, locks: Locks, pnp: PnpPc,
                    cleanups: map<nat, CleanupPc>): State {
    State(lanes, Life(lifecycle, gen, true, true, true, true, handle), locks, pnp, cleanups, map[], Idle)
  }

  function Sleeping(lanes: Lanes, locks: Locks, pnp: PnpPc): State {
    Powering(lanes, Suspended, 0, true, locks, pnp, map[])
  }

  function PowerLanes(rx: bool, tx: bool): Lanes {
    Lanes(LaneWith(Lease(0, rx, false, false), {}, true), LaneWith(Lease(0, tx, false, false), {}, true))
  }

  lemma ExitQuiesces()
    ensures Reaches(Sleeping(PowerLanes(true, true), FREE, Shut(Power, LockDirect)))
  {
    ReachesWorking();
    var lanes := Both(false, false, false, true);
    var s1 := Serving(lanes, Open, 0, true, true, FREE, map[]);
    Do(Starting(lanes, Open, true, Working), CreateFile, s1);
    var s2 := Powering(lanes, Open, 0, true, FREE, Working, map[]);
    Do(s1, EnableAdaptive, s2);
    Do(s2, StepPnp(true), Sleeping(PowerLanes(false, false), FREE, Shut(Power, CloseRx)));
    Do(Sleeping(PowerLanes(false, false), FREE, Shut(Power, CloseRx)), StepPnp(true),
       Sleeping(PowerLanes(true, false), FREE, Shut(Power, CloseTx)));
    var shut := PowerLanes(true, true);
    Do(Sleeping(PowerLanes(true, false), FREE, Shut(Power, CloseTx)), StepPnp(true),
       Sleeping(shut, FREE, Shut(Power, DrainRx)));
    Do(Sleeping(shut, FREE, Shut(Power, DrainRx)), StepPnp(true), Sleeping(shut, FREE, Shut(Power, DrainTx)));
    Do(Sleeping(shut, FREE, Shut(Power, DrainTx)), StepPnp(true), Sleeping(shut, FREE, Shut(Power, LockDirect)));
  }

  lemma ExitClears()
    ensures Reaches(Sleeping(Both(true, false, false, false), Locks(ByPnp, ByPnp), Shut(Power, Cleared)))
  {
    ExitQuiesces();
    var lanes, done := PowerLanes(true, true), Both(true, false, false, false);
    var held := Locks(ByPnp, ByPnp);
    Do(Sleeping(lanes, FREE, Shut(Power, LockDirect)), StepPnp(true),
       Sleeping(lanes, Locks(ByPnp, Unlocked), Shut(Power, LockWrite)));
    Do(Sleeping(lanes, Locks(ByPnp, Unlocked), Shut(Power, LockWrite)), StepPnp(true),
       Sleeping(lanes, held, Shut(Power, CancelWait)));
    Do(Sleeping(lanes, held, Shut(Power, CancelWait)), StepPnp(true), Sleeping(lanes, held, Shut(Power, ClearRx)));
    Do(Sleeping(lanes, held, Shut(Power, ClearRx)), StepPnp(true),
       Sleeping(Lanes(done.rx, lanes.tx), held, Shut(Power, ClearTx)));
    Do(Sleeping(Lanes(done.rx, lanes.tx), held, Shut(Power, ClearTx)), StepPnp(true),
       Sleeping(done, held, Shut(Power, Cleared)));
  }

  function Asleep(lanes: Lanes, locks: Locks, at: ShutAt): State {
    Powering(lanes, Suspended, 1, false, locks, Down, map[0 := Shutting(false, at)])
  }

  lemma CleanupWhileDown()
    ensures Reaches(Asleep(Both(true, false, false, false), FREE, CloseRx))
  {
    ExitClears();
    var lanes := Both(true, false, false, false);
    Do(Sleeping(lanes, Locks(ByPnp, ByPnp), Shut(Power, Cleared)), StepPnp(true),
       Sleeping(lanes, Locks(ByPnp, ByPnp), ShutUnlockWrite(Power)));
    Do(Sleeping(lanes, Locks(ByPnp, ByPnp), ShutUnlockWrite(Power)), StepPnp(true),
       Sleeping(lanes, Locks(ByPnp, Unlocked), ShutUnlockDirect(Power)));
    Do(Sleeping(lanes, Locks(ByPnp, Unlocked), ShutUnlockDirect(Power)), StepPnp(true), Sleeping(lanes, FREE, Down));
    var s1 := Powering(lanes, Suspended, 0, false, FREE, Down, map[0 := Retire]);
    Do(Sleeping(lanes, FREE, Down), StartCleanup(0), s1);
    var s2 := Powering(lanes, Suspended, 1, false, FREE, Down, map[0 := ClaimOwner]);
    Do(s1, StepCleanup(0), s2);
    Do(s2, StepCleanup(0), Asleep(lanes, FREE, CloseRx));
  }

  lemma CleanupCancelsWhileDown()
    ensures Reaches(Asleep(Both(true, false, true, false), FIRST, ClearRx))
  {
    CleanupWhileDown();
    var none, all := Both(true, false, false, false), Both(true, false, true, false);
    Do(Asleep(none, FREE, CloseRx), StepCleanup(0), Asleep(Lanes(all.rx, none.tx), FREE, CloseTx));
    Do(Asleep(Lanes(all.rx, none.tx), FREE, CloseTx), StepCleanup(0), Asleep(all, FREE, DrainRx));
    Do(Asleep(all, FREE, DrainRx), StepCleanup(0), Asleep(all, FREE, DrainTx));
    Do(Asleep(all, FREE, DrainTx), StepCleanup(0), Asleep(all, FREE, LockDirect));
    Do(Asleep(all, FREE, LockDirect), StepCleanup(0), Asleep(all, Locks(ByCleanup(0), Unlocked), LockWrite));
    Do(Asleep(all, Locks(ByCleanup(0), Unlocked), LockWrite), StepCleanup(0), Asleep(all, FIRST, CancelWait));
    Do(Asleep(all, FIRST, CancelWait), StepCleanup(0), Asleep(all, FIRST, ClearRx));
  }

  function Waking(lanes: Lanes, lifecycle: Lifecycle, pnp: PnpPc): State {
    Powering(lanes, lifecycle, 1, false, FIRST, pnp, map[0 := Shutting(false, Cleared)])
  }

  lemma CleanupClearsWhileDown()
    ensures Reaches(Waking(Both(true, false, true, false), Suspended, Down))
  {
    CleanupCancelsWhileDown();
    var shut := Both(true, false, true, false);
    Do(Asleep(shut, FIRST, ClearRx), StepCleanup(0), Asleep(shut, FIRST, ClearTx));
    Do(Asleep(shut, FIRST, ClearTx), StepCleanup(0), Waking(shut, Suspended, Down));
  }

  /** A cleanup that began while the device was suspended can have cancelled the wait and
      cleared both queues, and still have adaptive mode to switch off, when D0 entry has
      reopened the queues and published OPEN: a wait that registers now passes every check
      and then loses adaptive mode. */
  lemma EntryOpensBeforeCleanupDisarms()
    ensures exists s :: && Reaches(s)
                        && s.life.lifecycle == Open && s.life.adaptive && s.lanes.rx.open && s.lanes.tx.open
                        && 0 in s.cleanups && s.cleanups[0] == Shutting(false, Cleared)
  {
    CleanupClearsWhileDown();
    var shut, open := Both(true, false, true, false), Both(true, false, true, true);
    Do(Waking(shut, Suspended, Down), StepPnp(true), Waking(shut, Suspended, Entry(true, ReopenRx)));
    Do(Waking(shut, Suspended, Entry(true, ReopenRx)), StepPnp(true),
       Waking(Lanes(open.rx, shut.tx), Suspended, Entry(true, ReopenTx)));
    Do(Waking(Lanes(open.rx, shut.tx), Suspended, Entry(true, ReopenTx)), StepPnp(true),
       Waking(open, Suspended, Entry(true, PublishOpen)));
    Do(Waking(open, Suspended, Entry(true, PublishOpen)), StepPnp(true), Waking(open, Open, Entry(true, ResumeRx)));
  }
}
