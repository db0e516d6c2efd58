/** Nested quiescence and owner isolation, over every run of the owner model. */
module OwnerHandover {
  import opened LeaseWord
  import opened OwnerModel
  import opened Wrappers
  import Runs

  // ----- what a program counter says by itself -----

  function Rank(at: ShutAt): nat {
    match at
    case CloseRx => 0
    case CloseTx => 1
    case DrainRx => 2
    case DrainTx => 3
    case LockDirect => 4
    case LockWrite => 5
    case CancelWait => 6
    case ClearRx => 7
    case ClearTx => 8
    case Cleared => 9
  }

  predicate ClosedPast(at: ShutAt, d: Dir) { Rank(at) > (if d == Rx then 0 else 1) }

  predicate DrainedPast(at: ShutAt, d: Dir) { Rank(at) > (if d == Rx then 2 else 3) }

  predicate ClearedPast(at: ShutAt, d: Dir) { Rank(at) > (if d == Rx then 7 else 8) }

  /** The PnP thread has closed `scope` in direction `d` and not resumed it. */
  predicate PnpClosed(pnp: PnpPc, scope: Scope, d: Dir) {
    match pnp
    case Created => scope == Hardware
    case PrepareRx => scope == Hardware
    case PrepareTx => scope == Hardware && d == Tx
    case Entry(again, at) => scope == Power && again && !(d == Rx && at == ResumeTx)
    case Shut(sc, at) => sc == scope && ClosedPast(at, d)
    case ShutUnlockWrite(sc) => sc == scope
    case ShutUnlockDirect(sc) => sc == scope
    case Down => scope == Power
    case Released => scope == Hardware
    case _ => false
  }

  /** ... and its quiesce of `d` has returned. */
  predicate PnpQuiet(pnp: PnpPc, scope: Scope, d: Dir) {
    PnpClosed(pnp, scope, d) && (pnp.Shut? ==> DrainedPast(pnp.shut, d))
  }

  predicate CleanupClosed(pc: CleanupPc, d: Dir) {
    match pc
    case Retire => false
    case ClaimOwner => false
    case Shutting(_, at) => ClosedPast(at, d)
    case Tail(early, at) =>
      if early then at == TailResumeRx || (d == Tx && at == TailResumeTx)
      else !(d == Rx && at == TailResumeTx)
    case _ => true
  }

  predicate CleanupQuiet(pc: CleanupPc, d: Dir) {
    CleanupClosed(pc, d) && (pc.Shutting? ==> DrainedPast(pc.shut, d))
  }

  predicate Leased(pc: CallbackPc) { !pc.LoadLease? && !pc.CasLease? }

  /** The callback has seen the lifecycle open under its lease. */
  predicate Passed(pc: CallbackPc) { Leased(pc) && !pc.CheckOpen? && !pc.Drop? }

  predicate Owns(pc: CallbackPc) { pc.Busy? || pc.PutOpen? || pc.PutOwner? || pc.Put? }

  /** From the store that takes the lifecycle away to the store that publishes it open. */
  predicate OutOfService(pnp: PnpPc) {
    match pnp
    case Created => false
    case Working => false
    case Entry(_, at) => at == ReopenRx || at == ReopenTx || at == PublishOpen
    case _ => true
  }

  /** Up to the first time the lifecycle is published open. */
  predicate FirstStart(pnp: PnpPc) {
    || pnp.Created? || pnp.PrepareRx? || pnp.PrepareTx? || pnp.Prepared?
    || (pnp.Entry? && !pnp.again && OutOfService(pnp))
  }

  /** No callback of `d` can have passed its check here. */
  predicate Unvisited(pnp: PnpPc, d: Dir) {
    || pnp.Created?
    || (OutOfService(pnp) && (pnp.Shut? && pnp.scope == Power ==> DrainedPast(pnp.shut, d)))
  }

  // ----- leases -----

  type Callbacks = map<nat, CallbackPc>

  /** The count is the number of live leases and the holders are the leased callbacks. */
  ghost predicate CountOk(count: nat, holders: set<nat>, callbacks: Callbacks, d: Dir) {
    && count == |holders|
    && count < COUNT_RANGE
    && (forall n :: n in holders <==> n in callbacks && Leased(callbacks[n]) && callbacks[n].dir == d)
  }

  predicate ClosersOk(word: Lease, holders: set<nat>, pnp: PnpPc, d: Dir) {
    && (PnpClosed(pnp, Power, d) ==> word.power)
    && (PnpClosed(pnp, Hardware, d) ==> word.hardware)
    && (PnpQuiet(pnp, Power, d) || PnpQuiet(pnp, Hardware, d) ==> holders == {})
  }

  ghost predicate LaneOk(s: State, d: Dir) {
    && CountOk(s.lanes.Of(d).word.count, s.lanes.Of(d).holders, s.callbacks, d)
    && ClosersOk(s.lanes.Of(d).word, s.lanes.Of(d).holders, s.pnp, d)
  }

  predicate CallbackOk(pnp: PnpPc, pc: CallbackPc) {
    && (pc.CasLease? ==> !pc.seen.Closed() && pc.seen.count < MAXIMUM_COUNT)
    && (Passed(pc) ==> !Unvisited(pnp, pc.dir))
  }

  predicate ServiceOk(s: State) {
    && (OutOfService(s.pnp) ==> s.life.lifecycle != Open && s.life.lifecycle != OwnerClosing)
    && (s.pnp.Shut? || s.pnp.ShutUnlockWrite? || s.pnp.ShutUnlockDirect? ==> s.pnp.scope != Owner)
    && (!s.life.started ==> s.cleanups == map[] && !s.life.handle)
    && (FirstStart(s.pnp) ==> !s.life.started)
  }

  ghost predicate LeaseInv(s: State) {
    && LaneOk(s, Rx)
    && LaneOk(s, Tx)
    && (forall n :: n in s.callbacks ==> CallbackOk(s.pnp, s.callbacks[n]))
    && ServiceOk(s)
  }

  /** The PnP thread leaves counts, holders and callbacks alone and changes only the
      closers of its own scope. */
  lemma PnpFrame(s: State, ok: bool, d: Dir)
    requires ServiceOk(s)
    ensures var s' := PnpStep(s, ok);
            && s'.callbacks == s.callbacks
            && s'.lanes.Of(d).word.count == s.lanes.Of(d).word.count
            && s'.lanes.Of(d).word.owner == s.lanes.Of(d).word.owner
            && s'.lanes.Of(d).holders == s.lanes.Of(d).holders
  {}

  lemma PnpShutClosers(s: State, ok: bool, d: Dir)
    requires ServiceOk(s) && s.pnp.Shut?
    requires ClosersOk(s.lanes.Of(d).word, s.lanes.Of(d).holders, s.pnp, d)
    requires s.lanes.Of(d).word.count == 0 ==> s.lanes.Of(d).holders == {}
    ensures var s' := PnpStep(s, ok); ClosersOk(s'.lanes.Of(d).word, s.lanes.Of(d).holders, s'.pnp, d)
  {}

  lemma PnpClosers(s: State, ok: bool, d: Dir)
    requires ServiceOk(s)
    requires ClosersOk(s.lanes.Of(d).word, s.lanes.Of(d).holders, s.pnp, d)
    requires s.lanes.Of(d).word.count == 0 ==> s.lanes.Of(d).holders == {}
    ensures var s' := PnpStep(s, ok); ClosersOk(s'.lanes.Of(d).word, s.lanes.Of(d).holders, s'.pnp, d)
  {
    if s.pnp.Shut? {
      PnpShutClosers(s, ok, d);
    } else if s.pnp.Entry? {
    } else {
    }
  }

  lemma PnpService(s: State, ok: bool)
    requires ServiceOk(s)
    ensures ServiceOk(PnpStep(s, ok))
  {}

  lemma PnpPassed(s: State, ok: bool, pc: CallbackPc)
    requires CallbackOk(s.pnp, pc) && (s.lanes.Of(pc.dir).word.count == 0 ==> !Leased(pc))
    ensures CallbackOk(PnpStep(s, ok).pnp, pc)
  {}

  lemma PnpKeepsLeases(s: State, ok: bool)
    requires LeaseInv(s)
    ensures LeaseInv(PnpStep(s, ok))
  {
    var s' := PnpStep(s, ok);
    PnpFrame(s, ok, Rx);
    PnpFrame(s, ok, Tx);
    PnpClosers(s, ok, Rx);
    PnpClosers(s, ok, Tx);
    PnpService(s, ok);
    forall n | n in s'.callbacks ensures CallbackOk(s'.pnp, s'.callbacks[n]) {
      var pc := s.callbacks[n];
      assert Leased(pc) ==> n in s.lanes.Of(pc.dir).holders;
      PnpPassed(s, ok, pc);
    }
  }

  /** File cleanup touches neither callbacks, counts, holders, the PnP thread nor the
      other scopes' closers. */
  lemma CleanupFrame(s: State, n: nat, d: Dir)
    requires n in s.cleanups
    ensures var s' := CleanupStep(s, n);
            && s'.callbacks == s.callbacks && s'.pnp == s.pnp && s'.life.started == s.life.started && s'.life.handle == s.life.handle
            && s'.lanes.Of(d).holders == s.lanes.Of(d).holders
            && s'.lanes.Of(d).word.(owner := false) == s.lanes.Of(d).word.(owner := false)
  {}

  lemma CleanupKeepsLeases(s: State, n: nat)
    requires LeaseInv(s) && n in s.cleanups
    ensures LeaseInv(CleanupStep(s, n))
  {
    CleanupFrame(s, n, Rx);
    CleanupFrame(s, n, Tx);
  }

  lemma GrantKeepsCount(count: nat, holders: set<nat>, callbacks: Callbacks, d: Dir, n: nat, pc: CallbackPc)
    requires CountOk(count, holders, callbacks, d) && count < MAXIMUM_COUNT
    requires n in callbacks && !Leased(callbacks[n]) && Leased(pc) && pc.dir == d
    ensures CountOk(count + 1, holders + {n}, callbacks[n := pc], d)
  {}

  lemma DropKeepsCount(count: nat, holders: set<nat>, callbacks: Callbacks, d: Dir, n: nat)
    requires CountOk(count, holders, callbacks, d)
    requires n in callbacks && Leased(callbacks[n]) && callbacks[n].dir == d
    ensures count > 0
    ensures CountOk(count - 1, holders - {n}, callbacks - {n}, d)
  {
    assert n in holders;
  }

  lemma MoveKeepsCount(count: nat, holders: set<nat>, callbacks: Callbacks, d: Dir, n: nat, pc: CallbackPc)
    requires CountOk(count, holders, callbacks, d)
    requires n in callbacks ==> callbacks[n].dir == pc.dir
    requires (n in callbacks && Leased(callbacks[n])) == Leased(pc) || pc.dir != d
    requires pc.dir != d ==> n !in holders
    ensures CountOk(count, holders, callbacks[n := pc], d)
  {}

  lemma EndKeepsCount(count: nat, holders: set<nat>, callbacks: Callbacks, d: Dir, n: nat)
    requires CountOk(count, holders, callbacks, d) && n !in holders
    ensures CountOk(count, holders, callbacks - {n}, d)
  {}

  function Opposite(d: Dir): Dir { if d == Rx then Tx else Rx }

  lemma CallbackKeepsOtherLane(s: State, n: nat, choice: Choice)
    requires LeaseInv(s) && n in s.callbacks
    ensures LaneOk(CallbackStep(s, n, choice), Opposite(s.callbacks[n].dir))
  {
    var s' := CallbackStep(s, n, choice);
    var d := Opposite(s.callbacks[n].dir);
    var other := s.lanes.Of(d);
    assert n !in other.holders;
    if n !in s'.callbacks {
      EndKeepsCount(other.word.count, other.holders, s.callbacks, d, n);
    } else {
      MoveKeepsCount(other.word.count, other.holders, s.callbacks, d, n, s'.callbacks[n]);
      assert s'.callbacks == s.callbacks[n := s'.callbacks[n]];
    }
  }

  lemma CallbackKeepsOwnCount(lane: Lane, life: Life, pnp: PnpPc, callbacks: Callbacks, n: nat, choice: Choice)
    requires n in callbacks && CallbackOk(pnp, callbacks[n])
    requires CountOk(lane.word.count, lane.holders, callbacks, callbacks[n].dir)
    ensures var pc := callbacks[n];
            var next, lane' := CallbackNext(lane, life, pc, choice), CallbackLane(lane, n, pc, choice);
            CountOk(lane'.word.count, lane'.holders, if next == None then callbacks - {n} else callbacks[n := next.value], pc.dir)
  {
    var pc := callbacks[n];
    var next := CallbackNext(lane, life, pc, choice);
    if next == None {
      if Leased(pc) {
        DropKeepsCount(lane.word.count, lane.holders, callbacks, pc.dir, n);
      } else {
        EndKeepsCount(lane.word.count, lane.holders, callbacks, pc.dir, n);
      }
    } else if Leased(pc) == Leased(next.value) {
      if pc.Drop? {
        DropKeepsCount(lane.word.count, lane.holders, callbacks, pc.dir, n);
      }
      MoveKeepsCount(lane.word.count, lane.holders, callbacks, pc.dir, n, next.value);
    } else {
      GrantKeepsCount(lane.word.count, lane.holders, callbacks, pc.dir, n, next.value);
    }
  }

  lemma CallbackKeepsOwnClosers(lane: Lane, pnp: PnpPc, n: nat, pc: CallbackPc, choice: Choice)
    requires CallbackOk(pnp, pc) && ClosersOk(lane.word, lane.holders, pnp, pc.dir)
    ensures var lane' := CallbackLane(lane, n, pc, choice); ClosersOk(lane'.word, lane'.holders, pnp, pc.dir)
  {}

  lemma CallbackKeepsOwnLane(s: State, n: nat, choice: Choice)
    requires LeaseInv(s) && n in s.callbacks
    ensures LaneOk(CallbackStep(s, n, choice), s.callbacks[n].dir)
  {
    var pc := s.callbacks[n];
    assert CallbackOk(s.pnp, pc);
    CallbackKeepsOwnCount(s.lanes.Of(pc.dir), s.life, s.pnp, s.callbacks, n, choice);
    CallbackKeepsOwnClosers(s.lanes.Of(pc.dir), s.pnp, n, pc, choice);
  }

  lemma CallbackKeepsLanes(s: State, n: nat, choice: Choice)
    requires LeaseInv(s) && n in s.callbacks
    ensures var s' := CallbackStep(s, n, choice); LaneOk(s', Rx) && LaneOk(s', Tx)
  {
    CallbackKeepsOwnLane(s, n, choice);
    CallbackKeepsOtherLane(s, n, choice);
  }

  lemma CallbackKeepsLeases(s: State, n: nat, choice: Choice)
    requires LeaseInv(s) && n in s.callbacks
    ensures LeaseInv(CallbackStep(s, n, choice))
  {
    var s' := CallbackStep(s, n, choice);
    CallbackKeepsLanes(s, n, choice);
    CallbackMoves(s, n, choice);
    forall m | m in s'.callbacks ensures CallbackOk(s'.pnp, s'.callbacks[m]) {
      assert m != n ==> CallbackOk(s.pnp, s.callbacks[m]);
    }
  }

  lemma CallbackMoves(s: State, n: nat, choice: Choice)
    requires n in s.callbacks && CallbackOk(s.pnp, s.callbacks[n]) && ServiceOk(s)
    requires s.pnp.Created? ==> !Leased(s.callbacks[n])
    requires s.lanes.Of(s.callbacks[n].dir).word.count < COUNT_RANGE
    ensures var s' := CallbackStep(s, n, choice);
            && s'.pnp == s.pnp && s'.life == s.life && s'.cleanups == s.cleanups && s'.locks == s.locks
            && (s'.callbacks == s.callbacks - {n}
                || (n in s'.callbacks && s'.callbacks == s.callbacks[n := s'.callbacks[n]]
                    && CallbackOk(s.pnp, s'.callbacks[n])))
  {
    assert s.callbacks == s.callbacks[n := s.callbacks[n]];
  }

  lemma StartKeepsLeases(s: State, a: Action)
    requires LeaseInv(s) && Enabled(s, a) && !a.StepPnp? && !a.StepCleanup? && !a.StepCallback?
    ensures LeaseInv(Exec(s, a))
  {
    if a.StartCallback? {
      var pc := LoadLease(a.dir);
      MoveKeepsCount(s.lanes.rx.word.count, s.lanes.rx.holders, s.callbacks, Rx, a.n, pc);
      MoveKeepsCount(s.lanes.tx.word.count, s.lanes.tx.holders, s.callbacks, Tx, a.n, pc);
    } else {
      OtherKeepsLanes(s, a);
    }
  }

  lemma OtherKeepsLanes(s: State, a: Action)
    requires Enabled(s, a) && !a.StepPnp? && !a.StepCleanup? && !a.StepCallback? && !a.StartCallback?
    ensures var s' := Exec(s, a);
            && s'.callbacks == s.callbacks && s'.pnp == s.pnp
            && s'.lanes.rx.word == s.lanes.rx.word && s'.lanes.rx.holders == s.lanes.rx.holders
            && s'.lanes.tx.word == s.lanes.tx.word && s'.lanes.tx.holders == s.lanes.tx.holders
  {}

  lemma ActionKeepsLeases(s: State, a: Action)
    requires LeaseInv(s) && Enabled(s, a)
    ensures LeaseInv(Exec(s, a))
  {
    if a.StepPnp? {
      PnpKeepsLeases(s, a.ok);
    } else if a.StepCleanup? {
      CleanupKeepsLeases(s, a.n);
    } else if a.StepCallback? {
      CallbackKeepsLeases(s, a.n, a.choice);
    } else {
      StartKeepsLeases(s, a);
    }
  }

  // ----- locks -----

  predicate HoldsDirect(pc: CleanupPc) {
    match pc
    case Retire => false
    case ClaimOwner => false
    case Shutting(_, at) => Rank(at) > 4
    case Tail(early, at) => early || at == TailUnlockWrite || at == TailUnlockDirect
    case _ => true
  }

  predicate HoldsWrite(pc: CleanupPc) {
    match pc
    case Retire => false
    case ClaimOwner => false
    case Shutting(_, at) => Rank(at) > 5
    case Tail(early, at) => at == TailUnlockWrite || (early && at != TailUnlockDirect)
    case _ => true
  }

  predicate PnpHoldsDirect(pnp: PnpPc) {
    (pnp.Shut? && Rank(pnp.shut) > 4) || pnp.ShutUnlockWrite? || pnp.ShutUnlockDirect?
  }

  predicate PnpHoldsWrite(pnp: PnpPc) {
    (pnp.Shut? && Rank(pnp.shut) > 5) || pnp.ShutUnlockWrite?
  }

  predicate WriterHolds(w: WriterPc) { w.WriterCheck? || w.WriterPut? || w.WriterUnlock? }

  /** This cleanup has decided to reopen the queues for the next owner. */
  predicate WillReopen(pc: CleanupPc) {
    pc == Disarm(true) || pc == Readmit(true) || pc.CuReopenRx? || pc.CuReopenTx? || pc.Confirm?
  }

  /** Nothing can publish OPEN under a cleanup that is about to reopen: a power
      transition that starts meanwhile stops at the direct-read lock. */
  predicate Undisturbed(lifecycle: Lifecycle, pnp: PnpPc) {
    || lifecycle == OwnerClosing
    || (lifecycle == Suspended && pnp.Shut? && pnp.scope == Power && Rank(pnp.shut) <= 4)
  }

  predicate CleanupOk(s: State, n: nat, pc: CleanupPc) {
    && (HoldsDirect(pc) ==> s.locks.direct == ByCleanup(n))
    && (HoldsWrite(pc) ==> s.locks.write == ByCleanup(n))
    && (WillReopen(pc) ==> Undisturbed(s.life.lifecycle, s.pnp))
  }

  predicate LockInv(s: State) {
    && (PnpHoldsDirect(s.pnp) ==> s.locks.direct == ByPnp)
    && (PnpHoldsWrite(s.pnp) ==> s.locks.write == ByPnp)
    && (WriterHolds(s.writer) ==> s.locks.write == ByWriter)
    && (forall n :: n in s.cleanups ==> CleanupOk(s, n, s.cleanups[n]))
  }

  lemma PnpLocks(s: State, ok: bool, n: nat, pc: CleanupPc)
    requires ServiceOk(s) && CleanupOk(s, n, pc) && s.life.started
    requires PnpHoldsDirect(s.pnp) ==> s.locks.direct == ByPnp
    requires PnpHoldsWrite(s.pnp) ==> s.locks.write == ByPnp
    ensures CleanupOk(PnpStep(s, ok), n, pc)
  {}

  lemma PnpKeepsLocks(s: State, ok: bool)
    requires ServiceOk(s) && LockInv(s)
    ensures LockInv(PnpStep(s, ok))
  {
    var s' := PnpStep(s, ok);
    forall n | n in s'.cleanups ensures CleanupOk(s', n, s'.cleanups[n]) {
      assert CleanupOk(s, n, s.cleanups[n]);
      PnpLocks(s, ok, n, s.cleanups[n]);
    }
  }

  lemma CleanupOwnLocks(s: State, n: nat)
    requires ServiceOk(s) && n in s.cleanups && CleanupOk(s, n, s.cleanups[n])
    ensures var s' := CleanupStep(s, n);
            || s'.cleanups == s.cleanups - {n}
            || (n in s'.cleanups && s'.cleanups == s.cleanups[n := s'.cleanups[n]]
                && CleanupOk(s', n, s'.cleanups[n]))
  {
  }

  /** A cleanup takes only free locks, frees only its own, and moves the lifecycle only
      out of OPEN or, holding the direct-read lock, out of OWNER_CLOSING. */
  lemma CleanupForeignLocks(s: State, n: nat)
    requires n in s.cleanups && CleanupOk(s, n, s.cleanups[n])
    ensures var s' := CleanupStep(s, n);
            && s'.pnp == s.pnp && s'.writer == s.writer
            && (s.locks.direct != Unlocked && s.locks.direct != ByCleanup(n) ==> s'.locks.direct == s.locks.direct)
            && (s.locks.write != Unlocked && s.locks.write != ByCleanup(n) ==> s'.locks.write == s.locks.write)
            && (s'.life.lifecycle == s.life.lifecycle || s.life.lifecycle == Open
                || (s.life.lifecycle == OwnerClosing && s.locks.direct == ByCleanup(n)))
  {}

  lemma CleanupKeepsLocks(s: State, n: nat)
    requires ServiceOk(s) && LockInv(s) && n in s.cleanups
    ensures LockInv(CleanupStep(s, n))
  {
    var s' := CleanupStep(s, n);
    CleanupOwnLocks(s, n);
    CleanupForeignLocks(s, n);
    forall m | m in s'.cleanups ensures CleanupOk(s', m, s'.cleanups[m]) {
      assert m in s.cleanups && CleanupOk(s, m, s.cleanups[m]);
    }
  }

  lemma ActionKeepsLocks(s: State, a: Action)
    requires LeaseInv(s) && LockInv(s) && Enabled(s, a)
    ensures LockInv(Exec(s, a))
  {
    if a.StepPnp? {
      PnpKeepsLocks(s, a.ok);
    } else if a.StepCleanup? {
      CleanupKeepsLocks(s, a.n);
    } else if a.StepCallback? {
      assert CallbackOk(s.pnp, s.callbacks[a.n]);
      CallbackMoves(s, a.n, a.choice);
      CallbackLeavesWriter(s, a.n, a.choice);
      RestKeepsLocks(s, Exec(s, a));
    } else {
      OtherKeepsLocks(s, a);
    }
  }

  lemma CallbackLeavesWriter(s: State, n: nat, choice: Choice)
    requires n in s.callbacks
    ensures CallbackStep(s, n, choice).writer == s.writer
  {}

  lemma RestKeepsLocks(s: State, s': State)
    requires LockInv(s) && s'.cleanups == s.cleanups && s'.locks == s.locks && s'.pnp == s.pnp
    requires s'.life == s.life && s'.writer == s.writer
    ensures LockInv(s')
  {
    forall n | n in s'.cleanups ensures CleanupOk(s', n, s'.cleanups[n]) {
      assert CleanupOk(s, n, s.cleanups[n]);
    }
  }

  lemma OtherKeepsLocks(s: State, a: Action)
    requires LockInv(s) && Enabled(s, a) && !a.StepPnp? && !a.StepCleanup? && !a.StepCallback?
    ensures LockInv(Exec(s, a))
  {
    var s' := Exec(s, a);
    forall n | n in s'.cleanups ensures CleanupOk(s', n, s'.cleanups[n]) {
      assert n in s.cleanups ==> CleanupOk(s, n, s.cleanups[n]);
    }
  }

  // ----- frames -----

  /** A cleanup that has retired the owner and not yet drained `d`, taken the write lock,
      or cleared `d`. */
  predicate BeforeDrain(pc: CleanupPc, d: Dir) { pc.ClaimOwner? || (pc.Shutting? && !DrainedPast(pc.shut, d)) }

  predicate BeforeWrite(pc: CleanupPc) { pc.ClaimOwner? || (pc.Shutting? && Rank(pc.shut) <= 5) }

  predicate BeforeClear(pc: CleanupPc, d: Dir) { pc.ClaimOwner? || (pc.Shutting? && !ClearedPast(pc.shut, d)) }

  ghost predicate Draining(s: State, d: Dir) { exists n :: n in s.cleanups && BeforeDrain(s.cleanups[n], d) }

  ghost predicate Locking(s: State) { exists n :: n in s.cleanups && BeforeWrite(s.cleanups[n]) }

  ghost predicate Clearing(s: State, d: Dir) { exists n :: n in s.cleanups && BeforeClear(s.cleanups[n], d) }

  predicate AllOf(frames: seq<nat>, gen: nat) { forall i :: 0 <= i < |frames| ==> frames[i] == gen }

  ghost predicate FramesOk(s: State, d: Dir) { AllOf(s.lanes.Of(d).frames, s.life.gen) || Clearing(s, d) }

  ghost predicate OwnerSeenOk(s: State, pc: CallbackPc) {
    Owns(pc) ==> pc.gen == s.life.gen || Draining(s, pc.dir)
  }

  ghost predicate FrameInv(s: State) {
    && FramesOk(s, Rx)
    && FramesOk(s, Tx)
    && (forall n :: n in s.callbacks ==> OwnerSeenOk(s, s.callbacks[n]))
    && (s.writer.WriterPut? ==> s.writer.gen == s.life.gen || Locking(s))
  }

  predicate FramesKeptOrCleared(before: Lanes, after: Lanes) {
    && (after.rx.frames == before.rx.frames || after.rx.frames == [])
    && (after.tx.frames == before.tx.frames || after.tx.frames == [])
  }

  lemma ShutFrames(lanes: Lanes, scope: Scope, at: ShutAt)
    ensures FramesKeptOrCleared(lanes, ShutLanes(lanes, scope, at))
  {}

  lemma PnpFrames(s: State, ok: bool)
    ensures var s' := PnpStep(s, ok);
            && s'.cleanups == s.cleanups && s'.callbacks == s.callbacks && s'.writer == s.writer
            && s'.life.gen == s.life.gen
            && FramesKeptOrCleared(s.lanes, s'.lanes)
  {
    if s.pnp.Shut? { ShutFrames(s.lanes, s.pnp.scope, s.pnp.shut); }
  }

  lemma PnpKeepsFrames(s: State, ok: bool)
    requires FrameInv(s)
    ensures FrameInv(PnpStep(s, ok))
  {
    var s' := PnpStep(s, ok);
    PnpFrames(s, ok);
    forall n | n in s'.callbacks ensures OwnerSeenOk(s', s'.callbacks[n]) {
      assert OwnerSeenOk(s, s.callbacks[n]);
    }
  }

  /** What one cleanup step does to frames and to its own obligations. */
  lemma CleanupFrames(s: State, n: nat, d: Dir)
    requires n in s.cleanups
    ensures var s' := CleanupStep(s, n);
            && s'.callbacks == s.callbacks && s'.writer == s.writer
            && (forall m :: m != n ==> (m in s'.cleanups <==> m in s.cleanups)
                                       && (m in s.cleanups ==> s'.cleanups[m] == s.cleanups[m]))
            && if s'.life.gen != s.life.gen then n in s'.cleanups && s'.cleanups[n] == ClaimOwner
               else
                 && (s'.lanes.Of(d).frames == s.lanes.Of(d).frames || s'.lanes.Of(d).frames == [])
                 && (BeforeDrain(s.cleanups[n], d) ==>
                       (n in s'.cleanups && BeforeDrain(s'.cleanups[n], d)) || s.lanes.Of(d).word.count == 0)
                 && (BeforeWrite(s.cleanups[n]) ==>
                       (n in s'.cleanups && BeforeWrite(s'.cleanups[n])) || s.locks.write == Unlocked)
                 && (BeforeClear(s.cleanups[n], d) ==>
                       (n in s'.cleanups && BeforeClear(s'.cleanups[n], d)) || s'.lanes.Of(d).frames == [])
  {}

  lemma CleanupKeepsLane(s: State, n: nat, d: Dir)
    requires LeaseInv(s) && LockInv(s) && FrameInv(s) && n in s.cleanups
    ensures FramesOk(CleanupStep(s, n), d)
  {
    var s' := CleanupStep(s, n);
    CleanupFrames(s, n, d);
    if s'.life.gen != s.life.gen {
      assert BeforeClear(s'.cleanups[n], d);
    } else if !AllOf(s'.lanes.Of(d).frames, s'.life.gen) {
      var m :| m in s.cleanups && BeforeClear(s.cleanups[m], d);
      assert m in s'.cleanups && BeforeClear(s'.cleanups[m], d);
    }
  }

  lemma CleanupKeepsSeen(s: State, n: nat, k: nat)
    requires LeaseInv(s) && FrameInv(s) && n in s.cleanups && k in s.callbacks
    ensures OwnerSeenOk(CleanupStep(s, n), s.callbacks[k])
  {
    var s', pc := CleanupStep(s, n), s.callbacks[k];
    var d := pc.dir;
    CleanupFrames(s, n, d);
    assert OwnerSeenOk(s, pc);
    if s'.life.gen != s.life.gen {
      assert BeforeDrain(s'.cleanups[n], d);
    } else if Owns(pc) && pc.gen != s.life.gen {
      var m :| m in s.cleanups && BeforeDrain(s.cleanups[m], d);
      assert k in s.lanes.Of(d).holders;
      assert m in s'.cleanups && BeforeDrain(s'.cleanups[m], d);
    }
  }

  lemma CleanupKeepsWriter(s: State, n: nat)
    requires LockInv(s) && FrameInv(s) && n in s.cleanups && s.writer.WriterPut?
    ensures var s' := CleanupStep(s, n); s.writer.gen == s'.life.gen || Locking(s')
  {
    var s' := CleanupStep(s, n);
    CleanupFrames(s, n, Rx);
    if s'.life.gen != s.life.gen {
      assert BeforeWrite(s'.cleanups[n]);
    } else if s.writer.gen != s.life.gen {
      var m :| m in s.cleanups && BeforeWrite(s.cleanups[m]);
      assert m in s'.cleanups && BeforeWrite(s'.cleanups[m]);
    }
  }

  lemma CleanupKeepsFrames(s: State, n: nat)
    requires LeaseInv(s) && LockInv(s) && FrameInv(s) && n in s.cleanups
    ensures FrameInv(CleanupStep(s, n))
  {
    var s' := CleanupStep(s, n);
    CleanupFrames(s, n, Rx);
    CleanupKeepsLane(s, n, Rx);
    CleanupKeepsLane(s, n, Tx);
    if s.writer.WriterPut? { CleanupKeepsWriter(s, n); }
    forall k | k in s'.callbacks ensures OwnerSeenOk(s', s'.callbacks[k]) {
      CleanupKeepsSeen(s, n, k);
    }
  }

  /** What one callback step does to frames. */
  lemma CallbackFrames(s: State, n: nat, choice: Choice, d: Dir)
    requires n in s.callbacks
    ensures var s', pc := CallbackStep(s, n, choice), s.callbacks[n];
            && s'.writer == s.writer && s'.life == s.life && s'.cleanups == s.cleanups
            && (forall m :: m in s'.callbacks && m != n ==> m in s.callbacks && s'.callbacks[m] == s.callbacks[m])
            && (n in s'.callbacks && Owns(s'.callbacks[n]) ==>
                  s'.callbacks[n].gen == s.life.gen || (Owns(pc) && pc.dir == s'.callbacks[n].dir && pc.gen == s'.callbacks[n].gen))
            && (AllOf(s.lanes.Of(d).frames, s.life.gen) ==>
                  AllOf(s'.lanes.Of(d).frames, s.life.gen) || (Owns(pc) && pc.dir == d && pc.gen != s.life.gen))
  {}

  lemma DrainingIsClearing(s: State, d: Dir)
    requires Draining(s, d)
    ensures Clearing(s, d)
  {
    var n :| n in s.cleanups && BeforeDrain(s.cleanups[n], d);
    assert BeforeClear(s.cleanups[n], d);
  }

  lemma LockingIsClearing(s: State)
    requires Locking(s)
    ensures Clearing(s, Rx)
  {
    var n :| n in s.cleanups && BeforeWrite(s.cleanups[n]);
    assert BeforeClear(s.cleanups[n], Rx);
  }

  lemma CallbackKeepsFrames(s: State, n: nat, choice: Choice)
    requires FrameInv(s) && n in s.callbacks
    ensures FrameInv(CallbackStep(s, n, choice))
  {
    var s', pc := CallbackStep(s, n, choice), s.callbacks[n];
    CallbackFrames(s, n, choice, Rx);
    CallbackFrames(s, n, choice, Tx);
    assert OwnerSeenOk(s, pc);
    if Owns(pc) && pc.gen != s.life.gen { DrainingIsClearing(s, pc.dir); }
    forall m | m in s'.callbacks ensures OwnerSeenOk(s', s'.callbacks[m]) {
      assert m != n ==> OwnerSeenOk(s, s.callbacks[m]);
    }
  }

  lemma OtherKeepsPhases(s: State, s': State, a: Action)
    requires Enabled(s, a) && !a.StepPnp? && !a.StepCleanup? && !a.StepCallback? && s' == Exec(s, a)
    ensures forall d :: Clearing(s, d) ==> Clearing(s', d)
    ensures forall d :: Draining(s, d) ==> Draining(s', d)
    ensures Locking(s) ==> Locking(s')
  {
    assert forall n :: n in s.cleanups ==> n in s'.cleanups && s'.cleanups[n] == s.cleanups[n];
  }

  lemma OtherKeepsFrames(s: State, a: Action)
    requires FrameInv(s) && Enabled(s, a) && !a.StepPnp? && !a.StepCleanup? && !a.StepCallback?
    ensures FrameInv(Exec(s, a))
  {
    var s' := Exec(s, a);
    if s.writer.WriterPut? && s.writer.gen != s.life.gen { LockingIsClearing(s); }
    OtherKeepsPhases(s, s', a);
    forall m | m in s'.callbacks ensures OwnerSeenOk(s', s'.callbacks[m]) {
      assert m in s.callbacks ==> OwnerSeenOk(s, s.callbacks[m]);
    }
  }

  // ----- together -----

  ghost predicate Inv(s: State) { LeaseInv(s) && LockInv(s) && FrameInv(s) }

  lemma ActionKeepsFrames(s: State, a: Action)
    requires Inv(s) && Enabled(s, a)
    ensures FrameInv(Exec(s, a))
  {
    if a.StepPnp? {
      PnpKeepsFrames(s, a.ok);
    } else if a.StepCleanup? {
      CleanupKeepsFrames(s, a.n);
    } else if a.StepCallback? {
      CallbackKeepsFrames(s, a.n, a.choice);
    } else {
      OtherKeepsFrames(s, a);
    }
  }

  lemma ActionKeepsInv(s: State, a: Action)
    requires Inv(s) && Enabled(s, a)
    ensures Inv(Exec(s, a))
  {
    ActionKeepsLeases(s, a);
    ActionKeepsLocks(s, a);
    ActionKeepsFrames(s, a);
  }

  lemma StartInv()
    ensures Inv(START)
  {}

  lemma NextKeepsInv(s: State, s': State)
    requires Inv(s) && Next(s, s')
    ensures Inv(s')
  {
    var a :| Enabled(s, a) && s' == Exec(s, a);
    ActionKeepsInv(s, a);
  }

  lemma RunKeepsInv(run: seq<State>, i: nat)
    requires IsRun(run) && i < |run|
    ensures Inv(run[i])
  {
    StartInv();
    forall s, s' | Inv(s) && Next(s, s') ensures Inv(s') {
      NextKeepsInv(s, s');
    }
    Runs.Induction(run, i, START, Next, s => Inv(s));
  }

  // ----- what it gives -----

  predicate NothingLeased(s: State, d: Dir) {
    forall n :: n in s.callbacks && s.callbacks[n].dir == d ==> !Leased(s.callbacks[n])
  }

  /** The count is exactly the number of leased callbacks of its direction, so a lease
      that is dropped is always one that was counted. */
  lemma CountIsLiveLeases(run: seq<State>, i: nat, d: Dir)
    requires IsRun(run) && i < |run|
    ensures var s := run[i];
            && s.lanes.Of(d).word.count == |set n | n in s.callbacks && Leased(s.callbacks[n]) && s.callbacks[n].dir == d|
            && (forall n :: n in s.callbacks && s.callbacks[n] == Drop(d) ==> s.lanes.Of(d).word.count > 0)
  {
    RunKeepsInv(run, i);
    var s := run[i];
    var leased := set n | n in s.callbacks && Leased(s.callbacks[n]) && s.callbacks[n].dir == d;
    assert s.lanes.Of(d).holders == leased;
    forall n | n in s.callbacks && s.callbacks[n] == Drop(d) ensures |leased| > 0 {
      assert n in leased;
    }
  }

  /** Nested quiescence, power and hardware: from the return of the quiesce to the scope's
      own resume, its closer stays set and nothing is leased in that direction, whatever
      cleanups, callbacks and the other scopes do. */
  lemma PnpScopeStaysQuiet(run: seq<State>, i: nat, scope: Scope, d: Dir)
    requires IsRun(run) && i < |run| && PnpQuiet(run[i].pnp, scope, d)
    ensures run[i].lanes.Of(d).word.ClosedBy(scope) && NothingLeased(run[i], d)
  {
    RunKeepsInv(run, i);
    assert LaneOk(run[i], d);
  }

  /** The action clears or reopens the frame queue of `d`. */
  predicate ChangesQueue(s: State, a: Action, d: Dir) {
    match a
    case StepPnp(_) =>
      || s.pnp == Entry(true, if d == Rx then ReopenRx else ReopenTx)
      || s.pnp == Entry(false, if d == Rx then ReopenRx else ReopenTx)
      || (s.pnp.Shut? && s.pnp.shut == (if d == Rx then ClearRx else ClearTx))
    case StepCleanup(n) =>
      && n in s.cleanups
      && (|| (s.cleanups[n].Shutting? && s.cleanups[n].shut == (if d == Rx then ClearRx else ClearTx))
          || s.cleanups[n] == (if d == Rx then CuReopenRx else CuReopenTx))
    case _ => false
  }

  predicate NothingPassed(s: State, d: Dir) {
    forall n :: n in s.callbacks && s.callbacks[n].dir == d ==> !Passed(s.callbacks[n])
  }

  /** Owner isolation, first half, for every run: no callback that passed its OPEN check is
      in flight when D0 entry, D0 exit or release hardware clears or reopens a queue. */
  lemma PnpQueueChangesExcludeCallbacks(run: seq<State>, i: nat, ok: bool, d: Dir)
    requires IsRun(run) && i < |run| && ChangesQueue(run[i], StepPnp(ok), d)
    ensures NothingPassed(run[i], d)
  {
    RunKeepsInv(run, i);
    var s := run[i];
    forall n | n in s.callbacks && s.callbacks[n].dir == d ensures !Passed(s.callbacks[n]) {
      assert CallbackOk(s.pnp, s.callbacks[n]);
      if s.pnp.Shut? { assert LaneOk(s, d); }
    }
  }

  /** Owner isolation, second half, for every run: when no cleanup is in progress, every
      frame in either queue was produced under the current owner generation. */
  lemma FramesBelongToOwner(run: seq<State>, i: nat, d: Dir, k: nat)
    requires IsRun(run) && i < |run| && run[i].cleanups == map[] && k < |run[i].lanes.Of(d).frames|
    ensures run[i].lanes.Of(d).frames[k] == run[i].life.gen
  {
    RunKeepsInv(run, i);
    assert FramesOk(run[i], d);
  }

  /** A power or hardware transition keeps OPEN away from any cleanup. */
  lemma OutOfServiceIsNeverOpen(run: seq<State>, i: nat)
    requires IsRun(run) && i < |run| && OutOfService(run[i].pnp)
    ensures run[i].life.lifecycle != Open
  {
    RunKeepsInv(run, i);
  }

  /** A queue is reopened only while the lifecycle is not OPEN. */
  lemma ReopenNeverUnderOpen(run: seq<State>, i: nat, a: Action, d: Dir)
    requires IsRun(run) && i < |run| && Enabled(run[i], a) && ChangesQueue(run[i], a, d)
    requires Exec(run[i], a).lanes.Of(d).open
    ensures run[i].life.lifecycle != Open
  {
    RunKeepsInv(run, i);
    if a.StepCleanup? {
      assert CleanupOk(run[i], a.n, run[i].cleanups[a.n]);
    }
  }
}
