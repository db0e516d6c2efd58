/** Datapath leases, the instance lifecycle and owner hand-over as a transition system.

    One PnP thread runs prepare, D0 entry, D0 exit and release in WDF's order.
    Any number of file cleanups, leased packet callbacks and one inline writer run
    beside it. Every atomic operation, lock operation and queue operation is a step.
    A lane is one direction: its lease word and the frame queue it protects. Frames
    carry the owner generation their producer had observed. */
module OwnerModel {
  import opened LeaseWord
  import opened Wrappers
  import Runs

  datatype Dir = Rx | Tx

  datatype Lifecycle = Open | Suspended | Closing | Closed | OwnerClosing

  /** `holders` lists the callbacks whose lease the count stands for. */
  datatype Lane = Lane(word: Lease, holders: set<nat>, open: bool, frames: seq<nat>)

  datatype Lock = Unlocked | ByPnp | ByCleanup(n: nat) | ByWriter

  /** The steps D0 exit, release hardware and file cleanup share. */
  datatype ShutAt =
    | CloseRx
    | CloseTx
    | DrainRx
    | DrainTx
    | LockDirect
    | LockWrite
    | CancelWait
    | ClearRx
    | ClearTx
    | Cleared

  datatype EntryAt = ReopenRx | ReopenTx | PublishOpen | ResumeRx | ResumeTx

  /** `again` is "D0 entry follows a D0 exit". */
  datatype PnpPc =
    | Created
    | PrepareRx
    | PrepareTx
    | Prepared
    | Entry(again: bool, entry: EntryAt)
    | Working
    | Shut(scope: Scope, shut: ShutAt)
    | ShutUnlockWrite(scope: Scope)
    | ShutUnlockDirect(scope: Scope)
    | Down
    | Released

  datatype TailAt = TailResumeRx | TailResumeTx | TailUnlockWrite | TailUnlockDirect

  datatype CleanupPc =
    | Retire
    | ClaimOwner
    | Shutting(owns: bool, shut: ShutAt)
    | Disarm(resume: bool)
    | Readmit(resume: bool)
    | CuReopenRx
    | CuReopenTx
    | Confirm
    | Tail(early: bool, tail: TailAt)

  datatype CallbackPc =
    | LoadLease(dir: Dir)
    | CasLease(dir: Dir, seen: Lease)
    | CheckOpen(dir: Dir)
    | ReadOwner(dir: Dir)
    | Busy(dir: Dir, gen: nat)
    | PutOpen(dir: Dir, gen: nat)
    | PutOwner(dir: Dir, gen: nat)
    | Put(dir: Dir, gen: nat)
    | Drop(dir: Dir)

  datatype WriterPc = Idle | WriterLock | WriterCheck | WriterPut(gen: nat) | WriterUnlock

  datatype Lanes = Lanes(rx: Lane, tx: Lane) {

    function Of(d: Dir): Lane {
      match d
      case Rx => rx
      case Tx => tx
    }

    function With(d: Dir, lane: Lane): Lanes {
      match d
      case Rx => Lanes(lane, tx)
      case Tx => Lanes(rx, lane)
    }

    function Close(d: Dir, scope: Scope): Lanes { With(d, Of(d).(word := Of(d).word.Close(scope))) }

    function Resume(d: Dir, scope: Scope): Lanes { With(d, Of(d).(word := Of(d).word.Resume(scope))) }

    function SetQueue(d: Dir, open: bool): Lanes { With(d, Of(d).(open := open, frames := [])) }
  }

  /** Lifecycle and ownership fields. `control` is control_open; `handle` is "a file is
      open and its cleanup has not begun"; `adapter` is "the adapter is not null";
      `started` is "the first D0 entry has published the lifecycle". */
  datatype Life = Life(
    lifecycle: Lifecycle,
    gen: nat,
    adapter: bool,
    adaptive: bool,
    started: bool,
    control: bool,
    handle: bool)

  datatype Locks = Locks(direct: Lock, write: Lock)

  datatype State = State(
    lanes: Lanes,
    life: Life,
    locks: Locks,
    pnp: PnpPc,
    cleanups: map<nat, CleanupPc>,
    callbacks: map<nat, CallbackPc>,
    writer: WriterPc)

  datatype Choice = Leave | Take | Give

  datatype Action =
    | StepPnp(ok: bool)
    | StepCleanup(n: nat)
    | StepCallback(n: nat, choice: Choice)
    | StepWriter
    | CreateFile
    | EnableAdaptive
    | StartCleanup(n: nat)
    | StartCallback(n: nat, dir: Dir)

  // ----- the shared shutdown -----

  function ShutNext(s: State, at: ShutAt): ShutAt {
    match at
    case CloseRx => CloseTx
    case CloseTx => DrainRx
    case DrainRx => if s.lanes.rx.word.count == 0 then DrainTx else DrainRx
    case DrainTx => if s.lanes.tx.word.count == 0 then LockDirect else DrainTx
    case LockDirect => if s.locks.direct == Unlocked then LockWrite else LockDirect
    case LockWrite => if s.locks.write == Unlocked then CancelWait else LockWrite
    case CancelWait => ClearRx
    case ClearRx => ClearTx
    case ClearTx => Cleared
    case Cleared => Cleared
  }

  function ShutLanes(lanes: Lanes, scope: Scope, at: ShutAt): Lanes {
    match at
    case CloseRx => lanes.Close(Rx, scope)
    case CloseTx => lanes.Close(Tx, scope)
    case ClearRx => lanes.SetQueue(Rx, false)
    case ClearTx => lanes.SetQueue(Tx, false)
    case _ => lanes
  }

  function ShutLocks(locks: Locks, who: Lock, at: ShutAt): Locks {
    match at
    case LockDirect => if locks.direct == Unlocked then locks.(direct := who) else locks
    case LockWrite => if locks.write == Unlocked then locks.(write := who) else locks
    case _ => locks
  }

  // ----- threads -----

  function PnpLanes(lanes: Lanes, pnp: PnpPc): Lanes {
    match pnp
    case PrepareRx => lanes.Resume(Rx, Hardware)
    case PrepareTx => lanes.Resume(Tx, Hardware)
    case Entry(_, at) =>
      (match at
       case ReopenRx => lanes.SetQueue(Rx, true)
       case ReopenTx => lanes.SetQueue(Tx, true)
       case PublishOpen => lanes
       case ResumeRx => lanes.Resume(Rx, Power)
       case ResumeTx => lanes.Resume(Tx, Power))
    case Shut(scope, at) => ShutLanes(lanes, scope, at)
    case _ => lanes
  }

  function PnpLife(life: Life, pnp: PnpPc, ok: bool): Life {
    match pnp
    case Created => life.(lifecycle := Closing)
    case Prepared => if ok then life else life.(lifecycle := Closing)
    case Entry(_, at) => if at == PublishOpen then life.(lifecycle := Open, started := true) else life
    case Working => life.(lifecycle := Suspended)
    case Shut(scope, at) =>
      if at == Cleared && scope == Hardware then life.(adapter := false, lifecycle := Closed) else life
    case Down => if ok then life else life.(lifecycle := Closing)
    case Released => life.(lifecycle := Closing)
    case _ => life
  }

  function PnpLocks(locks: Locks, pnp: PnpPc): Locks {
    match pnp
    case Shut(_, at) => ShutLocks(locks, ByPnp, at)
    case ShutUnlockWrite(_) => locks.(write := Unlocked)
    case ShutUnlockDirect(_) => locks.(direct := Unlocked)
    case _ => locks
  }

  function EntryNext(again: bool, at: EntryAt): PnpPc {
    match at
    case ReopenRx => Entry(again, ReopenTx)
    case ReopenTx => Entry(again, PublishOpen)
    case PublishOpen => Entry(again, ResumeRx)
    case ResumeRx => Entry(again, ResumeTx)
    case ResumeTx => Working
  }

  function PnpNext(s: State, ok: bool): PnpPc {
    match s.pnp
    case Created => PrepareRx
    case PrepareRx => PrepareTx
    case PrepareTx => Prepared
    case Prepared => if ok then Entry(false, ReopenRx) else Shut(Hardware, CloseRx)
    case Entry(again, at) => EntryNext(again, at)
    case Working => Shut(Power, CloseRx)
    case Shut(scope, at) => if at == Cleared then ShutUnlockWrite(scope) else Shut(scope, ShutNext(s, at))
    case ShutUnlockWrite(scope) => ShutUnlockDirect(scope)
    case ShutUnlockDirect(scope) => if scope == Hardware then Released else Down
    case Down => if ok then Entry(true, ReopenRx) else Shut(Hardware, CloseRx)
    case Released => Released
  }

  /** `ok` chooses D0 entry over release where both may follow. */
  function PnpStep(s: State, ok: bool): State {
    State(PnpLanes(s.lanes, s.pnp), PnpLife(s.life, s.pnp, ok), PnpLocks(s.locks, s.pnp), PnpNext(s, ok),
          s.cleanups, s.callbacks, s.writer)
  }

  function CleanupLanes(lanes: Lanes, pc: CleanupPc): Lanes {
    match pc
    case Shutting(_, at) => ShutLanes(lanes, Owner, at)
    case CuReopenRx => lanes.SetQueue(Rx, true)
    case CuReopenTx => lanes.SetQueue(Tx, true)
    case Tail(_, at) =>
      if at == TailResumeRx then lanes.Resume(Rx, Owner)
      else if at == TailResumeTx then lanes.Resume(Tx, Owner)
      else lanes
    case _ => lanes
  }

  function CleanupLife(life: Life, pc: CleanupPc): Life {
    match pc
    case Retire => life.(gen := life.gen + 1)
    case ClaimOwner => if life.lifecycle == Open then life.(lifecycle := OwnerClosing) else life
    case Disarm(_) => life.(adaptive := false)
    case Readmit(_) => life.(control := false)
    case Confirm => if life.lifecycle == OwnerClosing then life.(lifecycle := Open) else life
    case _ => life
  }

  function CleanupLocks(locks: Locks, n: nat, pc: CleanupPc): Locks {
    match pc
    case Shutting(_, at) => ShutLocks(locks, ByCleanup(n), at)
    case Tail(_, at) =>
      if at == TailUnlockWrite then locks.(write := Unlocked)
      else if at == TailUnlockDirect then locks.(direct := Unlocked)
      else locks
    case _ => locks
  }

  function TailNext(early: bool, at: TailAt): Option<CleanupPc> {
    match at
    case TailResumeRx => Some(Tail(early, TailResumeTx))
    case TailResumeTx => if early then Some(Tail(early, TailUnlockWrite)) else None
    case TailUnlockWrite => Some(Tail(early, TailUnlockDirect))
    case TailUnlockDirect => if early then None else Some(Tail(early, TailResumeRx))
  }

  /** Where the cleanup goes next; `None` ends it. */
  function CleanupNext(s: State, pc: CleanupPc): Option<CleanupPc> {
    match pc
    case Retire => Some(ClaimOwner)
    case ClaimOwner => Some(Shutting(s.life.lifecycle == Open, CloseRx))
    case Shutting(owns, at) =>
      Some(if at == Cleared then Disarm(owns && s.life.lifecycle == OwnerClosing && s.life.adapter)
           else Shutting(owns, ShutNext(s, at)))
    case Disarm(resume) => Some(Readmit(resume))
    case Readmit(resume) => Some(if resume then CuReopenRx else Tail(false, TailUnlockWrite))
    case CuReopenRx => Some(CuReopenTx)
    case CuReopenTx => Some(Confirm)
    case Confirm => Some(if s.life.lifecycle == OwnerClosing then Tail(true, TailResumeRx) else Tail(false, TailUnlockWrite))
    case Tail(early, at) => TailNext(early, at)
  }

  function CleanupStep(s: State, n: nat): State
    requires n in s.cleanups
  {
    var pc := s.cleanups[n];
    var next := CleanupNext(s, pc);
    State(CleanupLanes(s.lanes, pc), CleanupLife(s.life, pc), CleanupLocks(s.locks, n, pc), s.pnp,
          if next == None then s.cleanups - {n} else s.cleanups[n := next.value], s.callbacks, s.writer)
  }

  /** The lane a callback works on, after its step. */
  function CallbackLane(lane: Lane, n: nat, pc: CallbackPc, choice: Choice): Lane {
    match pc
    case CasLease(_, seen) =>
      if choice != Leave && lane.word == seen
      then lane.(word := seen.(count := seen.count + 1), holders := lane.holders + {n}) else lane
    case Busy(_, _) => if choice == Take && lane.frames != [] then lane.(frames := lane.frames[1..]) else lane
    case Put(_, g) => if lane.open then lane.(frames := lane.frames + [g]) else lane
    case Drop(_) =>
      if lane.word.count == 0 then lane
      else lane.(word := lane.word.(count := lane.word.count - 1), holders := lane.holders - {n})
    case _ => lane
  }

  /** Where the callback goes next; `None` ends it. */
  function CallbackNext(lane: Lane, life: Life, pc: CallbackPc, choice: Choice): Option<CallbackPc> {
    match pc
    case LoadLease(d) =>
      if lane.word.Closed() || lane.word.count == MAXIMUM_COUNT then None else Some(CasLease(d, lane.word))
    case CasLease(d, seen) => Some(if choice != Leave && lane.word == seen then CheckOpen(d) else LoadLease(d))
    case CheckOpen(d) => Some(if life.lifecycle == Open then ReadOwner(d) else Drop(d))
    case ReadOwner(d) => Some(Busy(d, life.gen))
    case Busy(d, g) => Some(if choice == Leave then Drop(d) else if choice == Take then pc else PutOpen(d, g))
    case PutOpen(d, g) => Some(if life.lifecycle == Open then PutOwner(d, g) else Busy(d, g))
    case PutOwner(d, g) => Some(if life.gen == g then Put(d, g) else Busy(d, g))
    case Put(d, g) => Some(Busy(d, g))
    case Drop(_) => if lane.word.count == 0 then Some(pc) else None
  }

  /** A packet callback or passive reader. `Take` dequeues, `Give` starts an enqueue or
      requeue of a frame of the owner it observed. */
  function CallbackStep(s: State, n: nat, choice: Choice): State
    requires n in s.callbacks
  {
    var pc := s.callbacks[n];
    var lane := s.lanes.Of(pc.dir);
    var next := CallbackNext(lane, s.life, pc, choice);
    State(s.lanes.With(pc.dir, CallbackLane(lane, n, pc, choice)), s.life, s.locks, s.pnp, s.cleanups,
          if next == None then s.callbacks - {n} else s.callbacks[n := next.value], s.writer)
  }

  function WriterStep(s: State): State {
    match s.writer
    case Idle => s.(writer := WriterLock)
    case WriterLock =>
      if s.locks.write == Unlocked then s.(locks := s.locks.(write := ByWriter), writer := WriterCheck) else s
    case WriterCheck => s.(writer := if s.life.lifecycle == Open then WriterPut(s.life.gen) else WriterUnlock)
    case WriterPut(g) =>
      var lane := s.lanes.rx;
      s.(lanes := if lane.open then s.lanes.With(Rx, lane.(frames := lane.frames + [g])) else s.lanes,
         writer := WriterUnlock)
    case WriterUnlock => s.(locks := s.locks.(write := Unlocked), writer := Idle)
  }

  // ----- everything that can happen -----

  predicate Enabled(s: State, a: Action) {
    match a
    case StepCleanup(n) => n in s.cleanups
    case StepCallback(n, _) => n in s.callbacks
    case CreateFile => s.life.started && !s.life.control
    case EnableAdaptive => s.life.handle && s.life.lifecycle == Open
    case StartCleanup(n) => s.life.handle && n !in s.cleanups
    case StartCallback(n, _) => n !in s.callbacks
    case _ => true
  }

  function Exec(s: State, a: Action): State
    requires Enabled(s, a)
  {
    match a
    case StepPnp(ok) => PnpStep(s, ok)
    case StepCleanup(n) => CleanupStep(s, n)
    case StepCallback(n, choice) => CallbackStep(s, n, choice)
    case StepWriter => WriterStep(s)
    case CreateFile => s.(life := s.life.(control := true, handle := true))
    case EnableAdaptive => s.(life := s.life.(adaptive := true))
    case StartCleanup(n) => s.(life := s.life.(handle := false), cleanups := s.cleanups[n := Retire])
    case StartCallback(n, d) => s.(callbacks := s.callbacks[n := LoadLease(d)])
  }

  const NEW_LANE := Lane(Lease(0, false, true, false), {}, true, [])

  const START := State(Lanes(NEW_LANE, NEW_LANE), Life(Open, 0, true, false, false, false, false),
                       Locks(Unlocked, Unlocked), Created, map[], map[], Idle)

  ghost predicate Next(s: State, s': State) {
    exists a :: Enabled(s, a) && s' == Exec(s, a)
  }

  ghost predicate IsRun(run: seq<State>) { Runs.IsRun(run, START, Next) }
}
