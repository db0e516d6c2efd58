/** The adaptive-wait protocol as a transition system.

    One cancelable WAIT_FOR_CHANGE request is shared by the registering control
    dispatch, packet callbacks, passive workers, teardown paths and the WDF
    cancellation callback. Every atomic load, store, swap and compare-exchange of
    the driver is one step here, every queue operation under its spin lock is one
    step, and every WDF request call is one step. Threads interleave freely;
    there are arbitrarily many producers, workers and teardown paths. A worker that
    goes round its loop for another wait is a worker started without the work item.
    Adaptive mode is switched off only by a file cleanup that is through its cancel
    loop. A request carries the owner generation of the file that sent it, which may be
    a retired one: the control queue can hold a request while its handle is closed.

    Request handles are recycled: a handle is live exactly while it is a key of
    `requests`, and a completed handle may be dispatched again at once. */
module WaitModel {
  import opened WaitRecord
  import Runs

  type Handle = nat

  const NULL: Handle := 0
  const FRAME_QUEUE_LIMIT: nat := 256
  const READABLE := Mask(true, false)
  const WRITABLE := Mask(false, true)

  datatype Handoff = NoHandoff | CancelArrived | UnmarkCancelled

  /** What WDF knows about a live request: owned by the driver and not cancelable,
      marked cancelable, cancellation callback dispatched, or unmarked again. */
  datatype Status = Owned | Marked | Dispatched | Unmarked

  /** Who runs. `Control` is the control queue, whose request handlers and
      EvtIoStop the framework serializes. `Rx` is the receive advance callback,
      which the framework serializes as well. */
  datatype Tid =
    | Control
    | Cancel(request: Handle)
    | Rx
    | Producer(n: nat)
    | Worker(n: nat)
    | Closer(n: nat)

  /** Bookkeeping: the thread that must complete a request, once that is settled. */
  datatype Debtor = Undecided | Owed(who: Tid)

  datatype Request = Request(status: Status, want: Mask, debtor: Debtor)

  datatype Outcome = Reply(satisfied: Mask) | Failure

  datatype After = ThenComplete(request: Handle, outcome: Outcome) | ThenReturn

  /** Where a claim returns to: out of its callback, or to the receive loop. */
  datatype Resume = Leave | RxAgain(gen: nat)

  // Program counters, one datatype per driver function, with the locals that vary.

  /** handle_wait_for_change up to the mark. */
  datatype RegisterAt =
    | Validate
    | LoadFree
    | CasFree(seen: Record)
    | PutSlot
    | GetCaptureGen
    | GetInjectionGen(cg: nat)
    | PutInterest(cg: nat, ig: nat)
    | PutCaptureMark(cg: nat, ig: nat)
    | PutInjectionMark(ig: nat)
    | PutHandoff
    | CheckOpen
    | CheckAdaptive
    | CheckTx
    | CheckRx
    | MarkCancelable

  /** handle_wait_for_change after the mark. */
  datatype PublishAt =
    | LoadRegistering
    | CasPending(seen: Record)
    | SnapCaptureGen
    | SnapInjectionGen(cg: nat)
    | SnapCapture(cg: nat, ig: nat)
    | SnapInjection(cg: nat, ig: nat, readable: bool)
    | CompareCapture(cg: nat, ig: nat, ready: Mask)
    | CompareInjection(moved: bool, ig: nat, ready: Mask)
    | LoadTeardown
    | CasTeardown(seen: Record)

  /** claim_wait_for_passive_completion. */
  datatype ClaimAt =
    | Gate
    | LoadWord
    | CheckSlot(seen: Record)
    | CheckInterest(seen: Record)
    | CasScheduled(seen: Record, bits: Mask)
    | EnqueueWork

  /** finish_wait. */
  datatype FinishAt =
    | ClearInterest
    | ClearCaptureMark
    | ClearInjectionMark
    | ClearHandoff
    | ClearSlot
    | LoadLast
    | StoreFree(seen: Record)

  /** unmark_and_complete_wait. */
  datatype UnmarkAt = CallUnmark(outcome: Outcome) | SwapHandoff

  /** What closes the gate, then cancel_wait_request_for_teardown. */
  datatype TeardownAt =
    | RetireOwner
    | CloseGate
    | Drain
    | StopTx
    | StopRx
    | StopSlot(expected: Handle)
    | LoadPhase(expected: Handle)
    | ReadSlot(expected: Handle, from: Phase)
    | LoadFrom(expected: Handle, from: Phase)
    | CasFrom(expected: Handle, from: Phase, seen: Record)
    | RereadSlot

  /** take_scheduled_wait and complete_scheduled_wait_at_passive. */
  datatype WorkAt =
    | LoadScheduled
    | CasUnmarking(seen: Record)
    | TakeSlot(sat: Mask)
    | TakeInterest(h: Handle, sat: Mask)
    | LookCapture(h: Handle, sat: Mask, want: Mask)
    | LookInjection(h: Handle, sat: Mask, want: Mask, readable: bool)
    | TakeInterestAgain(h: Handle, sat: Mask)
    | LookOpen(h: Handle, sat: Mask, want: Mask)
    | LookTx(h: Handle, sat: Mask, want: Mask)
    | LookRx(h: Handle, sat: Mask, want: Mask)

  /** cancel_wait_from_wdf. */
  datatype CancelAt =
    | MatchSlot
    | LoadAny
    | LoadSame(from: Phase)
    | CasCancelled(from: Phase, seen: Record)
    | SwapArrived

  /** enqueue_existing_capture_frame after its lock, and inject_receive_frames. */
  datatype PacketAt =
    | CaptureBump(wasEmpty: bool)
    | RxOpen
    | RxGeneration
    | RxLoop(gen: nat)
    | RxBump(gen: nat, wasFull: bool)
    | RxPlace(gen: nat, wasFull: bool)
    | RxRequeueOpen(gen: nat, wasFull: bool)
    | RxRequeueGen(gen: nat, wasFull: bool)
    | RxRequeue(gen: nat, wasFull: bool)
    | RxRequeueBump(gen: nat)

  datatype Pc =
    | Register(h: Handle, want: Mask, reg: RegisterAt)
    | Publish(h: Handle, want: Mask, pub: PublishAt)
    | Claim(cond: Mask, expected: Handle, back: Resume, claim: ClaimAt)
    | Finish(after: After, fin: FinishAt)
    | Complete(h: Handle, outcome: Outcome)
    | Unmark(h: Handle, um: UnmarkAt)
    | Tear(td: TeardownAt)
    | Work(wk: WorkAt)
    | Cancelling(h: Handle, cx: CancelAt)
    | Packet(pk: PacketAt)

  /** The wait fields of the instance. */
  datatype Shared = Shared(
    word: Record,
    slot: Handle,
    handoff: Handoff,
    interest: Mask,
    captureMark: nat,
    injectionMark: nat)

  datatype Queues = Queues(
    captured: nat,
    captureOpen: bool,
    captureGen: nat,
    injected: nat,
    injectionOpen: bool,
    injectionGen: nat)

  /** `open` is "lifecycle == INSTANCE_OPEN"; `cleanups` are the file cleanups that have
      begun and not yet switched adaptive mode off. */
  datatype Device = Device(
    open: bool,
    adaptive: bool,
    txStarted: bool,
    rxStarted: bool,
    ownerGen: nat,
    workQueued: bool,
    cleanups: set<nat>)

  datatype Answer = Answer(want: Mask, satisfied: Mask)

  /** Bookkeeping that no step of the driver reads.
      `holder`: the thread that must retire the record, while one is settled.
      `fault`: a request call broke the WDF contract (a request completed twice or
      while still cancelable, or unmarked, marked or touched when that is illegal).
      `dead`: one of the driver's defensive branches ran. */
  datatype Audit = Audit(
    holder: Debtor,
    fault: bool,
    dead: bool,
    answers: seq<Answer>,
    trail: Trail)

  /** What has happened to the wait being registered or published.
      `missed`: bits it asked for whose claim was refused because adaptive mode was off.
      `asked`: the owner generation that sent the request the control thread handles;
      `prompt`: that was the current one when the request was dispatched.
      `owner`: the same for the request in the record, taken when the registration read
      adaptive mode, and `late`: another owner was current at that moment. */
  datatype Trail = Trail(missed: Mask, asked: nat, prompt: bool, owner: nat, late: bool)

  datatype State = State(
    rec: Shared,
    q: Queues,
    dev: Device,
    threads: map<Tid, Pc>,
    requests: map<Handle, Request>,
    audit: Audit)

  datatype Cause = PowerOrHardware | Owner | TxStop | RxStop

  datatype Action =
    | Step(t: Tid, ok: bool)
    | DispatchWait(h: Handle, want: Mask, sender: nat)
    | DispatchStop(h: Handle)
    | DispatchCancel(h: Handle)
    | StartWorker(n: nat)
    | LoopWorker(n: nat)
    | StartProducer(n: nat)
    | StartReceive
    | StartTeardown(n: nat, cause: Cause)
    | ReadCaptured
    | WriteInjected
    | OpenLifecycle
    | EnableAdaptive
    | DisableAdaptive(n: nat)
    | StartQueue(transmit: bool)
    | ReleaseQueues
    | CloseQueue(capture: bool)
    | ReopenQueue(capture: bool)

  // ----- small updates -----

  function Goto(s: State, t: Tid, pc: Pc): State {
    s.(threads := s.threads[t := pc])
  }

  function End(s: State, t: Tid): State {
    s.(threads := s.threads - {t})
  }

  function Fault(s: State): State {
    s.(audit := s.audit.(fault := true))
  }

  function Dead(s: State): State {
    s.(audit := s.audit.(dead := true))
  }

  function SetPhase(s: State, seen: Record, p: Phase): State {
    s.(rec := s.rec.(word := seen.(phase := p)))
  }

  function Hold(s: State, holder: Debtor): State {
    s.(audit := s.audit.(holder := holder))
  }

  function Return(s: State, t: Tid, back: Resume): State {
    match back
    case Leave => End(s, t)
    case RxAgain(gen) => Goto(s, t, Packet(RxLoop(gen)))
  }

  /** A registration has read adaptive mode on. */
  function Enlisted(trail: Trail, ownerGen: nat): Trail {
    trail.(missed := NO_BITS, owner := trail.asked, late := trail.asked != ownerGen)
  }

  /** A claim meant for the published wait was refused at its gate. */
  function Refused(trail: Trail, rec: Shared, cond: Mask, expected: Handle): Trail {
    if rec.word.phase == Pending && (expected == NULL || expected == rec.slot)
    then trail.(missed := trail.missed.Or(cond.And(rec.interest))) else trail
  }

  /** finish_wait, then complete `h`. */
  function Retire(h: Handle, outcome: Outcome): Pc {
    Finish(ThenComplete(h, outcome), ClearInterest)
  }

  /** Terminal ownership of `h` is settled on `t`: retire the record, then complete. */
  function Settle(s: State, t: Tid, h: Handle, outcome: Outcome): State {
    if h in s.requests then
      Hold(Goto(s.(requests := s.requests[h := s.requests[h].(debtor := Owed(t))]), t,
                Retire(h, outcome)), Owed(t))
    else Fault(End(s, t))
  }

  predicate Writable(q: Queues) { q.injectionOpen && q.injected < FRAME_QUEUE_LIMIT }

  predicate Readable(q: Queues) { q.captured > 0 }

  // ----- one step of a thread -----

  /** `ok` false is a failed validation, a spurious compare-exchange failure or a failed mark. */
  function RegisterStep(s: State, t: Tid, h: Handle, want: Mask, at: RegisterAt, ok: bool): State {
    match at
    case Validate =>
      Goto(s, t, if ok && !want.Empty() then Register(h, want, LoadFree) else Complete(h, Failure))
    case LoadFree =>
      Goto(s, t, if s.rec.word.phase == Free then Register(h, want, CasFree(s.rec.word)) else Complete(h, Failure))
    case CasFree(seen) =>
      if ok && s.rec.word == seen then
        Hold(Goto(s.(rec := s.rec.(word := Record(seen.sequence + 1, NO_BITS, Registering))), t,
                  Register(h, want, PutSlot)), Owed(t))
      else Goto(s, t, Register(h, want, LoadFree))
    case PutSlot =>
      if s.rec.slot == NULL then Goto(s.(rec := s.rec.(slot := h)), t, Register(h, want, GetCaptureGen))
      else Dead(Goto(s, t, Retire(h, Failure)))
    case GetCaptureGen => Goto(s, t, Register(h, want, GetInjectionGen(s.q.captureGen)))
    case GetInjectionGen(cg) => Goto(s, t, Register(h, want, PutInterest(cg, s.q.injectionGen)))
    case PutInterest(cg, ig) =>
      Goto(s.(rec := s.rec.(interest := want)), t, Register(h, want, PutCaptureMark(cg, ig)))
    case PutCaptureMark(cg, ig) =>
      Goto(s.(rec := s.rec.(captureMark := cg)), t, Register(h, want, PutInjectionMark(ig)))
    case PutInjectionMark(ig) =>
      Goto(s.(rec := s.rec.(injectionMark := ig)), t, Register(h, want, PutHandoff))
    case PutHandoff => Goto(s.(rec := s.rec.(handoff := NoHandoff)), t, Register(h, want, CheckOpen))
    case CheckOpen => Goto(s, t, if s.dev.open then Register(h, want, CheckAdaptive) else Retire(h, Failure))
    case CheckAdaptive =>
      if s.dev.adaptive
      then Goto(s.(audit := s.audit.(trail := Enlisted(s.audit.trail, s.dev.ownerGen))), t, Register(h, want, CheckTx))
      else Goto(s, t, Retire(h, Failure))
    case CheckTx =>
      Goto(s, t, if want.readable ==> s.dev.txStarted then Register(h, want, CheckRx) else Retire(h, Failure))
    case CheckRx =>
      Goto(s, t, if want.writable ==> s.dev.rxStarted then Register(h, want, MarkCancelable) else Retire(h, Failure))
    case MarkCancelable =>
      if !(h in s.requests && s.requests[h].status == Owned) then Fault(End(s, t))
      else if ok then
        Goto(s.(requests := s.requests[h := s.requests[h].(status := Marked, debtor := Undecided)]), t,
             Publish(h, want, LoadRegistering))
      else Goto(s, t, Retire(h, Failure))
  }

  function PublishStep(s: State, t: Tid, h: Handle, want: Mask, at: PublishAt, ok: bool): State {
    match at
    case LoadRegistering =>
      (match s.rec.word.phase
       case Registering => Goto(s, t, Publish(h, want, CasPending(s.rec.word)))
       case Teardown => Goto(s, t, Publish(h, want, LoadTeardown))
       case Cancelled => Goto(s, t, Finish(ThenReturn, ClearInterest))
       case _ => Dead(Goto(s, t, Finish(ThenReturn, ClearInterest))))
    case CasPending(seen) =>
      if ok && s.rec.word == seen then
        Hold(Goto(SetPhase(s, seen, Pending), t, Publish(h, want, SnapCaptureGen)), Undecided)
      else Goto(s, t, Publish(h, want, LoadRegistering))
    case SnapCaptureGen => Goto(s, t, Publish(h, want, SnapInjectionGen(s.q.captureGen)))
    case SnapInjectionGen(cg) => Goto(s, t, Publish(h, want, SnapCapture(cg, s.q.injectionGen)))
    case SnapCapture(cg, ig) => Goto(s, t, Publish(h, want, SnapInjection(cg, ig, Readable(s.q))))
    case SnapInjection(cg, ig, readable) =>
      Goto(s, t, Publish(h, want, CompareCapture(cg, ig, Mask(readable, Writable(s.q)).And(want))))
    case CompareCapture(cg, ig, ready) =>
      Goto(s, t, Publish(h, want, CompareInjection(cg != s.rec.captureMark, ig, ready)))
    case CompareInjection(moved, ig, ready) =>
      if !ready.Empty() || moved || ig != s.rec.injectionMark
      then Goto(s, t, Claim(ready, h, Leave, Gate))
      else End(s, t)
    case LoadTeardown =>
      Goto(s, t, if s.rec.word.phase == Teardown then Publish(h, want, CasTeardown(s.rec.word))
                 else Finish(ThenReturn, ClearInterest))
    case CasTeardown(seen) =>
      if ok && s.rec.word == seen
      then Goto(SetPhase(s, seen, Unmarking), t, Unmark(h, CallUnmark(Failure)))
      else Goto(s, t, Publish(h, want, LoadTeardown))
  }

  function ClaimStep(s: State, t: Tid, cond: Mask, expected: Handle, back: Resume, at: ClaimAt, ok: bool): State {
    match at
    case Gate =>
      if cond.Empty() then Return(s, t, back)
      else if !s.dev.adaptive
      then Return(s.(audit := s.audit.(trail := Refused(s.audit.trail, s.rec, cond, expected))), t, back)
      else Goto(s, t, Claim(cond, expected, back, LoadWord))
    case LoadWord =>
      if s.rec.word.phase != Pending && s.rec.word.phase != Scheduled then Return(s, t, back)
      else Goto(s, t, Claim(cond, expected, back, CheckSlot(s.rec.word)))
    case CheckSlot(seen) =>
      if s.rec.slot == NULL || (expected != NULL && s.rec.slot != expected) then Return(s, t, back)
      else Goto(s, t, Claim(cond, expected, back, CheckInterest(seen)))
    case CheckInterest(seen) =>
      var bits := s.rec.interest.And(cond);
      if bits.Empty() then Return(s, t, back)
      else if seen.phase == Scheduled && seen.satisfied.Or(bits) == seen.satisfied then Return(s, t, back)
      else Goto(s, t, Claim(cond, expected, back, CasScheduled(seen, bits)))
    case CasScheduled(seen, bits) =>
      if !(ok && s.rec.word == seen) then Goto(s, t, Claim(cond, expected, back, LoadWord))
      else
        var s1 := s.(rec := s.rec.(word := Record(seen.sequence, seen.satisfied.Or(bits), Scheduled)));
        if seen.phase == Pending then Goto(s1, t, Claim(cond, expected, back, EnqueueWork)) else Return(s1, t, back)
    case EnqueueWork => Return(s.(dev := s.dev.(workQueued := true)), t, back)
  }

  function FinishStep(s: State, t: Tid, after: After, at: FinishAt): State {
    match at
    case ClearInterest => Goto(s.(rec := s.rec.(interest := NO_BITS)), t, Finish(after, ClearCaptureMark))
    case ClearCaptureMark => Goto(s.(rec := s.rec.(captureMark := 0)), t, Finish(after, ClearInjectionMark))
    case ClearInjectionMark => Goto(s.(rec := s.rec.(injectionMark := 0)), t, Finish(after, ClearHandoff))
    case ClearHandoff => Goto(s.(rec := s.rec.(handoff := NoHandoff)), t, Finish(after, ClearSlot))
    case ClearSlot => Goto(s.(rec := s.rec.(slot := NULL)), t, Finish(after, LoadLast))
    case LoadLast => Goto(s, t, Finish(after, StoreFree(s.rec.word)))
    case StoreFree(seen) =>
      var s1 := Hold(s.(rec := s.rec.(word := Record(seen.sequence + 1, NO_BITS, Free))), Undecided);
      match after
      case ThenComplete(h, outcome) => Goto(s1, t, Complete(h, outcome))
      case ThenReturn => End(s1, t)
  }

  /** WdfRequestComplete; `ok` is "the output buffer was available". */
  function CompleteStep(s: State, t: Tid, h: Handle, outcome: Outcome, ok: bool): State {
    if h in s.requests && s.requests[h].status != Marked then
      End(s.(requests := s.requests - {h},
             audit := if ok && outcome.Reply?
                      then s.audit.(answers := s.audit.answers + [Answer(s.requests[h].want, outcome.satisfied)])
                      else s.audit), t)
    else Fault(End(s, t))
  }

  /** WDF answers SUCCESS (or, with `ok` false, another status that is not
      CANCELLED) while the callback is not dispatched, and CANCELLED once it is. */
  function UnmarkStep(s: State, t: Tid, h: Handle, at: UnmarkAt, ok: bool): State {
    match at
    case CallUnmark(outcome) =>
      if h in s.requests && s.requests[h].status == Marked then
        Settle(s.(requests := s.requests[h := s.requests[h].(status := Unmarked)]), t, h,
               if ok then outcome else Failure)
      else if h in s.requests && s.requests[h].status == Dispatched then Goto(s, t, Unmark(h, SwapHandoff))
      else Fault(End(s, t))
    case SwapHandoff =>
      var s1 := s.(rec := s.rec.(handoff := UnmarkCancelled));
      if s.rec.handoff == CancelArrived then Settle(s1, t, h, Failure)
      else Hold(End(s1, t), Owed(Cancel(h)))
  }

  function TeardownStep(s: State, t: Tid, at: TeardownAt, ok: bool): State {
    match at
    case RetireOwner => Goto(s.(dev := s.dev.(ownerGen := s.dev.ownerGen + 1)), t, Tear(CloseGate))
    case CloseGate => Goto(s.(dev := s.dev.(open := false)), t, Tear(Drain))
    case Drain => if Rx in s.threads then s else Goto(s, t, Tear(LoadPhase(NULL)))
    case StopTx => Goto(s.(dev := s.dev.(txStarted := false)), t, Tear(LoadPhase(NULL)))
    case StopRx => Goto(s.(dev := s.dev.(rxStarted := false)), t, Tear(LoadPhase(NULL)))
    case StopSlot(expected) =>
      if expected != NULL && s.rec.slot == expected then Goto(s, t, Tear(LoadPhase(expected))) else End(s, t)
    case LoadPhase(expected) =>
      var p := s.rec.word.phase;
      if p == Registering || p == Pending || p == Scheduled then Goto(s, t, Tear(ReadSlot(expected, p)))
      else End(s, t)
    case ReadSlot(expected, from) =>
      if (from != Registering && s.rec.slot == NULL) || (expected != NULL && s.rec.slot != expected)
      then End(s, t)
      else Goto(s, t, Tear(LoadFrom(expected, from)))
    case LoadFrom(expected, from) =>
      Goto(s, t, Tear(if s.rec.word.phase == from then CasFrom(expected, from, s.rec.word) else LoadPhase(expected)))
    case CasFrom(expected, from, seen) =>
      if !(ok && s.rec.word == seen) then Goto(s, t, Tear(LoadFrom(expected, from)))
      else if from == Registering then End(SetPhase(s, seen, Teardown), t)
      else Hold(Goto(SetPhase(s, seen, Unmarking), t, Tear(RereadSlot)), Owed(t))
    case RereadSlot =>
      if s.rec.slot == NULL then Dead(Goto(s, t, Finish(ThenReturn, ClearInterest)))
      else Goto(s, t, Unmark(s.rec.slot, CallUnmark(Failure)))
  }

  function WorkerStep(s: State, t: Tid, at: WorkAt, ok: bool): State {
    match at
    case LoadScheduled =>
      if s.rec.word.phase == Scheduled then Goto(s, t, Work(CasUnmarking(s.rec.word))) else End(s, t)
    case CasUnmarking(seen) =>
      if ok && s.rec.word == seen
      then Hold(Goto(SetPhase(s, seen, Unmarking), t, Work(TakeSlot(seen.satisfied))), Owed(t))
      else Goto(s, t, Work(LoadScheduled))
    case TakeSlot(sat) =>
      if s.rec.slot == NULL then Dead(Goto(s, t, Finish(ThenReturn, ClearInterest)))
      else Goto(s, t, Work(TakeInterest(s.rec.slot, sat)))
    case TakeInterest(h, sat) => Goto(s, t, Work(LookCapture(h, sat, s.rec.interest)))
    case LookCapture(h, sat, want) => Goto(s, t, Work(LookInjection(h, sat, want, Readable(s.q))))
    case LookInjection(h, sat, want, readable) =>
      Goto(s, t, Work(TakeInterestAgain(h, sat.Or(Mask(readable, Writable(s.q)).And(want)))))
    case TakeInterestAgain(h, sat) => Goto(s, t, Work(LookOpen(h, sat, s.rec.interest)))
    case LookOpen(h, sat, want) =>
      Goto(s, t, if s.dev.open then Work(LookTx(h, sat, want)) else Unmark(h, CallUnmark(Failure)))
    case LookTx(h, sat, want) =>
      Goto(s, t, if want.readable ==> s.dev.txStarted then Work(LookRx(h, sat, want))
                 else Unmark(h, CallUnmark(Failure)))
    case LookRx(h, sat, want) =>
      Goto(s, t, Unmark(h, CallUnmark(if want.writable ==> s.dev.rxStarted then Reply(sat) else Failure)))
  }

  function CancelStep(s: State, t: Tid, h: Handle, at: CancelAt, ok: bool): State {
    match at
    case MatchSlot =>
      if h !in s.requests then Fault(End(s, t))
      else if s.rec.slot == h then Goto(s, t, Cancelling(h, LoadAny))
      else Dead(Goto(s, t, Complete(h, Failure)))
    case LoadAny =>
      (match s.rec.word.phase
       case Unmarking => Goto(s, t, Cancelling(h, SwapArrived))
       case Free => Dead(End(s, t))
       case Cancelled => Dead(End(s, t))
       case p => Goto(s, t, Cancelling(h, LoadSame(p))))
    case LoadSame(from) =>
      Goto(s, t, Cancelling(h, if s.rec.word.phase == from then CasCancelled(from, s.rec.word) else LoadAny))
    case CasCancelled(from, seen) =>
      if !(ok && s.rec.word == seen) then Goto(s, t, Cancelling(h, LoadSame(from)))
      else if h !in s.requests then Fault(End(s, t))
      else if from == Registering || from == Teardown then
        // The registrar keeps the duty to retire the record.
        Goto(SetPhase(s, seen, Cancelled)
             .(requests := s.requests[h := s.requests[h].(debtor := Owed(t))]), t, Complete(h, Failure))
      else Settle(SetPhase(s, seen, Cancelled), t, h, Failure)
    case SwapArrived =>
      var s1 := s.(rec := s.rec.(handoff := CancelArrived));
      if s.rec.handoff == UnmarkCancelled then Settle(s1, t, h, Failure) else End(s1, t)
  }

  /** `ok` false leaves the receive loop or fails to place a frame in the ring. */
  function PacketStep(s: State, t: Tid, at: PacketAt, ok: bool): State {
    match at
    case CaptureBump(wasEmpty) =>
      var s1 := s.(q := s.q.(captureGen := s.q.captureGen + 1));
      if wasEmpty then Goto(s1, t, Claim(READABLE, NULL, Leave, Gate)) else End(s1, t)
    case RxOpen => if s.dev.open then Goto(s, t, Packet(RxGeneration)) else End(s, t)
    case RxGeneration => Goto(s, t, Packet(RxLoop(s.dev.ownerGen)))
    case RxLoop(gen) =>
      if ok && s.q.injected > 0 then
        Goto(s.(q := s.q.(injected := s.q.injected - 1)), t,
             Packet(RxBump(gen, s.q.injectionOpen && s.q.injected == FRAME_QUEUE_LIMIT)))
      else End(s, t)
    case RxBump(gen, wasFull) =>
      Goto(s.(q := s.q.(injectionGen := s.q.injectionGen + 1)), t, Packet(RxPlace(gen, wasFull)))
    case RxPlace(gen, wasFull) =>
      if !ok then Goto(s, t, Packet(RxRequeueOpen(gen, wasFull)))
      else if wasFull then Goto(s, t, Claim(WRITABLE, NULL, RxAgain(gen), Gate))
      else Goto(s, t, Packet(RxLoop(gen)))
    case RxRequeueOpen(gen, wasFull) =>
      if s.dev.open then Goto(s, t, Packet(RxRequeueGen(gen, wasFull))) else End(s, t)
    case RxRequeueGen(gen, wasFull) =>
      if s.dev.ownerGen == gen then Goto(s, t, Packet(RxRequeue(gen, wasFull))) else End(s, t)
    case RxRequeue(gen, wasFull) =>
      if Writable(s.q) then Goto(s.(q := s.q.(injected := s.q.injected + 1)), t, Packet(RxRequeueBump(gen)))
      else End(s, t)
    case RxRequeueBump(gen) => End(s.(q := s.q.(injectionGen := s.q.injectionGen + 1)), t)
  }

  function ThreadStep(s: State, t: Tid, ok: bool): State
    requires t in s.threads
  {
    match s.threads[t]
    case Register(h, want, at) => RegisterStep(s, t, h, want, at, ok)
    case Publish(h, want, at) => PublishStep(s, t, h, want, at, ok)
    case Claim(cond, expected, back, at) => ClaimStep(s, t, cond, expected, back, at, ok)
    case Finish(after, at) => FinishStep(s, t, after, at)
    case Complete(h, outcome) => CompleteStep(s, t, h, outcome, ok)
    case Unmark(h, at) => UnmarkStep(s, t, h, at, ok)
    case Tear(at) => TeardownStep(s, t, at, ok)
    case Work(at) => WorkerStep(s, t, at, ok)
    case Cancelling(h, at) => CancelStep(s, t, h, at, ok)
    case Packet(at) => PacketStep(s, t, at, ok)
  }

  // ----- everything that can happen -----

  predicate Enabled(s: State, a: Action) {
    match a
    case Step(t, _) => t in s.threads
    case DispatchWait(h, _, sender) =>
      Control !in s.threads && h != NULL && h !in s.requests && sender <= s.dev.ownerGen
    case DispatchStop(h) => Control !in s.threads && h != NULL
    case DispatchCancel(h) => h in s.requests && s.requests[h].status == Marked
    case StartWorker(n) => s.dev.workQueued && Worker(n) !in s.threads
    case LoopWorker(n) => Worker(n) !in s.threads
    case StartProducer(n) =>
      Producer(n) !in s.threads && s.q.captureOpen && s.q.captured < FRAME_QUEUE_LIMIT
    case StartReceive => Rx !in s.threads
    case StartTeardown(n, _) => Closer(n) !in s.threads && n !in s.dev.cleanups
    case ReadCaptured => s.q.captured > 0
    case WriteInjected => Writable(s.q)
    case EnableAdaptive => Control !in s.threads && s.dev.open
    case DisableAdaptive(n) => n in s.dev.cleanups && Closer(n) !in s.threads
    case ReleaseQueues => !s.dev.open
    case ReopenQueue(_) => !s.dev.open
    case _ => true
  }

  function Exec(s: State, a: Action): State
    requires Enabled(s, a)
  {
    match a
    case Step(t, ok) => ThreadStep(s, t, ok)
    case DispatchWait(h, want, sender) =>
      Goto(s.(requests := s.requests[h := Request(Owned, want, Owed(Control))],
              audit := s.audit.(trail := s.audit.trail.(asked := sender, prompt := sender == s.dev.ownerGen))),
           Control, Register(h, want, Validate))
    case DispatchStop(h) => Goto(s, Control, Tear(StopSlot(h)))
    case DispatchCancel(h) =>
      Goto(s.(requests := s.requests[h := s.requests[h].(status := Dispatched)]), Cancel(h), Cancelling(h, MatchSlot))
    case StartWorker(n) => Goto(s.(dev := s.dev.(workQueued := false)), Worker(n), Work(LoadScheduled))
    case LoopWorker(n) => Goto(s, Worker(n), Work(LoadScheduled))
    case StartProducer(n) =>
      Goto(s.(q := s.q.(captured := s.q.captured + 1)), Producer(n), Packet(CaptureBump(s.q.captured == 0)))
    case StartReceive => Goto(s, Rx, Packet(RxOpen))
    case StartTeardown(n, cause) =>
      Goto(s.(dev := s.dev.(cleanups := if cause == Owner then s.dev.cleanups + {n} else s.dev.cleanups)), Closer(n),
           Tear(match cause
                case PowerOrHardware => CloseGate
                case Owner => RetireOwner
                case TxStop => StopTx
                case RxStop => StopRx))
    case ReadCaptured => s.(q := s.q.(captured := s.q.captured - 1, captureGen := s.q.captureGen + 1))
    case WriteInjected => s.(q := s.q.(injected := s.q.injected + 1, injectionGen := s.q.injectionGen + 1))
    case OpenLifecycle => s.(dev := s.dev.(open := true))
    case EnableAdaptive => s.(dev := s.dev.(adaptive := true))
    case DisableAdaptive(n) => s.(dev := s.dev.(adaptive := false, cleanups := s.dev.cleanups - {n}))
    case StartQueue(transmit) =>
      if transmit then s.(dev := s.dev.(txStarted := true)) else s.(dev := s.dev.(rxStarted := true))
    case ReleaseQueues => s.(dev := s.dev.(txStarted := false, rxStarted := false))
    case CloseQueue(capture) =>
      if capture
      then s.(q := s.q.(captured := 0, captureOpen := false, captureGen := s.q.captureGen + 1))
      else s.(q := s.q.(injected := 0, injectionOpen := false, injectionGen := s.q.injectionGen + 1))
    case ReopenQueue(capture) =>
      if capture
      then s.(q := s.q.(captured := 0, captureOpen := true, captureGen := s.q.captureGen + 1))
      else s.(q := s.q.(injected := 0, injectionOpen := true, injectionGen := s.q.injectionGen + 1))
  }

  const START := State(
    Shared(Record(0, NO_BITS, Free), NULL, NoHandoff, NO_BITS, 0, 0),
    Queues(0, true, 0, 0, true, 0),
    Device(false, false, false, false, 0, false, {}),
    map[],
    map[],
    Audit(Undecided, false, false, [], Trail(NO_BITS, 0, false, 0, false)))

  ghost predicate Next(s: State, s': State) {
    exists a :: Enabled(s, a) && s' == Exec(s, a)
  }

  ghost predicate IsRun(run: seq<State>) {
    Runs.IsRun(run, START, Next)
  }

  lemma StepOfRun(run: seq<State>, i: nat)
    requires IsRun(run) && i < |run| - 1
    ensures Next(run[i], run[i + 1])
  {
    assert Runs.StepAt(run, i, Next);
  }
}
