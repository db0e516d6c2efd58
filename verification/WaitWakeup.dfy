/** No readiness change is lost, and no teardown leaves a wait behind. */
module WaitWakeup {
  import opened WaitRecord
  import opened WaitModel
  import opened WaitOwnership
  import Runs

  // ----- teardown -----

  /** A teardown path that has closed its gate (or retired the owner) and is not yet
      through its cancel loop. */
  predicate Tearing(pc: Pc) {
    match pc
    case Tear(CloseGate) => true
    case Tear(Drain) => true
    case Tear(LoadPhase(e)) => e == NULL
    case Tear(ReadSlot(e, _)) => e == NULL
    case Tear(LoadFrom(e, _)) => e == NULL
    case Tear(CasFrom(e, _, _)) => e == NULL
    case _ => false
  }

  ghost predicate TornDown(s: State) {
    exists t :: t in s.threads && Tearing(s.threads[t])
  }

  /** The registrar has passed its recheck up to the given point and is not published yet. */
  predicate PassedOpen(pc: Pc) {
    match pc
    case Register(_, _, at) => at.CheckAdaptive? || at.CheckTx? || at.CheckRx? || at.MarkCancelable?
    case Publish(_, _, at) => at.LoadRegistering? || at.CasPending?
    case _ => false
  }

  predicate PassedTx(pc: Pc) {
    match pc
    case Register(_, _, at) => at.CheckRx? || at.MarkCancelable?
    case Publish(_, _, at) => at.LoadRegistering? || at.CasPending?
    case _ => false
  }

  predicate PassedRx(pc: Pc) {
    match pc
    case Register(_, _, at) => at.MarkCancelable?
    case Publish(_, _, at) => at.LoadRegistering? || at.CasPending?
    case _ => false
  }

  predicate Closing(phase: Phase, dev: Device, pc: Pc) {
    && phase == Registering
    && (|| (PassedOpen(pc) && !dev.open)
        || (PassedTx(pc) && pc.want.readable && !dev.txStarted)
        || (PassedRx(pc) && pc.want.writable && !dev.rxStarted))
  }

  /** A wait is published, or about to be, although its gate has closed again. */
  predicate Exposed(s: State) {
    || (Claimable(s.rec.word.phase) &&
        (|| !s.dev.open
         || (s.rec.interest.readable && !s.dev.txStarted)
         || (s.rec.interest.writable && !s.dev.rxStarted)))
    || (Control in s.threads && Closing(s.rec.word.phase, s.dev, s.threads[Control]))
  }

  // ----- wakeups -----

  /** A published wait asks for something that holds. */
  predicate AsksRead(s: State) {
    s.rec.word.phase == Pending && s.rec.interest.readable && Readable(s.q)
  }

  predicate AsksWrite(s: State) {
    s.rec.word.phase == Pending && s.rec.interest.writable && Writable(s.q)
  }

  /** It asks, and no claim on that account has been refused. */
  predicate WantsRead(s: State) {
    AsksRead(s) && !s.audit.trail.missed.readable
  }

  predicate WantsWrite(s: State) {
    AsksWrite(s) && !s.audit.trail.missed.writable
  }

  /** The claim in flight will reach its compare-exchange, because the word it loaded
      does not already report the bit. */
  predicate ClaimReaches(at: ClaimAt, read: bool) {
    match at
    case CheckSlot(seen) => seen.phase == Pending || !Reports(seen, read)
    case CheckInterest(seen) => seen.phase == Pending || !Reports(seen, read)
    case EnqueueWork => false
    case _ => true
  }

  predicate Reports(word: Record, read: bool) {
    if read then word.satisfied.readable else word.satisfied.writable
  }

  /** The thread still owes the published wait a claim for readability. */
  predicate OwesRead(slot: Handle, pc: Pc) {
    || Tearing(pc)
    || match pc
       case Publish(_, _, at) =>
         || at.SnapCaptureGen? || at.SnapInjectionGen? || at.SnapCapture?
         || (at.SnapInjection? && at.readable)
         || ((at.CompareCapture? || at.CompareInjection?) && at.ready.readable)
       case Claim(cond, e, _, at) =>
         cond.readable && (e == NULL || e == slot) && ClaimReaches(at, true)
       case Packet(at) => at.CaptureBump? && at.wasEmpty
       case _ => false
  }

  /** The thread still owes the published wait a claim for writability, or is about
      to put the frame back that made room. */
  predicate OwesWrite(slot: Handle, q: Queues, pc: Pc) {
    || Tearing(pc)
    || match pc
       case Publish(_, _, at) =>
         || at.SnapCaptureGen? || at.SnapInjectionGen? || at.SnapCapture? || at.SnapInjection?
         || ((at.CompareCapture? || at.CompareInjection?) && at.ready.writable)
       case Claim(cond, e, _, at) =>
         cond.writable && (e == NULL || e == slot) && ClaimReaches(at, false)
       case Packet(at) =>
         && (at.RxBump? || at.RxPlace? || at.RxRequeueOpen? || at.RxRequeueGen? || at.RxRequeue?)
         && at.wasFull
         && (q.injectionOpen ==> q.injected + 1 >= FRAME_QUEUE_LIMIT)
       case _ => false
  }

  ghost predicate ReadOwed(s: State) {
    exists t :: t in s.threads && OwesRead(s.rec.slot, s.threads[t])
  }

  ghost predicate WriteOwed(s: State) {
    exists t :: t in s.threads && OwesWrite(s.rec.slot, s.q, s.threads[t])
  }

  // ----- the worker -----

  predicate Fetches(pc: Pc) {
    match pc
    case Work(at) => at.LoadScheduled? || at.CasUnmarking?
    case Claim(_, _, _, at) => at.EnqueueWork?
    case _ => false
  }

  ghost predicate FetchOwed(s: State) {
    s.dev.workQueued || exists t :: t in s.threads && Fetches(s.threads[t])
  }

  // ----- the owner a receive callback has seen -----

  predicate SawOwner(pc: Pc, gen: nat) {
    match pc
    case Packet(at) => !at.CaptureBump? && !at.RxOpen? && !at.RxGeneration? && at.gen == gen
    case Claim(_, _, back, _) => back == RxAgain(gen)
    case _ => false
  }

  predicate BeforeDrain(pc: Pc) {
    pc == Tear(CloseGate) || pc == Tear(Drain)
  }

  ghost predicate OwnerStable(s: State) {
    forall gen :: Rx in s.threads && SawOwner(s.threads[Rx], gen) && gen != s.dev.ownerGen ==>
      exists t :: t in s.threads && BeforeDrain(s.threads[t])
  }

  /** Facts about single threads and fields. */
  predicate Basics(s: State) {
    && s.q.injected <= FRAME_QUEUE_LIMIT
    && (forall t :: t in s.threads ==> Placed(s.rec, t, s.threads[t]))
  }

  /** Receive steps run on the receive thread, targeted claims on the control thread;
      and while the control thread rechecks its own wait, no other can be published. */
  predicate Placed(rec: Shared, t: Tid, pc: Pc) {
    match pc
    case Publish(h, want, at) => Claimable(rec.word.phase) ==> rec.slot == h && rec.interest == want
    case Claim(_, e, back, _) =>
      && (e != NULL ==> t == Control && (Claimable(rec.word.phase) ==> rec.slot == e))
      && (back.RxAgain? ==> t == Rx)
    case Packet(at) => at.CaptureBump? || t == Rx
    case _ => true
  }

  ghost predicate Awake(s: State) {
    && Basics(s)
    && (Exposed(s) ==> TornDown(s))
    && (WantsRead(s) ==> ReadOwed(s))
    && (WantsWrite(s) ==> WriteOwed(s))
    && (s.rec.word.phase == Scheduled ==> FetchOwed(s))
    && OwnerStable(s)
  }

  // ----- one step -----

  predicate Live(rec: Shared) {
    (rec.word.phase == Registering || Claimable(rec.word.phase)) && rec.slot != NULL
  }

  predicate RoomOwed(q: Queues) { q.injectionOpen ==> q.injected + 1 >= FRAME_QUEUE_LIMIT }

  predicate Has(s: State, t: Tid) { t in s.threads }

  predicate OthersStay(s: State, s': State, t: Tid) {
    s'.threads - {t} == s.threads - {t}
  }

  predicate GateStep(s: State, s': State, t: Tid) {
    && (Exposed(s') ==> Exposed(s) || (Has(s', t) && Tearing(s'.threads[t])))
    && (Has(s, t) && Tearing(s.threads[t]) && Live(s.rec) && Live(s'.rec) ==> Has(s', t) && Tearing(s'.threads[t]))
  }

  /** The thread's claim, which the published wait is owed, stands at a closed gate. */
  predicate RefusesRead(s: State, t: Tid) {
    && Has(s, t) && s.threads[t].Claim? && s.threads[t].claim.Gate? && !s.dev.adaptive
    && OwesRead(s.rec.slot, s.threads[t])
  }

  predicate RefusesWrite(s: State, t: Tid) {
    && Has(s, t) && s.threads[t].Claim? && s.threads[t].claim.Gate? && !s.dev.adaptive
    && OwesWrite(s.rec.slot, s.q, s.threads[t])
  }

  predicate ReadStep(s: State, s': State, t: Tid) {
    AsksRead(s') ==>
      if AsksRead(s)
      then && s'.rec.slot == s.rec.slot
           && (Has(s, t) && OwesRead(s.rec.slot, s.threads[t]) ==>
                 || (Has(s', t) && OwesRead(s'.rec.slot, s'.threads[t]))
                 || (RefusesRead(s, t) && s'.audit.trail.missed.readable))
      else Has(s', t) && OwesRead(s'.rec.slot, s'.threads[t])
  }

  /** A receive callback that drops its frame because the owner it saw is gone. */
  predicate SawRetiredOwner(s: State, t: Tid) {
    && t == Rx && Has(s, Rx)
    && s.threads[Rx].Packet? && s.threads[Rx].pk.RxRequeueGen? && s.threads[Rx].pk.gen != s.dev.ownerGen
  }

  predicate WriteStep(s: State, s': State, t: Tid) {
    AsksWrite(s') && !Exposed(s) && !SawRetiredOwner(s, t) ==>
      if AsksWrite(s)
      then && s'.rec.slot == s.rec.slot
           && (t == Rx || (RoomOwed(s.q) ==> RoomOwed(s'.q)))
           && (Has(s, t) && OwesWrite(s.rec.slot, s.q, s.threads[t]) ==>
                 || (Has(s', t) && OwesWrite(s'.rec.slot, s'.q, s'.threads[t]))
                 || (RefusesWrite(s, t) && s'.audit.trail.missed.writable))
      else Has(s', t) && OwesWrite(s'.rec.slot, s'.q, s'.threads[t])
  }

  /** What was refused to a published wait stays on record. */
  predicate MissStep(s: State, s': State) {
    s.rec.word.phase == Pending && s'.rec.word.phase == Pending ==> s.audit.trail.missed.Within(s'.audit.trail.missed)
  }

  predicate FetchStep(s: State, s': State, t: Tid) {
    s'.rec.word.phase == Scheduled ==>
      || s'.dev.workQueued
      || (Has(s', t) && Fetches(s'.threads[t]))
      || (s.rec.word.phase == Scheduled && !s.dev.workQueued && !(Has(s, t) && Fetches(s.threads[t])))
  }

  ghost predicate OwnerStep(s: State, s': State, t: Tid) {
    && (s'.dev.ownerGen != s.dev.ownerGen ==> Has(s', t) && BeforeDrain(s'.threads[t]))
    && (Has(s, t) && BeforeDrain(s.threads[t]) ==>
          (Has(s', t) && BeforeDrain(s'.threads[t])) || Rx !in s'.threads)
    && (t == Rx && Has(s', t) ==>
          forall gen :: SawOwner(s'.threads[t], gen) && gen != s'.dev.ownerGen ==> Has(s, t) && SawOwner(s.threads[t], gen))
  }

  predicate BasicStep(s: State, s': State, t: Tid) {
    && s'.q.injected <= FRAME_QUEUE_LIMIT
    && (Claimable(s'.rec.word.phase) && t != Control ==>
          Claimable(s.rec.word.phase) && s'.rec.slot == s.rec.slot && s'.rec.interest == s.rec.interest)
    && (Has(s', t) ==> Placed(s'.rec, t, s'.threads[t]))
  }

  /** The half of a step that concerns claims and the worker. */
  ghost predicate Wakes(s: State, s': State, t: Tid) {
    && OthersStay(s, s', t)
    && ReadStep(s, s', t)
    && WriteStep(s, s', t)
    && MissStep(s, s')
    && FetchStep(s, s', t)
  }

  /** The half of a step that concerns gates, owners and single threads. */
  ghost predicate Guards(s: State, s': State, t: Tid) {
    && GateStep(s, s', t)
    && OwnerStep(s, s', t)
    && BasicStep(s, s', t)
  }

  ghost predicate Progress(s: State, s': State, t: Tid) {
    Wakes(s, s', t) && Guards(s, s', t)
  }

  lemma Others(s: State, s': State, t: Tid, u: Tid)
    requires OthersStay(s, s', t) && u != t
    ensures u in s.threads <==> u in s'.threads
    ensures u in s.threads ==> s'.threads[u] == s.threads[u]
  {
    assert u in s.threads <==> u in s.threads - {t};
    assert u in s'.threads <==> u in s'.threads - {t};
    if u in s.threads {
      assert (s.threads - {t})[u] == s.threads[u];
      assert (s'.threads - {t})[u] == s'.threads[u];
    }
  }

  /** A wait whose gate has closed is live. */
  lemma ExposedIsLive(s: State)
    requires Inv(s) && Exposed(s)
    ensures Live(s.rec)
  {
    if Control in s.threads {
      assert ThreadOk(s, Control);
    }
  }

  lemma KeepsTornDown(s: State, s': State, t: Tid)
    requires Inv(s) && Inv(s') && TornDown(s) && Progress(s, s', t) && Live(s.rec) && Live(s'.rec)
    ensures TornDown(s')
  {
    var u :| u in s.threads && Tearing(s.threads[u]);
    if u != t { Others(s, s', t, u); }
    assert u in s'.threads && Tearing(s'.threads[u]);
  }

  lemma KeepsGate(s: State, s': State, t: Tid)
    requires Inv(s) && Inv(s') && Awake(s) && Progress(s, s', t) && Exposed(s')
    ensures TornDown(s')
  {
    ExposedIsLive(s');
    if Exposed(s) {
      ExposedIsLive(s);
      KeepsTornDown(s, s', t);
    }
  }

  lemma KeepsRead(s: State, s': State, t: Tid)
    requires Inv(s) && Awake(s) && Progress(s, s', t) && WantsRead(s')
    ensures ReadOwed(s')
  {
    if WantsRead(s) {
      var u :| u in s.threads && OwesRead(s.rec.slot, s.threads[u]);
      if u != t { Others(s, s', t, u); }
      assert u in s'.threads && OwesRead(s'.rec.slot, s'.threads[u]);
    }
  }

  lemma ExposedKeepsWriter(s: State, s': State, t: Tid)
    requires Inv(s) && Inv(s') && Awake(s) && Progress(s, s', t) && AsksWrite(s') && Exposed(s)
    ensures WriteOwed(s')
  {
    ExposedIsLive(s);
    KeepsTornDown(s, s', t);
    var u :| u in s'.threads && Tearing(s'.threads[u]);
    assert OwesWrite(s'.rec.slot, s'.q, s'.threads[u]);
  }

  /** When the gate has closed, or the receive callback's owner is gone, a teardown in
      flight makes up for whatever claim is dropped. */
  lemma GateKeepsWriter(s: State, s': State, t: Tid)
    requires Inv(s) && Inv(s') && Awake(s) && Progress(s, s', t) && AsksWrite(s')
    requires Exposed(s) || SawRetiredOwner(s, t)
    ensures WriteOwed(s')
  {
    if Exposed(s) {
      ExposedKeepsWriter(s, s', t);
    } else {
      assert SawOwner(s.threads[Rx], s.threads[Rx].pk.gen);
      var u :| u in s.threads && BeforeDrain(s.threads[u]);
      Others(s, s', t, u);
      assert OwesWrite(s'.rec.slot, s'.q, s'.threads[u]);
    }
  }

  lemma KeepsWrite(s: State, s': State, t: Tid)
    requires Inv(s) && Inv(s') && Awake(s) && Progress(s, s', t) && WantsWrite(s')
    ensures WriteOwed(s')
  {
    if Exposed(s) || SawRetiredOwner(s, t) {
      GateKeepsWriter(s, s', t);
    } else if AsksWrite(s) {
      var u :| u in s.threads && OwesWrite(s.rec.slot, s.q, s.threads[u]);
      KeepsWriter(s, s', t, u);
    }
  }

  lemma KeepsWriter(s: State, s': State, t: Tid, u: Tid)
    requires Basics(s) && OthersStay(s, s', t) && WriteStep(s, s', t)
    requires AsksWrite(s) && AsksWrite(s') && !Exposed(s) && !SawRetiredOwner(s, t)
    requires u in s.threads && OwesWrite(s.rec.slot, s.q, s.threads[u])
    ensures || (u in s'.threads && OwesWrite(s'.rec.slot, s'.q, s'.threads[u]))
            || (u == t && RefusesWrite(s, t) && s'.audit.trail.missed.writable)
  {
    if u != t {
      Others(s, s', t, u);
      assert Placed(s.rec, u, s.threads[u]);
    }
  }

  lemma KeepsFetch(s: State, s': State, t: Tid)
    requires Awake(s) && Progress(s, s', t) && s'.rec.word.phase == Scheduled
    ensures FetchOwed(s')
  {
    if !s'.dev.workQueued && !(Has(s', t) && Fetches(s'.threads[t])) {
      var u :| u in s.threads && Fetches(s.threads[u]);
      Others(s, s', t, u);
      assert u in s'.threads && Fetches(s'.threads[u]);
    }
  }

  lemma KeepsOwner(s: State, s': State, t: Tid, gen: nat)
    requires Awake(s) && Progress(s, s', t)
    requires Rx in s'.threads && SawOwner(s'.threads[Rx], gen) && gen != s'.dev.ownerGen
    ensures exists u :: u in s'.threads && BeforeDrain(s'.threads[u])
  {
    if s'.dev.ownerGen == s.dev.ownerGen {
      if t != Rx { Others(s, s', t, Rx); }
      assert SawOwner(s.threads[Rx], gen);
      var u :| u in s.threads && BeforeDrain(s.threads[u]);
      if u != t { Others(s, s', t, u); }
      assert u in s'.threads && BeforeDrain(s'.threads[u]);
    }
  }

  lemma KeepsBasics(s: State, s': State, t: Tid)
    requires Inv(s) && Awake(s) && Progress(s, s', t)
    ensures Basics(s')
  {
    forall u | u in s'.threads ensures Placed(s'.rec, u, s'.threads[u]) {
      if u != t {
        Others(s, s', t, u);
        assert ThreadOk(s, u) && Placed(s.rec, u, s.threads[u]);
      }
    }
  }

  lemma KeepsAwake(s: State, s': State, t: Tid)
    requires Inv(s) && Inv(s') && Awake(s) && Progress(s, s', t)
    ensures Awake(s')
  {
    KeepsBasics(s, s', t);
    if Exposed(s') { KeepsGate(s, s', t); }
    if WantsRead(s') { KeepsRead(s, s', t); }
    if WantsWrite(s') { KeepsWrite(s, s', t); }
    if s'.rec.word.phase == Scheduled { KeepsFetch(s, s', t); }
    forall gen | Rx in s'.threads && SawOwner(s'.threads[Rx], gen) && gen != s'.dev.ownerGen
      ensures exists u :: u in s'.threads && BeforeDrain(s'.threads[u]) {
      KeepsOwner(s, s', t, gen);
    }
  }

  // ----- every step makes progress -----

  /** What the stepping thread knows. */
  predicate Alert(s: State, t: Tid) {
    && Knows(s, t)
    && Placed(s.rec, t, s.threads[t])
    && s.q.injected <= FRAME_QUEUE_LIMIT
  }

  predicate Scans(at: TeardownAt) {
    at.LoadPhase? || at.ReadSlot? || at.LoadFrom? || at.CasFrom? || at.RereadSlot?
  }

  predicate Requeues(at: PacketAt) {
    at.RxPlace? || at.RxRequeueOpen? || at.RxRequeueGen? || at.RxRequeue? || at.RxRequeueBump?
  }

  lemma RegisterWakes(s: State, t: Tid, h: Handle, want: Mask, at: RegisterAt, ok: bool)
    requires Alert(s, t) && s.threads[t] == Register(h, want, at)
    ensures Wakes(s, RegisterStep(s, t, h, want, at, ok), t)
  {}

  lemma PublishWakes(s: State, t: Tid, h: Handle, want: Mask, at: PublishAt, ok: bool)
    requires Alert(s, t) && s.threads[t] == Publish(h, want, at)
    ensures Wakes(s, PublishStep(s, t, h, want, at, ok), t)
  {}

  lemma ClaimLooksWakes(s: State, t: Tid, cond: Mask, expected: Handle, back: Resume, at: ClaimAt, ok: bool)
    requires Alert(s, t) && s.threads[t] == Claim(cond, expected, back, at)
    requires at.Gate? || at.LoadWord? || at.CheckSlot?
    ensures Wakes(s, ClaimStep(s, t, cond, expected, back, at, ok), t)
  {}

  lemma ClaimDecidesWakes(s: State, t: Tid, cond: Mask, expected: Handle, back: Resume, at: ClaimAt, ok: bool)
    requires Alert(s, t) && s.threads[t] == Claim(cond, expected, back, at) && at.CheckInterest?
    ensures Wakes(s, ClaimStep(s, t, cond, expected, back, at, ok), t)
  {}

  lemma ClaimActsWakes(s: State, t: Tid, cond: Mask, expected: Handle, back: Resume, at: ClaimAt, ok: bool)
    requires Alert(s, t) && s.threads[t] == Claim(cond, expected, back, at)
    requires at.CasScheduled? || at.EnqueueWork?
    ensures Wakes(s, ClaimStep(s, t, cond, expected, back, at, ok), t)
  {}

  lemma ClaimWakes(s: State, t: Tid, cond: Mask, expected: Handle, back: Resume, at: ClaimAt, ok: bool)
    requires Alert(s, t) && s.threads[t] == Claim(cond, expected, back, at)
    ensures Wakes(s, ClaimStep(s, t, cond, expected, back, at, ok), t)
  {
    if at.Gate? || at.LoadWord? || at.CheckSlot? {
      ClaimLooksWakes(s, t, cond, expected, back, at, ok);
    } else if at.CheckInterest? {
      ClaimDecidesWakes(s, t, cond, expected, back, at, ok);
    } else {
      ClaimActsWakes(s, t, cond, expected, back, at, ok);
    }
  }

  lemma FinishWakes(s: State, t: Tid, after: After, at: FinishAt)
    requires Alert(s, t) && s.threads[t] == Finish(after, at)
    ensures Wakes(s, FinishStep(s, t, after, at), t)
  {}

  lemma CompleteWakes(s: State, t: Tid, h: Handle, outcome: Outcome, ok: bool)
    requires Alert(s, t) && s.threads[t] == Complete(h, outcome)
    ensures Wakes(s, CompleteStep(s, t, h, outcome, ok), t)
  {}

  lemma UnmarkWakes(s: State, t: Tid, h: Handle, at: UnmarkAt, ok: bool)
    requires Alert(s, t) && s.threads[t] == Unmark(h, at)
    ensures Wakes(s, UnmarkStep(s, t, h, at, ok), t)
  {}

  lemma TeardownGateWakes(s: State, t: Tid, at: TeardownAt, ok: bool)
    requires Alert(s, t) && s.threads[t] == Tear(at) && !Scans(at)
    ensures Wakes(s, TeardownStep(s, t, at, ok), t)
  {}

  lemma TeardownScanWakes(s: State, t: Tid, at: TeardownAt, ok: bool)
    requires Alert(s, t) && s.threads[t] == Tear(at) && Scans(at) && !at.CasFrom?
    ensures Wakes(s, TeardownStep(s, t, at, ok), t)
  {}

  lemma TeardownTakesWakes(s: State, t: Tid, at: TeardownAt, ok: bool)
    requires Alert(s, t) && s.threads[t] == Tear(at) && at.CasFrom?
    ensures Wakes(s, TeardownStep(s, t, at, ok), t)
  {}

  lemma TeardownWakes(s: State, t: Tid, at: TeardownAt, ok: bool)
    requires Alert(s, t) && s.threads[t] == Tear(at)
    ensures Wakes(s, TeardownStep(s, t, at, ok), t)
  {
    if at.CasFrom? {
      TeardownTakesWakes(s, t, at, ok);
    } else if Scans(at) {
      TeardownScanWakes(s, t, at, ok);
    } else {
      TeardownGateWakes(s, t, at, ok);
    }
  }

  lemma WorkerWakes(s: State, t: Tid, at: WorkAt, ok: bool)
    requires Alert(s, t) && s.threads[t] == Work(at)
    ensures Wakes(s, WorkerStep(s, t, at, ok), t)
  {}

  lemma CancelWakes(s: State, t: Tid, h: Handle, at: CancelAt, ok: bool)
    requires Alert(s, t) && s.threads[t] == Cancelling(h, at)
    ensures Wakes(s, CancelStep(s, t, h, at, ok), t)
  {}

  lemma PacketTakesWakes(s: State, t: Tid, at: PacketAt, ok: bool)
    requires Alert(s, t) && s.threads[t] == Packet(at) && !Requeues(at)
    ensures Wakes(s, PacketStep(s, t, at, ok), t)
  {}

  lemma PacketPlacesWakes(s: State, t: Tid, at: PacketAt, ok: bool)
    requires Alert(s, t) && s.threads[t] == Packet(at) && Requeues(at)
    ensures Wakes(s, PacketStep(s, t, at, ok), t)
  {}

  lemma PacketWakes(s: State, t: Tid, at: PacketAt, ok: bool)
    requires Alert(s, t) && s.threads[t] == Packet(at)
    ensures Wakes(s, PacketStep(s, t, at, ok), t)
  {
    if Requeues(at) {
      PacketPlacesWakes(s, t, at, ok);
    } else {
      PacketTakesWakes(s, t, at, ok);
    }
  }

  lemma ThreadWakes(s: State, t: Tid, ok: bool)
    requires Alert(s, t)
    ensures Wakes(s, ThreadStep(s, t, ok), t)
  {
    match s.threads[t]
    case Register(h, want, at) => RegisterWakes(s, t, h, want, at, ok);
    case Publish(h, want, at) => PublishWakes(s, t, h, want, at, ok);
    case Claim(cond, expected, back, at) => ClaimWakes(s, t, cond, expected, back, at, ok);
    case Finish(after, at) => FinishWakes(s, t, after, at);
    case Complete(h, outcome) => CompleteWakes(s, t, h, outcome, ok);
    case Unmark(h, at) => UnmarkWakes(s, t, h, at, ok);
    case Tear(at) => TeardownWakes(s, t, at, ok);
    case Work(at) => WorkerWakes(s, t, at, ok);
    case Cancelling(h, at) => CancelWakes(s, t, h, at, ok);
    case Packet(at) => PacketWakes(s, t, at, ok);
  }

  lemma RegisterGuards(s: State, t: Tid, h: Handle, want: Mask, at: RegisterAt, ok: bool)
    requires Alert(s, t) && s.threads[t] == Register(h, want, at)
    ensures Guards(s, RegisterStep(s, t, h, want, at, ok), t)
  {}

  lemma PublishGuards(s: State, t: Tid, h: Handle, want: Mask, at: PublishAt, ok: bool)
    requires Alert(s, t) && s.threads[t] == Publish(h, want, at)
    ensures Guards(s, PublishStep(s, t, h, want, at, ok), t)
  {}

  lemma ClaimLooksGuards(s: State, t: Tid, cond: Mask, expected: Handle, back: Resume, at: ClaimAt, ok: bool)
    requires Alert(s, t) && s.threads[t] == Claim(cond, expected, back, at)
    requires at.Gate? || at.LoadWord? || at.CheckSlot?
    ensures Guards(s, ClaimStep(s, t, cond, expected, back, at, ok), t)
  {}

  lemma ClaimDecidesGuards(s: State, t: Tid, cond: Mask, expected: Handle, back: Resume, at: ClaimAt, ok: bool)
    requires Alert(s, t) && s.threads[t] == Claim(cond, expected, back, at) && at.CheckInterest?
    ensures Guards(s, ClaimStep(s, t, cond, expected, back, at, ok), t)
  {}

  lemma ClaimActsGuards(s: State, t: Tid, cond: Mask, expected: Handle, back: Resume, at: ClaimAt, ok: bool)
    requires Alert(s, t) && s.threads[t] == Claim(cond, expected, back, at)
    requires at.CasScheduled? || at.EnqueueWork?
    ensures Guards(s, ClaimStep(s, t, cond, expected, back, at, ok), t)
  {}

  lemma ClaimGuards(s: State, t: Tid, cond: Mask, expected: Handle, back: Resume, at: ClaimAt, ok: bool)
    requires Alert(s, t) && s.threads[t] == Claim(cond, expected, back, at)
    ensures Guards(s, ClaimStep(s, t, cond, expected, back, at, ok), t)
  {
    if at.Gate? || at.LoadWord? || at.CheckSlot? {
      ClaimLooksGuards(s, t, cond, expected, back, at, ok);
    } else if at.CheckInterest? {
      ClaimDecidesGuards(s, t, cond, expected, back, at, ok);
    } else {
      ClaimActsGuards(s, t, cond, expected, back, at, ok);
    }
  }

  lemma FinishGuards(s: State, t: Tid, after: After, at: FinishAt)
    requires Alert(s, t) && s.threads[t] == Finish(after, at)
    ensures Guards(s, FinishStep(s, t, after, at), t)
  {}

  lemma CompleteGuards(s: State, t: Tid, h: Handle, outcome: Outcome, ok: bool)
    requires Alert(s, t) && s.threads[t] == Complete(h, outcome)
    ensures Guards(s, CompleteStep(s, t, h, outcome, ok), t)
  {}

  lemma UnmarkGuards(s: State, t: Tid, h: Handle, at: UnmarkAt, ok: bool)
    requires Alert(s, t) && s.threads[t] == Unmark(h, at)
    ensures Guards(s, UnmarkStep(s, t, h, at, ok), t)
  {}

  lemma TeardownGateGuards(s: State, t: Tid, at: TeardownAt, ok: bool)
    requires Alert(s, t) && s.threads[t] == Tear(at) && !Scans(at)
    ensures Guards(s, TeardownStep(s, t, at, ok), t)
  {}

  lemma TeardownScanGuards(s: State, t: Tid, at: TeardownAt, ok: bool)
    requires Alert(s, t) && s.threads[t] == Tear(at) && Scans(at) && !at.CasFrom?
    ensures Guards(s, TeardownStep(s, t, at, ok), t)
  {}

  lemma TeardownTakesGuards(s: State, t: Tid, at: TeardownAt, ok: bool)
    requires Alert(s, t) && s.threads[t] == Tear(at) && at.CasFrom?
    ensures Guards(s, TeardownStep(s, t, at, ok), t)
  {}

  lemma TeardownGuards(s: State, t: Tid, at: TeardownAt, ok: bool)
    requires Alert(s, t) && s.threads[t] == Tear(at)
    ensures Guards(s, TeardownStep(s, t, at, ok), t)
  {
    if at.CasFrom? {
      TeardownTakesGuards(s, t, at, ok);
    } else if Scans(at) {
      TeardownScanGuards(s, t, at, ok);
    } else {
      TeardownGateGuards(s, t, at, ok);
    }
  }

  lemma WorkerGuards(s: State, t: Tid, at: WorkAt, ok: bool)
    requires Alert(s, t) && s.threads[t] == Work(at)
    ensures Guards(s, WorkerStep(s, t, at, ok), t)
  {}

  lemma CancelGuards(s: State, t: Tid, h: Handle, at: CancelAt, ok: bool)
    requires Alert(s, t) && s.threads[t] == Cancelling(h, at)
    ensures Guards(s, CancelStep(s, t, h, at, ok), t)
  {}

  lemma PacketTakesGuards(s: State, t: Tid, at: PacketAt, ok: bool)
    requires Alert(s, t) && s.threads[t] == Packet(at) && !Requeues(at)
    ensures Guards(s, PacketStep(s, t, at, ok), t)
  {}

  lemma PacketPlacesGuards(s: State, t: Tid, at: PacketAt, ok: bool)
    requires Alert(s, t) && s.threads[t] == Packet(at) && Requeues(at)
    ensures Guards(s, PacketStep(s, t, at, ok), t)
  {}

  lemma PacketGuards(s: State, t: Tid, at: PacketAt, ok: bool)
    requires Alert(s, t) && s.threads[t] == Packet(at)
    ensures Guards(s, PacketStep(s, t, at, ok), t)
  {
    if Requeues(at) {
      PacketPlacesGuards(s, t, at, ok);
    } else {
      PacketTakesGuards(s, t, at, ok);
    }
  }

  lemma ThreadGuards(s: State, t: Tid, ok: bool)
    requires Alert(s, t)
    ensures Guards(s, ThreadStep(s, t, ok), t)
  {
    match s.threads[t]
    case Register(h, want, at) => RegisterGuards(s, t, h, want, at, ok);
    case Publish(h, want, at) => PublishGuards(s, t, h, want, at, ok);
    case Claim(cond, expected, back, at) => ClaimGuards(s, t, cond, expected, back, at, ok);
    case Finish(after, at) => FinishGuards(s, t, after, at);
    case Complete(h, outcome) => CompleteGuards(s, t, h, outcome, ok);
    case Unmark(h, at) => UnmarkGuards(s, t, h, at, ok);
    case Tear(at) => TeardownGuards(s, t, at, ok);
    case Work(at) => WorkerGuards(s, t, at, ok);
    case Cancelling(h, at) => CancelGuards(s, t, h, at, ok);
    case Packet(at) => PacketGuards(s, t, at, ok);
  }

  lemma ThreadProgress(s: State, t: Tid, ok: bool)
    requires Alert(s, t)
    ensures Progress(s, ThreadStep(s, t, ok), t)
  {
    ThreadWakes(s, t, ok);
    ThreadGuards(s, t, ok);
  }

  /** The thread an environment action starts, or one it leaves alone. */
  function Actor(a: Action): Tid {
    match a
    case Step(t, _) => t
    case DispatchCancel(h) => Cancel(h)
    case StartWorker(n) => Worker(n)
    case LoopWorker(n) => Worker(n)
    case StartProducer(n) => Producer(n)
    case StartReceive => Rx
    case StartTeardown(n, _) => Closer(n)
    case _ => Control
  }

  lemma DispatchProgress(s: State, a: Action)
    requires Basics(s) && Enabled(s, a) && (a.DispatchWait? || a.DispatchStop? || a.DispatchCancel?)
    requires a.DispatchCancel? ==> Cancel(a.h) !in s.threads
    ensures Progress(s, Exec(s, a), Actor(a))
  {}

  lemma StartProgress(s: State, a: Action)
    requires Basics(s) && Enabled(s, a)
    requires a.StartWorker? || a.LoopWorker? || a.StartProducer? || a.StartReceive? || a.StartTeardown?
    ensures Progress(s, Exec(s, a), Actor(a))
  {}

  lemma DeviceProgress(s: State, a: Action)
    requires Basics(s) && Enabled(s, a)
    requires a.OpenLifecycle? || a.EnableAdaptive? || a.DisableAdaptive? || a.StartQueue? || a.ReleaseQueues?
    ensures Progress(s, Exec(s, a), Actor(a))
  {}

  lemma QueueProgress(s: State, a: Action)
    requires Basics(s) && Enabled(s, a)
    requires a.ReadCaptured? || a.WriteInjected? || a.CloseQueue? || a.ReopenQueue?
    ensures Progress(s, Exec(s, a), Actor(a))
  {}

  lemma ActionProgress(s: State, a: Action)
    requires Inv(s) && Basics(s) && Enabled(s, a)
    ensures Progress(s, Exec(s, a), Actor(a))
  {
    if a.Step? {
      InvKnows(s, a.t);
      ThreadProgress(s, a.t, a.ok);
    } else if a.DispatchWait? || a.DispatchStop? || a.DispatchCancel? {
      if a.DispatchCancel? {
        assert RequestOk(s.rec, s.threads, a.h, s.requests[a.h]);
      }
      DispatchProgress(s, a);
    } else if a.StartWorker? || a.LoopWorker? || a.StartProducer? || a.StartReceive? || a.StartTeardown? {
      StartProgress(s, a);
    } else if a.OpenLifecycle? || a.EnableAdaptive? || a.DisableAdaptive? || a.StartQueue? || a.ReleaseQueues? {
      DeviceProgress(s, a);
    } else {
      QueueProgress(s, a);
    }
  }

  lemma StartAwake()
    ensures Awake(START)
  {}

  ghost predicate Good(s: State) { Inv(s) && Awake(s) }

  lemma NextKeepsGood(s: State, s': State)
    requires Good(s) && Next(s, s')
    ensures Good(s')
  {
    NextKeepsInv(s, s');
    var a :| Enabled(s, a) && s' == Exec(s, a);
    ActionProgress(s, a);
    KeepsAwake(s, s', Actor(a));
  }

  lemma RunStaysAwake(run: seq<State>, i: nat)
    requires IsRun(run) && i < |run|
    ensures Awake(run[i])
  {
    StartInv();
    StartAwake();
    forall s, s' | Good(s) && Next(s, s') ensures Good(s') {
      NextKeepsGood(s, s');
    }
    Runs.Induction(run, i, START, Next, s => Good(s));
  }

  // ----- what it gives -----

  /** No lost wakeup: while a wait is published and a condition it asked for holds, some
      thread in flight still owes it a claim, a requeue that undoes the condition, or a
      teardown; or a claim for that very condition was refused because adaptive mode was
      off. */
  lemma NoLostWakeup(run: seq<State>, i: nat)
    requires IsRun(run) && i < |run|
    ensures AsksRead(run[i]) ==> ReadOwed(run[i]) || run[i].audit.trail.missed.readable
    ensures AsksWrite(run[i]) ==> WriteOwed(run[i]) || run[i].audit.trail.missed.writable
  {
    RunStaysAwake(run, i);
  }

  /** With nothing in flight, everything a published wait asked for that already holds was
      refused at the claim's gate, and a scheduled wait has its worker queued. */
  lemma QuietWaitIsNotReady(run: seq<State>, i: nat)
    requires IsRun(run) && i < |run| && run[i].threads == map[]
    ensures var s := run[i];
            && (AsksRead(s) ==> s.audit.trail.missed.readable)
            && (AsksWrite(s) ==> s.audit.trail.missed.writable)
            && (s.rec.word.phase == Scheduled ==> s.dev.workQueued)
  {
    RunStaysAwake(run, i);
  }

  /** A teardown that is through leaves no wait behind: if no teardown path is in flight,
      a published wait has its lifecycle open and every direction it asked for running. */
  lemma TeardownLeavesNoWait(run: seq<State>, i: nat)
    requires IsRun(run) && i < |run|
    requires forall t :: t in run[i].threads ==> !Tearing(run[i].threads[t])
    requires Claimable(run[i].rec.word.phase)
    ensures var s := run[i];
            && s.dev.open
            && (s.rec.interest.readable ==> s.dev.txStarted)
            && (s.rec.interest.writable ==> s.dev.rxStarted)
  {
    RunStaysAwake(run, i);
  }
}
