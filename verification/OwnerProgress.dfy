/** Owner hand-over finishes: a cleanup that nobody else disturbs runs to its end by its
    own steps, and what it leaves behind is what the next owner finds. */
module OwnerProgress {
  import opened LeaseWord
  import opened OwnerModel
  import opened Wrappers

  /** The state after `k` steps of one cleanup, which may end before. */
  function Alone(s: State, n: nat, k: nat): State
    decreases k
  {
    if k == 0 || n !in s.cleanups then s else Alone(CleanupStep(s, n), n, k - 1)
  }

  /** A cleanup about to start that waits for nobody: nothing is leased and the locks are free. */
  predicate Unhindered(s: State, n: nat) {
    && n in s.cleanups && s.cleanups[n] == Retire
    && s.lanes.rx.word.count == 0 && s.lanes.tx.word.count == 0
    && s.locks == Locks(Unlocked, Unlocked)
  }

  /** The cleanup reopens what it closed exactly when the device was in service. */
  predicate InService(life: Life) { life.lifecycle == Open && life.adapter }

  /** The lane for the next owner: no frame of the last one, and only the owner's closer gone. */
  function NextLane(lane: Lane, open: bool): Lane {
    lane.(word := lane.word.(owner := false), open := open, frames := [])
  }

  /** What the hand-over leaves. The owner generation has moved on, adaptive mode is off and
      the control device may be opened again. */
  function HandedOver(s: State, n: nat): State {
    var open := InService(s.life);
    var lifecycle := if s.life.lifecycle == Open && !open then OwnerClosing else s.life.lifecycle;
    s.(lanes := Lanes(NextLane(s.lanes.rx, open), NextLane(s.lanes.tx, open)),
       life := s.life.(gen := s.life.gen + 1, adaptive := false, control := false, lifecycle := lifecycle),
       cleanups := s.cleanups - {n})
  }

  // ----- the way there: the state at each point of an undisturbed cleanup -----

  function Halted(lane: Lane): Lane { lane.(word := lane.word.(owner := true)) }

  function Emptied(lane: Lane, open: bool): Lane {
    lane.(word := lane.word.(owner := true), open := open, frames := [])
  }

  function RxAt(lane: Lane, pc: CleanupPc): Lane {
    match pc
    case Shutting(_, at) =>
      if at == CloseRx then lane else if at == ClearTx || at == Cleared then Emptied(lane, false) else Halted(lane)
    case Disarm(_) => Emptied(lane, false)
    case Readmit(_) => Emptied(lane, false)
    case CuReopenRx => Emptied(lane, false)
    case CuReopenTx => Emptied(lane, true)
    case Confirm => Emptied(lane, true)
    case Tail(early, at) =>
      if at == TailResumeRx || (!early && at != TailResumeTx) then Emptied(lane, early) else NextLane(lane, early)
    case _ => lane
  }

  function TxAt(lane: Lane, pc: CleanupPc): Lane {
    match pc
    case Shutting(_, at) =>
      if at == CloseRx || at == CloseTx then lane else if at == Cleared then Emptied(lane, false) else Halted(lane)
    case Disarm(_) => Emptied(lane, false)
    case Readmit(_) => Emptied(lane, false)
    case CuReopenRx => Emptied(lane, false)
    case CuReopenTx => Emptied(lane, false)
    case Confirm => Emptied(lane, true)
    case Tail(early, at) =>
      if at == TailResumeRx || at == TailResumeTx || !early then Emptied(lane, early) else NextLane(lane, early)
    case _ => lane
  }

  function LifeAt(life: Life, pc: CleanupPc): Life {
    var retired := life.(gen := life.gen + 1);
    var claimed := if life.lifecycle == Open then retired.(lifecycle := OwnerClosing) else retired;
    match pc
    case Retire => life
    case ClaimOwner => retired
    case Shutting(_, _) => claimed
    case Disarm(_) => claimed
    case Readmit(_) => claimed.(adaptive := false)
    case Tail(early, _) =>
      claimed.(adaptive := false, control := false, lifecycle := if early then Open else claimed.lifecycle)
    case _ => claimed.(adaptive := false, control := false)
  }

  function LocksAt(n: nat, pc: CleanupPc): Locks {
    var me := ByCleanup(n);
    match pc
    case Retire => Locks(Unlocked, Unlocked)
    case ClaimOwner => Locks(Unlocked, Unlocked)
    case Shutting(_, at) =>
      if at == LockWrite then Locks(me, Unlocked)
      else if at == CancelWait || at == ClearRx || at == ClearTx || at == Cleared then Locks(me, me)
      else Locks(Unlocked, Unlocked)
    case Tail(early, at) =>
      if at == TailUnlockDirect then Locks(me, Unlocked)
      else if early || at == TailUnlockWrite then Locks(me, me)
      else Locks(Unlocked, Unlocked)
    case _ => Locks(me, me)
  }

  function At(s: State, n: nat, pc: CleanupPc): State {
    s.(lanes := Lanes(RxAt(s.lanes.rx, pc), TxAt(s.lanes.tx, pc)), life := LifeAt(s.life, pc),
       locks := LocksAt(n, pc), cleanups := s.cleanups[n := pc])
  }

  /** The points an undisturbed cleanup passes, by whether the device is in service. */
  predicate OnWay(life: Life, pc: CleanupPc) {
    match pc
    case Shutting(owns, _) => owns == (life.lifecycle == Open)
    case Disarm(resume) => resume == InService(life)
    case Readmit(resume) => resume == InService(life)
    case CuReopenRx => InService(life)
    case CuReopenTx => InService(life)
    case Confirm => InService(life)
    case Tail(early, _) => early == InService(life)
    case _ => true
  }

  function ShutLeft(at: ShutAt): nat {
    match at
    case CloseRx => 9
    case CloseTx => 8
    case DrainRx => 7
    case DrainTx => 6
    case LockDirect => 5
    case LockWrite => 4
    case CancelWait => 3
    case ClearRx => 2
    case ClearTx => 1
    case Cleared => 0
  }

  /** A bound on the steps still to take. */
  function Left(pc: CleanupPc): nat {
    match pc
    case Retire => 21
    case ClaimOwner => 20
    case Shutting(_, at) => 10 + ShutLeft(at)
    case Disarm(_) => 9
    case Readmit(_) => 8
    case CuReopenRx => 7
    case CuReopenTx => 6
    case Confirm => 5
    case Tail(early, at) =>
      (match at
       case TailResumeRx => if early then 4 else 2
       case TailResumeTx => if early then 3 else 1
       case TailUnlockWrite => if early then 2 else 4
       case TailUnlockDirect => if early then 1 else 3)
  }

  /** It waits for nobody and moves along the way. */
  lemma Advances(s: State, n: nat, pc: CleanupPc)
    requires Unhindered(s, n) && OnWay(s.life, pc)
    ensures match CleanupNext(At(s, n, pc), pc)
            case Some(next) => OnWay(s.life, next) && Left(next) < Left(pc)
            case None => pc == Tail(InService(s.life), if InService(s.life) then TailUnlockDirect else TailResumeTx)
  {}

  lemma RxShuts(lane: Lane, lanes: Lanes, at: ShutAt, next: ShutAt)
    requires lanes.rx == RxAt(lane, Shutting(true, at)) && ShutLeft(at) == ShutLeft(next) + 1
    ensures ShutLanes(lanes, Owner, at).rx == RxAt(lane, Shutting(true, next))
  {}

  lemma RxAdvances(s: State, n: nat, pc: CleanupPc)
    requires Unhindered(s, n) && OnWay(s.life, pc)
    ensures var t := At(s, n, pc);
            CleanupLanes(t.lanes, pc).rx ==
              match CleanupNext(t, pc)
              case Some(next) => RxAt(s.lanes.rx, next)
              case None => NextLane(s.lanes.rx, InService(s.life))
  {
    if pc.Shutting? && pc.shut != Cleared {
      var t := At(s, n, pc);
      RxShuts(s.lanes.rx, t.lanes, pc.shut, ShutNext(t, pc.shut));
    }
  }

  lemma TxShuts(lane: Lane, lanes: Lanes, at: ShutAt, next: ShutAt)
    requires lanes.tx == TxAt(lane, Shutting(true, at)) && ShutLeft(at) == ShutLeft(next) + 1
    ensures ShutLanes(lanes, Owner, at).tx == TxAt(lane, Shutting(true, next))
  {}

  lemma TxAdvances(s: State, n: nat, pc: CleanupPc)
    requires Unhindered(s, n) && OnWay(s.life, pc)
    ensures var t := At(s, n, pc);
            CleanupLanes(t.lanes, pc).tx ==
              match CleanupNext(t, pc)
              case Some(next) => TxAt(s.lanes.tx, next)
              case None => NextLane(s.lanes.tx, InService(s.life))
  {
    if pc.Shutting? && pc.shut != Cleared {
      var t := At(s, n, pc);
      TxShuts(s.lanes.tx, t.lanes, pc.shut, ShutNext(t, pc.shut));
    }
  }

  lemma LifeAdvances(s: State, n: nat, pc: CleanupPc)
    requires Unhindered(s, n) && OnWay(s.life, pc)
    ensures var t := At(s, n, pc);
            CleanupLife(t.life, pc) ==
              match CleanupNext(t, pc)
              case Some(next) => LifeAt(s.life, next)
              case None => HandedOver(s, n).life
  {}

  lemma LocksAdvance(s: State, n: nat, pc: CleanupPc)
    requires Unhindered(s, n) && OnWay(s.life, pc)
    ensures var t := At(s, n, pc);
            CleanupLocks(t.locks, n, pc) ==
              match CleanupNext(t, pc)
              case Some(next) => LocksAt(n, next)
              case None => HandedOver(s, n).locks
  {}

  lemma StepAdvances(s: State, n: nat, pc: CleanupPc)
    requires Unhindered(s, n) && OnWay(s.life, pc)
    ensures var t := At(s, n, pc);
            CleanupStep(t, n) ==
              match CleanupNext(t, pc)
              case Some(next) => At(s, n, next)
              case None => HandedOver(s, n)
  {
    RxAdvances(s, n, pc);
    TxAdvances(s, n, pc);
    LifeAdvances(s, n, pc);
    LocksAdvance(s, n, pc);
    var t := At(s, n, pc);
    match CleanupNext(t, pc)
    case Some(next) =>
      assert t.cleanups[n := next] == s.cleanups[n := next];
    case None =>
      assert t.cleanups - {n} == s.cleanups - {n};
  }

  lemma {:induction false} Arrives(s: State, n: nat, pc: CleanupPc, k: nat)
    requires Unhindered(s, n) && OnWay(s.life, pc) && Left(pc) <= k
    ensures Alone(At(s, n, pc), n, k) == HandedOver(s, n)
    decreases k
  {
    Advances(s, n, pc);
    StepAdvances(s, n, pc);
    var t := At(s, n, pc);
    match CleanupNext(t, pc)
    case Some(next) => Arrives(s, n, next, k - 1);
    case None => assert Alone(HandedOver(s, n), n, k - 1) == HandedOver(s, n);
  }

  /** Hand-over finishes. From any state in which nothing is leased and the locks are free, the
      cleanup ends within 21 of its own steps. Then the queues are empty, and open exactly if
      the device was in service; OPEN is published again exactly then; and every closer but the
      owner's, and every other thread, is where it was. */
  lemma CleanupHandsOver(s: State, n: nat)
    requires Unhindered(s, n)
    ensures Alone(s, n, 21) == HandedOver(s, n)
  {
    assert s.cleanups[n := Retire] == s.cleanups;
    assert At(s, n, Retire) == s;
    Arrives(s, n, Retire, 21);
  }
}
