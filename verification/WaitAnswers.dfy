/** What a reply says. From its publication on, whatever is going to be replied to a request
    stays between a lower and an upper bound: the bits that were claimed for it or seen by
    its worker, and the bits that held meanwhile or that a callback brought along. */
module WaitAnswers {
  import opened WaitRecord
  import opened WaitModel
  import opened WaitOwnership
  import opened WaitWakeup
  import Runs

  function Ready(q: Queues): Mask { Mask(Readable(q), Writable(q)) }

  predicate Between(lo: Mask, x: Mask, hi: Mask) { lo.Within(x) && x.Within(hi) }

  /** The bits a thread may still bring to a claim: it has seen them, or its own change of a
      queue made them true. */
  function Carried(pc: Pc): Mask {
    match pc
    case Claim(cond, _, _, at) => if at.EnqueueWork? then NO_BITS else cond
    case Publish(_, _, at) =>
      (match at
       case SnapInjection(_, _, readable) => Mask(readable, false)
       case CompareCapture(_, _, ready) => ready
       case CompareInjection(_, _, ready) => ready
       case _ => NO_BITS)
    case Packet(at) =>
      (match at
       case CaptureBump(wasEmpty) => Mask(wasEmpty, false)
       case RxBump(_, wasFull) => Mask(false, wasFull)
       case RxPlace(_, wasFull) => Mask(false, wasFull)
       case _ => NO_BITS)
    case _ => NO_BITS
  }

  /** The claim is about to return: the word it loaded was scheduled with all it could add. */
  predicate Spent(pc: Pc, interest: Mask) {
    && pc.Claim? && (pc.claim.CheckSlot? || pc.claim.CheckInterest?)
    && pc.claim.seen.phase == Scheduled && pc.cond.And(interest).Within(pc.claim.seen.satisfied)
  }

  /** What a thread can still bring to a wait with this interest. */
  function Brings(pc: Pc, interest: Mask): Mask {
    if Spent(pc, interest) then NO_BITS else Carried(pc).And(interest)
  }

  /** The bits a worker is going to reply. */
  function Found(at: WorkAt): Mask
    requires !at.LoadScheduled? && !at.CasUnmarking?
  {
    match at
    case LookInjection(_, sat, want, readable) => sat.Or(Mask(readable, false).And(want))
    case TakeSlot(sat) => sat
    case TakeInterest(_, sat) => sat
    case LookCapture(_, sat, _) => sat
    case TakeInterestAgain(_, sat) => sat
    case LookOpen(_, sat, _) => sat
    case LookTx(_, sat, _) => sat
    case LookRx(_, sat, _) => sat
  }

  predicate Taken(pc: Pc) { pc.Work? && !pc.wk.LoadScheduled? && !pc.wk.CasUnmarking? }

  /** The request a thread is going to reply to, and with what; NULL for none. */
  function Replies(pc: Pc, slot: Handle): (Handle, Mask) {
    match pc
    case Work(at) => if Taken(pc) then (if at.TakeSlot? then slot else at.h, Found(at)) else (NULL, NO_BITS)
    case Unmark(h, at) =>
      if at.CallUnmark? && at.outcome.Reply? then (h, at.outcome.satisfied) else (NULL, NO_BITS)
    case Finish(after, _) =>
      if after.ThenComplete? && after.outcome.Reply? then (after.request, after.outcome.satisfied) else (NULL, NO_BITS)
    case Complete(h, outcome) => if outcome.Reply? then (h, outcome.satisfied) else (NULL, NO_BITS)
    case _ => (NULL, NO_BITS)
  }

  predicate Claims(rec: Shared, h: Handle) { rec.slot == h && Claimable(rec.word.phase) }

  /** The same registration of `h` was claimable before. */
  predicate SameClaims(rec: Shared, rec': Shared, h: Handle) {
    Claims(rec, h) && rec'.interest == rec.interest && rec'.word.sequence == rec.word.sequence
  }

  predicate RecordBound(rec: Shared, h: Handle, lo: Mask, hi: Mask) {
    && (rec.slot == h ==> !Unfinished(rec.word.phase))
    && (Claims(rec, h) ==> Between(lo, rec.word.satisfied, hi))
  }

  predicate ThreadBound(rec: Shared, h: Handle, pc: Pc, lo: Mask, hi: Mask) {
    && (Replies(pc, rec.slot).0 == h ==> Between(lo, Replies(pc, rec.slot).1, hi))
    && (Claims(rec, h) ==> Brings(pc, rec.interest).Within(hi))
    && (Claims(rec, h) && pc.Claim? && pc.claim.CasScheduled? && pc.claim.seen.sequence == rec.word.sequence
        ==> pc.claim.bits.Within(pc.cond))
  }

  /** Everything that can become the reply to `h` is between the bounds. */
  predicate Bounded(s: State, h: Handle, lo: Mask, hi: Mask) {
    && h != NULL && h in s.requests && s.requests[h].status != Owned
    && RecordBound(s.rec, h, lo, hi)
    && forall t :: t in s.threads ==> ThreadBound(s.rec, h, s.threads[t], lo, hi)
  }

  // ----- one step of a thread -----

  /** The step answered, and with what. */
  predicate Answered(s: State, s': State, a: Answer) { s'.audit.answers == s.audit.answers + [a] }

  function LastAnswer(s: State): Answer
    requires s.audit.answers != []
  {
    s.audit.answers[|s.audit.answers| - 1]
  }

  /** If the step that ended `h` answered, it did so between the bounds. */
  predicate AnswerBound(s: State, s': State, h: Handle, lo: Mask, hi: Mask)
    requires h in s.requests
  {
    || s'.audit.answers == s.audit.answers
    || (&& s'.audit.answers != [] && Answered(s, s', LastAnswer(s'))
        && LastAnswer(s').want == s.requests[h].want && Between(lo, LastAnswer(s').satisfied, hi))
  }

  predicate Advances(s: State, s': State, t: Tid, h: Handle, lo: Mask, hi: Mask)
    requires h in s.requests
  {
    var hi' := hi.Or(Ready(s'.q));
    && OthersStay(s, s', t)
    && (s'.rec.slot == h ==> s.rec.slot == h)
    && (Claims(s'.rec, h) ==> SameClaims(s.rec, s'.rec, h))
    && RecordBound(s'.rec, h, lo, hi')
    && (t in s'.threads ==> ThreadBound(s'.rec, h, s'.threads[t], lo, hi'))
    && (if h in s'.requests then s'.requests[h].status != Owned else AnswerBound(s, s', h, lo, hi))
  }

  /** What the stepping thread knows. */
  predicate Aware(s: State, t: Tid, h: Handle, lo: Mask, hi: Mask) {
    && Alert(s, t)
    && h != NULL && h in s.requests && s.requests[h].status != Owned
    && RecordBound(s.rec, h, lo, hi)
    && ThreadBound(s.rec, h, s.threads[t], lo, hi)
  }

  /** A step that only moves the thread, to a place within the bounds. */
  lemma QuietAdvances(s: State, s': State, t: Tid, h: Handle, lo: Mask, hi: Mask)
    requires Aware(s, t, h, lo, hi) && Quiet(s, s', t)
    requires t in s'.threads ==> ThreadBound(s.rec, h, s'.threads[t], lo, hi.Or(Ready(s'.q)))
    ensures Advances(s, s', t, h, lo, hi)
  {}

  lemma RegisterChecks(s: State, t: Tid, g: Handle, want: Mask, at: RegisterAt, ok: bool, h: Handle, lo: Mask, hi: Mask)
    requires Aware(s, t, h, lo, hi) && s.threads[t] == Register(g, want, at)
    requires at.CheckOpen? || at.CheckAdaptive? || at.CheckTx? || at.CheckRx? || at.MarkCancelable?
    ensures Advances(s, RegisterStep(s, t, g, want, at, ok), t, h, lo, hi)
  {}

  lemma RegisterAdvances(s: State, t: Tid, g: Handle, want: Mask, at: RegisterAt, ok: bool, h: Handle, lo: Mask, hi: Mask)
    requires Aware(s, t, h, lo, hi) && s.threads[t] == Register(g, want, at)
    ensures Advances(s, RegisterStep(s, t, g, want, at, ok), t, h, lo, hi)
  {
    if at.CheckOpen? || at.CheckAdaptive? || at.CheckTx? || at.CheckRx? || at.MarkCancelable? {
      RegisterChecks(s, t, g, want, at, ok, h, lo, hi);
    }
  }

  lemma PublishLooks(s: State, t: Tid, g: Handle, want: Mask, at: PublishAt, ok: bool, h: Handle, lo: Mask, hi: Mask)
    requires h != NULL && t in s.threads && ThreadBound(s.rec, h, s.threads[t], lo, hi) && s.threads[t] == Publish(g, want, at)
    requires at.SnapCapture? || at.SnapInjection? || at.CompareCapture? || at.CompareInjection?
    ensures var s' := PublishStep(s, t, g, want, at, ok);
            t in s'.threads ==> ThreadBound(s.rec, h, s'.threads[t], lo, hi.Or(Ready(s'.q)))
  {}

  lemma PublishNext(s: State, t: Tid, g: Handle, want: Mask, at: PublishAt, ok: bool, h: Handle, lo: Mask, hi: Mask)
    requires h != NULL && t in s.threads && ThreadBound(s.rec, h, s.threads[t], lo, hi) && s.threads[t] == Publish(g, want, at)
    requires !((at.CasPending? || at.CasTeardown?) && ok && s.rec.word == at.seen)
    ensures var s' := PublishStep(s, t, g, want, at, ok);
            t in s'.threads ==> ThreadBound(s.rec, h, s'.threads[t], lo, hi.Or(Ready(s'.q)))
  {
    if at.SnapCapture? || at.SnapInjection? || at.CompareCapture? || at.CompareInjection? {
      PublishLooks(s, t, g, want, at, ok, h, lo, hi);
    }
  }

  lemma PublishCas(s: State, t: Tid, g: Handle, want: Mask, at: PublishAt, h: Handle, lo: Mask, hi: Mask)
    requires Aware(s, t, h, lo, hi) && s.threads[t] == Publish(g, want, at)
    requires (at.CasPending? || at.CasTeardown?) && s.rec.word == at.seen
    ensures Advances(s, PublishStep(s, t, g, want, at, true), t, h, lo, hi)
  {}

  lemma PublishAdvances(s: State, t: Tid, g: Handle, want: Mask, at: PublishAt, ok: bool, h: Handle, lo: Mask, hi: Mask)
    requires Aware(s, t, h, lo, hi) && s.threads[t] == Publish(g, want, at)
    ensures Advances(s, PublishStep(s, t, g, want, at, ok), t, h, lo, hi)
  {
    if (at.CasPending? || at.CasTeardown?) && ok && s.rec.word == at.seen {
      PublishCas(s, t, g, want, at, h, lo, hi);
    } else {
      PublishQuiet(s, t, g, want, at, ok);
      PublishNext(s, t, g, want, at, ok, h, lo, hi);
      QuietAdvances(s, PublishStep(s, t, g, want, at, ok), t, h, lo, hi);
    }
  }

  /** Nothing is carried and nothing replied here. */
  predicate Idle(pc: Pc) {
    || (pc.Claim? && pc.claim.EnqueueWork?)
    || (pc.Packet? && pc.pk.RxLoop?)
  }

  lemma IdleBound(rec: Shared, h: Handle, pc: Pc, lo: Mask, hi: Mask)
    requires h != NULL && Idle(pc)
    ensures ThreadBound(rec, h, pc, lo, hi)
  {}

  lemma ClaimGoesOn(rec: Shared, h: Handle, pc: Pc, at: ClaimAt, lo: Mask, hi: Mask, more: Mask)
    requires h != NULL && pc.Claim? && !pc.claim.EnqueueWork? && ThreadBound(rec, h, pc, lo, hi)
    requires at.CasScheduled? ==> at.bits.Within(pc.cond)
    requires Spent(pc, rec.interest) ==> Spent(pc.(claim := at), rec.interest)
    ensures ThreadBound(rec, h, pc.(claim := at), lo, hi.Or(more))
  {}

  lemma ClaimNext(s: State, t: Tid, cond: Mask, expected: Handle, back: Resume, at: ClaimAt, ok: bool,
                  h: Handle, lo: Mask, hi: Mask)
    requires h != NULL && t in s.threads && ThreadBound(s.rec, h, s.threads[t], lo, hi) && s.threads[t] == Claim(cond, expected, back, at)
    requires !(at.CasScheduled? && ok && s.rec.word == at.seen)
    ensures var s' := ClaimStep(s, t, cond, expected, back, at, ok);
            t in s'.threads ==> ThreadBound(s.rec, h, s'.threads[t], lo, hi.Or(Ready(s'.q)))
  {
    var s' := ClaimStep(s, t, cond, expected, back, at, ok);
    if t in s'.threads {
      if s'.threads[t].Claim? {
        ClaimGoesOn(s.rec, h, s.threads[t], s'.threads[t].claim, lo, hi, Ready(s'.q));
      } else {
        IdleBound(s.rec, h, s'.threads[t], lo, hi.Or(Ready(s'.q)));
      }
    }
  }

  /** A claim that wins adds only what it carries. */
  lemma WonBits(rec: Shared, h: Handle, cond: Mask, bits: Mask, lo: Mask, hi: Mask)
    requires bits.Within(rec.interest) && RecordBound(rec, h, lo, hi) && Claimable(rec.word.phase)
    requires Claims(rec, h) ==> cond.And(rec.interest).Within(hi) && bits.Within(cond)
    ensures RecordBound(rec.(word := Record(rec.word.sequence, rec.word.satisfied.Or(bits), Scheduled)), h, lo, hi)
  {}

  lemma OthersAfter(threads: map<Tid, Pc>, t: Tid, pc: Pc)
    ensures threads[t := pc] - {t} == threads - {t}
    ensures (threads - {t}) - {t} == threads - {t}
  {}

  /** What a won claim does: it schedules the record with its bits, and is done or has the
      worker still to queue. */
  predicate Wins(s: State, s': State, t: Tid, bits: Mask) {
    && s'.q == s.q && s'.requests == s.requests && s'.audit == s.audit
    && s'.rec == s.rec.(word := Record(s.rec.word.sequence, s.rec.word.satisfied.Or(bits), Scheduled))
    && (s'.threads == s.threads - {t}
        || (t in s'.threads && Idle(s'.threads[t]) && s'.threads == s.threads[t := s'.threads[t]]))
  }

  lemma ClaimIsWin(s: State, t: Tid, cond: Mask, expected: Handle, back: Resume, bits: Mask)
    requires t in s.threads
    ensures Wins(s, ClaimStep(s, t, cond, expected, back, CasScheduled(s.rec.word, bits), true), t, bits)
  {}

  lemma WinAdvances(s: State, s': State, t: Tid, bits: Mask, h: Handle, lo: Mask, hi: Mask)
    requires h != NULL && h in s.requests && s.requests[h].status != Owned && Wins(s, s', t, bits)
    requires Claims(s'.rec, h) ==> SameClaims(s.rec, s'.rec, h)
    requires RecordBound(s'.rec, h, lo, hi.Or(Ready(s'.q)))
    ensures Advances(s, s', t, h, lo, hi)
  {
    if t in s'.threads {
      OthersAfter(s.threads, t, s'.threads[t]);
      IdleBound(s'.rec, h, s'.threads[t], lo, hi.Or(Ready(s'.q)));
    }
  }

  lemma ClaimWins(s: State, t: Tid, cond: Mask, expected: Handle, back: Resume, seen: Record, bits: Mask,
                  h: Handle, lo: Mask, hi: Mask)
    requires h != NULL && h in s.requests && s.requests[h].status != Owned && t in s.threads
    requires s.threads[t] == Claim(cond, expected, back, CasScheduled(seen, bits)) && s.rec.word == seen
    requires Claimable(seen.phase) && bits.Within(s.rec.interest)
    requires RecordBound(s.rec, h, lo, hi) && ThreadBound(s.rec, h, s.threads[t], lo, hi)
    ensures Advances(s, ClaimStep(s, t, cond, expected, back, CasScheduled(seen, bits), true), t, h, lo, hi)
  {
    WonBits(s.rec, h, cond, bits, lo, hi);
    ClaimIsWin(s, t, cond, expected, back, bits);
    WinAdvances(s, ClaimStep(s, t, cond, expected, back, CasScheduled(seen, bits), true), t, bits, h, lo, hi);
  }

  lemma ClaimAdvances(s: State, t: Tid, cond: Mask, expected: Handle, back: Resume, at: ClaimAt, ok: bool,
                      h: Handle, lo: Mask, hi: Mask)
    requires Aware(s, t, h, lo, hi) && s.threads[t] == Claim(cond, expected, back, at)
    ensures Advances(s, ClaimStep(s, t, cond, expected, back, at, ok), t, h, lo, hi)
  {
    if at.CasScheduled? && ok && s.rec.word == at.seen {
      ClaimWins(s, t, cond, expected, back, at.seen, at.bits, h, lo, hi);
    } else {
      ClaimQuiet(s, t, cond, expected, back, at, ok);
      ClaimNext(s, t, cond, expected, back, at, ok, h, lo, hi);
      QuietAdvances(s, ClaimStep(s, t, cond, expected, back, at, ok), t, h, lo, hi);
    }
  }

  lemma FinishStoreAdvances(s: State, t: Tid, after: After, at: FinishAt, h: Handle, lo: Mask, hi: Mask)
    requires Aware(s, t, h, lo, hi) && s.threads[t] == Finish(after, at) && at.StoreFree?
    ensures Advances(s, FinishStep(s, t, after, at), t, h, lo, hi)
  {}

  lemma FinishAdvances(s: State, t: Tid, after: After, at: FinishAt, h: Handle, lo: Mask, hi: Mask)
    requires Aware(s, t, h, lo, hi) && s.threads[t] == Finish(after, at)
    ensures Advances(s, FinishStep(s, t, after, at), t, h, lo, hi)
  {
    if at.StoreFree? {
      FinishStoreAdvances(s, t, after, at, h, lo, hi);
    }
  }

  lemma CompleteAdvances(s: State, t: Tid, g: Handle, outcome: Outcome, ok: bool, h: Handle, lo: Mask, hi: Mask)
    requires Aware(s, t, h, lo, hi) && s.threads[t] == Complete(g, outcome)
    ensures Advances(s, CompleteStep(s, t, g, outcome, ok), t, h, lo, hi)
  {}

  lemma UnmarkCallAdvances(s: State, t: Tid, g: Handle, outcome: Outcome, ok: bool, h: Handle, lo: Mask, hi: Mask)
    requires Aware(s, t, h, lo, hi) && s.threads[t] == Unmark(g, CallUnmark(outcome))
    ensures Advances(s, UnmarkStep(s, t, g, CallUnmark(outcome), ok), t, h, lo, hi)
  {}

  lemma UnmarkAdvances(s: State, t: Tid, g: Handle, at: UnmarkAt, ok: bool, h: Handle, lo: Mask, hi: Mask)
    requires Aware(s, t, h, lo, hi) && s.threads[t] == Unmark(g, at)
    ensures Advances(s, UnmarkStep(s, t, g, at, ok), t, h, lo, hi)
  {
    if at.CallUnmark? {
      UnmarkCallAdvances(s, t, g, at.outcome, ok, h, lo, hi);
    }
  }

  lemma TeardownNext(s: State, t: Tid, at: TeardownAt, ok: bool, h: Handle, lo: Mask, hi: Mask)
    requires h != NULL && t in s.threads && ThreadBound(s.rec, h, s.threads[t], lo, hi) && s.threads[t] == Tear(at)
    requires !(at.CasFrom? && ok && s.rec.word == at.seen)
    ensures var s' := TeardownStep(s, t, at, ok);
            t in s'.threads ==> ThreadBound(s.rec, h, s'.threads[t], lo, hi.Or(Ready(s'.q)))
  {}

  lemma TeardownWins(s: State, t: Tid, expected: Handle, from: Phase, seen: Record, h: Handle, lo: Mask, hi: Mask)
    requires Aware(s, t, h, lo, hi) && s.threads[t] == Tear(CasFrom(expected, from, seen)) && s.rec.word == seen
    ensures Advances(s, TeardownStep(s, t, CasFrom(expected, from, seen), true), t, h, lo, hi)
  {}

  lemma TeardownAdvances(s: State, t: Tid, at: TeardownAt, ok: bool, h: Handle, lo: Mask, hi: Mask)
    requires Aware(s, t, h, lo, hi) && s.threads[t] == Tear(at)
    ensures Advances(s, TeardownStep(s, t, at, ok), t, h, lo, hi)
  {
    if at.CasFrom? && ok && s.rec.word == at.seen {
      TeardownWins(s, t, at.expected, at.from, at.seen, h, lo, hi);
    } else {
      TeardownQuiet(s, t, at, ok);
      TeardownNext(s, t, at, ok, h, lo, hi);
      QuietAdvances(s, TeardownStep(s, t, at, ok), t, h, lo, hi);
    }
  }

  lemma WorkerLooks(s: State, t: Tid, at: WorkAt, ok: bool, h: Handle, lo: Mask, hi: Mask)
    requires h != NULL && t in s.threads && ThreadBound(s.rec, h, s.threads[t], lo, hi) && s.threads[t] == Work(at)
    requires at.LookCapture? || at.LookInjection?
    ensures var s' := WorkerStep(s, t, at, ok);
            t in s'.threads ==> ThreadBound(s.rec, h, s'.threads[t], lo, hi.Or(Ready(s'.q)))
  {}

  lemma WorkerChecks(s: State, t: Tid, at: WorkAt, ok: bool, h: Handle, lo: Mask, hi: Mask)
    requires h != NULL && t in s.threads && ThreadBound(s.rec, h, s.threads[t], lo, hi) && s.threads[t] == Work(at)
    requires at.TakeInterestAgain? || at.LookOpen? || at.LookTx? || at.LookRx?
    ensures var s' := WorkerStep(s, t, at, ok);
            t in s'.threads ==> ThreadBound(s.rec, h, s'.threads[t], lo, hi.Or(Ready(s'.q)))
  {}

  /** The worker replies what it took and what it saw, and nothing else. */
  lemma WorkerNext(s: State, t: Tid, at: WorkAt, ok: bool, h: Handle, lo: Mask, hi: Mask)
    requires h != NULL && t in s.threads && ThreadBound(s.rec, h, s.threads[t], lo, hi) && s.threads[t] == Work(at)
    requires !(at.CasUnmarking? && ok && s.rec.word == at.seen)
    ensures var s' := WorkerStep(s, t, at, ok);
            t in s'.threads ==> ThreadBound(s.rec, h, s'.threads[t], lo, hi.Or(Ready(s'.q)))
  {
    if at.LookCapture? || at.LookInjection? {
      WorkerLooks(s, t, at, ok, h, lo, hi);
    } else if at.TakeInterestAgain? || at.LookOpen? || at.LookTx? || at.LookRx? {
      WorkerChecks(s, t, at, ok, h, lo, hi);
    }
  }

  lemma WorkerWins(s: State, t: Tid, seen: Record, h: Handle, lo: Mask, hi: Mask)
    requires Aware(s, t, h, lo, hi) && s.threads[t] == Work(CasUnmarking(seen)) && s.rec.word == seen
    ensures Advances(s, WorkerStep(s, t, CasUnmarking(seen), true), t, h, lo, hi)
  {}

  lemma WorkerAdvances(s: State, t: Tid, at: WorkAt, ok: bool, h: Handle, lo: Mask, hi: Mask)
    requires Aware(s, t, h, lo, hi) && s.threads[t] == Work(at)
    ensures Advances(s, WorkerStep(s, t, at, ok), t, h, lo, hi)
  {
    if at.CasUnmarking? && ok && s.rec.word == at.seen {
      WorkerWins(s, t, at.seen, h, lo, hi);
    } else {
      WorkerQuiet(s, t, at, ok);
      WorkerNext(s, t, at, ok, h, lo, hi);
      QuietAdvances(s, WorkerStep(s, t, at, ok), t, h, lo, hi);
    }
  }

  lemma CancelMatchAdvances(s: State, t: Tid, g: Handle, ok: bool, h: Handle, lo: Mask, hi: Mask)
    requires Aware(s, t, h, lo, hi) && s.threads[t] == Cancelling(g, MatchSlot)
    ensures Advances(s, CancelStep(s, t, g, MatchSlot, ok), t, h, lo, hi)
  {}

  lemma CancelScanAdvances(s: State, t: Tid, g: Handle, at: CancelAt, ok: bool, h: Handle, lo: Mask, hi: Mask)
    requires Aware(s, t, h, lo, hi) && s.threads[t] == Cancelling(g, at)
    requires at.LoadAny? || at.LoadSame?
    ensures Advances(s, CancelStep(s, t, g, at, ok), t, h, lo, hi)
  {}

  lemma CancelAdvances(s: State, t: Tid, g: Handle, at: CancelAt, ok: bool, h: Handle, lo: Mask, hi: Mask)
    requires Aware(s, t, h, lo, hi) && s.threads[t] == Cancelling(g, at)
    ensures Advances(s, CancelStep(s, t, g, at, ok), t, h, lo, hi)
  {
    if at.MatchSlot? {
      CancelMatchAdvances(s, t, g, ok, h, lo, hi);
    } else if at.LoadAny? || at.LoadSame? {
      CancelScanAdvances(s, t, g, at, ok, h, lo, hi);
    }
  }

  /** A callback that goes on to claim brings a bit its own change of the queue made true. */
  lemma PacketTakes(s: State, t: Tid, at: PacketAt, ok: bool, h: Handle, lo: Mask, hi: Mask)
    requires h != NULL && t in s.threads && s.threads[t] == Packet(at) && s.q.injected <= FRAME_QUEUE_LIMIT
    requires at.RxOpen? || at.RxGeneration? || at.RxLoop?
    ensures var s' := PacketStep(s, t, at, ok);
            t in s'.threads ==> ThreadBound(s.rec, h, s'.threads[t], lo, hi.Or(Ready(s'.q)))
  {}

  lemma PacketBumps(s: State, t: Tid, at: PacketAt, ok: bool, h: Handle, lo: Mask, hi: Mask)
    requires h != NULL && t in s.threads && s.threads[t] == Packet(at) && ThreadBound(s.rec, h, Packet(at), lo, hi)
    requires at.CaptureBump? || at.RxBump?
    ensures var s' := PacketStep(s, t, at, ok);
            t in s'.threads ==> ThreadBound(s.rec, h, s'.threads[t], lo, hi.Or(Ready(s'.q)))
  {}

  lemma PacketPlaces(s: State, t: Tid, at: PacketAt, ok: bool, h: Handle, lo: Mask, hi: Mask)
    requires h != NULL && t in s.threads && s.threads[t] == Packet(at) && ThreadBound(s.rec, h, Packet(at), lo, hi)
    requires at.RxPlace?
    ensures var s' := PacketStep(s, t, at, ok);
            t in s'.threads ==> ThreadBound(s.rec, h, s'.threads[t], lo, hi.Or(Ready(s'.q)))
  {}

  lemma PacketRequeues(s: State, t: Tid, at: PacketAt, ok: bool, h: Handle, lo: Mask, hi: Mask)
    requires h != NULL && t in s.threads && s.threads[t] == Packet(at)
    requires at.RxRequeueOpen? || at.RxRequeueGen? || at.RxRequeue? || at.RxRequeueBump?
    ensures var s' := PacketStep(s, t, at, ok);
            t in s'.threads ==> ThreadBound(s.rec, h, s'.threads[t], lo, hi.Or(Ready(s'.q)))
  {}

  lemma PacketAdvances(s: State, t: Tid, at: PacketAt, ok: bool, h: Handle, lo: Mask, hi: Mask)
    requires Aware(s, t, h, lo, hi) && s.threads[t] == Packet(at)
    ensures Advances(s, PacketStep(s, t, at, ok), t, h, lo, hi)
  {
    PacketQuiet(s, t, at, ok);
    if at.RxOpen? || at.RxGeneration? || at.RxLoop? {
      PacketTakes(s, t, at, ok, h, lo, hi);
    } else if at.RxRequeueOpen? || at.RxRequeueGen? || at.RxRequeue? || at.RxRequeueBump? {
      PacketRequeues(s, t, at, ok, h, lo, hi);
    } else if at.RxPlace? {
      PacketPlaces(s, t, at, ok, h, lo, hi);
    } else {
      PacketBumps(s, t, at, ok, h, lo, hi);
    }
    QuietAdvances(s, PacketStep(s, t, at, ok), t, h, lo, hi);
  }

  lemma ThreadAdvances(s: State, t: Tid, ok: bool, h: Handle, lo: Mask, hi: Mask)
    requires Aware(s, t, h, lo, hi)
    ensures Advances(s, ThreadStep(s, t, ok), t, h, lo, hi)
  {
    match s.threads[t]
    case Register(g, want, at) => RegisterAdvances(s, t, g, want, at, ok, h, lo, hi);
    case Publish(g, want, at) => PublishAdvances(s, t, g, want, at, ok, h, lo, hi);
    case Claim(cond, expected, back, at) => ClaimAdvances(s, t, cond, expected, back, at, ok, h, lo, hi);
    case Finish(after, at) => FinishAdvances(s, t, after, at, h, lo, hi);
    case Complete(g, outcome) => CompleteAdvances(s, t, g, outcome, ok, h, lo, hi);
    case Unmark(g, at) => UnmarkAdvances(s, t, g, at, ok, h, lo, hi);
    case Tear(at) => TeardownAdvances(s, t, at, ok, h, lo, hi);
    case Work(at) => WorkerAdvances(s, t, at, ok, h, lo, hi);
    case Cancelling(g, at) => CancelAdvances(s, t, g, at, ok, h, lo, hi);
    case Packet(at) => PacketAdvances(s, t, at, ok, h, lo, hi);
  }

  // ----- any action -----

  /** What no action from outside touches. */
  ghost predicate Outside(s: State, s': State, h: Handle) {
    && s'.rec == s.rec && s'.audit.answers == s.audit.answers
    && (h in s.requests ==> h in s'.requests && (s.requests[h].status != Owned ==> s'.requests[h].status != Owned))
    && (forall u :: u in s.threads ==> u in s'.threads && s'.threads[u] == s.threads[u])
    && (forall u :: u in s'.threads && u !in s.threads ==>
          !s'.threads[u].Claim? && Replies(s'.threads[u], s.rec.slot).0 == NULL && Carried(s'.threads[u]).Within(Ready(s'.q)))
  }

  lemma DispatchOutside(s: State, a: Action, h: Handle)
    requires Enabled(s, a) && (a.DispatchWait? || a.DispatchStop? || a.DispatchCancel?)
    requires a.DispatchCancel? ==> Cancel(a.h) !in s.threads
    ensures Outside(s, Exec(s, a), h)
  {}

  lemma StartOutside(s: State, a: Action, h: Handle)
    requires Enabled(s, a)
    requires a.StartWorker? || a.LoopWorker? || a.StartProducer? || a.StartReceive? || a.StartTeardown?
    ensures Outside(s, Exec(s, a), h)
  {}

  lemma QueueOutside(s: State, a: Action, h: Handle)
    requires Enabled(s, a) && (a.ReadCaptured? || a.WriteInjected? || a.CloseQueue? || a.ReopenQueue?)
    ensures Outside(s, Exec(s, a), h)
  {}

  lemma DeviceOutside(s: State, a: Action, h: Handle)
    requires Enabled(s, a)
    requires a.OpenLifecycle? || a.EnableAdaptive? || a.DisableAdaptive? || a.StartQueue? || a.ReleaseQueues?
    ensures Outside(s, Exec(s, a), h)
  {}

  lemma ActionOutside(s: State, a: Action, h: Handle)
    requires Inv(s) && Enabled(s, a) && !a.Step?
    ensures Outside(s, Exec(s, a), h)
  {
    if a.DispatchWait? || a.DispatchStop? || a.DispatchCancel? {
      if a.DispatchCancel? {
        assert RequestOk(s.rec, s.threads, a.h, s.requests[a.h]);
      }
      DispatchOutside(s, a, h);
    } else if a.StartWorker? || a.LoopWorker? || a.StartProducer? || a.StartReceive? || a.StartTeardown? {
      StartOutside(s, a, h);
    } else if a.ReadCaptured? || a.WriteInjected? || a.CloseQueue? || a.ReopenQueue? {
      QueueOutside(s, a, h);
    } else {
      DeviceOutside(s, a, h);
    }
  }

  lemma WiderBound(rec: Shared, h: Handle, pc: Pc, lo: Mask, hi: Mask, more: Mask)
    requires ThreadBound(rec, h, pc, lo, hi)
    ensures ThreadBound(rec, h, pc, lo, hi.Or(more))
  {}

  lemma OutsideKeepsBound(s: State, s': State, h: Handle, lo: Mask, hi: Mask)
    requires Bounded(s, h, lo, hi) && Outside(s, s', h)
    ensures Bounded(s', h, lo, hi.Or(Ready(s'.q)))
  {
    forall u | u in s'.threads ensures ThreadBound(s'.rec, h, s'.threads[u], lo, hi.Or(Ready(s'.q))) {
      if u in s.threads {
        WiderBound(s.rec, h, s.threads[u], lo, hi, Ready(s'.q));
      }
    }
  }

  lemma OthersBound(rec: Shared, rec': Shared, h: Handle, pc: Pc, lo: Mask, hi: Mask, more: Mask)
    requires ThreadBound(rec, h, pc, lo, hi) && (rec'.slot == h ==> rec.slot == h) && h != NULL
    requires Claims(rec', h) ==> SameClaims(rec, rec', h)
    ensures ThreadBound(rec', h, pc, lo, hi.Or(more))
  {}

  lemma StepKeepsBound(s: State, s': State, t: Tid, h: Handle, lo: Mask, hi: Mask)
    requires Bounded(s, h, lo, hi) && Advances(s, s', t, h, lo, hi) && h in s'.requests
    ensures Bounded(s', h, lo, hi.Or(Ready(s'.q)))
  {
    forall u | u in s'.threads ensures ThreadBound(s'.rec, h, s'.threads[u], lo, hi.Or(Ready(s'.q))) {
      if u != t {
        Others(s, s', t, u);
        OthersBound(s.rec, s'.rec, h, s.threads[u], lo, hi, Ready(s'.q));
      }
    }
  }

  /** Over any action the bounds hold, the upper one widened by what is ready now; and an
      action that ends the request answers it between them, if at all. */
  lemma ActionKeepsBound(s: State, a: Action, h: Handle, lo: Mask, hi: Mask)
    requires Good(s) && Bounded(s, h, lo, hi) && Enabled(s, a)
    ensures var s' := Exec(s, a);
            if h in s'.requests then Bounded(s', h, lo, hi.Or(Ready(s'.q))) else AnswerBound(s, s', h, lo, hi)
  {
    if a.Step? {
      InvKnows(s, a.t);
      ThreadAdvances(s, a.t, a.ok, h, lo, hi);
      if h in Exec(s, a).requests {
        StepKeepsBound(s, Exec(s, a), a.t, h, lo, hi);
      }
    } else {
      ActionOutside(s, a, h);
      OutsideKeepsBound(s, Exec(s, a), h, lo, hi);
    }
  }
}
