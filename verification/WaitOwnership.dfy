/** Who owns the wait record and who owes each completion, in every reachable state. */
module WaitOwnership {
  import opened WaitRecord
  import opened WaitModel
  import Runs

  // ----- what a program counter says by itself -----

  function AfterHandle(after: After): Handle {
    match after
    case ThenComplete(h, _) => h
    case ThenReturn => NULL
  }

  /** The request this thread is bound to complete, or NULL. */
  function Owes(pc: Pc): Handle {
    match pc
    case Register(h, _, _) => h
    case Finish(after, _) => AfterHandle(after)
    case Complete(h, _) => h
    case _ => NULL
  }

  /** The thread is the one that must retire the record. */
  predicate Holds(pc: Pc) {
    match pc
    case Register(_, _, at) => !at.Validate? && !at.LoadFree? && !at.CasFree?
    case Publish(_, _, at) => at.LoadRegistering? || at.CasPending? || at.LoadTeardown? || at.CasTeardown?
    case Finish(_, _) => true
    case Unmark(_, _) => true
    case Tear(at) => at.RereadSlot?
    case Work(at) => !at.LoadScheduled? && !at.CasUnmarking?
    case _ => false
  }

  predicate Claimable(p: Phase) { p == Pending || p == Scheduled }

  predicate Unfinished(p: Phase) { p == Registering || p == Teardown }

  // ----- the invariant -----

  type Requests = map<Handle, Request>

  predicate OutcomeOk(outcome: Outcome, want: Mask) {
    outcome.Reply? ==> !outcome.satisfied.Empty() && outcome.satisfied.Within(want)
  }

  /** The published request is live, cancelable, and nobody's debt yet. */
  predicate Contested(rec: Shared, reqs: Requests) {
    && rec.slot != NULL
    && rec.slot in reqs
    && reqs[rec.slot].debtor == Undecided
    && reqs[rec.slot].want == rec.interest
    && !rec.interest.Empty()
  }

  /** The registrar still owns its unmarked request. */
  predicate Fresh(rec: Shared, reqs: Requests, h: Handle, want: Mask) {
    && Unfinished(rec.word.phase)
    && rec.word.satisfied.Empty()
    && rec.handoff == NoHandoff
    && !want.Empty()
    && h in reqs
    && reqs[h] == Request(Owned, want, Owed(Control))
  }

  /** The registrar has marked its request; cancellation may have taken it. */
  predicate MarkedByRegistrar(rec: Shared, reqs: Requests, h: Handle) {
    && h != NULL
    && rec.slot == h
    && rec.handoff == NoHandoff
    && (Unfinished(rec.word.phase) || rec.word.phase == Cancelled)
    && if rec.word.phase == Cancelled
       then h in reqs ==> reqs[h].debtor == Owed(Cancel(h))
       else Contested(rec, reqs) && rec.word.satisfied.Empty()
  }

  predicate Unmarker(rec: Shared, reqs: Requests) {
    && rec.word.phase == Unmarking
    && Contested(rec, reqs)
    && rec.handoff != UnmarkCancelled
  }

  predicate FinishOk(rec: Shared, reqs: Requests, t: Tid, after: After, at: FinishAt) {
    && (Unfinished(rec.word.phase) || rec.word.phase == Unmarking || rec.word.phase == Cancelled)
    && (rec.slot in reqs ==> reqs[rec.slot].debtor != Undecided)
    && (match after
        case ThenComplete(h, outcome) => h in reqs && OutcomeOk(outcome, reqs[h].want)
        case ThenReturn => t == Control && rec.word.phase == Cancelled)
    && (!at.ClearInterest? ==> rec.interest == NO_BITS)
    && (at.ClearSlot? || at.LoadLast? || at.StoreFree? ==> rec.handoff == NoHandoff)
    && (at.LoadLast? || at.StoreFree? ==> rec.slot == NULL)
    && (at.StoreFree? ==> at.seen.sequence == rec.word.sequence)
  }

  predicate WorkOk(rec: Shared, at: WorkAt) {
    && !at.LoadScheduled? && !at.CasUnmarking?
    && (at.TakeSlot? || at.h == rec.slot)
    && !at.sat.Empty() && at.sat.Within(rec.interest)
    && (at.LookCapture? || at.LookInjection? || at.LookOpen? || at.LookTx? || at.LookRx?
        ==> at.want == rec.interest)
  }

  /** What the thread that must retire the record may rely on. */
  predicate HolderOk(rec: Shared, reqs: Requests, t: Tid, pc: Pc) {
    match pc
    case Register(h, want, at) =>
      && Holds(pc)
      && Fresh(rec, reqs, h, want)
      && rec.slot == (if at.PutSlot? then NULL else h)
      && (at.PutSlot? || at.GetCaptureGen? || at.GetInjectionGen? || at.PutInterest? || rec.interest == want)
    case Publish(h, want, at) =>
      && Holds(pc)
      && MarkedByRegistrar(rec, reqs, h)
      && (rec.word.phase != Cancelled ==> rec.interest == want)
      && (at.LoadTeardown? || at.CasTeardown? ==> rec.word.phase != Registering)
    case Finish(after, at) => FinishOk(rec, reqs, t, after, at)
    case Unmark(h, at) =>
      && Unmarker(rec, reqs)
      && h == rec.slot
      && (match at
          case CallUnmark(outcome) => OutcomeOk(outcome, rec.interest)
          case SwapHandoff => reqs[h].status == Dispatched)
    case Tear(at) => at.RereadSlot? && Unmarker(rec, reqs)
    case Work(at) => Unmarker(rec, reqs) && WorkOk(rec, at)
    case Cancelling(h, _) =>
      && t == Cancel(h)
      && rec.word.phase == Unmarking
      && Contested(rec, reqs)
      && rec.slot == h
      && rec.handoff == UnmarkCancelled
    case _ => false
  }

  predicate RecordOk(rec: Shared, reqs: Requests, holder: Debtor) {
    && (rec.word.phase == Free ==> rec.slot == NULL && rec.interest == NO_BITS && rec.handoff == NoHandoff)
    && (holder == Undecided <==> rec.word.phase == Free || Claimable(rec.word.phase))
    && (Claimable(rec.word.phase) ==>
          && Contested(rec, reqs)
          && rec.handoff == NoHandoff
          && rec.word.satisfied.Within(rec.interest)
          && (rec.word.phase == Pending <==> rec.word.satisfied.Empty()))
  }

  predicate RequestOk(rec: Shared, threads: map<Tid, Pc>, h: Handle, r: Request) {
    && h != NULL
    && match r.debtor
       case Owed(t) =>
         && t in threads
         && Owes(threads[t]) == h
         && r.status != Marked
         && (Cancel(h) in threads ==> t == Cancel(h))
       case Undecided =>
         && (r.status == Marked || r.status == Dispatched)
         && rec.slot == h
         && rec.word.phase != Free && rec.word.phase != Cancelled
         && (r.status == Marked ==> Cancel(h) !in threads && rec.handoff == NoHandoff)
         && (r.status == Dispatched ==>
               if Cancel(h) in threads
               then threads[Cancel(h)].Cancelling? && threads[Cancel(h)].h == h && rec.handoff != CancelArrived
               else rec.word.phase == Unmarking && rec.handoff == CancelArrived)
  }

  /** A word a claimant has loaded. Its registration is at least as old as the
      current one; if it is the current one, that registration is past publishing. */
  predicate SeenOk(word: Record, seen: Record) {
    && Claimable(seen.phase)
    && seen.sequence <= word.sequence
    && (seen.sequence == word.sequence ==>
          Claimable(word.phase) || word.phase == Unmarking || word.phase == Cancelled)
  }

  predicate ClaimOk(word: Record, interest: Mask, at: ClaimAt) {
    && (at.CheckSlot? || at.CheckInterest? || at.CasScheduled? ==> SeenOk(word, at.seen))
    && (at.CasScheduled? ==> !at.bits.Empty())
    && (at.CasScheduled? && at.seen.sequence == word.sequence && Claimable(word.phase)
        ==> at.bits.Within(interest))
  }

  /** What a thread may rely on whether or not it holds the record. */
  predicate LocalsOk(word: Record, interest: Mask, pc: Pc) {
    match pc
    case Register(_, want, at) =>
      (!at.Validate? ==> !want.Empty()) && (at.CasFree? ==> at.seen.phase == Free)
    case Publish(_, _, at) =>
      (at.CasPending? ==> at.seen.phase == Registering) && (at.CasTeardown? ==> at.seen.phase == Teardown)
    case Claim(_, _, _, at) => ClaimOk(word, interest, at)
    case Tear(at) =>
      && (at.ReadSlot? || at.LoadFrom? || at.CasFrom? ==> at.from == Registering || Claimable(at.from))
      && (at.CasFrom? ==> at.seen.phase == at.from)
    case Work(at) => at.CasUnmarking? ==> at.seen.phase == Scheduled
    case Cancelling(_, at) =>
      && (at.LoadSame? || at.CasCancelled? ==> Unfinished(at.from) || Claimable(at.from))
      && (at.CasCancelled? ==> at.seen.phase == at.from)
      && (at.SwapArrived? ==> word.phase == Unmarking)
    case _ => true
  }

  /** What ties a thread to the requests. */
  predicate TiesOk(reqs: Requests, t: Tid, pc: Pc) {
    && (Owes(pc) != NULL ==> Owes(pc) in reqs && reqs[Owes(pc)].debtor == Owed(t))
    && (t.Cancel? ==>
          && t.request != NULL
          && t.request in reqs
          && reqs[t.request].status == Dispatched
          && (pc.Cancelling? || Owes(pc) == t.request))
    && match pc
       case Register(h, want, _) => t == Control && h != NULL && h in reqs && reqs[h] == Request(Owned, want, Owed(Control))
       case Publish(_, _, _) => t == Control
       case Complete(h, outcome) => h != NULL && h in reqs && OutcomeOk(outcome, reqs[h].want)
       case Cancelling(h, _) => t == Cancel(h) && h in reqs && reqs[h].debtor == Undecided
       case _ => true
  }

  predicate ThreadOk(s: State, t: Tid)
    requires t in s.threads
  {
    && (Holds(s.threads[t]) ==> s.audit.holder == Owed(t))
    && TiesOk(s.requests, t, s.threads[t])
    && LocalsOk(s.rec.word, s.rec.interest, s.threads[t])
  }

  predicate HeldOk(s: State) {
    s.audit.holder.Owed? ==>
      && s.audit.holder.who in s.threads
      && HolderOk(s.rec, s.requests, s.audit.holder.who, s.threads[s.audit.holder.who])
  }

  predicate AuditOk(a: Audit) {
    && !a.fault
    && !a.dead
    && forall i :: 0 <= i < |a.answers| ==> OutcomeOk(Reply(a.answers[i].satisfied), a.answers[i].want)
  }

  predicate Inv(s: State) {
    && RecordOk(s.rec, s.requests, s.audit.holder)
    && HeldOk(s)
    && (forall h :: h in s.requests ==> RequestOk(s.rec, s.threads, h, s.requests[h]))
    && (forall t :: t in s.threads ==> ThreadOk(s, t))
    && AuditOk(s.audit)
  }

  // ----- every step keeps it -----

  lemma StartInv()
    ensures Inv(START)
  {}

  predicate SameCancel(pc: Pc, pc': Pc) {
    pc'.Cancelling? == pc.Cancelling? && (pc.Cancelling? ==> pc'.h == pc.h)
  }

  /** The step moves or ends `t` and touches neither the record nor the requests, and of the audit
      only the trail. */
  predicate Quiet(s: State, s': State, t: Tid) {
    && t in s.threads
    && s'.rec == s.rec && s'.requests == s.requests && s'.audit == s.audit.(trail := s'.audit.trail)
    && if t in s'.threads then
         && s'.threads == s.threads[t := s'.threads[t]]
         && Owes(s'.threads[t]) == Owes(s.threads[t])
         && SameCancel(s.threads[t], s'.threads[t])
         && ThreadOk(s', t)
         && (s.audit.holder == Owed(t) ==> HolderOk(s.rec, s.requests, t, s'.threads[t]))
       else
         && s'.threads == s.threads - {t}
         && Owes(s.threads[t]) == NULL && !s.threads[t].Cancelling? && s.audit.holder != Owed(t)
  }

  lemma QuietKeepsInv(s: State, s': State, t: Tid)
    requires Inv(s) && Quiet(s, s', t)
    ensures Inv(s')
  {
    forall u | u in s'.threads ensures ThreadOk(s', u) {
      assert u != t ==> ThreadOk(s, u);
    }
  }

  /** The holder stores to record fields other than the word, in a phase nobody can claim. */
  predicate Store(s: State, s': State, t: Tid) {
    && t in s.threads && t in s'.threads
    && s.audit.holder == Owed(t)
    && s'.requests == s.requests && s'.rec.word == s.rec.word
    && s'.audit == s.audit.(trail := s'.audit.trail)
    && s'.threads == s.threads[t := s'.threads[t]]
    && Owes(s'.threads[t]) == Owes(s.threads[t])
    && SameCancel(s.threads[t], s'.threads[t])
    && ((s'.rec.slot == s.rec.slot && s'.rec.handoff == s.rec.handoff)
        || (forall h :: h in s.requests ==> s.requests[h].debtor.Owed?))
    && ThreadOk(s', t)
    && HolderOk(s'.rec, s.requests, t, s'.threads[t])
  }

  lemma StoreKeepsInv(s: State, s': State, t: Tid)
    requires Inv(s) && Store(s, s', t)
    ensures Inv(s')
  {
    forall u | u in s'.threads ensures ThreadOk(s', u) {
      assert u != t ==> ThreadOk(s, u);
    }
  }

  /** How the word may move under threads that have loaded it: the sequence never
      falls, a published record is never published again under its sequence, and
      its interest stays put while it is claimable. */
  predicate WordMoves(rec: Shared, rec': Shared) {
    var p, p' := rec.word.phase, rec'.word.phase;
    && rec.word.sequence <= rec'.word.sequence
    && (rec.word.sequence == rec'.word.sequence && !Unfinished(p) && p != Free ==>
          && p' != Free && !Unfinished(p')
          && (Claimable(p') ==> Claimable(p) && rec'.interest == rec.interest))
  }

  /** `t` decides something about request `h`: only `t`, the record and `h` change. */
  predicate Decides(s: State, s': State, t: Tid, h: Handle) {
    && (s'.threads == s.threads - {t} || (t in s'.threads && s'.threads == s.threads[t := s'.threads[t]]))
    && (s.audit.holder.Owed? && s.audit.holder.who != t ==> s'.audit.holder == s.audit.holder)
    && WordMoves(s.rec, s'.rec)
    && (s.rec.word.phase == Unmarking ==> s'.rec.word.phase == Unmarking || s.rec.slot == NULL)
    && s'.requests - {h} == s.requests - {h}
    && (h in s.requests && (h !in s'.requests || s'.requests[h] != s.requests[h]) ==>
          && (s.requests[h].debtor == Undecided || s.requests[h].debtor == Owed(t))
          && (Cancel(h) in s.threads ==> t == Cancel(h)))
    && (s'.rec == s.rec || s.rec.slot == h || s.rec.slot == NULL || s.rec.slot !in s.requests)
    && (t in s.threads ==> Owes(s.threads[t]) == NULL || Owes(s.threads[t]) == h)
    && (t.Cancel? ==> t.request == h)
  }

  lemma LocalsSurvive(rec: Shared, rec': Shared, pc: Pc)
    requires LocalsOk(rec.word, rec.interest, pc) && WordMoves(rec, rec')
    requires pc.Cancelling? && rec.word.phase == Unmarking ==> rec'.word.phase == Unmarking
    ensures LocalsOk(rec'.word, rec'.interest, pc)
  {}

  lemma TiesSurvive(s: State, s': State, t: Tid, h: Handle, u: Tid)
    requires Decides(s, s', t, h) && u in s.threads && u != t && TiesOk(s.requests, u, s.threads[u])
    ensures TiesOk(s'.requests, u, s.threads[u])
  {
    forall k | k in s.requests && k != h ensures k in s'.requests && s'.requests[k] == s.requests[k] {
      assert k in s.requests - {h} && (s.requests - {h})[k] == s.requests[k];
    }
  }

  lemma DecidesKeepsThreads(s: State, s': State, t: Tid, h: Handle, u: Tid)
    requires Inv(s) && Decides(s, s', t, h)
    requires u in s'.threads && u != t
    ensures ThreadOk(s', u)
  {
    assert ThreadOk(s, u);
    if s.threads[u].Cancelling? {
      assert RequestOk(s.rec, s.threads, s.threads[u].h, s.requests[s.threads[u].h]);
    }
    LocalsSurvive(s.rec, s'.rec, s.threads[u]);
    TiesSurvive(s, s', t, h, u);
  }

  lemma DecidesKeepsRequests(s: State, s': State, t: Tid, h: Handle, k: Handle)
    requires Inv(s) && Decides(s, s', t, h)
    requires k in s'.requests && k != h
    ensures RequestOk(s'.rec, s'.threads, k, s'.requests[k])
  {
    assert k in s'.requests - {h} && (s'.requests - {h})[k] == s'.requests[k];
    assert k in s.requests - {h} && (s.requests - {h})[k] == s.requests[k];
    assert RequestOk(s.rec, s.threads, k, s.requests[k]);
  }

  predicate Decision(s: State, s': State, t: Tid, h: Handle) {
    && Decides(s, s', t, h)
    && RecordOk(s'.rec, s'.requests, s'.audit.holder)
    && HeldOk(s')
    && AuditOk(s'.audit)
    && (h in s'.requests ==> RequestOk(s'.rec, s'.threads, h, s'.requests[h]))
    && (t in s'.threads ==> ThreadOk(s', t))
  }

  lemma DecisionKeepsInv(s: State, s': State, t: Tid, h: Handle)
    requires Inv(s) && Decision(s, s', t, h)
    ensures Inv(s')
  {
    forall u | u in s'.threads ensures ThreadOk(s', u) {
      if u != t { DecidesKeepsThreads(s, s', t, h, u); }
    }
    forall k | k in s'.requests ensures RequestOk(s'.rec, s'.threads, k, s'.requests[k]) {
      if k != h { DecidesKeepsRequests(s, s', t, h, k); }
    }
  }

  /** While the holder is not an unmarker no request is contested except through the slot. */
  lemma NothingContested(s: State)
    requires Inv(s)
    requires s.rec.slot in s.requests ==> s.requests[s.rec.slot].debtor.Owed?
    ensures forall h :: h in s.requests ==> s.requests[h].debtor.Owed?
  {}

  /** What the stepping thread itself knows. */
  predicate Knows(s: State, t: Tid) {
    && t in s.threads
    && ThreadOk(s, t)
    && RecordOk(s.rec, s.requests, s.audit.holder)
    && (s.audit.holder == Owed(t) ==> HolderOk(s.rec, s.requests, t, s.threads[t]))
  }

  lemma InvKnows(s: State, t: Tid)
    requires Inv(s) && t in s.threads
    ensures Knows(s, t)
  {
    assert ThreadOk(s, t);
  }

  /** What `t` knows when it decides about `h`. */
  predicate Sees(s: State, t: Tid, h: Handle) {
    && Knows(s, t)
    && HeldOk(s)
    && (s.audit.holder.Owed? ==> TiesOk(s.requests, s.audit.holder.who, s.threads[s.audit.holder.who]))
    && AuditOk(s.audit)
    && (h in s.requests ==> RequestOk(s.rec, s.threads, h, s.requests[h]))
  }

  lemma InvSees(s: State, t: Tid, h: Handle)
    requires Inv(s) && t in s.threads
    ensures Sees(s, t, h)
  {
    assert ThreadOk(s, t);
    assert s.audit.holder.Owed? ==> ThreadOk(s, s.audit.holder.who);
  }

  // The control dispatch, up to the mark.

  predicate RegisterStores(at: RegisterAt) {
    at.PutSlot? || at.PutInterest? || at.PutCaptureMark? || at.PutInjectionMark? || at.PutHandoff? || at.CheckAdaptive?
  }

  lemma RegisterQuiet(s: State, t: Tid, h: Handle, want: Mask, at: RegisterAt, ok: bool)
    requires Knows(s, t) && s.threads[t] == Register(h, want, at) && !RegisterStores(at)
    requires !(at.CasFree? && ok && s.rec.word == at.seen) && !(at.MarkCancelable? && ok)
    ensures Quiet(s, RegisterStep(s, t, h, want, at, ok), t)
  {}

  lemma RegisterStore(s: State, t: Tid, h: Handle, want: Mask, at: RegisterAt, ok: bool)
    requires Knows(s, t) && s.threads[t] == Register(h, want, at) && RegisterStores(at)
    requires forall k :: k in s.requests ==> s.requests[k].debtor.Owed?
    ensures Store(s, RegisterStep(s, t, h, want, at, ok), t)
  {}

  lemma BeginDecides(s: State, t: Tid, h: Handle, want: Mask, seen: Record)
    requires Sees(s, t, h) && s.threads[t] == Register(h, want, CasFree(seen)) && s.rec.word == seen
    ensures Decision(s, RegisterStep(s, t, h, want, CasFree(seen), true), t, h)
  {}

  lemma MarkDecides(s: State, t: Tid, h: Handle, want: Mask)
    requires Sees(s, t, h) && s.threads[t] == Register(h, want, MarkCancelable)
    ensures Decision(s, RegisterStep(s, t, h, want, MarkCancelable, true), t, h)
  {}

  lemma RegisterKeepsInv(s: State, t: Tid, h: Handle, want: Mask, at: RegisterAt, ok: bool)
    requires Inv(s) && t in s.threads && s.threads[t] == Register(h, want, at)
    ensures Inv(RegisterStep(s, t, h, want, at, ok))
  {
    InvKnows(s, t);
    if at.CasFree? && ok && s.rec.word == at.seen {
      InvSees(s, t, h);
      BeginDecides(s, t, h, want, at.seen);
      DecisionKeepsInv(s, RegisterStep(s, t, h, want, at, ok), t, h);
    } else if at.MarkCancelable? && ok {
      InvSees(s, t, h);
      MarkDecides(s, t, h, want);
      DecisionKeepsInv(s, RegisterStep(s, t, h, want, at, ok), t, h);
    } else if RegisterStores(at) {
      NothingContested(s);
      RegisterStore(s, t, h, want, at, ok);
      StoreKeepsInv(s, RegisterStep(s, t, h, want, at, ok), t);
    } else {
      RegisterQuiet(s, t, h, want, at, ok);
      QuietKeepsInv(s, RegisterStep(s, t, h, want, at, ok), t);
    }
  }

  // The control dispatch, after the mark.

  lemma PublishQuiet(s: State, t: Tid, h: Handle, want: Mask, at: PublishAt, ok: bool)
    requires Knows(s, t) && s.threads[t] == Publish(h, want, at)
    requires !((at.CasPending? || at.CasTeardown?) && ok && s.rec.word == at.seen)
    ensures Quiet(s, PublishStep(s, t, h, want, at, ok), t)
  {}

  lemma PendingDecides(s: State, t: Tid, h: Handle, want: Mask, seen: Record)
    requires Sees(s, t, h) && s.threads[t] == Publish(h, want, CasPending(seen)) && s.rec.word == seen
    ensures Decision(s, PublishStep(s, t, h, want, CasPending(seen), true), t, h)
  {}

  lemma HandoverDecides(s: State, t: Tid, h: Handle, want: Mask, seen: Record)
    requires Sees(s, t, h) && s.threads[t] == Publish(h, want, CasTeardown(seen)) && s.rec.word == seen
    ensures Decision(s, PublishStep(s, t, h, want, CasTeardown(seen), true), t, h)
  {}

  lemma PublishKeepsInv(s: State, t: Tid, h: Handle, want: Mask, at: PublishAt, ok: bool)
    requires Inv(s) && t in s.threads && s.threads[t] == Publish(h, want, at)
    ensures Inv(PublishStep(s, t, h, want, at, ok))
  {
    InvKnows(s, t);
    if at.CasPending? && ok && s.rec.word == at.seen {
      InvSees(s, t, h);
      PendingDecides(s, t, h, want, at.seen);
      DecisionKeepsInv(s, PublishStep(s, t, h, want, at, ok), t, h);
    } else if at.CasTeardown? && ok && s.rec.word == at.seen {
      InvSees(s, t, h);
      HandoverDecides(s, t, h, want, at.seen);
      DecisionKeepsInv(s, PublishStep(s, t, h, want, at, ok), t, h);
    } else {
      PublishQuiet(s, t, h, want, at, ok);
      QuietKeepsInv(s, PublishStep(s, t, h, want, at, ok), t);
    }
  }

  // Claims.

  lemma ClaimEndsQuiet(s: State, t: Tid, cond: Mask, expected: Handle, back: Resume, at: ClaimAt, ok: bool)
    requires Knows(s, t) && s.threads[t] == Claim(cond, expected, back, at) && (at.Gate? || at.EnqueueWork?)
    ensures Quiet(s, ClaimStep(s, t, cond, expected, back, at, ok), t)
  {}

  lemma ClaimLoadsQuiet(s: State, t: Tid, cond: Mask, expected: Handle, back: Resume, at: ClaimAt, ok: bool)
    requires Knows(s, t) && s.threads[t] == Claim(cond, expected, back, at) && (at.LoadWord? || at.CheckSlot?)
    ensures Quiet(s, ClaimStep(s, t, cond, expected, back, at, ok), t)
  {}

  lemma ClaimDecidesQuiet(s: State, t: Tid, cond: Mask, expected: Handle, back: Resume, at: ClaimAt, ok: bool)
    requires Knows(s, t) && s.threads[t] == Claim(cond, expected, back, at)
    requires at.CheckInterest? || (at.CasScheduled? && !(ok && s.rec.word == at.seen))
    ensures Quiet(s, ClaimStep(s, t, cond, expected, back, at, ok), t)
  {}

  lemma ClaimQuiet(s: State, t: Tid, cond: Mask, expected: Handle, back: Resume, at: ClaimAt, ok: bool)
    requires Knows(s, t) && s.threads[t] == Claim(cond, expected, back, at)
    requires !(at.CasScheduled? && ok && s.rec.word == at.seen)
    ensures Quiet(s, ClaimStep(s, t, cond, expected, back, at, ok), t)
  {
    if at.Gate? || at.EnqueueWork? {
      ClaimEndsQuiet(s, t, cond, expected, back, at, ok);
    } else if at.LoadWord? || at.CheckSlot? {
      ClaimLoadsQuiet(s, t, cond, expected, back, at, ok);
    } else {
      ClaimDecidesQuiet(s, t, cond, expected, back, at, ok);
    }
  }

  lemma ScheduleDecides(s: State, t: Tid, cond: Mask, expected: Handle, back: Resume, seen: Record, bits: Mask)
    requires Sees(s, t, s.rec.slot) && s.threads[t] == Claim(cond, expected, back, CasScheduled(seen, bits))
    requires s.rec.word == seen
    ensures Decision(s, ClaimStep(s, t, cond, expected, back, CasScheduled(seen, bits), true), t, s.rec.slot)
  {}

  lemma ClaimKeepsInv(s: State, t: Tid, cond: Mask, expected: Handle, back: Resume, at: ClaimAt, ok: bool)
    requires Inv(s) && t in s.threads && s.threads[t] == Claim(cond, expected, back, at)
    ensures Inv(ClaimStep(s, t, cond, expected, back, at, ok))
  {
    InvKnows(s, t);
    if at.CasScheduled? && ok && s.rec.word == at.seen {
      InvSees(s, t, s.rec.slot);
      ScheduleDecides(s, t, cond, expected, back, at.seen, at.bits);
      DecisionKeepsInv(s, ClaimStep(s, t, cond, expected, back, at, ok), t, s.rec.slot);
    } else {
      ClaimQuiet(s, t, cond, expected, back, at, ok);
      QuietKeepsInv(s, ClaimStep(s, t, cond, expected, back, at, ok), t);
    }
  }

  // Retirement and completion.

  lemma FinishStore(s: State, t: Tid, after: After, at: FinishAt)
    requires Knows(s, t) && s.threads[t] == Finish(after, at) && !at.StoreFree?
    requires forall k :: k in s.requests ==> s.requests[k].debtor.Owed?
    ensures Store(s, FinishStep(s, t, after, at), t)
  {}

  lemma RetireDecides(s: State, t: Tid, after: After, seen: Record)
    requires Sees(s, t, AfterHandle(after)) && s.threads[t] == Finish(after, StoreFree(seen))
    ensures Decision(s, FinishStep(s, t, after, StoreFree(seen)), t, AfterHandle(after))
  {}

  lemma FinishKeepsInv(s: State, t: Tid, after: After, at: FinishAt)
    requires Inv(s) && t in s.threads && s.threads[t] == Finish(after, at)
    ensures Inv(FinishStep(s, t, after, at))
  {
    InvKnows(s, t);
    if at.StoreFree? {
      InvSees(s, t, AfterHandle(after));
      RetireDecides(s, t, after, at.seen);
      DecisionKeepsInv(s, FinishStep(s, t, after, at), t, AfterHandle(after));
    } else {
      NothingContested(s);
      FinishStore(s, t, after, at);
      StoreKeepsInv(s, FinishStep(s, t, after, at), t);
    }
  }

  lemma CompleteDecides(s: State, t: Tid, h: Handle, outcome: Outcome, ok: bool)
    requires Sees(s, t, h) && s.threads[t] == Complete(h, outcome)
    ensures Decision(s, CompleteStep(s, t, h, outcome, ok), t, h)
  {}

  // The unmark handshake.

  lemma UnmarkGrantedDecides(s: State, t: Tid, h: Handle, outcome: Outcome, ok: bool)
    requires Sees(s, t, h) && s.threads[t] == Unmark(h, CallUnmark(outcome))
    requires h in s.requests && s.requests[h].status == Marked
    ensures Decision(s, UnmarkStep(s, t, h, CallUnmark(outcome), ok), t, h)
  {}

  lemma UnmarkCallDecides(s: State, t: Tid, h: Handle, outcome: Outcome, ok: bool)
    requires Sees(s, t, h) && s.threads[t] == Unmark(h, CallUnmark(outcome))
    ensures Decision(s, UnmarkStep(s, t, h, CallUnmark(outcome), ok), t, h)
  {
    if h in s.requests && s.requests[h].status == Marked {
      UnmarkGrantedDecides(s, t, h, outcome, ok);
    }
  }

  lemma UnmarkSwapDecides(s: State, t: Tid, h: Handle)
    requires Sees(s, t, h) && s.threads[t] == Unmark(h, SwapHandoff)
    ensures Decision(s, UnmarkStep(s, t, h, SwapHandoff, true), t, h)
  {}

  lemma UnmarkKeepsInv(s: State, t: Tid, h: Handle, at: UnmarkAt, ok: bool)
    requires Inv(s) && t in s.threads && s.threads[t] == Unmark(h, at)
    ensures Inv(UnmarkStep(s, t, h, at, ok))
  {
    InvSees(s, t, h);
    match at {
      case CallUnmark(outcome) => UnmarkCallDecides(s, t, h, outcome, ok);
      case SwapHandoff => UnmarkSwapDecides(s, t, h);
    }
    DecisionKeepsInv(s, UnmarkStep(s, t, h, at, ok), t, h);
  }

  // Teardown.

  lemma TeardownScanQuiet(s: State, t: Tid, at: TeardownAt, ok: bool)
    requires Knows(s, t) && s.threads[t] == Tear(at)
    requires at.ReadSlot? || at.LoadFrom? || (at.CasFrom? && !(ok && s.rec.word == at.seen))
    ensures Quiet(s, TeardownStep(s, t, at, ok), t)
  {}

  lemma TeardownQuiet(s: State, t: Tid, at: TeardownAt, ok: bool)
    requires Knows(s, t) && s.threads[t] == Tear(at)
    requires !(at.CasFrom? && ok && s.rec.word == at.seen)
    ensures Quiet(s, TeardownStep(s, t, at, ok), t)
  {
    if at.ReadSlot? || at.LoadFrom? || at.CasFrom? {
      TeardownScanQuiet(s, t, at, ok);
    } else {
      assert s.threads == s.threads[t := s.threads[t]];
    }
  }

  lemma TeardownEarlyDecides(s: State, t: Tid, expected: Handle)
    requires Sees(s, t, s.rec.slot) && s.threads[t] == Tear(CasFrom(expected, Registering, s.rec.word))
    ensures Decision(s, TeardownStep(s, t, CasFrom(expected, Registering, s.rec.word), true), t, s.rec.slot)
  {}

  lemma TeardownPublishedDecides(s: State, t: Tid, expected: Handle, from: Phase)
    requires Sees(s, t, s.rec.slot) && s.threads[t] == Tear(CasFrom(expected, from, s.rec.word)) && Claimable(from)
    ensures Decision(s, TeardownStep(s, t, CasFrom(expected, from, s.rec.word), true), t, s.rec.slot)
  {}

  lemma TeardownKeepsInv(s: State, t: Tid, at: TeardownAt, ok: bool)
    requires Inv(s) && t in s.threads && s.threads[t] == Tear(at)
    ensures Inv(TeardownStep(s, t, at, ok))
  {
    InvKnows(s, t);
    if at.CasFrom? && ok && s.rec.word == at.seen {
      InvSees(s, t, s.rec.slot);
      if at.from == Registering {
        TeardownEarlyDecides(s, t, at.expected);
      } else {
        TeardownPublishedDecides(s, t, at.expected, at.from);
      }
      DecisionKeepsInv(s, TeardownStep(s, t, at, ok), t, s.rec.slot);
    } else {
      TeardownQuiet(s, t, at, ok);
      QuietKeepsInv(s, TeardownStep(s, t, at, ok), t);
    }
  }

  // The passive worker.

  lemma WorkerTakesQuiet(s: State, t: Tid, at: WorkAt, ok: bool)
    requires Knows(s, t) && s.threads[t] == Work(at)
    requires at.LoadScheduled? || at.TakeSlot? || (at.CasUnmarking? && !(ok && s.rec.word == at.seen))
    ensures Quiet(s, WorkerStep(s, t, at, ok), t)
  {}

  lemma WorkerLooksQuiet(s: State, t: Tid, at: WorkAt, ok: bool)
    requires Knows(s, t) && s.threads[t] == Work(at)
    requires !(at.LoadScheduled? || at.TakeSlot? || at.CasUnmarking?)
    ensures Quiet(s, WorkerStep(s, t, at, ok), t)
  {}

  lemma WorkerQuiet(s: State, t: Tid, at: WorkAt, ok: bool)
    requires Knows(s, t) && s.threads[t] == Work(at)
    requires !(at.CasUnmarking? && ok && s.rec.word == at.seen)
    ensures Quiet(s, WorkerStep(s, t, at, ok), t)
  {
    if at.LoadScheduled? || at.TakeSlot? || at.CasUnmarking? {
      WorkerTakesQuiet(s, t, at, ok);
    } else {
      WorkerLooksQuiet(s, t, at, ok);
    }
  }

  lemma WorkerCasDecides(s: State, t: Tid, seen: Record)
    requires Sees(s, t, s.rec.slot) && s.threads[t] == Work(CasUnmarking(seen)) && s.rec.word == seen
    ensures Decision(s, WorkerStep(s, t, CasUnmarking(seen), true), t, s.rec.slot)
  {}

  lemma WorkerKeepsInv(s: State, t: Tid, at: WorkAt, ok: bool)
    requires Inv(s) && t in s.threads && s.threads[t] == Work(at)
    ensures Inv(WorkerStep(s, t, at, ok))
  {
    InvKnows(s, t);
    if at.CasUnmarking? && ok && s.rec.word == at.seen {
      InvSees(s, t, s.rec.slot);
      WorkerCasDecides(s, t, at.seen);
      DecisionKeepsInv(s, WorkerStep(s, t, at, ok), t, s.rec.slot);
    } else {
      WorkerQuiet(s, t, at, ok);
      QuietKeepsInv(s, WorkerStep(s, t, at, ok), t);
    }
  }

  // The cancellation callback.

  lemma CancelQuiet(s: State, t: Tid, h: Handle, at: CancelAt, ok: bool)
    requires Knows(s, t) && s.threads[t] == Cancelling(h, at)
    requires s.rec.slot == h && s.rec.word.phase != Free && s.rec.word.phase != Cancelled
    requires !(at.CasCancelled? && ok && s.rec.word == at.seen) && !at.SwapArrived?
    ensures Quiet(s, CancelStep(s, t, h, at, ok), t)
  {}

  lemma CancelEarlyDecides(s: State, t: Tid, h: Handle, from: Phase)
    requires Sees(s, t, h) && s.threads[t] == Cancelling(h, CasCancelled(from, s.rec.word))
    requires Unfinished(from)
    ensures Decision(s, CancelStep(s, t, h, CasCancelled(from, s.rec.word), true), t, h)
  {}

  lemma CancelPublishedDecides(s: State, t: Tid, h: Handle, from: Phase)
    requires Sees(s, t, h) && s.threads[t] == Cancelling(h, CasCancelled(from, s.rec.word))
    requires Claimable(from)
    ensures Decision(s, CancelStep(s, t, h, CasCancelled(from, s.rec.word), true), t, h)
  {}

  lemma CancelSwapDecides(s: State, t: Tid, h: Handle)
    requires Sees(s, t, h) && s.threads[t] == Cancelling(h, SwapArrived)
    ensures Decision(s, CancelStep(s, t, h, SwapArrived, true), t, h)
  {}

  lemma CancelKeepsInv(s: State, t: Tid, h: Handle, at: CancelAt, ok: bool)
    requires Inv(s) && t in s.threads && s.threads[t] == Cancelling(h, at)
    ensures Inv(CancelStep(s, t, h, at, ok))
  {
    InvSees(s, t, h);
    if at.CasCancelled? && ok && s.rec.word == at.seen {
      if Unfinished(at.from) {
        CancelEarlyDecides(s, t, h, at.from);
      } else {
        CancelPublishedDecides(s, t, h, at.from);
      }
      DecisionKeepsInv(s, CancelStep(s, t, h, at, ok), t, h);
    } else if at.SwapArrived? {
      CancelSwapDecides(s, t, h);
      DecisionKeepsInv(s, CancelStep(s, t, h, at, ok), t, h);
    } else {
      CancelQuiet(s, t, h, at, ok);
      QuietKeepsInv(s, CancelStep(s, t, h, at, ok), t);
    }
  }

  // Packet paths.

  lemma PacketQuiet(s: State, t: Tid, at: PacketAt, ok: bool)
    requires Knows(s, t) && s.threads[t] == Packet(at)
    ensures Quiet(s, PacketStep(s, t, at, ok), t)
  {}

  lemma PacketKeepsInv(s: State, t: Tid, at: PacketAt, ok: bool)
    requires Inv(s) && t in s.threads && s.threads[t] == Packet(at)
    ensures Inv(PacketStep(s, t, at, ok))
  {
    InvKnows(s, t);
    PacketQuiet(s, t, at, ok);
    QuietKeepsInv(s, PacketStep(s, t, at, ok), t);
  }

  lemma ThreadKeepsInv(s: State, t: Tid, ok: bool)
    requires Inv(s) && t in s.threads
    ensures Inv(ThreadStep(s, t, ok))
  {
    match s.threads[t]
    case Register(h, want, at) => RegisterKeepsInv(s, t, h, want, at, ok);
    case Publish(h, want, at) => PublishKeepsInv(s, t, h, want, at, ok);
    case Claim(cond, expected, back, at) => ClaimKeepsInv(s, t, cond, expected, back, at, ok);
    case Finish(after, at) => FinishKeepsInv(s, t, after, at);
    case Complete(h, outcome) =>
      InvSees(s, t, h);
      CompleteDecides(s, t, h, outcome, ok);
      DecisionKeepsInv(s, CompleteStep(s, t, h, outcome, ok), t, h);
    case Unmark(h, at) => UnmarkKeepsInv(s, t, h, at, ok);
    case Tear(at) => TeardownKeepsInv(s, t, at, ok);
    case Work(at) => WorkerKeepsInv(s, t, at, ok);
    case Cancelling(h, at) => CancelKeepsInv(s, t, h, at, ok);
    case Packet(at) => PacketKeepsInv(s, t, at, ok);
  }

  // ----- the environment -----

  lemma DispatchWaitDecides(s: State, h: Handle, want: Mask, sender: nat)
    requires Enabled(s, DispatchWait(h, want, sender))
    requires RecordOk(s.rec, s.requests, s.audit.holder) && HeldOk(s) && AuditOk(s.audit)
    requires s.audit.holder.Owed? ==> TiesOk(s.requests, s.audit.holder.who, s.threads[s.audit.holder.who])
    requires Cancel(h) !in s.threads
    ensures Decision(s, Exec(s, DispatchWait(h, want, sender)), Control, h)
  {}

  lemma DispatchWaitKeepsInv(s: State, h: Handle, want: Mask, sender: nat)
    requires Inv(s) && Enabled(s, DispatchWait(h, want, sender))
    ensures Inv(Exec(s, DispatchWait(h, want, sender)))
  {
    assert s.audit.holder.Owed? ==> ThreadOk(s, s.audit.holder.who);
    assert Cancel(h) in s.threads ==> ThreadOk(s, Cancel(h));
    DispatchWaitDecides(s, h, want, sender);
    DecisionKeepsInv(s, Exec(s, DispatchWait(h, want, sender)), Control, h);
  }

  lemma DispatchCancelKeepsInv(s: State, h: Handle)
    requires Inv(s) && Enabled(s, DispatchCancel(h))
    ensures Inv(Exec(s, DispatchCancel(h)))
  {
    assert RequestOk(s.rec, s.threads, h, s.requests[h]);
    DecisionKeepsInv(s, Exec(s, DispatchCancel(h)), Cancel(h), h);
  }

  /** A thread that starts with nothing but its stack. */
  lemma SpawnKeepsInv(s: State, s': State, t: Tid)
    requires Inv(s) && t !in s.threads && t in s'.threads && !t.Cancel?
    requires s'.threads == s.threads[t := s'.threads[t]]
    requires s'.rec == s.rec && s'.requests == s.requests && s'.audit == s.audit
    requires Owes(s'.threads[t]) == NULL && ThreadOk(s', t)
    ensures Inv(s')
  {
    forall u | u in s'.threads ensures ThreadOk(s', u) {
      assert u != t ==> ThreadOk(s, u);
    }
  }

  /** Queue and device changes are not part of the invariant. */
  lemma SurroundingsKeepInv(s: State, s': State)
    requires Inv(s)
    requires s'.threads == s.threads && s'.rec == s.rec && s'.requests == s.requests
    requires s'.audit == s.audit.(trail := s'.audit.trail)
    ensures Inv(s')
  {
    forall u | u in s'.threads ensures ThreadOk(s', u) {
      assert ThreadOk(s, u);
    }
  }

  /** The thread an action starts empty-handed, if it starts one. */
  predicate Starts(a: Action) {
    a.DispatchStop? || a.StartWorker? || a.LoopWorker? || a.StartProducer? || a.StartReceive? || a.StartTeardown?
  }

  lemma StartTearKeepsInv(s: State, a: Action)
    requires Inv(s) && Enabled(s, a) && (a.DispatchStop? || a.StartTeardown?)
    ensures Inv(Exec(s, a))
  {
    SpawnKeepsInv(s, Exec(s, a), if a.DispatchStop? then Control else Closer(a.n));
  }

  lemma StartKeepsInv(s: State, a: Action)
    requires Inv(s) && Enabled(s, a) && Starts(a)
    ensures Inv(Exec(s, a))
  {
    if a.StartWorker? || a.LoopWorker? {
      SpawnKeepsInv(s, Exec(s, a), Worker(a.n));
    } else if a.StartProducer? || a.StartReceive? {
      SpawnKeepsInv(s, Exec(s, a), if a.StartProducer? then Producer(a.n) else Rx);
    } else {
      StartTearKeepsInv(s, a);
    }
  }

  lemma ActionKeepsInv(s: State, a: Action)
    requires Inv(s) && Enabled(s, a)
    ensures Inv(Exec(s, a))
  {
    if a.Step? {
      ThreadKeepsInv(s, a.t, a.ok);
    } else if a.DispatchWait? {
      DispatchWaitKeepsInv(s, a.h, a.want, a.sender);
    } else if a.DispatchCancel? {
      DispatchCancelKeepsInv(s, a.h);
    } else if Starts(a) {
      StartKeepsInv(s, a);
    } else {
      SurroundingsKeepInv(s, Exec(s, a));
    }
  }

  lemma NextKeepsInv(s: State, s': State)
    requires Inv(s) && Next(s, s')
    ensures Inv(s')
  {
    var a :| Enabled(s, a) && s' == Exec(s, a);
    ActionKeepsInv(s, a);
  }

  lemma RunKeepsInv(run: seq<State>, i: nat)
    requires IsRun(run) && i < |run|
    ensures Inv(run[i])
  {
    StartInv();
    forall s, s' | Inv(s) && Next(s, s') ensures Inv(s') {
      NextKeepsInv(s, s');
    }
    Runs.Induction(run, i, START, Next, s => Inv(s));
  }

  // ----- what it gives -----

  /** No request is ever completed twice, completed while cancelable, marked,
      unmarked or inspected after completion; and the driver's defensive branches
      (slot already taken, null slot after a claim, inactive request in the
      cancellation callback, unexpected phase) never run. */
  lemma ContractNeverBroken(run: seq<State>, i: nat)
    requires IsRun(run) && i < |run|
    ensures !run[i].audit.fault && !run[i].audit.dead
  {
    RunKeepsInv(run, i);
  }

  /** `t` is bound to retire the record. */
  predicate Retires(s: State, t: Tid)
    requires t in s.threads
  {
    || Holds(s.threads[t])
    || (s.threads[t].Cancelling? && s.rec.word.phase == Unmarking && s.rec.handoff == UnmarkCancelled)
  }

  /** `h` is settled on exactly one running thread. */
  ghost predicate SettledOnOne(s: State, h: Handle) {
    exists t :: && t in s.threads && Owes(s.threads[t]) == h
                && forall u :: u in s.threads && Owes(s.threads[u]) == h ==> u == t
  }

  /** The record must be retired by exactly one running thread. */
  ghost predicate RetiredByOne(s: State) {
    exists t :: && t in s.threads && Retires(s, t)
                && forall u :: u in s.threads && Retires(s, u) ==> u == t
  }

  /** Every live request has one agent that still owes its completion, or it is the
      published wait: then nobody owes it yet, it is cancelable, and either the
      record is up for a single-winner claim or one thread is bound to retire it. */
  lemma EveryRequestIsOwed(run: seq<State>, i: nat, h: Handle)
    requires IsRun(run) && i < |run| && h in run[i].requests
    ensures var s := run[i];
            || SettledOnOne(s, h)
            || (&& s.rec.slot == h
                && s.requests[h].status in {Marked, Dispatched}
                && (forall t :: t in s.threads ==> Owes(s.threads[t]) != h)
                && (Claimable(s.rec.word.phase) || RetiredByOne(s)))
  {
    RunKeepsInv(run, i);
    var s := run[i];
    assert RequestOk(s.rec, s.threads, h, s.requests[h]);
    forall t | t in s.threads && Owes(s.threads[t]) == h ensures s.requests[h].debtor == Owed(t) {
      assert ThreadOk(s, t);
    }
    if s.requests[h].debtor == Undecided && !Claimable(s.rec.word.phase) {
      var t := s.audit.holder.who;
      forall u | u in s.threads && Retires(s, u) ensures u == t {
        assert ThreadOk(s, u);
      }
      assert ThreadOk(s, t);
      assert Retires(s, t);
    }
  }

  /** Never stuck busy: with no thread in flight the record is free and empty, or one
      live request is published and marked; and no other request is outstanding. */
  lemma QuietMeansFreeOrPublished(run: seq<State>, i: nat)
    requires IsRun(run) && i < |run| && run[i].threads == map[]
    ensures var s := run[i];
            if s.rec.word.phase == Free
            then s.rec.slot == NULL && s.requests == map[]
            else && Claimable(s.rec.word.phase)
                 && s.requests.Keys == {s.rec.slot}
                 && s.requests[s.rec.slot].status == Marked
  {
    RunKeepsInv(run, i);
    var s := run[i];
    forall h | h in s.requests ensures h == s.rec.slot && s.rec.word.phase != Free && s.requests[h].status == Marked {
      assert RequestOk(s.rec, s.threads, h, s.requests[h]);
    }
    assert s.rec.word.phase != Free ==> s.rec.slot in s.requests;
  }

  /** Every successful reply names at least one bit, all of them asked for. */
  lemma RepliesStayInInterest(run: seq<State>, i: nat, k: nat)
    requires IsRun(run) && i < |run| && k < |run[i].audit.answers|
    ensures var a := run[i].audit.answers[k]; !a.satisfied.Empty() && a.satisfied.Within(a.want)
  {
    RunKeepsInv(run, i);
  }

  // ----- claim isolation -----

  /** The record is retired or begun between `s` and `s'`. */
  predicate Renewed(s: State, s': State) {
    (s.rec.word.phase == Free) != (s'.rec.word.phase == Free)
  }

  predicate SequenceMoves(word: Record, word': Record) {
    && word.sequence <= word'.sequence
    && ((word.phase == Free) != (word'.phase == Free) ==> word.sequence < word'.sequence)
  }

  lemma RegistrarSequence(s: State, t: Tid, ok: bool)
    requires Knows(s, t) && (s.threads[t].Register? || s.threads[t].Publish? || s.threads[t].Finish?)
    ensures SequenceMoves(s.rec.word, ThreadStep(s, t, ok).rec.word)
  {}

  lemma ClaimantSequence(s: State, t: Tid, ok: bool)
    requires Knows(s, t) && (s.threads[t].Claim? || s.threads[t].Work?)
    ensures SequenceMoves(s.rec.word, ThreadStep(s, t, ok).rec.word)
  {}

  lemma CancelSequence(s: State, t: Tid, ok: bool)
    requires Knows(s, t) && (s.threads[t].Tear? || s.threads[t].Cancelling?)
    ensures SequenceMoves(s.rec.word, ThreadStep(s, t, ok).rec.word)
  {}

  lemma OtherSequence(s: State, t: Tid, ok: bool)
    requires Knows(s, t) && (s.threads[t].Unmark? || s.threads[t].Complete? || s.threads[t].Packet?)
    ensures SequenceMoves(s.rec.word, ThreadStep(s, t, ok).rec.word)
  {}

  lemma ThreadSequence(s: State, t: Tid, ok: bool)
    requires Knows(s, t)
    ensures SequenceMoves(s.rec.word, ThreadStep(s, t, ok).rec.word)
  {
    var pc := s.threads[t];
    if pc.Register? || pc.Publish? || pc.Finish? {
      RegistrarSequence(s, t, ok);
    } else if pc.Claim? || pc.Work? {
      ClaimantSequence(s, t, ok);
    } else if pc.Tear? || pc.Cancelling? {
      CancelSequence(s, t, ok);
    } else {
      OtherSequence(s, t, ok);
    }
  }

  lemma ActionSequence(s: State, a: Action)
    requires Enabled(s, a) && (a.Step? ==> Knows(s, a.t))
    ensures SequenceMoves(s.rec.word, Exec(s, a).rec.word)
  {
    if a.Step? {
      ThreadSequence(s, a.t, a.ok);
    }
  }

  lemma SequenceStep(s: State, s': State)
    requires Inv(s) && Next(s, s')
    ensures SequenceMoves(s.rec.word, s'.rec.word)
  {
    var a :| Enabled(s, a) && s' == Exec(s, a);
    if a.Step? {
      InvKnows(s, a.t);
    }
    ActionSequence(s, a);
  }

  /** The sequence never falls, and rises whenever a record is begun or retired. */
  lemma {:induction false} SequenceRises(run: seq<State>, i: nat, j: nat)
    requires IsRun(run) && i <= j < |run|
    ensures run[i].rec.word.sequence <= run[j].rec.word.sequence
  {
    if i < j {
      SequenceRises(run, i, j - 1);
      RunKeepsInv(run, j - 1);
      StepOfRun(run, j - 1);
      SequenceStep(run[j - 1], run[j]);
    }
  }

  lemma RenewalRaisesSequence(run: seq<State>, i: nat, j: nat, k: nat)
    requires IsRun(run) && i <= k < j < |run|
    requires Renewed(run[k], run[k + 1])
    ensures run[i].rec.word.sequence < run[j].rec.word.sequence
  {
    SequenceRises(run, i, k);
    RunKeepsInv(run, k);
    StepOfRun(run, k);
    SequenceStep(run[k], run[k + 1]);
    SequenceRises(run, k + 1, j);
  }

  /** A claimant that loaded its word before the registration was retired can neither
      schedule a later registration nor add bits to it: its compare-exchange fails,
      on records and, within 2^48 bumps, on packed words. */
  lemma StaleClaimFails(run: seq<State>, i: nat, j: nat, k: nat, t: Tid, ok: bool)
    requires IsRun(run) && i <= k < j < |run|
    requires Renewed(run[k], run[k + 1])
    requires t in run[j].threads && run[j].threads[t].Claim? && run[j].threads[t].claim.CasScheduled?
    requires run[j].threads[t].claim.seen == run[i].rec.word
    ensures ThreadStep(run[j], t, ok).rec == run[j].rec
    ensures run[j].rec.word.sequence < run[i].rec.word.sequence + SEQUENCE_RANGE ==>
              Pack(run[j].rec.word) != Pack(run[i].rec.word)
  {
    RenewalRaisesSequence(run, i, j, k);
    if run[j].rec.word.sequence < run[i].rec.word.sequence + SEQUENCE_RANGE {
      WordsApart(run[i].rec.word, run[j].rec.word);
    }
  }

  lemma WordsApart(a: Record, b: Record)
    requires a.sequence < b.sequence < a.sequence + SEQUENCE_RANGE
    ensures Pack(a) != Pack(b)
  {
    SameWordIff(a, b);
  }
}
