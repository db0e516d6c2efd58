/** Stopping one request: the control queue asks for a request it still holds, and the stop
    claims the wait of that request and of no other. */
module WaitStop {
  import opened WaitRecord
  import opened WaitModel
  import opened WaitOwnership
  import opened WaitWakeup
  import opened WaitRefusal
  import opened WaitGrounds

  /** The request is one that a registration or a publication still offers. */
  predicate Awaits(s: State, h: Handle) {
    h != NULL && s.rec.slot == h && (s.rec.word.phase == Registering || Claimable(s.rec.word.phase))
  }

  /** The request a teardown is told to stop, or NULL for whichever is there. */
  function Target(at: TeardownAt): Handle {
    match at
    case StopSlot(h) => h
    case LoadPhase(h) => h
    case ReadSlot(h, _) => h
    case LoadFrom(h, _) => h
    case CasFrom(h, _, _) => h
    case _ => NULL
  }

  predicate Stops(s: State, h: Handle) {
    && h != NULL && Control in s.threads && s.threads[Control].Tear?
    && Target(s.threads[Control].td) == h
  }

  /** The stop has looked at the slot and is about to claim. */
  predicate Looked(s: State, h: Handle) {
    Stops(s, h) && (s.threads[Control].td.LoadFrom? || s.threads[Control].td.CasFrom?)
  }

  // ----- only a registration offers a request -----

  /** For a thread that registers nothing the slot can only empty, and what is offered
      after its step was offered before. */
  predicate OffersNothing(s: State, s': State, t: Tid) {
    && (s'.rec.slot == s.rec.slot || s'.rec.slot == NULL)
    && (s'.rec.word.phase == Registering || Claimable(s'.rec.word.phase) ==>
          s.rec.word.phase == Registering || Claimable(s.rec.word.phase))
    && (t in s'.threads ==> !s'.threads[t].Register?)
  }

  predicate Simple(s: State, t: Tid) {
    t in s.threads && LocalsOk(s.rec.word, s.rec.interest, s.threads[t])
  }

  lemma CompletersOffer(s: State, t: Tid, ok: bool)
    requires Simple(s, t)
    requires s.threads[t].Publish? || s.threads[t].Finish? || s.threads[t].Complete? || s.threads[t].Unmark?
    ensures var s' := ThreadStep(s, t, ok); OffersNothing(s, s', t) && (t in s'.threads ==> !s'.threads[t].Tear?)
  {}

  lemma ClaimersOffer(s: State, t: Tid, ok: bool)
    requires Simple(s, t) && s.threads[t].Claim?
    ensures var s' := ThreadStep(s, t, ok); OffersNothing(s, s', t) && (t in s'.threads ==> !s'.threads[t].Tear?)
  {}

  lemma WorkersOffer(s: State, t: Tid, ok: bool)
    requires Simple(s, t) && (s.threads[t].Work? || s.threads[t].Packet?)
    ensures var s' := ThreadStep(s, t, ok); OffersNothing(s, s', t) && (t in s'.threads ==> !s'.threads[t].Tear?)
  {}

  lemma EndersOffer(s: State, t: Tid, ok: bool)
    requires Simple(s, t) && (s.threads[t].Tear? || s.threads[t].Cancelling?)
    ensures var s' := ThreadStep(s, t, ok);
            OffersNothing(s, s', t) && (t in s'.threads && s'.threads[t].Tear? ==> s.threads[t].Tear?)
  {}

  lemma ThreadOffers(s: State, t: Tid, ok: bool)
    requires Simple(s, t) && !s.threads[t].Register?
    ensures var s' := ThreadStep(s, t, ok);
            OffersNothing(s, s', t) && (t in s'.threads && s'.threads[t].Tear? ==> s.threads[t].Tear?)
  {
    if s.threads[t].Claim? {
      ClaimersOffer(s, t, ok);
    } else if s.threads[t].Work? || s.threads[t].Packet? {
      WorkersOffer(s, t, ok);
    } else if s.threads[t].Tear? || s.threads[t].Cancelling? {
      EndersOffer(s, t, ok);
    } else {
      CompletersOffer(s, t, ok);
    }
  }

  lemma RegistrarOffers(s: State, t: Tid, ok: bool)
    requires t in s.threads && s.threads[t].Register? && (s.rec.word.phase == Free ==> s.rec.slot == NULL)
    requires s.threads[t].reg.CasFree? ==> s.threads[t].reg.seen.phase == Free
    ensures var s', g := ThreadStep(s, t, ok), s.threads[t].h;
            && (s'.rec.slot == s.rec.slot || s'.rec.slot == g)
            && (s'.rec.word == s.rec.word || s'.rec.slot == NULL)
            && (t in s'.threads ==> !s'.threads[t].Tear? && (s'.threads[t].Register? ==> s'.threads[t].h == g))
  {}

  lemma ActionKeepsRec(s: State, a: Action)
    requires Enabled(s, a) && !a.Step?
    ensures Exec(s, a).rec == s.rec
  {}

  /** A look that finds the request leads to the claim. */
  lemma StopLooks(s: State, ok: bool, h: Handle)
    requires Control in s.threads && Looked(ThreadStep(s, Control, ok), h) && s.threads[Control].Tear?
    ensures Looked(s, h) || s.rec.slot == h
    ensures ThreadStep(s, Control, ok).rec.slot == s.rec.slot
  {}

  /** Nobody offers the request and nobody is about to. */
  predicate Dormant(s: State, h: Handle) {
    !Awaits(s, h) && !(Control in s.threads && s.threads[Control].Register? && s.threads[Control].h == h)
  }

  predicate Dispatches(s: State, s': State, h: Handle) {
    && Control !in s.threads
    && Control in s'.threads && s'.threads[Control].Register? && s'.threads[Control].h == h
  }

  // ----- one step -----

  lemma StepStaysDormant(s: State, t: Tid, ok: bool, h: Handle)
    requires Inv(s) && t in s.threads && Dormant(s, h) && h != NULL
    ensures Dormant(ThreadStep(s, t, ok), h)
  {
    InvKnows(s, t);
    assert ThreadOk(s, t);
    ThreadDescends(s, t, ok);
    var s' := ThreadStep(s, t, ok);
    if s.threads[t].Register? {
      RegistrarOffers(s, t, ok);
    } else {
      ThreadOffers(s, t, ok);
      if t != Control {
        Others(s, s', t, Control);
      }
    }
  }

  lemma ActionStaysDormant(s: State, a: Action, h: Handle)
    requires Inv(s) && Enabled(s, a) && !a.Step? && Dormant(s, h) && !Dispatches(s, Exec(s, a), h)
    ensures Dormant(Exec(s, a), h)
  {
    ActionKeepsRec(s, a);
    if a.DispatchCancel? {
      ActionMoves(s, a);
    }
    if Control in s.threads {
      OthersUntouched(s, a, Control);
    }
  }

  lemma StaysDormant(s: State, s': State, h: Handle)
    requires Inv(s) && Next(s, s') && h != NULL && Dormant(s, h) && !Dispatches(s, s', h)
    ensures Dormant(s', h)
  {
    var a :| Enabled(s, a) && s' == Exec(s, a);
    if a.Step? {
      StepStaysDormant(s, a.t, a.ok, h);
    } else {
      ActionStaysDormant(s, a, h);
    }
  }

  /** The slot holds the request a stop has looked for, or nothing. */
  predicate SlotIsFor(s: State, h: Handle) { s.rec.slot == h || s.rec.slot == NULL }

  lemma StepKeepsSlot(s: State, t: Tid, ok: bool, h: Handle)
    requires Inv(s) && t in s.threads && Looked(ThreadStep(s, t, ok), h) && (Looked(s, h) ==> SlotIsFor(s, h))
    ensures SlotIsFor(ThreadStep(s, t, ok), h)
  {
    InvKnows(s, t);
    assert ThreadOk(s, t);
    ThreadDescends(s, t, ok);
    if s.threads[t].Register? {
      RegistrarOffers(s, t, ok);
    } else {
      ThreadOffers(s, t, ok);
      if t == Control {
        StopLooks(s, ok, h);
      } else {
        Others(s, ThreadStep(s, t, ok), t, Control);
      }
    }
  }

  lemma ActionKeepsSlot(s: State, a: Action, h: Handle)
    requires Inv(s) && Enabled(s, a) && !a.Step? && Looked(Exec(s, a), h) && (Looked(s, h) ==> SlotIsFor(s, h))
    ensures SlotIsFor(Exec(s, a), h)
  {
    ActionKeepsRec(s, a);
    if a.DispatchCancel? {
      ActionMoves(s, a);
    }
    if Control in s.threads {
      OthersUntouched(s, a, Control);
    }
  }

  lemma LookKeepsSlot(s: State, s': State, h: Handle)
    requires Inv(s) && Next(s, s') && Looked(s', h) && (Looked(s, h) ==> SlotIsFor(s, h))
    ensures SlotIsFor(s', h)
  {
    var a :| Enabled(s, a) && s' == Exec(s, a);
    if a.Step? {
      StepKeepsSlot(s, a.t, a.ok, h);
    } else {
      ActionKeepsSlot(s, a, h);
    }
  }

  /** The stop's own step: it goes on until the request is no longer offered. */
  lemma StopStep(s: State, ok: bool, h: Handle)
    requires Inv(s) && Stops(s, h) && !Stops(ThreadStep(s, Control, ok), h)
    ensures Dormant(ThreadStep(s, Control, ok), h)
  {
    assert ThreadOk(s, Control);
  }

  // ----- whole runs -----

  lemma {:induction false} LookedFor(run: seq<State>, k: nat, h: Handle)
    requires IsRun(run) && k < |run| && Looked(run[k], h)
    ensures SlotIsFor(run[k], h)
    decreases k
  {
    if k > 0 {
      if Looked(run[k - 1], h) {
        LookedFor(run, k - 1, h);
      }
      StepOfRun(run, k - 1);
      RunKeepsInv(run, k - 1);
      LookKeepsSlot(run[k - 1], run[k], h);
    }
  }

  lemma StopClaims(s: State, ok: bool, h: Handle)
    requires Stops(s, h) && ThreadStep(s, Control, ok).rec != s.rec
    ensures Looked(s, h)
  {}

  /** A stop claims the wait of its own request and no other. */
  lemma StopSparesOthers(run: seq<State>, k: nat, ok: bool, h: Handle)
    requires IsRun(run) && k + 1 < |run| && Stops(run[k], h) && run[k + 1] == ThreadStep(run[k], Control, ok)
    requires run[k + 1].rec != run[k].rec
    ensures run[k].rec.slot == h || run[k].rec.slot == NULL
  {
    StopClaims(run[k], ok, h);
    LookedFor(run, k, h);
  }

  lemma RunStaysDormant(run: seq<State>, j: nat, h: Handle)
    requires IsRun(run) && j + 1 < |run| && h != NULL && Dormant(run[j], h) && !Dispatches(run[j], run[j + 1], h)
    ensures Dormant(run[j + 1], h)
  {
    RunKeepsInv(run, j);
    StepOfRun(run, j);
    StaysDormant(run[j], run[j + 1], h);
  }

  lemma StopIsThrough(run: seq<State>, k: nat, ok: bool, h: Handle)
    requires IsRun(run) && k + 1 < |run| && Stops(run[k], h) && run[k + 1] == ThreadStep(run[k], Control, ok)
    requires !Stops(run[k + 1], h)
    ensures Dormant(run[k + 1], h)
  {
    RunKeepsInv(run, k);
    StopStep(run[k], ok, h);
  }

  /** A stop of a request ends its wait. From the step on with which the stop is through, the
      request is not offered to anyone, until it is dispatched again. */
  lemma {:induction false} StopEndsWait(run: seq<State>, k: nat, i: nat, ok: bool, h: Handle)
    requires IsRun(run) && k < i < |run| && Stops(run[k], h) && run[k + 1] == ThreadStep(run[k], Control, ok)
    requires !Stops(run[k + 1], h) && forall j :: k < j < i ==> !Dispatches(run[j], run[j + 1], h)
    ensures Dormant(run[i], h)
    decreases i
  {
    if i == k + 1 {
      StopIsThrough(run, k, ok, h);
    } else {
      StopEndsWait(run, k, i - 1, ok, h);
      RunStaysDormant(run, i - 1, h);
    }
  }
}
