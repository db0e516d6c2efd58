/** The one way a wakeup is lost: the last claim a published wait is owed finds adaptive
    mode off. When that can happen, and a run in which it does. */
module WaitRefusal {
  import opened WaitRecord
  import opened WaitModel
  import opened WaitOwnership
  import opened WaitWakeup
  import Runs

  // ----- exactly when an owed wakeup is dropped -----

  /** The action is a claim turned away at its gate, and nobody else owes the wait a read. */
  ghost predicate LastReadRefused(s: State, a: Action) {
    && a.Step? && RefusesRead(s, a.t)
    && forall u :: u in s.threads && u != a.t ==> !OwesRead(s.rec.slot, s.threads[u])
  }

  ghost predicate LastWriteRefused(s: State, a: Action) {
    && a.Step? && RefusesWrite(s, a.t)
    && forall u :: u in s.threads && u != a.t ==> !OwesWrite(s.rec.slot, s.q, s.threads[u])
  }

  /** Only a thread's own step moves it. */
  lemma OthersUntouched(s: State, a: Action, u: Tid)
    requires Enabled(s, a) && !a.Step? && u in s.threads
    requires a.DispatchCancel? ==> Cancel(a.h) !in s.threads
    ensures u in Exec(s, a).threads && Exec(s, a).threads[u] == s.threads[u]
  {}

  lemma ActionMoves(s: State, a: Action)
    requires Inv(s) && Enabled(s, a) && a.DispatchCancel?
    ensures Cancel(a.h) !in s.threads
  {
    assert RequestOk(s.rec, s.threads, a.h, s.requests[a.h]);
  }

  /** A refused claim returns empty-handed. */
  lemma RefusalReturns(s: State, t: Tid, ok: bool)
    requires t in s.threads && s.threads[t].Claim? && s.threads[t].claim.Gate? && !s.dev.adaptive
    ensures var s' := ThreadStep(s, t, ok);
            && s'.rec == s.rec && s'.q == s.q && OthersStay(s, s', t)
            && (t in s'.threads ==> s'.threads[t].Packet? && s'.threads[t].pk.RxLoop?)
  {}

  lemma ReadKept(s: State, a: Action, u: Tid)
    requires Good(s) && Enabled(s, a)
    requires AsksRead(s) && AsksRead(Exec(s, a)) && u in s.threads && OwesRead(s.rec.slot, s.threads[u])
    ensures ReadOwed(Exec(s, a)) || (a.Step? && u == a.t && RefusesRead(s, a.t))
  {
    var s', t := Exec(s, a), Actor(a);
    ActionProgress(s, a);
    if a.DispatchCancel? { ActionMoves(s, a); }
    if !a.Step? { OthersUntouched(s, a, u); } else if u != t { Others(s, s', t, u); }
    if u in s'.threads && OwesRead(s'.rec.slot, s'.threads[u]) {
      assert ReadOwed(s');
    }
  }

  /** A readable wait that is owed a claim stays owed one over any action, except exactly
      when the action is the last owed claim being refused. */
  lemma ReadStaysOwedIff(s: State, a: Action)
    requires Good(s) && Enabled(s, a)
    requires AsksRead(s) && ReadOwed(s) && AsksRead(Exec(s, a))
    ensures ReadOwed(Exec(s, a)) <==> !LastReadRefused(s, a)
  {
    var s' := Exec(s, a);
    if LastReadRefused(s, a) {
      RefusalReturns(s, a.t, a.ok);
      forall u | u in s'.threads ensures !OwesRead(s'.rec.slot, s'.threads[u]) {
        if u != a.t { Others(s, s', a.t, u); }
      }
    } else {
      var u :| u in s.threads && OwesRead(s.rec.slot, s.threads[u])
               && (a.Step? && RefusesRead(s, a.t) ==> u != a.t);
      ReadKept(s, a, u);
    }
  }

  lemma WriteKept(s: State, a: Action, u: Tid)
    requires Good(s) && Enabled(s, a)
    requires AsksWrite(s) && AsksWrite(Exec(s, a)) && u in s.threads && OwesWrite(s.rec.slot, s.q, s.threads[u])
    ensures WriteOwed(Exec(s, a)) || (a.Step? && u == a.t && RefusesWrite(s, a.t))
  {
    var s', t := Exec(s, a), Actor(a);
    ActionProgress(s, a);
    NextKeepsGood(s, s');
    if Exposed(s) || SawRetiredOwner(s, t) {
      GateKeepsWriter(s, s', t);
    } else {
      KeepsWriter(s, s', t, u);
      if !(u in s'.threads && OwesWrite(s'.rec.slot, s'.q, s'.threads[u])) && !a.Step? {
        if a.DispatchCancel? { ActionMoves(s, a); }
        OthersUntouched(s, a, u);
      }
    }
  }

  /** A writable wait stays owed a claim in the same way. */
  lemma WriteStaysOwedIff(s: State, a: Action)
    requires Good(s) && Enabled(s, a)
    requires AsksWrite(s) && WriteOwed(s) && AsksWrite(Exec(s, a))
    ensures WriteOwed(Exec(s, a)) <==> !LastWriteRefused(s, a)
  {
    var s' := Exec(s, a);
    if LastWriteRefused(s, a) {
      RefusalReturns(s, a.t, a.ok);
      forall u | u in s'.threads ensures !OwesWrite(s'.rec.slot, s'.q, s'.threads[u]) {
        if u != a.t { Others(s, s', a.t, u); }
      }
    } else {
      var u :| u in s.threads && OwesWrite(s.rec.slot, s.q, s.threads[u])
               && (a.Step? && RefusesWrite(s, a.t) ==> u != a.t);
      WriteKept(s, a, u);
    }
  }

  // ----- what is on record was refused -----

  predicate Bit(mask: Mask, read: bool) {
    if read then mask.readable else mask.writable
  }

  /** The step is a claim for this bit of the published wait's interest, turned away. */
  ghost predicate Refusal(s: State, s': State, read: bool) {
    && s.rec.word.phase == Pending && Bit(s.rec.interest, read) && !s.dev.adaptive
    && exists t, ok :: t in s.threads && s.threads[t].Claim? && s.threads[t].claim.Gate?
                       && Bit(s.threads[t].cond, read) && s' == ThreadStep(s, t, ok)
  }

  lemma PublisherMissesNothing(s: State, t: Tid, ok: bool)
    requires t in s.threads
    requires s.threads[t].Publish? || s.threads[t].Finish? || s.threads[t].Complete? || s.threads[t].Unmark?
    ensures ThreadStep(s, t, ok).audit.trail == s.audit.trail
  {}

  lemma TeardownMissesNothing(s: State, t: Tid, ok: bool)
    requires t in s.threads && (s.threads[t].Tear? || s.threads[t].Cancelling?)
    ensures ThreadStep(s, t, ok).audit.trail == s.audit.trail
  {}

  lemma WorkerMissesNothing(s: State, t: Tid, ok: bool)
    requires t in s.threads && (s.threads[t].Work? || s.threads[t].Packet?)
    ensures ThreadStep(s, t, ok).audit.trail == s.audit.trail
  {}

  lemma RegistrarTrail(s: State, t: Tid, h: Handle, want: Mask, at: RegisterAt, ok: bool)
    ensures RegisterStep(s, t, h, want, at, ok).audit.trail ==
            if at.CheckAdaptive? && s.dev.adaptive then Enlisted(s.audit.trail, s.dev.ownerGen) else s.audit.trail
  {}

  lemma ClaimMisses(s: State, t: Tid, ok: bool, read: bool)
    requires t in s.threads && s.threads[t].Claim?
    requires !Bit(s.audit.trail.missed, read) && Bit(ThreadStep(s, t, ok).audit.trail.missed, read)
    ensures Refusal(s, ThreadStep(s, t, ok), read)
  {}

  lemma SurroundingsMissNothing(s: State, a: Action)
    requires Enabled(s, a) && !a.Step?
    ensures Exec(s, a).audit.trail.missed == s.audit.trail.missed
  {}

  lemma MissedStep(s: State, a: Action, read: bool)
    requires Enabled(s, a) && !Bit(s.audit.trail.missed, read) && Bit(Exec(s, a).audit.trail.missed, read)
    ensures Refusal(s, Exec(s, a), read)
  {
    if !a.Step? {
      SurroundingsMissNothing(s, a);
    } else {
      var pc := s.threads[a.t];
      if pc.Claim? { ClaimMisses(s, a.t, a.ok, read); }
      else if pc.Register? { RegistrarTrail(s, a.t, pc.h, pc.want, pc.reg, a.ok); }
      else if pc.Tear? || pc.Cancelling? { TeardownMissesNothing(s, a.t, a.ok); }
      else if pc.Work? || pc.Packet? { WorkerMissesNothing(s, a.t, a.ok); }
      else { PublisherMissesNothing(s, a.t, a.ok); }
    }
  }

  /** If a condition is on record as missed, some claim for it was refused earlier in the
      run, and the record has not been cleared since. */
  lemma {:induction false} MissedWasRefused(run: seq<State>, i: nat, read: bool) returns (k: nat)
    requires IsRun(run) && i < |run| && Bit(run[i].audit.trail.missed, read)
    ensures k < i && Refusal(run[k], run[k + 1], read)
    ensures forall j :: k < j <= i ==> Bit(run[j].audit.trail.missed, read)
  {
    StepOfRun(run, i - 1);
    if Bit(run[i - 1].audit.trail.missed, read) {
      k := MissedWasRefused(run, i - 1, read);
    } else {
      k := i - 1;
      var a :| Enabled(run[k], a) && run[i] == Exec(run[k], a);
      MissedStep(run[k], a, read);
    }
  }

  /** A quiet published wait that is ready was refused a claim for what it asked. */
  lemma StrandedOnlyByRefusal(run: seq<State>, i: nat, read: bool) returns (k: nat)
    requires IsRun(run) && i < |run| && run[i].threads == map[]
    requires if read then AsksRead(run[i]) else AsksWrite(run[i])
    ensures k < i && Refusal(run[k], run[k + 1], read)
  {
    QuietWaitIsNotReady(run, i);
    k := MissedWasRefused(run, i, read);
  }
}
