/** Whole runs of the switch: the two completion loops and shutdown, driven by whatever the
    ring chooses to complete. */
module SwitchRun {
  import opened Wrappers
  import opened BufferPool
  import opened CompletionId
  import opened SwitchCore
  import opened SwitchRuntime

  /** A completion the ring offers, the bytes in its buffer and whether the next build works. */
  datatype Pop = Pop(completion: IoCompletion, buffer: seq<Byte>, builds: bool)

  /** One pass of a completion loop. `idle` says the polling budget ran out and `signaled`
      that the readiness wait ended with a signal. */
  datatype Round = Round(pops: seq<Pop>, submits: bool, waits: bool, idle: bool, signaled: bool, builds: nat -> bool)

  predicate Fitting(pops: seq<Pop>, frameMaximum: nat) {
    forall i :: 0 <= i < |pops| ==> |pops[i].buffer| == frameMaximum
  }

  ghost predicate AllFit(rounds: seq<Round>, frameMaximum: nat) {
    forall k :: 0 <= k < |rounds| ==> Fitting(rounds[k].pops, frameMaximum)
  }

  /** One of the first `n` completions is of an operation the ring holds as submitted. */
  predicate AnyOffered(pops: seq<Pop>, n: nat, ring: Ring) {
    exists i :: 0 <= i < n <= |pops| && pops[i].completion.userData in ring.submitted
  }

  lemma OfferedStep(pops: seq<Pop>, i: nat, ring: Ring)
    requires i < |pops|
    ensures AnyOffered(pops, i + 1, ring) <==> AnyOffered(pops, i, ring) || pops[i].completion.userData in ring.submitted
  {}

  lemma OfferedLater(pops: seq<Pop>, i: nat, ring: Ring)
    requires i <= |pops| && AnyOffered(pops, i, ring)
    ensures AnyOffered(pops, |pops|, ring)
  {}

  // ----- why a run fails -----

  /** Why handling a completion fails, with the active table it was offered to. An empty
      read is no reason in adaptive mode. */
  predicate PopFails(adaptive: bool, p: Pop, active: seq<Entry>, f: Failure) {
    var slot, code := SlotOf(p.completion.userData), p.completion.code;
    && slot < |active| && active[slot].Some? && active[slot].value.userData == p.completion.userData
    && var op := active[slot].value;
       match f
       case BuildFailed => !p.builds && (code == Success || code == Busy)
       case OperationFailed => code == Failed || (code == NoMoreEntries && (op.isWrite || !adaptive))
       case RetryLimit => code == Busy && op.busyRetries >= MAX_BUSY_RETRIES
       case PoolRefused(e) => e == GenerationExhausted && code == Success && op.completion.generation == MAX_GENERATION
       case _ => false
  }

  predicate AnyPopFails(adaptive: bool, pops: seq<Pop>, active: seq<Entry>, f: Failure) {
    exists i :: 0 <= i < |pops| && PopFails(adaptive, pops[i], active, f)
  }

  /** Why a round fails that began with this table: a completion, a submission, a wait, or a
      read posted after a signal. */
  ghost predicate RoundFails(adaptive: bool, round: Round, active: seq<Entry>, slots: Slots, f: Failure) {
    || AnyPopFails(adaptive, round.pops, active, f)
    || (f == SubmitFailed && !(round.submits && round.waits))
    || (f == WaitFailed && round.idle && !round.waits)
    || (f == BuildFailed && round.idle && round.signaled && exists i :: 0 <= i < |slots| && !round.builds(i))
    || (f == PoolRefused(GenerationExhausted) && round.idle && round.signaled && Exhausted(slots))
  }

  /** One of the rounds fails with this. */
  ghost predicate Explains(adaptive: bool, rounds: seq<Round>, active: seq<Entry>, slots: Slots, f: Failure) {
    exists k :: 0 <= k < |rounds| && RoundFails(adaptive, rounds[k], active, slots, f)
  }

  /** No completion of the round carries a frame or finishes a write. */
  predicate Fruitless(pops: seq<Pop>) {
    forall i :: 0 <= i < |pops| ==> pops[i].completion.code != Success
  }

  /** Every slot has an operation in the ring. */
  predicate AllSubmitted(active: seq<Entry>) {
    forall i :: 0 <= i < |active| ==> active[i].Some? && (active[i].value.queued ==> active[i].value.submitted)
  }

  /** Operations still submitted are the ones in the table `was`. */
  ghost predicate Untouched(was: seq<Entry>, active: seq<Entry>, submitted: set<nat>) {
    && |active| == |was|
    && forall u :: u in submitted && SlotOf(u) < |was| ==> active[SlotOf(u)] == was[SlotOf(u)]
  }

  lemma StaysUntouched(was: seq<Entry>, active: seq<Entry>, slots: Slots, ring: Ring, u: nat, active': seq<Entry>, slots': Slots)
    requires Agree(active, slots, ring) && u in ring.submitted && Untouched(was, active, ring.submitted)
    requires OthersKept(active, slots, active', slots', SlotOf(u))
    ensures Untouched(was, active', ring.submitted - {u})
  {
    forall v | v in ring.submitted - {u} && SlotOf(v) < |was| ensures active'[SlotOf(v)] == was[SlotOf(v)] {
      OperationIsActive(active, slots, ring, v);
      OperationIsActive(active, slots, ring, u);
    }
  }

  /** The answer to a completion, read as a reason. */
  lemma AnswerExplains(runtime: Runtime, switch: Switch, pop: Pop, active: seq<Entry>, r: Result<Option<bool>, Failure>)
    requires var slot := SlotOf(pop.completion.userData);
             && slot < |active| && slot < 2 * runtime.readsPerEndpoint && |pop.buffer| == runtime.frameMaximum
             && active[slot].Some? && active[slot].value.userData == pop.completion.userData
             && active[slot].value.completion.generation <= MAX_GENERATION
             && if pop.completion.code == Busy then runtime.Retried(slot, active[slot].value, pop.builds, r)
                else runtime.Answered(switch, slot, active[slot].value, pop.completion, pop.buffer, pop.builds, r)
    ensures r.Err? ==> PopFails(runtime.adaptive, pop, active, r.error)
    ensures r.Ok? && r.value.Some? ==> pop.completion.code == Success
  {}

  /** Handles one completion the ring offers. */
  method ProcessPop(runtime: Runtime, switch: Switch, pop: Pop, ghost was: seq<Entry>) returns (r: Result<Option<bool>, Failure>)
    requires runtime.Valid() && runtime.Serves(switch) && |pop.buffer| == runtime.frameMaximum
    requires pop.completion.userData in runtime.ring.submitted && Untouched(was, runtime.active, runtime.ring.submitted)
    modifies runtime`active, runtime`ring, runtime.pool, switch.fdb
    ensures runtime.Sound() && runtime.Serves(switch) && (r.Ok? ==> runtime.Valid())
    ensures Untouched(was, runtime.active, runtime.ring.submitted)
    ensures r.Err? ==> PopFails(runtime.adaptive, pop, was, r.error)
    ensures r.Ok? && r.value.Some? ==> pop.completion.code == Success
  {
    ghost var active, slots, ring := runtime.active, runtime.pool.slots, runtime.ring;
    r := runtime.ProcessCompletion(switch, pop.completion, pop.buffer, pop.builds);
    AnswerExplains(runtime, switch, pop, active, r);
    StaysUntouched(was, active, slots, ring, pop.completion.userData, runtime.active, runtime.pool.slots);
  }

  /** Processes everything the ring has completed. A completion is offered only for an
      operation the ring holds as submitted. */
  method Drain(runtime: Runtime, switch: Switch, pops: seq<Pop>) returns (failure: Option<Failure>, saw: bool, progress: bool)
    requires runtime.Valid() && runtime.Serves(switch) && Fitting(pops, runtime.frameMaximum)
    modifies runtime`active, runtime`ring, runtime.pool, switch.fdb
    ensures runtime.Sound() && runtime.Serves(switch)
    ensures failure == None ==> runtime.Valid()
    ensures failure.Some? ==> AnyPopFails(runtime.adaptive, pops, old(runtime.active), failure.value)
    ensures saw <==> AnyOffered(pops, |pops|, old(runtime.ring))
    ensures !saw ==> runtime.active == old(runtime.active) && runtime.ring == old(runtime.ring) && failure == None && !progress
    ensures Fruitless(pops) ==> !progress
  {
    failure, saw, progress := None, false, false;
    ghost var ring, was := runtime.ring, runtime.active;
    for i := 0 to |pops|
      invariant runtime.Valid() && runtime.Serves(switch)
      invariant failure == None && Untouched(was, runtime.active, runtime.ring.submitted)
      invariant saw <==> AnyOffered(pops, i, ring)
      invariant !saw ==> runtime.active == was && runtime.ring == ring && !progress
      invariant Fruitless(pops) ==> !progress
    {
      OfferedStep(pops, i, ring);
      if pops[i].completion.userData in runtime.ring.submitted {
        saw := true;
        var r := ProcessPop(runtime, switch, pops[i], was);
        if r.Err? {
          failure := Some(r.error);
          OfferedLater(pops, i + 1, ring);
          return;
        }
        progress := progress || r.value.Some?;
      }
    }
  }

  /** The legacy loop, until stopped. Unless something outside fails, the runtime is left
      in order; and a failure is explained by the round it happened in. */
  method RunLegacy(runtime: Runtime, switch: Switch, rounds: seq<Round>)
      returns (failure: Option<Failure>, ghost table: seq<Entry>)
    requires runtime.Valid() && AllFlagged(runtime.active) && runtime.mayBeInFlight
    requires runtime.Serves(switch) && AllFit(rounds, runtime.frameMaximum)
    modifies runtime`active, runtime`ring, runtime`mayBeInFlight, runtime.pool, switch.fdb
    ensures runtime.Sound() && runtime.Serves(switch) && (failure == None ==> runtime.Valid())
    ensures failure.Some? ==>
              External(failure.value) && Explains(runtime.adaptive, rounds, table, runtime.pool.slots, failure.value)
  {
    failure, table := None, runtime.active;
    for k := 0 to |rounds|
      invariant runtime.Valid() && AllFlagged(runtime.active) && runtime.mayBeInFlight && runtime.Serves(switch)
      invariant failure == None
    {
      table := runtime.active;
      failure := LegacyRound(runtime, switch, rounds[k]);
      if failure.Some? {
        return;
      }
    }
  }

  /** One pass of the legacy loop. */
  method LegacyRound(runtime: Runtime, switch: Switch, round: Round) returns (failure: Option<Failure>)
    requires runtime.Valid() && AllFlagged(runtime.active) && runtime.mayBeInFlight
    requires runtime.Serves(switch) && Fitting(round.pops, runtime.frameMaximum)
    modifies runtime`active, runtime`ring, runtime`mayBeInFlight, runtime.pool, switch.fdb
    ensures runtime.Sound() && runtime.Serves(switch)
    ensures failure == None ==> runtime.Valid() && AllFlagged(runtime.active) && runtime.mayBeInFlight
    ensures failure.Some? ==>
              External(failure.value) && RoundFails(runtime.adaptive, round, old(runtime.active), runtime.pool.slots, failure.value)
  {
    var saw, progress;
    failure, saw, progress := Drain(runtime, switch, round.pops);
    if failure.Some? {
      return;
    }
    if saw {
      failure := SubmitRound(runtime, round.submits);
    } else {
      failure := runtime.WaitForCompletion(round.waits);
    }
  }

  /** Submits after a batch of completions. */
  method SubmitRound(runtime: Runtime, submits: bool) returns (failure: Option<Failure>)
    requires runtime.Valid()
    modifies runtime`active, runtime`ring, runtime`mayBeInFlight
    ensures runtime.Valid()
    ensures failure == if submits then None else Some(SubmitFailed)
    ensures failure.Some? ==> runtime.mayBeInFlight == old(runtime.mayBeInFlight)
    ensures failure == None ==> AllFlagged(runtime.active) && runtime.mayBeInFlight
    ensures failure == None ==> forall i :: 0 <= i < |runtime.active| ==> runtime.active[i] == Flagged(old(runtime.active)[i])
  {
    failure := runtime.SubmitPending(submits);
  }

  /** One pass of the adaptive loop. After a round without progress whose wait was signaled,
      every slot has an operation in the ring again. */
  method AdaptiveRound(runtime: Runtime, switch: Switch, round: Round)
      returns (failure: Option<Failure>)
    requires runtime.Valid() && AllFlagged(runtime.active) && runtime.mayBeInFlight
    requires runtime.Serves(switch) && Fitting(round.pops, runtime.frameMaximum)
    modifies runtime`active, runtime`ring, runtime`mayBeInFlight, runtime.pool, switch.fdb
    ensures runtime.Sound() && runtime.Serves(switch)
    ensures failure == None ==> runtime.Valid() && AllFlagged(runtime.active) && runtime.mayBeInFlight
    ensures failure.Some? ==>
              External(failure.value) && RoundFails(runtime.adaptive, round, old(runtime.active), runtime.pool.slots, failure.value)
    ensures failure == None && Fruitless(round.pops) && round.idle && round.signaled ==> AllSubmitted(runtime.active)
  {
    ghost var was := runtime.active;
    var saw, progress;
    failure, saw, progress := Drain(runtime, switch, round.pops);
    if failure.Some? {
      return;
    }
    if saw {
      failure := SubmitRound(runtime, round.submits);
      if failure.Some? {
        return;
      }
    }
    if !progress && round.idle {
      if !round.waits {
        failure := Some(WaitFailed);
        return;
      }
      if round.signaled {
        failure := Repost(runtime, round, was);
      }
    }
  }

  /** Reads into every idle slot after a signal, and submits. */
  method Repost(runtime: Runtime, round: Round, ghost was: seq<Entry>) returns (failure: Option<Failure>)
    requires runtime.Valid() && round.idle && round.signaled
    modifies runtime`active, runtime`ring, runtime`mayBeInFlight, runtime.pool
    ensures runtime.Sound()
    ensures failure == None ==>
              runtime.Valid() && AllFlagged(runtime.active) && runtime.mayBeInFlight && AllSubmitted(runtime.active)
    ensures failure.Some? ==>
              External(failure.value) && RoundFails(runtime.adaptive, round, was, runtime.pool.slots, failure.value)
  {
    failure := runtime.PostIdleReads(round.builds);
    if failure.Some? {
      return;
    }
    ghost var posted := runtime.active;
    failure := SubmitRound(runtime, round.submits);
    assert failure == None ==> forall i :: 0 <= i < |posted| ==> posted[i].Some? && runtime.active[i] == Flagged(posted[i]);
  }

  /** The adaptive loop, until stopped. A failure is explained by the round it happened in;
      reads posted after an idle wait never find a slot taken; and after a last round
      without progress whose wait was signaled every slot is in use again. */
  method RunAdaptive(runtime: Runtime, switch: Switch, rounds: seq<Round>)
      returns (failure: Option<Failure>, ghost table: seq<Entry>)
    requires runtime.Valid() && AllFlagged(runtime.active) && runtime.mayBeInFlight
    requires runtime.Serves(switch) && AllFit(rounds, runtime.frameMaximum)
    modifies runtime`active, runtime`ring, runtime`mayBeInFlight, runtime.pool, switch.fdb
    ensures runtime.Sound() && runtime.Serves(switch) && (failure == None ==> runtime.Valid())
    ensures failure.Some? ==>
              External(failure.value) && Explains(runtime.adaptive, rounds, table, runtime.pool.slots, failure.value)
    ensures failure == None && rounds != [] && Wakes(rounds[|rounds| - 1]) ==> AllSubmitted(runtime.active)
  {
    failure, table := None, runtime.active;
    for k := 0 to |rounds|
      invariant runtime.Valid() && AllFlagged(runtime.active) && runtime.mayBeInFlight && runtime.Serves(switch)
      invariant failure == None
      invariant k > 0 && Wakes(rounds[k - 1]) ==> AllSubmitted(runtime.active)
    {
      table := runtime.active;
      failure := AdaptiveRound(runtime, switch, rounds[k]);
      if failure.Some? {
        return;
      }
    }
  }

  /** A round that made no progress, waited and was signaled. */
  predicate Wakes(round: Round) {
    Fruitless(round.pops) && round.idle && round.signaled
  }

  // ----- shutdown -----

  predicate NoneLeft<T>(entries: seq<Option<T>>) {
    forall i :: 0 <= i < |entries| ==> entries[i].None?
  }

  predicate Draining(active: seq<Entry>) {
    exists i :: 0 <= i < |active| && active[i].Some? && active[i].value.drainFirst
  }

  /** Operations whose rebuild failed are not in the ring: their slots are freed. */
  method RetireUnqueued(runtime: Runtime) returns (failure: Option<Failure>)
    requires runtime.Sound()
    modifies runtime`active, runtime.pool
    ensures runtime.Sound() && failure == None
    ensures forall i :: 0 <= i < |runtime.active| ==> runtime.active[i].Some? ==> runtime.active[i].value.queued
  {
    for slot := 0 to |runtime.active|
      invariant runtime.Sound() && slot <= |runtime.active| == old(|runtime.active|)
      invariant forall i :: 0 <= i < slot ==> runtime.active[i].Some? ==> runtime.active[i].value.queued
    {
      var entry := runtime.active[slot];
      if entry.Some? && !entry.value.queued {
        runtime.DropUnqueued(slot);
        failure := runtime.Release(entry.value.completion);
        if failure.Some? {
          return;
        }
      }
    }
    return None;
  }

  /** Writes built and not yet submitted are to finish before anything is cancelled. */
  method MarkDrains(runtime: Runtime)
    requires runtime.Sound()
    modifies runtime`active
    ensures runtime.Sound() && |runtime.active| == old(|runtime.active|)
    ensures forall i :: 0 <= i < |runtime.active| ==> runtime.active[i] == Marked(old(runtime.active[i]))
  {
    var marked: seq<Entry> := [];
    for i := 0 to |runtime.active|
      invariant |marked| == i
      invariant forall j :: 0 <= j < i ==> marked[j] == Marked(runtime.active[j])
    {
      var entry := runtime.active[i];
      if entry.Some? && entry.value.isWrite && entry.value.queued && !entry.value.submitted {
        entry := Some(entry.value.(drainFirst := true));
      }
      marked := marked + [entry];
    }
    MarkingAgrees(runtime.active, marked, runtime.pool.slots, runtime.ring);
    runtime.active := marked;
  }

  function Marked(entry: Entry): Entry {
    if entry.Some? && entry.value.isWrite && entry.value.queued && !entry.value.submitted
    then Some(entry.value.(drainFirst := true)) else entry
  }

  lemma MarkingAgrees(active: seq<Entry>, marked: seq<Entry>, slots: Slots, ring: Ring)
    requires Agree(active, slots, ring) && |marked| == |active|
    requires forall i :: 0 <= i < |active| ==> marked[i] == Marked(active[i])
    ensures Agree(marked, slots, ring)
  {
    forall i | 0 <= i < |active| ensures SlotAgrees(i, marked[i], slots[i], ring) {
      assert SlotAgrees(i, active[i], slots[i], ring);
    }
  }

  datatype Handled = Nothing | Processed(cancelFailed: bool) | Refused(failure: Failure)

  /** What the ring can complete: a submitted operation, or a cancellation of one. */
  predicate Offered(ring: Ring, userData: nat) {
    if HasMarker(userData) then userData >= MARKER && userData - MARKER in ring.cancels
    else userData in ring.submitted
  }

  /** One completion during shutdown. Operations leave the table and free their slot;
      cancellations leave theirs. No completion the ring offers is refused. */
  method TryProcess(runtime: Runtime, c: IoCompletion) returns (handled: Handled)
    requires runtime.Sound()
    modifies runtime`active, runtime`cancellations, runtime`ring, runtime.pool
    ensures runtime.Sound() && !handled.Refused?
    ensures AllFlagged(old(runtime.active)) ==> AllFlagged(runtime.active)
    ensures handled == Nothing <==> !Offered(old(runtime.ring), c.userData)
    ensures handled == Nothing ==>
              runtime.ring == old(runtime.ring) && runtime.active == old(runtime.active) && runtime.cancellations == old(runtime.cancellations)
    ensures handled.Processed? && HasMarker(c.userData) ==>
              && handled.cancelFailed == (c.code != Success) && runtime.active == old(runtime.active)
              && runtime.ring == old(runtime.ring).(cancels := old(runtime.ring).cancels - {c.userData - MARKER})
    ensures handled.Processed? && !HasMarker(c.userData) ==>
              && !handled.cancelFailed && runtime.cancellations == old(runtime.cancellations)
              && SlotOf(c.userData) < |runtime.active| && runtime.active == old(runtime.active)[SlotOf(c.userData) := None]
              && runtime.pool.slots[SlotOf(c.userData)].state == Free
              && runtime.ring == SwitchRuntime.Without(old(runtime.ring), c.userData)
  {
    if !Offered(runtime.ring, c.userData) {
      return Nothing;
    }
    if HasMarker(c.userData) {
      var operation := c.userData % MARKER;
      ghost var at := SlotOf(c.userData - MARKER);
      assert IsIdAt(at, c.userData - MARKER);
      DecodeEncode(at, GenerationOf(c.userData - MARKER));
      MarkedNeverDecodes(at, GenerationOf(c.userData - MARKER));
      var decoded := Decode(operation);
      if decoded.Err? || decoded.value.0 >= |runtime.active| || runtime.cancellations[decoded.value.0] != Some(operation) {
        return Refused(UnexpectedCancellation);
      }
      runtime.DropCancellation(decoded.value.0);
      return Processed(c.code != Success);
    }
    var validated := runtime.ValidateCompletion(c);
    if validated.Err? {
      return Refused(BadCompletion);
    }
    runtime.Take(validated.value.0);
    var failure := runtime.Release(SlotCompletion(validated.value.0, validated.value.1));
    if failure.Some? {
      return Refused(BadCompletion);
    }
    return Processed(false);
  }

  datatype BuildStatus = Built | QueueFull | NotBuilt

  /** Requests cancellation of every submitted operation that has none pending, as far as
      the submission queue has room. */
  method QueueCancellations(runtime: Runtime, status: nat -> BuildStatus)
      returns (failure: Option<Failure>, queued: bool, wasFull: bool)
    requires runtime.Sound()
    modifies runtime`cancellations, runtime`ring
    ensures runtime.Sound()
    ensures failure.Some? ==> failure.value == BuildFailed
    ensures failure == None && !wasFull ==>
              forall i :: 0 <= i < |runtime.active| ==>
                runtime.active[i].Some? && runtime.active[i].value.submitted ==> runtime.cancellations[i].Some?
  {
    failure, queued, wasFull := None, false, false;
    for slot := 0 to |runtime.active|
      invariant runtime.Sound() && failure == None && !wasFull
      invariant forall i :: 0 <= i < slot ==>
                  runtime.active[i].Some? && runtime.active[i].value.submitted ==> runtime.cancellations[i].Some?
    {
      var entry := runtime.active[slot];
      assert SlotAgrees(slot, entry, runtime.pool.slots[slot], runtime.ring);
      if entry.Some? && entry.value.queued && entry.value.submitted && runtime.cancellations[slot] == None {
        match status(slot)
        case QueueFull =>
          wasFull := true;
          break;
        case NotBuilt =>
          failure := Some(BuildFailed);
          return;
        case Built =>
          runtime.AddCancellation(slot);
          queued := true;
      }
    }
  }

  /** Every operation in the ring has an active entry whose slot, generation and direction
      are the pool's. */
  lemma OperationIsActive(active: seq<Entry>, slots: Slots, ring: Ring, u: nat)
    requires Agree(active, slots, ring) && u in ring.operations
    ensures var i := SlotOf(u);
            && i < |active| && active[i].Some?
            && active[i].value.userData == u == Id(i, slots[i].generation)
            && active[i].value.completion == SlotCompletion(i, slots[i].generation)
            && slots[i].state == (if active[i].value.isWrite then WritePending(1) else ReadPending)
  {
    assert SlotAgrees(SlotOf(u), active[SlotOf(u)], slots[SlotOf(u)], ring);
  }

  /** With no active operation the ring holds none. */
  lemma EmptyTableEmptyRing(active: seq<Entry>, slots: Slots, ring: Ring)
    requires Agree(active, slots, ring)
    ensures NoneLeft(active) ==> ring.operations == {} && ring.submitted == {}
  {
    if ring.operations != {} {
      var u :| u in ring.operations;
      OperationIsActive(active, slots, ring, u);
    }
  }

  lemma NoCancellationsLeft(cancellations: seq<Option<nat>>, depth: nat, cancels: set<nat>)
    requires CancelsAgree(cancellations, depth, cancels)
    ensures NoneLeft(cancellations) ==> cancels == {}
  {
    if cancels != {} {
      var u :| u in cancels;
      assert cancellations[SlotOf(u)] == Some(u);
    }
  }

  /** What the ring does next during shutdown. */
  datatype Turn = Turn(completion: IoCompletion, waits: bool, submits: bool, status: nat -> BuildStatus)

  datatype Outcome = Finished(cancelFailed: bool) | Broken(failure: Failure) | Unfinished

  /** One completion or one wait. */
  method ProcessOrWait(runtime: Runtime, turn: Turn) returns (failure: Option<Failure>, cancelFailed: bool)
    requires runtime.Sound() && AllFlagged(runtime.active) && runtime.mayBeInFlight
    modifies runtime`active, runtime`cancellations, runtime`ring, runtime.pool
    ensures runtime.Sound() && AllFlagged(runtime.active)
    ensures failure.Some? ==> External(failure.value)
  {
    var handled := TryProcess(runtime, turn.completion);
    match handled
    case Nothing =>
      failure := runtime.WaitForCompletion(turn.waits);
      cancelFailed := false;
    case Processed(failed) =>
      failure, cancelFailed := None, failed;
    case Refused(f) =>
      failure, cancelFailed := Some(f), false;
  }

  /** Shutdown. When it finishes, the ring holds no operation and no cancellation, the
      tables are empty and the in-flight mark is cleared; and only a failure from outside
      can break it off. It waits as long as the ring withholds a completion. */
  method Shutdown(runtime: Runtime, waitFailed: bool, submits: bool, turns: seq<Turn>) returns (outcome: Outcome)
    requires runtime.Sound()
    modifies runtime`active, runtime`cancellations, runtime`ring, runtime`mayBeInFlight, runtime.pool
    ensures runtime.Sound()
    ensures outcome.Broken? ==> External(outcome.failure)
    ensures outcome.Finished? ==>
              && NoneLeft(runtime.active) && NoneLeft(runtime.cancellations)
              && runtime.ring == Ring({}, {}, {}) && !runtime.mayBeInFlight
    ensures outcome.Finished? && waitFailed ==> outcome.cancelFailed
    ensures outcome.Unfinished? ==>
              runtime.mayBeInFlight && (!NoneLeft(runtime.active) || !NoneLeft(runtime.cancellations))
  {
    var cancelFailed := waitFailed;
    var failure := RetireUnqueued(runtime);
    if failure.Some? {
      return Broken(BadCompletion);
    }
    MarkDrains(runtime);
    failure := runtime.SubmitPending(submits);
    if failure.Some? {
      return Broken(failure.value);
    }
    var k := 0;
    while Draining(runtime.active)
      invariant runtime.Sound() && AllFlagged(runtime.active) && runtime.mayBeInFlight
      invariant k <= |turns| && (waitFailed ==> cancelFailed)
      decreases |turns| - k
    {
      if k == |turns| {
        return Unfinished;
      }
      var failed;
      failure, failed := ProcessOrWait(runtime, turns[k]);
      if failure.Some? {
        return Broken(failure.value);
      }
      cancelFailed, k := cancelFailed || failed, k + 1;
    }
    while !NoneLeft(runtime.active) || !NoneLeft(runtime.cancellations)
      invariant runtime.Sound() && AllFlagged(runtime.active) && runtime.mayBeInFlight
      invariant k <= |turns| && (waitFailed ==> cancelFailed)
      decreases |turns| - k
    {
      if k == |turns| {
        return Unfinished;
      }
      var failed;
      failure, failed := CancelAndProcess(runtime, turns[k]);
      if failure.Some? {
        return Broken(failure.value);
      }
      cancelFailed, k := cancelFailed || failed, k + 1;
    }
    EmptyTableEmptyRing(runtime.active, runtime.pool.slots, runtime.ring);
    NoCancellationsLeft(runtime.cancellations, |runtime.active|, runtime.ring.cancels);
    runtime.mayBeInFlight := false;
    return Finished(cancelFailed);
  }

  /** One pass of the cancelling loop. */
  method CancelAndProcess(runtime: Runtime, turn: Turn) returns (failure: Option<Failure>, cancelFailed: bool)
    requires runtime.Sound() && AllFlagged(runtime.active) && runtime.mayBeInFlight
    modifies runtime`active, runtime`cancellations, runtime`ring, runtime.pool
    ensures runtime.Sound() && AllFlagged(runtime.active)
    ensures failure.Some? ==> External(failure.value)
  {
    var queued, wasFull;
    cancelFailed := false;
    failure, queued, wasFull := QueueCancellations(runtime, turn.status);
    if failure.Some? {
      return;
    }
    if queued || wasFull {
      failure := runtime.WaitForCompletion(turn.submits);
      if failure.Some? {
        return;
      }
    }
    failure, cancelFailed := ProcessOrWait(runtime, turn);
  }

  /** Dropping the runtime is refused exactly when an operation may still write to its
      buffers: if it is allowed, nothing submitted is left in the ring. */
  lemma DropIsSafe(runtime: Runtime)
    requires runtime.Sound()
    requires !(runtime.mayBeInFlight && !NoneLeft(runtime.active))
    ensures runtime.ring.submitted == {}
  {
    EmptyTableEmptyRing(runtime.active, runtime.pool.slots, runtime.ring);
  }
}
