/** One life of the switch: start, the completion loop, shutdown and the drop of the runtime. */
module SwitchSession {
  import opened Wrappers
  import opened CompletionId
  import opened SwitchCore
  import opened SwitchRuntime
  import opened SwitchRun

  /** Everything outside the switch: which builds and submissions work, what the ring
      completes, and the adaptive flag negotiated with the endpoints. */
  datatype Plan = Plan(
    firstHandle: nat, secondHandle: nat, frameMaximum: nat, adaptive: bool, builds: nat -> bool, submits: bool,
    rounds: seq<Round>, waitFailed: bool, lastSubmits: bool, turns: seq<Turn>)

  /** How a life ended: refused its depth, failed to post a first read, or shut down after
      the loop or the first submission ended as `stopped` says. */
  datatype Ending = BadDepth | NotPosted(cause: Failure) | ShutDown(stopped: Option<Failure>, outcome: Outcome)

  predicate LegalDepth(depth: nat) {
    depth != 0 && depth % 2 == 0 && depth <= SLOT_RANGE
  }

  /** The process aborts rather than free buffers an operation may still use. */
  predicate Aborts(runtime: Runtime)
    reads runtime
  {
    runtime.mayBeInFlight && !NoneLeft(runtime.active)
  }

  predicate ReadSubmitted(entry: Entry) {
    entry.Some? && !entry.value.isWrite && entry.value.submitted
  }

  /** Posts the first read on every slot and submits them. */
  method Start(depth: nat, plan: Plan) returns (runtime: Runtime, unposted: Option<Failure>, unsubmitted: Option<Failure>)
    requires LegalDepth(depth)
    ensures fresh(runtime) && fresh(runtime.pool) && runtime.Sound()
    ensures runtime.first == Endpoint(1, plan.firstHandle) && runtime.second == Endpoint(2, plan.secondHandle)
    ensures runtime.frameMaximum == plan.frameMaximum
    ensures unposted.Some? ==> External(unposted.value) && unsubmitted == None && !runtime.mayBeInFlight
    ensures unsubmitted.Some? ==> External(unsubmitted.value) && !runtime.mayBeInFlight
    ensures unposted == None && unsubmitted == None ==>
              && runtime.Valid() && AllFlagged(runtime.active) && runtime.mayBeInFlight
              && |runtime.active| == depth && forall i :: 0 <= i < depth ==> ReadSubmitted(runtime.active[i])
  {
    unsubmitted := None;
    runtime := new Runtime(Endpoint(1, plan.firstHandle), Endpoint(2, plan.secondHandle), depth / 2,
                           plan.frameMaximum, plan.adaptive);
    unposted := runtime.PostIdleReads(plan.builds);
    if unposted.Some? {
      return;
    }
    unsubmitted := SubmitRound(runtime, plan.submits);
  }

  /** The loop the negotiated mode calls for, on a switch of the two endpoints. */
  method RunUntilStopped(runtime: Runtime, rounds: seq<Round>) returns (failure: Option<Failure>, ghost table: seq<Entry>)
    requires runtime.Valid() && AllFlagged(runtime.active) && runtime.mayBeInFlight
    requires AllFit(rounds, runtime.frameMaximum)
    modifies runtime`active, runtime`ring, runtime`mayBeInFlight, runtime.pool
    ensures runtime.Sound()
    ensures failure.Some? ==>
              External(failure.value) && Explains(runtime.adaptive, rounds, table, runtime.pool.slots, failure.value)
  {
    var switch := new Switch([runtime.first.id, runtime.second.id]);
    if runtime.adaptive {
      failure, table := RunAdaptive(runtime, switch, rounds);
    } else {
      failure, table := RunLegacy(runtime, switch, rounds);
    }
  }

  /** A whole life. Only failures from outside end any part of it. A finished shutdown, and
      likewise a failed start, leaves a runtime whose drop does not abort; and whenever the
      drop does not abort, the ring it closes holds no submitted operation. */
  method Live(depth: nat, plan: Plan) returns (ending: Ending, runtime: Runtime?)
    requires AllFit(plan.rounds, plan.frameMaximum)
    ensures ending == BadDepth <==> !LegalDepth(depth)
    ensures runtime == null <==> ending == BadDepth
    ensures ending.NotPosted? ==> External(ending.cause) && !Aborts(runtime)
    ensures ending.ShutDown? ==>
              && (ending.stopped.Some? ==> External(ending.stopped.value))
              && (ending.outcome.Broken? ==> External(ending.outcome.failure))
              && (ending.outcome.Finished? ==> runtime.ring == Ring({}, {}, {}) && !Aborts(runtime))
    ensures runtime != null && !Aborts(runtime) ==> runtime.ring.submitted == {}
  {
    runtime := null;
    if !LegalDepth(depth) {
      return BadDepth, null;
    }
    var started, unposted, unsubmitted := Start(depth, plan);
    runtime := started;
    if unposted.Some? {
      DropIsSafe(started);
      return NotPosted(unposted.value), runtime;
    }
    var stopped := unsubmitted;
    if stopped == None {
      ghost var table;
      stopped, table := RunUntilStopped(started, plan.rounds);
    }
    var outcome := Shutdown(started, plan.waitFailed, plan.lastSubmits, plan.turns);
    if !Aborts(started) {
      DropIsSafe(started);
    }
    ending := ShutDown(stopped, outcome);
  }
}
