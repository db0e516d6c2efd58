/** The switch's I/O-ring runtime: the table of active operations, the slot pool and the
    operations the ring holds must agree over every run, through retries and shutdown. */
module SwitchRuntime {
  import opened Wrappers
  import opened BufferPool
  import opened CompletionId
  import opened SwitchCore

  const MAX_BUSY_RETRIES: nat := 8

  datatype Operation = Operation(
    completion: SlotCompletion, handle: nat, userData: nat, isWrite: bool, length: nat,
    queued: bool, submitted: bool, busyRetries: nat, drainFirst: bool)

  type Entry = Option<Operation>

  /** An operation just built: queued, not yet submitted, never retried. */
  function FreshOperation(slot: nat, generation: nat, handle: nat, isWrite: bool, length: nat): Operation {
    Operation(SlotCompletion(slot, generation), handle, Id(slot, generation), isWrite, length, true, false, 0, false)
  }

  /** The operating system's side: operations built and not yet completed, those of them
      submitted, and operations with a cancellation outstanding, all by user data. */
  datatype Ring = Ring(operations: set<nat>, submitted: set<nat>, cancels: set<nat>)

  // ----- agreement -----

  predicate Matches(i: nat, op: Operation, slot: BufferSlot) {
    && op.completion == SlotCompletion(i, slot.generation)
    && Legal(i, slot.generation)
    && op.userData == Id(i, slot.generation)
    && slot.state == (if op.isWrite then WritePending(1) else ReadPending)
    && (op.submitted ==> op.queued)
  }

  /** The ring holds the entry's operation if it is queued, and nothing else for the slot;
      a submitted operation is flagged so. */
  ghost predicate Holds(i: nat, entry: Entry, ring: Ring) {
    forall u: nat :: SlotOf(u) == i ==>
      && (u in ring.operations <==> entry.Some? && entry.value.queued && entry.value.userData == u)
      && (u in ring.submitted ==> u in ring.operations && entry.value.submitted)
  }

  ghost predicate SlotAgrees(i: nat, entry: Entry, slot: BufferSlot, ring: Ring) {
    && slot.generation <= MAX_GENERATION
    && (entry.Some? ==> Matches(i, entry.value, slot))
    && Holds(i, entry, ring)
  }

  ghost predicate Agree(active: seq<Entry>, slots: Slots, ring: Ring) {
    && |active| == |slots| <= SLOT_RANGE
    && (forall i :: 0 <= i < |active| ==> SlotAgrees(i, active[i], slots[i], ring))
    && (forall u :: u in ring.operations ==> SlotOf(u) < |active|)
    && ring.submitted <= ring.operations
  }

  /** An inactive slot is free. */
  predicate Tidy(active: seq<Entry>, slots: Slots) {
    |active| == |slots| && forall i :: 0 <= i < |active| ==> active[i] == None ==> slots[i].state == Free
  }

  /** A pending cancellation stands in its operation's slot, and only there. */
  ghost predicate CancelsAgree(cancellations: seq<Option<nat>>, depth: nat, cancels: set<nat>) {
    && |cancellations| == depth
    && (forall i :: 0 <= i < depth && cancellations[i].Some? ==>
          cancellations[i].value in cancels && IsIdAt(i, cancellations[i].value))
    && (forall u :: u in cancels ==> SlotOf(u) < depth && cancellations[SlotOf(u)] == Some(u))
  }

  predicate IsIdAt(i: nat, u: nat) {
    SlotOf(u) == i && Legal(i, GenerationOf(u)) && u == Id(i, GenerationOf(u))
  }

  /** The two rings differ at most in operations of slot `i`. */
  ghost predicate DifferAt(ring: Ring, ring': Ring, i: nat) {
    forall u: nat :: SlotOf(u) != i ==> (u in ring.operations <==> u in ring'.operations) && (u in ring.submitted <==> u in ring'.submitted)
  }

  /** Replacing everything about one slot keeps agreement if the slot's new parts agree. */
  lemma ReplaceSlot(active: seq<Entry>, slots: Slots, ring: Ring, i: nat, entry: Entry, slot: BufferSlot, ring': Ring)
    requires Agree(active, slots, ring) && i < |active|
    requires SlotAgrees(i, entry, slot, ring') && DifferAt(ring, ring', i)
    ensures Agree(active[i := entry], slots[i := slot], ring')
  {
    var active', slots' := active[i := entry], slots[i := slot];
    forall j | 0 <= j < |active'| ensures SlotAgrees(j, active'[j], slots'[j], ring') {
      assert SlotAgrees(j, active[j], slots[j], ring);
    }
    forall u | u in ring'.submitted ensures u in ring'.operations {
      if SlotOf(u) != i { assert u in ring.submitted; }
    }
  }

  /** The slot's operation leaves the ring: what the entry becomes is up to the caller. */
  function Without(ring: Ring, u: nat): Ring {
    ring.(operations := ring.operations - {u}, submitted := ring.submitted - {u})
  }

  function With(ring: Ring, u: nat): Ring {
    ring.(operations := ring.operations + {u})
  }

  lemma OnlyOneAt(i: nat, entry: Entry, ring: Ring, u: nat)
    requires Holds(i, entry, ring) && u in ring.operations && SlotOf(u) == i
    ensures entry.Some? && entry.value.userData == u && entry.value.queued
    ensures Holds(i, None, Without(ring, u))
    ensures DifferAt(ring, Without(ring, u), i)
  {}

  lemma AddAt(i: nat, ring: Ring, op: Operation)
    requires Holds(i, None, ring) && SlotOf(op.userData) == i && op.queued && !op.submitted
    ensures Holds(i, Some(op), With(ring, op.userData))
    ensures DifferAt(ring, With(ring, op.userData), i)
  {}

  /** A slot without an operation may change state freely. */
  lemma InactiveSlotMoves(active: seq<Entry>, slots: Slots, ring: Ring, i: nat, slot: BufferSlot)
    requires Agree(active, slots, ring) && i < |active| && active[i] == None && slot.generation <= MAX_GENERATION
    ensures Agree(active, slots[i := slot], ring)
  {
    assert SlotAgrees(i, active[i], slots[i], ring);
    ReplaceSlot(active, slots, ring, i, None, slot, ring);
    assert active[i := None] == active;
  }

  /** Nothing about the other slots changed. */
  predicate OthersKept(active: seq<Entry>, slots: Slots, active': seq<Entry>, slots': Slots, i: nat) {
    && |active'| == |active| == |slots| == |slots'|
    && forall j :: 0 <= j < |active| && j != i ==> active'[j] == active[j] && slots'[j] == slots[j]
  }

  lemma KeptAfterTake(active: seq<Entry>, slots: Slots, entry: Entry, active': seq<Entry>, slots': Slots, i: nat)
    requires i < |active| && OthersKept(active[i := entry], slots, active', slots', i)
    ensures OthersKept(active, slots, active', slots', i)
  {}

  lemma KeptAfterMove(active: seq<Entry>, slots: Slots, slot: BufferSlot, active': seq<Entry>, slots': Slots, i: nat)
    requires i < |slots| && OthersKept(active, slots[i := slot], active', slots', i)
    ensures OthersKept(active, slots, active', slots', i)
  {}

  lemma TidyExcept(active: seq<Entry>, slots: Slots, active': seq<Entry>, slots': Slots, i: nat)
    requires Tidy(active, slots) && OthersKept(active, slots, active', slots', i) && i < |active|
    requires active'[i] == None ==> slots'[i].state == Free
    ensures Tidy(active', slots')
  {}

  /** Cancellations play no part in the agreement of operations. */
  lemma CancelsOnly(active: seq<Entry>, slots: Slots, ring: Ring, cancels: set<nat>)
    requires Agree(active, slots, ring)
    ensures Agree(active, slots, ring.(cancels := cancels))
  {
    forall i | 0 <= i < |active| ensures SlotAgrees(i, active[i], slots[i], ring.(cancels := cancels)) {
      assert SlotAgrees(i, active[i], slots[i], ring);
    }
  }

  // ----- failures -----

  datatype Failure =
    | PoolRefused(error: SlotError) | BuildFailed | SubmitFailed | OperationFailed | RetryLimit
    | BadCompletion | NotSubmitted | ForwardingFailed | UnexpectedCancellation | WaitFailed

  /** Failures that come from outside. The others never occur. */
  predicate External(f: Failure) {
    f in {BuildFailed, SubmitFailed, OperationFailed, RetryLimit, WaitFailed, PoolRefused(GenerationExhausted)}
  }

  function OfPool(refused: Option<SlotError>): Option<Failure> {
    if refused == None then None else Some(PoolRefused(refused.value))
  }

  function Unless(failure: Option<Failure>, r: Result<Option<bool>, Failure>): Result<Option<bool>, Failure> {
    if failure == None then r else Err(failure.value)
  }

  /** What becomes of a new read on a free slot whose last generation is this. */
  function Reposted(generation: nat, builds: bool): Option<Failure> {
    if generation >= MAX_GENERATION then Some(PoolRefused(GenerationExhausted))
    else if builds then None
    else Some(BuildFailed)
  }

  datatype Code = Success | Busy | NoMoreEntries | Failed

  /** A completion entry: user data, the result and the length. */
  datatype IoCompletion = IoCompletion(userData: nat, code: Code, information: nat)

  datatype Endpoint = Endpoint(id: EndpointId, handle: nat)

  class Runtime {
    const first: Endpoint
    const second: Endpoint
    const readsPerEndpoint: nat
    const frameMaximum: nat
    const adaptive: bool
    const pool: BufferPool
    var active: seq<Entry>
    var cancellations: seq<Option<nat>>
    var mayBeInFlight: bool
    var ring: Ring

    ghost predicate Sound()
      reads this, pool
    {
      && first.id != second.id
      && |active| == 2 * readsPerEndpoint
      && Agree(active, pool.slots, ring)
      && CancelsAgree(cancellations, |active|, ring.cancels)
      && (ring.submitted != {} ==> mayBeInFlight)
    }

    ghost predicate Valid()
      reads this, pool
    {
      Sound() && Tidy(active, pool.slots)
    }

    constructor (first: Endpoint, second: Endpoint, readsPerEndpoint: nat, frameMaximum: nat, adaptive: bool)
      requires first.id != second.id && 2 * readsPerEndpoint <= SLOT_RANGE
      ensures Valid() && fresh(pool)
      ensures this.first == first && this.second == second && this.readsPerEndpoint == readsPerEndpoint
      ensures this.frameMaximum == frameMaximum && this.adaptive == adaptive
      ensures ring == Ring({}, {}, {}) && !mayBeInFlight
      ensures forall i :: 0 <= i < |active| ==> active[i] == None
      ensures |cancellations| == |active| && forall i :: 0 <= i < |cancellations| ==> cancellations[i] == None
    {
      this.first, this.second, this.readsPerEndpoint := first, second, readsPerEndpoint;
      this.frameMaximum, this.adaptive := frameMaximum, adaptive;
      pool := new BufferPool(2 * readsPerEndpoint);
      active := seq(2 * readsPerEndpoint, _ => None);
      cancellations := seq(2 * readsPerEndpoint, _ => None);
      mayBeInFlight, ring := false, Ring({}, {}, {});
    }

    function EndpointForSlot(slot: nat): Endpoint
      requires slot < 2 * readsPerEndpoint
    {
      if slot / readsPerEndpoint == 0 then first else second
    }

    /** Starts a read on an inactive slot. If the build fails the slot stays taken. */
    method PostRead(slot: nat, builds: bool) returns (failure: Option<Failure>)
      requires Sound() && slot < |active| && active[slot] == None
      modifies this`active, this`ring, pool
      ensures Sound() && OthersKept(old(active), old(pool.slots), active, pool.slots, slot)
      ensures ring.submitted == old(ring.submitted) && ring.cancels == old(ring.cancels)
      ensures failure == None ==>
                && pool.slots[slot] == BufferSlot(old(pool.slots[slot]).generation + 1, ReadPending)
                && active[slot] == Some(FreshOperation(slot, pool.slots[slot].generation, EndpointForSlot(slot).handle, false, frameMaximum))
      ensures old(pool.slots[slot]).state == Free ==> failure == Reposted(old(pool.slots[slot]).generation, builds)
      ensures failure.Some? ==> active == old(active)
      ensures failure.Some? && failure.value.PoolRefused? ==> pool.slots == old(pool.slots)
    {
      var r := pool.BeginRead(slot);
      if r.Err? {
        return Some(PoolRefused(r.error));
      }
      var completion := r.value;
      assert SlotAgrees(slot, None, old(pool.slots[slot]), ring);
      DecodeEncode(slot, completion.generation);
      if !builds {
        ReplaceSlot(active, old(pool.slots), ring, slot, None, pool.slots[slot], ring);
        assert active[slot := None] == active;
        return Some(BuildFailed);
      }
      var op := Operation(completion, EndpointForSlot(slot).handle, Encode(slot, completion.generation).value, false,
                          frameMaximum, true, false, 0, false);
      AddAt(slot, ring, op);
      ReplaceSlot(active, old(pool.slots), ring, slot, Some(op), pool.slots[slot], With(ring, op.userData));
      active, ring := active[slot := Some(op)], With(ring, op.userData);
      return None;
    }

    /** The slot, generation and direction a completion names. The ring only completes
        operations submitted to it, so none of the checks fails. */
    method ValidateCompletion(c: IoCompletion) returns (r: Result<(nat, nat, bool), Failure>)
      requires Sound() && c.userData in ring.submitted
      ensures r.Ok? && r.value.0 == SlotOf(c.userData) < |active| && active[r.value.0].Some?
      ensures var op := active[r.value.0].value;
              && op.completion == SlotCompletion(r.value.0, r.value.1) && op.isWrite == r.value.2
              && op.userData == c.userData && op.submitted && op.queued
              && Matches(r.value.0, op, pool.slots[r.value.0])
    {
      ghost var at := SlotOf(c.userData);
      assert c.userData in ring.operations;
      assert SlotAgrees(at, active[at], pool.slots[at], ring);
      OnlyOneAt(at, active[at], ring, c.userData);
      DecodeEncode(at, pool.slots[at].generation);
      var decoded := Decode(c.userData);
      if decoded.Err? {
        return Err(BadCompletion);
      }
      var (slot, generation) := decoded.value;
      if slot >= |active| || active[slot] == None {
        return Err(BadCompletion);
      }
      var op := active[slot].value;
      if op.completion.slot != slot || op.completion.generation != generation || op.userData != c.userData {
        return Err(BadCompletion);
      }
      return Ok((slot, generation, op.isWrite));
    }

    /** The completed operation leaves the active table. */
    method Take(slot: nat)
      requires Sound() && slot < |active| && active[slot].Some? && active[slot].value.userData in ring.operations
      modifies this`active, this`ring
      ensures Sound() && active == old(active)[slot := None]
      ensures ring == Without(old(ring), old(active[slot]).value.userData)
    {
      var u := active[slot].value.userData;
      assert SlotAgrees(slot, active[slot], pool.slots[slot], ring);
      DecodeEncode(slot, pool.slots[slot].generation);
      OnlyOneAt(slot, active[slot], ring, u);
      ReplaceSlot(active, pool.slots, ring, slot, None, pool.slots[slot], Without(ring, u));
      assert pool.slots[slot := pool.slots[slot]] == pool.slots;
      active, ring := active[slot := None], Without(ring, u);
    }

    /** A busy operation is built again with the same identity, eight times at most. */
    method RetryBusy(slot: nat, builds: bool) returns (failure: Option<Failure>)
      requires Sound() && slot < |active| && active[slot].Some? && active[slot].value.submitted
      requires active[slot].value.userData in ring.submitted
      modifies this`active, this`ring, pool
      ensures Sound() && OthersKept(old(active), old(pool.slots), active, pool.slots, slot)
      ensures ring.submitted == old(ring.submitted) - {old(active[slot]).value.userData} && ring.cancels == old(ring.cancels)
      ensures failure.Some? ==> External(failure.value)
      ensures if old(active[slot]).value.busyRetries >= MAX_BUSY_RETRIES
              then failure == Some(RetryLimit) && active[slot] == None && pool.slots[slot].state == Free
              else
                && pool.slots == old(pool.slots)
                && failure == (if builds then None else Some(BuildFailed))
                && active[slot] == Some(old(active[slot]).value.(queued := builds, submitted := false,
                                          busyRetries := old(active[slot]).value.busyRetries + 1))
    {
      var op := active[slot].value;
      assert SlotAgrees(slot, active[slot], pool.slots[slot], ring);
      DecodeEncode(slot, pool.slots[slot].generation);
      if !op.submitted {
        return Some(NotSubmitted);
      }
      Take(slot);
      if op.busyRetries >= MAX_BUSY_RETRIES {
        failure := Release(op.completion);
        return if failure.Some? then failure else Some(RetryLimit);
      }
      var again := op.(queued := builds, submitted := false, busyRetries := op.busyRetries + 1);
      assert SlotAgrees(slot, None, pool.slots[slot], ring);
      if builds {
        AddAt(slot, ring, again);
      }
      var ring' := if builds then With(ring, op.userData) else ring;
      ReplaceSlot(active, pool.slots, ring, slot, Some(again), pool.slots[slot], ring');
      assert pool.slots[slot := pool.slots[slot]] == pool.slots;
      active, ring := active[slot := Some(again)], ring';
      return if builds then None else Some(BuildFailed);
    }

    ghost predicate Serves(switch: Switch)
      reads switch, switch.fdb
    {
      switch.Valid() && switch.endpoints == [first.id, second.id]
    }

    /** The endpoint that is not the slot's own. */
    function PeerOfSlot(slot: nat): Endpoint
      requires slot < 2 * readsPerEndpoint
    {
      if slot / readsPerEndpoint == 0 then second else first
    }

    /** Gives the slot back after a frame that goes nowhere and reads into it again. */
    method DropAndRead(completion: SlotCompletion, builds: bool) returns (failure: Option<Failure>)
      requires Sound() && completion.slot < |active| && active[completion.slot] == None
      requires pool.slots[completion.slot] == BufferSlot(completion.generation, Dispatching)
      modifies this`active, this`ring, pool
      ensures Sound() && OthersKept(old(active), old(pool.slots), active, pool.slots, completion.slot)
      ensures ring.submitted == old(ring.submitted) && ring.cancels == old(ring.cancels)
      ensures failure == Reposted(completion.generation, builds)
      ensures failure == None ==>
                active[completion.slot] == Some(FreshOperation(completion.slot, completion.generation + 1,
                                                               EndpointForSlot(completion.slot).handle, false, frameMaximum))
    {
      assert SlotAgrees(completion.slot, None, pool.slots[completion.slot], ring);
      InactiveSlotMoves(active, pool.slots, ring, completion.slot, BufferSlot(completion.generation, Free));
      var refused := pool.CompleteDispatch(completion);
      if refused.Some? {
        return OfPool(refused);
      }
      failure := PostRead(completion.slot, builds);
    }

    /** Starts the write of a dispatched frame to a handle. */
    method PostWrite(completion: SlotCompletion, handle: nat, length: nat, builds: bool) returns (failure: Option<Failure>)
      requires Sound() && completion.slot < |active| && active[completion.slot] == None
      requires pool.slots[completion.slot] == BufferSlot(completion.generation, Dispatching)
      requires Legal(completion.slot, completion.generation)
      modifies this`active, this`ring, pool
      ensures Sound() && OthersKept(old(active), old(pool.slots), active, pool.slots, completion.slot)
      ensures ring.submitted == old(ring.submitted) && ring.cancels == old(ring.cancels)
      ensures failure == if builds then None else Some(BuildFailed)
      ensures failure == None ==>
                active[completion.slot] == Some(FreshOperation(completion.slot, completion.generation, handle, true, length))
    {
      var slot := completion.slot;
      var refused := pool.BeginWrites(completion, 1);
      if refused.Some? {
        return OfPool(refused);
      }
      assert SlotAgrees(slot, None, old(pool.slots[slot]), ring);
      DecodeEncode(slot, completion.generation);
      if !builds {
        InactiveSlotMoves(active, old(pool.slots), ring, slot, pool.slots[slot]);
        return Some(BuildFailed);
      }
      var op := Operation(completion, handle, Encode(slot, completion.generation).value, true, length, true, false, 0, false);
      AddAt(slot, ring, op);
      ReplaceSlot(active, old(pool.slots), ring, slot, Some(op), pool.slots[slot], With(ring, op.userData));
      active, ring := active[slot := Some(op)], With(ring, op.userData);
      return None;
    }

    /** After a read: a write of the frame to the peer if the history has a recipient, and
        otherwise a new read under the next generation. */
    ghost predicate ReadOutcome(switch: Switch, slot: nat, generation: nat, length: nat, buffer: seq<Byte>)
      requires slot < 2 * readsPerEndpoint && |buffer| == frameMaximum
      reads this, switch, switch.fdb
    {
      && slot < |active|
      && active[slot] == Some(
           if GoesOn(switch, slot, length, buffer)
           then FreshOperation(slot, generation, PeerOfSlot(slot).handle, true, length)
           else FreshOperation(slot, generation + 1, EndpointForSlot(slot).handle, false, frameMaximum))
    }

    /** Forwards a frame read into the slot: on to the peer, or dropped and read again. */
    method DispatchRead(switch: Switch, completion: SlotCompletion, length: nat, buffer: seq<Byte>, builds: bool)
        returns (failure: Option<Failure>)
      requires Sound() && Serves(switch) && |buffer| == frameMaximum
      requires completion.slot < |active| && active[completion.slot] == None
      requires pool.slots[completion.slot] == BufferSlot(completion.generation, ReadPending)
      requires Legal(completion.slot, completion.generation)
      modifies this`active, this`ring, pool, switch.fdb
      ensures Sound() && Serves(switch)
      ensures OthersKept(old(active), old(pool.slots), active, pool.slots, completion.slot)
      ensures ring.submitted == old(ring.submitted) && ring.cancels == old(ring.cancels)
      ensures failure == AfterRead(switch, completion.slot, completion.generation, length, buffer, builds)
      ensures switch.fdb.history == NotedRead(old(switch.fdb.history), completion.slot, length, buffer)
      ensures failure == None ==> ReadOutcome(switch, completion.slot, completion.generation, length, buffer)
    {
      ghost var slots := pool.slots;
      var dispatching := BufferSlot(completion.generation, Dispatching);
      InactiveSlotMoves(active, slots, ring, completion.slot, dispatching);
      var refused := pool.BeginDispatch(completion);
      if refused.Some? {
        return OfPool(refused);
      }
      failure := Route(switch, completion, length, buffer, builds);
      KeptAfterMove(old(active), slots, dispatching, active, pool.slots, completion.slot);
    }

    /** Sends a dispatched frame on, or drops it. */
    method Route(switch: Switch, completion: SlotCompletion, length: nat, buffer: seq<Byte>, builds: bool)
        returns (failure: Option<Failure>)
      requires Sound() && Serves(switch) && |buffer| == frameMaximum
      requires completion.slot < |active| && active[completion.slot] == None
      requires pool.slots[completion.slot] == BufferSlot(completion.generation, Dispatching)
      requires Legal(completion.slot, completion.generation)
      modifies this`active, this`ring, pool, switch.fdb
      ensures Sound() && Serves(switch)
      ensures OthersKept(old(active), old(pool.slots), active, pool.slots, completion.slot)
      ensures ring.submitted == old(ring.submitted) && ring.cancels == old(ring.cancels)
      ensures failure == AfterRead(switch, completion.slot, completion.generation, length, buffer, builds)
      ensures switch.fdb.history == NotedRead(old(switch.fdb.history), completion.slot, length, buffer)
      ensures failure == None ==> ReadOutcome(switch, completion.slot, completion.generation, length, buffer)
    {
      if length > frameMaximum {
        failure := DropAndRead(completion, builds);
        return;
      }
      var destination := Recipient(switch, EndpointForSlot(completion.slot).id, buffer[..length]);
      if destination.Err? {
        return Some(ForwardingFailed);
      }
      if destination.value == None {
        failure := DropAndRead(completion, builds);
        return;
      }
      var peer := if destination.value.value == first.id then first.handle else second.handle;
      failure := PostWrite(completion, peer, length, builds);
    }

    /** The frame is for the other side: it is well formed, and not for a station that was
        last seen on the source's own side. */
    ghost predicate Delivers(switch: Switch, source: EndpointId, frame: seq<Byte>)
      reads switch, switch.fdb
    {
      && ParseFrame(frame).Ok?
      && var key := Key(frame[0..6], ParseFrame(frame).value.vlan);
         !(Located(switch.fdb.history, switch.fdb.capacity, key) && LastSeenOn(switch.fdb.history, key, source))
    }

    /** The sightings after a read of `length` bytes: the source of a well-formed frame is
        noted on the slot's endpoint. */
    ghost function NotedRead(history: seq<Sighting>, slot: nat, length: nat, buffer: seq<Byte>): seq<Sighting>
      requires slot < 2 * readsPerEndpoint && |buffer| == frameMaximum
    {
      if length <= frameMaximum then Noted(history, EndpointForSlot(slot).id, buffer[..length]) else history
    }

    /** What becomes of a completed read: the write of a frame that goes on is built, and
        otherwise the slot is read into again. */
    ghost function AfterRead(switch: Switch, slot: nat, generation: nat, length: nat, buffer: seq<Byte>, builds: bool): Option<Failure>
      requires slot < 2 * readsPerEndpoint && |buffer| == frameMaximum
      reads switch, switch.fdb
    {
      if !GoesOn(switch, slot, length, buffer) then Reposted(generation, builds)
      else if builds then None
      else Some(BuildFailed)
    }

    /** The frame read into a slot goes on to the peer. */
    ghost predicate GoesOn(switch: Switch, slot: nat, length: nat, buffer: seq<Byte>)
      requires slot < 2 * readsPerEndpoint && |buffer| == frameMaximum
      reads switch, switch.fdb
    {
      length <= frameMaximum && Delivers(switch, EndpointForSlot(slot).id, buffer[..length])
    }

    /** The first recipient of a frame from one of the two endpoints, if any: the other one. */
    method Recipient(switch: Switch, source: EndpointId, frame: seq<Byte>) returns (r: Result<Option<EndpointId>, Failure>)
      requires Serves(switch) && first.id != second.id && (source == first.id || source == second.id)
      modifies switch.fdb
      ensures Serves(switch)
      ensures r == Ok(if Delivers(switch, source, frame) then Some(if source == first.id then second.id else first.id) else None)
      ensures switch.fdb.history == Noted(old(switch.fdb.history), source, frame)
    {
      var outcome := switch.Forward(source, frame);
      assert source in [first.id, second.id];
      if outcome.Err? {
        return if outcome.error.InvalidFrame? then Ok(None) else Err(ForwardingFailed);
      }
      PairHasOneRecipient(first.id, second.id, switch.fdb.history, switch.fdb.capacity, source, ParseFrame(frame).value);
      assert frame[0..6] == ParseFrame(frame).value.destination;
      return Ok(if outcome.value == [] then None else Some(outcome.value[0]));
    }

    /** The answer to a completion that is not busy, and what it leaves in the slot. A
        success is answered as the read or write it was, unless the next build fails or the
        slot has run out of generations; an empty read in adaptive mode is no progress and
        no failure; anything else is a failed operation. */
    ghost predicate Answered(switch: Switch, slot: nat, was: Operation, c: IoCompletion, buffer: seq<Byte>, builds: bool,
                             r: Result<Option<bool>, Failure>)
      requires slot < 2 * readsPerEndpoint && |buffer| == frameMaximum
      reads this, pool, switch, switch.fdb
    {
      && slot < |active| && slot < |pool.slots|
      && if c.code == Success then
           var failure := if was.isWrite then Reposted(was.completion.generation, builds)
                          else AfterRead(switch, slot, was.completion.generation, c.information, buffer, builds);
           if failure.Some? then r == Err(failure.value)
           else r == Ok(Some(!was.isWrite)) && Outcome(switch, slot, was, c, buffer)
         else
           && active[slot] == None && pool.slots[slot] == BufferSlot(was.completion.generation, Free)
           && r == if adaptive && !was.isWrite && c.code == NoMoreEntries then Ok(None) else Err(OperationFailed)
    }

    /** The answer to a busy completion: the operation is built again under its identity, or
        given up after the last retry. */
    ghost predicate Retried(slot: nat, was: Operation, builds: bool, r: Result<Option<bool>, Failure>)
      reads this, pool
    {
      && slot < |active| && slot < |pool.slots|
      && if was.busyRetries >= MAX_BUSY_RETRIES
         then r == Err(RetryLimit) && active[slot] == None && pool.slots[slot].state == Free
         else
           && r == (if builds then Ok(None) else Err(BuildFailed))
           && active[slot] == Some(was.(queued := builds, submitted := false, busyRetries := was.busyRetries + 1))
    }

    /** Handles one completion popped from the ring. Its answer follows from its code; only
        failures from outside are reported; unless one is, every inactive slot is free
        again. */
    method ProcessCompletion(switch: Switch, c: IoCompletion, buffer: seq<Byte>, builds: bool)
        returns (r: Result<Option<bool>, Failure>)
      requires Valid() && Serves(switch) && |buffer| == frameMaximum
      requires c.userData in ring.submitted
      modifies this`active, this`ring, pool, switch.fdb
      ensures Sound() && Serves(switch)
      ensures OthersKept(old(active), old(pool.slots), active, pool.slots, SlotOf(c.userData))
      ensures ring.submitted == old(ring.submitted) - {c.userData} && ring.cancels == old(ring.cancels)
      ensures r.Ok? ==> Valid()
      ensures SlotOf(c.userData) < |old(active)| && old(active[SlotOf(c.userData)]).Some?
      ensures var slot, was := SlotOf(c.userData), old(active[SlotOf(c.userData)]).value;
              && was.userData == c.userData && was.completion.generation <= MAX_GENERATION
              && (if c.code == Busy then Retried(slot, was, builds, r) else Answered(switch, slot, was, c, buffer, builds, r))
              && switch.fdb.history == if c.code == Success && !was.isWrite
                                       then NotedRead(old(switch.fdb.history), slot, c.information, buffer)
                                       else old(switch.fdb.history)
    {
      var validated := ValidateCompletion(c);
      if validated.Err? {
        return Err(BadCompletion);
      }
      var slot := validated.value.0;
      assert SlotAgrees(slot, active[slot], pool.slots[slot], ring);
      if c.code == Busy {
        var failure := RetryBusy(slot, builds);
        r := Unless(failure, Ok(None));
      } else {
        r := Finish(switch, slot, c, buffer, builds);
      }
      if r.Ok? {
        TidyExcept(old(active), old(pool.slots), active, pool.slots, slot);
      }
    }

    /** What a successful operation leads to in its slot. */
    ghost predicate Outcome(switch: Switch, slot: nat, was: Operation, c: IoCompletion, buffer: seq<Byte>)
      requires slot < 2 * readsPerEndpoint && |buffer| == frameMaximum
      reads this, switch, switch.fdb
    {
      && slot < |active|
      && (if was.isWrite
          then active[slot] == Some(FreshOperation(slot, was.completion.generation + 1,
                                                   EndpointForSlot(slot).handle, false, frameMaximum))
          else ReadOutcome(switch, slot, was.completion.generation, c.information, buffer))
    }

    /** A completion other than busy: the operation leaves the active table. */
    method Finish(switch: Switch, slot: nat, c: IoCompletion, buffer: seq<Byte>, builds: bool)
        returns (r: Result<Option<bool>, Failure>)
      requires Sound() && Serves(switch) && |buffer| == frameMaximum
      requires slot < |active| && active[slot].Some? && active[slot].value.userData in ring.operations
      requires Matches(slot, active[slot].value, pool.slots[slot])
      modifies this`active, this`ring, pool, switch.fdb
      ensures Sound() && Serves(switch)
      ensures OthersKept(old(active), old(pool.slots), active, pool.slots, slot)
      ensures ring.submitted == old(ring.submitted) - {old(active[slot]).value.userData} && ring.cancels == old(ring.cancels)
      ensures Answered(switch, slot, old(active[slot]).value, c, buffer, builds, r)
      ensures switch.fdb.history == if c.code == Success && !old(active[slot]).value.isWrite
                                    then NotedRead(old(switch.fdb.history), slot, c.information, buffer)
                                    else old(switch.fdb.history)
    {
      var op := active[slot].value;
      ghost var was := active;
      Take(slot);
      r := Conclude(switch, op, c, buffer, builds);
      KeptAfterTake(was, old(pool.slots), None, active, pool.slots, slot);
    }

    /** The rest of a completion whose operation has left the active table. */
    method Conclude(switch: Switch, op: Operation, c: IoCompletion, buffer: seq<Byte>, builds: bool)
        returns (r: Result<Option<bool>, Failure>)
      requires Sound() && Serves(switch) && |buffer| == frameMaximum
      requires op.completion.slot < |active| && active[op.completion.slot] == None
      requires Matches(op.completion.slot, op, pool.slots[op.completion.slot])
      modifies this`active, this`ring, pool, switch.fdb
      ensures Sound() && Serves(switch)
      ensures OthersKept(old(active), old(pool.slots), active, pool.slots, op.completion.slot)
      ensures ring.submitted == old(ring.submitted) && ring.cancels == old(ring.cancels)
      ensures Answered(switch, op.completion.slot, op, c, buffer, builds, r)
      ensures switch.fdb.history == if c.code == Success && !op.isWrite
                                    then NotedRead(old(switch.fdb.history), op.completion.slot, c.information, buffer)
                                    else old(switch.fdb.history)
    {
      if adaptive && !op.isWrite && c.code == NoMoreEntries {
        var failure := Release(op.completion);
        return Unless(failure, Ok(None));
      }
      if c.code != Success {
        var failure := Release(op.completion);
        return Unless(failure, Err(OperationFailed));
      }
      var failure;
      if op.isWrite {
        failure := FinishWrite(op.completion, builds);
      } else {
        failure := DispatchRead(switch, op.completion, c.information, buffer, builds);
      }
      return Unless(failure, Ok(Some(!op.isWrite)));
    }

    /** Frees the slot of an operation that is no longer active. */
    method Release(completion: SlotCompletion) returns (failure: Option<Failure>)
      requires Sound() && completion.slot < |active| && active[completion.slot] == None
      requires pool.slots[completion.slot].generation == completion.generation && pool.slots[completion.slot].state != Free
      modifies pool
      ensures Sound() && failure == None
      ensures pool.slots == old(pool.slots)[completion.slot := BufferSlot(completion.generation, Free)]
    {
      assert SlotAgrees(completion.slot, None, pool.slots[completion.slot], ring);
      InactiveSlotMoves(active, pool.slots, ring, completion.slot, BufferSlot(completion.generation, Free));
      var refused := pool.Cancel(completion);
      return OfPool(refused);
    }

    /** A finished write frees the slot and reads into it again. */
    method FinishWrite(completion: SlotCompletion, builds: bool) returns (failure: Option<Failure>)
      requires Sound() && completion.slot < |active| && active[completion.slot] == None
      requires pool.slots[completion.slot] == BufferSlot(completion.generation, WritePending(1))
      modifies this`active, this`ring, pool
      ensures Sound() && OthersKept(old(active), old(pool.slots), active, pool.slots, completion.slot)
      ensures ring.submitted == old(ring.submitted) && ring.cancels == old(ring.cancels)
      ensures failure == Reposted(completion.generation, builds)
      ensures failure == None ==>
                active[completion.slot] == Some(FreshOperation(completion.slot, completion.generation + 1,
                                                               EndpointForSlot(completion.slot).handle, false, frameMaximum))
    {
      assert SlotAgrees(completion.slot, None, pool.slots[completion.slot], ring);
      InactiveSlotMoves(active, pool.slots, ring, completion.slot, BufferSlot(completion.generation, Free));
      var refused := pool.CompleteWrite(completion);
      if refused.Some? {
        return OfPool(refused);
      }
      failure := PostRead(completion.slot, builds);
    }

    /** Removes an operation the ring does not hold. */
    method DropUnqueued(slot: nat)
      requires Sound() && slot < |active| && active[slot].Some? && !active[slot].value.queued
      modifies this`active
      ensures Sound() && active == old(active)[slot := None]
    {
      assert SlotAgrees(slot, active[slot], pool.slots[slot], ring);
      ReplaceSlot(active, pool.slots, ring, slot, None, pool.slots[slot], ring);
      assert pool.slots[slot := pool.slots[slot]] == pool.slots;
      active := active[slot := None];
    }

    /** Removes a cancellation the ring has finished. */
    method DropCancellation(slot: nat)
      requires Sound() && slot < |active| && cancellations[slot].Some?
      modifies this`cancellations, this`ring
      ensures Sound() && cancellations == old(cancellations)[slot := None]
      ensures ring == old(ring).(cancels := old(ring).cancels - {old(cancellations[slot]).value})
    {
      var u := cancellations[slot].value;
      assert IsIdAt(slot, u);
      CancelsOnly(active, pool.slots, ring, ring.cancels - {u});
      cancellations, ring := cancellations[slot := None], ring.(cancels := ring.cancels - {u});
    }

    /** Asks the ring to cancel the slot's operation. */
    method AddCancellation(slot: nat)
      requires Sound() && slot < |active| && active[slot].Some? && cancellations[slot] == None
      modifies this`cancellations, this`ring
      ensures Sound() && cancellations == old(cancellations)[slot := Some(active[slot].value.userData)]
      ensures ring == old(ring).(cancels := old(ring).cancels + {active[slot].value.userData})
    {
      var u := active[slot].value.userData;
      assert SlotAgrees(slot, active[slot], pool.slots[slot], ring);
      DecodeEncode(slot, pool.slots[slot].generation);
      assert IsIdAt(slot, u);
      CancelsOnly(active, pool.slots, ring, ring.cancels + {u});
      cancellations, ring := cancellations[slot := Some(u)], ring.(cancels := ring.cancels + {u});
    }

    // ----- submission -----

    /** Submits everything built and flags it. */
    method SubmitPending(ok: bool) returns (failure: Option<Failure>)
      requires Sound()
      modifies this`active, this`ring, this`mayBeInFlight
      ensures Sound()
      ensures failure == if ok then None else Some(SubmitFailed)
      ensures !ok ==> active == old(active) && ring == old(ring) && mayBeInFlight == old(mayBeInFlight)
      ensures ok ==> mayBeInFlight && ring == old(ring).(submitted := old(ring).operations)
      ensures ok ==> |active| == old(|active|) && forall i :: 0 <= i < |active| ==> active[i] == Flagged(old(active[i]))
    {
      if !ok {
        return Some(SubmitFailed);
      }
      var flagged: seq<Entry> := [];
      for i := 0 to |active|
        invariant |flagged| == i
        invariant forall j :: 0 <= j < i ==> flagged[j] == Flagged(active[j])
      {
        var entry := active[i];
        if entry.Some? && entry.value.queued && !entry.value.submitted {
          entry := Some(entry.value.(submitted := true));
        }
        flagged := flagged + [entry];
      }
      FlaggingAgrees(active, flagged, pool.slots, ring);
      active, ring, mayBeInFlight := flagged, ring.(submitted := ring.operations), true;
      return None;
    }

    /** Waits for completions, which also submits whatever is built. */
    method WaitForCompletion(ok: bool) returns (failure: Option<Failure>)
      requires Sound() && AllFlagged(active) && mayBeInFlight
      modifies this`ring
      ensures Sound()
      ensures failure == if ok then None else Some(SubmitFailed)
      ensures ring == old(ring) || ring == old(ring).(submitted := old(ring).operations)
    {
      if !ok {
        return Some(SubmitFailed);
      }
      FlaggingAgrees(active, active, pool.slots, ring);
      ring := ring.(submitted := ring.operations);
      return None;
    }

    /** Reads into every inactive slot. No slot can be found taken. */
    method PostIdleReads(builds: nat -> bool) returns (failure: Option<Failure>)
      requires Valid()
      modifies this`active, this`ring, pool
      ensures Sound() && ring.cancels == old(ring.cancels)
      ensures |active| == old(|active|)
      ensures failure == Some(BuildFailed) ==> exists i :: 0 <= i < |active| && !builds(i)
      ensures failure == Some(PoolRefused(GenerationExhausted)) ==> Exhausted(pool.slots)
      ensures failure == None ==>
                && Valid()
                && forall i :: 0 <= i < |active| ==>
                     Reading(active[i]) || (old(active[i]).Some? && active[i] == old(active[i]))
      ensures failure.Some? ==> failure.value in {BuildFailed, PoolRefused(GenerationExhausted)}
    {
      for slot := 0 to |active|
        invariant Valid() && ring.cancels == old(ring.cancels)
        invariant slot <= |active| == old(|active|)
        invariant forall i :: 0 <= i < slot ==> Reading(active[i]) || (old(active[i]).Some? && active[i] == old(active[i]))
        invariant forall i :: slot <= i < |active| ==> active[i] == old(active[i])
      {
        if active[slot] == None {
          ghost var was, slots := active, pool.slots;
          failure := PostRead(slot, builds(slot));
          if failure.Some? {
            return;
          }
          TidyExcept(was, slots, active, pool.slots, slot);
        }
      }
      return None;
    }
  }

  /** Some slot has run out of generations. */
  predicate Exhausted(slots: Slots) {
    exists i :: 0 <= i < |slots| && slots[i].generation >= MAX_GENERATION
  }

  /** A read built and not yet submitted. */
  predicate Reading(entry: Entry) {
    entry.Some? && !entry.value.isWrite && entry.value.queued && !entry.value.submitted
  }

  function Flagged(entry: Entry): Entry {
    if entry.Some? && entry.value.queued then Some(entry.value.(submitted := true)) else entry
  }

  predicate AllFlagged(active: seq<Entry>) {
    forall i :: 0 <= i < |active| ==> active[i] == Flagged(active[i])
  }

  lemma FlaggingAgrees(active: seq<Entry>, flagged: seq<Entry>, slots: Slots, ring: Ring)
    requires Agree(active, slots, ring) && |flagged| == |active|
    requires forall i :: 0 <= i < |active| ==> flagged[i] == Flagged(active[i])
    ensures Agree(flagged, slots, ring.(submitted := ring.operations))
  {
    var ring' := ring.(submitted := ring.operations);
    forall i | 0 <= i < |active| ensures SlotAgrees(i, flagged[i], slots[i], ring') {
      assert SlotAgrees(i, active[i], slots[i], ring);
    }
  }
}
