/** The switch's buffer slots. Each slot carries a generation so that a completion names
    one use of the slot and never a later one. */
module BufferPool {
  import opened Wrappers

  const MAX_GENERATION: nat := 0xffff_ffff

  datatype SlotState = Free | ReadPending | Dispatching | WritePending(count: nat)

  datatype SlotCompletion = SlotCompletion(slot: nat, generation: nat)

  datatype SlotError = InvalidSlot | NotFree | StaleCompletion | InvalidTransition | GenerationExhausted

  datatype BufferSlot = BufferSlot(generation: nat, state: SlotState)

  type Slots = seq<BufferSlot>

  // ----- the pool as a value -----

  /** The operations that carry a completion identity. */
  datatype Use = Dispatch | Writes(count: nat) | DropFrame | Written | Cancelled

  /** The state a slot moves to, if it may. */
  function Moved(state: SlotState, use: Use): Option<SlotState> {
    match use
    case Dispatch => if state == ReadPending then Some(Dispatching) else None
    case Writes(count) => if state == Dispatching && count != 0 then Some(WritePending(count)) else None
    case DropFrame => if state == Dispatching then Some(Free) else None
    case Written =>
      if !state.WritePending? || state.count == 0 then None
      else if state.count > 1 then Some(WritePending(state.count - 1)) else Some(Free)
    case Cancelled => if state == Free then None else Some(Free)
  }

  function Verdict(slots: Slots, c: SlotCompletion, use: Use): Result<SlotState, SlotError> {
    if c.slot >= |slots| then Err(InvalidSlot)
    else if slots[c.slot].generation != c.generation then Err(StaleCompletion)
    else
      var next := Moved(slots[c.slot].state, use);
      if next == None then Err(InvalidTransition) else Ok(next.value)
  }

  function AfterUse(slots: Slots, c: SlotCompletion, use: Use): (after: Slots)
    ensures |after| == |slots|
  {
    var verdict := Verdict(slots, c, use);
    if verdict.Ok? then slots[c.slot := BufferSlot(c.generation, verdict.value)] else slots
  }

  function BeginVerdict(slots: Slots, slot: nat): Result<SlotCompletion, SlotError> {
    if slot >= |slots| then Err(InvalidSlot)
    else if slots[slot].state != Free then Err(NotFree)
    else if slots[slot].generation >= MAX_GENERATION then Err(GenerationExhausted)
    else Ok(SlotCompletion(slot, slots[slot].generation + 1))
  }

  function AfterBegin(slots: Slots, slot: nat): (after: Slots)
    ensures |after| == |slots|
  {
    var verdict := BeginVerdict(slots, slot);
    if verdict.Ok? then slots[slot := BufferSlot(verdict.value.generation, ReadPending)] else slots
  }

  // ----- histories -----

  datatype Op = Begin(slot: nat) | Apply(completion: SlotCompletion, use: Use)

  /** The pool with every identity it has given out, in order. */
  datatype History = History(slots: Slots, issued: seq<SlotCompletion>)

  function Step(h: History, op: Op): History {
    match op
    case Begin(slot) =>
      var verdict := BeginVerdict(h.slots, slot);
      History(AfterBegin(h.slots, slot), if verdict.Ok? then h.issued + [verdict.value] else h.issued)
    case Apply(c, use) => History(AfterUse(h.slots, c, use), h.issued)
  }

  function Replay(start: History, ops: seq<Op>): History {
    if ops == [] then start else Step(Replay(start, ops[..|ops| - 1]), ops[|ops| - 1])
  }

  predicate Fresh(slots: Slots) {
    forall i :: 0 <= i < |slots| ==> slots[i] == BufferSlot(0, Free)
  }

  predicate Below(slots: Slots, c: SlotCompletion) {
    c.slot < |slots| && 1 <= c.generation <= slots[c.slot].generation <= MAX_GENERATION
  }

  ghost predicate IssuedOnce(h: History) {
    && (forall i :: 0 <= i < |h.slots| ==> h.slots[i].generation <= MAX_GENERATION)
    && (forall i :: 0 <= i < |h.issued| ==> Below(h.slots, h.issued[i]))
    && (forall i, j :: 0 <= i < j < |h.issued| ==>
          h.issued[i].slot == h.issued[j].slot ==> h.issued[i].generation < h.issued[j].generation)
  }

  lemma StepKeepsIssued(h: History, op: Op)
    requires IssuedOnce(h)
    ensures IssuedOnce(Step(h, op))
  {
    var h' := Step(h, op);
    forall i | 0 <= i < |h.issued| ensures Below(h'.slots, h.issued[i]) {
      assert Below(h.slots, h.issued[i]);
    }
  }

  /** Over any run of the pool, the identities given out for a slot have strictly rising
      generations that fit in 32 bits, so no identity is ever given out twice. */
  lemma {:induction false} IdentitiesNeverReused(start: History, ops: seq<Op>)
    requires Fresh(start.slots) && start.issued == []
    ensures IssuedOnce(Replay(start, ops))
  {
    if ops != [] {
      IdentitiesNeverReused(start, ops[..|ops| - 1]);
      StepKeepsIssued(Replay(start, ops[..|ops| - 1]), ops[|ops| - 1]);
    }
  }

  /** The identity's use of its slot is over. */
  predicate Over(slots: Slots, c: SlotCompletion) {
    c.slot < |slots| && c.generation <= slots[c.slot].generation &&
    (c.generation == slots[c.slot].generation ==> slots[c.slot].state == Free)
  }

  lemma {:induction false} OverStaysOver(start: History, ops: seq<Op>, c: SlotCompletion)
    requires Over(start.slots, c)
    ensures Over(Replay(start, ops).slots, c)
  {
    if ops != [] {
      OverStaysOver(start, ops[..|ops| - 1], c);
    }
  }

  /** Once an identity's use is over, presenting it again at any later time, for any purpose,
      is refused and leaves the pool as it was. */
  lemma StaleNeverChanges(start: History, ops: seq<Op>, c: SlotCompletion, use: Use)
    requires Over(start.slots, c)
    ensures var slots := Replay(start, ops).slots;
            Verdict(slots, c, use).Err? && AfterUse(slots, c, use) == slots
  {
    OverStaysOver(start, ops, c);
  }

  // ----- the pool in place -----

  class BufferPool {
    var slots: Slots

    constructor (count: nat)
      ensures |slots| == count && Fresh(slots)
    {
      slots := seq(count, _ => BufferSlot(0, Free));
    }

    method BeginRead(slot: nat) returns (r: Result<SlotCompletion, SlotError>)
      modifies this
      ensures r == BeginVerdict(old(slots), slot)
      ensures slots == AfterBegin(old(slots), slot)
    {
      if slot >= |slots| {
        return Err(InvalidSlot);
      }
      var entry := slots[slot];
      if entry.state != Free {
        return Err(NotFree);
      }
      var generation := entry.generation + 1;
      if generation > MAX_GENERATION {
        return Err(GenerationExhausted);
      }
      slots := slots[slot := BufferSlot(generation, ReadPending)];
      return Ok(SlotCompletion(slot, generation));
    }

    /** The slot a completion names, if it is that slot's present use. */
    method Current(completion: SlotCompletion) returns (r: Result<BufferSlot, SlotError>)
      ensures r == if completion.slot >= |slots| then Err(InvalidSlot)
                   else if slots[completion.slot].generation != completion.generation then Err(StaleCompletion)
                   else Ok(slots[completion.slot])
    {
      if completion.slot >= |slots| {
        return Err(InvalidSlot);
      }
      if slots[completion.slot].generation != completion.generation {
        return Err(StaleCompletion);
      }
      return Ok(slots[completion.slot]);
    }

    method BeginDispatch(completion: SlotCompletion) returns (r: Option<SlotError>)
      modifies this
      ensures slots == AfterUse(old(slots), completion, Dispatch)
      ensures r == Refusal(Verdict(old(slots), completion, Dispatch))
    {
      var current := Current(completion);
      if current.Err? {
        return Some(current.error);
      }
      if current.value.state != ReadPending {
        return Some(InvalidTransition);
      }
      slots := slots[completion.slot := BufferSlot(completion.generation, Dispatching)];
      return None;
    }

    method BeginWrites(completion: SlotCompletion, count: nat) returns (r: Option<SlotError>)
      modifies this
      ensures slots == AfterUse(old(slots), completion, Writes(count))
      ensures r == Refusal(Verdict(old(slots), completion, Writes(count)))
    {
      var current := Current(completion);
      if current.Err? {
        return Some(current.error);
      }
      if current.value.state != Dispatching || count == 0 {
        return Some(InvalidTransition);
      }
      slots := slots[completion.slot := BufferSlot(completion.generation, WritePending(count))];
      return None;
    }

    method CompleteDispatch(completion: SlotCompletion) returns (r: Option<SlotError>)
      modifies this
      ensures slots == AfterUse(old(slots), completion, DropFrame)
      ensures r == Refusal(Verdict(old(slots), completion, DropFrame))
    {
      var current := Current(completion);
      if current.Err? {
        return Some(current.error);
      }
      if current.value.state != Dispatching {
        return Some(InvalidTransition);
      }
      slots := slots[completion.slot := BufferSlot(completion.generation, Free)];
      return None;
    }

    method CompleteWrite(completion: SlotCompletion) returns (r: Option<SlotError>)
      modifies this
      ensures slots == AfterUse(old(slots), completion, Written)
      ensures r == Refusal(Verdict(old(slots), completion, Written))
    {
      var current := Current(completion);
      if current.Err? {
        return Some(current.error);
      }
      match current.value.state
      case WritePending(remaining) =>
        if remaining > 1 {
          slots := slots[completion.slot := BufferSlot(completion.generation, WritePending(remaining - 1))];
          return None;
        }
        if remaining == 1 {
          slots := slots[completion.slot := BufferSlot(completion.generation, Free)];
          return None;
        }
        return Some(InvalidTransition);
      case _ => return Some(InvalidTransition);
    }

    method Cancel(completion: SlotCompletion) returns (r: Option<SlotError>)
      modifies this
      ensures slots == AfterUse(old(slots), completion, Cancelled)
      ensures r == Refusal(Verdict(old(slots), completion, Cancelled))
    {
      var current := Current(completion);
      if current.Err? {
        return Some(current.error);
      }
      if current.value.state == Free {
        return Some(InvalidTransition);
      }
      slots := slots[completion.slot := BufferSlot(completion.generation, Free)];
      return None;
    }
  }

  function Refusal(verdict: Result<SlotState, SlotError>): Option<SlotError> {
    if verdict.Ok? then None else Some(verdict.error)
  }
}
