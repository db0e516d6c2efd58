/** The bounded frame queue: a circular buffer of frames with a frame limit and a byte
    budget, proved against a bounded sequence. */
module FrameQueue {
  import Ring

  type Byte = x: int | 0 <= x < 256

  /** A frame is its valid bytes; storage beyond the valid length is never read. */
  type Frame = seq<Byte>

  const FRAME_MINIMUM: nat := 14
  const FRAME_MAXIMUM: nat := 65_535

  datatype QueueError = InvalidFrameLength | Full | Closed | InsufficientResources

  datatype QueueState = Opened | Closing | Shut

  datatype Outcome = Accepted | Refused(error: QueueError)

  /** A slot that holds a frame, or storage nobody may read. */
  datatype Slot = Uninit | Held(frame: Frame)

  function TotalBytes(frames: seq<Frame>): nat {
    if frames == [] then 0 else TotalBytes(frames[..|frames| - 1]) + |frames[|frames| - 1]|
  }

  lemma {:induction false} TotalBytesOfFirst(frames: seq<Frame>)
    requires |frames| > 0
    ensures TotalBytes(frames) == |frames[0]| + TotalBytes(frames[1..])
  {
    if |frames| == 1 {
      assert frames[1..] == [];
    } else {
      TotalBytesOfFirst(frames[..|frames| - 1]);
      assert frames[..|frames| - 1][1..] == frames[1..][..|frames| - 2];
    }
  }

  lemma TotalBytesOfAppend(frames: seq<Frame>, frame: Frame)
    ensures TotalBytes(frames + [frame]) == TotalBytes(frames) + |frame|
  {
    assert (frames + [frame])[..|frames|] == frames;
  }

  /** Admission of a frame of `size` bytes to a queue with the given contents. */
  function Capacity(frames: seq<Frame>, state: QueueState, limit: nat, byteLimit: nat, size: nat): Outcome {
    if state != Opened then Refused(Closed)
    else if TotalBytes(frames) > byteLimit then Refused(Full)
    else if |frames| >= limit || size > byteLimit - TotalBytes(frames) then Refused(Full)
    else Accepted
  }

  /** `x % limit` for a position less than two laps out. */
  function Wrap(x: nat, limit: nat): (index: nat)
    requires x < 2 * limit
    ensures index < limit
  {
    if x < limit then x else x - limit
  }

  /** The driver's remainder, taken once so that everything else is linear. */
  method Remainder(x: nat, limit: nat) returns (index: nat)
    requires x < 2 * limit
    ensures index == Wrap(x, limit)
  {
    index := x % limit;
    Ring.ModUnique(x, limit, if x < limit then 0 else 1, Wrap(x, limit));
  }

  /** The `i`th slot from `head` on, going round. */
  function SlotAt(slots: seq<Slot>, head: nat, i: nat): Slot
    requires head < |slots| && i < |slots|
  {
    slots[Wrap(head + i, |slots|)]
  }

  /** The first `length` slots from `head` on hold exactly these frames, of `bytes` bytes. */
  ghost predicate Holds(slots: seq<Slot>, head: nat, length: nat, bytes: nat, frames: seq<Frame>) {
    && |frames| == length <= |slots|
    && (if |slots| == 0 then head == 0 else head < |slots|)
    && (forall i :: 0 <= i < length ==> SlotAt(slots, head, i) == Held(frames[i]))
    && bytes == TotalBytes(frames)
  }

  lemma HoldsAppend(slots: seq<Slot>, head: nat, length: nat, bytes: nat, frames: seq<Frame>, frame: Frame)
    requires Holds(slots, head, length, bytes, frames) && length < |slots|
    ensures head < |slots|
    ensures Holds(slots[Wrap(head + length, |slots|) := Held(frame)], head, length + 1, bytes + |frame|, frames + [frame])
  {
    TotalBytesOfAppend(frames, frame);
  }

  lemma HoldsDrop(slots: seq<Slot>, head: nat, length: nat, bytes: nat, frames: seq<Frame>)
    requires Holds(slots, head, length, bytes, frames) && length > 0
    ensures head < |slots| && slots[head] == Held(frames[0]) && |frames[0]| <= bytes
    ensures Holds(slots[head := Uninit], Wrap(head + 1, |slots|), length - 1, bytes - |frames[0]|, frames[1..])
  {
    var slots', head' := slots[head := Uninit], Wrap(head + 1, |slots|);
    assert slots[head] == SlotAt(slots, head, 0);
    forall i | 0 <= i < length - 1 ensures SlotAt(slots', head', i) == Held(frames[1..][i]) {
      assert SlotAt(slots', head', i) == SlotAt(slots, head, i + 1);
    }
    TotalBytesOfFirst(frames);
  }

  lemma Regroup(released: seq<Frame>, frames: seq<Frame>)
    requires frames != []
    ensures released + frames == released + [frames[0]] + frames[1..]
  {}

  // ----- histories -----

  datatype Op = Put(frame: Frame) | Take | StartClose | Clear(reopen: bool)

  /** The queue as a bounded sequence, with everything that was ever accepted and
      everything that has left, in order. */
  datatype History = History(frames: seq<Frame>, state: QueueState, accepted: seq<Frame>, gone: seq<Frame>)

  function Apply(h: History, op: Op, limit: nat, byteLimit: nat): History {
    match op
    case Put(frame) =>
      if Capacity(h.frames, h.state, limit, byteLimit, |frame|) == Accepted
      then h.(frames := h.frames + [frame], accepted := h.accepted + [frame]) else h
    case Take =>
      if h.frames == [] then h else h.(frames := h.frames[1..], gone := h.gone + [h.frames[0]])
    case StartClose => if h.state == Opened then h.(state := Closing) else h
    case Clear(reopen) =>
      h.(frames := [], gone := h.gone + h.frames, state := if reopen then Opened else Shut)
  }

  function Replay(ops: seq<Op>, limit: nat, byteLimit: nat): History {
    if ops == [] then History([], Opened, [], [])
    else Apply(Replay(ops[..|ops| - 1], limit, byteLimit), ops[|ops| - 1], limit, byteLimit)
  }

  predicate Accounted(h: History, limit: nat, byteLimit: nat) {
    && h.gone + h.frames == h.accepted
    && |h.frames| <= limit
    && TotalBytes(h.frames) <= byteLimit
    && (h.state == Shut ==> h.frames == [])
  }

  lemma ApplyKeepsAccount(h: History, op: Op, limit: nat, byteLimit: nat)
    requires Accounted(h, limit, byteLimit)
    ensures Accounted(Apply(h, op, limit, byteLimit), limit, byteLimit)
  {
    match op
    case Put(frame) =>
      TotalBytesOfAppend(h.frames, frame);
      Appended(h.gone, h.frames, h.accepted, frame);
    case Take =>
      if h.frames != [] {
        TotalBytesOfFirst(h.frames);
        Regroup(h.gone, h.frames);
      }
    case StartClose =>
    case Clear(_) =>
  }

  lemma Appended(gone: seq<Frame>, frames: seq<Frame>, accepted: seq<Frame>, frame: Frame)
    requires gone + frames == accepted
    ensures gone + (frames + [frame]) == accepted + [frame]
  {}

  /** `h` is `start` with these frames taken. */
  ghost predicate Released(start: History, h: History, released: seq<Frame>) {
    && released + h.frames == start.frames
    && h == start.(frames := h.frames, gone := start.gone + released)
  }

  lemma ReleaseOne(start: History, h: History, released: seq<Frame>, limit: nat, byteLimit: nat)
    requires Released(start, h, released) && h.frames != []
    ensures Released(start, Apply(h, Take, limit, byteLimit), released + [h.frames[0]])
  {
    Regroup(released, h.frames);
    assert start.gone + (released + [h.frames[0]]) == (start.gone + released) + [h.frames[0]];
  }

  // ----- the circular buffer -----

  class FrameQueue {
    const limit: nat
    const byteLimit: nat
    const slots: array<Slot>
    var head: nat
    var length: nat
    var bytes: nat
    var state: QueueState

    /** The queued frames, oldest first. */
    ghost var Contents: seq<Frame>

    /** Everything that has happened to the queue. */
    ghost var Past: History

    ghost predicate Stored()
      reads this, slots
    {
      && slots.Length == limit
      && length == |Contents|
      && Holds(slots[..], head, length, bytes, Contents)
    }

    ghost predicate Valid()
      reads this, slots
    {
      && Stored()
      && Past.frames == Contents && Past.state == state
      && Accounted(Past, limit, byteLimit)
    }

    constructor (limit: nat, byteLimit: nat)
      ensures Valid() && fresh(slots)
      ensures Contents == [] && state == Opened
      ensures this.limit == limit && this.byteLimit == byteLimit
      ensures Past == History([], Opened, [], [])
    {
      this.limit, this.byteLimit := limit, byteLimit;
      slots := new Slot[limit](_ => Uninit);
      head, length, bytes, state := 0, 0, 0, Opened;
      Contents, Past := [], History([], Opened, [], []);
    }

    /** Notes what has just happened to the contents and the state. */
    ghost method Note(op: Op)
      requires Stored() && Accounted(Past, limit, byteLimit)
      requires Apply(Past, op, limit, byteLimit).frames == Contents && Apply(Past, op, limit, byteLimit).state == state
      modifies this`Past
      ensures Valid() && Past == Apply(old(Past), op, limit, byteLimit)
    {
      ApplyKeepsAccount(Past, op, limit, byteLimit);
      Past := Apply(Past, op, limit, byteLimit);
    }

    method CheckCapacity(size: nat) returns (r: Outcome)
      requires Valid()
      ensures r == Capacity(Contents, state, limit, byteLimit, size)
    {
      if state != Opened {
        return Refused(Closed);
      }
      if bytes > byteLimit {
        return Refused(Full);
      }
      var remaining := byteLimit - bytes;
      if length >= limit || size > remaining {
        return Refused(Full);
      }
      return Accepted;
    }

    /** Appends the frame, or leaves everything alone and says why. */
    method Enqueue(frame: Frame) returns (r: Outcome)
      requires Valid()
      modifies this, slots
      ensures Valid() && state == old(state)
      ensures r == Capacity(old(Contents), old(state), limit, byteLimit, |frame|)
      ensures Contents == if r == Accepted then old(Contents) + [frame] else old(Contents)
      ensures Past == Apply(old(Past), Put(frame), limit, byteLimit)
    {
      if state != Opened {
        return Refused(Closed);
      }
      r := CheckCapacity(|frame|);
      if r != Accepted {
        return;
      }
      PutTail(frame);
      Note(Put(frame));
    }

    method PutTail(frame: Frame)
      requires Stored() && length < limit
      modifies this, slots
      ensures Stored() && state == old(state) && Past == old(Past)
      ensures Contents == old(Contents) + [frame]
    {
      ghost var was, more := slots[..], Contents + [frame];
      HoldsAppend(was, head, length, bytes, Contents, frame);
      var index := Remainder(head + length, limit);
      SetSlot(index, Held(frame));
      length, bytes := length + 1, bytes + |frame|;
      Contents := more;
    }

    method SetSlot(index: nat, slot: Slot)
      requires index < slots.Length
      modifies slots
      ensures slots[..] == old(slots[..])[index := slot]
    {
      slots[index] := slot;
    }

    /** Takes the oldest frame. The slot it reads always holds one. */
    method Dequeue() returns (frame: Slot)
      requires Valid()
      modifies this, slots
      ensures Valid() && state == old(state)
      ensures if old(Contents) == [] then frame == Uninit && Contents == []
              else frame == Held(old(Contents)[0]) && Contents == old(Contents)[1..]
      ensures Past == Apply(old(Past), Take, limit, byteLimit)
    {
      if length == 0 {
        return Uninit;
      }
      frame := TakeHead();
      Note(Take);
    }

    method TakeHead() returns (frame: Slot)
      requires Stored() && Contents != []
      modifies this, slots
      ensures Stored() && state == old(state) && Past == old(Past)
      ensures frame == Held(old(Contents)[0]) && Contents == old(Contents)[1..]
    {
      ghost var was, rest := slots[..], Contents[1..];
      HoldsDrop(was, head, length, bytes, Contents);
      var next := Remainder(head + 1, limit);
      frame := slots[head];
      assert frame == Held(Contents[0]);
      var left: nat := bytes - |frame.frame|;
      assert Holds(was[head := Uninit], next, length - 1, left, rest);
      SetSlot(head, Uninit);
      head, length, bytes, Contents := next, length - 1, left, rest;
    }

    method BeginClose()
      requires Valid()
      modifies this
      ensures Valid() && Contents == old(Contents)
      ensures state == if old(state) == Opened then Closing else old(state)
      ensures Past == Apply(old(Past), StartClose, limit, byteLimit)
    {
      if state == Opened {
        state := Closing;
      }
      Note(StartClose);
    }

    /** Releases every queued frame, oldest first. */
    method ClearFrames() returns (ghost released: seq<Frame>)
      requires Valid()
      modifies this, slots
      ensures Valid() && state == old(state)
      ensures Contents == [] && released == old(Contents)
      ensures Past == old(Past).(frames := [], gone := old(Past).gone + released)
    {
      released := [];
      ghost var start := Past;
      while length > 0
        invariant Valid() && state == start.state
        invariant Released(start, Past, released)
        decreases length
      {
        ReleaseOne(start, Past, released, limit, byteLimit);
        var frame := Dequeue();
        released := released + [frame.frame];
      }
    }

    method Close() returns (ghost released: seq<Frame>)
      requires Valid()
      modifies this, slots
      ensures Valid() && state == Shut
      ensures Contents == [] && released == old(Contents)
      ensures Past == Apply(old(Past), Clear(false), limit, byteLimit)
    {
      released := ClearFrames();
      state, Past := Shut, Past.(state := Shut);
    }

    method Reopen() returns (ghost released: seq<Frame>)
      requires Valid()
      modifies this, slots
      ensures Valid() && state == Opened
      ensures Contents == [] && released == old(Contents)
      ensures Past == Apply(old(Past), Clear(true), limit, byteLimit)
    {
      released := ClearFrames();
      state, Past := Opened, Past.(state := Opened);
    }
  }

  // ----- the byte budget -----

  predicate AllWithin(frames: seq<Frame>, maximum: nat) {
    forall i :: 0 <= i < |frames| ==> |frames[i]| <= maximum
  }

  lemma {:induction false} BytesBounded(frames: seq<Frame>, maximum: nat)
    requires AllWithin(frames, maximum)
    ensures TotalBytes(frames) <= |frames| * maximum
  {
    if frames != [] {
      BytesBounded(frames[..|frames| - 1], maximum);
    }
  }

  /** With the budget the driver configures, limit times the frame maximum, a legal frame
      is refused as Full exactly when the queue holds `limit` frames: the length test of
      the writable condition agrees with admission. */
  lemma FullIffAtLimit(frames: seq<Frame>, limit: nat, maximum: nat, size: nat)
    requires AllWithin(frames, maximum) && |frames| <= limit && size <= maximum
    ensures Capacity(frames, Opened, limit, limit * maximum, size) ==
            if |frames| < limit then Accepted else Refused(Full)
  {
    BytesBounded(frames, maximum);
    assert |frames| * maximum <= limit * maximum;
    if |frames| < limit {
      assert (|frames| + 1) * maximum <= limit * maximum;
    }
  }

  /** Over any history every accepted frame leaves exactly once and in order: what has left
      followed by what is queued is what was accepted; and the limits always hold. */
  lemma {:induction false} FramesLeaveOnceInOrder(ops: seq<Op>, limit: nat, byteLimit: nat)
    ensures Accounted(Replay(ops, limit, byteLimit), limit, byteLimit)
  {
    if ops != [] {
      FramesLeaveOnceInOrder(ops[..|ops| - 1], limit, byteLimit);
      ApplyKeepsAccount(Replay(ops[..|ops| - 1], limit, byteLimit), ops[|ops| - 1], limit, byteLimit);
    }
  }
}
