/** The transmit callback: validate each packet, then give its bytes to a waiting read or
    to the capture queue, and retire it from the ring. */
module TxCapture {
  import opened Wrappers
  import opened Ring
  import opened FrameQueue
  import opened Descriptors

  // ----- the passes over one packet's fragments -----

  /** One fragment of the validating pass: add its length unless it is out of bounds or
      takes the frame over the maximum. No subtraction underflows. */
  method ValidateFragment(fragment: Fragment, memory: Memory, total: nat, frameMaximum: nat)
      returns (ok: bool, sum: nat)
    requires memory == fragment.memory && total <= frameMaximum
    ensures ok <==> InBounds(fragment) && total + fragment.validLength <= frameMaximum
    ensures sum == if ok then total + fragment.validLength else total
  {
    ok, sum := false, total;
    if memory == Null {
      return;
    }
    if fragment.offset <= fragment.capacity {
      var room: nat := fragment.capacity - fragment.offset;
      if fragment.validLength <= room && fragment.validLength <= frameMaximum {
        var left: nat := frameMaximum - fragment.validLength;
        if total <= left {
          ok, sum := true, total + fragment.validLength;
        }
      }
    }
  }

  /** The validating pass succeeds exactly on a readable run within the frame maximum. */
  method ValidatePass(v: View, start: nat, count: nat, frameMaximum: nat) returns (valid: bool, total: nat)
    requires Coherent(v) && 0 < count <= v.shape.count
    ensures valid <==> start < v.shape.count && Readable(v, start, count) && Total(v, start, count) <= frameMaximum
    ensures valid ==> total == Total(v, start, count)
  {
    valid, total := true, 0;
    var index := start;
    for i := 0 to count
      invariant valid
      invariant i > 0 ==> start < v.shape.count
      invariant start < v.shape.count ==> index == Around(start, i, v.shape.count)
      invariant start < v.shape.count ==> Readable(v, start, i) && total == Total(v, start, i)
      invariant total <= frameMaximum && (i == 0 ==> index == start && total == 0)
    {
      var fragment := FragmentAt(v, index);
      if fragment == None {
        assert start < v.shape.count ==> !InBounds(Nth(v, start, i)) || !Present(v, Around(start, i, v.shape.count));
        valid := false;
        break;
      }
      var address := AddressAt(v, index);
      if address == None {
        assert !InBounds(Nth(v, start, i)) || !Present(v, Around(start, i, v.shape.count));
        valid := false;
        break;
      }
      assert Nth(v, start, i) == fragment.value;
      valid, total := ValidateFragment(fragment.value, address.value, total, frameMaximum);
      if !valid {
        TotalGrows(v, start, i + 1, count);
        break;
      }
      IncrementGoesRound(v.shape, index);
      index := Increment(v.shape, index).value;
    }
  }

  /** Copies the fragments of a packet that validated, one after the other. It cannot fail. */
  method CopyFragments(v: View, start: nat, count: nat, storage: array<Byte>) returns (offset: nat)
    requires Coherent(v) && start < v.shape.count && count <= v.shape.count
    requires Readable(v, start, count) && Total(v, start, count) <= storage.Length
    modifies storage
    ensures offset == Total(v, start, count)
    ensures storage[..offset] == Gather(v, start, count)
  {
    offset := 0;
    var index := start;
    for i := 0 to count
      invariant index == Around(start, i, v.shape.count)
      invariant offset == Total(v, start, i) <= storage.Length
      invariant Readable(v, start, i)
      invariant storage[..offset] == Gather(v, start, i)
    {
      assert Present(v, index) && InBounds(Nth(v, start, i));
      TotalGrows(v, start, i + 1, count);
      var data := Data(FragmentAt(v, index).value);
      offset := CopyFromSlice(storage, offset, data);
      IncrementGoesRound(v.shape, index);
      index := Increment(v.shape, index).value;
    }
  }

  /** The copying pass, on a packet that validated: it cannot fail, stays inside the frame's
      storage and assembles the packet's bytes. */
  method CopyPass(v: View, start: nat, count: nat) returns (storage: array<Byte>, offset: nat)
    requires Coherent(v) && start < v.shape.count && count <= v.shape.count
    requires Readable(v, start, count) && Total(v, start, count) <= FRAME_MAXIMUM
    ensures fresh(storage) && storage.Length == FRAME_MAXIMUM
    ensures offset == Total(v, start, count)
    ensures storage[..offset] == Gather(v, start, count) && Carries(v, start, count, storage[..offset])
  {
    storage := new Byte[FRAME_MAXIMUM](_ => 0);
    offset := CopyFragments(v, start, count, storage);
    GatherIsCarried(v, start, count);
  }

  /** Writes `data` at `offset`, keeping what is before it. */
  method CopyFromSlice(storage: array<Byte>, offset: nat, data: seq<Byte>) returns (end: nat)
    requires offset + |data| <= storage.Length
    modifies storage
    ensures end == offset + |data|
    ensures storage[..end] == old(storage[..offset]) + data
  {
    forall k | 0 <= k < |data| {
      storage[offset + k] := data[k];
    }
    end := offset + |data|;
  }

  // ----- delivery to a waiting read -----

  /** A read request taken from the manual queue: whether its buffer could be retrieved,
      and the buffer's length. */
  datatype ReadRequest = ReadRequest(retrieved: bool, length: nat)

  /** What the callback did to a read request: nothing, an error completion, or a success
      completion with these bytes. */
  datatype Completion = Untouched | Failed | Filled(bytes: Frame)

  /** Everything one iteration learns from outside: how many captured frames readers take
      before it, the flags it reads, the request the read queue yields, and whether
      allocation and ownership let the frame go to the queue. */
  datatype World = World(
    taken: nat, adaptive: bool, passive: bool, guard: bool, adaptiveLater: bool, stillOwner: bool,
    request: Option<ReadRequest>, allocates: bool, ownerUnchanged: bool, adaptiveAtEnqueue: bool)

  /** A read request takes the packet: legacy mode, passive level, the guard, the same owner
      and a request with room. */
  predicate TakenByRead(w: World, total: nat) {
    && !w.adaptive && w.passive && w.guard && !w.adaptiveLater && w.stillOwner
    && w.request.Some? && w.request.value.retrieved && w.request.value.length >= total
  }

  /** A request taken from the queue is completed once: with the packet's bytes, or with an
      error when its buffer is unusable. */
  method DeliverToRead(v: View, start: nat, count: nat, total: nat, w: World)
      returns (delivered: bool, completion: Completion)
    requires Coherent(v) && start < v.shape.count && count <= v.shape.count
    requires Readable(v, start, count) && Total(v, start, count) == total
    requires !w.adaptive && w.passive
    ensures delivered <==> TakenByRead(w, total)
    ensures delivered ==> completion == Filled(Gather(v, start, count)) && Carries(v, start, count, completion.bytes)
    ensures !delivered ==> completion == if w.guard && !w.adaptiveLater && w.stillOwner && w.request.Some?
                                         then Failed else Untouched
  {
    delivered, completion := false, Untouched;
    if !w.guard {
      return;
    }
    if w.adaptiveLater || !w.stillOwner {
      return;
    }
    if w.request == None {
      return;
    }
    if !w.request.value.retrieved {
      completion := Failed;
      return;
    }
    if w.request.value.length < total {
      completion := Failed;
      return;
    }
    var output := new Byte[w.request.value.length](_ => 0);
    var offset := CopyFragments(v, start, count, output);
    delivered, completion := true, Filled(output[..offset]);
    GatherIsCarried(v, start, count);
  }

  // ----- the packet loop -----

  class Rings {
    const shape: NetRing
    const packetSize: nat
    const packets: array<Packet>
    var packetBegin: nat
    const packetEnd: nat
    var fragmentBegin: nat
    const fragmentEnd: nat

    ghost predicate Valid()
      reads this
    {
      && WellShaped(shape)
      && packets.Length == shape.count
      && packetBegin < shape.count && packetEnd < shape.count
    }

    constructor (shape: NetRing, packetSize: nat, packets: array<Packet>, packetBegin: nat, packetEnd: nat,
                 fragmentBegin: nat, fragmentEnd: nat)
      requires WellShaped(shape) && packets.Length == shape.count
      requires packetBegin < shape.count && packetEnd < shape.count
      ensures Valid() && this.packets == packets
    {
      this.shape, this.packetSize, this.packets := shape, packetSize, packets;
      this.packetBegin, this.packetEnd := packetBegin, packetEnd;
      this.fragmentBegin, this.fragmentEnd := fragmentBegin, fragmentEnd;
    }
  }

  /** What became of a consumed packet. */
  datatype Fate = Ignored | Direct(bytes: Frame) | Captured(bytes: Frame) | Dropped

  /** The packet's fate is the one its descriptors and the world call for: unsound packets
      are ignored; a sound one goes to the read that takes it or else to the capture queue,
      never both and never altered, and is dropped only when the queue, whose answer is
      `room`, cannot have it. */
  ghost predicate Agrees(v: View, p: Packet, fragmentEnd: nat, frameMaximum: nat, w: World, room: Outcome, fate: Fate,
                         completion: Completion)
    requires Coherent(v)
  {
    if !Sound(v, p, fragmentEnd, frameMaximum) then fate == Ignored && completion == Untouched
    else if TakenByRead(w, |Bytes(v, p)|) then fate == Direct(Bytes(v, p)) && completion == Filled(Bytes(v, p))
    else
      && !completion.Filled?
      && fate == if w.allocates && w.ownerUnchanged && room == Accepted then Captured(Bytes(v, p)) else Dropped
  }

  /** Whatever was captured or delivered is what the packet's fragments carry, byte for byte. */
  ghost predicate Faithful(v: View, p: Packet, fate: Fate, completion: Completion) {
    && (fate.Direct? || fate.Captured? ==> Carries(v, p.fragmentIndex, p.fragmentCount, fate.bytes))
    && (completion.Filled? ==> Carries(v, p.fragmentIndex, p.fragmentCount, completion.bytes))
  }

  /** The packet is retired without looking at its fragments. */
  predicate Skipped(v: View, p: Packet, fragmentEnd: nat) {
    p.fragmentCount == 0 || p.fragmentIndex == fragmentEnd || p.fragmentCount > v.shape.count
  }

  /** The callback cannot get past this packet: the packet ring's elements are too small, the
      fragment index is outside the fragment ring, or there is no frame pool to copy it to. */
  ghost predicate Blocks(v: View, p: Packet, packetFits: bool, fragmentEnd: nat, frameMaximum: nat, pool: bool, w: World)
    requires Coherent(v)
  {
    || !packetFits
    || (!Skipped(v, p, fragmentEnd) && p.fragmentIndex >= v.shape.count)
    || (!pool && Sound(v, p, fragmentEnd, frameMaximum) && !TakenByRead(w, |Bytes(v, p)|))
  }

  /** The new ignore mark of a packet the callback looked at. */
  predicate Marked(p: Packet, fate: Fate, w: World) {
    p.ignore || fate == Ignored || (fate == Dropped && !(w.allocates && w.ownerUnchanged))
  }

  /** Retires the packet at the packet ring's begin index together with its fragments. */
  method Retire(rings: Rings, v: View, start: nat, count: nat)
    requires rings.Valid() && Coherent(v) && start < v.shape.count && count <= v.shape.count
    modifies rings
    ensures rings.packetBegin == Around(old(rings.packetBegin), 1, rings.shape.count)
    ensures rings.fragmentBegin == Around(start, count, v.shape.count)
  {
    IncrementGoesRound(rings.shape, rings.packetBegin);
    AdvanceIsWalk(v.shape, start, count);
    rings.packetBegin := Increment(rings.shape, rings.packetBegin).value;
    rings.fragmentBegin := Advance(v.shape, start, count).value;
  }

  method MarkIgnored(packets: array<Packet>, index: nat)
    requires index < packets.Length
    modifies packets
    ensures packets[..] == old(packets[..])[index := old(packets[index]).(ignore := true)]
  {
    packets[index] := packets[index].(ignore := true);
  }

  function Least(a: nat, b: nat): nat { if a < b then a else b }

  /** What is left when readers take `count` frames. */
  function Left(queued: seq<Frame>, count: nat): seq<Frame> {
    queued[Least(count, |queued|)..]
  }

  lemma LeftByOne(queued: seq<Frame>, count: nat)
    ensures var left := Left(queued, count);
            Left(queued, count + 1) == if left == [] then [] else left[1..]
  {}

  /** Readers take frames from the front of the capture queue. */
  method ReadersTake(queue: FrameQueue, count: nat)
    requires queue.Valid()
    modifies queue, queue.slots
    ensures queue.Valid() && queue.state == old(queue.state)
    ensures queue.Contents == Left(old(queue.Contents), count)
  {
    ghost var was, state := queue.Contents, queue.state;
    for i := 0 to count
      invariant queue.Valid() && queue.state == state
      invariant queue.Contents == Left(was, i)
    {
      LeftByOne(was, i);
      var frame := queue.Dequeue();
    }
  }

  /** Puts the assembled frame on the capture queue. */
  method Capture(v: View, p: Packet, queue: FrameQueue) returns (fate: Fate)
    requires Coherent(v) && 0 < p.fragmentCount <= v.shape.count && p.fragmentIndex < v.shape.count
    requires Readable(v, p.fragmentIndex, p.fragmentCount) && |Bytes(v, p)| <= FRAME_MAXIMUM && queue.Valid()
    modifies queue, queue.slots
    ensures queue.Valid() && queue.state == old(queue.state)
    ensures if Capacity(old(queue.Contents), queue.state, queue.limit, queue.byteLimit, |Bytes(v, p)|) == Accepted
            then fate == Captured(Bytes(v, p)) && queue.Contents == old(queue.Contents) + [Bytes(v, p)]
            else fate == Dropped && queue.Contents == old(queue.Contents)
  {
    var storage, offset := CopyPass(v, p.fragmentIndex, p.fragmentCount);
    var frame := storage[..offset];
    var r := queue.Enqueue(frame);
    return if r == Accepted then Captured(frame) else Dropped;
  }

  /** The capture queue's answer to a sound packet's frame. */
  ghost function Room(v: View, p: Packet, fragmentEnd: nat, frameMaximum: nat, queued: seq<Frame>, state: QueueState,
                      limit: nat, byteLimit: nat): Outcome
    requires Coherent(v)
  {
    if Sound(v, p, fragmentEnd, frameMaximum) then Capacity(queued, state, limit, byteLimit, |Bytes(v, p)|) else Accepted
  }

  function CapturedBy(fate: Fate): seq<Frame> {
    if fate.Captured? then [fate.bytes] else []
  }

  /** Disposes of the sound packet at the begin index, to a read or to the capture queue. */
  method Dispose(v: View, p: Packet, total: nat, pool: bool, w: World, queue: FrameQueue)
      returns (stop: bool, fate: Fate, completion: Completion, scheduled: bool)
    requires Coherent(v) && 0 < p.fragmentCount <= v.shape.count && p.fragmentIndex < v.shape.count
    requires Readable(v, p.fragmentIndex, p.fragmentCount) && |Bytes(v, p)| == total <= FRAME_MAXIMUM && queue.Valid()
    modifies queue, queue.slots
    ensures queue.Valid() && queue.state == old(queue.state)
    ensures stop <==> !pool && !TakenByRead(w, total)
    ensures stop ==> queue.Contents == old(queue.Contents)
    ensures !stop ==> queue.Contents == old(queue.Contents) + CapturedBy(fate)
    ensures !stop && TakenByRead(w, total) ==>
              fate == Direct(Bytes(v, p)) && completion == Filled(Bytes(v, p)) && !scheduled
    ensures !TakenByRead(w, total) ==> !completion.Filled?
    ensures !stop && !TakenByRead(w, total) ==>
              && fate == (if w.allocates && w.ownerUnchanged
                             && Capacity(old(queue.Contents), queue.state, queue.limit, queue.byteLimit, total) == Accepted
                          then Captured(Bytes(v, p)) else Dropped)
              && scheduled == (fate.Captured? && !w.adaptiveAtEnqueue)
  {
    stop, fate, completion, scheduled := false, Dropped, Untouched, false;
    if !w.adaptive && w.passive {
      var delivered;
      delivered, completion := DeliverToRead(v, p.fragmentIndex, p.fragmentCount, total, w);
      if delivered {
        fate := Direct(completion.bytes);
        return;
      }
    }
    if !pool {
      stop := true;
      return;
    }
    if w.allocates && w.ownerUnchanged {
      fate := Capture(v, p, queue);
      scheduled := fate.Captured? && !w.adaptiveAtEnqueue;
    }
  }

  /** The validating pass and the length test together decide soundness. */
  method Judge(v: View, p: Packet, fragmentEnd: nat, frameMaximum: nat) returns (sound: bool, total: nat)
    requires Coherent(v) && !Skipped(v, p, fragmentEnd)
    ensures sound <==> Sound(v, p, fragmentEnd, frameMaximum)
    ensures sound ==> total == |Bytes(v, p)|
  {
    sound, total := ValidatePass(v, p.fragmentIndex, p.fragmentCount, frameMaximum);
    sound := sound && FRAME_MINIMUM <= total <= frameMaximum;
  }

  datatype Step = Stopped | Consumed(fate: Fate, completion: Completion, scheduled: bool)

  /** Marks an unsound packet ignored and retires it, unless its fragments are nowhere. */
  method Reject(rings: Rings, v: View) returns (step: Step)
    requires rings.Valid() && Coherent(v)
    modifies rings, rings.packets
    ensures rings.Valid()
    ensures var at, p := old(rings.packetBegin), old(rings.packets[rings.packetBegin]);
            && rings.packets[..] == old(rings.packets[..])[at := p.(ignore := true)]
            && if !Skipped(v, p, rings.fragmentEnd) && p.fragmentIndex >= v.shape.count
               then step == Stopped && rings.packetBegin == at && rings.fragmentBegin == old(rings.fragmentBegin)
               else
                 && step == Consumed(Ignored, Untouched, false)
                 && rings.packetBegin == Around(at, 1, rings.shape.count)
                 && rings.fragmentBegin == if Skipped(v, p, rings.fragmentEnd) then old(rings.fragmentBegin)
                                           else Around(p.fragmentIndex, p.fragmentCount, v.shape.count)
  {
    var at := rings.packetBegin;
    var p := rings.packets[at];
    MarkIgnored(rings.packets, at);
    if Skipped(v, p, rings.fragmentEnd) {
      IncrementGoesRound(rings.shape, at);
      rings.packetBegin := Increment(rings.shape, at).value;
      return Consumed(Ignored, Untouched, false);
    }
    FitsIffBelow(v.shape, p.fragmentIndex);
    if Advance(v.shape, p.fragmentIndex, p.fragmentCount) == None {
      return Stopped;
    }
    Retire(rings, v, p.fragmentIndex, p.fragmentCount);
    step := Consumed(Ignored, Untouched, false);
  }

  /** Retires a sound packet, marked ignored when it could not be put up. */
  method Finish(rings: Rings, v: View, lost: bool)
    requires rings.Valid() && Coherent(v)
    requires var p := rings.packets[rings.packetBegin];
             p.fragmentIndex < v.shape.count && p.fragmentCount <= v.shape.count
    modifies rings, rings.packets
    ensures rings.Valid()
    ensures var at, p := old(rings.packetBegin), old(rings.packets[rings.packetBegin]);
            && rings.packetBegin == Around(at, 1, rings.shape.count)
            && rings.fragmentBegin == Around(p.fragmentIndex, p.fragmentCount, v.shape.count)
            && rings.packets[..] == old(rings.packets[..])[at := p.(ignore := p.ignore || lost)]
  {
    var p := rings.packets[rings.packetBegin];
    if lost {
      MarkIgnored(rings.packets, rings.packetBegin);
    }
    Retire(rings, v, p.fragmentIndex, p.fragmentCount);
  }

  /** Disposes of the sound packet at the begin index and retires it. */
  method Settle(rings: Rings, v: View, frameMaximum: nat, total: nat, pool: bool, w: World, queue: FrameQueue) returns (step: Step)
    requires rings.Valid() && Coherent(v) && frameMaximum <= FRAME_MAXIMUM && queue.Valid()
    requires var p := rings.packets[rings.packetBegin];
             Sound(v, p, rings.fragmentEnd, frameMaximum) && total == |Bytes(v, p)|
    modifies rings, rings.packets, queue, queue.slots
    ensures rings.Valid() && queue.Valid() && queue.state == old(queue.state)
    ensures step.Stopped? <==> !pool && !TakenByRead(w, total)
    ensures step.Stopped? ==>
              && rings.packetBegin == old(rings.packetBegin) && rings.fragmentBegin == old(rings.fragmentBegin)
              && rings.packets[..] == old(rings.packets[..]) && queue.Contents == old(queue.Contents)
    ensures var at, p := old(rings.packetBegin), old(rings.packets[rings.packetBegin]);
            step.Consumed? ==>
              && rings.packetBegin == Around(at, 1, rings.shape.count)
              && rings.fragmentBegin == Around(p.fragmentIndex, p.fragmentCount, v.shape.count)
              && rings.packets[..] == old(rings.packets[..])[at := p.(ignore := Marked(p, step.fate, w))]
              && queue.Contents == old(queue.Contents) + CapturedBy(step.fate)
              && (step.scheduled <==> step.fate.Captured? && !w.adaptiveAtEnqueue)
              && Agrees(v, p, rings.fragmentEnd, frameMaximum, w,
                        Capacity(old(queue.Contents), queue.state, queue.limit, queue.byteLimit, total), step.fate, step.completion)
  {
    var p := rings.packets[rings.packetBegin];
    var stop, fate, completion, scheduled := Dispose(v, p, total, pool, w, queue);
    if stop {
      return Stopped;
    }
    Finish(rings, v, fate == Dropped && !(w.allocates && w.ownerUnchanged));
    step := Consumed(fate, completion, scheduled);
  }

  /** One iteration of the packet loop, after readers have taken what they take. */
  method CaptureOne(rings: Rings, v: View, frameMaximum: nat, pool: bool, w: World, queue: FrameQueue) returns (step: Step)
    requires rings.Valid() && Coherent(v) && frameMaximum <= FRAME_MAXIMUM && queue.Valid()
    requires rings.packetBegin != rings.packetEnd
    modifies rings, rings.packets, queue, queue.slots
    ensures rings.Valid() && queue.Valid() && queue.state == old(queue.state)
    ensures queue.Contents == if step.Stopped? then old(queue.Contents) else old(queue.Contents) + CapturedBy(step.fate)
    ensures var at, p := old(rings.packetBegin), old(rings.packets[rings.packetBegin]);
            var room := Room(v, p, rings.fragmentEnd, frameMaximum, old(queue.Contents), queue.state, queue.limit, queue.byteLimit);
            && (step.Stopped? <==> Blocks(v, p, rings.packetSize <= rings.shape.stride, rings.fragmentEnd, frameMaximum, pool, w))
            && (step.Stopped? ==>
                  && rings.packetBegin == at && rings.fragmentBegin == old(rings.fragmentBegin)
                  && forall i :: 0 <= i < rings.packets.Length && i != at ==> rings.packets[i] == old(rings.packets[i]))
            && (step.Consumed? ==>
                  && rings.packetBegin == Around(at, 1, rings.shape.count)
                  && Agrees(v, p, rings.fragmentEnd, frameMaximum, w, room, step.fate, step.completion)
                  && Faithful(v, p, step.fate, step.completion)
                  && (step.scheduled <==> step.fate.Captured? && !w.adaptiveAtEnqueue)
                  && rings.packets[..] == old(rings.packets[..])[at := p.(ignore := Marked(p, step.fate, w))]
                  && rings.fragmentBegin == if Skipped(v, p, rings.fragmentEnd) then old(rings.fragmentBegin)
                                            else Around(p.fragmentIndex, p.fragmentCount, v.shape.count))
  {
    var at := rings.packetBegin;
    FitsIffBelow(rings.shape, at);
    if ElementAt(rings.shape, at, rings.packetSize) == None {
      return Stopped;
    }
    var p := rings.packets[at];
    var sound, total := false, 0;
    if !Skipped(v, p, rings.fragmentEnd) {
      sound, total := Judge(v, p, rings.fragmentEnd, frameMaximum);
    }
    if !sound {
      step := Reject(rings, v);
      return;
    }
    GatherIsCarried(v, p.fragmentIndex, p.fragmentCount);
    step := Settle(rings, v, frameMaximum, total, pool, w, queue);
  }

  // ----- the capture queue along the loop -----

  /** The capture queue after packets with these fates. */
  function QueueAfter(queued: seq<Frame>, world: nat -> World, fates: seq<Fate>): seq<Frame> {
    if fates == [] then queued
    else
      var n := |fates| - 1;
      Left(QueueAfter(queued, world, fates[..n]), world(n).taken) + CapturedBy(fates[n])
  }

  lemma QueueAfterOneMore(queued: seq<Frame>, world: nat -> World, fates: seq<Fate>, fate: Fate)
    ensures QueueAfter(queued, world, fates + [fate])
            == Left(QueueAfter(queued, world, fates), world(|fates|).taken) + CapturedBy(fate)
  {
    assert (fates + [fate])[..|fates|] == fates;
  }

  /** All frames captured, in order. */
  function Captures(fates: seq<Fate>): seq<Frame> {
    if fates == [] then [] else Captures(fates[..|fates| - 1]) + CapturedBy(fates[|fates| - 1])
  }

  /** The frames readers have taken, in order. */
  function ReadersHave(queued: seq<Frame>, world: nat -> World, fates: seq<Fate>): seq<Frame> {
    if fates == [] then []
    else
      var n := |fates| - 1;
      var before := QueueAfter(queued, world, fates[..n]);
      ReadersHave(queued, world, fates[..n]) + before[..Least(world(n).taken, |before|)]
  }

  lemma Shift(queued: seq<Frame>, captures: seq<Frame>, have: seq<Frame>, before: seq<Frame>, cut: nat, more: seq<Frame>)
    requires queued + captures == have + before && cut <= |before|
    ensures queued + (captures + more) == (have + before[..cut]) + (before[cut..] + more)
  {
    assert queued + (captures + more) == (queued + captures) + more;
    assert before == before[..cut] + before[cut..];
  }

  /** Readers get the frames queued before and then exactly the captured ones, in order. */
  lemma {:induction false} CapturedInOrder(queued: seq<Frame>, world: nat -> World, fates: seq<Fate>)
    ensures queued + Captures(fates) == ReadersHave(queued, world, fates) + QueueAfter(queued, world, fates)
  {
    if fates == [] {
      assert queued + [] == [] + queued;
    } else {
      var n := |fates| - 1;
      var before, have := QueueAfter(queued, world, fates[..n]), ReadersHave(queued, world, fates[..n]);
      var cut, more := Least(world(n).taken, |before|), CapturedBy(fates[n]);
      CapturedInOrder(queued, world, fates[..n]);
      Shift(queued, Captures(fates[..n]), have, before, cut, more);
    }
  }

  /** The limits of the queue a callback works on. */
  datatype Limits = Limits(state: QueueState, frames: nat, bytes: nat)

  /** The first packets from `begin` met these fates. */
  ghost predicate AllAgree(v: View, packets: seq<Packet>, begin: nat, fragmentEnd: nat, frameMaximum: nat,
                           world: nat -> World, queued: seq<Frame>, limits: Limits, fates: seq<Fate>, answers: seq<Completion>)
    requires Coherent(v) && begin < |packets|
  {
    && |fates| == |answers| <= |packets|
    && forall k :: 0 <= k < |fates| ==>
         AgreesAt(v, PacketAt(packets, begin, k), fragmentEnd, frameMaximum, world(k),
                  QueueAfter(queued, world, fates[..k]), limits, fates[k], answers[k])
  }

  ghost predicate AgreesAt(v: View, p: Packet, fragmentEnd: nat, frameMaximum: nat, w: World, queued: seq<Frame>,
                           limits: Limits, fate: Fate, answer: Completion)
    requires Coherent(v)
  {
    && Agrees(v, p, fragmentEnd, frameMaximum, w,
              Room(v, p, fragmentEnd, frameMaximum, Left(queued, w.taken), limits.state, limits.frames, limits.bytes), fate, answer)
    && Faithful(v, p, fate, answer)
  }

  /** The packets from place `k` on are as they were. */
  predicate RestUntouched(now: seq<Packet>, was: seq<Packet>, begin: nat, k: nat)
    requires begin < |was| == |now|
  {
    forall j: nat :: k <= j < |was| ==> PacketAt(now, begin, j) == PacketAt(was, begin, j)
  }

  lemma AllAgreeExtend(v: View, packets: seq<Packet>, begin: nat, fragmentEnd: nat, frameMaximum: nat, world: nat -> World,
                       queued: seq<Frame>, limits: Limits, fates: seq<Fate>, answers: seq<Completion>, fate: Fate, answer: Completion)
    requires Coherent(v) && begin < |packets| && |fates| < |packets|
    requires AllAgree(v, packets, begin, fragmentEnd, frameMaximum, world, queued, limits, fates, answers)
    requires AgreesAt(v, PacketAt(packets, begin, |fates|), fragmentEnd, frameMaximum, world(|fates|),
                      QueueAfter(queued, world, fates), limits, fate, answer)
    ensures AllAgree(v, packets, begin, fragmentEnd, frameMaximum, world, queued, limits, fates + [fate], answers + [answer])
  {
    var longer := fates + [fate];
    forall k | 0 <= k < |longer|
      ensures AgreesAt(v, PacketAt(packets, begin, k), fragmentEnd, frameMaximum, world(k),
                       QueueAfter(queued, world, longer[..k]), limits, longer[k], (answers + [answer])[k])
    {
      assert longer[..k] == fates[..k];
      assert k == |fates| ==> fates[..k] == fates;
    }
  }

  lemma UntouchedStep(now: seq<Packet>, was: seq<Packet>, begin: nat, k: nat, p: Packet)
    requires begin < |was| == |now| && k < |was| && RestUntouched(now, was, begin, k)
    ensures RestUntouched(now[Around(begin, k, |was|) := p], was, begin, k + 1)
  {}

  predicate Schedules(world: nat -> World, fates: seq<Fate>) {
    exists k :: 0 <= k < |fates| && fates[k].Captured? && !world(k).adaptiveAtEnqueue
  }

  lemma SchedulesExtend(world: nat -> World, fates: seq<Fate>, fate: Fate)
    ensures Schedules(world, fates + [fate]) <==>
            Schedules(world, fates) || (fate.Captured? && !world(|fates|).adaptiveAtEnqueue)
  {
    var longer := fates + [fate];
    if Schedules(world, fates) {
      var k :| 0 <= k < |fates| && fates[k].Captured? && !world(k).adaptiveAtEnqueue;
      assert longer[k] == fates[k];
    } else if fate.Captured? && !world(|fates|).adaptiveAtEnqueue {
      assert longer[|fates|] == fate;
    }
  }

  /** Stopping at a packet touches no other. */
  lemma UntouchedStop(now: seq<Packet>, was: seq<Packet>, later: seq<Packet>, begin: nat, k: nat)
    requires begin < |was| == |now| == |later| && k < |was| && RestUntouched(now, was, begin, k)
    requires forall i :: 0 <= i < |now| && i != Around(begin, k, |was|) ==> later[i] == now[i]
    ensures RestUntouched(later, was, begin, k + 1)
  {}

  /** One callback: the packets, flags and queue it starts from. */
  datatype Call = Call(v: View, packets: seq<Packet>, begin: nat, fragmentEnd: nat, frameMaximum: nat, world: nat -> World,
                       queued: seq<Frame>, limits: Limits)

  /** Packets, queue and answers after packets with these fates. */
  ghost predicate Along(c: Call, packets: seq<Packet>, queued: seq<Frame>, fates: seq<Fate>, answers: seq<Completion>, scheduled: bool)
    requires Coherent(c.v) && c.begin < |c.packets|
  {
    && AllAgree(c.v, c.packets, c.begin, c.fragmentEnd, c.frameMaximum, c.world, c.queued, c.limits, fates, answers)
    && queued == QueueAfter(c.queued, c.world, fates)
    && |packets| == |c.packets| && RestUntouched(packets, c.packets, c.begin, |fates|)
    && (scheduled <==> Schedules(c.world, fates))
  }

  lemma AlongStart(c: Call)
    requires Coherent(c.v) && c.begin < |c.packets|
    ensures Along(c, c.packets, c.queued, [], [], false)
  {}

  lemma AlongStep(c: Call, packets: seq<Packet>, queued: seq<Frame>, fates: seq<Fate>, answers: seq<Completion>, scheduled: bool,
                  step: Step, p: Packet)
    requires Coherent(c.v) && c.begin < |c.packets| && |fates| < |c.packets| && step.Consumed?
    requires Along(c, packets, queued, fates, answers, scheduled)
    requires var w := c.world(|fates|);
             && AgreesAt(c.v, PacketAt(packets, c.begin, |fates|), c.fragmentEnd, c.frameMaximum, w, queued, c.limits,
                         step.fate, step.completion)
             && (step.scheduled <==> step.fate.Captured? && !w.adaptiveAtEnqueue)
    ensures Along(c, packets[Around(c.begin, |fates|, |c.packets|) := p], Left(queued, c.world(|fates|).taken) + CapturedBy(step.fate),
                  fates + [step.fate], answers + [step.completion], scheduled || step.scheduled)
  {
    assert PacketAt(packets, c.begin, |fates|) == PacketAt(c.packets, c.begin, |fates|);
    AllAgreeExtend(c.v, c.packets, c.begin, c.fragmentEnd, c.frameMaximum, c.world, c.queued, c.limits, fates, answers,
                   step.fate, step.completion);
    UntouchedStep(packets, c.packets, c.begin, |fates|, p);
    QueueAfterOneMore(c.queued, c.world, fates, step.fate);
    SchedulesExtend(c.world, fates, step.fate);
  }

  /** The callback stopped at the packet after these: it blocks, and its readers have been. */
  ghost predicate Halted(c: Call, packetFits: bool, pool: bool, packets: seq<Packet>, queued: seq<Frame>, fates: seq<Fate>,
                         answers: seq<Completion>, scheduled: bool)
    requires Coherent(c.v) && c.begin < |c.packets|
  {
    && |fates| < |c.packets| == |packets|
    && AllAgree(c.v, c.packets, c.begin, c.fragmentEnd, c.frameMaximum, c.world, c.queued, c.limits, fates, answers)
    && queued == Left(QueueAfter(c.queued, c.world, fates), c.world(|fates|).taken)
    && RestUntouched(packets, c.packets, c.begin, |fates| + 1)
    && (scheduled <==> Schedules(c.world, fates))
    && Blocks(c.v, PacketAt(c.packets, c.begin, |fates|), packetFits, c.fragmentEnd, c.frameMaximum, pool, c.world(|fates|))
  }

  lemma AlongStop(c: Call, packets: seq<Packet>, queued: seq<Frame>, fates: seq<Fate>, answers: seq<Completion>, scheduled: bool,
                  packetFits: bool, pool: bool, later: seq<Packet>)
    requires Coherent(c.v) && c.begin < |c.packets| == |later| && |fates| < |c.packets|
    requires Along(c, packets, queued, fates, answers, scheduled)
    requires Blocks(c.v, PacketAt(packets, c.begin, |fates|), packetFits, c.fragmentEnd, c.frameMaximum, pool, c.world(|fates|))
    requires forall i :: 0 <= i < |packets| && i != Around(c.begin, |fates|, |packets|) ==> later[i] == packets[i]
    ensures Halted(c, packetFits, pool, later, Left(queued, c.world(|fates|).taken), fates, answers, scheduled)
  {
    assert PacketAt(packets, c.begin, |fates|) == PacketAt(c.packets, c.begin, |fates|);
    UntouchedStop(packets, c.packets, later, c.begin, |fates|);
  }

  /** What one iteration does to packets and queue, from the packet at `at`. */
  ghost predicate Passes(c: Call, packetFits: bool, pool: bool, w: World, at: nat, packets: seq<Packet>, queued: seq<Frame>,
                         step: Step, later: seq<Packet>, queuedLater: seq<Frame>)
    requires Coherent(c.v)
  {
    && at < |packets| == |later|
    && match step
       case Stopped =>
         && Blocks(c.v, packets[at], packetFits, c.fragmentEnd, c.frameMaximum, pool, w)
         && queuedLater == Left(queued, w.taken)
         && forall i :: 0 <= i < |packets| && i != at ==> later[i] == packets[i]
       case Consumed(fate, completion, scheduled) =>
         && AgreesAt(c.v, packets[at], c.fragmentEnd, c.frameMaximum, w, queued, c.limits, fate, completion)
         && queuedLater == Left(queued, w.taken) + CapturedBy(fate)
         && (scheduled <==> fate.Captured? && !w.adaptiveAtEnqueue)
         && later == packets[at := packets[at].(ignore := Marked(packets[at], fate, w))]
  }

  lemma AlongPass(c: Call, packetFits: bool, pool: bool, packets: seq<Packet>, queued: seq<Frame>, fates: seq<Fate>,
                  answers: seq<Completion>, scheduled: bool, step: Step, later: seq<Packet>, queuedLater: seq<Frame>)
    requires Coherent(c.v) && c.begin < |c.packets| && |fates| < |c.packets|
    requires Along(c, packets, queued, fates, answers, scheduled)
    requires Passes(c, packetFits, pool, c.world(|fates|), Around(c.begin, |fates|, |c.packets|), packets, queued, step, later,
                    queuedLater)
    ensures match step
            case Stopped => Halted(c, packetFits, pool, later, queuedLater, fates, answers, scheduled)
            case Consumed(fate, completion, now) =>
              Along(c, later, queuedLater, fates + [fate], answers + [completion], scheduled || now)
  {
    if step.Stopped? {
      AlongStop(c, packets, queued, fates, answers, scheduled, packetFits, pool, later);
    } else {
      AlongStep(c, packets, queued, fates, answers, scheduled, step, later[Around(c.begin, |fates|, |c.packets|)]);
    }
  }

  /** Readers, then one iteration. */
  method CaptureNext(rings: Rings, v: View, frameMaximum: nat, pool: bool, w: World, queue: FrameQueue, ghost c: Call)
      returns (step: Step)
    requires rings.Valid() && Coherent(v) && frameMaximum <= FRAME_MAXIMUM && queue.Valid()
    requires rings.packetBegin != rings.packetEnd
    requires c.v == v && c.frameMaximum == frameMaximum && c.fragmentEnd == rings.fragmentEnd
    requires c.limits == Limits(queue.state, queue.limit, queue.byteLimit)
    modifies rings, rings.packets, queue, queue.slots
    ensures rings.Valid() && queue.Valid() && queue.state == old(queue.state)
    ensures rings.packetBegin == if step.Stopped? then old(rings.packetBegin) else Around(old(rings.packetBegin), 1, rings.shape.count)
    ensures Passes(c, rings.packetSize <= rings.shape.stride, pool, w, old(rings.packetBegin), old(rings.packets[..]),
                   old(queue.Contents), step, rings.packets[..], queue.Contents)
  {
    ReadersTake(queue, w.taken);
    step := CaptureOne(rings, v, frameMaximum, pool, w, queue);
  }

  /** The begin index is `n` packets past where the callback started, short of the end. */
  predicate Retired(rings: Rings, c: Call, n: nat)
    requires rings.Valid() && c.begin < rings.shape.count
    reads rings
  {
    && n < rings.shape.count && rings.packetBegin == Around(c.begin, n, rings.shape.count)
    && n + Distance(rings.packetBegin, rings.packetEnd, rings.shape.count)
       == Distance(c.begin, rings.packetEnd, rings.shape.count)
  }

  /** The next packet of a callback, and its fate added to those before. */
  method CaptureAlong(rings: Rings, v: View, frameMaximum: nat, pool: bool, w: World, queue: FrameQueue, ghost c: Call,
                      fates: seq<Fate>, answers: seq<Completion>, scheduled: bool)
      returns (stopped: bool, more: seq<Fate>, replies: seq<Completion>, schedule: bool)
    requires rings.Valid() && queue.Valid() && Coherent(v) && frameMaximum <= FRAME_MAXIMUM
    requires c.v == v && c.frameMaximum == frameMaximum && c.world(|fates|) == w
    requires c.begin < |c.packets| == rings.shape.count && c.fragmentEnd == rings.fragmentEnd
    requires c.limits == Limits(queue.state, queue.limit, queue.byteLimit)
    requires rings.packetBegin != rings.packetEnd && Retired(rings, c, |fates|)
    requires Along(c, rings.packets[..], queue.Contents, fates, answers, scheduled)
    modifies rings, rings.packets, queue, queue.slots
    ensures rings.Valid() && queue.Valid() && queue.state == old(queue.state)
    ensures |more| == (if stopped then |fates| else |fates| + 1) && Retired(rings, c, |more|)
    ensures stopped ==>
              && rings.packetBegin != rings.packetEnd
              && Halted(c, rings.packetSize <= rings.shape.stride, pool, rings.packets[..], queue.Contents, more, replies, schedule)
    ensures !stopped ==> Along(c, rings.packets[..], queue.Contents, more, replies, schedule)
  {
    ghost var now, queued := rings.packets[..], queue.Contents;
    OneFurther(c.begin, |fates|, rings.packetEnd, rings.shape.count);
    var step := CaptureNext(rings, v, frameMaximum, pool, w, queue, c);
    AlongPass(c, rings.packetSize <= rings.shape.stride, pool, now, queued, fates, answers, scheduled, step, rings.packets[..],
              queue.Contents);
    match step
    case Stopped => stopped, more, replies, schedule := true, fates, answers, scheduled;
    case Consumed(fate, completion, now) =>
      stopped, more, replies, schedule := false, fates + [fate], answers + [completion], scheduled || now;
  }

  /** The whole callback. It terminates; it retires packets from the front of the ring, each
      with the fate its descriptors and the queue call for and the bytes its fragments carry; it stops before the end only at a
      packet that blocks it; the capture queue has grown by exactly the captured frames; and
      the read worker is scheduled exactly when a frame was captured in legacy mode. */
  method CaptureTransmitPackets(rings: Rings, v: View, frameMaximum: nat, pool: bool, world: nat -> World, queue: FrameQueue)
      returns (fates: seq<Fate>, answers: seq<Completion>, scheduled: bool)
    requires rings.Valid() && Coherent(v) && frameMaximum <= FRAME_MAXIMUM && queue.Valid()
    modifies rings, rings.packets, queue, queue.slots
    ensures rings.Valid() && queue.Valid() && queue.state == old(queue.state)
    ensures |fates| <= Distance(old(rings.packetBegin), rings.packetEnd, rings.shape.count)
    ensures rings.packetBegin == Around(old(rings.packetBegin), |fates|, rings.shape.count)
    ensures var c := Call(v, old(rings.packets[..]), old(rings.packetBegin), rings.fragmentEnd, frameMaximum, world,
                          old(queue.Contents), Limits(queue.state, queue.limit, queue.byteLimit));
            if rings.packetBegin == rings.packetEnd
            then Along(c, rings.packets[..], queue.Contents, fates, answers, scheduled)
            else Halted(c, rings.packetSize <= rings.shape.stride, pool, rings.packets[..], queue.Contents, fates, answers, scheduled)
  {
    fates, answers, scheduled := [], [], false;
    ghost var c := Call(v, rings.packets[..], rings.packetBegin, rings.fragmentEnd, frameMaximum, world, queue.Contents,
                        Limits(queue.state, queue.limit, queue.byteLimit));
    AlongStart(c);
    while rings.packetBegin != rings.packetEnd
      invariant rings.Valid() && queue.Valid() && queue.state == c.limits.state
      invariant Retired(rings, c, |fates|)
      invariant Along(c, rings.packets[..], queue.Contents, fates, answers, scheduled)
      decreases Distance(c.begin, rings.packetEnd, rings.shape.count) - |fates|
    {
      var stopped;
      stopped, fates, answers, scheduled := CaptureAlong(rings, v, frameMaximum, pool, world(|fates|), queue, c, fates, answers, scheduled);
      if stopped {
        break;
      }
    }
  }
}
