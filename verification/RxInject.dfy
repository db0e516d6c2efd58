/** The receive callback: move injected frames into receive descriptors, one packet of one
    fragment each, and give back the one that does not fit. */
module RxInject {
  import opened Wrappers
  import opened Ring
  import opened FrameQueue
  import opened Descriptors

  class Rings {
    const shape: NetRing
    const packetSize: nat
    const packets: array<Packet>
    var packetBegin: nat
    const packetEnd: nat
    const fragmentShape: NetRing
    const fragmentSize: nat
    const extension: Extension
    const fragments: array<Fragment>
    var fragmentBegin: nat
    const fragmentEnd: nat

    /** The fragment ring with its present contents. */
    ghost function Fragments(): View
      reads fragments
    {
      View(fragmentShape, fragmentSize, extension, fragments[..])
    }

    ghost predicate Valid()
      reads this, fragments
    {
      && WellShaped(shape) && packets.Length == shape.count
      && packetBegin < shape.count && packetEnd < shape.count
      && Coherent(Fragments())
      && fragmentBegin < fragmentShape.count && fragmentEnd < fragmentShape.count
    }

    constructor (shape: NetRing, packetSize: nat, packets: array<Packet>, packetBegin: nat, packetEnd: nat,
                 fragmentShape: NetRing, fragmentSize: nat, extension: Extension, fragments: array<Fragment>,
                 fragmentBegin: nat, fragmentEnd: nat)
      requires WellShaped(shape) && packets.Length == shape.count
      requires packetBegin < shape.count && packetEnd < shape.count
      requires Coherent(View(fragmentShape, fragmentSize, extension, fragments[..]))
      requires fragmentBegin < fragmentShape.count && fragmentEnd < fragmentShape.count
      ensures Valid() && this.packets == packets && this.fragments == fragments
    {
      this.shape, this.packetSize, this.packets := shape, packetSize, packets;
      this.packetBegin, this.packetEnd := packetBegin, packetEnd;
      this.fragmentShape, this.fragmentSize, this.extension, this.fragments := fragmentShape, fragmentSize, extension, fragments;
      this.fragmentBegin, this.fragmentEnd := fragmentBegin, fragmentEnd;
    }
  }

  /** The descriptors at these begin indices can take a frame of this size. */
  predicate Accommodates(packetFits: bool, v: View, index: nat, size: nat)
    requires index < |v.fragments|
  {
    packetFits && Present(v, index) && v.fragments[index].memory.Block? && size <= v.fragments[index].capacity
  }

  /** The fragment after the frame has been copied to the start of its buffer. */
  function Refilled(f: Fragment, frame: Frame): Fragment
    requires f.memory.Block? && |frame| <= f.capacity <= |f.memory.bytes|
  {
    Fragment(0, f.capacity, |frame|, Block(frame + f.memory.bytes[|frame|..]))
  }

  /** The fragment's valid range is this frame. */
  predicate HoldsFrame(f: Fragment, frame: Frame) {
    && f.memory.Block? && f.offset == 0 && f.validLength == |frame| <= f.capacity
    && |frame| <= |f.memory.bytes| && f.memory.bytes[..|frame|] == frame
  }

  predicate Placed(v: View, index: nat, frame: Frame) {
    index < |v.fragments| && Present(v, index) && HoldsFrame(v.fragments[index], frame)
  }

  /** A packet of the one fragment that holds a frame stands for exactly that frame. */
  lemma PlacedCarries(v: View, p: Packet, frame: Frame)
    requires Coherent(v) && Placed(v, p.fragmentIndex, frame) && p.fragmentCount == 1
    ensures Readable(v, p.fragmentIndex, 1) && Bytes(v, p) == frame
  {
    assert Nth(v, p.fragmentIndex, 0) == v.fragments[p.fragmentIndex];
    assert Gather(v, p.fragmentIndex, 0) == [];
    assert Data(v.fragments[p.fragmentIndex]) == frame;
  }

  /** Tries to indicate one frame in the descriptors at the begin indices. On refusal only
      the unused fragment's offset can have changed; on success both indices move on one. */
  method IndicateOne(rings: Rings, frame: Frame) returns (ok: bool)
    requires rings.Valid()
    modifies rings, rings.packets, rings.fragments
    ensures rings.Valid()
    ensures ok == Accommodates(rings.packetSize <= rings.shape.stride, old(rings.Fragments()), old(rings.fragmentBegin), |frame|)
    ensures !ok ==>
              && rings.packetBegin == old(rings.packetBegin) && rings.fragmentBegin == old(rings.fragmentBegin)
              && rings.packets[..] == old(rings.packets[..])
              && rings.fragments[..] == old(rings.fragments[..])[rings.fragmentBegin :=
                   old(rings.fragments[rings.fragmentBegin]).(offset := rings.fragments[rings.fragmentBegin].offset)]
    ensures ok ==>
              && rings.packetBegin == Around(old(rings.packetBegin), 1, rings.shape.count)
              && rings.fragmentBegin == Around(old(rings.fragmentBegin), 1, rings.fragmentShape.count)
              && rings.packets[..] == old(rings.packets[..])[old(rings.packetBegin) := Packet(false, old(rings.fragmentBegin), 1)]
              && rings.fragments[..] == old(rings.fragments[..])[old(rings.fragmentBegin) :=
                                          Refilled(old(rings.fragments[rings.fragmentBegin]), frame)]
  {
    ok := false;
    var at, index := rings.packetBegin, rings.fragmentBegin;
    FitsIffBelow(rings.shape, at);
    if ElementAt(rings.shape, at, rings.packetSize) == None {
      return;
    }
    FitsIffBelow(rings.fragmentShape, index);
    if ElementAt(rings.fragmentShape, index, rings.fragmentSize) == None {
      return;
    }
    if !rings.extension.enabled || !rings.extension.hasBase || index * rings.extension.stride >= ADDRESS_SPACE {
      return;
    }
    var fragment := rings.fragments[index];
    if fragment.memory == Null {
      return;
    }
    assert Backed(fragment);
    if |frame| > fragment.capacity {
      SetFragment(rings, index, fragment.(offset := 0));
      return;
    }
    SetFragment(rings, index, Refilled(fragment, frame));
    rings.packets[at] := Packet(false, index, 1);
    IncrementGoesRound(rings.shape, at);
    IncrementGoesRound(rings.fragmentShape, index);
    rings.packetBegin := Increment(rings.shape, at).value;
    rings.fragmentBegin := Increment(rings.fragmentShape, index).value;
    ok := true;
  }

  method SetFragment(rings: Rings, index: nat, f: Fragment)
    requires rings.Valid() && index < rings.fragments.Length && Backed(f)
    modifies rings.fragments
    ensures rings.Valid()
    ensures rings.fragments[..] == old(rings.fragments[..])[index := f]
  {
    rings.fragments[index] := f;
  }

  // ----- the whole callback -----

  /** The frames stand in order in consecutive packets and fragments from the begin indices. */
  ghost predicate Lined(packets: seq<Packet>, v: View, packetBegin: nat, fragmentBegin: nat, frames: seq<Frame>) {
    && packetBegin < |packets| && |frames| <= |packets|
    && fragmentBegin < |v.fragments| && |frames| <= |v.fragments|
    && forall k :: 0 <= k < |frames| ==>
         && PacketAt(packets, packetBegin, k) == Packet(false, Around(fragmentBegin, k, |v.fragments|), 1)
         && Placed(v, Around(fragmentBegin, k, |v.fragments|), frames[k])
  }

  lemma LinedExtend(packets: seq<Packet>, v: View, packetBegin: nat, fragmentBegin: nat, frames: seq<Frame>, frame: Frame)
    requires Lined(packets, v, packetBegin, fragmentBegin, frames)
    requires |frames| < |packets| && |frames| < |v.fragments|
    requires var index := Around(fragmentBegin, |frames|, |v.fragments|);
             && Present(v, index) && v.fragments[index].memory.Block?
             && |frame| <= v.fragments[index].capacity <= |v.fragments[index].memory.bytes|
    ensures var index := Around(fragmentBegin, |frames|, |v.fragments|);
            Lined(packets[Around(packetBegin, |frames|, |packets|) := Packet(false, index, 1)],
                  v.(fragments := v.fragments[index := Refilled(v.fragments[index], frame)]),
                  packetBegin, fragmentBegin, frames + [frame])
  {
    var index := Around(fragmentBegin, |frames|, |v.fragments|);
    var v' := v.(fragments := v.fragments[index := Refilled(v.fragments[index], frame)]);
    assert v'.fragments[index].memory.bytes[..|frame|] == frame;
    forall k | 0 <= k < |frames| ensures Placed(v', Around(fragmentBegin, k, |v.fragments|), frames[k]) {
      assert Placed(v, Around(fragmentBegin, k, |v.fragments|), frames[k]);
    }
  }

  /** Resetting the offset of the fragment after the line leaves the line, and what fits. */
  lemma LinedKeep(packets: seq<Packet>, v: View, offset: nat, packetBegin: nat, fragmentBegin: nat, frames: seq<Frame>,
                  packetFits: bool, size: nat)
    requires Lined(packets, v, packetBegin, fragmentBegin, frames) && |frames| < |v.fragments|
    requires !Accommodates(packetFits, v, Around(fragmentBegin, |frames|, |v.fragments|), size)
    ensures var index := Around(fragmentBegin, |frames|, |v.fragments|);
            var v' := v.(fragments := v.fragments[index := v.fragments[index].(offset := offset)]);
            Lined(packets, v', packetBegin, fragmentBegin, frames) && !Accommodates(packetFits, v', index, size)
  {
    var index := Around(fragmentBegin, |frames|, |v.fragments|);
    var v' := v.(fragments := v.fragments[index := v.fragments[index].(offset := offset)]);
    forall k | 0 <= k < |frames| ensures Placed(v', Around(fragmentBegin, k, |v.fragments|), frames[k]) {
      assert Placed(v, Around(fragmentBegin, k, |v.fragments|), frames[k]);
    }
  }

  /** Why the callback returned: descriptors or frames ran out, or a frame did not fit and
      went back to the tail of the queue or was released. */
  datatype Ending = NoDescriptor | NoFrame | Returned(frame: Frame) | Released(frame: Frame)

  /** Frames that writers add while the callback runs. */
  method Arrive(queue: FrameQueue, frames: seq<Frame>) returns (ghost accepted: seq<Frame>)
    requires queue.Valid()
    modifies queue, queue.slots
    ensures queue.Valid() && queue.state == old(queue.state)
    ensures queue.Contents == old(queue.Contents) + accepted
  {
    accepted := [];
    for i := 0 to |frames|
      invariant queue.Valid() && queue.state == old(queue.state)
      invariant queue.Contents == old(queue.Contents) + accepted
    {
      var r := queue.Enqueue(frames[i]);
      accepted := accepted + if r == Accepted then [frames[i]] else [];
    }
  }

  /** Gives the frame back to the tail of the queue if the owner is still the one observed
      and the queue takes it, and releases it otherwise. */
  method Requeue(queue: FrameQueue, frame: Frame, owner: bool) returns (ending: Ending)
    requires queue.Valid()
    modifies queue, queue.slots
    ensures queue.Valid() && queue.state == old(queue.state)
    ensures if owner && Capacity(old(queue.Contents), queue.state, queue.limit, queue.byteLimit, |frame|) == Accepted
            then ending == Returned(frame) && queue.Contents == old(queue.Contents) + [frame]
            else ending == Released(frame) && queue.Contents == old(queue.Contents)
  {
    if owner {
      var r := queue.Enqueue(frame);
      if r == Accepted {
        return Returned(frame);
      }
    }
    return Released(frame);
  }

  lemma Account(was: seq<Frame>, accepted: seq<Frame>, more: seq<Frame>, indicated: seq<Frame>, queued: seq<Frame>)
    requires was + accepted == indicated + queued
    ensures was + (accepted + more) == indicated + (queued + more)
  {
    assert was + (accepted + more) == (was + accepted) + more;
    assert indicated + (queued + more) == (indicated + queued) + more;
  }

  lemma HeadAndTail(frames: seq<Frame>)
    requires frames != []
    ensures frames == [frames[0]] + frames[1..]
  {}

  lemma Shift(indicated: seq<Frame>, frame: Frame, rest: seq<Frame>)
    ensures indicated + ([frame] + rest) == indicated + [frame] + rest
  {}

  /** Every frame the queue held or took in is indicated, still queued, returned or
      released, once each; only a returned frame leaves its place in the order. */
  ghost predicate Conserved(was: seq<Frame>, accepted: seq<Frame>, indicated: seq<Frame>, ending: Ending, queued: seq<Frame>) {
    match ending
    case NoDescriptor => was + accepted == indicated + queued
    case NoFrame => was + accepted == indicated && queued == []
    case Released(frame) => was + accepted == indicated + [frame] + queued
    case Returned(frame) =>
      queued != [] && queued[|queued| - 1] == frame && was + accepted == indicated + [frame] + queued[..|queued| - 1]
  }

  lemma ConservedWhenRefused(was: seq<Frame>, accepted: seq<Frame>, indicated: seq<Frame>, frame: Frame, rest: seq<Frame>)
    requires was + accepted == indicated + ([frame] + rest)
    ensures Conserved(was, accepted, indicated, Released(frame), rest)
    ensures Conserved(was, accepted, indicated, Returned(frame), rest + [frame])
  {
    assert (rest + [frame])[..|rest|] == rest;
    assert indicated + [frame] + rest == indicated + ([frame] + rest);
  }

  /** Both begin indices have moved `n` places from where they started, short of the ends. */
  ghost predicate Advanced(rings: Rings, packetBegin: nat, fragmentBegin: nat, n: nat)
    requires rings.Valid()
    reads rings, rings.fragments
  {
    && packetBegin < rings.shape.count && fragmentBegin < rings.fragmentShape.count
    && n <= Distance(packetBegin, rings.packetEnd, rings.shape.count)
    && n <= Distance(fragmentBegin, rings.fragmentEnd, rings.fragmentShape.count)
    && rings.packetBegin == Around(packetBegin, n, rings.shape.count)
    && rings.fragmentBegin == Around(fragmentBegin, n, rings.fragmentShape.count)
  }

  /** Takes the oldest frame, after whatever writers add first. */
  method TakeNext(queue: FrameQueue, frames: seq<Frame>, ghost was: seq<Frame>, ghost accepted: seq<Frame>, ghost indicated: seq<Frame>)
      returns (slot: Slot, ghost more: seq<Frame>)
    requires queue.Valid() && was + accepted == indicated + queue.Contents
    modifies queue, queue.slots
    ensures queue.Valid() && queue.state == old(queue.state)
    ensures slot == Uninit ==> queue.Contents == [] && was + more == indicated
    ensures slot.Held? ==> was + more == indicated + ([slot.frame] + queue.Contents)
  {
    ghost var before := queue.Contents;
    ghost var arrived := Arrive(queue, frames);
    Account(was, accepted, arrived, indicated, before);
    more := accepted + arrived;
    ghost var queued := queue.Contents;
    slot := queue.Dequeue();
    if queued != [] { HeadAndTail(queued); }
  }

  /** One attempt to indicate, as part of a line of indicated frames. */
  method IndicateNext(rings: Rings, frame: Frame, ghost pb: nat, ghost fb: nat, ghost indicated: seq<Frame>) returns (ok: bool)
    requires rings.Valid() && Advanced(rings, pb, fb, |indicated|)
    requires rings.packetBegin != rings.packetEnd && rings.fragmentBegin != rings.fragmentEnd
    requires Lined(rings.packets[..], rings.Fragments(), pb, fb, indicated)
    modifies rings, rings.packets, rings.fragments
    ensures rings.Valid() && Advanced(rings, pb, fb, |indicated| + if ok then 1 else 0)
    ensures Lined(rings.packets[..], rings.Fragments(), pb, fb, if ok then indicated + [frame] else indicated)
    ensures !ok ==> !Accommodates(rings.packetSize <= rings.shape.stride, rings.Fragments(), rings.fragmentBegin, |frame|)
  {
    OneFurther(pb, |indicated|, rings.packetEnd, rings.shape.count);
    OneFurther(fb, |indicated|, rings.fragmentEnd, rings.fragmentShape.count);
    ghost var packets, v := rings.packets[..], rings.Fragments();
    ok := IndicateOne(rings, frame);
    if ok {
      LinedExtend(packets, v, pb, fb, indicated, frame);
    } else {
      LinedKeep(packets, v, rings.fragments[rings.fragmentBegin].offset, pb, fb, indicated,
                rings.packetSize <= rings.shape.stride, |frame|);
    }
  }

  /** The state between two iterations: the frames indicated so far stand in the
      descriptors passed, and every frame the queue held or took in is there or queued. */
  ghost predicate Running(rings: Rings, queue: FrameQueue, pb: nat, fb: nat, was: seq<Frame>, accepted: seq<Frame>,
                          indicated: seq<Frame>)
    reads rings, rings.packets, rings.fragments, queue, queue.slots
  {
    && rings.Valid() && queue.Valid()
    && Advanced(rings, pb, fb, |indicated|)
    && Lined(rings.packets[..], rings.Fragments(), pb, fb, indicated)
    && was + accepted == indicated + queue.Contents
  }

  /** How the callback may end. */
  ghost predicate Finished(rings: Rings, queue: FrameQueue, owner: bool, pb: nat, fb: nat, was: seq<Frame>,
                           accepted: seq<Frame>, indicated: seq<Frame>, ending: Ending)
    reads rings, rings.packets, rings.fragments, queue, queue.slots
  {
    && rings.Valid() && queue.Valid()
    && Advanced(rings, pb, fb, |indicated|)
    && Lined(rings.packets[..], rings.Fragments(), pb, fb, indicated)
    && Conserved(was, accepted, indicated, ending, queue.Contents)
    && (ending == NoDescriptor ==> rings.packetBegin == rings.packetEnd || rings.fragmentBegin == rings.fragmentEnd)
    && (ending.Returned? || ending.Released? ==>
          !Accommodates(rings.packetSize <= rings.shape.stride, rings.Fragments(), rings.fragmentBegin, |ending.frame|))
    && (ending.Released? ==>
          !owner || Capacity(queue.Contents, queue.state, queue.limit, queue.byteLimit, |ending.frame|) != Accepted)
  }

  datatype Turn = Indicated(frame: Frame) | Ended(ending: Ending)

  /** One iteration. */
  method InjectOne(rings: Rings, queue: FrameQueue, frames: seq<Frame>, owner: bool, ghost pb: nat, ghost fb: nat,
                   ghost was: seq<Frame>, ghost accepted: seq<Frame>, ghost indicated: seq<Frame>)
      returns (turn: Turn, ghost more: seq<Frame>)
    requires Running(rings, queue, pb, fb, was, accepted, indicated)
    requires rings.packetBegin != rings.packetEnd && rings.fragmentBegin != rings.fragmentEnd
    modifies rings, rings.packets, rings.fragments, queue, queue.slots
    ensures queue.state == old(queue.state)
    ensures turn.Indicated? ==> Running(rings, queue, pb, fb, was, more, indicated + [turn.frame])
    ensures turn.Ended? ==> Finished(rings, queue, owner, pb, fb, was, more, indicated, turn.ending)
  {
    var slot;
    slot, more := TakeNext(queue, frames, was, accepted, indicated);
    if slot == Uninit {
      return Ended(NoFrame), more;
    }
    var frame := slot.frame;
    var ok := IndicateNext(rings, frame, pb, fb, indicated);
    if !ok {
      ConservedWhenRefused(was, more, indicated, frame, queue.Contents);
      var ending := Requeue(queue, frame, owner);
      return Ended(ending), more;
    }
    Shift(indicated, frame, queue.Contents);
    turn := Indicated(frame);
  }

  /** The whole callback. Packet and fragment begin indices move together and stop at the
      nearer end index; the indicated frames stand byte for byte in the descriptors passed;
      no frame is lost or duplicated. */
  method InjectReceiveFrames(rings: Rings, queue: FrameQueue, arrivals: nat -> seq<Frame>, owner: bool)
      returns (indicated: seq<Frame>, ending: Ending, ghost accepted: seq<Frame>)
    requires rings.Valid() && queue.Valid()
    modifies rings, rings.packets, rings.fragments, queue, queue.slots
    ensures queue.state == old(queue.state)
    ensures Finished(rings, queue, owner, old(rings.packetBegin), old(rings.fragmentBegin), old(queue.Contents),
                     accepted, indicated, ending)
  {
    indicated, accepted := [], [];
    ghost var pb, fb, was := rings.packetBegin, rings.fragmentBegin, queue.Contents;
    while rings.packetBegin != rings.packetEnd && rings.fragmentBegin != rings.fragmentEnd
      invariant Running(rings, queue, pb, fb, was, accepted, indicated) && queue.state == old(queue.state)
      decreases Distance(pb, rings.packetEnd, rings.shape.count) - |indicated|
    {
      var turn;
      turn, accepted := InjectOne(rings, queue, arrivals(|indicated|), owner, pb, fb, was, accepted, indicated);
      if turn.Ended? {
        ending := turn.ending;
        return;
      }
      indicated := indicated + [turn.frame];
    }
    ending := NoDescriptor;
  }

  /** Read back through the transmit path's gather, every indicated packet yields its frame. */
  lemma LinedCarries(packets: seq<Packet>, v: View, packetBegin: nat, fragmentBegin: nat, frames: seq<Frame>, k: nat)
    requires Coherent(v) && Lined(packets, v, packetBegin, fragmentBegin, frames) && k < |frames|
    ensures var p := PacketAt(packets, packetBegin, k);
            p.fragmentCount == 1 && Readable(v, p.fragmentIndex, 1) && Bytes(v, p) == frames[k]
  {
    PlacedCarries(v, PacketAt(packets, packetBegin, k), frames[k]);
  }
}
