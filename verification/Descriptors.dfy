/** NetAdapterCx packet and fragment descriptors, and the bytes a packet stands for:
    the concatenation of its fragments' valid ranges, in ring order. */
module Descriptors {
  import opened Wrappers
  import opened Ring
  import opened FrameQueue

  /** What a fragment's virtual address points to. */
  datatype Memory = Null | Block(bytes: seq<Byte>)

  datatype Fragment = Fragment(offset: nat, capacity: nat, validLength: nat, memory: Memory)

  datatype Packet = Packet(ignore: bool, fragmentIndex: nat, fragmentCount: nat)

  /** The virtual-address extension of the fragment ring. */
  datatype Extension = Extension(enabled: bool, hasBase: bool, stride: nat)

  /** The fragment ring as a callback sees it. `elementSize` is the descriptor size. */
  datatype View = View(shape: NetRing, elementSize: nat, extension: Extension, fragments: seq<Fragment>)

  const ADDRESS_SPACE: nat := 0x1_0000_0000_0000_0000

  /** NetAdapterCx's side of the bargain: a power-of-two ring whose buffers really have
      the capacity they claim. */
  predicate Coherent(v: View) {
    && WellShaped(v.shape)
    && |v.fragments| == v.shape.count
    && forall i :: 0 <= i < |v.fragments| ==> Backed(v.fragments[i])
  }

  predicate Backed(f: Fragment) {
    f.memory.Block? ==> |f.memory.bytes| >= f.capacity
  }

  function FragmentAt(v: View, index: nat): (f: Option<Fragment>)
    requires Coherent(v)
    ensures f.Some? ==> index < v.shape.count && f.value == v.fragments[index]
    ensures f.Some? <==> index < v.shape.count && v.elementSize <= v.shape.stride
  {
    FitsIffBelow(v.shape, index);
    if ElementAt(v.shape, index, v.elementSize) == None then None else Some(v.fragments[index])
  }

  /** The extension lookup; its offset multiplication is checked. */
  function AddressAt(v: View, index: nat): Option<Memory>
    requires index < |v.fragments|
  {
    if !v.extension.enabled || !v.extension.hasBase || index * v.extension.stride >= ADDRESS_SPACE then None
    else Some(v.fragments[index].memory)
  }

  /** Both lookups of one fragment succeed. */
  predicate Present(v: View, index: nat)
    requires index < |v.fragments|
  {
    v.elementSize <= v.shape.stride && AddressAt(v, index).Some?
  }

  /** The valid range lies inside mapped memory. */
  predicate InBounds(f: Fragment) {
    f.memory.Block? && f.offset <= f.capacity && f.validLength <= f.capacity - f.offset
  }

  /** The bytes in the valid range. */
  function Data(f: Fragment): (bytes: seq<Byte>)
    requires InBounds(f) && Backed(f)
    ensures |bytes| == f.validLength
  {
    f.memory.bytes[f.offset..f.offset + f.validLength]
  }

  /** The `j`th fragment of a run from `start`. */
  function Nth(v: View, start: nat, j: nat): Fragment
    requires start < |v.fragments| && j <= |v.fragments|
  {
    v.fragments[Around(start, j, |v.fragments|)]
  }

  /** Every one of the `count` fragments from `start` can be read. */
  predicate Readable(v: View, start: nat, count: nat)
    requires start < |v.fragments| && count <= |v.fragments|
  {
    forall j: nat :: j < count ==>
      Present(v, Around(start, j, |v.fragments|)) && InBounds(Nth(v, start, j))
  }

  function Total(v: View, start: nat, count: nat): nat
    requires start < |v.fragments| && count <= |v.fragments|
  {
    if count == 0 then 0 else Total(v, start, count - 1) + Nth(v, start, count - 1).validLength
  }

  /** The bytes of a packet: its fragments' valid ranges end to end. */
  function Gather(v: View, start: nat, count: nat): (bytes: seq<Byte>)
    requires Coherent(v) && start < |v.fragments| && count <= |v.fragments|
    requires Readable(v, start, count)
    ensures |bytes| == Total(v, start, count)
  {
    if count == 0 then []
    else
      assert InBounds(Nth(v, start, count - 1));
      Gather(v, start, count - 1) + Data(Nth(v, start, count - 1))
  }

  lemma {:induction false} TotalGrows(v: View, start: nat, j: nat, count: nat)
    requires start < |v.fragments| && j <= count <= |v.fragments|
    ensures Total(v, start, j) <= Total(v, start, count)
  {
    if j < count { TotalGrows(v, start, j, count - 1); }
  }

  // ----- the same bytes, one at a time -----

  /** The frame begins with the fragment's memory from its offset on, for its valid length. */
  predicate BeginsWith(frame: seq<Byte>, f: Fragment) {
    && f.memory.Block? && f.offset + f.validLength <= |f.memory.bytes| && f.validLength <= |frame|
    && forall k :: 0 <= k < f.validLength ==> frame[k] == f.memory.bytes[f.offset + k]
  }

  /** The frame is what `count` fragments from `start` on, going round the ring, have in their
      valid ranges, one after the other and nothing besides. */
  predicate Carries(v: View, start: nat, count: nat, frame: seq<Byte>)
    decreases count
  {
    if count == 0 then frame == []
    else
      && start < |v.fragments| && BeginsWith(frame, v.fragments[start])
      && Carries(v, if start + 1 < |v.fragments| then start + 1 else 0, count - 1, frame[v.fragments[start].validLength..])
  }

  /** A run carries one frame only. */
  lemma {:induction false} CarriedOnce(v: View, start: nat, count: nat, a: seq<Byte>, b: seq<Byte>)
    requires Carries(v, start, count, a) && Carries(v, start, count, b)
    ensures a == b
    decreases count
  {
    if count > 0 {
      var n := v.fragments[start].validLength;
      CarriedOnce(v, if start + 1 < |v.fragments| then start + 1 else 0, count - 1, a[n..], b[n..]);
      assert a == a[..n] + a[n..] && b == b[..n] + b[n..];
      assert a[..n] == b[..n];
    }
  }

  lemma ReadableRest(v: View, start: nat, count: nat)
    requires start < |v.fragments| && 0 < count <= |v.fragments| && Readable(v, start, count)
    ensures Readable(v, Around(start, 1, |v.fragments|), count - 1)
  {
    forall j: nat | j < count - 1
      ensures Around(Around(start, 1, |v.fragments|), j, |v.fragments|) == Around(start, j + 1, |v.fragments|) {}
  }

  lemma LastOfRest(v: View, start: nat, count: nat)
    requires start < |v.fragments| && 1 < count <= |v.fragments| && Readable(v, start, count)
    ensures Nth(v, start, count - 1) == Nth(v, Around(start, 1, |v.fragments|), count - 2)
    ensures InBounds(Nth(v, start, count - 1))
  {}

  lemma Regrouped(a: seq<Byte>, b: seq<Byte>, c: seq<Byte>)
    ensures (a + b) + c == a + (b + c)
  {}

  /** The first fragment's bytes come first. */
  lemma {:induction false} GatherFromFirst(v: View, start: nat, count: nat)
    requires Coherent(v) && start < |v.fragments| && 0 < count <= |v.fragments| && Readable(v, start, count)
    ensures Readable(v, Around(start, 1, |v.fragments|), count - 1)
    ensures Present(v, Around(start, 0, |v.fragments|)) && InBounds(v.fragments[start])
    ensures Gather(v, start, count) == Data(v.fragments[start]) + Gather(v, Around(start, 1, |v.fragments|), count - 1)
  {
    var next := Around(start, 1, |v.fragments|);
    ReadableRest(v, start, count);
    assert Nth(v, start, 0) == v.fragments[start];
    if count == 1 {
      assert Gather(v, start, 0) == [] && Gather(v, next, 0) == [];
    } else {
      GatherFromFirst(v, start, count - 1);
      var last := Nth(v, start, count - 1);
      LastOfRest(v, start, count);
      Regrouped(Data(v.fragments[start]), Gather(v, next, count - 2), Data(last));
    }
  }

  lemma {:induction false} GatherIsCarried(v: View, start: nat, count: nat)
    requires Coherent(v) && start < |v.fragments| && count <= |v.fragments| && Readable(v, start, count)
    ensures Carries(v, start, count, Gather(v, start, count))
    decreases count
  {
    if count > 0 {
      var next, f := Around(start, 1, |v.fragments|), v.fragments[start];
      GatherFromFirst(v, start, count);
      GatherIsCarried(v, next, count - 1);
      assert Gather(v, start, count)[f.validLength..] == Gather(v, next, count - 1);
    }
  }

  /** A packet the transmit path may hand on: a run of readable fragments of legal length. */
  predicate Sound(v: View, p: Packet, fragmentEnd: nat, frameMaximum: nat)
    requires Coherent(v)
  {
    && 0 < p.fragmentCount <= v.shape.count
    && p.fragmentIndex != fragmentEnd
    && p.fragmentIndex < v.shape.count
    && Readable(v, p.fragmentIndex, p.fragmentCount)
    && FRAME_MINIMUM <= Total(v, p.fragmentIndex, p.fragmentCount) <= frameMaximum
  }

  /** The frame a sound packet carries. */
  function Bytes(v: View, p: Packet): Frame
    requires Coherent(v)
    requires 0 < p.fragmentCount <= v.shape.count && p.fragmentIndex < v.shape.count
    requires Readable(v, p.fragmentIndex, p.fragmentCount)
  {
    Gather(v, p.fragmentIndex, p.fragmentCount)
  }

  /** The packet `k` places on from `begin`. */
  function PacketAt(packets: seq<Packet>, begin: nat, k: nat): Packet
    requires begin < |packets| && k <= |packets|
  {
    packets[Around(begin, k, |packets|)]
  }
}
