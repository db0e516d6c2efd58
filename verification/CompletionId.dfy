/** The 64-bit user data of an I/O-ring operation: slot in the low 31 bits, generation in
    the next 32, and the top bit left for cancellations. */
module CompletionId {
  import opened Wrappers

  const SLOT_RANGE: nat := 0x8000_0000
  const GENERATION_RANGE: nat := 0x1_0000_0000
  const MARKER: nat := 0x8000_0000_0000_0000

  datatype IdError = SlotTooLarge | BadGeneration | Marked

  /** The fields do not overlap, so the source's shift-or is a sum. */
  function Id(slot: nat, generation: nat): nat {
    slot + generation * SLOT_RANGE
  }

  function SlotOf(id: nat): nat { id % SLOT_RANGE }

  function GenerationOf(id: nat): nat { (id / SLOT_RANGE) % GENERATION_RANGE }

  predicate HasMarker(id: nat) { (id / MARKER) % 2 == 1 }

  function Encode(slot: nat, generation: nat): Result<nat, IdError> {
    if slot >= SLOT_RANGE then Err(SlotTooLarge)
    else if generation == 0 || generation >= GENERATION_RANGE then Err(BadGeneration)
    else Ok(Id(slot, generation))
  }

  function Decode(id: nat): Result<(nat, nat), IdError> {
    if HasMarker(id) then Err(Marked)
    else if GenerationOf(id) == 0 then Err(BadGeneration)
    else Ok((SlotOf(id), GenerationOf(id)))
  }

  /** Legal pairs. */
  predicate Legal(slot: nat, generation: nat) {
    slot < SLOT_RANGE && 1 <= generation < GENERATION_RANGE
  }

  /** Decoding what was encoded gives the pair back, and the cancel bit is clear. */
  lemma DecodeEncode(slot: nat, generation: nat)
    requires Legal(slot, generation)
    ensures Encode(slot, generation) == Ok(Id(slot, generation))
    ensures Id(slot, generation) < MARKER && !HasMarker(Id(slot, generation))
    ensures SlotOf(Id(slot, generation)) == slot && GenerationOf(Id(slot, generation)) == generation
    ensures Decode(Id(slot, generation)) == Ok((slot, generation))
  {
    var id := Id(slot, generation);
    assert id / SLOT_RANGE == generation;
    assert id / MARKER == 0;
  }

  /** Encoding what was decoded gives the 64-bit value back. */
  lemma EncodeDecode(id: nat)
    requires id < 2 * MARKER && Decode(id).Ok?
    ensures Encode(Decode(id).value.0, Decode(id).value.1) == Ok(id)
  {
    assert id / MARKER == 0;
    assert id / SLOT_RANGE < GENERATION_RANGE;
  }

  /** A value marked as a cancellation never decodes, and unmarking recovers the operation. */
  lemma MarkedNeverDecodes(slot: nat, generation: nat)
    requires Legal(slot, generation)
    ensures Decode(MARKER + Id(slot, generation)) == Err(Marked)
    ensures (MARKER + Id(slot, generation)) % MARKER == Id(slot, generation)
  {
    DecodeEncode(slot, generation);
  }
}
